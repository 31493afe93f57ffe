/** Any number of schedulers polling one store (crates/queue/src/scheduler.rs, crates/queue/src/store.rs).

    Claiming is one atomic store operation; everything after it is not. A scheduler takes the claimed jobs one at a
    time: announce the start, run the handler, write the result back, announce the result. Every one of these is a
    step here, so steps of different schedulers interleave freely. */
module QueueProtocol {
  import opened Jobs
  import opened MemoryStores
  import opened Options
  import opened Times

  datatype Outcome = Succeeds | Fails(error: string)

  /** What `execute` writes back after the handler has answered; `now` is the clock as it is read then. */
  function Settle(job: Job, outcome: Outcome, now: Time): Job {
    match outcome
    case Succeeds => job.(state := Succeeded, lastError := None)
    case Fails(error) =>
      var failed := job.(lastError := Some(error));
      if failed.CanRetry() then
        failed.(state := Scheduled, dueAt := now + failed.NextBackoffMs() * NANOS_PER_MS)
      else
        failed.(state := Dead)
  }

  datatype Transition = Transition(job: JobId, from: JobState, to: JobState, attempt: nat)

  function Opening(job: Job): Transition {
    Transition(job.id, Scheduled, Running, job.attempt)
  }

  function Closing(next: Job): Transition {
    Transition(next.id, Running, next.state, next.attempt)
  }

  /** A transition as the store made it, with the clock reading that decided it. */
  datatype Entry = Entry(t: Transition, at: Time)

  /** The job a scheduler is busy with: started, answered by its handler, or written back (or not, when the write failed)
      and not yet announced. */
  datatype Exec = Idle | Began(job: Job) | Answered(job: Job, next: Job, at: Time) | Stored(next: Job) | Unsaved(next: Job)

  /** One call of a handler: which attempt of which job, what it answered, and the clock as it is read then. */
  datatype Call = Call(job: JobId, attempt: nat, outcome: Outcome, at: Time)

  /** Which attempts those calls were. */
  function Tries(runs: seq<Call>): seq<(JobId, nat)> {
    seq(|runs|, i requires 0 <= i < |runs| => (runs[i].job, runs[i].attempt))
  }

  datatype Sched = Sched(queue: seq<Job>, exec: Exec)

  datatype World = World(
    jobs: map<JobId, Job>,
    scheds: seq<Sched>,
    now: Time,
    events: seq<Transition>,         // announced on the bus, in order
    runs: seq<Call>,                 // handler calls, in order
    // What follows is bookkeeping that no step reads.
    enqueued: map<JobId, Job>,       // every job as it was first put
    holder: map<JobId, nat>,         // who has claimed a job and not yet written it back
    stranded: set<JobId>,            // running jobs that nobody will write back any more
    lost: set<JobId>,                // those of them whose claim never reached a scheduler
    history: seq<Entry>,             // transitions in the order the store made them
    phantoms: seq<Transition>,       // results whose write-back failed
    silent: seq<Transition>          // starts that no scheduler knows of
  )

  function Start(schedulers: nat, now: Time): World {
    World(map[], seq(schedulers, _ => Sched([], Idle)), now, [], [], map[], map[], {}, {}, [], [], [])
  }

  datatype Step =
    | Enqueue(job: Job)
    | Advance(ms: nat)
    | Claim(s: nat, reading: Time, order: seq<JobId>)
    | LoseClaim(s: nat, reading: Time, order: seq<JobId>)   // the store claims, but answers with an error
    | Begin(s: nat)
    | Handle(s: nat, outcome: Outcome)
    | Persist(s: nat)
    | LosePersist(s: nat)
    | Announce(s: nat)

  ghost predicate CanClaim(w: World, s: nat, reading: Time, order: seq<JobId>) {
    s < |w.scheds| && w.scheds[s] == Sched([], Idle) && ListsDue(order, w.jobs, reading) &&
    reading <= w.now && WholeMillisApart(w.now, reading)
  }

  ghost predicate Enabled(w: World, step: Step) {
    match step
    case Enqueue(job) =>
      job.id !in w.jobs && job.state == Scheduled && job.attempt == 0 && WholeMillisApart(w.now, job.dueAt)
    case Advance(_) => true
    case Claim(s, reading, order) => CanClaim(w, s, reading, order)
    case LoseClaim(s, reading, order) => CanClaim(w, s, reading, order)
    case Begin(s) => s < |w.scheds| && w.scheds[s].exec.Idle? && w.scheds[s].queue != []
    case Handle(s, _) => s < |w.scheds| && w.scheds[s].exec.Began?
    case Persist(s) => s < |w.scheds| && w.scheds[s].exec.Answered?
    case LosePersist(s) => s < |w.scheds| && w.scheds[s].exec.Answered?
    case Announce(s) => s < |w.scheds| && Owes(w.scheds[s].exec)
  }

  function Openings(queue: seq<Job>): seq<Transition> {
    if queue == [] then [] else [Opening(queue[0])] + Openings(queue[1..])
  }

  function OpeningEntries(claimed: seq<Job>, at: Time): seq<Entry> {
    if claimed == [] then [] else [Entry(Opening(claimed[0]), at)] + OpeningEntries(claimed[1..], at)
  }

  /** The holder table once scheduler `s` has claimed these jobs. */
  ghost function Claimed(holder: map<JobId, nat>, ids: set<JobId>, s: nat): map<JobId, nat> {
    map id | id in holder.Keys + ids :: if id in ids then s else holder[id]
  }

  /** A result is still to be announced. */
  predicate Owes(exec: Exec) {
    exec.Stored? || exec.Unsaved?
  }

  /** Scheduler `s` is done with its job and has only the announcement left to make. */
  function Release(scheds: seq<Sched>, s: nat, exec: Exec): seq<Sched>
    requires s < |scheds|
  {
    scheds[s := scheds[s].(exec := exec)]
  }

  ghost function Apply(w: World, step: Step): World
    requires Enabled(w, step)
  {
    match step
    case Enqueue(job) => w.(jobs := w.jobs[job.id := job], enqueued := w.enqueued[job.id := job])
    case Advance(ms) => w.(now := w.now + ms * NANOS_PER_MS)
    case Claim(s, reading, order) =>
      var claimed := HandedOut(order, w.jobs);
      w.(jobs := AfterClaim(w.jobs, reading),
         scheds := w.scheds[s := Sched(claimed, Idle)],
         holder := Claimed(w.holder, DueIds(w.jobs, reading), s),
         history := w.history + OpeningEntries(claimed, reading))
    case LoseClaim(_, reading, order) =>
      var claimed := HandedOut(order, w.jobs);
      w.(jobs := AfterClaim(w.jobs, reading),
         stranded := w.stranded + DueIds(w.jobs, reading),
         lost := w.lost + DueIds(w.jobs, reading),
         history := w.history + OpeningEntries(claimed, reading),
         silent := w.silent + Openings(claimed))
    case Begin(s) =>
      var job := w.scheds[s].queue[0];
      w.(scheds := w.scheds[s := Sched(w.scheds[s].queue[1..], Began(job))],
         events := w.events + [Opening(job)])
    case Handle(s, outcome) =>
      var job := w.scheds[s].exec.job;
      w.(scheds := w.scheds[s := w.scheds[s].(exec := Answered(job, Settle(job, outcome, w.now), w.now))],
         runs := w.runs + [Call(job.id, job.attempt, outcome, w.now)])
    case Persist(s) =>
      var exec := w.scheds[s].exec;
      w.(jobs := w.jobs[exec.next.id := exec.next],
         scheds := Release(w.scheds, s, Stored(exec.next)),
         holder := w.holder - {exec.job.id},
         history := w.history + [Entry(Closing(exec.next), exec.at)])
    case LosePersist(s) =>
      var exec := w.scheds[s].exec;
      w.(scheds := Release(w.scheds, s, Unsaved(exec.next)),
         holder := w.holder - {exec.job.id},
         stranded := w.stranded + {exec.job.id},
         phantoms := w.phantoms + [Closing(exec.next)])
    case Announce(s) =>
      w.(scheds := w.scheds[s := w.scheds[s].(exec := Idle)],
         events := w.events + [Closing(w.scheds[s].exec.next)])
  }

  /** A run: every step is enabled where it is taken. */
  ghost predicate CanRun(w: World, steps: seq<Step>)
    decreases |steps|
  {
    steps == [] || (Enabled(w, steps[0]) && CanRun(Apply(w, steps[0]), steps[1..]))
  }

  ghost function Run(w: World, steps: seq<Step>): World
    requires CanRun(w, steps)
    decreases |steps|
  {
    if steps == [] then w else Run(Apply(w, steps[0]), steps[1..])
  }

  /** Every scheduler is between two ticks. */
  predicate AllIdle(scheds: seq<Sched>) {
    forall s :: 0 <= s < |scheds| ==> scheds[s] == Sched([], Idle)
  }

  // ----- Who holds what -----

  /** The jobs a scheduler has claimed and not yet written back. */
  function InFlight(s: Sched): seq<Job> {
    (if s.exec.Began? || s.exec.Answered? then [s.exec.job] else []) + s.queue
  }

  predicate Names(flight: seq<Job>, id: JobId) {
    exists i :: 0 <= i < |flight| && flight[i].id == id
  }

  predicate DistinctIds(flight: seq<Job>) {
    forall i, j :: 0 <= i < j < |flight| ==> flight[i].id != flight[j].id
  }

  /** What a job's attempt counter may be in each state. */
  predicate JobOk(j: Job) {
    match j.state
    case Scheduled => j.attempt < j.AttemptCap()
    case Running => 1 <= j.attempt <= j.AttemptCap()
    case Succeeded => 1 <= j.attempt <= j.AttemptCap()
    case Dead => j.attempt == j.AttemptCap()
    case Failed => false
  }

  /** The parts of a job that never change after it is enqueued. */
  predicate SameJob(a: Job, b: Job) {
    a.id == b.id && a.kind == b.kind && a.payload == b.payload && a.maxAttempts == b.maxAttempts && a.backoffMs == b.backoffMs
  }

  ghost predicate JobsOk(w: World) {
    && w.jobs.Keys == w.enqueued.Keys
    && forall id :: id in w.jobs ==>
         w.jobs[id].id == id && JobOk(w.jobs[id]) && SameJob(w.jobs[id], w.enqueued[id]) && WholeMillisApart(w.now, w.jobs[id].dueAt)
  }

  /** The store has the job exactly as claimed, and the holder table says who has it. */
  ghost predicate Held(jobs: map<JobId, Job>, holder: map<JobId, nat>, job: Job, s: nat) {
    job.id in jobs && jobs[job.id] == job && job.id in holder && holder[job.id] == s
  }

  ghost predicate Holds(jobs: map<JobId, Job>, holder: map<JobId, nat>, sched: Sched, s: nat) {
    && DistinctIds(InFlight(sched))
    && forall i :: 0 <= i < |InFlight(sched)| ==> Held(jobs, holder, InFlight(sched)[i], s)
  }

  ghost predicate AllHold(w: World) {
    forall s :: 0 <= s < |w.scheds| ==> Holds(w.jobs, w.holder, w.scheds[s], s)
  }

  ghost predicate Tabled(w: World) {
    forall id :: id in w.holder ==> w.holder[id] < |w.scheds| && Names(InFlight(w.scheds[w.holder[id]]), id)
  }

  /** The running jobs are exactly the ones some scheduler holds and the stranded ones. */
  ghost predicate RunningHeld(w: World) {
    && (forall id :: id in w.jobs ==> (w.jobs[id].state == Running <==> id in w.holder || id in w.stranded))
    && (forall id :: id in w.stranded ==> id in w.jobs && id !in w.holder)
    && w.lost <= w.stranded
  }

  ghost predicate HoldersOk(w: World) {
    AllHold(w) && Tabled(w) && RunningHeld(w)
  }

  /** An answer waiting to be written is what settling that job at some reading of the clock gives. */
  ghost predicate AnswersOk(w: World) {
    forall s :: 0 <= s < |w.scheds| && w.scheds[s].exec.Answered? ==>
      var exec := w.scheds[s].exec;
      && exec.job.state == Running
      && exec.at <= w.now && WholeMillisApart(w.now, exec.at)
      && exists outcome :: exec.next == Settle(exec.job, outcome, exec.at)
  }

  ghost predicate Safe(w: World) {
    JobsOk(w) && HoldersOk(w) && AnswersOk(w)
  }

  lemma StartIsSafe(schedulers: nat, now: Time)
    ensures Safe(Start(schedulers, now))
  {
  }

  lemma SettleFacts(job: Job, outcome: Outcome, now: Time)
    requires job.state == Running && JobOk(job)
    ensures var next := Settle(job, outcome, now);
            JobOk(next) && SameJob(next, job) && next.attempt == job.attempt && next.state != Running &&
            (next.state == Scheduled ==> WholeMillisApart(now, next.dueAt)) && (next.state != Scheduled ==> next.dueAt == job.dueAt)
  {
  }

  lemma MillisAdd(a: Time, b: Time, c: Time)
    requires WholeMillisApart(a, b) && WholeMillisApart(b, c)
    ensures WholeMillisApart(a, c) && WholeMillisApart(b, a)
  {
  }

  lemma SafeEnqueue(w: World, job: Job)
    requires Safe(w) && Enabled(w, Enqueue(job))
    ensures Safe(Apply(w, Enqueue(job)))
  {
    var w' := Apply(w, Enqueue(job));
    forall s | 0 <= s < |w.scheds| ensures Holds(w'.jobs, w'.holder, w'.scheds[s], s) {
      assert Holds(w.jobs, w.holder, w.scheds[s], s);
    }
    assert Tabled(w');
    if job.id in w.holder { HolderIsStored(w, job.id); }
  }

  lemma HolderIsStored(w: World, id: JobId)
    requires AllHold(w) && Tabled(w) && id in w.holder
    ensures id in w.jobs
  {
    var s := w.holder[id];
    assert Holds(w.jobs, w.holder, w.scheds[s], s) && Names(InFlight(w.scheds[s]), id);
    var i :| 0 <= i < |InFlight(w.scheds[s])| && InFlight(w.scheds[s])[i].id == id;
    assert Held(w.jobs, w.holder, InFlight(w.scheds[s])[i], s);
  }

  lemma SafeAdvance(w: World, ms: nat)
    requires Safe(w)
    ensures Safe(Apply(w, Advance(ms)))
  {
  }

  /** A claimer holds exactly what it was handed. */
  lemma ClaimerHolds(w: World, s: nat, reading: Time, order: seq<JobId>)
    requires JobsOk(w) && Enabled(w, Claim(s, reading, order))
    ensures var w' := Apply(w, Claim(s, reading, order));
            InFlight(w'.scheds[s]) == HandedOut(order, w.jobs) && Holds(w'.jobs, w'.holder, w'.scheds[s], s)
  {
    var w' := Apply(w, Claim(s, reading, order));
    var claimed := HandedOut(order, w.jobs);
    assert InFlight(w'.scheds[s]) == claimed;
    forall i | 0 <= i < |claimed|
      ensures claimed[i].id == order[i] && Held(w'.jobs, w'.holder, claimed[i], s)
    {
      assert order[i] in order;
      assert order[i] in DueIds(w.jobs, reading);
    }
    assert DistinctIds(claimed);
  }

  /** Nobody is disturbed by a claim: what is in a flight is running, so it is not due. */
  lemma HoldsThroughClaim(w: World, reading: Time, holder': map<JobId, nat>, r: nat)
    requires JobsOk(w) && HoldersOk(w) && r < |w.scheds|
    requires forall id :: id in w.holder && id !in DueIds(w.jobs, reading) ==> id in holder' && holder'[id] == w.holder[id]
    ensures Holds(AfterClaim(w.jobs, reading), holder', w.scheds[r], r)
  {
    assert Holds(w.jobs, w.holder, w.scheds[r], r);
    var flight := InFlight(w.scheds[r]);
    forall i | 0 <= i < |flight| ensures Held(AfterClaim(w.jobs, reading), holder', flight[i], r) {
      assert Held(w.jobs, w.holder, flight[i], r);
      assert w.jobs[flight[i].id].state == Running;
      assert flight[i].id !in DueIds(w.jobs, reading);
    }
  }

  lemma ClaimKeepsAllHold(w: World, s: nat, reading: Time, order: seq<JobId>)
    requires JobsOk(w) && HoldersOk(w) && Enabled(w, Claim(s, reading, order))
    ensures AllHold(Apply(w, Claim(s, reading, order)))
  {
    var w' := Apply(w, Claim(s, reading, order));
    ClaimerHolds(w, s, reading, order);
    forall r | 0 <= r < |w'.scheds| && r != s ensures Holds(w'.jobs, w'.holder, w'.scheds[r], r) {
      assert w'.scheds[r] == w.scheds[r];
      HoldsThroughClaim(w, reading, w'.holder, r);
    }
  }

  lemma NamedAfterClaim(w: World, s: nat, reading: Time, order: seq<JobId>, id: JobId)
    requires JobsOk(w) && HoldersOk(w) && Enabled(w, Claim(s, reading, order))
    requires id in Apply(w, Claim(s, reading, order)).holder
    ensures
      var w' := Apply(w, Claim(s, reading, order));
      w'.holder[id] < |w.scheds| && Names(InFlight(w'.scheds[w'.holder[id]]), id)
  {
    var w' := Apply(w, Claim(s, reading, order));
    if id in DueIds(w.jobs, reading) {
      ClaimerHolds(w, s, reading, order);
      assert id in order;
      var i :| 0 <= i < |order| && order[i] == id;
      assert InFlight(w'.scheds[s])[i].id == id;
    } else {
      assert id in w.holder && w'.holder[id] == w.holder[id];
      assert InFlight(w.scheds[s]) == [];
      assert w'.scheds[w.holder[id]] == w.scheds[w.holder[id]];
    }
  }

  lemma ClaimKeepsTabled(w: World, s: nat, reading: Time, order: seq<JobId>)
    requires JobsOk(w) && HoldersOk(w) && Enabled(w, Claim(s, reading, order))
    ensures Tabled(Apply(w, Claim(s, reading, order)))
  {
    var w' := Apply(w, Claim(s, reading, order));
    forall id | id in w'.holder ensures w'.holder[id] < |w'.scheds| && Names(InFlight(w'.scheds[w'.holder[id]]), id) {
      NamedAfterClaim(w, s, reading, order, id);
    }
  }

  lemma ClaimKeepsRunningHeld(w: World, s: nat, reading: Time, order: seq<JobId>)
    requires JobsOk(w) && HoldersOk(w) && Enabled(w, Claim(s, reading, order))
    ensures RunningHeld(Apply(w, Claim(s, reading, order)))
  {
  }

  lemma ClaimKeepsJobs(w: World, w': World, reading: Time)
    requires Safe(w) && w'.jobs == AfterClaim(w.jobs, reading) && w'.enqueued == w.enqueued && w'.now == w.now
    ensures JobsOk(w')
  {
    forall id | id in w'.jobs
      ensures w'.jobs[id].id == id && JobOk(w'.jobs[id]) && SameJob(w'.jobs[id], w'.enqueued[id]) && WholeMillisApart(w'.now, w'.jobs[id].dueAt)
    {
      assert w'.jobs[id] == if IsDue(w.jobs[id], reading) then MarkRunning(w.jobs[id]) else w.jobs[id];
    }
  }

  lemma SafeClaim(w: World, s: nat, reading: Time, order: seq<JobId>)
    requires Safe(w) && Enabled(w, Claim(s, reading, order))
    ensures Safe(Apply(w, Claim(s, reading, order)))
  {
    var w' := Apply(w, Claim(s, reading, order));
    ClaimKeepsJobs(w, w', reading);
    ClaimKeepsAllHold(w, s, reading, order);
    ClaimKeepsTabled(w, s, reading, order);
    ClaimKeepsRunningHeld(w, s, reading, order);
    forall r | 0 <= r < |w'.scheds| && w'.scheds[r].exec.Answered?
      ensures w.scheds[r] == w'.scheds[r]
    {
    }
    assert AnswersOk(w');
  }

  lemma SafeLoseClaim(w: World, s: nat, reading: Time, order: seq<JobId>)
    requires Safe(w) && Enabled(w, LoseClaim(s, reading, order))
    ensures Safe(Apply(w, LoseClaim(s, reading, order)))
  {
    var w' := Apply(w, LoseClaim(s, reading, order));
    ClaimKeepsJobs(w, w', reading);
    forall r | 0 <= r < |w'.scheds| ensures Holds(w'.jobs, w'.holder, w'.scheds[r], r) {
      HoldsThroughClaim(w, reading, w.holder, r);
    }
    forall id | id in w.holder ensures id in w.jobs && id !in DueIds(w.jobs, reading) {
      HolderIsStored(w, id);
    }
    assert RunningHeld(w');
  }

  lemma SafeBegin(w: World, s: nat)
    requires Safe(w) && Enabled(w, Begin(s))
    ensures Safe(Apply(w, Begin(s)))
  {
    assert InFlight(Apply(w, Begin(s)).scheds[s]) == InFlight(w.scheds[s]);
  }

  lemma SafeHandle(w: World, s: nat, outcome: Outcome)
    requires Safe(w) && Enabled(w, Handle(s, outcome))
    ensures Safe(Apply(w, Handle(s, outcome)))
  {
    var w' := Apply(w, Handle(s, outcome));
    assert InFlight(w'.scheds[s]) == InFlight(w.scheds[s]);
    assert Holds(w.jobs, w.holder, w.scheds[s], s) && InFlight(w.scheds[s])[0] == w.scheds[s].exec.job;
    assert w'.scheds[s].exec.next == Settle(w.scheds[s].exec.job, outcome, w.now);
  }

  lemma ReleaseShortensFlight(w: World, s: nat, exec: Exec)
    requires AllHold(w) && s < |w.scheds| && w.scheds[s].exec.Answered? && Owes(exec)
    ensures Held(w.jobs, w.holder, w.scheds[s].exec.job, s)
    ensures InFlight(w.scheds[s]) == [w.scheds[s].exec.job] + InFlight(Release(w.scheds, s, exec)[s])
  {
    assert Holds(w.jobs, w.holder, w.scheds[s], s);
    assert InFlight(w.scheds[s])[0] == w.scheds[s].exec.job;
    assert InFlight(Release(w.scheds, s, exec)[s]) == w.scheds[s].queue;
  }

  /** A flight without its first `k` jobs stays held when neither the store nor the holder table changes for the rest. */
  lemma HeldSuffix(flight: seq<Job>, k: nat, s: nat, jobs: map<JobId, Job>, holder: map<JobId, nat>,
                   jobs': map<JobId, Job>, holder': map<JobId, nat>)
    requires DistinctIds(flight) && k <= |flight|
    requires forall i :: 0 <= i < |flight| ==> Held(jobs, holder, flight[i], s)
    requires forall i :: k <= i < |flight| ==> Untouched(jobs, holder, jobs', holder', flight[i].id)
    ensures DistinctIds(flight[k..])
    ensures forall i :: 0 <= i < |flight[k..]| ==> Held(jobs', holder', flight[k..][i], s)
  {
    forall i | 0 <= i < |flight[k..]| ensures Held(jobs', holder', flight[k..][i], s) {
      assert flight[k..][i] == flight[k + i];
      assert Held(jobs, holder, flight[k + i], s);
    }
  }

  ghost predicate Untouched(jobs: map<JobId, Job>, holder: map<JobId, nat>, jobs': map<JobId, Job>, holder': map<JobId, nat>, id: JobId) {
    && (id in jobs ==> id in jobs' && jobs'[id] == jobs[id])
    && (id in holder ==> id in holder' && holder'[id] == holder[id])
  }

  /** Only one job is let go of. */
  ghost predicate LetsGo(jobs: map<JobId, Job>, holder: map<JobId, nat>, jobs': map<JobId, Job>, holder': map<JobId, nat>, gone: JobId) {
    jobs'.Keys == jobs.Keys && holder' == holder - {gone} &&
    forall id :: id in jobs && id != gone ==> jobs'[id] == jobs[id]
  }

  lemma LetsGoOfOne(jobs: map<JobId, Job>, holder: map<JobId, nat>, jobs': map<JobId, Job>, holder': map<JobId, nat>, gone: JobId, id: JobId)
    requires LetsGo(jobs, holder, jobs', holder', gone) && id != gone
    ensures Untouched(jobs, holder, jobs', holder', id)
  {
  }

  /** The scheduler that lets go of the job at the front of its flight. */
  lemma ReleaserHolds(w: World, s: nat, jobs': map<JobId, Job>, holder': map<JobId, nat>, exec: Exec)
    requires AllHold(w) && s < |w.scheds| && w.scheds[s].exec.Answered? && Owes(exec)
    requires LetsGo(w.jobs, w.holder, jobs', holder', w.scheds[s].exec.job.id)
    ensures Holds(jobs', holder', Release(w.scheds, s, exec)[s], s)
  {
    ReleaseShortensFlight(w, s, exec);
    assert Holds(w.jobs, w.holder, w.scheds[s], s);
    var flight := InFlight(w.scheds[s]);
    forall i | 1 <= i < |flight| ensures Untouched(w.jobs, w.holder, jobs', holder', flight[i].id) {
      assert flight[0].id != flight[i].id;
      LetsGoOfOne(w.jobs, w.holder, jobs', holder', flight[0].id, flight[i].id);
    }
    HeldSuffix(flight, 1, s, w.jobs, w.holder, jobs', holder');
    assert flight[1..] == InFlight(Release(w.scheds, s, exec)[s]);
  }

  /** Any other scheduler. */
  lemma OthersHold(w: World, s: nat, jobs': map<JobId, Job>, holder': map<JobId, nat>, r: nat)
    requires AllHold(w) && s < |w.scheds| && w.scheds[s].exec.Answered? && r < |w.scheds| && r != s
    requires LetsGo(w.jobs, w.holder, jobs', holder', w.scheds[s].exec.job.id)
    ensures Holds(jobs', holder', w.scheds[r], r)
  {
    ReleaseShortensFlight(w, s, Unsaved(w.scheds[s].exec.next));
    assert Holds(w.jobs, w.holder, w.scheds[r], r);
    var flight := InFlight(w.scheds[r]);
    forall i | 0 <= i < |flight| ensures Untouched(w.jobs, w.holder, jobs', holder', flight[i].id) {
      assert Held(w.jobs, w.holder, flight[i], r);
      LetsGoOfOne(w.jobs, w.holder, jobs', holder', w.scheds[s].exec.job.id, flight[i].id);
    }
    HeldSuffix(flight, 0, r, w.jobs, w.holder, jobs', holder');
    assert flight[0..] == flight;
  }

  lemma ReleaseKeepsNames(w: World, s: nat, exec: Exec, id: JobId)
    requires AllHold(w) && Tabled(w) && s < |w.scheds| && w.scheds[s].exec.Answered? && Owes(exec)
    requires id in w.holder && id != w.scheds[s].exec.job.id
    ensures w.holder[id] < |w.scheds| && Names(InFlight(Release(w.scheds, s, exec)[w.holder[id]]), id)
  {
    ReleaseShortensFlight(w, s, exec);
    var flight := InFlight(w.scheds[w.holder[id]]);
    var i :| 0 <= i < |flight| && flight[i].id == id;
    if w.holder[id] == s { assert InFlight(Release(w.scheds, s, exec)[s])[i - 1].id == id; }
  }

  lemma ReleaseKeepsHolders(w: World, s: nat, jobs': map<JobId, Job>, exec: Exec)
    requires AllHold(w) && Tabled(w) && s < |w.scheds| && w.scheds[s].exec.Answered? && Owes(exec)
    requires LetsGo(w.jobs, w.holder, jobs', w.holder - {w.scheds[s].exec.job.id}, w.scheds[s].exec.job.id)
    ensures var scheds', holder' := Release(w.scheds, s, exec), w.holder - {w.scheds[s].exec.job.id};
            && (forall r :: 0 <= r < |scheds'| ==> Holds(jobs', holder', scheds'[r], r))
            && (forall k :: k in holder' ==> holder'[k] < |scheds'| && Names(InFlight(scheds'[holder'[k]]), k))
  {
    var scheds', holder' := Release(w.scheds, s, exec), w.holder - {w.scheds[s].exec.job.id};
    forall r | 0 <= r < |scheds'| ensures Holds(jobs', holder', scheds'[r], r) {
      if r == s {
        ReleaserHolds(w, s, jobs', holder', exec);
      } else {
        OthersHold(w, s, jobs', holder', r);
      }
    }
    forall k | k in holder' ensures holder'[k] < |scheds'| && Names(InFlight(scheds'[holder'[k]]), k) {
      ReleaseKeepsNames(w, s, exec, k);
    }
  }

  lemma PersistFacts(w: World, s: nat)
    requires Safe(w) && Enabled(w, Persist(s))
    ensures var exec := w.scheds[s].exec;
            && exec.job.id in w.holder && exec.job.id in w.jobs && w.jobs[exec.job.id] == exec.job
            && JobOk(exec.next) && SameJob(exec.next, exec.job) && exec.next.attempt == exec.job.attempt
            && exec.next.state != Running && WholeMillisApart(w.now, exec.next.dueAt)
  {
    var exec := w.scheds[s].exec;
    var outcome :| exec.next == Settle(exec.job, outcome, exec.at);
    assert Holds(w.jobs, w.holder, w.scheds[s], s) && InFlight(w.scheds[s])[0] == exec.job;
    SettleFacts(exec.job, outcome, exec.at);
    if exec.next.state == Scheduled { MillisAdd(w.now, exec.at, exec.next.dueAt); }
  }

  lemma PersistKeepsJobs(w: World, s: nat)
    requires Safe(w) && Enabled(w, Persist(s))
    ensures JobsOk(Apply(w, Persist(s))) && AnswersOk(Apply(w, Persist(s)))
  {
    var w' := Apply(w, Persist(s));
    PersistFacts(w, s);
    forall r | 0 <= r < |w'.scheds| && w'.scheds[r].exec.Answered? ensures w'.scheds[r] == w.scheds[r] {
    }
  }

  lemma PersistKeepsRunningHeld(w: World, s: nat)
    requires Safe(w) && Enabled(w, Persist(s))
    ensures RunningHeld(Apply(w, Persist(s)))
  {
    PersistFacts(w, s);
    assert w.scheds[s].exec.job.id !in w.stranded;
  }

  lemma SafePersist(w: World, s: nat)
    requires Safe(w) && Enabled(w, Persist(s))
    ensures Safe(Apply(w, Persist(s)))
  {
    var exec := w.scheds[s].exec;
    PersistFacts(w, s);
    ReleaseKeepsHolders(w, s, w.jobs[exec.next.id := exec.next], Stored(exec.next));
    PersistKeepsJobs(w, s);
    PersistKeepsRunningHeld(w, s);
  }

  lemma SafeLosePersist(w: World, s: nat)
    requires Safe(w) && Enabled(w, LosePersist(s))
    ensures Safe(Apply(w, LosePersist(s)))
  {
    var exec := Unsaved(w.scheds[s].exec.next);
    ReleaseShortensFlight(w, s, exec);
    ReleaseKeepsHolders(w, s, w.jobs, exec);
  }

  lemma SafeAnnounce(w: World, s: nat)
    requires Safe(w) && Enabled(w, Announce(s))
    ensures Safe(Apply(w, Announce(s)))
  {
    assert InFlight(Apply(w, Announce(s)).scheds[s]) == InFlight(w.scheds[s]);
  }

  // ----- Every run -----

  lemma SafeStep(w: World, step: Step)
    requires Safe(w) && Enabled(w, step)
    ensures Safe(Apply(w, step))
  {
    match step
    case Enqueue(job) => SafeEnqueue(w, job);
    case Advance(ms) => SafeAdvance(w, ms);
    case Claim(s, reading, order) => SafeClaim(w, s, reading, order);
    case LoseClaim(s, reading, order) => SafeLoseClaim(w, s, reading, order);
    case Begin(s) => SafeBegin(w, s);
    case Handle(s, outcome) => SafeHandle(w, s, outcome);
    case Persist(s) => SafePersist(w, s);
    case LosePersist(s) => SafeLosePersist(w, s);
    case Announce(s) => SafeAnnounce(w, s);
  }

  lemma {:induction false} SafeRun(w: World, steps: seq<Step>)
    requires Safe(w) && CanRun(w, steps)
    ensures Safe(Run(w, steps))
    decreases |steps|
  {
    if steps != [] {
      SafeStep(w, steps[0]);
      SafeRun(Apply(w, steps[0]), steps[1..]);
    }
  }

  /** No job is in two flights or twice in one. */
  predicate Apart(scheds: seq<Sched>) {
    forall r, s, i, j | 0 <= r < |scheds| && 0 <= s < |scheds| &&
      0 <= i < |InFlight(scheds[r])| && 0 <= j < |InFlight(scheds[s])| &&
      InFlight(scheds[r])[i].id == InFlight(scheds[s])[j].id :: r == s && i == j
  }

  /** The flights are apart, and together they are the running jobs that are not stranded. */
  ghost predicate Exclusive(w: World) {
    && Apart(w.scheds)
    && (forall id :: id in w.jobs ==>
          (w.jobs[id].state == Running && id !in w.stranded
           <==> exists s :: 0 <= s < |w.scheds| && Names(InFlight(w.scheds[s]), id)))
  }

  lemma HoldersAreExclusive(w: World)
    requires HoldersOk(w)
    ensures Exclusive(w)
  {
    forall r, s, i, j | 0 <= r < |w.scheds| && 0 <= s < |w.scheds| &&
        0 <= i < |InFlight(w.scheds[r])| && 0 <= j < |InFlight(w.scheds[s])| &&
        InFlight(w.scheds[r])[i].id == InFlight(w.scheds[s])[j].id
      ensures r == s && i == j
    {
      assert Holds(w.jobs, w.holder, w.scheds[r], r) && Holds(w.jobs, w.holder, w.scheds[s], s);
      assert Held(w.jobs, w.holder, InFlight(w.scheds[r])[i], r) && Held(w.jobs, w.holder, InFlight(w.scheds[s])[j], s);
    }
    forall id, s | 0 <= s < |w.scheds| && Names(InFlight(w.scheds[s]), id) ensures id in w.holder {
      assert Holds(w.jobs, w.holder, w.scheds[s], s);
      var i :| 0 <= i < |InFlight(w.scheds[s])| && InFlight(w.scheds[s])[i].id == id;
      assert Held(w.jobs, w.holder, InFlight(w.scheds[s])[i], s);
    }
  }

  /** In every run of any number of schedulers, started on an empty store, claims stay exclusive and every job keeps
      within its attempts; `Failed` is never reached, and the attempt counter never outgrows the configured maximum
      (nor one). */
  lemma EveryRunIsExclusive(schedulers: nat, now: Time, steps: seq<Step>)
    requires CanRun(Start(schedulers, now), steps)
    ensures var w := Run(Start(schedulers, now), steps);
            Exclusive(w) && forall id :: id in w.jobs ==> id in w.enqueued && JobOk(w.jobs[id]) && SameJob(w.jobs[id], w.enqueued[id])
  {
    StartIsSafe(schedulers, now);
    SafeRun(Start(schedulers, now), steps);
    HoldersAreExclusive(Run(Start(schedulers, now), steps));
  }

  /** Between ticks, and as long as no write-back and no claim has failed, no job is left running. */
  lemma NothingRunsBetweenTicks(w: World)
    requires Safe(w) && w.stranded == {} && AllIdle(w.scheds)
    ensures forall id :: id in w.jobs ==> w.jobs[id].state != Running
  {
    forall s, id | 0 <= s < |w.scheds| ensures !Names(InFlight(w.scheds[s]), id) {
      assert InFlight(w.scheds[s]) == [];
    }
  }

  /** A succeeded or dead job is never touched again, and neither is a stranded one: it stays running. */
  predicate Settled(w: World, id: JobId) {
    id in w.jobs && (w.jobs[id].state == Succeeded || w.jobs[id].state == Dead || id in w.stranded)
  }

  lemma FinishedThroughPersist(w: World, s: nat, id: JobId)
    requires Safe(w) && Enabled(w, Persist(s)) && Settled(w, id)
    ensures id != w.scheds[s].exec.next.id && w.scheds[s].exec.next.id == w.scheds[s].exec.job.id
  {
    PersistFacts(w, s);
  }

  lemma FinishedForEver(w: World, step: Step, id: JobId)
    requires Safe(w) && Enabled(w, step) && Settled(w, id)
    ensures Settled(Apply(w, step), id) && Apply(w, step).jobs[id] == w.jobs[id]
    ensures id in w.stranded ==> id in Apply(w, step).stranded
  {
    match step
    case Persist(s) => FinishedThroughPersist(w, s, id);
    case Claim(_, reading, _) => FinishedIsNotDue(w, reading, id);
    case LoseClaim(_, reading, _) => FinishedIsNotDue(w, reading, id);
    case _ =>
  }

  lemma FinishedIsNotDue(w: World, reading: Time, id: JobId)
    requires Safe(w) && Settled(w, id)
    ensures id !in DueIds(w.jobs, reading) && AfterClaim(w.jobs, reading)[id] == w.jobs[id]
  {
    assert w.jobs[id].state != Scheduled;
  }

  lemma {:induction false} FinishedForEveryRun(w: World, steps: seq<Step>, id: JobId)
    requires Safe(w) && CanRun(w, steps) && Settled(w, id)
    ensures Settled(Run(w, steps), id) && Run(w, steps).jobs[id] == w.jobs[id]
    ensures id in w.stranded ==> id in Run(w, steps).stranded
    decreases |steps|
  {
    if steps != [] {
      SafeStep(w, steps[0]);
      FinishedForEver(w, steps[0], id);
      FinishedForEveryRun(Apply(w, steps[0]), steps[1..], id);
    }
  }

  /** All times in the store lie whole milliseconds from the clock, so a claim at any reading of the clock may compare
      milliseconds instead of full times. */
  lemma ReadingsAgreeToTheMillisecond(w: World, reading: Time, id: JobId)
    requires Safe(w) && WholeMillisApart(w.now, reading) && id in w.jobs
    ensures w.jobs[id].dueAt % NANOS_PER_MS == reading % NANOS_PER_MS
  {
  }

  // ----- Runs put together -----

  lemma {:induction false} RunAppend(w: World, a: seq<Step>, b: seq<Step>)
    requires CanRun(w, a) && CanRun(Run(w, a), b)
    ensures CanRun(w, a + b) && Run(w, a + b) == Run(Run(w, a), b)
    decreases |a|
  {
    if a == [] {
      assert a + b == b;
    } else {
      assert (a + b)[1..] == a[1..] + b;
      RunAppend(Apply(w, a[0]), a[1..], b);
    }
  }

  lemma RunOne(w: World, step: Step)
    requires Enabled(w, step)
    ensures CanRun(w, [step]) && Run(w, [step]) == Apply(w, step)
  {
    assert [step][1..] == [];
    assert CanRun(Apply(w, step), []);
  }

  lemma RunTwo(w: World, a: Step, b: Step)
    requires Enabled(w, a) && Enabled(Apply(w, a), b)
    ensures CanRun(w, [a, b]) && Run(w, [a, b]) == Apply(Apply(w, a), b)
  {
    RunOne(w, a);
    RunOne(Apply(w, a), b);
    RunAppend(w, [a], [b]);
    assert [a] + [b] == [a, b];
  }
}
