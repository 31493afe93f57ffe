/** The schedulers' protocol over the Redis store: its runs are those runs of the protocol over the in-process store whose
    claims take jobs lowest score first and hand out no job the claim script makes unreadable. All the schedulers can
    see is then the same, but for payloads, which are as the script leaves them. */
module RedisProtocol {
  import opened Json
  import opened Jobs
  import opened MemoryStores
  import opened RedisStores
  import opened QueueProtocol
  import opened QueueHistory
  import opened Times

  // ----- Schedulers over Redis -----

  datatype RedisWorld = RedisWorld(
    keys: Keys,
    scheds: seq<Sched>,
    now: Time,
    events: seq<Transition>,
    runs: seq<Call>
  )

  function RedisStart(schedulers: nat, now: Time): RedisWorld {
    RedisWorld(NO_KEYS, seq(schedulers, _ => Sched([], Idle)), now, [], [])
  }

  /** What the claim script answers to the caller. */
  function Answer(keys: Keys, order: seq<JobId>): Result<seq<Job>> {
    DecodeAll(Marks(order, keys.hash))
  }

  /** A scheduler at rest runs the claim script, which takes these members of the due set. */
  ghost predicate RunsScript(v: RedisWorld, s: nat, reading: Time, order: seq<JobId>) {
    s < |v.scheds| && v.scheds[s] == Sched([], Idle) && reading <= v.now && WholeMillisApart(v.now, reading) &&
    NoRepeats(order) && LowestFirst(order, v.keys.due) && forall id :: id in order <==> id in InRange(v.keys.due, Score(reading))
  }

  /** A claim succeeds only with an answer that can be read; it may be lost for this reason or any other. */
  ghost predicate RedisEnabled(v: RedisWorld, step: Step) {
    match step
    case Enqueue(job) =>
      job.id !in v.keys.hash && job.state == Scheduled && job.attempt == 0 && WholeMillisApart(v.now, job.dueAt)
    case Advance(_) => true
    case Claim(s, reading, order) => RunsScript(v, s, reading, order) && Answer(v.keys, order).Ok?
    case LoseClaim(s, reading, order) => RunsScript(v, s, reading, order)
    case Begin(s) => s < |v.scheds| && v.scheds[s].exec.Idle? && v.scheds[s].queue != []
    case Handle(s, _) => s < |v.scheds| && v.scheds[s].exec.Began?
    case Persist(s) => s < |v.scheds| && v.scheds[s].exec.Answered?
    case LosePersist(s) => s < |v.scheds| && v.scheds[s].exec.Answered?
    case Announce(s) => s < |v.scheds| && Owes(v.scheds[s].exec)
  }

  ghost function RedisApply(v: RedisWorld, step: Step): RedisWorld
    requires RedisEnabled(v, step)
  {
    match step
    case Enqueue(job) => v.(keys := ApplyOp(v.keys, Put(job)))
    case Advance(ms) => v.(now := v.now + ms * NANOS_PER_MS)
    case Claim(s, reading, order) =>
      v.(keys := ApplyOp(v.keys, Op.Claim(reading)), scheds := v.scheds[s := Sched(Answer(v.keys, order).value, Idle)])
    case LoseClaim(_, reading, _) => v.(keys := ApplyOp(v.keys, Op.Claim(reading)))
    case Begin(s) =>
      var job := v.scheds[s].queue[0];
      v.(scheds := v.scheds[s := Sched(v.scheds[s].queue[1..], Began(job))], events := v.events + [Opening(job)])
    case Handle(s, outcome) =>
      var job := v.scheds[s].exec.job;
      v.(scheds := v.scheds[s := v.scheds[s].(exec := Answered(job, Settle(job, outcome, v.now), v.now))],
         runs := v.runs + [Call(job.id, job.attempt, outcome, v.now)])
    case Persist(s) =>
      var next := v.scheds[s].exec.next;
      v.(keys := ApplyOp(v.keys, Put(next)), scheds := Release(v.scheds, s, Stored(next)))
    case LosePersist(s) => v.(scheds := Release(v.scheds, s, Unsaved(v.scheds[s].exec.next)))
    case Announce(s) =>
      v.(scheds := v.scheds[s := v.scheds[s].(exec := Idle)],
         events := v.events + [Closing(v.scheds[s].exec.next)])
  }

  ghost predicate RedisCanRun(v: RedisWorld, steps: seq<Step>)
    decreases |steps|
  {
    steps == [] || (RedisEnabled(v, steps[0]) && RedisCanRun(RedisApply(v, steps[0]), steps[1..]))
  }

  ghost function RedisAfter(v: RedisWorld, steps: seq<Step>): RedisWorld
    requires RedisCanRun(v, steps)
    decreases |steps|
  {
    if steps == [] then v else RedisAfter(RedisApply(v, steps[0]), steps[1..])
  }

  // ----- The in-process world beside it -----

  /** A job as it is over Redis: once claimed, its payload has been through the script. */
  function Over(j: Job): Job {
    if j.attempt == 0 then j else Recoded(j)
  }

  function OverAll(jobs: seq<Job>): seq<Job> {
    seq(|jobs|, i requires 0 <= i < |jobs| => Over(jobs[i]))
  }

  function OverExec(exec: Exec): Exec {
    match exec
    case Idle => Idle
    case Began(job) => Began(Over(job))
    case Answered(job, next, at) => Answered(Over(job), Over(next), at)
    case Stored(next) => Stored(Over(next))
    case Unsaved(next) => Unsaved(Over(next))
  }

  function OverSched(s: Sched): Sched {
    Sched(OverAll(s.queue), OverExec(s.exec))
  }

  function OverScheds(scheds: seq<Sched>): seq<Sched> {
    seq(|scheds|, s requires 0 <= s < |scheds| => OverSched(scheds[s]))
  }

  function OverStore(jobs: map<JobId, Job>): map<JobId, Job> {
    map id | id in jobs :: Over(jobs[id])
  }

  lemma OverSchedsUpdate(scheds: seq<Sched>, s: nat, x: Sched)
    requires s < |scheds|
    ensures OverScheds(scheds[s := x]) == OverScheds(scheds)[s := OverSched(x)]
  {
  }

  /** The keys hold the jobs: each serialised, but for those whose claim was lost, and exactly the scheduled ones due. */
  ghost predicate Serves(keys: Keys, jobs: map<JobId, Job>, lost: set<JobId>) {
    && keys.hash.Keys == jobs.Keys && keys.due == DueSet(jobs)
    && forall id :: id in jobs && id !in lost ==> keys.hash[id] == Encode(Over(jobs[id]))
  }

  ghost predicate Follows(v: RedisWorld, w: World) {
    Serves(v.keys, w.jobs, w.lost) && v.scheds == OverScheds(w.scheds) && v.now == w.now && v.events == w.events && v.runs == w.runs
  }

  /** What Redis asks of a step beyond the protocol: members come lowest score first, and a claim that reaches its
      scheduler takes only jobs whose backoff list survives the script. */
  ghost predicate SuitsRedis(w: World, step: Step) {
    match step
    case Claim(_, reading, order) =>
      LowestFirst(order, DueSet(w.jobs)) && forall id :: id in DueIds(w.jobs, reading) ==> BackoffSurvives(w.jobs[id])
    case LoseClaim(_, _, order) => LowestFirst(order, DueSet(w.jobs))
    case _ => true
  }

  ghost predicate EveryStepSuitsRedis(w: World, steps: seq<Step>)
    requires CanRun(w, steps)
    decreases |steps|
  {
    steps != [] ==> SuitsRedis(w, steps[0]) && EveryStepSuitsRedis(Apply(w, steps[0]), steps[1..])
  }

  // ----- Claims -----

  /** Times of the protocol agree to the millisecond, so both stores claim the same jobs. */
  lemma SameJobsClaimed(w: World, keys: Keys, reading: Time)
    requires Safe(w) && WholeMillisApart(w.now, reading) && keys.due == DueSet(w.jobs)
    ensures InRange(keys.due, Score(reading)) == DueIds(w.jobs, reading)
  {
    forall id | id in w.jobs ensures w.jobs[id].dueAt <= reading <==> Score(w.jobs[id].dueAt) <= Score(reading) {
      ReadingsAgreeToTheMillisecond(w, reading, id);
      ScoreOverApproximates(w.jobs[id].dueAt, reading);
    }
    SameClaim(w.jobs, reading);
  }

  lemma OverFacts(j: Job)
    ensures Over(j) == j <==> j.attempt == 0 || Plain(j.payload)
    ensures Recoded(MarkRunning(Over(j))) == Over(MarkRunning(j))
    ensures BackoffSurvives(Over(j)) <==> BackoffSurvives(j)
  {
    RecodeOnceIsEnough(j.payload);
    RecodeIsIdentityOnPlain(j.payload);
  }

  /** The jobs of a claim are scheduled, so none of them is lost, and their records are as they should be. */
  lemma ClaimedAreStored(w: World, keys: Keys, reading: Time, order: seq<JobId>)
    requires Safe(w) && Serves(keys, w.jobs, w.lost) && ListsDue(order, w.jobs, reading)
    ensures StoredAs(keys.hash, OverStore(w.jobs), order)
  {
    forall id | id in order ensures id in w.jobs && id !in w.lost {
      assert id in DueIds(w.jobs, reading);
      NotHeldWhileDue(w, reading, id);
    }
  }

  lemma SameHandedOut(order: seq<JobId>, jobs: map<JobId, Job>)
    requires forall id :: id in order ==> id in jobs
    ensures AllRecoded(HandedOut(order, OverStore(jobs))) == OverAll(HandedOut(order, jobs))
  {
    forall i | 0 <= i < |order| ensures AllRecoded(HandedOut(order, OverStore(jobs)))[i] == OverAll(HandedOut(order, jobs))[i] {
      assert order[i] in order;
      OverFacts(jobs[order[i]]);
    }
  }

  lemma AnswerOverRedis(w: World, keys: Keys, reading: Time, order: seq<JobId>)
    requires Safe(w) && ListsDue(order, w.jobs, reading) && Serves(keys, w.jobs, w.lost)
    ensures Answer(keys, order) == Corrupt <==> exists id :: id in order && !BackoffSurvives(w.jobs[id])
    ensures Answer(keys, order).Ok? ==> Answer(keys, order).value == OverAll(HandedOut(order, w.jobs))
  {
    ClaimedAreStored(w, keys, reading, order);
    forall id | id in order ensures BackoffSurvives(OverStore(w.jobs)[id]) <==> BackoffSurvives(w.jobs[id]) {
      OverFacts(w.jobs[id]);
    }
    ClaimAnswer(order, keys.hash, OverStore(w.jobs));
    SameHandedOut(order, w.jobs);
  }

  /** A claim by any scheduler takes the same jobs from Redis as from the in-process store. When some backoff list does not
      survive the script, and only then, the scheduler gets an error; otherwise it is handed the same jobs, their payloads
      as the script leaves them. */
  lemma SameClaimOverRedis(w: World, keys: Keys, s: nat, reading: Time, order: seq<JobId>)
    requires Safe(w) && CanClaim(w, s, reading, order) && Serves(keys, w.jobs, w.lost)
    ensures InRange(keys.due, Score(reading)) == DueIds(w.jobs, reading)
    ensures Answer(keys, order) == Corrupt <==> exists id :: id in order && !BackoffSurvives(w.jobs[id])
    ensures Answer(keys, order).Ok? ==>
      Answer(keys, order).value == OverAll(HandedOut(order, w.jobs)) &&
      Serves(ApplyOp(keys, Op.Claim(reading)), Apply(w, Step.Claim(s, reading, order)).jobs, w.lost)
    ensures (forall id :: id in order ==> Survives(w.jobs[id])) ==> Answer(keys, order) == Ok(HandedOut(order, w.jobs))
  {
    SameJobsClaimed(w, keys, reading);
    AnswerOverRedis(w, keys, reading, order);
    if Answer(keys, order).Ok? {
      ReadableServes(w, keys, reading, order);
    }
    if forall id :: id in order ==> Survives(w.jobs[id]) {
      SurvivorsOver(order, w.jobs);
    }
  }

  lemma ReadableServes(w: World, keys: Keys, reading: Time, order: seq<JobId>)
    requires Serves(keys, w.jobs, w.lost) && InRange(keys.due, Score(reading)) == DueIds(w.jobs, reading)
    requires ListsDue(order, w.jobs, reading) && forall id :: id in order ==> BackoffSurvives(w.jobs[id])
    ensures Serves(ApplyOp(keys, Op.Claim(reading)), AfterClaim(w.jobs, reading), w.lost)
  {
    forall id | id in DueIds(w.jobs, reading) ensures BackoffSurvives(w.jobs[id]) {
      assert id in order;
    }
    ServesAfterClaim(keys, w.jobs, w.lost, reading);
  }

  lemma SurvivorsOver(order: seq<JobId>, jobs: map<JobId, Job>)
    requires forall id :: id in order ==> id in jobs && Survives(jobs[id])
    ensures OverAll(HandedOut(order, jobs)) == HandedOut(order, jobs)
  {
    forall i | 0 <= i < |order| ensures Over(HandedOut(order, jobs)[i]) == HandedOut(order, jobs)[i] {
      assert order[i] in order;
      OverFacts(MarkRunning(jobs[order[i]]));
    }
  }

  lemma ServesAfterClaim(keys: Keys, jobs: map<JobId, Job>, lost: set<JobId>, reading: Time)
    requires Serves(keys, jobs, lost) && InRange(keys.due, Score(reading)) == DueIds(jobs, reading)
    requires forall id :: id in DueIds(jobs, reading) && id !in lost ==> BackoffSurvives(jobs[id])
    ensures Serves(ApplyOp(keys, Op.Claim(reading)), AfterClaim(jobs, reading), lost)
  {
    var taken := InRange(keys.due, Score(reading));
    DueSetAfterClaim(jobs, reading);
    forall id | id in jobs && id !in lost
      ensures AfterScript(keys.hash, taken)[id] == Encode(Over(AfterClaim(jobs, reading)[id]))
    {
      OverFacts(jobs[id]);
      ScriptOutcome(Over(jobs[id]));
    }
  }

  // ----- Writes -----

  lemma ServesMore(keys: Keys, jobs: map<JobId, Job>, lost: set<JobId>, more: set<JobId>)
    requires Serves(keys, jobs, lost) && lost <= more
    ensures Serves(keys, jobs, more)
  {
  }

  lemma ServesAfterPut(keys: Keys, jobs: map<JobId, Job>, lost: set<JobId>, job: Job)
    requires Serves(keys, jobs, lost)
    ensures Serves(ApplyOp(keys, Put(Over(job))), jobs[job.id := job], lost)
  {
    assert AfterPutDue(keys.due, job) == DueSet(jobs[job.id := job]);
  }

  lemma LostClaimSettles(w: World, s: nat, reading: Time, order: seq<JobId>, id: JobId)
    requires Safe(w) && Enabled(w, LoseClaim(s, reading, order)) && id in order
    ensures var w' := Apply(w, LoseClaim(s, reading, order));
            Safe(w') && Settled(w', id) && id in w'.stranded && w'.jobs[id] == MarkRunning(w.jobs[id])
  {
    assert id in DueIds(w.jobs, reading);
    SafeLoseClaim(w, s, reading, order);
  }

  /** A lost claim is lost for good: its jobs stay as it left them in every run of the protocol from there. */
  lemma LostForGood(w: World, s: nat, reading: Time, order: seq<JobId>, id: JobId, later: seq<Step>)
    requires Safe(w) && Enabled(w, LoseClaim(s, reading, order)) && id in order
    requires CanRun(Apply(w, LoseClaim(s, reading, order)), later)
    ensures var end := Run(Apply(w, LoseClaim(s, reading, order)), later);
            id in end.jobs && end.jobs[id] == MarkRunning(w.jobs[id]) && id in end.stranded
  {
    LostClaimSettles(w, s, reading, order, id);
    FinishedForEveryRun(Apply(w, LoseClaim(s, reading, order)), later, id);
  }

  // ----- Steps and runs -----

  /** Between rest and rest the two worlds enable the same claims, up to what Redis asks of them. */
  lemma SameScripts(v: RedisWorld, w: World, s: nat, reading: Time, order: seq<JobId>)
    requires Safe(w) && Follows(v, w)
    ensures RunsScript(v, s, reading, order) <==> CanClaim(w, s, reading, order) && LowestFirst(order, DueSet(w.jobs))
  {
    if s < |w.scheds| {
      assert v.scheds[s] == OverSched(w.scheds[s]);
      assert |v.scheds[s].queue| == |w.scheds[s].queue|;
    }
    if WholeMillisApart(w.now, reading) {
      SameJobsClaimed(w, v.keys, reading);
    }
  }

  lemma FollowsClaim(v: RedisWorld, w: World, s: nat, reading: Time, order: seq<JobId>)
    requires Safe(w) && Follows(v, w)
    ensures RedisEnabled(v, Step.Claim(s, reading, order)) <==>
      Enabled(w, Step.Claim(s, reading, order)) && SuitsRedis(w, Step.Claim(s, reading, order))
    ensures RedisEnabled(v, Step.Claim(s, reading, order)) ==>
      Follows(RedisApply(v, Step.Claim(s, reading, order)), Apply(w, Step.Claim(s, reading, order)))
  {
    SameScripts(v, w, s, reading, order);
    if CanClaim(w, s, reading, order) {
      SameClaimOverRedis(w, v.keys, s, reading, order);
      if Answer(v.keys, order).Ok? {
        forall id | id in DueIds(w.jobs, reading) ensures BackoffSurvives(w.jobs[id]) {
          assert id in order;
        }
        OverSchedsUpdate(w.scheds, s, Sched(HandedOut(order, w.jobs), Idle));
      }
    }
  }

  lemma FollowsLoseClaim(v: RedisWorld, w: World, s: nat, reading: Time, order: seq<JobId>)
    requires Safe(w) && Follows(v, w)
    ensures RedisEnabled(v, LoseClaim(s, reading, order)) <==>
      Enabled(w, LoseClaim(s, reading, order)) && SuitsRedis(w, LoseClaim(s, reading, order))
    ensures RedisEnabled(v, LoseClaim(s, reading, order)) ==>
      Follows(RedisApply(v, LoseClaim(s, reading, order)), Apply(w, LoseClaim(s, reading, order)))
  {
    SameScripts(v, w, s, reading, order);
    if CanClaim(w, s, reading, order) {
      var w' := Apply(w, LoseClaim(s, reading, order));
      SameJobsClaimed(w, v.keys, reading);
      ServesMore(v.keys, w.jobs, w.lost, w'.lost);
      ServesAfterClaim(v.keys, w.jobs, w'.lost, reading);
    }
  }

  lemma OverRest(queue: seq<Job>)
    requires queue != []
    ensures OverAll(queue)[0] == Over(queue[0]) && OverAll(queue[1..]) == OverAll(queue)[1..]
  {
  }

  lemma FollowsBegin(v: RedisWorld, w: World, s: nat)
    requires Follows(v, w)
    ensures RedisEnabled(v, Begin(s)) <==> Enabled(w, Begin(s))
    ensures RedisEnabled(v, Begin(s)) ==> Follows(RedisApply(v, Begin(s)), Apply(w, Begin(s)))
  {
    if s < |w.scheds| {
      var sched := w.scheds[s];
      assert v.scheds[s] == OverSched(sched);
      if sched.queue != [] {
        OverRest(sched.queue);
        OverSchedsUpdate(w.scheds, s, Sched(sched.queue[1..], Began(sched.queue[0])));
      }
    }
  }

  lemma SettleOver(job: Job, outcome: Outcome, now: Time)
    ensures Settle(Over(job), outcome, now) == Over(Settle(job, outcome, now))
  {
  }

  /** What one scheduler does with the job it is busy with. */
  lemma FollowsOwnStep(v: RedisWorld, w: World, step: Step)
    requires Follows(v, w) && (step.Handle? || step.LosePersist? || step.Announce?)
    ensures RedisEnabled(v, step) <==> Enabled(w, step)
    ensures RedisEnabled(v, step) ==> Follows(RedisApply(v, step), Apply(w, step))
  {
    if step.s < |w.scheds| {
      assert v.scheds[step.s] == OverSched(w.scheds[step.s]);
      if Enabled(w, step) {
        if step.Handle? { SettleOver(w.scheds[step.s].exec.job, step.outcome, w.now); }
        OverSchedsUpdate(w.scheds, step.s, Apply(w, step).scheds[step.s]);
      }
    }
  }

  lemma FollowsPersist(v: RedisWorld, w: World, s: nat)
    requires Safe(w) && Follows(v, w)
    ensures RedisEnabled(v, Persist(s)) <==> Enabled(w, Persist(s))
    ensures RedisEnabled(v, Persist(s)) ==> Follows(RedisApply(v, Persist(s)), Apply(w, Persist(s)))
  {
    if s < |w.scheds| {
      assert v.scheds[s] == OverSched(w.scheds[s]);
      if Enabled(w, Persist(s)) {
        ServesAfterPut(v.keys, w.jobs, w.lost, w.scheds[s].exec.next);
        OverSchedsUpdate(w.scheds, s, w.scheds[s].(exec := Stored(w.scheds[s].exec.next)));
      }
    }
  }

  /** Step by step, Redis allows exactly what the protocol allows and suits it, and comes out following it. */
  lemma FollowsStep(v: RedisWorld, w: World, step: Step)
    requires Safe(w) && Follows(v, w)
    ensures RedisEnabled(v, step) <==> Enabled(w, step) && SuitsRedis(w, step)
    ensures RedisEnabled(v, step) ==> Follows(RedisApply(v, step), Apply(w, step))
  {
    match step
    case Enqueue(job) =>
      if Enabled(w, step) { ServesAfterPut(v.keys, w.jobs, w.lost, job); }
    case Advance(_) =>
    case Claim(s, reading, order) => FollowsClaim(v, w, s, reading, order);
    case LoseClaim(s, reading, order) => FollowsLoseClaim(v, w, s, reading, order);
    case Begin(s) => FollowsBegin(v, w, s);
    case Persist(s) => FollowsPersist(v, w, s);
    case _ => FollowsOwnStep(v, w, step);
  }

  lemma {:induction false} RedisRunsAreRuns(v: RedisWorld, w: World, steps: seq<Step>)
    requires Safe(w) && Follows(v, w)
    ensures RedisCanRun(v, steps) <==> CanRun(w, steps) && EveryStepSuitsRedis(w, steps)
    ensures RedisCanRun(v, steps) ==> Follows(RedisAfter(v, steps), Run(w, steps))
    decreases |steps|
  {
    if steps != [] {
      FollowsStep(v, w, steps[0]);
      if RedisEnabled(v, steps[0]) {
        SafeStep(w, steps[0]);
        RedisRunsAreRuns(RedisApply(v, steps[0]), Apply(w, steps[0]), steps[1..]);
      }
    }
  }

  /** From empty stores on, for any number of schedulers: the runs over Redis are exactly the protocol's runs whose steps
      suit Redis; every scheduler, announcement and handler call is then the same, payloads apart; the due set is the
      scheduled jobs; and the record of a job whose claim was not lost is that job, unchanged exactly as long as it was
      never claimed or its payload is plain. */
  lemma RedisServesEveryRun(schedulers: nat, now: Time, steps: seq<Step>)
    ensures
      var v, w := RedisStart(schedulers, now), Start(schedulers, now);
      RedisCanRun(v, steps) <==> CanRun(w, steps) && EveryStepSuitsRedis(w, steps)
    ensures
      var v, w := RedisStart(schedulers, now), Start(schedulers, now);
      RedisCanRun(v, steps) ==>
        var v', w' := RedisAfter(v, steps), Run(w, steps);
        Follows(v', w') &&
        forall id :: id in w'.jobs && id !in w'.lost ==>
          (v'.keys.hash[id] == Encode(w'.jobs[id]) <==> w'.jobs[id].attempt == 0 || Plain(w'.jobs[id].payload))
  {
    var v, w := RedisStart(schedulers, now), Start(schedulers, now);
    StartIsSafe(schedulers, now);
    assert OverSched(Sched([], Idle)) == Sched([], Idle);
    RedisRunsAreRuns(v, w, steps);
    if RedisCanRun(v, steps) {
      var v', w' := RedisAfter(v, steps), Run(w, steps);
      forall id | id in w'.jobs && id !in w'.lost
        ensures v'.keys.hash[id] == Encode(w'.jobs[id]) <==> w'.jobs[id].attempt == 0 || Plain(w'.jobs[id].payload)
      {
        OverFacts(w'.jobs[id]);
        assert v'.keys.hash[id] == Encode(Over(w'.jobs[id]));
        assert Encode(Over(w'.jobs[id])).payload == Over(w'.jobs[id]).payload;
      }
    }
  }

  lemma OverFlight(sched: Sched)
    ensures InFlight(OverSched(sched)) == OverAll(InFlight(sched))
  {
  }

  lemma OverKeepsApart(scheds: seq<Sched>)
    requires Apart(scheds)
    ensures Apart(OverScheds(scheds))
  {
    forall s | 0 <= s < |scheds| ensures InFlight(OverScheds(scheds)[s]) == OverAll(InFlight(scheds[s])) {
      OverFlight(scheds[s]);
    }
  }

  /** So claims over Redis are exclusive whatever is enqueued: no job is in two flights or twice in one, and no attempt of
      a job reaches its handler twice. */
  lemma ExclusiveOverRedis(schedulers: nat, now: Time, steps: seq<Step>)
    requires RedisCanRun(RedisStart(schedulers, now), steps)
    ensures
      var v := RedisAfter(RedisStart(schedulers, now), steps);
      NoRepeats(Tries(v.runs)) && Apart(v.scheds)
  {
    RedisServesEveryRun(schedulers, now, steps);
    EveryRunIsExclusive(schedulers, now, steps);
    EveryRunKeepsHistory(schedulers, now, steps);
    OverKeepsApart(Run(Start(schedulers, now), steps).scheds);
  }
}
