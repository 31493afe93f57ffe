/** One scheduler and its tick (crates/queue/src/scheduler.rs), over the in-process store. */
module Schedulers {
  import opened Jobs
  import opened MemoryStores
  import opened QueueProtocol
  import opened Options
  import opened Times

  /** What a job kind does with a job. */
  type Handler = Job -> Outcome

  function Noop(job: Job): Outcome {
    Succeeds
  }

  function Fail(job: Job): Outcome {
    Fails("deliberate failure")
  }

  /** The kinds every scheduler knows. */
  function Builtins(): map<string, Handler> {
    map["noop" := Noop, "fail" := Fail]
  }

  function Answer(handlers: map<string, Handler>, job: Job): Outcome {
    if job.kind in handlers then handlers[job.kind](job)
    else Fails("no handler registered for kind " + job.kind)
  }

  /** A job after its handler has answered, with the clock reading at that moment. */
  function Executed(handlers: map<string, Handler>, job: Job, reading: Time): Job {
    Settle(job, Answer(handlers, job), reading)
  }

  datatype Outside = Outside(jobs: map<JobId, Job>, events: seq<Transition>)

  /** Store and bus after executing one job. */
  function ExecuteOne(o: Outside, job: Job, handlers: map<string, Handler>, reading: Time): Outside {
    var next := Executed(handlers, job, reading);
    Outside(o.jobs[next.id := next], o.events + [Opening(job), Closing(next)])
  }

  /** Store and bus after executing `claimed` in order; the i-th job's clock reading is `readings(i)`. */
  function ExecuteAll(o: Outside, claimed: seq<Job>, handlers: map<string, Handler>, readings: nat -> Time): Outside
    decreases |claimed|
  {
    if claimed == [] then o
    else
      var last := |claimed| - 1;
      ExecuteOne(ExecuteAll(o, claimed[..last], handlers, readings), claimed[last], handlers, readings(last))
  }

  lemma ExecuteAllNext(o: Outside, queue: seq<Job>, k: nat, handlers: map<string, Handler>, readings: nat -> Time)
    requires k < |queue|
    ensures ExecuteAll(o, queue[..k + 1], handlers, readings) ==
      ExecuteOne(ExecuteAll(o, queue[..k], handlers, readings), queue[k], handlers, readings(k))
  {
    assert queue[..k + 1][..k] == queue[..k];
  }

  class Scheduler {
    const store: MemoryStore
    var handlers: map<string, Handler>
    var events: seq<Transition>

    constructor (store: MemoryStore)
      ensures this.store == store && events == []
      ensures handlers.Keys == {"noop", "fail"}
      ensures forall job :: handlers["noop"](job) == Succeeds && handlers["fail"](job).Fails?
    {
      this.store := store;
      handlers := Builtins();
      events := [];
    }

    method Register(kind: string, handler: Handler)
      modifies this`handlers
      ensures handlers == old(handlers)[kind := handler]
    {
      handlers := handlers[kind := handler];
    }

    /** Announce, run the handler, write back, announce. */
    method Execute(job: Job, reading: Time)
      modifies this`events, store
      ensures Outside(store.jobs, events) == ExecuteOne(Outside(old(store.jobs), old(events)), job, handlers, reading)
    {
      events := events + [Transition(job.id, Scheduled, Running, job.attempt)];
      var outcome := Answer(handlers, job);
      var next := job;
      match outcome {
        case Succeeds =>
          next := next.(state := Succeeded, lastError := None);
          store.Put(next);
          events := events + [Transition(next.id, Running, Succeeded, next.attempt)];
        case Fails(error) =>
          next := next.(lastError := Some(error));
          if next.CanRetry() {
            var delay := next.NextBackoffMs();
            next := next.(state := Scheduled, dueAt := reading + delay * NANOS_PER_MS);
            store.Put(next);
            events := events + [Transition(next.id, Running, Scheduled, next.attempt)];
          } else {
            next := next.(state := Dead);
            store.Put(next);
            events := events + [Transition(next.id, Running, Dead, next.attempt)];
          }
      }
    }

    /** One pass: claim at one reading of the clock, then execute what was claimed one job after the other. */
    method Tick(now: Time, readings: nat -> Time) returns (ghost order: seq<JobId>)
      requires Keyed(store.jobs)
      modifies this`events, store
      ensures ListsDue(order, old(store.jobs), now)
      ensures Outside(store.jobs, events) ==
        ExecuteAll(Outside(AfterClaim(old(store.jobs), now), old(events)), HandedOut(order, old(store.jobs)), handlers, readings)
      ensures Keyed(store.jobs)
    {
      var due;
      due, order := store.ClaimDue(now);
      ghost var claimed := store.jobs;
      for i := 0 to |due|
        invariant Outside(store.jobs, events) == ExecuteAll(Outside(claimed, old(events)), due[..i], handlers, readings)
        invariant Keyed(store.jobs)
      {
        ExecuteAllNext(Outside(claimed, old(events)), due, i, handlers, readings);
        Execute(due[i], readings(i));
      }
      assert due[..|due|] == due;
    }
  }

  // ----- What a tick does, job by job -----

  lemma {:induction false} ExecutedJobs(o: Outside, claimed: seq<Job>, handlers: map<string, Handler>, readings: nat -> Time, id: JobId)
    requires DistinctIds(claimed)
    ensures var jobs := ExecuteAll(o, claimed, handlers, readings).jobs;
            && (!Names(claimed, id) ==> (id in jobs <==> id in o.jobs) && (id in jobs ==> jobs[id] == o.jobs[id]))
            && forall i :: 0 <= i < |claimed| && claimed[i].id == id ==> id in jobs && jobs[id] == Executed(handlers, claimed[i], readings(i))
    decreases |claimed|
  {
    if claimed != [] {
      var last := |claimed| - 1;
      var init := claimed[..last];
      assert claimed[..last + 1] == claimed;
      ExecuteAllNext(o, claimed, last, handlers, readings);
      ExecutedJobs(o, init, handlers, readings, id);
      if Names(init, id) {
        var i :| 0 <= i < |init| && init[i].id == id;
        assert claimed[i].id == id;
      }
      assert forall i :: 0 <= i < last ==> claimed[i] == init[i];
    }
  }

  /** `after` is `before` with one more attempt made and answered, the clock reading `reading` when it was. A success of
      the handler registered for its kind finishes the job. Anything else is a failure: the job is scheduled again, its
      wait counted from the answer, while an attempt is left, and dead otherwise. Only the handler knows its error. */
  ghost predicate AttemptMade(before: Job, after: Job, handlers: map<string, Handler>, reading: Time) {
    var shown := before.(state := Running, attempt := before.attempt + 1);
    var registered := before.kind in handlers;
    && SameJob(after, before) && after.attempt == before.attempt + 1
    && (after.state == Succeeded <==> registered && handlers[before.kind](shown) == Succeeds)
    && (after.state == Scheduled <==> after.state != Succeeded && before.attempt + 1 < before.maxAttempts)
    && (after.state == Dead <==> after.state != Succeeded && before.attempt + 1 >= before.maxAttempts)
    && (after.lastError.None? <==> after.state == Succeeded)
    && (registered && after.state != Succeeded ==> after.lastError == Some(handlers[before.kind](shown).error))
    && after.dueAt == if after.state == Scheduled then reading + shown.NextBackoffMs() * NANOS_PER_MS else before.dueAt
  }

  lemma ExecutedIsAttemptMade(before: Job, handlers: map<string, Handler>, reading: Time)
    ensures AttemptMade(before, Executed(handlers, MarkRunning(before), reading), handlers, reading)
  {
    assert MarkRunning(before) == before.(state := Running, attempt := before.attempt + 1);
  }

  /** After a tick of the only scheduler, every job is as its own claim and handler left it: a due job has made one more
      attempt, and its handler's answer decides what it is then; every other job is untouched; and so nothing is left
      running. A job of a kind that is not registered never succeeds. */
  lemma TickSettlesEveryDueJob(jobs: map<JobId, Job>, events: seq<Transition>, order: seq<JobId>, now: Time,
                               handlers: map<string, Handler>, readings: nat -> Time, id: JobId)
    requires Keyed(jobs) && ListsDue(order, jobs, now) && id in jobs
    ensures var jobs' := ExecuteAll(Outside(AfterClaim(jobs, now), events), HandedOut(order, jobs), handlers, readings).jobs;
            && id in jobs'
            && (id !in DueIds(jobs, now) ==> jobs'[id] == jobs[id])
            && (id in DueIds(jobs, now) ==>
                  jobs'[id].state != Running && (jobs[id].kind !in handlers ==> jobs'[id].state != Succeeded) &&
                  exists i :: 0 <= i < |order| && order[i] == id && AttemptMade(jobs[id], jobs'[id], handlers, readings(i)))
  {
    var claimed := HandedOut(order, jobs);
    forall i | 0 <= i < |claimed| ensures claimed[i].id == order[i] {
      assert order[i] in order;
    }
    ExecutedJobs(Outside(AfterClaim(jobs, now), events), claimed, handlers, readings, id);
    if id in DueIds(jobs, now) {
      assert id in order;
      var i :| 0 <= i < |order| && order[i] == id;
      assert claimed[i].id == id;
      ExecutedIsAttemptMade(jobs[id], handlers, readings(i));
    }
  }

  // ----- A tick is a run of the protocol -----

  ghost predicate Later(a: Time, b: Time) {
    b >= a && WholeMillisApart(a, b)
  }

  ghost predicate LaterThanLast(now: Time, readings: nat -> Time, k: nat) {
    Later(if k == 0 then now else readings(k - 1), readings(k))
  }

  /** Readings of the clock in the course of one tick: never backwards, and whole milliseconds apart. */
  ghost predicate Readings(now: Time, readings: nat -> Time) {
    forall k: nat :: LaterThanLast(now, readings, k)
  }

  /** Some run of the protocol leads from `w` to `w'`. */
  ghost predicate Reaches(w: World, w': World) {
    exists steps :: CanRun(w, steps) && Run(w, steps) == w'
  }

  lemma ReachesItself(w: World)
    ensures Reaches(w, w)
  {
    assert CanRun(w, []) && Run(w, []) == w;
  }

  lemma ReachesNext(w: World, step: Step)
    requires Enabled(w, step)
    ensures Reaches(w, Apply(w, step))
  {
    RunOne(w, step);
  }

  lemma ReachesFurther(a: World, b: World, c: World)
    requires Reaches(a, b) && Reaches(b, c)
    ensures Reaches(a, c)
  {
    var first :| CanRun(a, first) && Run(a, first) == b;
    var second :| CanRun(b, second) && Run(b, second) == c;
    RunAppend(a, first, second);
  }

  lemma Wait(w: World, reading: Time)
    requires Later(w.now, reading)
    ensures Reaches(w, w.(now := reading))
  {
    var ms := (reading - w.now) / NANOS_PER_MS;
    ReachesNext(w, Advance(ms));
    assert Apply(w, Advance(ms)) == w.(now := reading);
  }

  /** `w'` is `w` with the job at the front of one scheduler's queue executed. */
  ghost predicate FrontExecuted(w: World, w': World, s: nat, handlers: map<string, Handler>, reading: Time) {
    && s < |w.scheds| && w.scheds[s].exec.Idle? && w.scheds[s].queue != []
    && Outside(w'.jobs, w'.events) == ExecuteOne(Outside(w.jobs, w.events), w.scheds[s].queue[0], handlers, reading)
    && w'.scheds == w.scheds[s := Sched(w.scheds[s].queue[1..], Idle)] && w'.now == reading
  }

  lemma ReachesInTwo(w: World, first: Step, second: Step)
    requires Enabled(w, first) && Enabled(Apply(w, first), second)
    ensures Reaches(w, Apply(Apply(w, first), second))
  {
    ReachesNext(w, first);
    ReachesNext(Apply(w, first), second);
    ReachesFurther(w, Apply(w, first), Apply(Apply(w, first), second));
  }

  /** Start and answer. */
  lemma StartToAnswer(w: World, s: nat, outcome: Outcome) returns (w': World)
    requires s < |w.scheds| && w.scheds[s].exec.Idle? && w.scheds[s].queue != []
    ensures Reaches(w, w')
    ensures var job := w.scheds[s].queue[0];
            && w'.jobs == w.jobs && w'.events == w.events + [Opening(job)] && w'.now == w.now
            && w'.scheds == w.scheds[s := Sched(w.scheds[s].queue[1..], Answered(job, Settle(job, outcome, w.now), w.now))]
  {
    ReachesInTwo(w, Begin(s), Handle(s, outcome));
    w' := Apply(Apply(w, Begin(s)), Handle(s, outcome));
  }

  /** Write back and announce. */
  lemma AnswerToEnd(w: World, s: nat) returns (w': World)
    requires s < |w.scheds| && w.scheds[s].exec.Answered?
    ensures Reaches(w, w')
    ensures var next := w.scheds[s].exec.next;
            && w'.jobs == w.jobs[next.id := next] && w'.events == w.events + [Closing(next)] && w'.now == w.now
            && w'.scheds == w.scheds[s := Sched(w.scheds[s].queue, Idle)]
  {
    ReachesInTwo(w, Persist(s), Announce(s));
    w' := Apply(Apply(w, Persist(s)), Announce(s));
  }

  lemma StartToEnd(w: World, s: nat, handlers: map<string, Handler>) returns (w': World)
    requires s < |w.scheds| && w.scheds[s].exec.Idle? && w.scheds[s].queue != []
    ensures Reaches(w, w') && FrontExecuted(w, w', s, handlers, w.now)
  {
    var w1 := StartToAnswer(w, s, Answer(handlers, w.scheds[s].queue[0]));
    w' := AnswerToEnd(w1, s);
    ReachesFurther(w, w1, w');
  }

  /** Executing the job at the front of a scheduler's queue, at a given reading of the clock. */
  lemma ExecuteIsARun(w: World, s: nat, handlers: map<string, Handler>, reading: Time) returns (w': World)
    requires s < |w.scheds| && w.scheds[s].exec.Idle? && w.scheds[s].queue != [] && Later(w.now, reading)
    ensures Reaches(w, w') && FrontExecuted(w, w', s, handlers, reading)
  {
    Wait(w, reading);
    w' := StartToEnd(w.(now := reading), s, handlers);
    ReachesFurther(w, w.(now := reading), w');
  }

  /** `w'` is `w` with the first `k` jobs of one scheduler's queue executed. */
  ghost predicate Drained(w: World, w': World, s: nat, handlers: map<string, Handler>, readings: nat -> Time, k: nat) {
    && s < |w.scheds| && w.scheds[s].exec.Idle? && k <= |w.scheds[s].queue|
    && Outside(w'.jobs, w'.events) == ExecuteAll(Outside(w.jobs, w.events), w.scheds[s].queue[..k], handlers, readings)
    && w'.scheds == w.scheds[s := Sched(w.scheds[s].queue[k..], Idle)]
    && w'.now == if k == 0 then w.now else readings(k - 1)
  }

  lemma DrainedNone(w: World, s: nat, handlers: map<string, Handler>, readings: nat -> Time)
    requires s < |w.scheds| && w.scheds[s].exec.Idle?
    ensures Drained(w, w, s, handlers, readings, 0)
  {
    assert w.scheds[s].queue[..0] == [] && w.scheds[s].queue[0..] == w.scheds[s].queue;
    assert w.scheds[s := Sched(w.scheds[s].queue, Idle)] == w.scheds;
  }

  lemma DrainedNext(w: World, w1: World, w2: World, s: nat, handlers: map<string, Handler>, readings: nat -> Time, k: nat)
    requires Drained(w, w1, s, handlers, readings, k) && k < |w.scheds[s].queue|
    requires FrontExecuted(w1, w2, s, handlers, readings(k))
    ensures Drained(w, w2, s, handlers, readings, k + 1)
  {
    ExecuteAllNext(Outside(w.jobs, w.events), w.scheds[s].queue, k, handlers, readings);
    assert w.scheds[s].queue[k..][1..] == w.scheds[s].queue[k + 1..];
  }

  /** Executing the first `k` jobs of a scheduler's queue is a run of protocol steps with the same effect on store and
      bus. */
  lemma {:induction false} DrainIsARun(w: World, s: nat, handlers: map<string, Handler>, readings: nat -> Time, k: nat)
    returns (w': World)
    requires s < |w.scheds| && w.scheds[s].exec.Idle? && k <= |w.scheds[s].queue| && Readings(w.now, readings)
    ensures Reaches(w, w') && Drained(w, w', s, handlers, readings, k)
    decreases k
  {
    if k == 0 {
      w' := w;
      ReachesItself(w);
      DrainedNone(w, s, handlers, readings);
    } else {
      var w1 := DrainIsARun(w, s, handlers, readings, k - 1);
      assert LaterThanLast(w.now, readings, k - 1);
      w' := ExecuteIsARun(w1, s, handlers, readings(k - 1));
      DrainedNext(w, w1, w', s, handlers, readings, k - 1);
      ReachesFurther(w, w1, w');
    }
  }

  /** A whole tick of scheduler `s`, undisturbed, is a run of the protocol from claim to rest. */
  lemma TickIsARun(w: World, s: nat, order: seq<JobId>, handlers: map<string, Handler>, readings: nat -> Time)
    returns (w': World)
    requires Enabled(w, Claim(s, w.now, order)) && Readings(w.now, readings)
    ensures Reaches(w, w') && w'.scheds == w.scheds
    ensures Outside(w'.jobs, w'.events) ==
      ExecuteAll(Outside(AfterClaim(w.jobs, w.now), w.events), HandedOut(order, w.jobs), handlers, readings)
  {
    var w1 := Apply(w, Claim(s, w.now, order));
    var claimed := HandedOut(order, w.jobs);
    ReachesNext(w, Claim(s, w.now, order));
    w' := DrainIsARun(w1, s, handlers, readings, |claimed|);
    assert claimed[..|claimed|] == claimed && claimed[|claimed|..] == [];
    ReachesFurther(w, w1, w');
    assert w1.scheds[s := Sched([], Idle)] == w.scheds;
  }
}
