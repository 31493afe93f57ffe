/** What a handler's answer makes of its job, over every run of any number of schedulers
    (crates/queue/src/scheduler.rs:132-163). */
module QueueAnswers {
  import opened Jobs
  import opened MemoryStores
  import opened Options
  import opened QueueProtocol
  import opened QueueHistory
  import opened Times

  /** The job is as this answer to its current attempt leaves it: finished by a success; after a failure scheduled again,
      its wait counted from the answer, while an attempt is left, and given up otherwise. */
  ghost predicate Reflects(job: Job, c: Call) {
    && c.job == job.id && c.attempt == job.attempt
    && match c.outcome
       case Succeeds => job.state == Succeeded && job.lastError == None
       case Fails(error) =>
         && job.lastError == Some(error)
         && if job.attempt < job.maxAttempts then
              job.state == Scheduled && job.dueAt == c.at + Wait(job, job.attempt) * NANOS_PER_MS
            else
              job.state == Dead
  }

  ghost predicate ReflectsSome(job: Job, runs: seq<Call>) {
    exists i :: 0 <= i < |runs| && Reflects(job, runs[i])
  }

  /** Nobody has the job, and nobody has lost it. */
  ghost predicate AtRest(w: World, id: JobId) {
    id in w.jobs && id !in w.holder && id !in w.stranded
  }

  /** A job at rest is as it was enqueued, or as the answer to its last attempt left it. */
  ghost predicate RestOk(w: World, id: JobId) {
    AtRest(w, id) ==>
      if w.jobs[id].attempt == 0 then id in w.enqueued && w.jobs[id] == w.enqueued[id] else ReflectsSome(w.jobs[id], w.runs)
  }

  /** What a scheduler is about to write back is what its handler's answer made of the job. */
  ghost predicate ReadyOk(exec: Exec, runs: seq<Call>) {
    exec.Answered? ==> exec.next.attempt >= 1 && ReflectsSome(exec.next, runs)
  }

  ghost predicate AnswersKept(w: World) {
    && (forall id :: RestOk(w, id))
    && (forall s :: 0 <= s < |w.scheds| ==> ReadyOk(w.scheds[s].exec, w.runs))
  }

  lemma ReflectsMore(job: Job, runs: seq<Call>, c: Call)
    requires ReflectsSome(job, runs)
    ensures ReflectsSome(job, runs + [c])
  {
    var i :| 0 <= i < |runs| && Reflects(job, runs[i]);
    assert (runs + [c])[i] == runs[i];
  }

  lemma SettleReflects(job: Job, outcome: Outcome, now: Time)
    requires job.state == Running
    ensures Reflects(Settle(job, outcome, now), Call(job.id, job.attempt, outcome, now))
  {
  }

  lemma KeptByHandle(w: World, s: nat, outcome: Outcome)
    requires Safe(w) && AnswersKept(w) && Enabled(w, Handle(s, outcome))
    ensures AnswersKept(Apply(w, Handle(s, outcome)))
  {
    var w', job := Apply(w, Handle(s, outcome)), w.scheds[s].exec.job;
    var c := Call(job.id, job.attempt, outcome, w.now);
    assert Holds(w.jobs, w.holder, w.scheds[s], s) && InFlight(w.scheds[s])[0] == job;
    assert Held(w.jobs, w.holder, job, s) && JobOk(w.jobs[job.id]);
    SettleReflects(job, outcome, w.now);
    assert w'.runs[|w.runs|] == c;
    forall id ensures RestOk(w', id) {
      assert RestOk(w, id);
      if AtRest(w, id) && w.jobs[id].attempt > 0 { ReflectsMore(w.jobs[id], w.runs, c); }
    }
    forall r | 0 <= r < |w'.scheds| ensures ReadyOk(w'.scheds[r].exec, w'.runs) {
      if r != s {
        assert w'.scheds[r] == w.scheds[r] && ReadyOk(w.scheds[r].exec, w.runs);
        if w.scheds[r].exec.Answered? { ReflectsMore(w.scheds[r].exec.next, w.runs, c); }
      }
    }
  }

  /** A job is let go of: written back it reflects its answer, and otherwise it is stranded. */
  lemma KeptByRelease(w: World, step: Step)
    requires Safe(w) && AnswersKept(w) && Enabled(w, step) && (step.Persist? || step.LosePersist?)
    ensures AnswersKept(Apply(w, step))
  {
    var w', exec := Apply(w, step), w.scheds[step.s].exec;
    PersistFacts(w, step.s);
    assert ReadyOk(exec, w.runs);
    forall id ensures RestOk(w', id) {
      assert RestOk(w, id);
    }
    forall r | 0 <= r < |w'.scheds| ensures ReadyOk(w'.scheds[r].exec, w'.runs) {
      if r != step.s { assert w'.scheds[r] == w.scheds[r]; }
    }
  }

  /** What a claim takes is held, or stranded, from then on. */
  lemma KeptByClaim(w: World, step: Step)
    requires Safe(w) && AnswersKept(w) && Enabled(w, step) && (step.Claim? || step.LoseClaim?)
    ensures AnswersKept(Apply(w, step))
  {
    var w' := Apply(w, step);
    forall id ensures RestOk(w', id) {
      assert RestOk(w, id);
    }
    forall r | 0 <= r < |w'.scheds| ensures ReadyOk(w'.scheds[r].exec, w'.runs) {
      if r != step.s { assert w'.scheds[r] == w.scheds[r]; }
    }
  }

  lemma KeptByRest(w: World, step: Step)
    requires Safe(w) && AnswersKept(w) && Enabled(w, step)
    requires step.Enqueue? || step.Advance? || step.Begin? || step.Announce?
    ensures AnswersKept(Apply(w, step))
  {
    var w' := Apply(w, step);
    forall id ensures RestOk(w', id) {
      assert RestOk(w, id);
    }
    forall r | 0 <= r < |w'.scheds| ensures ReadyOk(w'.scheds[r].exec, w'.runs) {
      assert ReadyOk(w.scheds[r].exec, w.runs);
    }
  }

  lemma KeptByStep(w: World, step: Step)
    requires Safe(w) && AnswersKept(w) && Enabled(w, step)
    ensures AnswersKept(Apply(w, step))
  {
    match step
    case Handle(s, outcome) => KeptByHandle(w, s, outcome);
    case Persist(_) => KeptByRelease(w, step);
    case LosePersist(_) => KeptByRelease(w, step);
    case Claim(_, _, _) => KeptByClaim(w, step);
    case LoseClaim(_, _, _) => KeptByClaim(w, step);
    case _ => KeptByRest(w, step);
  }

  lemma {:induction false} KeptByRun(w: World, steps: seq<Step>)
    requires Safe(w) && AnswersKept(w) && CanRun(w, steps)
    ensures AnswersKept(Run(w, steps))
    decreases |steps|
  {
    if steps != [] {
      SafeStep(w, steps[0]);
      KeptByStep(w, steps[0]);
      KeptByRun(Apply(w, steps[0]), steps[1..]);
    }
  }

  /** In every run, a job that is neither held nor stranded has never been attempted and is as it was enqueued, or its
      current attempt has been answered, by one call, and that answer tells its state: succeeded exactly after a success;
      given up exactly after a failure with no attempt left; and after a failure with one left scheduled again, due when
      its wait is over, counted from the answer. Its last error is the answer's. */
  lemma StateTellsTheAnswer(schedulers: nat, now: Time, steps: seq<Step>, id: JobId)
    requires CanRun(Start(schedulers, now), steps) && AtRest(Run(Start(schedulers, now), steps), id)
    ensures
      var w := Run(Start(schedulers, now), steps);
      var job := w.jobs[id];
      && (job.attempt == 0 ==> id in w.enqueued && job == w.enqueued[id])
      && (job.attempt > 0 ==> exists i :: 0 <= i < |w.runs| && w.runs[i].job == id && w.runs[i].attempt == job.attempt)
      && forall i :: 0 <= i < |w.runs| && w.runs[i].job == id && w.runs[i].attempt == job.attempt ==>
           var answer := w.runs[i].outcome;
           && (job.state == Succeeded <==> answer == Succeeds)
           && (job.state == Dead <==> answer.Fails? && job.attempt >= job.maxAttempts)
           && (job.state == Scheduled <==> answer.Fails? && job.attempt < job.maxAttempts)
           && job.lastError == (if answer.Fails? then Some(answer.error) else None)
           && (job.state == Scheduled ==> job.dueAt == w.runs[i].at + Wait(job, job.attempt) * NANOS_PER_MS)
  {
    var w0, w := Start(schedulers, now), Run(Start(schedulers, now), steps);
    StartIsSafe(schedulers, now);
    SafeRun(w0, steps);
    assert AnswersKept(w0);
    KeptByRun(w0, steps);
    assert RestOk(w, id);
    var job := w.jobs[id];
    assert job.id == id;
    EveryRunKeepsHistory(schedulers, now, steps);
    forall i | 0 <= i < |w.runs| && w.runs[i].job == id && w.runs[i].attempt == job.attempt
      ensures Reflects(job, w.runs[i])
    {
      OnlyCall(w, id, i);
    }
  }

  /** No second call of the same attempt. */
  lemma OnlyCall(w: World, id: JobId, i: nat)
    requires AtRest(w, id) && w.jobs[id].id == id && RestOk(w, id) && NoRepeats(Tries(w.runs))
    requires forall k: nat :: Called(w, id, k) ==> 1 <= k
    requires i < |w.runs| && w.runs[i].job == id && w.runs[i].attempt == w.jobs[id].attempt
    ensures Reflects(w.jobs[id], w.runs[i])
  {
    assert Tries(w.runs)[i] == (id, w.jobs[id].attempt);
    assert Called(w, id, w.jobs[id].attempt);
    var j :| 0 <= j < |w.runs| && Reflects(w.jobs[id], w.runs[j]);
    assert Tries(w.runs)[j] == Tries(w.runs)[i];
  }
}
