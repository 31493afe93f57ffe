/** What can happen to one job, over every run of any number of schedulers: the order of its transitions, when they
    may happen, and how often its handler is called. */
module QueueHistory {
  import opened Counting
  import opened Jobs
  import opened MemoryStores
  import opened QueueProtocol
  import opened Times

  // ----- The history of one job -----

  function OfJob(history: seq<Entry>, id: JobId): seq<Entry> {
    if history == [] then []
    else
      var last := history[|history| - 1];
      OfJob(history[..|history| - 1], id) + if last.t.job == id then [last] else []
  }

  /** The wait configured after attempt `k`, in milliseconds. */
  function Wait(e: Job, k: nat): nat {
    e.(attempt := k).NextBackoffMs()
  }

  ghost predicate First(e: Job, a: Entry) {
    a.t == Transition(e.id, Scheduled, Running, 1) && a.at >= e.dueAt
  }

  /** Which entry may come after which, for a job enqueued as `e`. */
  ghost predicate Follows(e: Job, a: Entry, b: Entry) {
    match a.t.to
    case Running =>
      b.t == Transition(e.id, Running, b.t.to, a.t.attempt) && b.at >= a.at &&
      (match b.t.to
       case Succeeded => true
       case Scheduled => a.t.attempt < e.maxAttempts
       case Dead => a.t.attempt >= e.maxAttempts
       case _ => false)
    case Scheduled =>
      b.t == Transition(e.id, Scheduled, Running, a.t.attempt + 1) &&
      b.at >= a.at + Wait(e, a.t.attempt) * NANOS_PER_MS
    case _ => false
  }

  ghost predicate Chain(e: Job, h: seq<Entry>) {
    && (h != [] ==> First(e, h[0]))
    && forall i :: 0 < i < |h| ==> Follows(e, h[i - 1], h[i])
  }

  lemma ChainExtends(e: Job, h: seq<Entry>, a: Entry)
    requires Chain(e, h)
    requires if h == [] then First(e, a) else Follows(e, h[|h| - 1], a)
    ensures Chain(e, h + [a])
  {
    var h' := h + [a];
    forall i | 0 < i < |h'| ensures Follows(e, h'[i - 1], h'[i]) {
      if i < |h| { assert h'[i] == h[i] && h'[i - 1] == h[i - 1]; }
    }
  }

  /** The chain spelled out: openings and closings alternate, attempt numbers count up by one, every closing but the
      last is a retry, and there are no more than two entries for each permitted attempt. */
  lemma {:induction false} ChainShape(e: Job, h: seq<Entry>, i: nat)
    requires Chain(e, h) && i < |h|
    ensures h[i].t == if i % 2 == 0 then Transition(e.id, Scheduled, Running, i / 2 + 1)
                      else Transition(e.id, Running, h[i].t.to, i / 2 + 1)
    ensures i % 2 == 1 ==> h[i].t.to == Scheduled || h[i].t.to == Succeeded || h[i].t.to == Dead
    ensures i % 2 == 1 && i + 1 < |h| ==> h[i].t.to == Scheduled
    ensures i % 2 == 1 && h[i].t.to == Dead ==> i / 2 + 1 == e.AttemptCap()
    ensures i / 2 + 1 <= e.AttemptCap()
    decreases i
  {
    if i > 0 {
      ChainShape(e, h, i - 1);
      assert Follows(e, h[i - 1], h[i]);
      if i % 2 == 0 { assert Follows(e, h[i - 2], h[i - 1]); }
    }
    if i + 1 < |h| { assert Follows(e, h[i], h[i + 1]); }
  }

  /** The sum of the waits after attempts 1 to `k`. */
  function TotalWait(e: Job, k: nat): nat {
    if k == 0 then 0 else TotalWait(e, k - 1) + Wait(e, k)
  }

  lemma {:induction false} WaitsWithinList(e: Job, k: nat)
    requires k <= |e.backoffMs|
    ensures TotalWait(e, k) == Sum(e.backoffMs[..k])
    decreases k
  {
    if k > 0 {
      WaitsWithinList(e, k - 1);
      assert e.backoffMs[..k][..k - 1] == e.backoffMs[..k - 1];
      BackoffWalksThenHolds(e.(attempt := k), k);
    }
  }

  /** A new job is attempted three times, one second and five seconds apart, and for the rest is as it was asked for. */
  lemma NewJobWaits(id: JobId, kind: string, dueAt: Time)
    ensures var job := NewJob(id, kind, dueAt);
            && job.AttemptCap() == 3 && Wait(job, 1) == 1_000 && Wait(job, 2) == 5_000 && Wait(job, 3) == 30_000
            && job.id == id && job.kind == kind && job.dueAt == dueAt && job.state == Scheduled && job.attempt == 0
  {
  }

  lemma {:induction false} WaitsBeyondList(e: Job, more: nat)
    requires e.backoffMs != []
    ensures TotalWait(e, |e.backoffMs| + more) == Sum(e.backoffMs) + more * e.backoffMs[|e.backoffMs| - 1]
    decreases more
  {
    if more == 0 {
      WaitsWithinList(e, |e.backoffMs|);
      assert e.backoffMs[..|e.backoffMs|] == e.backoffMs;
    } else {
      WaitsBeyondList(e, more - 1);
      BackoffWalksThenHolds(e.(attempt := |e.backoffMs| + more), |e.backoffMs| + more);
    }
  }

  lemma {:induction false} NoWaits(e: Job, k: nat)
    requires e.backoffMs == []
    ensures TotalWait(e, k) == 0
    decreases k
  {
    if k > 0 {
      NoWaits(e, k - 1);
    }
  }

  /** The first `k` waits together: the list's first `k` entries, and its last entry again for every attempt beyond it. */
  lemma TotalWaitIs(e: Job, k: nat)
    ensures e.backoffMs == [] ==> TotalWait(e, k) == 0
    ensures k <= |e.backoffMs| ==> TotalWait(e, k) == Sum(e.backoffMs[..k])
    ensures 0 < |e.backoffMs| < k ==>
      TotalWait(e, k) == Sum(e.backoffMs) + (k - |e.backoffMs|) * e.backoffMs[|e.backoffMs| - 1]
  {
    if e.backoffMs == [] {
      NoWaits(e, k);
    }
    if k <= |e.backoffMs| {
      WaitsWithinList(e, k);
    } else if e.backoffMs != [] {
      WaitsBeyondList(e, k - |e.backoffMs|);
    }
  }

  /** Attempt `k + 1` is neither claimed nor answered before the first due time plus the first `k` waits. */
  lemma {:induction false} NotBefore(e: Job, h: seq<Entry>, i: nat)
    requires Chain(e, h) && i < |h|
    ensures h[i].at >= e.dueAt + TotalWait(e, i / 2) * NANOS_PER_MS
    decreases i
  {
    ChainShape(e, h, i);
    if i > 0 {
      NotBefore(e, h, i - 1);
      ChainShape(e, h, i - 1);
      assert Follows(e, h[i - 1], h[i]);
    }
  }

  /** A job is dead-lettered no earlier than its first due time plus every wait between its attempts. */
  lemma DeadNoEarlier(e: Job, h: seq<Entry>)
    requires Chain(e, h) && h != [] && h[|h| - 1].t.to == Dead
    ensures |h| == 2 * e.AttemptCap()
    ensures h[|h| - 1].at >= e.dueAt + TotalWait(e, e.AttemptCap() - 1) * NANOS_PER_MS
  {
    ChainShape(e, h, |h| - 1);
    NotBefore(e, h, |h| - 1);
  }

  // ----- The store agrees with the history -----

  /** The end of a job's history is the job's state in the store. */
  ghost predicate Fits(e: Job, h: seq<Entry>, j: Job) {
    Chain(e, h) &&
    if h == [] then j.state == Scheduled && j.attempt == 0 && j.dueAt == e.dueAt
    else
      var last := h[|h| - 1];
      && last.t.to == j.state && last.t.attempt == j.attempt
      && (j.state == Scheduled ==> j.dueAt == last.at + Wait(e, j.attempt) * NANOS_PER_MS)
  }

  ghost predicate NotAfter(h: seq<Entry>, t: Time) {
    h != [] ==> h[|h| - 1].at <= t
  }

  ghost predicate AllFit(w: World) {
    forall id :: id in w.jobs ==> id in w.enqueued && Fits(w.enqueued[id], OfJob(w.history, id), w.jobs[id])
  }

  ghost predicate AllPast(w: World) {
    forall id :: NotAfter(OfJob(w.history, id), w.now) && (id !in w.jobs ==> OfJob(w.history, id) == [])
  }

  ghost predicate AnswersLast(w: World) {
    forall s :: 0 <= s < |w.scheds| && w.scheds[s].exec.Answered? ==>
      NotAfter(OfJob(w.history, w.scheds[s].exec.job.id), w.scheds[s].exec.at)
  }

  ghost predicate HistoryOk(w: World) {
    AllFit(w) && AllPast(w) && AnswersLast(w)
  }

  lemma {:induction false} OfJobAppend(a: seq<Entry>, b: seq<Entry>, id: JobId)
    ensures OfJob(a + b, id) == OfJob(a, id) + OfJob(b, id)
    decreases |b|
  {
    if b == [] {
      assert a + b == a;
    } else {
      assert (a + b)[..|a + b| - 1] == a + b[..|b| - 1];
      OfJobAppend(a, b[..|b| - 1], id);
    }
  }

  /** A claim adds one entry to the history of each claimed job and nothing to any other. */
  lemma {:induction false} OfOpenings(claimed: seq<Job>, at: Time, id: JobId)
    requires DistinctIds(claimed)
    ensures !Names(claimed, id) ==> OfJob(OpeningEntries(claimed, at), id) == []
    ensures forall i :: 0 <= i < |claimed| && claimed[i].id == id ==> OfJob(OpeningEntries(claimed, at), id) == [Entry(Opening(claimed[i]), at)]
    decreases |claimed|
  {
    if claimed != [] {
      var head, rest := claimed[0], claimed[1..];
      OfOpenings(rest, at, id);
      OfJobAppend([Entry(Opening(head), at)], OpeningEntries(rest, at), id);
      assert OfJob([Entry(Opening(head), at)], id) == if head.id == id then [Entry(Opening(head), at)] else [];
      if Names(rest, id) {
        var i :| 0 <= i < |rest| && rest[i].id == id;
        assert claimed[i + 1].id == id;
      }
      assert forall i :: 0 < i < |claimed| ==> claimed[i] == rest[i - 1];
    }
  }

  ghost predicate HistoryGrows(w: World, w': World, reading: Time, id: JobId) {
    OfJob(w'.history, id) ==
      OfJob(w.history, id) + if id in DueIds(w.jobs, reading) then [Entry(Opening(MarkRunning(w.jobs[id])), reading)] else []
  }

  lemma HistoryOfClaim(w: World, s: nat, reading: Time, order: seq<JobId>, id: JobId)
    requires JobsOk(w) && Enabled(w, Claim(s, reading, order))
    ensures HistoryGrows(w, Apply(w, Claim(s, reading, order)), reading, id)
  {
    OfJobAppend(w.history, OpeningEntries(HandedOut(order, w.jobs), reading), id);
    OfHandedOut(w.jobs, reading, order, id);
  }

  lemma HandedOutIs(jobs: map<JobId, Job>, reading: Time, order: seq<JobId>, i: nat)
    requires Keyed(jobs) && ListsDue(order, jobs, reading) && i < |order|
    ensures order[i] in DueIds(jobs, reading)
    ensures HandedOut(order, jobs)[i] == MarkRunning(jobs[order[i]]) && HandedOut(order, jobs)[i].id == order[i]
  {
    assert order[i] in order;
  }

  /** The entries of a claim, for one job. */
  lemma OfHandedOut(jobs: map<JobId, Job>, reading: Time, order: seq<JobId>, id: JobId)
    requires Keyed(jobs) && ListsDue(order, jobs, reading)
    ensures OfJob(OpeningEntries(HandedOut(order, jobs), reading), id) ==
      if id in DueIds(jobs, reading) then [Entry(Opening(MarkRunning(jobs[id])), reading)] else []
  {
    var claimed := HandedOut(order, jobs);
    forall i | 0 <= i < |claimed| ensures claimed[i].id == order[i] && order[i] in DueIds(jobs, reading) {
      HandedOutIs(jobs, reading, order, i);
    }
    OfOpenings(claimed, reading, id);
    if id in DueIds(jobs, reading) {
      assert id in order;
      var i :| 0 <= i < |order| && order[i] == id;
      HandedOutIs(jobs, reading, order, i);
    }
  }

  /** Claiming a due job extends its chain. */
  lemma ClaimFits(e: Job, h: seq<Entry>, j: Job, reading: Time)
    requires Fits(e, h, j) && SameJob(j, e) && IsDue(j, reading)
    ensures Fits(e, h + [Entry(Opening(MarkRunning(j)), reading)], MarkRunning(j))
  {
    var entry := Entry(Opening(MarkRunning(j)), reading);
    if h != [] { assert Follows(e, h[|h| - 1], entry); }
    ChainExtends(e, h, entry);
  }

  lemma FitsAfterClaim(w: World, s: nat, reading: Time, order: seq<JobId>, id: JobId)
    requires JobsOk(w) && AllFit(w) && Enabled(w, Claim(s, reading, order)) && id in w.jobs
    ensures var w' := Apply(w, Claim(s, reading, order));
            id in w'.enqueued && id in w'.jobs && Fits(w'.enqueued[id], OfJob(w'.history, id), w'.jobs[id])
  {
    var e, h, j := w.enqueued[id], OfJob(w.history, id), w.jobs[id];
    HistoryOfClaim(w, s, reading, order, id);
    assert Fits(e, h, j) && SameJob(j, e);
    if id in DueIds(w.jobs, reading) {
      ClaimFits(e, h, j, reading);
    } else {
      assert h + [] == h;
    }
  }

  lemma PastAfterClaim(w: World, s: nat, reading: Time, order: seq<JobId>)
    requires JobsOk(w) && AllPast(w) && Enabled(w, Claim(s, reading, order))
    ensures AllPast(Apply(w, Claim(s, reading, order)))
  {
    var w' := Apply(w, Claim(s, reading, order));
    forall id ensures NotAfter(OfJob(w'.history, id), w'.now) && (id !in w'.jobs ==> OfJob(w'.history, id) == []) {
      HistoryOfClaim(w, s, reading, order, id);
    }
  }

  lemma HistoryClaim(w: World, s: nat, reading: Time, order: seq<JobId>)
    requires Safe(w) && HistoryOk(w) && Enabled(w, Claim(s, reading, order))
    ensures HistoryOk(Apply(w, Claim(s, reading, order)))
  {
    var w' := Apply(w, Claim(s, reading, order));
    forall id | id in w'.jobs ensures id in w'.enqueued && Fits(w'.enqueued[id], OfJob(w'.history, id), w'.jobs[id]) {
      FitsAfterClaim(w, s, reading, order, id);
    }
    PastAfterClaim(w, s, reading, order);
    AnswersLastAfterClaim(w, s, reading, order);
  }

  lemma AnswersLastAfterClaim(w: World, s: nat, reading: Time, order: seq<JobId>)
    requires Safe(w) && AnswersLast(w) && Enabled(w, Claim(s, reading, order))
    ensures AnswersLast(Apply(w, Claim(s, reading, order)))
  {
    var w' := Apply(w, Claim(s, reading, order));
    forall r | 0 <= r < |w'.scheds| && w'.scheds[r].exec.Answered?
      ensures NotAfter(OfJob(w'.history, w'.scheds[r].exec.job.id), w'.scheds[r].exec.at)
    {
      assert w'.scheds[r] == w.scheds[r];
      var job := w.scheds[r].exec.job;
      assert Holds(w.jobs, w.holder, w.scheds[r], r) && InFlight(w.scheds[r])[0] == job;
      assert job.id !in DueIds(w.jobs, reading);
      HistoryOfClaim(w, s, reading, order, job.id);
      assert OfJob(w'.history, job.id) == OfJob(w.history, job.id);
    }
  }

  lemma SameStoreSameHistory(w: World, w': World)
    requires AllFit(w) && AllPast(w)
    requires w'.history == w.history && w'.jobs == w.jobs && w'.enqueued == w.enqueued && w'.now == w.now
    ensures AllFit(w') && AllPast(w')
  {
  }

  /** A lost claim leaves the same history as any other; only nobody holds the jobs. */
  lemma HistoryLoseClaim(w: World, s: nat, reading: Time, order: seq<JobId>)
    requires Safe(w) && HistoryOk(w) && Enabled(w, LoseClaim(s, reading, order))
    ensures HistoryOk(Apply(w, LoseClaim(s, reading, order)))
  {
    HistoryClaim(w, s, reading, order);
    SameStoreSameHistory(Apply(w, Claim(s, reading, order)), Apply(w, LoseClaim(s, reading, order)));
    AnswersLastAfterLoseClaim(Apply(w, Claim(s, reading, order)), Apply(w, LoseClaim(s, reading, order)), s);
  }

  lemma AnswersLastAfterLoseClaim(w: World, w': World, s: nat)
    requires AnswersLast(w) && w'.history == w.history && |w'.scheds| == |w.scheds|
    requires forall r :: 0 <= r < |w.scheds| && r != s ==> w'.scheds[r] == w.scheds[r]
    requires s < |w'.scheds| && w'.scheds[s].exec.Idle?
    ensures AnswersLast(w')
  {
    forall r | 0 <= r < |w'.scheds| && w'.scheds[r].exec.Answered?
      ensures NotAfter(OfJob(w'.history, w'.scheds[r].exec.job.id), w'.scheds[r].exec.at)
    {
      assert w'.scheds[r] == w.scheds[r];
    }
  }

  lemma HistoryOfPersist(w: World, s: nat, id: JobId)
    requires Enabled(w, Persist(s))
    ensures var exec := w.scheds[s].exec;
            OfJob(Apply(w, Persist(s)).history, id) ==
              OfJob(w.history, id) + if id == exec.next.id then [Entry(Closing(exec.next), exec.at)] else []
  {
    var exec := w.scheds[s].exec;
    var entry := Entry(Closing(exec.next), exec.at);
    OfJobAppend(w.history, [entry], id);
    assert [entry][..0] == [] && OfJob([entry], id) == if id == exec.next.id then [entry] else [];
  }

  /** Writing the handler's answer back extends the chain. */
  lemma SettleFits(e: Job, h: seq<Entry>, job: Job, outcome: Outcome, at: Time)
    requires Fits(e, h, job) && job.state == Running && SameJob(job, e) && NotAfter(h, at)
    ensures var next := Settle(job, outcome, at); Fits(e, h + [Entry(Closing(next), at)], next)
  {
    var next := Settle(job, outcome, at);
    assert Wait(e, job.attempt) == job.NextBackoffMs();
    ChainShape(e, h, |h| - 1);
    assert Follows(e, h[|h| - 1], Entry(Closing(next), at));
    ChainExtends(e, h, Entry(Closing(next), at));
  }

  lemma FitsAfterPersist(w: World, s: nat)
    requires Safe(w) && HistoryOk(w) && Enabled(w, Persist(s))
    ensures var exec := w.scheds[s].exec;
            && exec.next.id in w.jobs && exec.next.id in w.enqueued
            && Fits(w.enqueued[exec.next.id], OfJob(Apply(w, Persist(s)).history, exec.next.id), exec.next)
  {
    var exec := w.scheds[s].exec;
    PersistFacts(w, s);
    HistoryOfPersist(w, s, exec.next.id);
    var outcome :| exec.next == Settle(exec.job, outcome, exec.at);
    SettleFits(w.enqueued[exec.job.id], OfJob(w.history, exec.job.id), exec.job, outcome, exec.at);
  }

  lemma PastAfterPersist(w: World, s: nat)
    requires Safe(w) && AllPast(w) && Enabled(w, Persist(s))
    ensures AllPast(Apply(w, Persist(s)))
  {
    var w' := Apply(w, Persist(s));
    PersistFacts(w, s);
    forall id ensures NotAfter(OfJob(w'.history, id), w'.now) && (id !in w'.jobs ==> OfJob(w'.history, id) == []) {
      HistoryOfPersist(w, s, id);
    }
  }

  lemma FitAfterPersist(w: World, s: nat)
    requires Safe(w) && HistoryOk(w) && Enabled(w, Persist(s))
    ensures AllFit(Apply(w, Persist(s)))
  {
    var w' := Apply(w, Persist(s));
    var next := w.scheds[s].exec.next;
    FitsAfterPersist(w, s);
    forall id | id in w'.jobs ensures id in w'.enqueued && Fits(w'.enqueued[id], OfJob(w'.history, id), w'.jobs[id]) {
      if id != next.id {
        HistoryOfPersist(w, s, id);
        assert OfJob(w.history, id) + [] == OfJob(w.history, id);
      }
    }
  }

  lemma HistoryPersist(w: World, s: nat)
    requires Safe(w) && HistoryOk(w) && Enabled(w, Persist(s))
    ensures HistoryOk(Apply(w, Persist(s)))
  {
    PastAfterPersist(w, s);
    FitAfterPersist(w, s);
    AnswersLastAfterPersist(w, s);
  }

  lemma AnswersLastAfterPersist(w: World, s: nat)
    requires Safe(w) && AnswersLast(w) && Enabled(w, Persist(s))
    ensures AnswersLast(Apply(w, Persist(s)))
  {
    var w' := Apply(w, Persist(s));
    PersistFacts(w, s);
    forall r | 0 <= r < |w'.scheds| && w'.scheds[r].exec.Answered?
      ensures NotAfter(OfJob(w'.history, w'.scheds[r].exec.job.id), w'.scheds[r].exec.at)
    {
      assert r != s && w'.scheds[r] == w.scheds[r];
      BusyWithOthers(w, s, r);
      HistoryOfPersist(w, s, w.scheds[r].exec.job.id);
    }
  }

  lemma BusyWithOthers(w: World, s: nat, r: nat)
    requires AllHold(w) && s < |w.scheds| && r < |w.scheds| && r != s
    requires w.scheds[s].exec.Answered? && w.scheds[r].exec.Answered?
    ensures w.scheds[r].exec.job.id != w.scheds[s].exec.job.id
  {
    ReleaseShortensFlight(w, s, Stored(w.scheds[s].exec.next));
    ReleaseShortensFlight(w, r, Stored(w.scheds[r].exec.next));
  }

  lemma HistoryEnqueue(w: World, job: Job)
    requires HistoryOk(w) && Enabled(w, Enqueue(job))
    ensures HistoryOk(Apply(w, Enqueue(job)))
  {
    assert OfJob(w.history, job.id) == [] && Fits(job, [], job);
  }

  /** Steps that neither enqueue, claim nor write back add nothing to any history. */
  lemma HistoryQuiet(w: World, step: Step)
    requires HistoryOk(w) && Enabled(w, step)
    requires !step.Enqueue? && !step.Claim? && !step.LoseClaim? && !step.Persist?
    ensures HistoryOk(Apply(w, step))
  {
    var w' := Apply(w, step);
    assert w'.history == w.history && w'.now >= w.now && w'.jobs == w.jobs && w'.enqueued == w.enqueued;
    forall s | 0 <= s < |w'.scheds| && w'.scheds[s].exec.Answered?
      ensures NotAfter(OfJob(w'.history, w'.scheds[s].exec.job.id), w'.scheds[s].exec.at)
    {
      if !(step.Handle? && step.s == s) { assert w.scheds[s] == w'.scheds[s]; }
    }
  }

  lemma HistoryStep(w: World, step: Step)
    requires Safe(w) && HistoryOk(w) && Enabled(w, step)
    ensures HistoryOk(Apply(w, step))
  {
    if step.Claim? {
      HistoryClaim(w, step.s, step.reading, step.order);
    } else if step.LoseClaim? {
      HistoryLoseClaim(w, step.s, step.reading, step.order);
    } else if step.Persist? {
      HistoryPersist(w, step.s);
    } else if step.Enqueue? {
      HistoryEnqueue(w, step.job);
    } else {
      HistoryQuiet(w, step);
    }
  }

  // ----- Handler calls -----

  /** Claimed, but its handler has not been called yet; for a lost claim it never will be. */
  ghost predicate Waiting(w: World, id: JobId) {
    id in w.lost ||
    (id in w.holder && w.holder[id] < |w.scheds| &&
     !(w.scheds[w.holder[id]].exec.Answered? && w.scheds[w.holder[id]].exec.job.id == id))
  }

  /** How many attempts of a job have reached its handler. */
  ghost function Handled(w: World, id: JobId): int
    requires id in w.jobs
  {
    w.jobs[id].attempt - if Waiting(w, id) then 1 else 0
  }

  ghost predicate Called(w: World, id: JobId, k: nat) {
    (id, k) in Tries(w.runs)
  }

  /** Every attempt up to the last handled one has been run, and run once; nothing else has. */
  ghost predicate RunsOk(w: World) {
    && NoRepeats(Tries(w.runs))
    && forall id, k: nat :: Called(w, id, k) <==> id in w.jobs && 1 <= k <= Handled(w, id)
  }

  lemma NotHeldWhileDue(w: World, reading: Time, id: JobId)
    requires Safe(w) && id in DueIds(w.jobs, reading)
    ensures id !in w.holder && id !in w.lost && !Waiting(w, id)
  {
    if id in w.holder {
      HolderIsStored(w, id);
    }
  }

  lemma HandledKeptByClaim(w: World, step: Step, id: JobId)
    requires Safe(w) && Enabled(w, step) && step.Claim? && id in w.jobs
    ensures id in Apply(w, step).jobs && Handled(Apply(w, step), id) == Handled(w, id)
  {
    var w' := Apply(w, step);
    if id in DueIds(w.jobs, step.reading) {
      NotHeldWhileDue(w, step.reading, id);
      assert w'.holder[id] == step.s && w'.scheds[step.s].exec.Idle?;
      assert Waiting(w', id);
    } else {
      assert id in w'.holder <==> id in w.holder;
      if id in w.holder {
        assert InFlight(w.scheds[step.s]) == [];
        assert Names(InFlight(w.scheds[w.holder[id]]), id);
        assert w'.scheds[w.holder[id]] == w.scheds[w.holder[id]];
      }
      assert Waiting(w', id) <==> Waiting(w, id);
    }
  }

  lemma HandledKeptByLoseClaim(w: World, step: Step, id: JobId)
    requires Safe(w) && Enabled(w, step) && step.LoseClaim? && id in w.jobs
    ensures id in Apply(w, step).jobs && Handled(Apply(w, step), id) == Handled(w, id)
  {
    var w' := Apply(w, step);
    if id in DueIds(w.jobs, step.reading) {
      NotHeldWhileDue(w, step.reading, id);
      assert Waiting(w', id);
    } else {
      assert Waiting(w', id) <==> Waiting(w, id);
    }
  }

  lemma WaitingAfterRelease(w: World, w': World, s: nat, exec: Exec, id: JobId)
    requires AllHold(w) && s < |w.scheds| && w.scheds[s].exec.Answered? && Owes(exec)
    requires w'.scheds == Release(w.scheds, s, exec) && w'.holder == w.holder - {w.scheds[s].exec.job.id} && w'.lost == w.lost
    ensures Waiting(w', id) <==> Waiting(w, id)
  {
    ReleaseShortensFlight(w, s, exec);
  }

  lemma HandledKeptByRelease(w: World, step: Step, id: JobId)
    requires Safe(w) && Enabled(w, step) && (step.Persist? || step.LosePersist?) && id in w.jobs
    ensures id in Apply(w, step).jobs && Handled(Apply(w, step), id) == Handled(w, id)
  {
    var next := w.scheds[step.s].exec.next;
    if step.Persist? {
      PersistFacts(w, step.s);
      WaitingAfterRelease(w, Apply(w, step), step.s, Stored(next), id);
    } else {
      WaitingAfterRelease(w, Apply(w, step), step.s, Unsaved(next), id);
    }
  }

  /** A step other than a handler call leaves the number of handled attempts of every job alone. */
  lemma HandledKept(w: World, step: Step, id: JobId)
    requires Safe(w) && Enabled(w, step) && !step.Handle? && id in w.jobs
    ensures id in Apply(w, step).jobs && Handled(Apply(w, step), id) == Handled(w, id)
  {
    if step.Claim? {
      HandledKeptByClaim(w, step, id);
    } else if step.LoseClaim? {
      HandledKeptByLoseClaim(w, step, id);
    } else if step.Persist? || step.LosePersist? {
      HandledKeptByRelease(w, step, id);
    } else {
      assert Waiting(Apply(w, step), id) <==> Waiting(w, id);
    }
  }

  lemma HandledByHandle(w: World, s: nat, outcome: Outcome, id: JobId)
    requires Safe(w) && Enabled(w, Handle(s, outcome)) && id in w.jobs
    ensures w.scheds[s].exec.job.id in w.jobs && w.jobs[w.scheds[s].exec.job.id] == w.scheds[s].exec.job
    ensures Handled(Apply(w, Handle(s, outcome)), id) == Handled(w, id) + if id == w.scheds[s].exec.job.id then 1 else 0
  {
    var job := w.scheds[s].exec.job;
    assert Holds(w.jobs, w.holder, w.scheds[s], s) && InFlight(w.scheds[s])[0] == job;
    assert Held(w.jobs, w.holder, job, s);
  }

  lemma RunsHandle(w: World, s: nat, outcome: Outcome)
    requires Safe(w) && RunsOk(w) && Enabled(w, Handle(s, outcome))
    ensures RunsOk(Apply(w, Handle(s, outcome)))
  {
    var w' := Apply(w, Handle(s, outcome));
    var job := w.scheds[s].exec.job;
    assert Holds(w.jobs, w.holder, w.scheds[s], s) && InFlight(w.scheds[s])[0] == job;
    assert Held(w.jobs, w.holder, job, s) && Waiting(w, job.id);
    assert !Called(w, job.id, job.attempt);
    assert Tries(w'.runs) == Tries(w.runs) + [(job.id, job.attempt)];
    forall id, k: nat ensures Called(w', id, k) <==> id in w'.jobs && 1 <= k <= Handled(w', id) {
      assert Called(w', id, k) <==> Called(w, id, k) || (id == job.id && k == job.attempt);
      if id in w.jobs { HandledByHandle(w, s, outcome, id); }
    }
  }

  lemma RunsOther(w: World, step: Step)
    requires Safe(w) && RunsOk(w) && Enabled(w, step) && !step.Handle?
    ensures RunsOk(Apply(w, step))
  {
    var w' := Apply(w, step);
    assert w'.runs == w.runs;
    forall id, k: nat ensures Called(w', id, k) <==> id in w'.jobs && 1 <= k <= Handled(w', id) {
      assert Called(w', id, k) <==> Called(w, id, k);
      if id in w.jobs {
        HandledKept(w, step, id);
      } else if id in w'.jobs {
        NewJobsAreUnhandled(w, step, id);
      }
    }
  }

  lemma NewJobsAreUnhandled(w: World, step: Step, id: JobId)
    requires Safe(w) && Enabled(w, step) && id !in w.jobs && id in Apply(w, step).jobs
    ensures Handled(Apply(w, step), id) == 0
  {
    if step.Persist? { PersistFacts(w, step.s); }
    assert step == Enqueue(Apply(w, step).jobs[id]);
    if id in w.holder { HolderIsStored(w, id); }
  }

  lemma RunsStep(w: World, step: Step)
    requires Safe(w) && RunsOk(w) && Enabled(w, step)
    ensures RunsOk(Apply(w, step))
  {
    if step.Handle? {
      RunsHandle(w, step.s, step.outcome);
    } else {
      RunsOther(w, step);
    }
  }

  // ----- How many handler calls there can be -----

  ghost function Pick(ids: set<JobId>): JobId
    requires ids != {}
    ensures Pick(ids) in ids
  {
    var id :| id in ids; id
  }

  /** The attempts permitted to all the jobs together. */
  ghost function TotalCap(enqueued: map<JobId, Job>, ids: set<JobId>): nat
    requires ids <= enqueued.Keys
    decreases |ids|
  {
    if ids == {} then 0
    else enqueued[Pick(ids)].AttemptCap() + TotalCap(enqueued, ids - {Pick(ids)})
  }

  lemma {:induction false} CountUpTo(id: JobId, cap: nat, pairs: set<(JobId, nat)>)
    requires forall p :: p in pairs ==> p.0 == id && 1 <= p.1 <= cap
    ensures |pairs| <= cap
    decreases cap
  {
    if cap == 0 {
      assert pairs == {};
    } else {
      CountUpTo(id, cap - 1, pairs - {(id, cap)});
      assert |pairs| <= |pairs - {(id, cap)}| + 1;
    }
  }

  lemma {:induction false} CountWithin(enqueued: map<JobId, Job>, ids: set<JobId>, pairs: set<(JobId, nat)>)
    requires ids <= enqueued.Keys
    requires forall p :: p in pairs ==> p.0 in ids && 1 <= p.1 <= enqueued[p.0].AttemptCap()
    ensures |pairs| <= TotalCap(enqueued, ids)
    decreases |ids|
  {
    if ids == {} {
      assert pairs == {};
    } else {
      var id := Pick(ids);
      var mine := set p | p in pairs && p.0 == id;
      CountUpTo(id, enqueued[id].AttemptCap(), mine);
      CountWithin(enqueued, ids - {id}, pairs - mine);
      assert pairs == mine + (pairs - mine);
    }
  }

  ghost function Elements<T>(s: seq<T>): set<T> {
    set x | x in s
  }

  lemma {:induction false} NoRepeatsCount<T>(s: seq<T>)
    requires NoRepeats(s)
    ensures |Elements(s)| == |s|
    decreases |s|
  {
    if s != [] {
      var init, last := s[..|s| - 1], s[|s| - 1];
      NoRepeatsCount(init);
      assert s == init + [last];
      assert Elements(s) == Elements(init) + {last};
      assert last !in init;
    }
  }

  /** The handler calls of a whole run, all jobs together, never exceed the attempts permitted to them. */
  lemma RunsAreBounded(w: World)
    requires Safe(w) && RunsOk(w)
    ensures |w.runs| <= TotalCap(w.enqueued, w.enqueued.Keys)
  {
    var pairs := Elements(Tries(w.runs));
    NoRepeatsCount(Tries(w.runs));
    forall p | p in pairs ensures p.0 in w.enqueued.Keys && 1 <= p.1 <= w.enqueued[p.0].AttemptCap() {
      assert Called(w, p.0, p.1);
    }
    CountWithin(w.enqueued, w.enqueued.Keys, pairs);
  }

  // ----- Every run -----

  lemma {:induction false} HistoryRun(w: World, steps: seq<Step>)
    requires Safe(w) && HistoryOk(w) && RunsOk(w) && CanRun(w, steps)
    ensures Safe(Run(w, steps)) && HistoryOk(Run(w, steps)) && RunsOk(Run(w, steps))
    decreases |steps|
  {
    if steps != [] {
      SafeStep(w, steps[0]);
      HistoryStep(w, steps[0]);
      RunsStep(w, steps[0]);
      HistoryRun(Apply(w, steps[0]), steps[1..]);
    }
  }

  /** In every run of any number of schedulers, with or without failed claims and write-backs: each job's history is a
      chain that ends in the job's state, no attempt of a job reaches its handler twice, every attempt of a job that is
      not in flight has reached it but for the one a lost claim took, and the number of handler calls is bounded. */
  lemma EveryRunKeepsHistory(schedulers: nat, now: Time, steps: seq<Step>)
    requires CanRun(Start(schedulers, now), steps)
    ensures var w := Run(Start(schedulers, now), steps);
            && w.enqueued.Keys == w.jobs.Keys
            && (forall id :: id in w.jobs ==> Fits(w.enqueued[id], OfJob(w.history, id), w.jobs[id]))
            && NoRepeats(Tries(w.runs))
            && (forall id, k: nat :: id in w.jobs && id !in w.holder ==>
                  (Called(w, id, k) <==> 1 <= k <= w.jobs[id].attempt - if id in w.lost then 1 else 0))
            && |w.runs| <= TotalCap(w.enqueued, w.enqueued.Keys)
  {
    var w0 := Start(schedulers, now);
    StartIsSafe(schedulers, now);
    assert RunsOk(w0);
    HistoryRun(w0, steps);
    RunsAreBounded(Run(w0, steps));
  }
}
