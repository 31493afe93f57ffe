/** The in-process job store (crates/queue/src/store.rs). */
module MemoryStores {
  import opened Jobs
  import opened Times

  // ----- What the store promises, on values -----

  predicate IsDue(j: Job, now: Time) {
    j.state == Scheduled && j.dueAt <= now
  }

  function DueIds(jobs: map<JobId, Job>, now: Time): set<JobId> {
    set id | id in jobs && IsDue(jobs[id], now)
  }

  /** A claimed job: running, with the attempt it is about to make already counted. */
  function MarkRunning(j: Job): Job {
    j.(state := Running, attempt := j.attempt + 1)
  }

  /** The store after one atomic claim. */
  function AfterClaim(jobs: map<JobId, Job>, now: Time): map<JobId, Job> {
    map id | id in jobs :: if IsDue(jobs[id], now) then MarkRunning(jobs[id]) else jobs[id]
  }

  predicate NoRepeats<T(==)>(s: seq<T>) {
    forall i, j :: 0 <= i < j < |s| ==> s[i] != s[j]
  }

  /** `order` names every due job exactly once; the store leaves the order open. */
  ghost predicate ListsDue(order: seq<JobId>, jobs: map<JobId, Job>, now: Time) {
    NoRepeats(order) && forall id :: id in order <==> id in DueIds(jobs, now)
  }

  ghost function Marked(jobs: map<JobId, Job>, ids: seq<JobId>): map<JobId, Job> {
    map id | id in jobs :: if id in ids then MarkRunning(jobs[id]) else jobs[id]
  }

  /** The jobs handed out by a claim, in the given order. */
  function HandedOut(order: seq<JobId>, jobs: map<JobId, Job>): seq<Job>
    requires forall id :: id in order ==> id in jobs
  {
    seq(|order|, i requires 0 <= i < |order| => assert order[i] in order; MarkRunning(jobs[order[i]]))
  }

  predicate Keyed(jobs: map<JobId, Job>) {
    forall id :: id in jobs ==> jobs[id].id == id
  }

  /** Claims are exclusive: whatever a claim took, no later claim at any time can take before it is put back. */
  lemma ClaimedOnce(jobs: map<JobId, Job>, now: Time, later: Time)
    ensures DueIds(AfterClaim(jobs, now), later) == DueIds(jobs, later) - DueIds(jobs, now)
    ensures DueIds(AfterClaim(jobs, now), now) == {}
  {
  }

  /** The jobs that may still change. */
  function Open(jobs: map<JobId, Job>): set<JobId> {
    set id | id in jobs && jobs[id].state != Succeeded && jobs[id].state != Dead
  }

  /** Claiming neither adds nor retires a job. */
  lemma ClaimKeepsDepth(jobs: map<JobId, Job>, now: Time)
    ensures Open(AfterClaim(jobs, now)) == Open(jobs)
    ensures AfterClaim(jobs, now).Keys == jobs.Keys
  {
  }

  // ----- The store itself -----

  class MemoryStore {
    var jobs: map<JobId, Job>

    constructor ()
      ensures jobs == map[]
    {
      jobs := map[];
    }

    method Put(job: Job)
      modifies this
      ensures jobs == old(jobs)[job.id := job]
    {
      jobs := jobs[job.id := job];
    }

    method ClaimDue(now: Time) returns (claimed: seq<Job>, ghost order: seq<JobId>)
      requires Keyed(jobs)
      modifies this
      ensures jobs == AfterClaim(old(jobs), now)
      ensures ListsDue(order, old(jobs), now) && claimed == HandedOut(order, old(jobs))
      ensures Keyed(jobs)
    {
      var due := CollectDue(now);
      claimed := MarkAll(due);
      order := due;
      assert jobs == AfterClaim(old(jobs), now);
    }

    method CollectDue(now: Time) returns (due: seq<JobId>)
      requires Keyed(jobs)
      ensures ListsDue(due, jobs, now)
    {
      due := [];
      var unseen := jobs.Keys;
      while unseen != {}
        invariant unseen <= jobs.Keys
        invariant NoRepeats(due)
        invariant forall id :: id in due <==> id in DueIds(jobs, now) - unseen
        decreases |unseen|
      {
        var id :| id in unseen;
        if IsDue(jobs[id], now) {
          assert id !in due;
          due := due + [jobs[id].id];
        }
        unseen := unseen - {id};
      }
    }

    method MarkAll(due: seq<JobId>) returns (claimed: seq<Job>)
      requires NoRepeats(due)
      requires forall id :: id in due ==> id in jobs
      modifies this
      ensures jobs == Marked(old(jobs), due)
      ensures claimed == HandedOut(due, old(jobs))
    {
      claimed := [];
      for i := 0 to |due|
        invariant jobs == Marked(old(jobs), due[..i])
        invariant claimed == HandedOut(due, old(jobs))[..i]
      {
        var id := due[i];
        assert id !in due[..i] by {
          assert forall k :: 0 <= k < i ==> due[..i][k] == due[k];
        }
        assert due[..i + 1] == due[..i] + [id];
        jobs := jobs[id := MarkRunning(jobs[id])];
        claimed := claimed + [jobs[id]];
      }
      assert due[..|due|] == due;
    }

    method Depth() returns (count: nat)
      ensures count == |Open(jobs)|
    {
      count := 0;
      var unseen := jobs.Keys;
      while unseen != {}
        invariant unseen <= jobs.Keys
        invariant count == |Open(jobs) - unseen|
        decreases |unseen|
      {
        var id :| id in unseen;
        OneFewerUnseen(Open(jobs), unseen, id);
        if !jobs[id].state.IsTerminal() {
          count := count + 1;
        }
        unseen := unseen - {id};
      }
      assert Open(jobs) - unseen == Open(jobs);
    }
  }

  lemma OneFewerUnseen(open: set<JobId>, unseen: set<JobId>, id: JobId)
    requires id in unseen
    ensures |open - (unseen - {id})| == |open - unseen| + if id in open then 1 else 0
  {
    assert open - (unseen - {id}) == (open - unseen) + if id in open then {id} else {};
  }
}
