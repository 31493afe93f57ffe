/** What a job is (crates/queue/src/job.rs, crates/core/src/event.rs). */
module Jobs {
  import opened Json
  import opened Options
  import opened Times

  type JobId = nat

  datatype JobState = Scheduled | Running | Succeeded | Failed | Dead {
    predicate IsTerminal() {
      Succeeded? || Dead?
    }
  }

  datatype Job = Job(
    id: JobId,
    kind: string,
    payload: Json,
    state: JobState,
    attempt: nat,
    maxAttempts: nat,
    dueAt: Time,
    backoffMs: seq<nat>,
    lastError: Option<string>
  ) {
    /** The attempts made so far leave room for one more. */
    predicate CanRetry() {
      attempt < maxAttempts
    }

    /** How long to wait after the attempt just made: its entry in the list, or the last entry once the list is used up. */
    function NextBackoffMs(): nat {
      if backoffMs == [] then 0
      else
        var index := if attempt == 0 then 0 else attempt - 1;
        if index < |backoffMs| then backoffMs[index] else backoffMs[|backoffMs| - 1]
    }

    /** How many attempts are ever made: one even when `maxAttempts` is zero. */
    function AttemptCap(): nat {
      if maxAttempts == 0 then 1 else maxAttempts
    }
  }

  function NewJob(id: JobId, kind: string, dueAt: Time): Job {
    Job(id, kind, Null, Scheduled, 0, 3, dueAt, [1_000, 5_000, 30_000], None)
  }

  /** The wait after attempt `k`: entry `k` of the list, then the last entry for ever, and nothing for an empty
      list. */
  lemma BackoffWalksThenHolds(j: Job, k: nat)
    requires j.attempt == k
    ensures k == 0 && j.backoffMs != [] ==> j.NextBackoffMs() == j.backoffMs[0]
    ensures j.backoffMs == [] ==> j.NextBackoffMs() == 0
    ensures 1 <= k <= |j.backoffMs| ==> j.NextBackoffMs() == j.backoffMs[k - 1]
    ensures 0 < |j.backoffMs| < k ==> j.NextBackoffMs() == j.backoffMs[|j.backoffMs| - 1]
  {
  }
}
