/** The Redis-backed job store (crates/queue/src/redis_store.rs): a hash of serialised jobs and a due set scored by
    floored milliseconds. The main results relate it to the in-process store. */
module RedisStores {
  import opened Json
  import opened Jobs
  import opened MemoryStores
  import opened Options
  import opened Times

  datatype Result<+T> = Ok(value: T) | Corrupt

  // ----- Serialised jobs -----

  /** A job as it sits in the hash. Only the fields whose JSON form matters are kept as JSON. */
  datatype Record = Record(
    id: JobId,
    kind: string,
    payload: Json,
    state: string,
    attempt: nat,
    maxAttempts: nat,
    dueAt: Time,
    backoffMs: Json,
    lastError: Option<string>
  )

  function StateName(s: JobState): string {
    match s
    case Scheduled => "scheduled"
    case Running => "running"
    case Succeeded => "succeeded"
    case Failed => "failed"
    case Dead => "dead"
  }

  function StateOf(name: string): Option<JobState> {
    if name == "scheduled" then Some(Scheduled)
    else if name == "running" then Some(Running)
    else if name == "succeeded" then Some(Succeeded)
    else if name == "failed" then Some(Failed)
    else if name == "dead" then Some(Dead)
    else None
  }

  function Ints(ns: seq<nat>): seq<Json> {
    seq(|ns|, i requires 0 <= i < |ns| => Int(ns[i]))
  }

  function Encode(j: Job): Record {
    Record(j.id, j.kind, j.payload, StateName(j.state), j.attempt, j.maxAttempts, j.dueAt, Arr(Ints(j.backoffMs)), j.lastError)
  }

  /** A list of unsigned integers, or nothing when the JSON has another shape. */
  function DecodeInts(j: Json): Option<seq<nat>> {
    if j.Arr? && forall i :: 0 <= i < |j.items| ==> j.items[i].Int? && j.items[i].n >= 0
    then Some(seq(|j.items|, i requires 0 <= i < |j.items| => j.items[i].n))
    else None
  }

  function Decode(r: Record): Result<Job> {
    match (StateOf(r.state), DecodeInts(r.backoffMs))
    case (Some(state), Some(backoff)) =>
      Ok(Job(r.id, r.kind, r.payload, state, r.attempt, r.maxAttempts, r.dueAt, backoff, r.lastError))
    case _ => Corrupt
  }

  lemma DecodeEncode(j: Job)
    ensures Decode(Encode(j)) == Ok(j)
  {
    assert DecodeInts(Arr(Ints(j.backoffMs))).value == j.backoffMs;
  }

  /** All of them, or nothing as soon as one cannot be read. */
  function DecodeAll(rs: seq<Record>): Result<seq<Job>> {
    if rs == [] then Ok([])
    else
      var front, last := DecodeAll(rs[..|rs| - 1]), Decode(rs[|rs| - 1]);
      if front.Corrupt? || last.Corrupt? then Corrupt else Ok(front.value + [last.value])
  }

  // ----- Scores -----

  /** What a time is in the sorted set: whole milliseconds, the rest cut off. */
  function Score(at: Time): int {
    at / NANOS_PER_MS
  }

  /** A score is the millisecond a time lies in, so two times have one score exactly when they lie in the same one. */
  lemma ScoreIsTheMillisecond(at: Time, ms: int)
    ensures Score(at) == ms <==> ms * 1_000_000 <= at < (ms + 1) * 1_000_000
  {
  }

  /** Comparing scores instead of times can only err one way, and exactly when the job falls due later within the
      millisecond of the claim. */
  lemma ScoreOverApproximates(due: Time, now: Time)
    ensures due <= now ==> Score(due) <= Score(now)
    ensures (Score(due) <= Score(now) && now < due) <==> (now < due && Score(due) == Score(now))
    ensures WholeMillisApart(due, now) ==> (due <= now <==> Score(due) <= Score(now))
  {
  }

  // ----- The claim script on one job -----

  /** The script decodes the record, marks it and encodes it again. */
  function ScriptMark(r: Record): Record {
    r.(payload := Recode(r.payload), backoffMs := Recode(r.backoffMs), state := "running", attempt := r.attempt + 1)
  }

  /** The backoff list still reads as a list of integers after the script. */
  predicate BackoffSurvives(j: Job) {
    j.backoffMs != [] && forall i :: 0 <= i < |j.backoffMs| ==> PlainInt(j.backoffMs[i])
  }

  /** The whole job comes back as it was, apart from the mark. */
  predicate Survives(j: Job) {
    BackoffSurvives(j) && Plain(j.payload)
  }

  lemma {:induction false} RecodeInts(ns: seq<nat>)
    ensures |RecodeItems(Ints(ns))| == |ns|
    ensures forall i :: 0 <= i < |ns| ==> RecodeItems(Ints(ns))[i] == if PlainInt(ns[i]) then Int(ns[i]) else Rounded
  {
    if ns != [] {
      assert Ints(ns)[1..] == Ints(ns[1..]);
      RecodeInts(ns[1..]);
    }
  }

  /** The backoff list after the script: unchanged when it survives, and otherwise no list of integers any more. */
  lemma ScriptBackoff(ns: seq<nat>, j: Job)
    requires j.backoffMs == ns
    ensures Recode(Arr(Ints(ns))) == Arr(Ints(ns)) <==> BackoffSurvives(j)
    ensures DecodeInts(Recode(Arr(Ints(ns)))) == if BackoffSurvives(j) then Some(ns) else None
  {
    RecodeInts(ns);
    if ns == [] {
      assert Recode(Arr(Ints(ns))) == Obj([]);
    } else {
      var list := RecodeItems(Ints(ns));
      assert Recode(Arr(Ints(ns))) == Arr(list);
      if BackoffSurvives(j) {
        assert list == Ints(ns);
        assert DecodeInts(Arr(list)).value == ns;
      } else {
        var i :| 0 <= i < |ns| && !PlainInt(ns[i]);
        assert list[i] == Rounded && Ints(ns)[i] == Int(ns[i]);
      }
    }
  }

  /** The job with its payload as the script leaves it. */
  function Recoded(j: Job): Job {
    j.(payload := Recode(j.payload))
  }

  function AllRecoded(jobs: seq<Job>): seq<Job> {
    seq(|jobs|, i requires 0 <= i < |jobs| => Recoded(jobs[i]))
  }

  /** What a claimer reads back: the marked job exactly when the job survives; an unreadable record exactly when the
      backoff list does not; a readable job with a changed payload otherwise. */
  lemma ScriptOutcome(j: Job)
    ensures Decode(ScriptMark(Encode(j))) == Corrupt <==> !BackoffSurvives(j)
    ensures Decode(ScriptMark(Encode(j))) == Ok(MarkRunning(j)) <==> Survives(j)
    ensures ScriptMark(Encode(j)) == Encode(MarkRunning(j)) <==> Survives(j)
    ensures BackoffSurvives(j) ==> Decode(ScriptMark(Encode(j))) == Ok(Recoded(MarkRunning(j)))
    ensures BackoffSurvives(j) ==> ScriptMark(Encode(j)) == Encode(Recoded(MarkRunning(j)))
  {
    ScriptBackoff(j.backoffMs, j);
    RecodeIsIdentityOnPlain(j.payload);
    var r := ScriptMark(Encode(j));
    assert r.backoffMs == Recode(Arr(Ints(j.backoffMs))) && StateOf(r.state) == Some(Running);
  }

  // ----- Refinement of the in-process store -----

  function DueSet(jobs: map<JobId, Job>): map<JobId, int> {
    map id | id in jobs && jobs[id].state == Scheduled :: Score(jobs[id].dueAt)
  }

  /** The two keys hold exactly the jobs: each serialised, and exactly the scheduled ones in the due set. */
  predicate Mirrors(hash: map<JobId, Record>, due: map<JobId, int>, jobs: map<JobId, Job>) {
    && hash.Keys == jobs.Keys
    && (forall id :: id in jobs ==> hash[id] == Encode(jobs[id]))
    && due == DueSet(jobs)
  }

  function AfterPutDue(due: map<JobId, int>, job: Job): map<JobId, int> {
    if job.state == Scheduled then due[job.id := Score(job.dueAt)] else due - {job.id}
  }

  function InRange(due: map<JobId, int>, bound: int): set<JobId> {
    set id | id in due && due[id] <= bound
  }

  /** Members in ascending score. */
  predicate LowestFirst(ids: seq<JobId>, due: map<JobId, int>) {
    (forall i :: 0 <= i < |ids| ==> ids[i] in due) && forall i, j :: 0 <= i < j < |ids| ==> due[ids[i]] <= due[ids[j]]
  }

  function AfterScript(hash: map<JobId, Record>, claimed: set<JobId>): map<JobId, Record> {
    map id | id in hash :: if id in claimed then ScriptMark(hash[id]) else hash[id]
  }

  lemma PutMirrors(hash: map<JobId, Record>, due: map<JobId, int>, jobs: map<JobId, Job>, job: Job)
    requires Mirrors(hash, due, jobs)
    ensures Mirrors(hash[job.id := Encode(job)], AfterPutDue(due, job), jobs[job.id := job])
  {
    var hash', jobs' := hash[job.id := Encode(job)], jobs[job.id := job];
    assert AfterPutDue(due, job) == DueSet(jobs');
  }

  /** Which jobs the two stores would claim: the same ones exactly when no scheduled job falls due later within the
      millisecond of the claim. */
  lemma SameClaim(jobs: map<JobId, Job>, now: Time)
    ensures DueIds(jobs, now) <= InRange(DueSet(jobs), Score(now))
    ensures InRange(DueSet(jobs), Score(now)) == DueIds(jobs, now)
       <==> forall id :: id in jobs && jobs[id].state == Scheduled && Score(jobs[id].dueAt) == Score(now) ==> jobs[id].dueAt <= now
  {
    forall id | id in jobs ensures jobs[id].dueAt <= now ==> Score(jobs[id].dueAt) <= Score(now) {
      ScoreOverApproximates(jobs[id].dueAt, now);
    }
    forall id | id in jobs && jobs[id].state == Scheduled
      ensures id in InRange(DueSet(jobs), Score(now)) <==> Score(jobs[id].dueAt) <= Score(now)
      ensures id in DueIds(jobs, now) <==> jobs[id].dueAt <= now
    {
    }
  }

  /** One claim: the stores still mirror each other afterwards exactly when they claim the same jobs and every claimed job
      survives the script. */
  lemma ClaimMirrors(hash: map<JobId, Record>, due: map<JobId, int>, jobs: map<JobId, Job>, now: Time)
    requires Mirrors(hash, due, jobs)
    ensures
      var taken := InRange(due, Score(now));
      Mirrors(AfterScript(hash, taken), due - taken, AfterClaim(jobs, now)) <==>
      taken == DueIds(jobs, now) && forall id :: id in taken ==> Survives(jobs[id])
  {
    var taken := InRange(due, Score(now));
    DueSetAfterClaim(jobs, now);
    SameClaim(jobs, now);
    forall id | id in jobs
      ensures MirrorsOne(hash, taken, jobs, now, id) <==> (id in taken ==> IsDue(jobs[id], now) && Survives(jobs[id]))
    {
      MarkMirrors(hash, taken, jobs, now, id);
    }
    if Mirrors(AfterScript(hash, taken), due - taken, AfterClaim(jobs, now)) {
      forall id | id in taken ensures IsDue(jobs[id], now) && Survives(jobs[id]) {
        assert MirrorsOne(hash, taken, jobs, now, id);
      }
    }
  }

  /** One job of the claim, with the hash as it then is beside the in-process store. */
  predicate MirrorsOne(hash: map<JobId, Record>, taken: set<JobId>, jobs: map<JobId, Job>, now: Time, id: JobId)
    requires id in hash && id in jobs
  {
    AfterScript(hash, taken)[id] == Encode(AfterClaim(jobs, now)[id])
  }

  lemma MarkMirrors(hash: map<JobId, Record>, taken: set<JobId>, jobs: map<JobId, Job>, now: Time, id: JobId)
    requires id in jobs && id in hash && hash[id] == Encode(jobs[id])
    requires IsDue(jobs[id], now) ==> id in taken
    requires id in taken ==> jobs[id].state == Scheduled
    ensures MirrorsOne(hash, taken, jobs, now, id) <==> (id in taken ==> IsDue(jobs[id], now) && Survives(jobs[id]))
  {
    ScriptOutcome(jobs[id]);
    assert "running" != "scheduled";
  }

  lemma DueSetAfterClaim(jobs: map<JobId, Job>, now: Time)
    ensures DueSet(AfterClaim(jobs, now)) == DueSet(jobs) - DueIds(jobs, now)
  {
  }

  /** What the script returns: the marked records of the members that have one. */
  function Marks(order: seq<JobId>, hash: map<JobId, Record>): seq<Record> {
    if order == [] then []
    else
      var last := order[|order| - 1];
      Marks(order[..|order| - 1], hash) + if last in hash then [ScriptMark(hash[last])] else []
  }

  lemma DecodeAllLast(rs: seq<Record>, r: Record)
    ensures DecodeAll(rs + [r]) ==
      if DecodeAll(rs).Corrupt? || Decode(r).Corrupt? then Corrupt else Ok(DecodeAll(rs).value + [Decode(r).value])
  {
    assert (rs + [r])[..|rs|] == rs;
  }

  /** This member has a record, and the record cannot be read once marked. */
  predicate Unreadable(hash: map<JobId, Record>, id: JobId) {
    id in hash && Decode(ScriptMark(hash[id])) == Corrupt
  }

  /** The caller gets an error exactly when some record of the batch is unreadable, whatever else the hash holds. */
  lemma {:induction false} ErrorIffUnreadable(order: seq<JobId>, hash: map<JobId, Record>)
    ensures DecodeAll(Marks(order, hash)) == Corrupt <==> exists id :: id in order && Unreadable(hash, id)
    decreases |order|
  {
    if order != [] {
      var front, last := order[..|order| - 1], order[|order| - 1];
      ErrorIffUnreadable(front, hash);
      assert forall id :: id in order <==> id in front || id == last by {
        assert order == front + [last];
      }
      assert last in order;
      if last in hash {
        DecodeAllLast(Marks(front, hash), ScriptMark(hash[last]));
        assert Marks(order, hash) == Marks(front, hash) + [ScriptMark(hash[last])];
      } else {
        assert Marks(order, hash) == Marks(front, hash);
      }
    }
  }

  ghost predicate StoredAs(hash: map<JobId, Record>, jobs: map<JobId, Job>, order: seq<JobId>) {
    forall id :: id in order ==> id in jobs && id in hash && hash[id] == Encode(jobs[id])
  }

  /** What the caller of the script is handed: an error for the whole batch exactly when some backoff list does not
      survive, and otherwise the memory store's jobs with their payloads as the script leaves them, which is as they were
      when every job survives. */
  lemma ClaimAnswer(order: seq<JobId>, hash: map<JobId, Record>, jobs: map<JobId, Job>)
    requires StoredAs(hash, jobs, order)
    ensures DecodeAll(Marks(order, hash)) == Corrupt <==> exists id :: id in order && !BackoffSurvives(jobs[id])
    ensures (forall id :: id in order ==> BackoffSurvives(jobs[id])) ==>
      DecodeAll(Marks(order, hash)) == Ok(AllRecoded(HandedOut(order, jobs)))
    ensures (forall id :: id in order ==> Survives(jobs[id])) ==> DecodeAll(Marks(order, hash)) == Ok(HandedOut(order, jobs))
  {
    forall id | id in order ensures Unreadable(hash, id) <==> !BackoffSurvives(jobs[id]) {
      ScriptOutcome(jobs[id]);
    }
    ErrorIffUnreadable(order, hash);
    if forall id :: id in order ==> BackoffSurvives(jobs[id]) {
      ReadableHandedOut(order, hash, jobs);
    }
    if forall id :: id in order ==> Survives(jobs[id]) {
      SurvivorsUnchanged(order, jobs);
    }
  }

  lemma SurvivorsUnchanged(order: seq<JobId>, jobs: map<JobId, Job>)
    requires forall id :: id in order ==> id in jobs && Survives(jobs[id])
    ensures AllRecoded(HandedOut(order, jobs)) == HandedOut(order, jobs)
  {
    forall i | 0 <= i < |order| ensures Recoded(HandedOut(order, jobs)[i]) == HandedOut(order, jobs)[i] {
      assert order[i] in order;
      RecodeIsIdentityOnPlain(jobs[order[i]].payload);
    }
  }

  lemma {:induction false} ReadableHandedOut(order: seq<JobId>, hash: map<JobId, Record>, jobs: map<JobId, Job>)
    requires StoredAs(hash, jobs, order) && forall id :: id in order ==> BackoffSurvives(jobs[id])
    ensures DecodeAll(Marks(order, hash)) == Ok(AllRecoded(HandedOut(order, jobs)))
    decreases |order|
  {
    if order == [] {
      assert AllRecoded(HandedOut(order, jobs)) == [];
    } else {
      var front, last := order[..|order| - 1], order[|order| - 1];
      assert order == front + [last];
      ReadableHandedOut(front, hash, jobs);
      ScriptOutcome(jobs[last]);
      DecodeAllLast(Marks(front, hash), ScriptMark(hash[last]));
      assert AllRecoded(HandedOut(order, jobs)) == AllRecoded(HandedOut(front, jobs)) + [Recoded(MarkRunning(jobs[last]))];
    }
  }

  /** So the two stores are not interchangeable: a job with an empty backoff list is handed out by one and lost by the
      other. */
  lemma EmptyBackoffTellsTheStoresApart(job: Job, now: Time)
    requires job.backoffMs == [] && IsDue(job, now)
    ensures HandedOut([job.id], map[job.id := job]) == [MarkRunning(job)]
    ensures DecodeAll(Marks([job.id], map[job.id := Encode(job)])) == Corrupt
  {
    var order, hash := [job.id], map[job.id := Encode(job)];
    ScriptOutcome(job);
    ErrorIffUnreadable(order, hash);
    assert job.id in order && Unreadable(hash, job.id);
  }

  // ----- Whole runs -----

  datatype Op = Put(job: Job) | Claim(now: Time)

  /** The in-process store after a run of operations. */
  function MemoryRun(ops: seq<Op>): map<JobId, Job> {
    if ops == [] then map[]
    else
      var jobs := MemoryRun(ops[..|ops| - 1]);
      match ops[|ops| - 1]
      case Put(job) => jobs[job.id := job]
      case Claim(now) => AfterClaim(jobs, now)
  }

  /** The two Redis keys. */
  datatype Keys = Keys(hash: map<JobId, Record>, due: map<JobId, int>)

  function ApplyOp(keys: Keys, op: Op): Keys {
    match op
    case Put(job) => Keys(keys.hash[job.id := Encode(job)], AfterPutDue(keys.due, job))
    case Claim(now) =>
      var taken := InRange(keys.due, Score(now));
      Keys(AfterScript(keys.hash, taken), keys.due - taken)
  }

  function RedisRun(keys: Keys, ops: seq<Op>): Keys {
    if ops == [] then keys else ApplyOp(RedisRun(keys, ops[..|ops| - 1]), ops[|ops| - 1])
  }

  const NO_KEYS := Keys(map[], map[])

  predicate NeverPut(ops: seq<Op>, id: JobId) {
    forall i :: 0 <= i < |ops| ==> ops[i].Put? ==> ops[i].job.id != id
  }

  /** What is out of the due set stays out, and its record stays as it is, until that job is put again. */
  lemma {:induction false} OutUntilPut(keys: Keys, ops: seq<Op>, id: JobId)
    requires id in keys.hash && id !in keys.due && NeverPut(ops, id)
    ensures
      var after := RedisRun(keys, ops);
      id in after.hash && after.hash[id] == keys.hash[id] && id !in after.due
    decreases |ops|
  {
    if ops != [] {
      assert NeverPut(ops[..|ops| - 1], id);
      OutUntilPut(keys, ops[..|ops| - 1], id);
    }
  }

  /** One job with an unreadable backoff list costs the whole batch: the caller gets an error, yet every claimed job is
      marked running and out of the due set; and however long the store is then used, no claim hands it out unless
      somebody puts it again, which only whoever claimed it would do. */
  lemma OneBadJobStrandsTheBatch(keys: Keys, jobs: map<JobId, Job>, now: Time, order: seq<JobId>, bad: JobId,
                                 later: seq<Op>, id: JobId)
    requires Mirrors(keys.hash, keys.due, jobs)
    requires forall x :: x in order <==> x in InRange(keys.due, Score(now))
    requires bad in order && !BackoffSurvives(jobs[bad])
    requires id in order && NeverPut(later, id)
    ensures DecodeAll(Marks(order, keys.hash)) == Corrupt
    ensures
      var after := RedisRun(ApplyOp(keys, Claim(now)), later);
      id in after.hash && after.hash[id].state == "running" && forall bound :: id !in InRange(after.due, bound)
  {
    ClaimAnswer(order, keys.hash, jobs);
    OutUntilPut(ApplyOp(keys, Claim(now)), later, id);
  }

  /** Operations whose times share one sub-millisecond part and whose jobs the script re-encodes faithfully. */
  predicate Faithful(ops: seq<Op>, part: int) {
    forall i :: 0 <= i < |ops| ==>
      match ops[i]
      case Put(job) => Survives(job) && job.dueAt % NANOS_PER_MS == part
      case Claim(now) => now % NANOS_PER_MS == part
  }

  /** After every faithful run the two stores hold the same jobs and would claim the same ones at any such time. */
  lemma {:induction false} RunMirrors(ops: seq<Op>, part: int, now: Time)
    requires Faithful(ops, part) && now % NANOS_PER_MS == part
    ensures Mirrors(RedisRun(NO_KEYS, ops).hash, RedisRun(NO_KEYS, ops).due, MemoryRun(ops))
    ensures InRange(RedisRun(NO_KEYS, ops).due, Score(now)) == DueIds(MemoryRun(ops), now)
    ensures forall id :: id in MemoryRun(ops) ==> Survives(MemoryRun(ops)[id]) && MemoryRun(ops)[id].dueAt % NANOS_PER_MS == part
    decreases |ops|
  {
    if ops != [] {
      var before := ops[..|ops| - 1];
      var keys, jobs := RedisRun(NO_KEYS, before), MemoryRun(before);
      match ops[|ops| - 1] {
        case Put(job) =>
          RunMirrors(before, part, now);
          PutMirrors(keys.hash, keys.due, jobs, job);
        case Claim(at) =>
          RunMirrors(before, part, at);
          ClaimMirrors(keys.hash, keys.due, jobs, at);
      }
    }
    SameClaim(MemoryRun(ops), now);
  }

  // ----- The store itself -----

  class RedisStore {
    var hash: map<JobId, Record>
    var due: map<JobId, int>

    constructor ()
      ensures hash == map[] && due == map[]
    {
      hash, due := map[], map[];
    }

    /** Both commands travel in one atomic pipeline. */
    method Put(job: Job)
      modifies this
      ensures hash == old(hash)[job.id := Encode(job)] && due == AfterPutDue(old(due), job)
    {
      hash := hash[job.id := Encode(job)];
      if job.state == Scheduled {
        due := due[job.id := Score(job.dueAt)];
      } else {
        due := due - {job.id};
      }
    }

    /** ZRANGEBYSCORE from minus infinity: every member up to the bound, lowest score first. */
    method RangeByScore(bound: int) returns (ids: seq<JobId>)
      ensures NoRepeats(ids) && LowestFirst(ids, due)
      ensures forall id :: id in ids <==> id in InRange(due, bound)
    {
      ids := [];
      var rest := InRange(due, bound);
      while rest != {}
        invariant rest <= InRange(due, bound)
        invariant NoRepeats(ids) && forall id :: id in ids <==> id in InRange(due, bound) - rest
        invariant LowestFirst(ids, due)
        invariant forall i, id :: 0 <= i < |ids| && id in rest ==> due[ids[i]] <= due[id]
        decreases |rest|
      {
        var next := Earliest(rest);
        assert next !in ids;
        ids := ids + [next];
        rest := rest - {next};
      }
    }

    method Earliest(rest: set<JobId>) returns (least: JobId)
      requires rest != {} && rest <= due.Keys
      ensures least in rest && forall id :: id in rest ==> due[least] <= due[id]
    {
      least :| least in rest;
      var unseen := rest - {least};
      while unseen != {}
        invariant unseen <= rest && least in rest
        invariant forall id :: id in rest - unseen ==> due[least] <= due[id]
        decreases |unseen|
      {
        var id :| id in unseen;
        if due[id] < due[least] {
          least := id;
        }
        unseen := unseen - {id};
      }
    }

    /** The claim script and the decoding of its answer. The jobs come back earliest due first. When one record does
        not decode the caller gets an error, although the script has already taken and marked the whole batch. */
    method ClaimDue(now: Time) returns (answer: Result<seq<Job>>, ghost order: seq<JobId>)
      modifies this
      ensures NoRepeats(order) && LowestFirst(order, old(due))
      ensures forall id :: id in order <==> id in InRange(old(due), Score(now))
      ensures Keys(hash, due) == ApplyOp(Keys(old(hash), old(due)), Claim(now))
      ensures answer == DecodeAll(Marks(order, old(hash)))
    {
      var ids := RangeByScore(Score(now));
      order := ids;
      ghost var taken := InRange(due, Score(now));
      if |ids| == 0 {
        assert taken == {} && due - taken == due && AfterScript(hash, taken) == hash;
        return Ok([]), order;
      }
      assert taken == set id | id in ids;
      due := due - (set id | id in ids);
      var claimed := MarkAll(ids);
      answer := DecodeAll(claimed);
    }

    /** The script's loop over the members it removed from the due set. */
    method MarkAll(ids: seq<JobId>) returns (claimed: seq<Record>)
      requires NoRepeats(ids)
      modifies this`hash
      ensures hash == AfterScript(old(hash), set id | id in ids)
      ensures claimed == Marks(ids, old(hash))
    {
      claimed := [];
      for i := 0 to |ids|
        invariant hash == AfterScript(old(hash), set id | id in ids[..i])
        invariant claimed == Marks(ids[..i], old(hash))
      {
        var id := ids[i];
        assert id !in ids[..i] by {
          assert forall k :: 0 <= k < i ==> ids[..i][k] == ids[k];
        }
        assert ids[..i + 1] == ids[..i] + [id] && ids[..i + 1][..i] == ids[..i];
        if id in hash {
          var encoded := ScriptMark(hash[id]);
          hash := hash[id := encoded];
          claimed := claimed + [encoded];
        }
      }
      assert ids[..|ids|] == ids;
    }
  }
}
