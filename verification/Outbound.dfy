/** The webhook sender (crates/hooks/src/outbound.rs): deliveries retried at offsets counted from the enqueue. */
module Outbound {
  import opened Counting
  import opened Faults
  import opened Times

  const DEFAULT_BACKOFF_MS: seq<nat> := [1_000, 5_000, 30_000]

  /** What one attempt comes to: a status from the receiver, or no answer. */
  datatype Answer = Status(code: nat) | NoAnswer(error: string)

  datatype Delivery = Delivery(
    id: nat,
    endpoint: WebhookEndpoint,
    body: string,
    enqueuedAt: Time,
    attempt: nat,
    dueAt: Time,
    done: bool,
    last: Answer
  ) {
    function Backoff(): seq<nat> {
      if endpoint.backoffMs == [] then DEFAULT_BACKOFF_MS else endpoint.backoffMs
    }

    /** The first attempt, plus one for each backoff entry. */
    function MaxAttempts(): nat {
      |Backoff()| + 1
    }

    /** When attempt `n` is due: all the entries before it, counted from the enqueue. */
    function DueFor(n: nat): Time {
      var taken := if n == 0 then 0 else n - 1;
      enqueuedAt + Sum(if taken <= |Backoff()| then Backoff()[..taken] else Backoff()) * NANOS_PER_MS
    }

    predicate IsDue(now: Time) {
      !done && dueAt <= now
    }
  }

  predicate Accepted(a: Answer) {
    a.Status? && 200 <= a.code < 300
  }

  type Receiver = Delivery -> Answer

  /** What came of an attempt, and whether a request was sent for it. */
  datatype Try = Try(answer: Answer, sent: bool)

  /** The receiver as the sender meets it: asked only once the configured number of attempts has been failed. */
  function Deliver(d: Delivery, receiver: Receiver): Try {
    if d.attempt <= d.endpoint.failFirst then Try(NoAnswer("failed by fail_first"), false) else Try(receiver(d), true)
  }

  /** The delivery as it is while its next attempt is made. */
  function Trying(d: Delivery): Delivery {
    d.(attempt := d.attempt + 1)
  }

  /** A delivery after one more attempt. */
  function Attempted(d: Delivery, receiver: Receiver): Delivery {
    var trying := Trying(d);
    var answer := Deliver(trying, receiver).answer;
    if Accepted(answer) || trying.attempt >= trying.MaxAttempts() then trying.(last := answer, done := true)
    else trying.(last := answer, dueAt := trying.DueFor(trying.attempt + 1))
  }

  // ----- What every delivery satisfies -----

  /** An unfinished delivery is due exactly when its next attempt is, and has an attempt left. */
  ghost predicate DeliveryOk(d: Delivery) {
    && d.attempt <= d.MaxAttempts()
    && (!d.done ==> d.attempt < d.MaxAttempts() && d.dueAt == d.DueFor(d.attempt + 1))
    && (d.done ==> d.attempt >= 1)
  }

  predicate SameDelivery(a: Delivery, b: Delivery) {
    a.id == b.id && a.endpoint == b.endpoint && a.body == b.body && a.enqueuedAt == b.enqueuedAt
  }

  /** Requests that actually reached the receiver: none while attempts are failed on purpose. */
  function Requests(d: Delivery): nat {
    if d.attempt <= d.endpoint.failFirst then 0 else d.attempt - d.endpoint.failFirst
  }

  lemma AttemptedOk(d: Delivery, receiver: Receiver)
    requires DeliveryOk(d) && !d.done
    ensures var d' := Attempted(d, receiver);
            && DeliveryOk(d') && SameDelivery(d', d) && d'.attempt == d.attempt + 1
            && (d'.done <==> (d'.last.Status? && 200 <= d'.last.code <= 299) || d'.attempt == d'.MaxAttempts())
            && Requests(d') == Requests(d) + if Deliver(Trying(d), receiver).sent then 1 else 0
  {
  }

  /** Past the attempts failed on purpose, the outcome is what the receiver answers to this very attempt, and up to them
      the receiver has no say and the attempt fails. Requests are sent exactly past them. */
  lemma OutcomeIsTheReceivers(d: Delivery, receiver: Receiver, other: Receiver)
    ensures d.attempt + 1 > d.endpoint.failFirst ==> Attempted(d, receiver).last == receiver(d.(attempt := d.attempt + 1))
    ensures d.attempt + 1 <= d.endpoint.failFirst ==>
      Attempted(d, receiver) == Attempted(d, other) && Attempted(d, receiver).last.NoAnswer?
    ensures Deliver(d.(attempt := d.attempt + 1), receiver).sent <==> d.attempt + 1 > d.endpoint.failFirst
  {
  }

  /** The first attempt is due at once, and each further one its own entry of the backoff list after the one before; an
      endpoint without a list has one second, five seconds and half a minute. */
  lemma DueOffsets(d: Delivery, n: nat)
    ensures d.DueFor(1) == d.enqueuedAt
    ensures 1 <= n < d.MaxAttempts() ==> d.DueFor(n + 1) == d.DueFor(n) + d.Backoff()[n - 1] * NANOS_PER_MS
    ensures d.Backoff() == (if d.endpoint.backoffMs != [] then d.endpoint.backoffMs else [1_000, 5_000, 30_000])
    ensures d.MaxAttempts() == |d.Backoff()| + 1
  {
    assert d.Backoff()[..0] == [];
    if 1 <= n < d.MaxAttempts() {
      assert d.Backoff()[..n][..n - 1] == d.Backoff()[..n - 1];
      assert Sum(d.Backoff()[..n]) == Sum(d.Backoff()[..n - 1]) + d.Backoff()[n - 1];
    }
  }

  // ----- The ladder of an always-failing delivery -----

  ghost predicate AlwaysFails(receiver: Receiver) {
    forall d :: !Accepted(receiver(d))
  }

  /** Attempts whose due time has come by `now`. */
  function Rungs(d: Delivery, now: Time, upTo: nat): nat {
    if upTo == 0 then 0 else Rungs(d, now, upTo - 1) + if d.DueFor(upTo) <= now then 1 else 0
  }

  lemma {:induction false} SumMonotone(ns: seq<nat>, a: nat, b: nat)
    requires a <= b <= |ns|
    ensures Sum(ns[..a]) <= Sum(ns[..b])
    decreases b
  {
    if a < b {
      assert ns[..b][..b - 1] == ns[..b - 1];
      SumMonotone(ns, a, b - 1);
    }
  }

  lemma DueMonotone(d: Delivery, n: nat, m: nat)
    requires 1 <= n <= m <= d.MaxAttempts()
    ensures d.DueFor(n) <= d.DueFor(m)
  {
    SumMonotone(d.Backoff(), n - 1, m - 1);
  }

  /** Due times ascend, so the attempts that are due form the bottom of the ladder. */
  lemma {:induction false} RungsAreTheBottom(d: Delivery, now: Time, upTo: nat, n: nat)
    requires 1 <= n <= upTo <= d.MaxAttempts()
    ensures Rungs(d, now, upTo) <= upTo
    ensures d.DueFor(n) <= now <==> n <= Rungs(d, now, upTo)
    decreases upTo
  {
    if n < upTo {
      DueMonotone(d, n, upTo);
      RungsAreTheBottom(d, now, upTo - 1, n);
    }
    if upTo > 1 { RungsAreTheBottom(d, now, upTo - 1, upTo - 1); DueMonotone(d, upTo - 1, upTo); }
  }

  /** What a tick at `now` does to one delivery. */
  function Ticked(d: Delivery, receiver: Receiver, now: Time): Delivery {
    if d.IsDue(now) then Attempted(d, receiver) else d
  }

  function TickedTimes(d: Delivery, receiver: Receiver, now: Time, k: nat): Delivery {
    if k == 0 then d else Ticked(TickedTimes(d, receiver, now, k - 1), receiver, now)
  }

  /** An attempt that is not accepted leads to exactly one more attempt while a rung is due, and to none otherwise. */
  lemma FailingTick(d: Delivery, receiver: Receiver, now: Time)
    requires DeliveryOk(d) && AlwaysFails(receiver) && (d.done ==> d.attempt == d.MaxAttempts())
    ensures var d' := Ticked(d, receiver, now);
            var rungs := Rungs(d, now, d.MaxAttempts());
            && DeliveryOk(d') && SameDelivery(d', d) && (d'.done <==> d'.attempt == d'.MaxAttempts())
            && rungs <= d.MaxAttempts()
            && d'.attempt == if d.attempt < rungs then d.attempt + 1 else d.attempt
  {
    RungsAreTheBottom(d, now, d.MaxAttempts(), d.MaxAttempts());
    if !d.done {
      RungsAreTheBottom(d, now, d.MaxAttempts(), d.attempt + 1);
      AttemptedOk(d, receiver);
    }
  }

  lemma {:induction false} RungsOfSame(a: Delivery, b: Delivery, now: Time, upTo: nat)
    requires SameDelivery(a, b)
    ensures Rungs(a, now, upTo) == Rungs(b, now, upTo)
  {
    if upTo > 0 { RungsOfSame(a, b, now, upTo - 1); }
  }

  lemma Climb(start: nat, k: nat, rungs: nat)
    requires k > 0
    ensures var x := Max(start, Min(start + k - 1, rungs));
            (if x < rungs then x + 1 else x) == Max(start, Min(start + k, rungs))
  {
  }

  /** Against a receiver that always fails, `k` ticks at one virtual time make as many attempts as there are rungs due,
      one per tick, and no more. */
  lemma {:induction false} LadderProgress(d: Delivery, receiver: Receiver, now: Time, k: nat)
    requires DeliveryOk(d) && AlwaysFails(receiver) && (d.done ==> d.attempt == d.MaxAttempts())
    ensures var d' := TickedTimes(d, receiver, now, k);
            var rungs := Rungs(d, now, d.MaxAttempts());
            && DeliveryOk(d') && SameDelivery(d', d)
            && d'.attempt == Max(d.attempt, Min(d.attempt + k, rungs))
            && (d'.done <==> d'.attempt == d'.MaxAttempts())
    decreases k
  {
    if k == 0 {
      RungsAreTheBottom(d, now, d.MaxAttempts(), d.MaxAttempts());
    } else {
      LadderProgress(d, receiver, now, k - 1);
      var before := TickedTimes(d, receiver, now, k - 1);
      assert before.MaxAttempts() == d.MaxAttempts();
      FailingTick(before, receiver, now);
      assert TickedTimes(d, receiver, now, k) == Ticked(before, receiver, now);
      RungsOfSame(before, d, now, d.MaxAttempts());
      Climb(d.attempt, k, Rungs(d, now, d.MaxAttempts()));
    }
  }

  /** Once the whole ladder is due, the attempts still left finish the delivery, one per tick. */
  lemma LadderFinishes(d: Delivery, receiver: Receiver, now: Time)
    requires DeliveryOk(d) && !d.done && AlwaysFails(receiver) && d.DueFor(d.MaxAttempts()) <= now
    ensures TickedTimes(d, receiver, now, d.MaxAttempts() - d.attempt).done
    ensures forall k: nat :: k < d.MaxAttempts() - d.attempt ==> !TickedTimes(d, receiver, now, k).done
  {
    RungsAreTheBottom(d, now, d.MaxAttempts(), d.MaxAttempts());
    LadderProgress(d, receiver, now, d.MaxAttempts() - d.attempt);
    forall k: nat | k < d.MaxAttempts() - d.attempt ensures !TickedTimes(d, receiver, now, k).done {
      LadderProgress(d, receiver, now, k);
    }
  }

  /** A delivery that has made all the attempts due is left alone. */
  lemma AtRest(d: Delivery, receiver: Receiver, now: Time)
    requires DeliveryOk(d) && d.attempt == Rungs(d, now, d.MaxAttempts())
    ensures Ticked(d, receiver, now) == d
  {
    if !d.done {
      RungsAreTheBottom(d, now, d.MaxAttempts(), d.attempt + 1);
    }
  }

  /** At a fixed time the ladder comes to rest at the number of rungs due, and stays there. */
  lemma LadderFixpoint(d: Delivery, receiver: Receiver, now: Time, k: nat)
    requires DeliveryOk(d) && AlwaysFails(receiver) && (d.done ==> d.attempt == d.MaxAttempts())
    requires d.attempt <= Rungs(d, now, d.MaxAttempts()) <= d.attempt + k
    ensures TickedTimes(d, receiver, now, k).attempt == Rungs(d, now, d.MaxAttempts())
    ensures TickedTimes(d, receiver, now, k + 1) == TickedTimes(d, receiver, now, k)
  {
    LadderProgress(d, receiver, now, k);
    var at := TickedTimes(d, receiver, now, k);
    RungsOfSame(at, d, now, d.MaxAttempts());
    AtRest(at, receiver, now);
  }

  // ----- The ladder of a delivery that is accepted -----

  ghost predicate AlwaysAccepts(receiver: Receiver) {
    forall d :: Accepted(receiver(d))
  }

  /** The attempt that ends an unfinished delivery: the first one not failed on purpose, or the last one allowed. */
  function LastAttempt(d: Delivery): nat {
    if d.attempt < d.endpoint.failFirst then Min(d.endpoint.failFirst + 1, d.MaxAttempts()) else d.attempt + 1
  }

  /** A delivery ends at attempt `last`, accepted exactly if that is not one failed on purpose. */
  ghost predicate OnTheWay(d: Delivery, last: nat) {
    && DeliveryOk(d) && d.attempt <= last <= d.MaxAttempts() && (d.done <==> d.attempt == last)
    && (d.done ==> (Accepted(d.last) <==> d.endpoint.failFirst < last))
    && (!d.done ==> last == LastAttempt(d))
  }

  lemma AcceptedTick(d: Delivery, receiver: Receiver, now: Time, last: nat)
    requires OnTheWay(d, last) && AlwaysAccepts(receiver)
    ensures var d' := Ticked(d, receiver, now);
            var rungs := Rungs(d, now, d.MaxAttempts());
            && OnTheWay(d', last) && SameDelivery(d', d)
            && d'.attempt == if d.attempt < Min(rungs, last) then d.attempt + 1 else d.attempt
  {
    if !d.done {
      RungsAreTheBottom(d, now, d.MaxAttempts(), d.attempt + 1);
      AttemptedOk(d, receiver);
    }
  }

  /** Against a receiver that always accepts, `k` ticks at one time make the attempts due, one a tick, up to the first
      that is not failed on purpose; there the delivery ends, accepted exactly if that attempt was allowed. */
  lemma {:induction false} AcceptedLadder(d: Delivery, receiver: Receiver, now: Time, k: nat)
    requires DeliveryOk(d) && !d.done && AlwaysAccepts(receiver)
    ensures var d' := TickedTimes(d, receiver, now, k);
            var last := LastAttempt(d);
            && d'.attempt == Max(d.attempt, Min(d.attempt + k, Min(Rungs(d, now, d.MaxAttempts()), last)))
            && OnTheWay(d', last) && SameDelivery(d', d)
    decreases k
  {
    if k > 0 {
      AcceptedLadder(d, receiver, now, k - 1);
      var before := TickedTimes(d, receiver, now, k - 1);
      AcceptedTick(before, receiver, now, LastAttempt(d));
      assert TickedTimes(d, receiver, now, k) == Ticked(before, receiver, now);
      RungsOfSame(before, d, now, d.MaxAttempts());
      Climb(d.attempt, k, Min(Rungs(d, now, d.MaxAttempts()), LastAttempt(d)));
    }
  }

  /** So a new delivery to a receiver that accepts, all its attempts due, ends at attempt `failFirst` + 1 if there are so
      many and at the last one otherwise, and is accepted exactly in the first case. */
  lemma FreshIsAccepted(id: nat, endpoint: WebhookEndpoint, body: string, at: Time, receiver: Receiver, now: Time)
    requires AlwaysAccepts(receiver)
    requires var d := Fresh(id, endpoint, body, at); d.DueFor(d.MaxAttempts()) <= now
    ensures var d := Fresh(id, endpoint, body, at);
            var n := Min(endpoint.failFirst + 1, d.MaxAttempts());
            var end := TickedTimes(d, receiver, now, n);
            && end.done && end.attempt == n && (Accepted(end.last) <==> endpoint.failFirst < d.MaxAttempts())
            && forall k: nat :: k < n ==> !TickedTimes(d, receiver, now, k).done
  {
    var d := Fresh(id, endpoint, body, at);
    var n := Min(endpoint.failFirst + 1, d.MaxAttempts());
    DueOffsets(d, 1);
    RungsAreTheBottom(d, now, d.MaxAttempts(), d.MaxAttempts());
    AcceptedLadder(d, receiver, now, n);
    forall k: nat | k < n ensures !TickedTimes(d, receiver, now, k).done {
      AcceptedLadder(d, receiver, now, k);
    }
  }

  // ----- The sender's queue, with enqueues between the attempts of a tick -----

  /** `working` is the snapshot a tick still has to work through. */
  datatype Queue = Queue(queue: seq<Delivery>, working: seq<Delivery>, now: Time, requests: seq<nat>)

  /** The clock is read before the queue is locked, so a step may come with a reading that is already past. */
  datatype Step =
    | Enqueue(id: nat, endpoint: WebhookEndpoint, body: string, reading: Time)
    | Advance(ms: nat)
    | Snapshot(reading: Time)
    | Attempt(receiver: Receiver)

  function Fresh(id: nat, endpoint: WebhookEndpoint, body: string, now: Time): Delivery {
    Delivery(id, endpoint, body, now, 0, now, false, NoAnswer(""))
  }

  predicate HasId(ds: seq<Delivery>, id: nat) {
    exists i :: 0 <= i < |ds| && ds[i].id == id
  }

  predicate DistinctIds(ds: seq<Delivery>) {
    forall i, j :: 0 <= i < j < |ds| ==> ds[i].id != ds[j].id
  }

  /** The due deliveries, in queue order. */
  function DueOf(ds: seq<Delivery>, now: Time): seq<Delivery> {
    if ds == [] then []
    else
      var last := ds[|ds| - 1];
      DueOf(ds[..|ds| - 1], now) + if last.IsDue(now) then [last] else []
  }

  /** The queue with the first delivery of that id replaced. */
  function Replaced(ds: seq<Delivery>, d: Delivery): seq<Delivery> {
    if ds == [] then []
    else if ds[0].id == d.id then [d] + ds[1..]
    else [ds[0]] + Replaced(ds[1..], d)
  }

  predicate Enabled(q: Queue, step: Step) {
    match step
    case Enqueue(id, _, _, reading) => !HasId(q.queue, id) && reading <= q.now
    case Advance(_) => true
    case Snapshot(reading) => q.working == [] && reading <= q.now
    case Attempt(_) => q.working != []
  }

  function Apply(q: Queue, step: Step): Queue
    requires Enabled(q, step)
  {
    match step
    case Enqueue(id, endpoint, body, reading) => q.(queue := q.queue + [Fresh(id, endpoint, body, reading)])
    case Advance(ms) => q.(now := q.now + ms * NANOS_PER_MS)
    case Snapshot(reading) => q.(working := DueOf(q.queue, reading))
    case Attempt(receiver) =>
      var d := Attempted(q.working[0], receiver);
      q.(queue := Replaced(q.queue, d),
         working := q.working[1..],
         requests := if Deliver(Trying(q.working[0]), receiver).sent then q.requests + [d.id] else q.requests)
  }

  /** The snapshot is up to date: what it holds is in the queue unchanged, unfinished and due. */
  ghost predicate QueueOk(q: Queue) {
    && DistinctIds(q.queue) && DistinctIds(q.working)
    && (forall i :: 0 <= i < |q.queue| ==> DeliveryOk(q.queue[i]) && Count(q.requests, q.queue[i].id) == Requests(q.queue[i]))
    && (forall i :: 0 <= i < |q.working| ==> q.working[i] in q.queue && q.working[i].IsDue(q.now))
    && (forall id :: id in q.requests ==> HasId(q.queue, id))
  }

  /** `after` continues `before`: nothing lost, duplicated or reordered, attempts only counted up, finished deliveries
      untouched, and new deliveries only at the end. */
  predicate Continues(before: seq<Delivery>, after: seq<Delivery>) {
    |before| <= |after| &&
    forall i :: 0 <= i < |before| ==>
      && SameDelivery(after[i], before[i]) && before[i].attempt <= after[i].attempt <= before[i].attempt + 1
      && (after[i].attempt == before[i].attempt ==> after[i] == before[i])
      && (before[i].done ==> after[i] == before[i])
  }

  lemma {:induction false} ReplacedAt(ds: seq<Delivery>, d: Delivery, i: nat)
    requires DistinctIds(ds) && i < |ds| && ds[i].id == d.id
    ensures Replaced(ds, d) == ds[i := d]
    decreases i
  {
    if i > 0 {
      assert ds[0].id != ds[i].id;
      ReplacedAt(ds[1..], d, i - 1);
      assert ds[i := d] == [ds[0]] + ds[1..][i - 1 := d];
    }
  }

  lemma {:induction false} DueOfFacts(ds: seq<Delivery>, now: Time)
    requires DistinctIds(ds)
    ensures DistinctIds(DueOf(ds, now))
    ensures forall d :: d in DueOf(ds, now) <==> d in ds && d.IsDue(now)
  {
    if ds != [] {
      var init, last := ds[..|ds| - 1], ds[|ds| - 1];
      DueOfFacts(init, now);
      assert ds == init + [last];
      forall d | d in DueOf(init, now) ensures d.id != last.id {
        var i :| 0 <= i < |init| && init[i] == d;
        assert ds[i].id != ds[|ds| - 1].id;
      }
    }
  }

  lemma EnqueueOk(q: Queue, id: nat, endpoint: WebhookEndpoint, body: string, reading: Time)
    requires QueueOk(q) && Enabled(q, Enqueue(id, endpoint, body, reading))
    ensures QueueOk(Apply(q, Enqueue(id, endpoint, body, reading)))
    ensures Continues(q.queue, Apply(q, Enqueue(id, endpoint, body, reading)).queue)
  {
    var d := Fresh(id, endpoint, body, reading);
    assert d.DueFor(1) == reading by { assert d.Backoff()[..0] == []; }
    assert DeliveryOk(d);
    assert id !in q.requests;
    CountAbsent(q.requests, id);
    var queue' := q.queue + [d];
    forall x | x in q.requests ensures HasId(queue', x) {
      var i :| 0 <= i < |q.queue| && q.queue[i].id == x;
      assert queue'[i].id == x;
    }
  }

  lemma RequestsAfterAttempt(q: Queue, requests': seq<nat>, d: Delivery, i: nat, j: nat)
    requires QueueOk(q) && i < |q.queue| && j < |q.queue| && d.id == q.queue[i].id
    requires requests' == if Requests(d) == Requests(q.queue[i]) then q.requests else q.requests + [d.id]
    requires Requests(q.queue[i]) <= Requests(d) <= Requests(q.queue[i]) + 1
    ensures var queue' := q.queue[i := d]; Count(requests', queue'[j].id) == Requests(queue'[j])
  {
    CountNext(q.requests, d.id, q.queue[j].id);
    if j < i { assert q.queue[j].id != q.queue[i].id; }
    if j > i { assert q.queue[i].id != q.queue[j].id; }
  }

  lemma WorkingAfterAttempt(q: Queue, d: Delivery, i: nat, k: nat)
    requires QueueOk(q) && q.working != [] && i < |q.queue| && q.queue[i] == q.working[0] && 0 < k < |q.working|
    ensures q.working[k] in q.queue[i := d]
  {
    assert q.working[0].id != q.working[k].id;
    var j :| 0 <= j < |q.queue| && q.queue[j] == q.working[k];
    assert q.queue[i := d][j] == q.working[k];
  }

  lemma HasIdKept(ds: seq<Delivery>, d: Delivery, i: nat, id: nat)
    requires i < |ds| && ds[i].id == d.id && HasId(ds, id)
    ensures HasId(ds[i := d], id)
  {
    var j :| 0 <= j < |ds| && ds[j].id == id;
    assert ds[i := d][j].id == id;
  }

  /** `q'` is `q` after an attempt that made `d` of the first delivery of the snapshot, which stands at `i`. */
  ghost predicate AfterAttempt(q: Queue, q': Queue, d: Delivery, i: nat) {
    && QueueOk(q) && q.working != [] && i < |q.queue| && q.queue[i] == q.working[0]
    && DeliveryOk(d) && SameDelivery(d, q.queue[i])
    && Requests(q.queue[i]) <= Requests(d) <= Requests(q.queue[i]) + 1
    && q'.requests == (if Requests(d) == Requests(q.queue[i]) then q.requests else q.requests + [d.id])
    && q'.queue == q.queue[i := d] && q'.working == q.working[1..] && q'.now == q.now
  }

  lemma AttemptKeepsDeliveries(q: Queue, q': Queue, d: Delivery, i: nat)
    requires AfterAttempt(q, q', d, i)
    ensures DistinctIds(q'.queue)
    ensures forall j :: 0 <= j < |q'.queue| ==> DeliveryOk(q'.queue[j]) && Count(q'.requests, q'.queue[j].id) == Requests(q'.queue[j])
  {
    forall j | 0 <= j < |q'.queue|
      ensures DeliveryOk(q'.queue[j]) && Count(q'.requests, q'.queue[j].id) == Requests(q'.queue[j])
    {
      RequestsAfterAttempt(q, q'.requests, d, i, j);
    }
  }

  lemma AttemptKeepsWorking(q: Queue, q': Queue, d: Delivery, i: nat)
    requires AfterAttempt(q, q', d, i)
    ensures DistinctIds(q'.working)
    ensures forall k :: 0 <= k < |q'.working| ==> q'.working[k] in q'.queue && q'.working[k].IsDue(q'.now)
  {
    forall k | 0 <= k < |q'.working| ensures q'.working[k] in q'.queue && q'.working[k].IsDue(q'.now) {
      WorkingAfterAttempt(q, d, i, k + 1);
    }
  }

  lemma AttemptKeeps(q: Queue, q': Queue, d: Delivery, i: nat)
    requires AfterAttempt(q, q', d, i)
    ensures QueueOk(q')
  {
    AttemptKeepsDeliveries(q, q', d, i);
    AttemptKeepsWorking(q, q', d, i);
    forall x | x in q'.requests ensures HasId(q'.queue, x) {
      assert HasId(q.queue, x) by { if x == d.id { assert q.queue[i].id == x; } }
      HasIdKept(q.queue, d, i, x);
    }
  }

  lemma ContinuesUpdate(ds: seq<Delivery>, d: Delivery, i: nat)
    requires i < |ds| && SameDelivery(d, ds[i]) && d.attempt == ds[i].attempt + 1 && !ds[i].done
    ensures Continues(ds, ds[i := d])
  {
  }

  lemma AttemptOk(q: Queue, receiver: Receiver)
    requires QueueOk(q) && Enabled(q, Attempt(receiver))
    ensures QueueOk(Apply(q, Attempt(receiver)))
    ensures Continues(q.queue, Apply(q, Attempt(receiver)).queue)
  {
    var head := q.working[0];
    var d := Attempted(head, receiver);
    assert head in q.queue;
    var i :| 0 <= i < |q.queue| && q.queue[i] == head;
    AttemptedOk(head, receiver);
    ReplacedAt(q.queue, d, i);
    ContinuesUpdate(q.queue, d, i);
    AttemptKeeps(q, Apply(q, Attempt(receiver)), d, i);
  }

  lemma SnapshotOk(q: Queue, reading: Time)
    requires QueueOk(q) && Enabled(q, Snapshot(reading))
    ensures QueueOk(Apply(q, Snapshot(reading))) && Continues(q.queue, q.queue)
  {
    DueOfFacts(q.queue, reading);
    var working := DueOf(q.queue, reading);
    forall i | 0 <= i < |working| ensures working[i] in q.queue && working[i].IsDue(q.now) {
      assert working[i] in working;
    }
  }

  lemma QueueStep(q: Queue, step: Step)
    requires QueueOk(q) && Enabled(q, step)
    ensures QueueOk(Apply(q, step)) && Continues(q.queue, Apply(q, step).queue)
  {
    match step
    case Enqueue(id, endpoint, body, reading) => EnqueueOk(q, id, endpoint, body, reading);
    case Advance(_) =>
    case Snapshot(reading) => SnapshotOk(q, reading);
    case Attempt(receiver) => AttemptOk(q, receiver);
  }

  ghost predicate CanRun(q: Queue, steps: seq<Step>)
    decreases |steps|
  {
    steps == [] || (Enabled(q, steps[0]) && CanRun(Apply(q, steps[0]), steps[1..]))
  }

  ghost function Run(q: Queue, steps: seq<Step>): Queue
    requires CanRun(q, steps)
    decreases |steps|
  {
    if steps == [] then q else Run(Apply(q, steps[0]), steps[1..])
  }

  /** A run goes step by step, each from where the one before it led. */
  lemma {:induction false} RunsStepByStep(q: Queue, steps: seq<Step>, step: Step)
    ensures CanRun(q, steps + [step]) <==> CanRun(q, steps) && Enabled(Run(q, steps), step)
    ensures CanRun(q, steps + [step]) ==> Run(q, steps + [step]) == Apply(Run(q, steps), step)
    decreases |steps|
  {
    if steps == [] {
      assert (steps + [step])[1..] == [];
    } else {
      assert (steps + [step])[1..] == steps[1..] + [step];
      if Enabled(q, steps[0]) { RunsStepByStep(Apply(q, steps[0]), steps[1..], step); }
    }
  }

  /** Through any interleaving of enqueues with one ticking sender: every delivery keeps its place, its identity and its
      enqueue time, a finished one never changes again, attempts never go down, an unfinished one is due exactly when
      its next attempt is, and the receiver has been asked once for every attempt beyond the first `failFirst`. */
  lemma {:induction false} NoDeliveryIsLost(q: Queue, steps: seq<Step>)
    requires QueueOk(q) && CanRun(q, steps)
    ensures QueueOk(Run(q, steps)) && |q.queue| <= |Run(q, steps).queue|
    ensures forall i :: 0 <= i < |q.queue| ==>
      var after := Run(q, steps).queue[i];
      SameDelivery(after, q.queue[i]) && q.queue[i].attempt <= after.attempt && (q.queue[i].done ==> after == q.queue[i])
    decreases |steps|
  {
    if steps != [] {
      QueueStep(q, steps[0]);
      NoDeliveryIsLost(Apply(q, steps[0]), steps[1..]);
    }
  }

  function NoQueue(now: Time): Queue {
    Queue([], [], now, [])
  }

  /** So from any moment on of any life of a sender that began with nothing queued. */
  lemma NoDeliveryIsEverLost(now: Time, before: seq<Step>, later: seq<Step>)
    requires CanRun(NoQueue(now), before) && CanRun(Run(NoQueue(now), before), later)
    ensures
      var q := Run(NoQueue(now), before);
      var q' := Run(q, later);
      && QueueOk(q) && QueueOk(q') && |q.queue| <= |q'.queue|
      && forall i :: 0 <= i < |q.queue| ==>
           SameDelivery(q'.queue[i], q.queue[i]) && q.queue[i].attempt <= q'.queue[i].attempt &&
           (q.queue[i].done ==> q'.queue[i] == q.queue[i])
  {
    NoDeliveryIsLost(NoQueue(now), before);
    NoDeliveryIsLost(Run(NoQueue(now), before), later);
  }

  /** Every attempt of the run is made at its due time or later, counted from the enqueue, is still within the attempts
      allowed, and is made of a delivery as it stands in the queue. */
  ghost predicate AttemptsInTime(q: Queue, steps: seq<Step>)
    requires CanRun(q, steps)
    decreases |steps|
  {
    steps != [] ==>
      && (steps[0].Attempt? ==>
            var d := q.working[0];
            d in q.queue && !d.done && d.attempt + 1 <= d.MaxAttempts() && d.DueFor(d.attempt + 1) <= q.now)
      && AttemptsInTime(Apply(q, steps[0]), steps[1..])
  }

  lemma {:induction false} AttemptsInTimeFrom(q: Queue, steps: seq<Step>)
    requires QueueOk(q) && CanRun(q, steps)
    ensures AttemptsInTime(q, steps)
    decreases |steps|
  {
    if steps != [] {
      QueueStep(q, steps[0]);
      AttemptsInTimeFrom(Apply(q, steps[0]), steps[1..]);
      if steps[0].Attempt? {
        assert q.working[0] in q.queue && q.working[0].IsDue(q.now);
      }
    }
  }

  /** However enqueues, ticks and the clock interleave, no retry is made before its time. */
  lemma NoAttemptBeforeItsTime(now: Time, steps: seq<Step>)
    requires CanRun(NoQueue(now), steps)
    ensures AttemptsInTime(NoQueue(now), steps)
  {
    AttemptsInTimeFrom(NoQueue(now), steps);
  }

  // ----- The sender itself -----

  /** `after` is `before` with exactly the deliveries in `tried` attempted once more. */
  ghost predicate Tried(before: seq<Delivery>, after: seq<Delivery>, tried: seq<Delivery>, receiver: Receiver) {
    |after| == |before| &&
    forall i :: 0 <= i < |before| ==>
      after[i].id == before[i].id && after[i] == if before[i] in tried then Attempted(before[i], receiver) else before[i]
  }

  lemma TriedNext(before: seq<Delivery>, after: seq<Delivery>, due: seq<Delivery>, k: nat, i: nat, receiver: Receiver)
    requires k < |due| && i < |before| && before[i] == due[k]
    requires DistinctIds(before) && Tried(before, after, due[..k], receiver)
    ensures Tried(before, after[i := Attempted(due[k], receiver)], due[..k + 1], receiver)
    ensures DistinctIds(after[i := Attempted(due[k], receiver)])
  {
    assert due[..k + 1] == due[..k] + [due[k]];
    assert Attempted(due[k], receiver).id == due[k].id;
    forall j | 0 <= j < |before| && j != i ensures before[j] != due[k] {
      if j < i { assert before[j].id != before[i].id; } else { assert before[i].id != before[j].id; }
    }
  }

  /** The steps of one undisturbed tick, up to the `k`-th attempt. */
  function TickSteps(reading: Time, receiver: Receiver, k: nat): seq<Step> {
    if k == 0 then [Snapshot(reading)] else TickSteps(reading, receiver, k - 1) + [Attempt(receiver)]
  }

  lemma SnapshotRuns(q: Queue, reading: Time)
    requires Enabled(q, Snapshot(reading))
    ensures CanRun(q, [Snapshot(reading)]) && Run(q, [Snapshot(reading)]) == Apply(q, Snapshot(reading))
  {
    RunsStepByStep(q, [], Snapshot(reading));
    assert [] + [Snapshot(reading)] == [Snapshot(reading)];
  }

  /** A tick that took this snapshot of `queue` has made the first `k` of its attempts. */
  ghost predicate Ticking(queue: seq<Delivery>, q: Queue, due: seq<Delivery>, k: nat, receiver: Receiver) {
    && DistinctIds(queue) && DistinctIds(due) && QueueOk(q) && k <= |due|
    && q.working == due[k..] && Tried(queue, q.queue, due[..k], receiver)
  }

  lemma NotTriedYet(queue: seq<Delivery>, q: Queue, due: seq<Delivery>, k: nat, i: nat, receiver: Receiver)
    requires Ticking(queue, q, due, k, receiver) && k < |due| && i < |q.queue| && q.queue[i] == due[k]
    ensures queue[i] == due[k]
  {
    assert queue[i] !in due[..k];
  }

  /** The next attempt leaves the next delivery of the snapshot attempted and the others alone. */
  lemma TickingNext(queue: seq<Delivery>, q: Queue, due: seq<Delivery>, k: nat, receiver: Receiver)
    requires Ticking(queue, q, due, k, receiver) && k < |due|
    ensures Enabled(q, Attempt(receiver)) && Ticking(queue, Apply(q, Attempt(receiver)), due, k + 1, receiver)
  {
    assert q.working[0] == due[k] && due[k] in q.queue;
    var i :| 0 <= i < |q.queue| && q.queue[i] == due[k];
    ReplacedAt(q.queue, Attempted(due[k], receiver), i);
    NotTriedYet(queue, q, due, k, i, receiver);
    TriedNext(queue, q.queue, due, k, i, receiver);
    AttemptOk(q, receiver);
    assert due[k..][1..] == due[k + 1..];
  }

  lemma TickingStarts(q: Queue, reading: Time, receiver: Receiver)
    requires QueueOk(q) && Enabled(q, Snapshot(reading))
    ensures CanRun(q, [Snapshot(reading)])
    ensures Ticking(q.queue, Run(q, [Snapshot(reading)]), DueOf(q.queue, reading), 0, receiver)
  {
    var due := DueOf(q.queue, reading);
    SnapshotRuns(q, reading);
    SnapshotOk(q, reading);
    DueOfFacts(q.queue, reading);
    assert due[0..] == due && due[..0] == [];
  }

  lemma OneMoreAttempt(q: Queue, steps: seq<Step>, due: seq<Delivery>, k: nat, receiver: Receiver)
    requires CanRun(q, steps) && Ticking(q.queue, Run(q, steps), due, k, receiver) && k < |due|
    ensures CanRun(q, steps + [Attempt(receiver)])
    ensures Ticking(q.queue, Run(q, steps + [Attempt(receiver)]), due, k + 1, receiver)
  {
    var before := Run(q, steps);
    TickingNext(q.queue, before, due, k, receiver);
    RunsStepByStep(q, steps, Attempt(receiver));
    var after := Run(q, steps + [Attempt(receiver)]);
    assert after == Apply(before, Attempt(receiver));
  }

  lemma {:induction false} TickingRuns(q: Queue, reading: Time, receiver: Receiver, k: nat)
    requires QueueOk(q) && Enabled(q, Snapshot(reading)) && k <= |DueOf(q.queue, reading)|
    ensures CanRun(q, TickSteps(reading, receiver, k))
    ensures Ticking(q.queue, Run(q, TickSteps(reading, receiver, k)), DueOf(q.queue, reading), k, receiver)
    decreases k
  {
    var due := DueOf(q.queue, reading);
    if k == 0 {
      TickingStarts(q, reading, receiver);
    } else {
      TickingRuns(q, reading, receiver, k - 1);
      OneMoreAttempt(q, TickSteps(reading, receiver, k - 1), due, k - 1, receiver);
    }
  }

  /** An undisturbed tick, run through to its end, attempts every due delivery once and leaves the others alone: the steps
      do what the sender's tick does. */
  lemma TickIsARun(q: Queue, reading: Time, receiver: Receiver)
    requires QueueOk(q) && Enabled(q, Snapshot(reading))
    ensures
      var steps := TickSteps(reading, receiver, |DueOf(q.queue, reading)|);
      CanRun(q, steps) &&
      var q' := Run(q, steps);
      q'.working == [] && |q'.queue| == |q.queue| &&
      forall i :: 0 <= i < |q.queue| ==> q'.queue[i] == Ticked(q.queue[i], receiver, reading)
  {
    var due := DueOf(q.queue, reading);
    TickingRuns(q, reading, receiver, |due|);
    DueOfFacts(q.queue, reading);
    assert due[..|due|] == due && due[|due|..] == [];
  }

  class Sender {
    var queue: seq<Delivery>

    constructor ()
      ensures queue == []
    {
      queue := [];
    }

    method Enqueue(id: nat, endpoint: WebhookEndpoint, body: string, now: Time)
      modifies this
      ensures queue == old(queue) + [Fresh(id, endpoint, body, now)]
    {
      queue := queue + [Delivery(id, endpoint, body, now, 0, now, false, NoAnswer(""))];
    }

    /** One pass: snapshot what is due, then attempt each and put it back. Every due delivery makes exactly one attempt
        and no other delivery changes. */
    method Tick(now: Time, receiver: Receiver)
      requires DistinctIds(queue)
      modifies this
      ensures |queue| == |old(queue)| && DistinctIds(queue)
      ensures forall i :: 0 <= i < |queue| ==> queue[i] == Ticked(old(queue)[i], receiver, now)
    {
      ghost var before := queue;
      var due := CollectDue(now);
      DueOfFacts(queue, now);
      for k := 0 to |due|
        invariant DistinctIds(queue) && Tried(before, queue, due[..k], receiver)
      {
        assert due[k] in before;
        ghost var i :| 0 <= i < |before| && before[i] == due[k];
        ghost var was := queue;
        Attempt(due[k], receiver, i);
        TriedNext(before, was, due, k, i, receiver);
      }
      assert due[..|due|] == due;
    }

    method CollectDue(now: Time) returns (due: seq<Delivery>)
      ensures due == DueOf(queue, now)
    {
      due := [];
      for i := 0 to |queue|
        invariant due == DueOf(queue[..i], now)
      {
        assert queue[..i + 1][..i] == queue[..i];
        if queue[i].IsDue(now) {
          due := due + [queue[i]];
        }
      }
      assert queue[..|queue|] == queue;
    }

    method Attempt(d: Delivery, receiver: Receiver, ghost at: nat)
      requires DistinctIds(queue) && at < |queue| && queue[at].id == d.id
      modifies this
      ensures queue == old(queue)[at := Attempted(d, receiver)]
    {
      var delivery := d.(attempt := d.attempt + 1);
      var outcome := Deliver(delivery, receiver).answer;
      var succeeded := outcome.Status? && 200 <= outcome.code < 300;
      delivery := delivery.(last := outcome);
      if succeeded || delivery.attempt >= delivery.MaxAttempts() {
        delivery := delivery.(done := true);
      } else {
        delivery := delivery.(dueAt := delivery.DueFor(delivery.attempt + 1));
      }
      Replace(delivery, at);
    }

    method Replace(d: Delivery, ghost at: nat)
      requires DistinctIds(queue) && at < |queue| && queue[at].id == d.id
      modifies this
      ensures queue == old(queue)[at := d]
    {
      for i := 0 to |queue|
        invariant queue == old(queue) && i <= at
      {
        if queue[i].id == d.id {
          queue := queue[i := d];
          return;
        }
      }
    }
  }
}
