/** The event bus (crates/core/src/bus.rs): numbered events fanned out over a bounded broadcast ring.

    The ring follows the broadcast channel's documented contract: one shared buffer of the last `capacity` events, one
    cursor per receiver, nothing stored while nobody is subscribed, and a receiver that has fallen more than
    `capacity` behind is told how many events it missed and resumes at the oldest retained one. */
module Bus {
  import opened Counting

  datatype Event = Event(id: nat, body: string)

  /** What a subscriber's stream yields. */
  datatype Item = Got(event: Event) | Gap(id: nat, dropped: nat)

  // ----- The bus on values, with an unbounded log in place of the ring -----

  /** Where a subscriber is in reporting a gap: not at all, told by the ring how much it missed, or with that already
      added to the drop counter. */
  datatype Phase = Ready | Lagged(missed: nat) | Counted(missed: nat)

  /** A subscription: where in the log it began, where it stands, and all it has yielded. `base` is the next unassigned
      id at the time of subscribing. */
  datatype Sub = Sub(start: nat, cursor: nat, base: nat, items: seq<Item>, phase: Phase, live: bool)

  datatype State = State(
    capacity: nat,
    nextId: nat,
    log: seq<Event>,          // everything sent while somebody was subscribed
    subs: seq<Sub>,
    dropped: nat,
    pending: seq<Event>,      // numbered by some emitter, not yet sent
    discarded: seq<Event>     // sent while nobody was subscribed
  )

  function Boot(capacity: nat): State {
    State(capacity, 0, [], [], 0, [], [])
  }

  predicate AnyLive(subs: seq<Sub>) {
    exists i :: 0 <= i < |subs| && subs[i].live
  }

  function Sent(s: State, e: Event): State {
    if AnyLive(s.subs) then s.(log := s.log + [e]) else s.(discarded := s.discarded + [e])
  }

  function Without(events: seq<Event>, i: nat): seq<Event>
    requires i < |events|
  {
    events[..i] + events[i + 1..]
  }

  /** The ring's answer to a receive: the next event, or how many were missed and a cursor at the oldest one kept. */
  function Received(log: seq<Event>, capacity: nat, sub: Sub): Sub
    requires sub.cursor < |log| && capacity > 0
  {
    if |log| - sub.cursor <= capacity then sub.(items := sub.items + [Got(log[sub.cursor])], cursor := sub.cursor + 1)
    else sub.(phase := Lagged(|log| - capacity - sub.cursor), cursor := |log| - capacity)
  }

  datatype Step =
    | Allocate(body: string)   // an emitter takes a number
    | Send(i: nat)             // and sends its event, in any order with other emitters
    | Emit(body: string)       // both at once, for serialised emitters
    | Subscribe
    | Recv(sub: nat)
    | CountLag(sub: nat)       // after a lag: add to the drop counter
    | Stamp(sub: nat)          // and yield a gap with the next unassigned id
    | Unsubscribe(sub: nat)

  predicate Enabled(s: State, step: Step) {
    match step
    case Send(i) => i < |s.pending|
    case Recv(sub) =>
      sub < |s.subs| && s.subs[sub].live && s.subs[sub].phase.Ready? && s.subs[sub].cursor < |s.log| && s.capacity > 0
    case CountLag(sub) => sub < |s.subs| && s.subs[sub].phase.Lagged?
    case Stamp(sub) => sub < |s.subs| && s.subs[sub].phase.Counted?
    case Unsubscribe(sub) => sub < |s.subs| && s.subs[sub].live && s.subs[sub].phase.Ready?
    case _ => true
  }

  function Apply(s: State, step: Step): State
    requires Enabled(s, step)
  {
    match step
    case Allocate(body) => s.(nextId := s.nextId + 1, pending := s.pending + [Event(s.nextId, body)])
    case Send(i) => Sent(s.(pending := Without(s.pending, i)), s.pending[i])
    case Emit(body) => Sent(s.(nextId := s.nextId + 1), Event(s.nextId, body))
    case Subscribe => s.(subs := s.subs + [Sub(|s.log|, |s.log|, s.nextId, [], Ready, true)])
    case Recv(sub) => s.(subs := s.subs[sub := Received(s.log, s.capacity, s.subs[sub])])
    case CountLag(sub) =>
      var missed := s.subs[sub].phase.missed;
      s.(subs := s.subs[sub := s.subs[sub].(phase := Counted(missed))], dropped := s.dropped + missed)
    case Stamp(sub) =>
      var gap := Gap(s.nextId, s.subs[sub].phase.missed);
      s.(subs := s.subs[sub := s.subs[sub].(phase := Ready, items := s.subs[sub].items + [gap])])
    case Unsubscribe(sub) => s.(subs := s.subs[sub := s.subs[sub].(live := false)])
  }

  ghost predicate CanRun(s: State, steps: seq<Step>)
    decreases |steps|
  {
    steps == [] || (Enabled(s, steps[0]) && CanRun(Apply(s, steps[0]), steps[1..]))
  }

  ghost function Run(s: State, steps: seq<Step>): State
    requires CanRun(s, steps)
    decreases |steps|
  {
    if steps == [] then s else Run(Apply(s, steps[0]), steps[1..])
  }

  // ----- Nothing goes missing unaccounted -----

  /** The items account for the log from `start` to `end`: each event stands for itself, each gap for the contiguous
      block of events it hides. */
  ghost predicate Accounts(log: seq<Event>, start: nat, items: seq<Item>, end: int) {
    if items == [] then end == start
    else
      var init := items[..|items| - 1];
      match items[|items| - 1]
      case Got(e) => 0 < end <= |log| && log[end - 1] == e && Accounts(log, start, init, end - 1)
      case Gap(_, n) => 0 < n <= end <= |log| && Accounts(log, start, init, end - n)
  }

  function Delivered(items: seq<Item>): nat {
    if items == [] then 0 else Delivered(items[..|items| - 1]) + if items[|items| - 1].Got? then 1 else 0
  }

  function GapTotal(items: seq<Item>): nat {
    if items == [] then 0
    else GapTotal(items[..|items| - 1]) + if items[|items| - 1].Gap? then items[|items| - 1].dropped else 0
  }

  /** Events a subscriber knows to have missed and has not yet yielded a gap for. */
  function Unreported(sub: Sub): nat {
    if sub.phase.Ready? then 0 else sub.phase.missed
  }

  /** What a subscriber has added to the drop counter. */
  function DroppedBy(sub: Sub): nat {
    GapTotal(sub.items) + if sub.phase.Counted? then sub.phase.missed else 0
  }

  function AllDropped(subs: seq<Sub>): nat {
    if subs == [] then 0 else DroppedBy(subs[0]) + AllDropped(subs[1..])
  }

  ghost predicate SubOk(log: seq<Event>, sub: Sub) {
    && sub.cursor <= |log| && Accounts(log, sub.start, sub.items, sub.cursor - Unreported(sub))
    && (!sub.phase.Ready? ==> sub.phase.missed > 0)
  }

  ghost predicate Accounted(s: State) {
    (forall i :: 0 <= i < |s.subs| ==> SubOk(s.log, s.subs[i])) && s.dropped == AllDropped(s.subs)
  }

  lemma {:induction false} AccountsGrows(log: seq<Event>, start: nat, items: seq<Item>, end: int, e: Event)
    requires Accounts(log, start, items, end)
    ensures Accounts(log + [e], start, items, end)
    decreases |items|
  {
    if items != [] {
      var last := items[|items| - 1];
      AccountsGrows(log, start, items[..|items| - 1], if last.Got? then end - 1 else end - last.dropped, e);
    }
  }

  lemma {:induction false} AllDroppedUpdate(subs: seq<Sub>, i: nat, x: Sub)
    requires i < |subs|
    ensures AllDropped(subs[i := x]) + DroppedBy(subs[i]) == AllDropped(subs) + DroppedBy(x)
    decreases i
  {
    if i == 0 {
      assert subs[0 := x][1..] == subs[1..];
    } else {
      assert subs[i := x][1..] == subs[1..][i - 1 := x];
      AllDroppedUpdate(subs[1..], i - 1, x);
    }
  }

  lemma {:induction false} AllDroppedAppend(subs: seq<Sub>, x: Sub)
    ensures AllDropped(subs + [x]) == AllDropped(subs) + DroppedBy(x)
  {
    if subs == [] {
      assert [x][1..] == [] && subs + [x] == [x];
    } else {
      assert (subs + [x])[1..] == subs[1..] + [x];
      AllDroppedAppend(subs[1..], x);
    }
  }

  lemma OneMoreItem(items: seq<Item>, item: Item)
    ensures (items + [item])[..|items|] == items
    ensures Delivered(items + [item]) == Delivered(items) + if item.Got? then 1 else 0
    ensures GapTotal(items + [item]) == GapTotal(items) + if item.Gap? then item.dropped else 0
  {
  }

  predicate OwnStep(step: Step) {
    step.Recv? || step.CountLag? || step.Stamp? || step.Unsubscribe?
  }

  lemma ReceivedOk(log: seq<Event>, capacity: nat, sub: Sub)
    requires SubOk(log, sub) && sub.phase.Ready? && sub.cursor < |log| && capacity > 0
    ensures SubOk(log, Received(log, capacity, sub)) && DroppedBy(Received(log, capacity, sub)) == DroppedBy(sub)
  {
    if |log| - sub.cursor <= capacity {
      OneMoreItem(sub.items, Got(log[sub.cursor]));
    }
  }

  lemma StampedOk(log: seq<Event>, sub: Sub, id: nat)
    requires SubOk(log, sub) && sub.phase.Counted?
    ensures var after := sub.(phase := Ready, items := sub.items + [Gap(id, sub.phase.missed)]);
            SubOk(log, after) && DroppedBy(after) == DroppedBy(sub)
  {
    OneMoreItem(sub.items, Gap(id, sub.phase.missed));
  }

  lemma OwnStepOk(s: State, step: Step)
    requires Enabled(s, step) && OwnStep(step) && SubOk(s.log, s.subs[step.sub])
    ensures var s' := Apply(s, step);
            SubOk(s.log, s'.subs[step.sub]) &&
            DroppedBy(s'.subs[step.sub]) == DroppedBy(s.subs[step.sub]) + (s'.dropped - s.dropped)
  {
    if step.Recv? {
      ReceivedOk(s.log, s.capacity, s.subs[step.sub]);
    } else if step.Stamp? {
      StampedOk(s.log, s.subs[step.sub], s.nextId);
    }
  }

  lemma AccountedSub(s: State, step: Step)
    requires Accounted(s) && Enabled(s, step) && OwnStep(step)
    ensures Accounted(Apply(s, step))
  {
    var s' := Apply(s, step);
    OwnStepOk(s, step);
    AllDroppedUpdate(s.subs, step.sub, s'.subs[step.sub]);
    assert s'.log == s.log && s'.subs == s.subs[step.sub := s'.subs[step.sub]];
  }

  lemma AccountedSent(s: State, e: Event)
    requires Accounted(s)
    ensures Accounted(Sent(s, e))
  {
    forall i | 0 <= i < |s.subs| ensures SubOk(Sent(s, e).log, s.subs[i]) {
      AccountsGrows(s.log, s.subs[i].start, s.subs[i].items, s.subs[i].cursor - Unreported(s.subs[i]), e);
    }
  }

  lemma AccountedStep(s: State, step: Step)
    requires Accounted(s) && Enabled(s, step)
    ensures Accounted(Apply(s, step))
  {
    match step
    case Allocate(_) =>
    case Send(i) => AccountedSent(s.(pending := Without(s.pending, i)), s.pending[i]);
    case Emit(body) => AccountedSent(s.(nextId := s.nextId + 1), Event(s.nextId, body));
    case Subscribe => AllDroppedAppend(s.subs, Sub(|s.log|, |s.log|, s.nextId, [], Ready, true));
    case _ => AccountedSub(s, step);
  }

  lemma {:induction false} AccountedRun(s: State, steps: seq<Step>)
    requires Accounted(s) && CanRun(s, steps)
    ensures Accounted(Run(s, steps))
    decreases |steps|
  {
    if steps != [] {
      AccountedStep(s, steps[0]);
      AccountedRun(Apply(s, steps[0]), steps[1..]);
    }
  }

  lemma {:induction false} AccountsAddUp(log: seq<Event>, start: nat, items: seq<Item>, end: int)
    requires Accounts(log, start, items, end)
    ensures start + Delivered(items) + GapTotal(items) == end
    decreases |items|
  {
    if items != [] {
      var last := items[|items| - 1];
      AccountsAddUp(log, start, items[..|items| - 1], if last.Got? then end - 1 else end - last.dropped);
    }
  }

  /** In every run, for every subscriber: delivered events plus its gaps, plus a gap it is about to yield, plus its
      backlog are the events sent since it subscribed; and the dropped counter is the sum of what all subscribers, past
      and present, have counted, which for one that is not in the middle of a gap is the sum of its gaps. */
  lemma EveryEventIsAccountedFor(capacity: nat, steps: seq<Step>, i: nat)
    requires CanRun(Boot(capacity), steps) && i < |Run(Boot(capacity), steps).subs|
    ensures var s := Run(Boot(capacity), steps);
            var sub := s.subs[i];
            && Accounts(s.log, sub.start, sub.items, sub.cursor - Unreported(sub))
            && sub.cursor <= |s.log|
            && Delivered(sub.items) + GapTotal(sub.items) + Unreported(sub) + (|s.log| - sub.cursor) == |s.log| - sub.start
            && s.dropped == AllDropped(s.subs)
            && (sub.phase.Ready? ==> DroppedBy(sub) == GapTotal(sub.items))
  {
    AccountedRun(Boot(capacity), steps);
    var s := Run(Boot(capacity), steps);
    assert SubOk(s.log, s.subs[i]);
    AccountsAddUp(s.log, s.subs[i].start, s.subs[i].items, s.subs[i].cursor - Unreported(s.subs[i]));
  }

  /** Who has gone gets nothing more, whatever happens later. */
  lemma {:induction false} GoneStays(s: State, i: nat, steps: seq<Step>)
    requires i < |s.subs| && !s.subs[i].live && s.subs[i].phase.Ready? && CanRun(s, steps)
    ensures i < |Run(s, steps).subs| && Run(s, steps).subs[i] == s.subs[i]
    decreases |steps|
  {
    if steps != [] {
      GoneStays(Apply(s, steps[0]), i, steps[1..]);
    }
  }

  lemma UnsubscribedForGood(s: State, i: nat, later: seq<Step>)
    requires Enabled(s, Unsubscribe(i)) && CanRun(Apply(s, Unsubscribe(i)), later)
    ensures var s' := Run(Apply(s, Unsubscribe(i)), later); i < |s'.subs| && s'.subs[i] == s.subs[i].(live := false)
  {
    GoneStays(Apply(s, Unsubscribe(i)), i, later);
  }

  // ----- Ids -----

  function Ids(events: seq<Event>): seq<nat> {
    seq(|events|, i requires 0 <= i < |events| => events[i].id)
  }

  /** Every number handed out so far, wherever its event now is. */
  function HandedOut(s: State): seq<nat> {
    Ids(s.log) + Ids(s.discarded) + Ids(s.pending)
  }

  ghost predicate UsedOnce(s: State, id: nat) {
    Count(HandedOut(s), id) == if id < s.nextId then 1 else 0
  }

  lemma CountParts(s: State, id: nat)
    ensures Count(HandedOut(s), id) == Count(Ids(s.log), id) + Count(Ids(s.discarded), id) + Count(Ids(s.pending), id)
  {
    CountAppend(Ids(s.log) + Ids(s.discarded), Ids(s.pending), id);
    CountAppend(Ids(s.log), Ids(s.discarded), id);
  }

  lemma CountIdsNext(events: seq<Event>, e: Event, id: nat)
    ensures Count(Ids(events + [e]), id) == Count(Ids(events), id) + if e.id == id then 1 else 0
  {
    assert Ids(events + [e]) == Ids(events) + [e.id];
    CountNext(Ids(events), e.id, id);
  }

  lemma CountIdsWithout(events: seq<Event>, i: nat, id: nat)
    requires i < |events|
    ensures Count(Ids(events), id) == Count(Ids(Without(events, i)), id) + if events[i].id == id then 1 else 0
  {
    var front, back := Ids(events[..i]), Ids(events[i + 1..]);
    assert Ids(events) == front + [events[i].id] + back && Ids(Without(events, i)) == front + back;
    CountAppend(front + [events[i].id], back, id);
    CountNext(front, events[i].id, id);
    CountAppend(front, back, id);
  }

  lemma UsedOnceSent(s: State, e: Event, id: nat)
    ensures Count(HandedOut(Sent(s, e)), id) == Count(HandedOut(s), id) + if e.id == id then 1 else 0
  {
    CountParts(s, id);
    CountParts(Sent(s, e), id);
    CountIdsNext(s.log, e, id);
    CountIdsNext(s.discarded, e, id);
  }

  lemma UsedOnceStep(s: State, step: Step, id: nat)
    requires UsedOnce(s, id) && Enabled(s, step)
    ensures UsedOnce(Apply(s, step), id)
  {
    var s' := Apply(s, step);
    match step
    case Allocate(body) =>
      CountParts(s, id);
      CountParts(s', id);
      CountIdsNext(s.pending, Event(s.nextId, body), id);
    case Send(i) =>
      var rest := s.(pending := Without(s.pending, i));
      CountParts(s, id);
      CountParts(rest, id);
      CountIdsWithout(s.pending, i, id);
      UsedOnceSent(rest, s.pending[i], id);
    case Emit(body) => UsedOnceSent(s.(nextId := s.nextId + 1), Event(s.nextId, body), id);
    case _ =>
  }

  lemma {:induction false} UsedOnceRun(s: State, steps: seq<Step>, id: nat)
    requires UsedOnce(s, id) && CanRun(s, steps)
    ensures UsedOnce(Run(s, steps), id)
    decreases |steps|
  {
    if steps != [] {
      UsedOnceStep(s, steps[0], id);
      UsedOnceRun(Apply(s, steps[0]), steps[1..], id);
    }
  }

  /** For every interleaving of emitters and subscribers, the ids given to emitted events are exactly the first `nextId`
      numbers, each given once. */
  lemma EveryIdIsUsedOnce(capacity: nat, steps: seq<Step>, id: nat)
    requires CanRun(Boot(capacity), steps)
    ensures var s := Run(Boot(capacity), steps); Count(HandedOut(s), id) == if id < s.nextId then 1 else 0
  {
    UsedOnceRun(Boot(capacity), steps, id);
  }

  // ----- A receive in one go -----

  /** What one receive yields and where the cursor goes, when nothing comes in between its steps. */
  function Receive(log: seq<Event>, capacity: nat, nextId: nat, cursor: nat): (Item, nat)
    requires cursor < |log| && capacity > 0
  {
    if |log| - cursor <= capacity then (Got(log[cursor]), cursor + 1)
    else (Gap(nextId, |log| - capacity - cursor), |log| - capacity)
  }

  function Lost(item: Item): nat {
    if item.Gap? then item.dropped else 0
  }

  lemma ReceiveIsItsSteps(s: State, i: nat)
    requires Enabled(s, Recv(i))
    ensures
      var s1 := Apply(s, Recv(i));
      var s' := if s1.subs[i].phase.Ready? then s1 else Apply(Apply(s1, CountLag(i)), Stamp(i));
      var (item, cursor) := Receive(s.log, s.capacity, s.nextId, s.subs[i].cursor);
      && s'.subs == s.subs[i := s.subs[i].(cursor := cursor, items := s.subs[i].items + [item])]
      && s' == s.(subs := s'.subs, dropped := s.dropped + Lost(item))
  {
  }

  // ----- The bus itself, over a ring -----

  lemma NoMultipleBetween(d: int, c: nat)
    requires c > 0
    ensures d * c <= 0 || d * c >= c
  {
    if d >= 1 { assert (d - 1) * c >= 0; }
  }

  /** Positions less than a ring apart use different slots. */
  lemma SlotsApart(i: nat, j: nat, capacity: nat)
    requires capacity > 0 && i < j < i + capacity
    ensures i % capacity != j % capacity
  {
    var qi, qj := i / capacity, j / capacity;
    NoMultipleBetween(qj - qi, capacity);
    assert (qj - qi) * capacity == qj * capacity - qi * capacity;
    assert i == qi * capacity + i % capacity && j == qj * capacity + j % capacity;
  }

  class BroadcastBus {
    const slots: array<Event>
    var tail: nat                   // events stored so far
    var cursors: map<nat, nat>      // one per live receiver
    var nextId: nat
    var dropped: nat
    ghost var log: seq<Event>

    /** The ring holds the last `slots.Length` events of the log. */
    ghost predicate Valid()
      reads this, slots
    {
      && slots.Length > 0 && tail == |log|
      && (forall i :: 0 <= i < |log| && |log| - slots.Length <= i ==> slots[i % slots.Length] == log[i])
      && (forall r :: r in cursors ==> cursors[r] <= tail)
    }

    constructor (capacity: nat)
      requires capacity > 0
      ensures Valid() && fresh(slots) && slots.Length == capacity
      ensures log == [] && cursors == map[] && nextId == 0 && dropped == 0
    {
      slots := new Event[capacity](_ => Event(0, ""));
      tail, cursors, nextId, dropped := 0, map[], 0, 0;
      log := [];
    }

    /** The first half of `emit`: take the next number. */
    method Allocate(body: string) returns (event: Event)
      requires Valid()
      modifies this`nextId
      ensures Valid() && nextId == old(nextId) + 1 && event == Event(old(nextId), body)
    {
      event := Event(nextId, body);
      nextId := nextId + 1;
    }

    /** The second half: store the event, unless nobody is subscribed. */
    method Send(event: Event)
      requires Valid()
      modifies this`tail, this`log, slots
      ensures Valid() && log == if cursors == map[] then old(log) else old(log) + [event]
    {
      if cursors == map[] {
        return;
      }
      forall i | 0 <= i < |log| && |log| + 1 - slots.Length <= i
        ensures i % slots.Length != tail % slots.Length
      {
        SlotsApart(i, tail, slots.Length);
      }
      slots[tail % slots.Length] := event;
      tail := tail + 1;
      log := log + [event];
    }

    method Emit(body: string)
      requires Valid()
      modifies this`nextId, this`tail, this`log, slots
      ensures Valid() && nextId == old(nextId) + 1
      ensures log == if cursors == map[] then old(log) else old(log) + [Event(old(nextId), body)]
    {
      var event := Allocate(body);
      Send(event);
    }

    /** A live tail: what was sent before is not replayed. */
    method Subscribe(r: nat)
      requires Valid() && r !in cursors
      modifies this`cursors
      ensures Valid() && cursors == old(cursors)[r := |log|]
    {
      cursors := cursors[r := tail];
    }

    method Unsubscribe(r: nat)
      requires Valid()
      modifies this`cursors
      ensures Valid() && cursors == old(cursors) - {r}
    {
      cursors := cursors - {r};
    }

    /** One item of a subscriber's stream, read from the ring; it agrees with reading the unbounded log. `waiting` when
        there is nothing to read yet. */
    method Recv(r: nat) returns (waiting: bool, item: Item)
      requires Valid() && r in cursors
      modifies this`cursors, this`dropped
      ensures Valid()
      ensures waiting <==> old(cursors[r]) == |log|
      ensures waiting ==> cursors == old(cursors) && dropped == old(dropped)
      ensures r in cursors
      ensures !waiting ==>
        (item, cursors[r]) == Receive(log, slots.Length, nextId, old(cursors[r])) &&
        cursors == old(cursors)[r := cursors[r]] && dropped == old(dropped) + Lost(item)
    {
      var cursor := cursors[r];
      item := Gap(0, 0);
      if cursor == tail {
        return true, item;
      }
      waiting := false;
      if tail - cursor <= slots.Length {
        item := Got(slots[cursor % slots.Length]);
        cursors := cursors[r := cursor + 1];
      } else {
        var oldest := tail - slots.Length;
        var missed := oldest - cursor;
        cursors := cursors[r := oldest];
        dropped := dropped + missed;
        item := Gap(nextId, missed);
      }
    }
  }
}
