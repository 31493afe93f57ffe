/** In which order the subscribers of the bus see its events, and what the ids of gaps say.

    Taking a number and sending the event are two steps (crates/core/src/bus.rs:116-121), and so are missing events and
    numbering the gap that reports them (crates/core/src/bus.rs:134-141). */
module BusOrder {
  import opened Bus

  // ----- Emitters that take turns -----

  predicate Ascending(events: seq<Event>) {
    forall i, j :: 0 <= i < j < |events| ==> events[i].id < events[j].id
  }

  /** The events stored, and after them those whose emitters have yet to send. */
  function InLine(s: State): seq<Event> {
    s.log + s.pending
  }

  /** An event that is stored overtakes no emitter that took its number before. Events sent while nobody is subscribed
      are not stored and cannot overtake. */
  predicate InTurn(s: State, step: Step) {
    AnyLive(s.subs) ==> (step.Send? ==> step.i == 0) && (step.Emit? ==> s.pending == [])
  }

  predicate BelowNext(events: seq<Event>, nextId: nat) {
    forall i :: 0 <= i < |events| ==> events[i].id < nextId
  }

  ghost predicate Orderly(s: State) {
    Ascending(InLine(s)) && BelowNext(InLine(s), s.nextId)
  }

  lemma AscendingAppend(events: seq<Event>, e: Event)
    requires Ascending(events) && BelowNext(events, e.id)
    ensures Ascending(events + [e]) && BelowNext(events + [e], e.id + 1)
  {
  }

  lemma AscendingWithout(events: seq<Event>, i: nat, nextId: nat)
    requires i < |events| && Ascending(events) && BelowNext(events, nextId)
    ensures Ascending(Without(events, i)) && BelowNext(Without(events, i), nextId)
  {
    var less := Without(events, i);
    forall j | 0 <= j < |less| ensures less[j] == events[if j < i then j else j + 1] {
    }
  }

  lemma OrderlyAppend(s: State, s': State, e: Event)
    requires Orderly(s) && e.id == s.nextId && s'.nextId == s.nextId + 1 && InLine(s') == InLine(s) + [e]
    ensures Orderly(s')
  {
    AscendingAppend(InLine(s), e);
  }

  lemma FirstMovesOver(log: seq<Event>, pending: seq<Event>)
    requires pending != []
    ensures log + [pending[0]] + Without(pending, 0) == log + pending
  {
  }

  lemma WithoutBehind(log: seq<Event>, pending: seq<Event>, i: nat)
    requires i < |pending|
    ensures log + Without(pending, i) == Without(log + pending, |log| + i)
  {
  }

  lemma OrderlySend(s: State, i: nat)
    requires Orderly(s) && Enabled(s, Send(i)) && InTurn(s, Send(i))
    ensures Orderly(Apply(s, Send(i)))
  {
    if AnyLive(s.subs) {
      FirstMovesOver(s.log, s.pending);
    } else {
      AscendingWithout(InLine(s), |s.log| + i, s.nextId);
      WithoutBehind(s.log, s.pending, i);
    }
  }

  lemma OrderlyStep(s: State, step: Step)
    requires Orderly(s) && Enabled(s, step) && InTurn(s, step)
    ensures Orderly(Apply(s, step))
  {
    var s' := Apply(s, step);
    if step.Send? {
      OrderlySend(s, step.i);
    } else if step.Allocate? || (step.Emit? && AnyLive(s.subs)) {
      assert InLine(s') == InLine(s) + [Event(s.nextId, step.body)];
      OrderlyAppend(s, s', Event(s.nextId, step.body));
    } else {
      assert InLine(s') == InLine(s);
    }
  }

  /** Some event has been stored before one with a smaller number that is stored later or still to be sent. */
  ghost predicate Overtaken(s: State) {
    !Ascending(s.log) || exists i, m :: 0 <= i < |s.log| && 0 <= m < |s.pending| && s.pending[m].id < s.log[i].id
  }

  lemma OvertakenIsDisorder(s: State)
    requires Overtaken(s)
    ensures !Ascending(InLine(s))
  {
    if Ascending(s.log) {
      var i, m :| 0 <= i < |s.log| && 0 <= m < |s.pending| && s.pending[m].id < s.log[i].id;
      assert InLine(s)[i] == s.log[i] && InLine(s)[|s.log| + m] == s.pending[m];
    } else {
      var j, k :| 0 <= j < k < |s.log| && s.log[j].id >= s.log[k].id;
      assert InLine(s)[j] == s.log[j] && InLine(s)[k] == s.log[k];
    }
  }

  lemma OutOfTurnOvertakes(s: State, step: Step)
    requires Orderly(s) && Enabled(s, step) && !InTurn(s, step)
    ensures Overtaken(Apply(s, step))
  {
    var s', n, first := Apply(s, step), |s.log|, s.pending[0];
    assert InLine(s)[n] == first;
    if step.Send? {
      assert InLine(s)[n + step.i] == s.pending[step.i];
      assert s'.log[n] == s.pending[step.i] && s'.pending[0] == first;
    } else {
      assert s'.log[n].id == s.nextId && s'.pending[0] == first;
    }
  }

  lemma OvertakenSent(s: State, i: nat)
    requires Overtaken(s) && AnyLive(s.subs) && i < |s.pending|
    ensures Overtaken(Apply(s, Send(i)))
  {
    var s' := Apply(s, Send(i));
    assert s'.log == s.log + [s.pending[i]] && s'.pending == Without(s.pending, i);
    if Ascending(s.log) {
      var j, m :| 0 <= j < |s.log| && 0 <= m < |s.pending| && s.pending[m].id < s.log[j].id;
      assert s'.log[j] == s.log[j];
      if m == i {
        assert s'.log[|s.log|] == s.pending[m];
      } else {
        assert s'.pending[if m < i then m else m - 1] == s.pending[m];
      }
    } else {
      assert !Ascending(s'.log) by {
        var j, k :| 0 <= j < k < |s.log| && s.log[j].id >= s.log[k].id;
        assert s'.log[j] == s.log[j] && s'.log[k] == s.log[k];
      }
    }
  }

  lemma OvertakenEmitted(s: State, body: string)
    requires Overtaken(s) && AnyLive(s.subs)
    ensures Overtaken(Apply(s, Emit(body))) && Overtaken(Apply(s, Allocate(body)))
  {
    var s', s'' := Apply(s, Emit(body)), Apply(s, Allocate(body));
    assert forall j :: 0 <= j < |s.log| ==> s'.log[j] == s.log[j];
    assert forall m :: 0 <= m < |s.pending| ==> s''.pending[m] == s.pending[m];
    if !Ascending(s.log) {
      var j, k :| 0 <= j < k < |s.log| && s.log[j].id >= s.log[k].id;
      assert s'.log[j].id >= s'.log[k].id;
    }
  }

  /** As long as somebody is subscribed, an event that was overtaken stays overtaken. */
  lemma OvertakenStays(s: State, step: Step)
    requires Overtaken(s) && AnyLive(s.subs) && Enabled(s, step)
    ensures Overtaken(Apply(s, step))
  {
    match step
    case Send(i) => OvertakenSent(s, i);
    case Emit(body) => OvertakenEmitted(s, body);
    case Allocate(body) => OvertakenEmitted(s, body);
    case _ =>
  }

  ghost predicate AlwaysInTurn(s: State, steps: seq<Step>)
    requires CanRun(s, steps)
    decreases |steps|
  {
    steps != [] ==> InTurn(s, steps[0]) && AlwaysInTurn(Apply(s, steps[0]), steps[1..])
  }

  /** Events stored and events to be sent ascend, at every moment of the run. */
  ghost predicate AlwaysInLine(s: State, steps: seq<Step>)
    requires CanRun(s, steps)
    decreases |steps|
  {
    Ascending(InLine(s)) && (steps != [] ==> AlwaysInLine(Apply(s, steps[0]), steps[1..]))
  }

  ghost predicate AlwaysLive(s: State, steps: seq<Step>)
    requires CanRun(s, steps)
    decreases |steps|
  {
    AnyLive(s.subs) && (steps != [] ==> AlwaysLive(Apply(s, steps[0]), steps[1..]))
  }

  lemma {:induction false} InLineExactlyInTurn(s: State, steps: seq<Step>)
    requires Orderly(s) && CanRun(s, steps)
    ensures AlwaysInLine(s, steps) <==> AlwaysInTurn(s, steps)
    decreases |steps|
  {
    if steps != [] {
      if InTurn(s, steps[0]) {
        OrderlyStep(s, steps[0]);
        InLineExactlyInTurn(Apply(s, steps[0]), steps[1..]);
      } else {
        OutOfTurnOvertakes(s, steps[0]);
        OvertakenIsDisorder(Apply(s, steps[0]));
      }
    }
  }

  /** For every run of any emitters and subscribers: at every moment the events stored, and after them those still to be
      sent, are in the order of their ids, exactly when no event that is stored overtakes an emitter that took its number
      before. */
  lemma DeliveryOrderIsIdOrder(capacity: nat, steps: seq<Step>)
    requires CanRun(Boot(capacity), steps)
    ensures AlwaysInLine(Boot(capacity), steps) <==> AlwaysInTurn(Boot(capacity), steps)
  {
    InLineExactlyInTurn(Boot(capacity), steps);
  }

  lemma {:induction false} OvertakenToTheEnd(s: State, steps: seq<Step>)
    requires Overtaken(s) && CanRun(s, steps) && AlwaysLive(s, steps)
    ensures Overtaken(Run(s, steps))
    decreases |steps|
  {
    if steps != [] {
      OvertakenStays(s, steps[0]);
      OvertakenToTheEnd(Apply(s, steps[0]), steps[1..]);
    }
  }

  lemma {:induction false} EndsInLineExactlyInTurn(s: State, steps: seq<Step>)
    requires Orderly(s) && CanRun(s, steps) && AlwaysLive(s, steps)
    ensures Ascending(InLine(Run(s, steps))) <==> AlwaysInTurn(s, steps)
    decreases |steps|
  {
    if steps != [] {
      var s' := Apply(s, steps[0]);
      if InTurn(s, steps[0]) {
        OrderlyStep(s, steps[0]);
        EndsInLineExactlyInTurn(s', steps[1..]);
      } else {
        OutOfTurnOvertakes(s, steps[0]);
        OvertakenToTheEnd(s', steps[1..]);
        OvertakenIsDisorder(Run(s', steps[1..]));
      }
    }
  }

  /** With somebody subscribed throughout and every numbered event sent in the end, the order can be read off the log
      alone: its ids ascend exactly when every event was sent in its turn. */
  lemma LogAscendsIff(capacity: nat, steps: seq<Step>)
    requires CanRun(Apply(Boot(capacity), Subscribe), steps) && AlwaysLive(Apply(Boot(capacity), Subscribe), steps)
    requires Run(Apply(Boot(capacity), Subscribe), steps).pending == []
    ensures Ascending(Run(Apply(Boot(capacity), Subscribe), steps).log) <==>
      AlwaysInTurn(Apply(Boot(capacity), Subscribe), steps)
  {
    var s1 := Apply(Boot(capacity), Subscribe);
    EndsInLineExactlyInTurn(s1, steps);
    assert InLine(Run(s1, steps)) == Run(s1, steps).log;
  }

  /** The events among some items. */
  function Events(items: seq<Item>): seq<Event> {
    if items == [] then []
    else
      var last := items[|items| - 1];
      Events(items[..|items| - 1]) + if last.Got? then [last.event] else []
  }

  lemma {:induction false} EventsAscend(log: seq<Event>, start: nat, items: seq<Item>, end: int)
    requires Accounts(log, start, items, end) && Ascending(log)
    ensures Ascending(Events(items))
    ensures forall i, p :: 0 <= i < |Events(items)| && end <= p < |log| ==> Events(items)[i].id < log[p].id
    decreases |items|
  {
    if items != [] {
      var init, last := items[..|items| - 1], items[|items| - 1];
      EventsAscend(log, start, init, if last.Got? then end - 1 else end - last.dropped);
    }
  }

  /** Whoever subscribes to a run in turn sees ids ascend, however much it misses. */
  lemma InTurnSubscribersSeeOrder(capacity: nat, steps: seq<Step>, i: nat)
    requires CanRun(Boot(capacity), steps) && AlwaysInTurn(Boot(capacity), steps) && i < |Run(Boot(capacity), steps).subs|
    ensures Ascending(Events(Run(Boot(capacity), steps).subs[i].items))
  {
    var s := Run(Boot(capacity), steps);
    AccountedRun(Boot(capacity), steps);
    OrderlyRun(Boot(capacity), steps);
    assert SubOk(s.log, s.subs[i]);
    assert forall j :: 0 <= j < |s.log| ==> InLine(s)[j] == s.log[j];
    EventsAscend(s.log, s.subs[i].start, s.subs[i].items, s.subs[i].cursor - Unreported(s.subs[i]));
  }

  lemma {:induction false} OrderlyRun(s: State, steps: seq<Step>)
    requires Orderly(s) && CanRun(s, steps) && AlwaysInTurn(s, steps)
    ensures Orderly(Run(s, steps))
    decreases |steps|
  {
    if steps != [] {
      OrderlyStep(s, steps[0]);
      OrderlyRun(Apply(s, steps[0]), steps[1..]);
    }
  }

  lemma {:induction false} EventsAreTheLog(log: seq<Event>, items: seq<Item>, end: int)
    requires Accounts(log, 0, items, end) && GapTotal(items) == 0
    ensures 0 <= end <= |log| && Events(items) == log[..end]
    decreases |items|
  {
    if items != [] {
      var init, last := items[..|items| - 1], items[|items| - 1];
      EventsAreTheLog(log, init, if last.Got? then end - 1 else end);
      assert last.Got? ==> log[..end] == log[..end - 1] + [log[end - 1]];
    }
  }

  /** A subscriber that was there from the start, has taken everything and missed nothing. */
  ghost predicate SawAll(s: State, i: nat) {
    && i < |s.subs| && s.subs[i].start == 0 && s.subs[i].phase.Ready? && s.subs[i].cursor == |s.log|
    && GapTotal(s.subs[i].items) == 0
  }

  lemma SawTheLog(s: State, i: nat)
    requires Accounted(s) && SawAll(s, i)
    ensures Events(s.subs[i].items) == s.log
  {
    assert SubOk(s.log, s.subs[i]);
    EventsAreTheLog(s.log, s.subs[i].items, |s.log|);
    assert s.log[..|s.log|] == s.log;
  }

  /** Such a subscriber has seen ids ascend exactly when every event was sent in its turn. */
  lemma SubscriberSeesOrderIff(capacity: nat, steps: seq<Step>, i: nat)
    requires CanRun(Apply(Boot(capacity), Subscribe), steps) && AlwaysLive(Apply(Boot(capacity), Subscribe), steps)
    requires Run(Apply(Boot(capacity), Subscribe), steps).pending == []
    requires SawAll(Run(Apply(Boot(capacity), Subscribe), steps), i)
    ensures Ascending(Events(Run(Apply(Boot(capacity), Subscribe), steps).subs[i].items)) <==>
      AlwaysInTurn(Apply(Boot(capacity), Subscribe), steps)
  {
    AccountedStep(Boot(capacity), Subscribe);
    AccountedRun(Apply(Boot(capacity), Subscribe), steps);
    SawTheLog(Run(Apply(Boot(capacity), Subscribe), steps), i);
    LogAscendsIff(capacity, steps);
  }

  /** Two emitters out of turn: their subscriber receives the second number first. */
  lemma UnserialisedEmittersCanSwap(capacity: nat, a: string, b: string)
    requires capacity >= 2
    ensures
      var s1 := Apply(Boot(capacity), Subscribe);
      var s3 := Apply(Apply(s1, Allocate(a)), Allocate(b));
      && Enabled(s3, Send(1)) && Enabled(Apply(s3, Send(1)), Send(0))
      && (var s5 := Apply(Apply(s3, Send(1)), Send(0));
          && Enabled(s5, Recv(0)) && Enabled(Apply(s5, Recv(0)), Recv(0))
          && Apply(Apply(s5, Recv(0)), Recv(0)).subs[0].items == [Got(Event(1, b)), Got(Event(0, a))])
  {
    var s1 := Apply(Boot(capacity), Subscribe);
    assert s1.subs[0].live;
    var s3 := Apply(Apply(s1, Allocate(a)), Allocate(b));
    assert s3.pending == [Event(0, a), Event(1, b)];
    var s4 := Apply(s3, Send(1));
    assert s4.pending == [Event(0, a)] && s4.log == [Event(1, b)] && s4.subs[0].live;
    var s5 := Apply(s4, Send(0));
    assert s5.log == [Event(1, b), Event(0, a)];
  }

  // ----- Serialised emitters -----

  predicate Serial(steps: seq<Step>) {
    forall i :: 0 <= i < |steps| ==> !steps[i].Allocate? && !steps[i].Send?
  }

  /** The items carry consecutive ids from `base` up to `end`, a gap standing for as many ids as it reports. */
  ghost predicate Consecutive(items: seq<Item>, base: int, end: int) {
    if items == [] then end == base
    else
      var init := items[..|items| - 1];
      match items[|items| - 1]
      case Got(e) => e.id == end - 1 && Consecutive(init, base, end - 1)
      case Gap(_, n) => Consecutive(init, base, end - n)
  }

  /** How far the log is known to carry consecutive ids from the subscription on. */
  function Horizon(log: seq<Event>, sub: Sub): nat {
    if sub.live then |log| else sub.cursor
  }

  ghost predicate SubNumbered(log: seq<Event>, nextId: nat, sub: Sub) {
    && sub.start <= sub.cursor <= Horizon(log, sub) <= |log|
    && (forall p :: sub.start <= p < Horizon(log, sub) ==> log[p].id == sub.base + p - sub.start)
    && (sub.live ==> nextId == sub.base + |log| - sub.start)
    && Consecutive(sub.items, sub.base, sub.base + sub.cursor - Unreported(sub) - sub.start)
  }

  ghost predicate Numbered(s: State) {
    forall i :: 0 <= i < |s.subs| ==> SubNumbered(s.log, s.nextId, s.subs[i])
  }

  lemma NumberedReceived(log: seq<Event>, capacity: nat, nextId: nat, sub: Sub)
    requires SubNumbered(log, nextId, sub) && sub.live && sub.phase.Ready? && sub.cursor < |log| && capacity > 0
    ensures SubNumbered(log, nextId, Received(log, capacity, sub))
  {
    if |log| - sub.cursor <= capacity {
      OneMoreItem(sub.items, Got(log[sub.cursor]));
    }
  }

  lemma NumberedSub(s: State, step: Step)
    requires Enabled(s, step) && OwnStep(step) && SubNumbered(s.log, s.nextId, s.subs[step.sub])
    ensures SubNumbered(s.log, s.nextId, Apply(s, step).subs[step.sub])
  {
    var sub := s.subs[step.sub];
    if step.Recv? {
      NumberedReceived(s.log, s.capacity, s.nextId, sub);
    } else if step.Stamp? {
      OneMoreItem(sub.items, Gap(s.nextId, sub.phase.missed));
    }
  }

  lemma NumberedStep(s: State, step: Step)
    requires Numbered(s) && Enabled(s, step) && !step.Allocate? && !step.Send?
    ensures Numbered(Apply(s, step))
  {
    var s' := Apply(s, step);
    if OwnStep(step) {
      NumberedSub(s, step);
    }
    forall i | 0 <= i < |s'.subs| ensures SubNumbered(s'.log, s'.nextId, s'.subs[i]) {
      if i < |s.subs| {
        assert SubNumbered(s.log, s.nextId, s.subs[i]);
        assert s.subs[i].live ==> AnyLive(s.subs);
      }
    }
  }

  lemma {:induction false} NumberedRun(s: State, steps: seq<Step>)
    requires Numbered(s) && CanRun(s, steps) && Serial(steps)
    ensures Numbered(Run(s, steps))
    decreases |steps|
  {
    if steps != [] {
      NumberedStep(s, steps[0]);
      NumberedRun(Apply(s, steps[0]), steps[1..]);
    }
  }

  /** When emits are serialised, every subscriber sees the ids of its events ascend without a jump, except across a gap,
      where they jump by exactly the number of events the gap reports. */
  lemma SerialSubscribersSeeEveryId(capacity: nat, steps: seq<Step>, i: nat)
    requires CanRun(Boot(capacity), steps) && Serial(steps) && i < |Run(Boot(capacity), steps).subs|
    ensures var sub := Run(Boot(capacity), steps).subs[i];
            Consecutive(sub.items, sub.base, sub.base + sub.cursor - Unreported(sub) - sub.start)
  {
    NumberedRun(Boot(capacity), steps);
    var s := Run(Boot(capacity), steps);
    assert SubNumbered(s.log, s.nextId, s.subs[i]);
  }

  // ----- The ids that gaps carry -----

  function IdOf(item: Item): nat {
    match item
    case Got(e) => e.id
    case Gap(id, _) => id
  }

  /** How the ids of two items that follow each other compare. */
  predicate PairOk(capacity: nat, a: Item, b: Item) {
    match (a, b)
    case (Got(e), Got(f)) => f.id == e.id + 1
    case (Got(e), Gap(id, _)) => e.id < id
    case (Gap(id, _), Got(f)) => f.id + capacity == id
    case (Gap(id, _), Gap(id', _)) => id <= id'
  }

  ghost predicate PairsOk(capacity: nat, items: seq<Item>) {
    forall i :: 0 < i < |items| ==> PairOk(capacity, items[i - 1], items[i])
  }

  /** What is known of the last item: its id is behind the next one, and, if it is a gap, the next id is no further ahead
      of it than the backlog is over the capacity. */
  predicate LastOk(s: State, sub: Sub, last: Item) {
    match last
    case Got(e) => e.id < s.nextId && (sub.live && sub.phase.Ready? ==> e.id + 1 == sub.base + sub.cursor - sub.start)
    case Gap(id, _) =>
      id <= s.nextId && (sub.live && sub.phase.Ready? ==> s.nextId - id <= |s.log| - sub.cursor - s.capacity)
  }

  ghost predicate Tidy(s: State, sub: Sub) {
    && SubNumbered(s.log, s.nextId, sub) && PairsOk(s.capacity, sub.items)
    && (sub.items != [] ==> LastOk(s, sub, sub.items[|sub.items| - 1]))
    && (sub.live && !sub.phase.Ready? ==> |s.log| - sub.cursor >= s.capacity)
    && (!sub.live ==> sub.phase.Ready?)
  }

  lemma PairsAppend(capacity: nat, items: seq<Item>, item: Item)
    requires PairsOk(capacity, items) && (items != [] ==> PairOk(capacity, items[|items| - 1], item))
    ensures PairsOk(capacity, items + [item])
  {
    var items' := items + [item];
    forall i | 0 < i < |items'| ensures PairOk(capacity, items'[i - 1], items'[i]) {
      if i < |items| {
        assert PairOk(capacity, items[i - 1], items[i]);
      }
    }
  }

  lemma TidyRecv(s: State, i: nat)
    requires Enabled(s, Recv(i)) && Tidy(s, s.subs[i]) && SubNumbered(s.log, s.nextId, Apply(s, Recv(i)).subs[i])
    ensures Tidy(Apply(s, Recv(i)), Apply(s, Recv(i)).subs[i])
  {
    var sub := s.subs[i];
    if |s.log| - sub.cursor <= s.capacity {
      assert s.log[sub.cursor].id == sub.base + sub.cursor - sub.start;
      PairsAppend(s.capacity, sub.items, Got(s.log[sub.cursor]));
    }
  }

  lemma TidyStamp(s: State, i: nat)
    requires Enabled(s, Stamp(i)) && Tidy(s, s.subs[i]) && SubNumbered(s.log, s.nextId, Apply(s, Stamp(i)).subs[i])
    ensures Tidy(Apply(s, Stamp(i)), Apply(s, Stamp(i)).subs[i])
  {
    PairsAppend(s.capacity, s.subs[i].items, Gap(s.nextId, s.subs[i].phase.missed));
  }

  /** A subscriber that does nothing while the others do, or while events are emitted. */
  lemma TidyStays(s: State, s': State, sub: Sub)
    requires Tidy(s, sub) && SubNumbered(s'.log, s'.nextId, sub) && s'.capacity == s.capacity
    requires s'.nextId >= s.nextId && |s'.log| >= |s.log|
    requires sub.live ==> s'.nextId - s.nextId == |s'.log| - |s.log|
    ensures Tidy(s', sub)
  {
  }

  ghost predicate AllTidy(s: State) {
    forall i :: 0 <= i < |s.subs| ==> Tidy(s, s.subs[i])
  }

  lemma TidyStep(s: State, step: Step)
    requires AllTidy(s) && Enabled(s, step) && !step.Allocate? && !step.Send?
    ensures AllTidy(Apply(s, step))
  {
    var s' := Apply(s, step);
    assert Numbered(s) by {
      assert forall i :: 0 <= i < |s.subs| ==> Tidy(s, s.subs[i]);
    }
    NumberedStep(s, step);
    forall i | 0 <= i < |s'.subs| ensures Tidy(s', s'.subs[i]) {
      if i < |s.subs| {
        assert Tidy(s, s.subs[i]);
      }
      assert SubNumbered(s'.log, s'.nextId, s'.subs[i]);
      if OwnStep(step) && step.sub == i {
        TidyOwn(s, step);
      } else if i < |s.subs| {
        assert s.subs[i].live ==> AnyLive(s.subs);
        TidyStays(s, s', s.subs[i]);
      }
    }
  }

  lemma TidyOwn(s: State, step: Step)
    requires Enabled(s, step) && OwnStep(step) && Tidy(s, s.subs[step.sub])
    requires SubNumbered(s.log, s.nextId, Apply(s, step).subs[step.sub])
    ensures Tidy(Apply(s, step), Apply(s, step).subs[step.sub])
  {
    match step
    case Recv(i) => TidyRecv(s, i);
    case Stamp(i) => TidyStamp(s, i);
    case CountLag(_) =>
    case Unsubscribe(_) =>
  }

  lemma {:induction false} TidyRun(s: State, steps: seq<Step>)
    requires AllTidy(s) && CanRun(s, steps) && Serial(steps)
    ensures AllTidy(Run(s, steps))
    ensures Run(s, steps).capacity == s.capacity
    decreases |steps|
  {
    if steps != [] {
      TidyStep(s, steps[0]);
      TidyRun(Apply(s, steps[0]), steps[1..]);
    }
  }

  /** In every run with serialised emitters, for every subscriber: the event after a gap has an id smaller than the gap's
      by exactly the capacity, and in every other case ids do not go down. */
  lemma GapIdsRunAhead(capacity: nat, steps: seq<Step>, i: nat, k: nat)
    requires CanRun(Boot(capacity), steps) && Serial(steps) && i < |Run(Boot(capacity), steps).subs|
    requires 0 < k < |Run(Boot(capacity), steps).subs[i].items|
    ensures var items := Run(Boot(capacity), steps).subs[i].items;
            if items[k - 1].Gap? && items[k].Got? then IdOf(items[k]) + capacity == IdOf(items[k - 1])
            else IdOf(items[k - 1]) <= IdOf(items[k])
  {
    TidyRun(Boot(capacity), steps);
    var s := Run(Boot(capacity), steps);
    assert Tidy(s, s.subs[i]);
    assert PairOk(capacity, s.subs[i].items[k - 1], s.subs[i].items[k]);
  }

  /** No id is smaller than the one before it. */
  ghost predicate NeverBack(items: seq<Item>) {
    forall k :: 0 < k < |items| ==> IdOf(items[k - 1]) <= IdOf(items[k])
  }

  ghost predicate EventAfterGap(items: seq<Item>) {
    exists k :: 0 < k < |items| && items[k - 1].Gap? && items[k].Got?
  }

  /** So the whole stream of a subscriber, gap ids included, goes up exactly when no gap is followed by an event. */
  lemma StreamGoesUpIff(capacity: nat, steps: seq<Step>, i: nat)
    requires capacity > 0
    requires CanRun(Boot(capacity), steps) && Serial(steps) && i < |Run(Boot(capacity), steps).subs|
    ensures var items := Run(Boot(capacity), steps).subs[i].items; NeverBack(items) <==> !EventAfterGap(items)
  {
    var items := Run(Boot(capacity), steps).subs[i].items;
    forall k | 0 < k < |items|
      ensures IdOf(items[k - 1]) <= IdOf(items[k]) <==> !(items[k - 1].Gap? && items[k].Got?)
    {
      GapIdsRunAhead(capacity, steps, i, k);
    }
  }

  /** A gap's id is not its own: the next event emitted gets the same one. */
  lemma NextEventTakesTheGapId(s: State, i: nat, body: string)
    requires Enabled(s, Stamp(i))
    ensures var s1 := Apply(s, Stamp(i));
            var gap := s1.subs[i].items[|s1.subs[i].items| - 1];
            gap.Gap? && (AnyLive(s.subs) ==> var s2 := Apply(s1, Emit(body)); s2.log == s.log + [Event(gap.id, body)])
  {
    var s1 := Apply(s, Stamp(i));
    if AnyLive(s.subs) {
      var j :| 0 <= j < |s.subs| && s.subs[j].live;
      assert s1.subs[j].live;
    }
  }
}
