/** The frame loop of one connection (crates/ws/src/conn.rs). */
module Conns {
  import opened Hubs

  const CLOSE_CODE := 1001

  datatype Frame = TextFrame(body: string) | CloseFrame(code: nat, reason: string)

  /** A frame from the client. `InPing` stands for pings and pongs alike; `InError` is a read that failed. */
  datatype Inbound = InText(body: string) | InBinary(bytes: nat) | InPing | InClose | InError

  predicate Ends(frame: Inbound) {
    frame.InClose? || frame.InError?
  }

  /** What becomes available before one turn of the loop: pushes by the hub, frames from the client, and the ends of
      either side. */
  datatype Arrival = Arrival(pushed: seq<Outbound>, received: seq<Inbound>, hubGone: bool, clientGone: bool)

  /** How the loop ended: after writing a Close, on a text it could not write, with nothing waiting and the hub gone, on
      the end of the client's stream, or on a Close or a failed read from the client; or the arrivals ran out first. */
  datatype Ending = ClosedByServer | WriteFailed | HubGone | ClientGone | ClientClosed | StillOpen

  function FrameOf(o: Outbound): Frame {
    match o
    case Text(body) => TextFrame(body)
    case Close(reason) => CloseFrame(CLOSE_CODE, reason)
  }

  function Frames(os: seq<Outbound>): seq<Frame> {
    seq(|os|, i requires 0 <= i < |os| => FrameOf(os[i]))
  }

  /** Everything the hub has pushed in the first turns. */
  function Pushed(arrivals: seq<Arrival>): seq<Outbound> {
    if arrivals == [] then [] else Pushed(arrivals[..|arrivals| - 1]) + arrivals[|arrivals| - 1].pushed
  }

  predicate NoClose(os: seq<Outbound>) {
    forall i :: 0 <= i < |os| ==> os[i].Text?
  }

  lemma PushedNext(arrivals: seq<Arrival>, k: nat)
    requires k < |arrivals|
    ensures Pushed(arrivals[..k + 1]) == Pushed(arrivals[..k]) + arrivals[k].pushed
  {
    assert arrivals[..k + 1][..k] == arrivals[..k];
  }

  lemma {:induction false} PushedGrows(arrivals: seq<Arrival>, k: nat)
    requires k <= |arrivals|
    ensures Pushed(arrivals[..k]) <= Pushed(arrivals)
    decreases |arrivals| - k
  {
    if k == |arrivals| {
      assert arrivals[..k] == arrivals;
    } else {
      PushedNext(arrivals, k);
      PushedGrows(arrivals, k + 1);
    }
  }

  /** Where the loop stands: of everything seen on the channel, the first `taken` were texts and have been written, and
      the rest is waiting. */
  ghost predicate Standing(seen: seq<Outbound>, taken: nat, waiting: seq<Outbound>, written: seq<Frame>) {
    taken <= |seen| && waiting == seen[taken..] && NoClose(seen[..taken]) && written == Frames(seen[..taken])
  }

  lemma StandingArrival(seen: seq<Outbound>, taken: nat, waiting: seq<Outbound>, written: seq<Frame>, pushed: seq<Outbound>)
    requires Standing(seen, taken, waiting, written)
    ensures Standing(seen + pushed, taken, waiting + pushed, written)
    ensures waiting + pushed == [] ==> NoClose(seen + pushed)
  {
    assert (seen + pushed)[..taken] == seen[..taken];
    assert (seen + pushed)[taken..] == seen[taken..] + pushed;
  }

  lemma StandingTake(seen: seq<Outbound>, taken: nat, waiting: seq<Outbound>, written: seq<Frame>)
    requires Standing(seen, taken, waiting, written) && waiting != []
    ensures taken < |seen| && waiting[0] == seen[taken]
    ensures Frames(seen[..taken + 1]) == written + [FrameOf(seen[taken])]
    ensures seen[taken].Text? ==> Standing(seen, taken + 1, waiting[1..], written + [FrameOf(seen[taken])]) && NoClose(seen[..taken + 1])
  {
    assert seen[..taken + 1] == seen[..taken] + [seen[taken]];
    assert waiting[1..] == seen[taken + 1..];
  }

  ghost predicate AllSent(sinkOk: nat -> bool, n: nat) {
    forall i: nat :: i < n ==> sinkOk(i)
  }

  /** What the loop has done by the time it ends. `sinkOk(n)` tells whether the n-th frame could still be written. What
      is written is the channel's content from the front, frame by frame; all that was taken is written unless the last
      frame could not be; and a Close, if there is one, is the last thing taken. */
  ghost predicate Pumped(sinkOk: nat -> bool, ending: Ending, written: seq<Frame>, seen: seq<Outbound>, taken: nat) {
    && taken <= |seen|
    && written <= Frames(seen[..taken]) && AllSent(sinkOk, |written|)
    && (if |written| < taken then taken == |written| + 1 && !sinkOk(|written|) && (ending == WriteFailed || ending == ClosedByServer)
        else ending != WriteFailed)
    && (if ending == ClosedByServer then taken > 0 && seen[taken - 1].Close? && NoClose(seen[..taken - 1])
        else NoClose(seen[..taken]))
  }

  lemma StandingIsPumped(sinkOk: nat -> bool, ending: Ending, seen: seq<Outbound>, taken: nat, waiting: seq<Outbound>, written: seq<Frame>)
    requires Standing(seen, taken, waiting, written) && AllSent(sinkOk, |written|)
    requires ending != ClosedByServer && ending != WriteFailed
    ensures Pumped(sinkOk, ending, written, seen, taken)
  {
  }

  lemma LastTakeIsPumped(sinkOk: nat -> bool, seen: seq<Outbound>, taken: nat, waiting: seq<Outbound>, written: seq<Frame>)
    requires Standing(seen, taken, waiting, written) && waiting != [] && AllSent(sinkOk, |written|)
    ensures waiting[0].Close? && sinkOk(|written|) ==>
      Pumped(sinkOk, ClosedByServer, written + [FrameOf(waiting[0])], seen, taken + 1)
    ensures waiting[0].Close? && !sinkOk(|written|) ==> Pumped(sinkOk, ClosedByServer, written, seen, taken + 1)
    ensures waiting[0].Text? && !sinkOk(|written|) ==> Pumped(sinkOk, WriteFailed, written, seen, taken + 1)
  {
    StandingTake(seen, taken, waiting, written);
  }

  function Received(arrivals: seq<Arrival>): seq<Inbound> {
    if arrivals == [] then [] else Received(arrivals[..|arrivals| - 1]) + arrivals[|arrivals| - 1].received
  }

  /** The texts among some inbound frames, in order. */
  function Bodies(inbound: seq<Inbound>): seq<string> {
    if inbound == [] then []
    else
      var last := inbound[|inbound| - 1];
      Bodies(inbound[..|inbound| - 1]) + if last.InText? then [last.body] else []
  }

  /** The first `handled` inbound frames have been dealt with, their texts published, and the rest is in the inbox. */
  ghost predicate Handling(received: seq<Inbound>, handled: nat, inbox: seq<Inbound>, published: seq<string>) {
    handled <= |received| && inbox == received[handled..] && published == Bodies(received[..handled])
  }

  lemma HandlingArrival(received: seq<Inbound>, handled: nat, inbox: seq<Inbound>, published: seq<string>, more: seq<Inbound>)
    requires Handling(received, handled, inbox, published)
    ensures Handling(received + more, handled, inbox + more, published)
  {
    assert (received + more)[..handled] == received[..handled];
  }

  lemma PrefixesGrow(arrivals: seq<Arrival>, k: nat)
    requires k < |arrivals|
    ensures Pushed(arrivals[..k + 1]) == Pushed(arrivals[..k]) + arrivals[k].pushed
    ensures Received(arrivals[..k + 1]) == Received(arrivals[..k]) + arrivals[k].received
    ensures Pushed(arrivals[..k + 1]) <= Pushed(arrivals)
  {
    assert arrivals[..k + 1][..k] == arrivals[..k];
    PushedGrows(arrivals, k + 1);
  }

  // ----- Which turn does what, and why the loop ends -----

  ghost predicate SomeHubGone(arrivals: seq<Arrival>, k: nat) {
    exists i :: 0 <= i < |arrivals| && i < k && arrivals[i].hubGone
  }

  ghost predicate SomeClientGone(arrivals: seq<Arrival>, k: nat) {
    exists i :: 0 <= i < |arrivals| && i < k && arrivals[i].clientGone
  }

  /** In the j-th idle turn, everything pushed and everything received so far had been dealt with in as many turns, and
      neither side was gone. */
  ghost predicate Idles(arrivals: seq<Arrival>, idle: seq<nat>) {
    forall j :: 0 <= j < |idle| ==> IdleAt(arrivals, j, idle[j])
  }

  ghost predicate IdleAt(arrivals: seq<Arrival>, j: nat, turn: nat) {
    && turn < |arrivals| && turn - j == |Pushed(arrivals[..turn + 1])| + |Received(arrivals[..turn + 1])|
    && !SomeHubGone(arrivals, turn + 1) && !SomeClientGone(arrivals, turn + 1)
  }

  /** A turn in which an inbound frame was handled, after so many idle ones. */
  datatype Handled = Handled(turn: nat, idled: nat)

  /** The i-th inbound frame was handled in a turn by which everything pushed had been taken, since all the turns before
      it were takes, the i frames before it, and the idle ones; no Close had been pushed, and the hub was there. */
  ghost predicate HandledAt(arrivals: seq<Arrival>, idle: seq<nat>, i: nat, e: Handled) {
    && e.turn < |arrivals| && e.idled <= |idle|
    && (forall j :: 0 <= j < |idle| ==> if j < e.idled then idle[j] < e.turn else e.turn < idle[j])
    && e.turn - i - e.idled == |Pushed(arrivals[..e.turn + 1])|
    && NoClose(Pushed(arrivals[..e.turn + 1])) && !SomeHubGone(arrivals, e.turn + 1)
  }

  ghost predicate HandledInTurn(arrivals: seq<Arrival>, idle: seq<nat>, turns: seq<Handled>) {
    forall i :: 0 <= i < |turns| ==> HandledAt(arrivals, idle, i, turns[i])
  }

  ghost predicate Past(turns: seq<Handled>, idle: seq<nat>, used: nat) {
    (forall i :: 0 <= i < |turns| ==> turns[i].turn < used) && (forall j :: 0 <= j < |idle| ==> idle[j] < used)
  }

  /** Every turn takes one outbound message, handles one inbound frame, finds nothing to do, or finds an end. */
  predicate EveryTurnCounts(used: nat, ending: Ending, taken: nat, handled: nat, idle: nat) {
    taken + handled + idle + (if ending == HubGone || ending == ClientGone then 1 else 0) == used
  }

  /** No inbound frame but possibly the last one handled was an end, and that one exactly when the client closed. */
  ghost predicate EndsLast(received: seq<Inbound>, handled: nat, ending: Ending) {
    && handled <= |received|
    && (forall i :: 0 <= i < handled && Ends(received[i]) ==> i == handled - 1 && ending == ClientClosed)
    && (ending == ClientClosed ==> handled > 0 && Ends(received[handled - 1]))
  }

  /** Both ends of the client's or the hub's side are only noticed with nothing left to deal with on that side; a client
      that ends is only noticed with nothing waiting to be written either. */
  ghost predicate Justified(arrivals: seq<Arrival>, used: nat, ending: Ending, drained: bool, read: bool) {
    match ending
    case HubGone => drained && SomeHubGone(arrivals, used)
    case ClientGone => drained && read && SomeClientGone(arrivals, used)
    case ClientClosed => drained
    case StillOpen => used == |arrivals|
    case ClosedByServer => true
    case WriteFailed => true
  }

  // ----- The loop -----

  /** What the loop holds between turns. */
  datatype Hands = Hands(waiting: seq<Outbound>, inbox: seq<Inbound>, written: seq<Frame>, published: seq<string>)

  /** What it has done so far: how much was taken of what the hub pushed, the turns in which an inbound frame was
      handled, and those in which there was nothing to do. */
  datatype Log = Log(taken: nat, turns: seq<Handled>, idle: seq<nat>)

  /** Under way after `used` turns, with the first `n` arrivals seen. */
  ghost predicate Going(arrivals: seq<Arrival>, n: nat, used: nat, sinkOk: nat -> bool, h: Hands, log: Log) {
    && n <= |arrivals|
    && Standing(Pushed(arrivals[..n]), log.taken, h.waiting, h.written) && AllSent(sinkOk, |h.written|)
    && Handling(Received(arrivals[..n]), |log.turns|, h.inbox, h.published)
    && EndsLast(Received(arrivals[..n]), |log.turns|, StillOpen)
    && HandledInTurn(arrivals, log.idle, log.turns) && Past(log.turns, log.idle, used)
    && EveryTurnCounts(used, StillOpen, log.taken, |log.turns|, |log.idle|) && Idles(arrivals, log.idle)
  }

  /** Ended after `used` turns. */
  ghost predicate Over(arrivals: seq<Arrival>, used: nat, sinkOk: nat -> bool, ending: Ending, written: seq<Frame>,
                       published: seq<string>, log: Log) {
    && used <= |arrivals|
    && Pumped(sinkOk, ending, written, Pushed(arrivals[..used]), log.taken)
    && HandledInTurn(arrivals, log.idle, log.turns) && Past(log.turns, log.idle, used)
    && EndsLast(Received(arrivals[..used]), |log.turns|, ending)
    && published == Bodies(Received(arrivals[..used])[..|log.turns|])
    && EveryTurnCounts(used, ending, log.taken, |log.turns|, |log.idle|) && Idles(arrivals, log.idle)
    && Justified(arrivals, used, ending, log.taken == |Pushed(arrivals[..used])|, |log.turns| == |Received(arrivals[..used])|)
  }

  ghost predicate LoopOk(arrivals: seq<Arrival>, k: nat, sinkOk: nat -> bool, ending: Ending, h: Hands, log: Log) {
    if ending == StillOpen then Going(arrivals, k, k, sinkOk, h, log)
    else Over(arrivals, k, sinkOk, ending, h.written, h.published, log)
  }

  /** One turn further: one more thing done, and nothing of what was done before or written before is changed. */
  ghost predicate OneTurnOn(h: Hands, log: Log, h': Hands, log': Log) {
    && log.taken <= log'.taken <= log.taken + 1 && log.turns <= log'.turns && log.idle <= log'.idle
    && (log'.taken - log.taken) + (|log'.turns| - |log.turns|) + (|log'.idle| - |log.idle|) <= 1
    && h.written <= h'.written && h.published <= h'.published
  }

  lemma GoingArrival(arrivals: seq<Arrival>, k: nat, sinkOk: nat -> bool, h: Hands, log: Log)
    requires k < |arrivals| && Going(arrivals, k, k, sinkOk, h, log)
    ensures Going(arrivals, k + 1, k, sinkOk,
                  h.(waiting := h.waiting + arrivals[k].pushed, inbox := h.inbox + arrivals[k].received), log)
  {
    PrefixesGrow(arrivals, k);
    StandingArrival(Pushed(arrivals[..k]), log.taken, h.waiting, h.written, arrivals[k].pushed);
    HandlingArrival(Received(arrivals[..k]), |log.turns|, h.inbox, h.published, arrivals[k].received);
  }

  /** A turn of the server's side. */
  lemma TurnTakes(arrivals: seq<Arrival>, k: nat, sinkOk: nat -> bool, h: Hands, log: Log)
    requires k < |arrivals| && Going(arrivals, k + 1, k, sinkOk, h, log) && h.waiting != []
    ensures
      var sent := sinkOk(|h.written|);
      var written := if sent then h.written + [FrameOf(h.waiting[0])] else h.written;
      var log' := log.(taken := log.taken + 1);
      if h.waiting[0].Close? then Over(arrivals, k + 1, sinkOk, ClosedByServer, written, h.published, log')
      else if sent then Going(arrivals, k + 1, k + 1, sinkOk, h.(waiting := h.waiting[1..], written := written), log')
      else Over(arrivals, k + 1, sinkOk, WriteFailed, written, h.published, log')
  {
    StandingTake(Pushed(arrivals[..k + 1]), log.taken, h.waiting, h.written);
    LastTakeIsPumped(sinkOk, Pushed(arrivals[..k + 1]), log.taken, h.waiting, h.written);
  }

  /** A turn that finds an end: of the hub, or of the client with nothing left to read. */
  lemma TurnFindsEnd(arrivals: seq<Arrival>, k: nat, sinkOk: nat -> bool, h: Hands, log: Log)
    requires k < |arrivals| && Going(arrivals, k + 1, k, sinkOk, h, log) && h.waiting == []
    ensures SomeHubGone(arrivals, k + 1) ==> Over(arrivals, k + 1, sinkOk, HubGone, h.written, h.published, log)
    ensures SomeClientGone(arrivals, k + 1) && h.inbox == [] ==>
      Over(arrivals, k + 1, sinkOk, ClientGone, h.written, h.published, log)
  {
    StandingIsPumped(sinkOk, HubGone, Pushed(arrivals[..k + 1]), log.taken, h.waiting, h.written);
    StandingIsPumped(sinkOk, ClientGone, Pushed(arrivals[..k + 1]), log.taken, h.waiting, h.written);
  }

  lemma TurnIdles(arrivals: seq<Arrival>, k: nat, sinkOk: nat -> bool, h: Hands, log: Log)
    requires k < |arrivals| && Going(arrivals, k + 1, k, sinkOk, h, log) && h.waiting == [] && h.inbox == []
    requires !SomeHubGone(arrivals, k + 1) && !SomeClientGone(arrivals, k + 1)
    ensures Going(arrivals, k + 1, k + 1, sinkOk, h, log.(idle := log.idle + [k]))
  {
    assert log.taken == |Pushed(arrivals[..k + 1])| && |log.turns| == |Received(arrivals[..k + 1])|;
    assert IdleAt(arrivals, |log.idle|, k);
    forall i | 0 <= i < |log.turns| ensures HandledAt(arrivals, log.idle + [k], i, log.turns[i]) {
      assert HandledAt(arrivals, log.idle, i, log.turns[i]);
    }
  }

  /** A turn of the client's side. */
  lemma TurnHandles(arrivals: seq<Arrival>, k: nat, sinkOk: nat -> bool, h: Hands, log: Log, published: seq<string>)
    requires k < |arrivals| && Going(arrivals, k + 1, k, sinkOk, h, log) && h.waiting == [] && h.inbox != []
    requires !SomeHubGone(arrivals, k + 1)
    requires Handling(Received(arrivals[..k + 1]), |log.turns| + 1, h.inbox[1..], published)
    ensures
      var log' := log.(turns := log.turns + [Handled(k, |log.idle|)]);
      if Ends(h.inbox[0]) then Over(arrivals, k + 1, sinkOk, ClientClosed, h.written, published, log')
      else Going(arrivals, k + 1, k + 1, sinkOk, h.(inbox := h.inbox[1..], published := published), log')
  {
    var seen, received := Pushed(arrivals[..k + 1]), Received(arrivals[..k + 1]);
    assert h.inbox[0] == received[|log.turns|];
    assert seen[..log.taken] == seen;
    assert HandledAt(arrivals, log.idle, |log.turns|, Handled(k, |log.idle|));
    StandingIsPumped(sinkOk, ClientClosed, seen, log.taken, h.waiting, h.written);
  }

  lemma GoingIsOver(arrivals: seq<Arrival>, sinkOk: nat -> bool, h: Hands, log: Log)
    requires Going(arrivals, |arrivals|, |arrivals|, sinkOk, h, log)
    ensures Over(arrivals, |arrivals|, sinkOk, StillOpen, h.written, h.published, log)
  {
    StandingIsPumped(sinkOk, StillOpen, Pushed(arrivals[..|arrivals|]), log.taken, h.waiting, h.written);
  }

  method HandleOne(inbox: seq<Inbound>, published: seq<string>, ghost received: seq<Inbound>, ghost handled: nat)
    returns (out: seq<string>, ends: bool)
    requires Handling(received, handled, inbox, published) && inbox != []
    ensures Handling(received, handled + 1, inbox[1..], out) && published <= out
    ensures ends == Ends(inbox[0])
  {
    assert received[..handled + 1][..handled] == received[..handled];
    out, ends := published, false;
    match inbox[0] {
      case InText(body) => out := published + [body];
      case InBinary(_) =>
      case InPing =>
      case InClose => ends := true;
      case InError => ends := true;
    }
  }

  /** One turn, the `used`-th, with the server's side polled first. */
  method Turn(arrivals: seq<Arrival>, sinkOk: nat -> bool, h: Hands, hubGone: bool, clientGone: bool, ghost used: nat, ghost log: Log)
    returns (h': Hands, ending: Ending)
    requires 0 < used <= |arrivals| && Going(arrivals, used, used - 1, sinkOk, h, log)
    requires hubGone == SomeHubGone(arrivals, used) && clientGone == SomeClientGone(arrivals, used)
    ensures exists log' :: LoopOk(arrivals, used, sinkOk, ending, h', log') && OneTurnOn(h, log, h', log')
  {
    ghost var k := used - 1;
    h', ending := h, StillOpen;
    ghost var log' := log;
    if h.waiting != [] {
      TurnTakes(arrivals, k, sinkOk, h, log);
      var outbound := h.waiting[0];
      var sent := sinkOk(|h.written|);
      h' := h.(waiting := h.waiting[1..], written := if sent then h.written + [FrameOf(outbound)] else h.written);
      log' := log.(taken := log.taken + 1);
      ending := if outbound.Close? then ClosedByServer else if sent then StillOpen else WriteFailed;
    } else if hubGone {
      TurnFindsEnd(arrivals, k, sinkOk, h, log);
      ending := HubGone;
    } else if h.inbox != [] {
      var published, ends := HandleOne(h.inbox, h.published, Received(arrivals[..k + 1]), |log.turns|);
      TurnHandles(arrivals, k, sinkOk, h, log, published);
      h' := h.(inbox := h.inbox[1..], published := published);
      log' := log.(turns := log.turns + [Handled(k, |log.idle|)]);
      ending := if ends then ClientClosed else StillOpen;
    } else if clientGone {
      TurnFindsEnd(arrivals, k, sinkOk, h, log);
      ending := ClientGone;
    } else {
      TurnIdles(arrivals, k, sinkOk, h, log);
      log' := log.(idle := log.idle + [k]);
    }
    assert LoopOk(arrivals, used, sinkOk, ending, h', log') && OneTurnOn(h, log, h', log');
  }

  lemma StartIsGoing(arrivals: seq<Arrival>, sinkOk: nat -> bool)
    ensures Going(arrivals, 0, 0, sinkOk, Hands([], [], [], []), Log(0, [], []))
  {
  }

  /** The loop. Whatever the client sends is only looked at while the hub has nothing waiting, so never once a Close has
      been pushed. `published` are the texts fanned out to the topic. */
  method Pump(arrivals: seq<Arrival>, sinkOk: nat -> bool)
    returns (ending: Ending, written: seq<Frame>, published: seq<string>)
    ensures exists used, log :: Over(arrivals, used, sinkOk, ending, written, published, log)
  {
    var h := Hands([], [], [], []);
    var hubGone, clientGone := false, false;
    ending := StillOpen;
    ghost var log := Log(0, [], []);
    StartIsGoing(arrivals, sinkOk);
    var k := 0;
    while k < |arrivals| && ending == StillOpen
      invariant 0 <= k <= |arrivals|
      invariant LoopOk(arrivals, k, sinkOk, ending, h, log)
      invariant hubGone == SomeHubGone(arrivals, k) && clientGone == SomeClientGone(arrivals, k)
    {
      GoingArrival(arrivals, k, sinkOk, h, log);
      h := h.(waiting := h.waiting + arrivals[k].pushed, inbox := h.inbox + arrivals[k].received);
      hubGone := hubGone || arrivals[k].hubGone;
      clientGone := clientGone || arrivals[k].clientGone;
      k := k + 1;
      h, ending := Turn(arrivals, sinkOk, h, hubGone, clientGone, k, log);
      log :| LoopOk(arrivals, k, sinkOk, ending, h, log);
    }
    if ending == StillOpen {
      GoingIsOver(arrivals, sinkOk, h, log);
    }
    written, published := h.written, h.published;
    assert Over(arrivals, k, sinkOk, ending, written, published, log);
  }

  /** A frame that carries this message: a text as it is, a close with the code for going away and its reason. */
  predicate Carries(frame: Frame, o: Outbound) {
    (o.Text? ==> frame == TextFrame(o.body)) && (o.Close? ==> frame == CloseFrame(1001, o.reason))
  }

  /** Whatever the arrivals, a connection writes the texts pushed to it, word for word, in order and without a hole, and
      at most one Close with its reason, after which it writes nothing; it writes a Close exactly when it reached one and
      could still write. */
  lemma CloseIsLast(arrivals: seq<Arrival>, used: nat, sinkOk: nat -> bool, ending: Ending, written: seq<Frame>,
                    published: seq<string>, log: Log)
    requires Over(arrivals, used, sinkOk, ending, written, published, log)
    ensures forall i :: 0 <= i < |written| ==> i < |Pushed(arrivals[..used])| && Carries(written[i], Pushed(arrivals[..used])[i])
    ensures forall i :: 0 <= i < |written| - 1 ==> written[i].TextFrame?
    ensures written != [] && written[|written| - 1].CloseFrame? <==> ending == ClosedByServer && |written| == log.taken
  {
    var seen := Pushed(arrivals[..used]);
    forall i | 0 <= i < |written| ensures i < |seen| && Carries(written[i], seen[i]) {
      assert Frames(seen[..log.taken])[i] == FrameOf(seen[i]);
    }
    forall i | 0 <= i < |written| && i < log.taken - 1 ensures written[i].TextFrame? {
      assert ending == ClosedByServer ==> seen[..log.taken - 1][i] == seen[i];
      assert ending != ClosedByServer ==> seen[..log.taken][i] == seen[i];
    }
    if ending != ClosedByServer && log.taken > 0 {
      assert seen[..log.taken][log.taken - 1] == seen[log.taken - 1];
    }
  }

  lemma {:induction false} BodiesAppend(a: seq<Inbound>, b: seq<Inbound>)
    ensures Bodies(a + b) == Bodies(a) + Bodies(b)
    decreases |b|
  {
    if b == [] {
      assert a + b == a;
    } else {
      assert (a + b)[..|a + b| - 1] == a + b[..|b| - 1];
      BodiesAppend(a, b[..|b| - 1]);
    }
  }

  /** What a connection fans out to its topic: the texts it handled and nothing else, each once and as it came; wherever
      the frames handled are split, what is published is split alike. The loop ends for the client's sake exactly when
      the last frame handled is a close or a failed read, and no frame handled before it was one. */
  lemma PublishedAreTheTexts(arrivals: seq<Arrival>, used: nat, sinkOk: nat -> bool, ending: Ending, written: seq<Frame>,
                             published: seq<string>, log: Log, k: nat)
    requires Over(arrivals, used, sinkOk, ending, written, published, log) && k < |log.turns|
    ensures
      var handled := Received(arrivals[..used])[..|log.turns|];
      && published == Bodies(handled[..k]) + (if handled[k].InText? then [handled[k].body] else []) + Bodies(handled[k + 1..])
      && (handled[k].InClose? || handled[k].InError? <==> k == |log.turns| - 1 && ending == ClientClosed)
  {
    var received := Received(arrivals[..used]);
    var handled := received[..|log.turns|];
    assert handled == handled[..k] + [handled[k]] + handled[k + 1..];
    BodiesAppend(handled[..k] + [handled[k]], handled[k + 1..]);
    BodiesAppend(handled[..k], [handled[k]]);
    assert [handled[k]][..0] == [] && handled[k] == received[k];
  }
}
