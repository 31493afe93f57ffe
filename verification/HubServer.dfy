/** The hub as the object the server keeps, with its loops (crates/ws/src/hub.rs), and the interleavings that sending
    outside the lock allows. */
module HubServers {
  import opened Hubs
  import opened Options

  function OpenOnes(channels: seq<Channel>, targets: set<nat>): set<nat> {
    set ch | ch in targets && ch < |channels| && channels[ch].open
  }

  lemma RemoveUpdated<K, V>(m: map<K, V>, k: K, v: V)
    ensures m[k := v] - {k} == m - {k}
  {
  }

  lemma PushOneMore(channels: seq<Channel>, done: set<nat>, ch: nat, o: Outbound)
    requires ch < |channels| && ch !in done
    ensures PushAll(channels, done + {ch}, o) == PushAll(channels, done, o)[ch := Push(channels[ch], o)]
    ensures PushAll(channels, done, o)[ch] == channels[ch]
    ensures !channels[ch].open ==> PushAll(channels, done + {ch}, o) == PushAll(channels, done, o)
    ensures |OpenOnes(channels, done + {ch})| == |OpenOnes(channels, done)| + if channels[ch].open then 1 else 0
  {
    if channels[ch].open {
      assert OpenOnes(channels, done + {ch}) == OpenOnes(channels, done) + {ch};
    } else {
      assert OpenOnes(channels, done + {ch}) == OpenOnes(channels, done);
    }
  }

  lemma TargetsInRange(h: Hub, topic: string, from: Option<ConnId>)
    requires HubOk(h)
    ensures forall ch :: ch in Targets(h, topic, from) ==> ch < |h.channels|
  {
  }

  class HubServer {
    var topics: map<string, map<ConnId, nat>>
    var channels: seq<Channel>

    function State(): Hub
      reads this
    {
      Hub(topics, channels)
    }

    ghost predicate Valid()
      reads this
    {
      HubOk(State())
    }

    constructor ()
      ensures Valid() && State() == EMPTY
    {
      topics, channels := map[], [];
    }

    /** Registers a connection on a topic; the result is the channel it reads from. */
    method Join(topic: string, conn: ConnId) returns (ch: nat)
      requires Valid()
      modifies this
      ensures Valid() && State() == Hubs.Join(old(State()), topic, conn)
      ensures ch == |old(channels)| && IsMember(State(), ch)
    {
      HubOkKept(State(), OpJoin(topic, conn));
      ch := |channels|;
      channels := channels + [Channel(topic, conn, [], true)];
      var members: map<ConnId, nat> := if topic in topics then topics[topic] else map[];
      topics := topics[topic := members[conn := ch]];
    }

    method Leave(topic: string, conn: ConnId)
      requires Valid()
      modifies this
      ensures Valid() && State() == Hubs.Leave(old(State()), topic, conn)
    {
      HubOkKept(State(), OpLeave(topic, conn));
      if topic in topics {
        var members := topics[topic] - {conn};
        topics := topics[topic := members];
        if members == map[] {
          RemoveUpdated(old(topics), topic, members);
          topics := topics - {topic};
        }
      }
    }

    /** Snapshot the targets, then push into each. The count is the number of channels that took the text. */
    method Publish(topic: string, body: string, from: Option<ConnId>) returns (delivered: nat)
      requires Valid()
      modifies this`channels
      ensures Valid() && State() == Hubs.Publish(old(State()), topic, body, from)
      ensures delivered == |OpenOnes(old(channels), Targets(old(State()), topic, from))|
    {
      HubOkKept(State(), OpPublish(topic, body, from));
      TargetsInRange(State(), topic, from);
      var targets := Targets(State(), topic, from);
      delivered := SendAll(targets, Text(body));
    }

    /** Forget the topic, then push a Close into each of its members' channels. */
    method Kill(topic: string, reason: string) returns (closed: nat)
      requires Valid()
      modifies this
      ensures Valid() && State() == Hubs.Kill(old(State()), topic, reason)
      ensures closed == |OpenOnes(old(channels), Targets(old(State()), topic, None))|
      ensures topic !in topics
    {
      HubOkKept(State(), OpKill(topic, reason));
      TargetsInRange(State(), topic, None);
      var targets := Targets(State(), topic, None);
      topics := topics - {topic};
      closed := SendAll(targets, Close(reason));
    }

    method SendAll(targets: set<nat>, o: Outbound) returns (took: nat)
      requires forall ch :: ch in targets ==> ch < |channels|
      modifies this`channels
      ensures channels == PushAll(old(channels), targets, o)
      ensures took == |OpenOnes(old(channels), targets)|
    {
      took := 0;
      var rest := targets;
      ghost var done: set<nat> := {};
      while rest != {}
        invariant done + rest == targets && done !! rest
        invariant channels == PushAll(old(channels), done, o)
        invariant took == |OpenOnes(old(channels), done)|
        decreases |rest|
      {
        var ch :| ch in rest;
        PushOneMore(old(channels), done, ch, o);
        if channels[ch].open {
          channels := channels[ch := channels[ch].(sent := channels[ch].sent + [o])];
          took := took + 1;
        }
        rest := rest - {ch};
        done := done + {ch};
      }
      assert done == targets;
    }

    /** The sizes of the topics, added up. */
    method Connections() returns (count: nat)
      ensures count == |Members(topics)|
    {
      count := 0;
      var rest := topics.Keys;
      while rest != {}
        invariant rest <= topics.Keys
        invariant count == |Within(topics, topics.Keys - rest)|
        decreases |rest|
      {
        var topic :| topic in rest;
        WithinOneMore(topics, topics.Keys - rest, topic);
        assert topics.Keys - (rest - {topic}) == (topics.Keys - rest) + {topic};
        count := count + |topics[topic]|;
        rest := rest - {topic};
      }
      assert Within(topics, topics.Keys - rest) == Members(topics);
    }
  }

  function Within(topics: map<string, map<ConnId, nat>>, some: set<string>): set<(string, ConnId)> {
    set p | p in Members(topics) && p.0 in some
  }

  lemma {:induction false} Tagged(t: string, cs: set<ConnId>, ps: set<(string, ConnId)>)
    requires forall p :: p in ps <==> p.0 == t && p.1 in cs
    ensures |ps| == |cs|
    decreases |cs|
  {
    if cs == {} {
      assert ps == {};
    } else {
      var c :| c in cs;
      Tagged(t, cs - {c}, ps - {(t, c)});
      assert (t, c) in ps;
    }
  }

  lemma WithinOneMore(topics: map<string, map<ConnId, nat>>, some: set<string>, t: string)
    requires t in topics && t !in some
    ensures |Within(topics, some + {t})| == |Within(topics, some)| + |topics[t]|
  {
    var mine := OnTopic(topics, t);
    Tagged(t, topics[t].Keys, mine);
    assert Within(topics, some + {t}) == Within(topics, some) + mine;
    assert Within(topics, some) !! mine;
  }

  // ----- Sending outside the lock -----

  /** A publish or a kill on its way through its snapshot, the first `next` of it served. */
  datatype Spread = Spread(what: Outbound, order: seq<nat>, next: nat)

  /** One send of a spread to one channel, and whether the channel took it. */
  datatype Send = Send(spread: nat, what: Outbound, ch: nat, took: bool)

  /** Bookkeeping about each channel: still listed or once listed, named by an unfinished kill, or closed. */
  datatype Fate = Listed | Doomed(kill: nat) | Finished

  /** `fates` and `sends` are bookkeeping that no step reads. */
  datatype World = World(hub: Hub, spreads: seq<Spread>, fates: seq<Fate>, sends: seq<Send>)

  const QUIET := World(EMPTY, [], [], [])

  datatype Step =
    | Locked(op: Op)                                                                        // join, leave, hang up
    | SnapPublish(topic: string, body: string, from: Option<ConnId>, order: seq<nat>)
    | SnapKill(topic: string, reason: string, order: seq<nat>)
    | Deliver(i: nat)                                                                       // one send of one snapshot

  ghost predicate Lists(order: seq<nat>, targets: set<nat>) {
    (forall i, j :: 0 <= i < j < |order| ==> order[i] != order[j]) && forall ch :: ch in order <==> ch in targets
  }

  ghost predicate Enabled(w: World, step: Step) {
    match step
    case Locked(op) => op.OpJoin? || op.OpLeave? || op.OpHangUp?
    case SnapPublish(topic, _, from, order) => Lists(order, Targets(w.hub, topic, from))
    case SnapKill(topic, _, order) => Lists(order, Targets(w.hub, topic, None))
    case Deliver(i) =>
      i < |w.spreads| && w.spreads[i].next < |w.spreads[i].order| &&
      w.spreads[i].order[w.spreads[i].next] < |w.hub.channels| == |w.fates|
  }

  ghost function ApplyStep(w: World, step: Step): World
    requires Enabled(w, step)
  {
    match step
    case Locked(op) =>
      w.(hub := Apply(w.hub, op), fates := if op.OpJoin? then w.fates + [Listed] else w.fates)
    case SnapPublish(_, body, _, order) => w.(spreads := w.spreads + [Spread(Text(body), order, 0)])
    case SnapKill(topic, reason, order) =>
      w.(hub := w.hub.(topics := w.hub.topics - {topic}),
         spreads := w.spreads + [Spread(Close(reason), order, 0)],
         fates := seq(|w.fates|, ch requires 0 <= ch < |w.fates| => if ch in order then Doomed(|w.spreads|) else w.fates[ch]))
    case Deliver(i) =>
      var spread := w.spreads[i];
      var ch := spread.order[spread.next];
      World(w.hub.(channels := w.hub.channels[ch := Push(w.hub.channels[ch], spread.what)]),
            w.spreads[i := spread.(next := spread.next + 1)],
            if spread.what.Close? then w.fates[ch := Finished] else w.fates,
            w.sends + [Send(i, spread.what, ch, w.hub.channels[ch].open)])
  }

  function Closes(sent: seq<Outbound>): nat {
    if sent == [] then 0 else Closes(sent[..|sent| - 1]) + if sent[|sent| - 1].Close? then 1 else 0
  }

  /** The targets an unfinished kill still has to close are out of every topic, claimed by that kill alone, and not
      closed yet. */
  ghost predicate SpreadOk(w: World, k: nat)
    requires k < |w.spreads|
  {
    var order := w.spreads[k].order;
    && w.spreads[k].next <= |order|
    && (forall i :: 0 <= i < |order| ==> order[i] < |w.fates|)
    && (forall i, j :: 0 <= i < j < |order| ==> order[i] != order[j])
    && (w.spreads[k].what.Close? ==> forall i :: w.spreads[k].next <= i < |order| ==> w.fates[order[i]] == Doomed(k))
  }

  ghost predicate ChannelOk(w: World, ch: nat)
    requires ch < |w.hub.channels| == |w.fates|
  {
    && (IsMember(w.hub, ch) ==> w.fates[ch] == Listed)
    && Closes(w.hub.channels[ch].sent) <= 1
    && (Closes(w.hub.channels[ch].sent) == 1 ==> w.fates[ch] == Finished)
    && (w.fates[ch].Doomed? ==> w.fates[ch].kill < |w.spreads|)
  }

  ghost predicate WorldOk(w: World) {
    && HubOk(w.hub) && |w.fates| == |w.hub.channels|
    && (forall k :: 0 <= k < |w.spreads| ==> SpreadOk(w, k))
    && (forall ch :: 0 <= ch < |w.fates| ==> ChannelOk(w, ch))
  }

  lemma ClosesNext(sent: seq<Outbound>, o: Outbound)
    ensures Closes(sent + [o]) == Closes(sent) + if o.Close? then 1 else 0
  {
    assert (sent + [o])[..|sent|] == sent;
  }

  lemma LockedOk(w: World, op: Op)
    requires WorldOk(w) && Enabled(w, Locked(op))
    ensures WorldOk(ApplyStep(w, Locked(op)))
  {
    var w' := ApplyStep(w, Locked(op));
    HubOkKept(w.hub, op);
    forall k | 0 <= k < |w'.spreads| ensures SpreadOk(w', k) {
      assert SpreadOk(w, k);
    }
    forall ch | 0 <= ch < |w'.fates| ensures ChannelOk(w', ch) {
      if ch < |w.fates| {
        assert ChannelOk(w, ch);
        EachConnectionSeesItsOwn(w.hub, op, ch);
        assert IsMember(w'.hub, ch) == ViewOf(w'.hub, ch).member && w'.hub.channels[ch] == ViewOf(w'.hub, ch).channel;
      }
    }
  }

  lemma SnapPublishOk(w: World, topic: string, body: string, from: Option<ConnId>, order: seq<nat>)
    requires WorldOk(w) && Enabled(w, SnapPublish(topic, body, from, order))
    ensures WorldOk(ApplyStep(w, SnapPublish(topic, body, from, order)))
  {
    var w' := ApplyStep(w, SnapPublish(topic, body, from, order));
    forall k | 0 <= k < |w'.spreads| ensures SpreadOk(w', k) {
      if k < |w.spreads| {
        assert SpreadOk(w, k);
      } else {
        forall i | 0 <= i < |order| ensures order[i] < |w.fates| {
          assert order[i] in order;
        }
      }
    }
    forall ch | 0 <= ch < |w'.fates| ensures ChannelOk(w', ch) {
      assert ChannelOk(w, ch);
    }
  }

  lemma SnapKillOk(w: World, topic: string, reason: string, order: seq<nat>)
    requires WorldOk(w) && Enabled(w, SnapKill(topic, reason, order))
    ensures WorldOk(ApplyStep(w, SnapKill(topic, reason, order)))
  {
    var w' := ApplyStep(w, SnapKill(topic, reason, order));
    ShrinkOk(w.hub, w'.hub);
    forall i | 0 <= i < |order| ensures order[i] < |w.fates| && w.fates[order[i]] == Listed {
      assert order[i] in order;
      TargetsAreMembers(w.hub, topic, None, order[i]);
      assert ChannelOk(w, order[i]);
    }
    forall k | 0 <= k < |w'.spreads| ensures SpreadOk(w', k) {
      if k < |w.spreads| {
        assert SpreadOk(w, k);
        assert w'.spreads[k] == w.spreads[k];
      }
    }
    forall ch | 0 <= ch < |w'.fates| ensures ChannelOk(w', ch) {
      assert ChannelOk(w, ch);
      TargetsAreMembers(w.hub, topic, None, ch);
    }
  }

  lemma DeliverOk(w: World, i: nat)
    requires WorldOk(w) && Enabled(w, Deliver(i))
    ensures WorldOk(ApplyStep(w, Deliver(i)))
  {
    var w' := ApplyStep(w, Deliver(i));
    var what := w.spreads[i].what;
    ShrinkOk(w.hub, w'.hub);
    assert SpreadOk(w, i);
    forall k | 0 <= k < |w'.spreads| ensures SpreadOk(w', k) {
      assert SpreadOk(w, k);
    }
    forall ch | 0 <= ch < |w'.fates| ensures ChannelOk(w', ch) {
      assert ChannelOk(w, ch);
      ClosesNext(w.hub.channels[ch].sent, what);
      assert IsMember(w'.hub, ch) <==> IsMember(w.hub, ch);
    }
  }

  lemma WorldOkKept(w: World, step: Step)
    requires WorldOk(w) && Enabled(w, step)
    ensures WorldOk(ApplyStep(w, step))
  {
    match step
    case Locked(op) => LockedOk(w, op);
    case SnapPublish(topic, body, from, order) => SnapPublishOk(w, topic, body, from, order);
    case SnapKill(topic, reason, order) => SnapKillOk(w, topic, reason, order);
    case Deliver(i) => DeliverOk(w, i);
  }

  ghost predicate CanRun(w: World, steps: seq<Step>)
    decreases |steps|
  {
    steps == [] || (Enabled(w, steps[0]) && CanRun(ApplyStep(w, steps[0]), steps[1..]))
  }

  ghost function RunSteps(w: World, steps: seq<Step>): World
    requires CanRun(w, steps)
    decreases |steps|
  {
    if steps == [] then w else RunSteps(ApplyStep(w, steps[0]), steps[1..])
  }

  /** A run goes step by step, each from where the one before it led. */
  lemma {:induction false} RunsStepByStep(w: World, steps: seq<Step>, step: Step)
    ensures CanRun(w, steps + [step]) <==> CanRun(w, steps) && Enabled(RunSteps(w, steps), step)
    ensures CanRun(w, steps + [step]) ==> RunSteps(w, steps + [step]) == ApplyStep(RunSteps(w, steps), step)
    decreases |steps|
  {
    if steps == [] {
      assert (steps + [step])[1..] == [];
    } else {
      assert (steps + [step])[1..] == steps[1..] + [step];
      if Enabled(w, steps[0]) { RunsStepByStep(ApplyStep(w, steps[0]), steps[1..], step); }
    }
  }

  lemma {:induction false} WorldOkRun(w: World, steps: seq<Step>)
    requires WorldOk(w) && CanRun(w, steps)
    ensures WorldOk(RunSteps(w, steps))
    decreases |steps|
  {
    if steps != [] {
      WorldOkKept(w, steps[0]);
      WorldOkRun(ApplyStep(w, steps[0]), steps[1..]);
    }
  }

  /** In every interleaving of publishes, kills, joins and leaves, sending outside the lock, no channel ever receives two
      Closes, and no topic is ever stored empty. */
  lemma AtMostOneClose(steps: seq<Step>, ch: nat)
    requires CanRun(QUIET, steps) && ch < |RunSteps(QUIET, steps).hub.channels|
    ensures var w := RunSteps(QUIET, steps);
            Closes(w.hub.channels[ch].sent) <= 1 && HubOk(w.hub)
  {
    WorldOkRun(QUIET, steps);
    var w := RunSteps(QUIET, steps);
    assert ChannelOk(w, ch);
  }

  // ----- Every snapshot is served once -----

  /** How often spread `k` has sent to a channel. */
  function Sends(sends: seq<Send>, k: nat, ch: nat): nat {
    if sends == [] then 0
    else
      var last := sends[|sends| - 1];
      Sends(sends[..|sends| - 1], k, ch) + if last.spread == k && last.ch == ch then 1 else 0
  }

  /** What a channel has taken, in order. */
  function Taken(sends: seq<Send>, ch: nat): seq<Outbound> {
    if sends == [] then []
    else
      var last := sends[|sends| - 1];
      Taken(sends[..|sends| - 1], ch) + if last.ch == ch && last.took then [last.what] else []
  }

  lemma SendsNext(sends: seq<Send>, s: Send, k: nat, ch: nat)
    ensures Sends(sends + [s], k, ch) == Sends(sends, k, ch) + if s.spread == k && s.ch == ch then 1 else 0
  {
    assert (sends + [s])[..|sends|] == sends;
  }

  lemma TakenNext(sends: seq<Send>, s: Send, ch: nat)
    ensures Taken(sends + [s], ch) == Taken(sends, ch) + if s.ch == ch && s.took then [s.what] else []
  {
    assert (sends + [s])[..|sends|] == sends;
  }

  lemma {:induction false} NothingSent(sends: seq<Send>, k: nat, ch: nat)
    requires forall i :: 0 <= i < |sends| ==> sends[i].spread != k
    ensures Sends(sends, k, ch) == 0
  {
    if sends != [] { NothingSent(sends[..|sends| - 1], k, ch); }
  }

  lemma {:induction false} NothingTaken(sends: seq<Send>, ch: nat)
    requires forall i :: 0 <= i < |sends| ==> sends[i].ch != ch
    ensures Taken(sends, ch) == []
  {
    if sends != [] { NothingTaken(sends[..|sends| - 1], ch); }
  }

  ghost predicate SendsOk(w: World) {
    forall i :: 0 <= i < |w.sends| ==>
      && w.sends[i].spread < |w.spreads| && w.sends[i].what == w.spreads[w.sends[i].spread].what
      && w.sends[i].ch < |w.hub.channels|
  }

  /** Spread `k` has sent once to each channel of its snapshot it has come to, and to no other. */
  ghost predicate ServedOnce(w: World, k: nat, ch: nat) {
    k < |w.spreads| ==>
      && w.spreads[k].next <= |w.spreads[k].order|
      && Sends(w.sends, k, ch) == if ch in w.spreads[k].order[..w.spreads[k].next] then 1 else 0
  }

  /** A channel holds exactly what it took, and one that is open took all that was sent to it. */
  ghost predicate HoldsTaken(w: World, ch: nat) {
    ch < |w.hub.channels| ==>
      && w.hub.channels[ch].sent == Taken(w.sends, ch)
      && (w.hub.channels[ch].open ==> forall i :: 0 <= i < |w.sends| && w.sends[i].ch == ch ==> w.sends[i].took)
  }

  ghost predicate Recorded(w: World) {
    && WorldOk(w) && SendsOk(w)
    && (forall k, ch :: ServedOnce(w, k, ch))
    && (forall ch :: HoldsTaken(w, ch))
  }

  lemma DeliverServes(w: World, i: nat, k: nat, ch: nat)
    requires Recorded(w) && Enabled(w, Deliver(i))
    ensures ServedOnce(ApplyStep(w, Deliver(i)), k, ch)
  {
    var order, next := w.spreads[i].order, w.spreads[i].next;
    assert ServedOnce(w, k, ch) && SpreadOk(w, i);
    SendsNext(w.sends, Send(i, w.spreads[i].what, order[next], w.hub.channels[order[next]].open), k, ch);
    assert order[..next + 1] == order[..next] + [order[next]];
    assert order[next] !in order[..next];
  }

  lemma DeliverHolds(w: World, i: nat, ch: nat)
    requires Recorded(w) && Enabled(w, Deliver(i))
    ensures HoldsTaken(ApplyStep(w, Deliver(i)), ch)
  {
    var order, next := w.spreads[i].order, w.spreads[i].next;
    assert HoldsTaken(w, ch);
    TakenNext(w.sends, Send(i, w.spreads[i].what, order[next], w.hub.channels[order[next]].open), ch);
  }

  lemma DeliverRecorded(w: World, i: nat)
    requires Recorded(w) && Enabled(w, Deliver(i))
    ensures Recorded(ApplyStep(w, Deliver(i)))
  {
    var w' := ApplyStep(w, Deliver(i));
    WorldOkKept(w, Deliver(i));
    forall k, ch ensures ServedOnce(w', k, ch) {
      DeliverServes(w, i, k, ch);
    }
    forall ch ensures HoldsTaken(w', ch) {
      DeliverHolds(w, i, ch);
    }
  }

  /** Taking a snapshot, joining, leaving and hanging up send nothing. */
  lemma OthersRecorded(w: World, step: Step)
    requires Recorded(w) && Enabled(w, step) && !step.Deliver?
    ensures Recorded(ApplyStep(w, step))
  {
    var w' := ApplyStep(w, step);
    WorldOkKept(w, step);
    forall k, ch ensures ServedOnce(w', k, ch) {
      assert ServedOnce(w, k, ch);
      if k == |w.spreads| {
        NothingSent(w.sends, k, ch);
      }
    }
    forall ch ensures HoldsTaken(w', ch) {
      assert HoldsTaken(w, ch);
      if ch == |w.hub.channels| {
        NothingTaken(w.sends, ch);
      }
    }
  }

  lemma RecordedKept(w: World, step: Step)
    requires Recorded(w) && Enabled(w, step)
    ensures Recorded(ApplyStep(w, step))
  {
    if step.Deliver? {
      DeliverRecorded(w, step.i);
    } else {
      OthersRecorded(w, step);
    }
  }

  lemma {:induction false} RecordedRun(w: World, steps: seq<Step>)
    requires Recorded(w) && CanRun(w, steps)
    ensures Recorded(RunSteps(w, steps))
    decreases |steps|
  {
    if steps != [] {
      RecordedKept(w, steps[0]);
      RecordedRun(ApplyStep(w, steps[0]), steps[1..]);
    }
  }

  /** A spread keeps what it sends and to whom, and only goes forward. */
  lemma {:induction false} SpreadStays(w: World, steps: seq<Step>, k: nat)
    requires CanRun(w, steps) && k < |w.spreads|
    ensures var w' := RunSteps(w, steps);
            && k < |w'.spreads| && w'.spreads[k].next >= w.spreads[k].next
            && w'.spreads[k].what == w.spreads[k].what && w'.spreads[k].order == w.spreads[k].order
    decreases |steps|
  {
    if steps != [] {
      SpreadStays(ApplyStep(w, steps[0]), steps[1..], k);
    }
  }

  /** What a publish or a kill sends, and the members it finds. */
  function Message(step: Step): Outbound
    requires step.SnapPublish? || step.SnapKill?
  {
    if step.SnapPublish? then Text(step.body) else Close(step.reason)
  }

  function Audience(h: Hub, step: Step): set<nat>
    requires step.SnapPublish? || step.SnapKill?
  {
    Targets(h, step.topic, if step.SnapPublish? then step.from else None)
  }

  /** In every interleaving, a publish or a kill that has come to its end has sent exactly once to each member it found
      and to nobody else; until then it has sent once to those it has come to. */
  lemma EachSnapshotIsServedOnce(before: seq<Step>, step: Step, later: seq<Step>, ch: nat)
    requires CanRun(QUIET, before) && (step.SnapPublish? || step.SnapKill?) && Enabled(RunSteps(QUIET, before), step)
    requires CanRun(ApplyStep(RunSteps(QUIET, before), step), later)
    ensures
      var w := RunSteps(QUIET, before);
      var w' := RunSteps(ApplyStep(w, step), later);
      var k := |w.spreads|;
      && k < |w'.spreads| && w'.spreads[k].what == Message(step) && w'.spreads[k].next <= |w'.spreads[k].order|
      && Sends(w'.sends, k, ch) == (if ch in w'.spreads[k].order[..w'.spreads[k].next] then 1 else 0)
      && (w'.spreads[k].next == |w'.spreads[k].order| ==>
            Sends(w'.sends, k, ch) == if ch in Audience(w.hub, step) then 1 else 0)
  {
    var w := RunSteps(QUIET, before);
    var w1 := ApplyStep(w, step);
    var k := |w.spreads|;
    RecordedRun(QUIET, before);
    RecordedKept(w, step);
    RecordedRun(w1, later);
    SpreadStays(w1, later, k);
    var spread := RunSteps(w1, later).spreads[k];
    assert ServedOnce(RunSteps(w1, later), k, ch);
    assert spread.order[..|spread.order|] == spread.order;
  }

  /** And a channel holds exactly the messages of the sends it took, in the order of the sends: all of them as long as it
      is open. */
  lemma ChannelsHoldWhatTheyTook(steps: seq<Step>, ch: nat)
    requires CanRun(QUIET, steps) && ch < |RunSteps(QUIET, steps).hub.channels|
    ensures
      var w := RunSteps(QUIET, steps);
      && w.hub.channels[ch].sent == Taken(w.sends, ch)
      && (w.hub.channels[ch].open ==> forall i :: 0 <= i < |w.sends| && w.sends[i].ch == ch ==> w.sends[i].took)
      && forall i :: 0 <= i < |w.sends| ==>
           w.sends[i].spread < |w.spreads| && w.sends[i].what == w.spreads[w.sends[i].spread].what
  {
    RecordedRun(QUIET, steps);
    assert HoldsTaken(RunSteps(QUIET, steps), ch);
  }
}
