/** The WebSocket hub (crates/ws/src/hub.rs): who is on which topic, and who gets what is published there. */
module Hubs {
  import opened Options

  type ConnId = nat

  datatype Outbound = Text(body: string) | Close(reason: string)

  /** One connection's channel, made by a join. `sent` is everything ever pushed into it; a closed channel takes nothing
      more. `topic` and `conn` record the join that made it. */
  datatype Channel = Channel(topic: string, conn: ConnId, sent: seq<Outbound>, open: bool)

  /** Topics to members, a member being the number of its channel. */
  datatype Hub = Hub(topics: map<string, map<ConnId, nat>>, channels: seq<Channel>)

  const EMPTY := Hub(map[], [])

  /** Channel `ch` is the one its topic currently lists for its connection. */
  predicate IsMember(h: Hub, ch: nat) {
    ch < |h.channels| &&
    h.channels[ch].topic in h.topics && h.channels[ch].conn in h.topics[h.channels[ch].topic] &&
    h.topics[h.channels[ch].topic][h.channels[ch].conn] == ch
  }

  /** No topic is stored empty, and every member's channel was made for exactly that topic and connection. */
  predicate HubOk(h: Hub) {
    && (forall t :: t in h.topics ==> h.topics[t] != map[])
    && forall t, c :: t in h.topics && c in h.topics[t] ==>
         h.topics[t][c] < |h.channels| && h.channels[h.topics[t][c]].topic == t && h.channels[h.topics[t][c]].conn == c
  }

  function Push(c: Channel, o: Outbound): Channel {
    if c.open then c.(sent := c.sent + [o]) else c
  }

  // ----- The operations -----

  function Join(h: Hub, topic: string, conn: ConnId): Hub {
    var members := if topic in h.topics then h.topics[topic] else map[];
    Hub(h.topics[topic := members[conn := |h.channels|]], h.channels + [Channel(topic, conn, [], true)])
  }

  function Leave(h: Hub, topic: string, conn: ConnId): Hub {
    if topic !in h.topics then h
    else
      var members := h.topics[topic] - {conn};
      h.(topics := if members == map[] then h.topics - {topic} else h.topics[topic := members])
  }

  /** The members a publish reaches. */
  function Targets(h: Hub, topic: string, from: Option<ConnId>): set<nat> {
    if topic !in h.topics then {}
    else set c | c in h.topics[topic] && Some(c) != from :: h.topics[topic][c]
  }

  function PushAll(channels: seq<Channel>, targets: set<nat>, o: Outbound): seq<Channel> {
    seq(|channels|, i requires 0 <= i < |channels| => if i in targets then Push(channels[i], o) else channels[i])
  }

  function Publish(h: Hub, topic: string, body: string, from: Option<ConnId>): Hub {
    h.(channels := PushAll(h.channels, Targets(h, topic, from), Text(body)))
  }

  function Kill(h: Hub, topic: string, reason: string): Hub {
    Hub(h.topics - {topic}, PushAll(h.channels, Targets(h, topic, None), Close(reason)))
  }

  datatype Op =
    | OpJoin(topic: string, conn: ConnId)
    | OpLeave(topic: string, conn: ConnId)
    | OpPublish(topic: string, body: string, from: Option<ConnId>)
    | OpKill(topic: string, reason: string)
    | OpHangUp(ch: nat)   // the connection task drops its end of the channel

  function Apply(h: Hub, op: Op): Hub {
    match op
    case OpJoin(t, c) => Join(h, t, c)
    case OpLeave(t, c) => Leave(h, t, c)
    case OpPublish(t, body, from) => Publish(h, t, body, from)
    case OpKill(t, reason) => Kill(h, t, reason)
    case OpHangUp(ch) =>
      if ch < |h.channels| then h.(channels := h.channels[ch := h.channels[ch].(open := false)]) else h
  }

  function Run(h: Hub, ops: seq<Op>): Hub
    decreases |ops|
  {
    if ops == [] then h else Apply(Run(h, ops[..|ops| - 1]), ops[|ops| - 1])
  }

  // ----- One connection's view -----

  /** A connection as seen by itself: whether it is still a member, and its channel. */
  datatype View = View(member: bool, channel: Channel)

  /** What an operation means to one connection, told without looking at any other. */
  function Seen(v: View, ch: nat, op: Op): View {
    match op
    case OpJoin(t, c) => v.(member := v.member && !(t == v.channel.topic && c == v.channel.conn))
    case OpLeave(t, c) => v.(member := v.member && !(t == v.channel.topic && c == v.channel.conn))
    case OpPublish(t, body, from) =>
      if v.member && t == v.channel.topic && from != Some(v.channel.conn) then v.(channel := Push(v.channel, Text(body))) else v
    case OpKill(t, reason) =>
      if v.member && t == v.channel.topic then View(false, Push(v.channel, Close(reason))) else v
    case OpHangUp(x) => if x == ch then v.(channel := v.channel.(open := false)) else v
  }

  function SeenAll(v: View, ch: nat, ops: seq<Op>): View
    decreases |ops|
  {
    if ops == [] then v else Seen(SeenAll(v, ch, ops[..|ops| - 1]), ch, ops[|ops| - 1])
  }

  function ViewOf(h: Hub, ch: nat): View
    requires ch < |h.channels|
  {
    View(IsMember(h, ch), h.channels[ch])
  }

  lemma TargetsAreMembers(h: Hub, topic: string, from: Option<ConnId>, ch: nat)
    requires HubOk(h) && ch < |h.channels|
    ensures ch in Targets(h, topic, from) <==>
      IsMember(h, ch) && h.channels[ch].topic == topic && Some(h.channels[ch].conn) != from
  {
    if IsMember(h, ch) && h.channels[ch].topic == topic && Some(h.channels[ch].conn) != from {
      var c := h.channels[ch].conn;
      assert c in h.topics[topic] && h.topics[topic][c] == ch;
    }
  }

  lemma JoinOk(h: Hub, topic: string, conn: ConnId)
    requires HubOk(h)
    ensures HubOk(Join(h, topic, conn))
  {
    var h' := Join(h, topic, conn);
    forall t | t in h'.topics ensures h'.topics[t] != map[] {
      if t == topic { assert conn in h'.topics[t]; }
    }
    forall t, c | t in h'.topics && c in h'.topics[t]
      ensures h'.topics[t][c] < |h'.channels| && h'.channels[h'.topics[t][c]].topic == t && h'.channels[h'.topics[t][c]].conn == c
    {
      if t != topic || c != conn { assert t in h.topics && c in h.topics[t] && h'.topics[t][c] == h.topics[t][c]; }
    }
  }

  lemma LeaveOk(h: Hub, topic: string, conn: ConnId)
    requires HubOk(h)
    ensures HubOk(Leave(h, topic, conn))
  {
    var h' := Leave(h, topic, conn);
    forall t, c | t in h'.topics && c in h'.topics[t]
      ensures t in h.topics && c in h.topics[t] && h'.topics[t][c] == h.topics[t][c]
    {
    }
  }

  /** Pushing into channels and closing them, and dropping whole topics, breaks nothing. */
  lemma ShrinkOk(h: Hub, h': Hub)
    requires HubOk(h) && |h'.channels| == |h.channels|
    requires forall i :: 0 <= i < |h.channels| ==> h'.channels[i].topic == h.channels[i].topic && h'.channels[i].conn == h.channels[i].conn
    requires forall t :: t in h'.topics ==> t in h.topics && h'.topics[t] == h.topics[t]
    ensures HubOk(h')
  {
  }

  lemma HubOkKept(h: Hub, op: Op)
    requires HubOk(h)
    ensures HubOk(Apply(h, op)) && |Apply(h, op).channels| >= |h.channels|
  {
    match op
    case OpJoin(topic, conn) => JoinOk(h, topic, conn);
    case OpLeave(topic, conn) => LeaveOk(h, topic, conn);
    case OpPublish(_, _, _) => ShrinkOk(h, Apply(h, op));
    case OpKill(_, _) => ShrinkOk(h, Apply(h, op));
    case OpHangUp(_) => ShrinkOk(h, Apply(h, op));
  }

  lemma JoinSeen(h: Hub, topic: string, conn: ConnId, ch: nat)
    requires HubOk(h) && ch < |h.channels|
    ensures var h' := Join(h, topic, conn);
            h'.channels[ch] == h.channels[ch] &&
            (IsMember(h', ch) <==> IsMember(h, ch) && !(topic == h.channels[ch].topic && conn == h.channels[ch].conn))
  {
    var h' := Join(h, topic, conn);
    var t, c := h.channels[ch].topic, h.channels[ch].conn;
    if t == topic && c == conn {
      assert h'.topics[t][c] == |h.channels|;
    } else if t == topic && t in h.topics {
      assert c in h'.topics[t] <==> c in h.topics[t];
    }
  }

  lemma LeaveSeen(h: Hub, topic: string, conn: ConnId, ch: nat)
    requires HubOk(h) && ch < |h.channels|
    ensures var h' := Leave(h, topic, conn);
            h'.channels[ch] == h.channels[ch] &&
            (IsMember(h', ch) <==> IsMember(h, ch) && !(topic == h.channels[ch].topic && conn == h.channels[ch].conn))
  {
    var t, c := h.channels[ch].topic, h.channels[ch].conn;
    if t == topic && t in h.topics {
      var members := h.topics[topic] - {conn};
      assert c in members <==> c in h.topics[t] && c != conn;
    }
  }

  /** Every operation changes every connection exactly as that connection would expect on its own. */
  lemma EachConnectionSeesItsOwn(h: Hub, op: Op, ch: nat)
    requires HubOk(h) && ch < |h.channels|
    ensures ch < |Apply(h, op).channels| && ViewOf(Apply(h, op), ch) == Seen(ViewOf(h, ch), ch, op)
  {
    match op
    case OpJoin(topic, conn) => JoinSeen(h, topic, conn, ch);
    case OpLeave(topic, conn) => LeaveSeen(h, topic, conn, ch);
    case OpPublish(topic, _, from) => TargetsAreMembers(h, topic, from, ch);
    case OpKill(topic, _) => TargetsAreMembers(h, topic, None, ch);
    case OpHangUp(x) =>
  }

  lemma {:induction false} RunOk(h: Hub, ops: seq<Op>)
    requires HubOk(h)
    ensures HubOk(Run(h, ops)) && |Run(h, ops).channels| >= |h.channels|
    decreases |ops|
  {
    if ops != [] {
      RunOk(h, ops[..|ops| - 1]);
      HubOkKept(Run(h, ops[..|ops| - 1]), ops[|ops| - 1]);
    }
  }

  lemma {:induction false} RunSeen(h: Hub, ops: seq<Op>, ch: nat)
    requires HubOk(h) && ch < |h.channels|
    ensures ch < |Run(h, ops).channels| && ViewOf(Run(h, ops), ch) == SeenAll(ViewOf(h, ch), ch, ops)
    decreases |ops|
  {
    if ops != [] {
      var before := ops[..|ops| - 1];
      RunSeen(h, before, ch);
      RunOk(h, before);
      EachConnectionSeesItsOwn(Run(h, before), ops[|ops| - 1], ch);
    }
  }

  /** In every serial run, from its join on, a connection's channel holds exactly what its own view of the operations
      says: the bodies published to its topic by others while it was a member, in order, and a Close if it was killed. */
  lemma JoinedConnectionSeesItsTopic(ops: seq<Op>, topic: string, conn: ConnId, later: seq<Op>)
    ensures var h := Apply(Run(EMPTY, ops), OpJoin(topic, conn));
            var ch := |Run(EMPTY, ops).channels|;
            && ch < |Run(h, later).channels|
            && ViewOf(Run(h, later), ch) == SeenAll(View(true, Channel(topic, conn, [], true)), ch, later)
            && HubOk(Run(h, later))
  {
    RunOk(EMPTY, ops);
    HubOkKept(Run(EMPTY, ops), OpJoin(topic, conn));
    var h := Apply(Run(EMPTY, ops), OpJoin(topic, conn));
    RunSeen(h, later, |Run(EMPTY, ops).channels|);
    RunOk(h, later);
  }

  // ----- Counting connections -----

  function Members(topics: map<string, map<ConnId, nat>>): set<(string, ConnId)> {
    set t, c | t in topics && c in topics[t] :: (t, c)
  }

  function OnTopic(topics: map<string, map<ConnId, nat>>, topic: string): set<(string, ConnId)> {
    set p | p in Members(topics) && p.0 == topic
  }

  /** The change an operation makes to the number of connections: a join of somebody new adds one, a leave of a member
      takes one away, a kill takes away the topic's members. */
  function Change(h: Hub, op: Op): int {
    match op
    case OpJoin(t, c) => if (t, c) in Members(h.topics) then 0 else 1
    case OpLeave(t, c) => if (t, c) in Members(h.topics) then -1 else 0
    case OpKill(t, _) => -|OnTopic(h.topics, t)|
    case _ => 0
  }

  function TotalChange(h: Hub, ops: seq<Op>): int
    decreases |ops|
  {
    if ops == [] then 0
    else TotalChange(h, ops[..|ops| - 1]) + Change(Run(h, ops[..|ops| - 1]), ops[|ops| - 1])
  }

  lemma MembersAfterJoin(h: Hub, t: string, c: ConnId)
    ensures Members(Join(h, t, c).topics) == Members(h.topics) + {(t, c)}
  {
    var h' := Join(h, t, c);
    forall u, d ensures (u, d) in Members(h'.topics) <==> (u, d) in Members(h.topics) || (u == t && d == c) {
    }
  }

  lemma MembersAfterLeave(h: Hub, t: string, c: ConnId)
    ensures Members(Leave(h, t, c).topics) == Members(h.topics) - {(t, c)}
  {
    var h' := Leave(h, t, c);
    if t in h.topics {
      var rest := h.topics[t] - {c};
      assert forall d :: d in rest <==> d in h.topics[t] && d != c;
      assert rest == map[] ==> forall d :: d in h.topics[t] ==> d == c by {
        if rest == map[] { assert forall d :: d !in rest; }
      }
    }
    forall u, d ensures (u, d) in Members(h'.topics) <==> (u, d) in Members(h.topics) && !(u == t && d == c) {
    }
  }

  lemma MembersAfterKill(h: Hub, t: string)
    ensures Members(h.topics - {t}) == Members(h.topics) - OnTopic(h.topics, t)
  {
    forall u, d ensures (u, d) in Members(h.topics - {t}) <==> (u, d) in Members(h.topics) && u != t {
    }
  }

  lemma WithoutSubset<T>(s: set<T>, part: set<T>)
    requires part <= s
    ensures |s - part| == |s| - |part|
  {
  }

  lemma WithOne<T>(s: set<T>, x: T)
    ensures |s + {x}| == |s| + if x in s then 0 else 1
  {
    if x in s { assert s + {x} == s; }
  }

  lemma WithoutOne<T>(s: set<T>, x: T)
    ensures |s - {x}| == |s| - if x in s then 1 else 0
  {
    if x !in s { assert s - {x} == s; }
  }

  lemma JoinChange(h: Hub, t: string, c: ConnId)
    ensures |Members(Join(h, t, c).topics)| == |Members(h.topics)| + if (t, c) in Members(h.topics) then 0 else 1
  {
    MembersAfterJoin(h, t, c);
    WithOne(Members(h.topics), (t, c));
  }

  lemma LeaveChange(h: Hub, t: string, c: ConnId)
    ensures |Members(Leave(h, t, c).topics)| == |Members(h.topics)| - if (t, c) in Members(h.topics) then 1 else 0
  {
    MembersAfterLeave(h, t, c);
    WithoutOne(Members(h.topics), (t, c));
  }

  lemma MembersChange(h: Hub, op: Op)
    ensures |Members(Apply(h, op).topics)| == |Members(h.topics)| + Change(h, op)
  {
    match op
    case OpJoin(t, c) => JoinChange(h, t, c);
    case OpLeave(t, c) => LeaveChange(h, t, c);
    case OpKill(t, reason) => KillChange(h, t, reason);
    case OpPublish(_, _, _) =>
    case OpHangUp(_) =>
  }

  lemma KillChange(h: Hub, t: string, reason: string)
    ensures |Members(Kill(h, t, reason).topics)| == |Members(h.topics)| - |OnTopic(h.topics, t)|
  {
    MembersAfterKill(h, t);
    WithoutSubset(Members(h.topics), OnTopic(h.topics, t));
  }

  /** `connections()` is joins minus effective leaves minus killed members (a repeated join of the same connection
      counting once). */
  lemma {:induction false} ConnectionsAddUp(ops: seq<Op>)
    ensures |Members(Run(EMPTY, ops).topics)| == TotalChange(EMPTY, ops)
    decreases |ops|
  {
    if ops == [] {
      assert Members(EMPTY.topics) == {};
    } else {
      ConnectionsAddUp(ops[..|ops| - 1]);
      MembersChange(Run(EMPTY, ops[..|ops| - 1]), ops[|ops| - 1]);
    }
  }
}
