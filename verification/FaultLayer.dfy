/** The fold over the rules of one request, and what the HTTP layer makes of it (crates/http/src/fault.rs). */
module FaultLayers {
  import opened Counting
  import opened Faults
  import opened ByteStrings
  import opened Options

  /** The random draws of one request, in the order they are made. */
  type Rolls = nat -> real

  datatype Effects = Effects(delay: Option<int>, status: Option<nat>, truncateAt: Option<nat>, dropConnection: bool, names: seq<string>) {
    predicate Fired() {
      names != []
    }
  }

  /** What a rule can carry. A status is only an override when it is a status code that exists. */
  datatype Kind = Latency | Override | NamedStatus | Cut | Drop

  predicate Has(spec: FaultSpec, kind: Kind) {
    match kind
    case Latency => spec.latencyMs.Some?
    case Override => spec.status.Some? && 100 <= spec.status.value <= 999
    case NamedStatus => spec.status.Some?
    case Cut => spec.truncateAt.Some?
    case Drop => spec.dropConnection
  }

  // ----- What the rules mean -----

  /** The fate of one rule: whether it fires, and the jitter roll it gets if it does. */
  datatype Draw = Draw(fires: bool, jitter: real)

  /** The rolls used up: one for each rule that is skipped and two for each that fires. */
  function Used(draws: seq<Draw>): nat {
    if draws == [] then 0
    else Used(draws[..|draws| - 1]) + if draws[|draws| - 1].fires then 2 else 1
  }

  /** The fates of the rules. Every rule tosses its own coin, with the first roll its predecessors left. */
  function Draws(specs: seq<FaultSpec>, rolls: Rolls): (draws: seq<Draw>)
    ensures |draws| == |specs|
  {
    if specs == [] then []
    else
      var before := Draws(specs[..|specs| - 1], rolls);
      before + [Draw(rolls(Used(before)) < specs[|specs| - 1].rate, rolls(Used(before) + 1))]
  }

  function TotalDelay(specs: seq<FaultSpec>, draws: seq<Draw>): int
    requires |draws| == |specs|
  {
    if specs == [] then 0
    else
      var n := |specs| - 1;
      TotalDelay(specs[..n], draws[..n]) + if draws[n].fires then specs[n].DelayMs(draws[n].jitter).OrElse(0) else 0
  }

  function NamesFired(specs: seq<FaultSpec>, draws: seq<Draw>): seq<string>
    requires |draws| == |specs|
  {
    if specs == [] then []
    else
      var n := |specs| - 1;
      NamesFired(specs[..n], draws[..n]) + if draws[n].fires then specs[n].EffectNames() else []
  }

  /** Some rule fires and carries this. */
  ghost predicate SomeFired(specs: seq<FaultSpec>, draws: seq<Draw>, kind: Kind)
    requires |draws| == |specs|
  {
    exists i :: 0 <= i < |specs| && draws[i].fires && Has(specs[i], kind)
  }

  /** Rule `i` is the last that fires and carries this. */
  ghost predicate LastFired(specs: seq<FaultSpec>, draws: seq<Draw>, kind: Kind, i: nat)
    requires |draws| == |specs|
  {
    && i < |specs|
    && draws[i].fires && Has(specs[i], kind)
    && forall j :: i < j < |specs| && draws[j].fires ==> !Has(specs[j], kind)
  }

  function ScalarField(spec: FaultSpec, kind: Kind): Option<nat> {
    if kind == Override then spec.status else spec.truncateAt
  }

  /** A scalar is set by the last rule that fires and sets it, and stays unset when none does. */
  ghost predicate LastWins(specs: seq<FaultSpec>, draws: seq<Draw>, kind: Kind, result: Option<nat>)
    requires |draws| == |specs|
  {
    if SomeFired(specs, draws, kind) then
      exists i: nat :: LastFired(specs, draws, kind, i) && result == ScalarField(specs[i], kind)
    else
      result.None?
  }

  ghost predicate DelaySums(specs: seq<FaultSpec>, draws: seq<Draw>, delay: Option<int>)
    requires |draws| == |specs|
  {
    delay == if SomeFired(specs, draws, Latency) then Some(TotalDelay(specs, draws)) else None
  }

  /** What rules with these fates add up to. */
  ghost predicate Means(e: Effects, specs: seq<FaultSpec>, draws: seq<Draw>)
    requires |draws| == |specs|
  {
    && DelaySums(specs, draws, e.delay)
    && LastWins(specs, draws, Override, e.status)
    && LastWins(specs, draws, Cut, e.truncateAt)
    && e.dropConnection == SomeFired(specs, draws, Drop)
    && e.names == NamesFired(specs, draws)
  }

  // ----- One more rule -----

  lemma SomeFiredNext(specs: seq<FaultSpec>, draws: seq<Draw>, spec: FaultSpec, draw: Draw, kind: Kind)
    requires |draws| == |specs|
    ensures SomeFired(specs + [spec], draws + [draw], kind) <==>
      SomeFired(specs, draws, kind) || (draw.fires && Has(spec, kind))
  {
    var specs', draws' := specs + [spec], draws + [draw];
    if SomeFired(specs, draws, kind) {
      var i :| 0 <= i < |specs| && draws[i].fires && Has(specs[i], kind);
      assert draws'[i].fires && Has(specs'[i], kind);
    }
    if draw.fires && Has(spec, kind) {
      assert draws'[|specs|].fires && Has(specs'[|specs|], kind);
    }
  }

  lemma LastWinsNext(specs: seq<FaultSpec>, draws: seq<Draw>, spec: FaultSpec, draw: Draw, kind: Kind, result: Option<nat>)
    requires |draws| == |specs| && LastWins(specs, draws, kind, result)
    ensures LastWins(specs + [spec], draws + [draw], kind,
                     if draw.fires && Has(spec, kind) then ScalarField(spec, kind) else result)
  {
    var specs', draws' := specs + [spec], draws + [draw];
    SomeFiredNext(specs, draws, spec, draw, kind);
    if draw.fires && Has(spec, kind) {
      assert LastFired(specs', draws', kind, |specs|);
    } else if SomeFired(specs, draws, kind) {
      var i: nat :| LastFired(specs, draws, kind, i) && result == ScalarField(specs[i], kind);
      assert LastFired(specs', draws', kind, i) && specs'[i] == specs[i];
    }
  }

  lemma {:induction false} NoLatencyNoDelay(specs: seq<FaultSpec>, draws: seq<Draw>)
    requires |draws| == |specs| && !SomeFired(specs, draws, Latency)
    ensures TotalDelay(specs, draws) == 0
  {
    if specs != [] {
      var n := |specs| - 1;
      assert specs == specs[..n] + [specs[n]] && draws == draws[..n] + [draws[n]];
      SomeFiredNext(specs[..n], draws[..n], specs[n], draws[n], Latency);
      NoLatencyNoDelay(specs[..n], draws[..n]);
    }
  }

  lemma DelayNext(specs: seq<FaultSpec>, draws: seq<Draw>, spec: FaultSpec, draw: Draw, delay: Option<int>)
    requires |draws| == |specs| && DelaySums(specs, draws, delay)
    ensures DelaySums(specs + [spec], draws + [draw],
                      if draw.fires && spec.latencyMs.Some? then Some(delay.OrElse(0) + spec.DelayMs(draw.jitter).value)
                      else delay)
  {
    SomeFiredNext(specs, draws, spec, draw, Latency);
    assert (specs + [spec])[..|specs|] == specs && (draws + [draw])[..|specs|] == draws;
    if delay.None? {
      NoLatencyNoDelay(specs, draws);
    }
  }

  lemma NamesNext(specs: seq<FaultSpec>, draws: seq<Draw>, spec: FaultSpec, draw: Draw)
    requires |draws| == |specs|
    ensures NamesFired(specs + [spec], draws + [draw]) ==
      NamesFired(specs, draws) + if draw.fires then spec.EffectNames() else []
  {
    assert (specs + [spec])[..|specs|] == specs && (draws + [draw])[..|specs|] == draws;
  }

  function AddedDelay(e: Effects, spec: FaultSpec, jitter: real): Option<int> {
    if spec.latencyMs.Some? then Some(e.delay.OrElse(0) + spec.DelayMs(jitter).value) else e.delay
  }

  /** The effects after one more rule that fires. */
  function Added(e: Effects, spec: FaultSpec, jitter: real): Effects {
    Effects(AddedDelay(e, spec, jitter),
            if Has(spec, Override) then spec.status else e.status,
            if spec.truncateAt.Some? then spec.truncateAt else e.truncateAt,
            e.dropConnection || spec.dropConnection,
            e.names + spec.EffectNames())
  }

  lemma DropNext(specs: seq<FaultSpec>, draws: seq<Draw>, spec: FaultSpec, draw: Draw, dropped: bool)
    requires |draws| == |specs| && dropped == SomeFired(specs, draws, Drop)
    ensures (dropped || (draw.fires && spec.dropConnection)) == SomeFired(specs + [spec], draws + [draw], Drop)
  {
    SomeFiredNext(specs, draws, spec, draw, Drop);
  }

  lemma MeansFired(e: Effects, spec: FaultSpec, jitter: real, specs: seq<FaultSpec>, draws: seq<Draw>)
    requires |draws| == |specs| && Means(e, specs, draws)
    ensures Means(Added(e, spec, jitter), specs + [spec], draws + [Draw(true, jitter)])
  {
    var draw := Draw(true, jitter);
    var e', specs', draws' := Added(e, spec, jitter), specs + [spec], draws + [draw];
    assert DelaySums(specs', draws', e'.delay) by {
      DelayNext(specs, draws, spec, draw, e.delay);
    }
    assert LastWins(specs', draws', Override, e'.status) by {
      LastWinsNext(specs, draws, spec, draw, Override, e.status);
    }
    assert LastWins(specs', draws', Cut, e'.truncateAt) by {
      LastWinsNext(specs, draws, spec, draw, Cut, e.truncateAt);
    }
    DropNext(specs, draws, spec, draw, e.dropConnection);
    NamesNext(specs, draws, spec, draw);
  }

  lemma MeansSkipped(e: Effects, spec: FaultSpec, draw: Draw, specs: seq<FaultSpec>, draws: seq<Draw>)
    requires |draws| == |specs| && Means(e, specs, draws) && !draw.fires
    ensures Means(e, specs + [spec], draws + [draw])
  {
    DelayNext(specs, draws, spec, draw, e.delay);
    LastWinsNext(specs, draws, spec, draw, Override, e.status);
    LastWinsNext(specs, draws, spec, draw, Cut, e.truncateAt);
    SomeFiredNext(specs, draws, spec, draw, Drop);
    NamesNext(specs, draws, spec, draw);
  }

  /** The loop has dealt with the first `i` rules, having drawn `drawn` rolls. */
  ghost predicate UpTo(specs: seq<FaultSpec>, rolls: Rolls, i: nat, effects: Effects, drawn: nat) {
    && i <= |specs|
    && drawn == Used(Draws(specs[..i], rolls))
    && Means(effects, specs[..i], Draws(specs[..i], rolls))
  }

  lemma UpToNext(specs: seq<FaultSpec>, rolls: Rolls, i: nat, effects: Effects, drawn: nat)
    requires i < |specs| && UpTo(specs, rolls, i, effects, drawn)
    ensures rolls(drawn) >= specs[i].rate ==> UpTo(specs, rolls, i + 1, effects, drawn + 1)
    ensures rolls(drawn) < specs[i].rate ==>
      UpTo(specs, rolls, i + 1, Added(effects, specs[i], rolls(drawn + 1)), drawn + 2)
  {
    var draws := Draws(specs[..i], rolls);
    var draw := Draw(rolls(drawn) < specs[i].rate, rolls(drawn + 1));
    assert specs[..i + 1][..i] == specs[..i] && specs[..i + 1] == specs[..i] + [specs[i]];
    assert Draws(specs[..i + 1], rolls) == draws + [draw] && (draws + [draw])[..i] == draws;
    if draw.fires {
      MeansFired(effects, specs[i], draw.jitter, specs[..i], draws);
    } else {
      MeansSkipped(effects, specs[i], draw, specs[..i], draws);
    }
  }

  /** A rule that fires adds to the delay, overwrites the scalars it sets, and leaves its names. */
  method Fire(effects: Effects, spec: FaultSpec, jitter: real) returns (e: Effects)
    ensures e == Added(effects, spec, jitter)
  {
    e := effects;
    var delay := spec.DelayMs(jitter);
    if delay.Some? {
      e := e.(delay := Some(e.delay.OrElse(0) + delay.value));
    }
    if Has(spec, Override) {
      e := e.(status := spec.status);
    }
    if spec.truncateAt.Some? {
      e := e.(truncateAt := spec.truncateAt);
    }
    e := e.(dropConnection := e.dropConnection || spec.dropConnection, names := e.names + spec.EffectNames());
  }

  /** The loop over the rules. */
  method Resolve(specs: seq<FaultSpec>, rolls: Rolls) returns (effects: Effects, drawn: nat)
    ensures Means(effects, specs, Draws(specs, rolls))
    ensures drawn == Used(Draws(specs, rolls))
  {
    effects := Effects(None, None, None, false, []);
    drawn := 0;
    for i := 0 to |specs|
      invariant UpTo(specs, rolls, i, effects, drawn)
    {
      UpToNext(specs, rolls, i, effects, drawn);
      var coin := rolls(drawn);
      drawn := drawn + 1;
      if coin >= specs[i].rate {
        continue;
      }
      var jitter := rolls(drawn);
      drawn := drawn + 1;
      effects := Fire(effects, specs[i], jitter);
    }
    assert specs[..|specs|] == specs;
  }

  function CountFired(draws: seq<Draw>): nat {
    if draws == [] then 0 else CountFired(draws[..|draws| - 1]) + if draws[|draws| - 1].fires then 1 else 0
  }

  /** Every rule costs one roll, and every rule that fires costs a second. */
  lemma {:induction false} RollsUsed(draws: seq<Draw>)
    ensures Used(draws) == |draws| + CountFired(draws)
  {
    if draws != [] {
      RollsUsed(draws[..|draws| - 1]);
    }
  }

  // ----- What the layer does -----

  /** `Aborted`: headers, then an error in the middle of the body. `Answered`: a response the handler never saw.
      `Handled`: the handler's response, its body perhaps cut, with the length it announced unchanged. */
  datatype Outcome = Aborted(status: nat) | Answered(status: nat) | Handled(status: nat, announced: nat, body: Bytes)

  /** A response of the handler behind the layer. */
  datatype Response = Response(status: nat, body: Bytes)

  const OK_STATUS := 200

  function Truncated(body: Bytes, at: nat): Bytes {
    body[..if at <= |body| then at else |body|]
  }

  function Decide(e: Effects, response: Response): Outcome {
    if e.dropConnection then Aborted(e.status.OrElse(OK_STATUS))
    else if e.status.Some? then Answered(e.status.value)
    else
      Handled(response.status, |response.body|,
              if e.truncateAt.Some? then Truncated(response.body, e.truncateAt.value) else response.body)
  }

  /** The layer on one request: the rules of this path, what they add up to, and what the client gets. */
  method Layer(faults: seq<FaultSpec>, path: Bytes, rolls: Rolls, response: Response) returns (effects: Effects, outcome: Outcome)
    ensures Means(effects, Applying(faults, path), Draws(Applying(faults, path), rolls))
    ensures outcome == Decide(effects, response)
  {
    var specs := FaultsFor(faults, path);
    var drawn;
    effects, drawn := Resolve(specs, rolls);
    outcome := Decide(effects, response);
  }

  /** A rule overrides the status exactly when it names one of the three-digit codes. */
  lemma OverridesIff(spec: FaultSpec)
    ensures Has(spec, Override) <==> spec.status.Some? && 100 <= spec.status.value < 1_000
  {
  }

  /** This is the value the last rule that fires and sets it has set. */
  ghost predicate LastSet(specs: seq<FaultSpec>, draws: seq<Draw>, kind: Kind, value: nat)
    requires |draws| == |specs|
  {
    exists i: nat :: LastFired(specs, draws, kind, i) && ScalarField(specs[i], kind) == Some(value)
  }

  lemma LastWinsSet(specs: seq<FaultSpec>, draws: seq<Draw>, kind: Kind, result: Option<nat>)
    requires |draws| == |specs| && LastWins(specs, draws, kind, result) && (kind == Override || kind == Cut)
    ensures result.Some? <==> SomeFired(specs, draws, kind)
    ensures result.Some? ==> LastSet(specs, draws, kind, result.value)
  {
    if SomeFired(specs, draws, kind) {
      var i: nat :| LastFired(specs, draws, kind, i) && result == ScalarField(specs[i], kind);
    }
  }

  /** The client gets an aborted transfer exactly when a rule that fires drops connections, an answer in the handler's
      stead exactly when none does but one sets a valid status, and otherwise the handler's. The status of the first two
      is the last one set, or 200 when an aborted transfer has none; the handler's body comes whole unless a rule that
      fires cuts it, and then as its first bytes, as many as the last such rule lets through, under the full announced
      length. */
  lemma WhatTheClientGets(specs: seq<FaultSpec>, draws: seq<Draw>, e: Effects, response: Response)
    requires |draws| == |specs| && Means(e, specs, draws)
    ensures Decide(e, response).Aborted? <==> SomeFired(specs, draws, Drop)
    ensures Decide(e, response).Answered? <==> !SomeFired(specs, draws, Drop) && SomeFired(specs, draws, Override)
    ensures !Decide(e, response).Handled? && SomeFired(specs, draws, Override) ==>
      LastSet(specs, draws, Override, Decide(e, response).status)
    ensures Decide(e, response).Aborted? && !SomeFired(specs, draws, Override) ==> Decide(e, response).status == 200
    ensures Decide(e, response).Handled? ==>
      Decide(e, response).status == response.status && Decide(e, response).announced == |response.body| &&
      Decide(e, response).body <= response.body
    ensures Decide(e, response).Handled? && !SomeFired(specs, draws, Cut) ==> Decide(e, response).body == response.body
    ensures Decide(e, response).Handled? && SomeFired(specs, draws, Cut) ==>
      exists at: nat :: LastSet(specs, draws, Cut, at) && |Decide(e, response).body| == Min(at, |response.body|)
  {
    LastWinsSet(specs, draws, Override, e.status);
    LastWinsSet(specs, draws, Cut, e.truncateAt);
    if e.truncateAt.Some? {
      assert |Truncated(response.body, e.truncateAt.value)| == Min(e.truncateAt.value, |response.body|);
    }
  }

  // ----- What the names say -----

  /** The name under which something is recorded. An override and a bare status share one. */
  function NameOf(kind: Kind): string {
    match kind
    case Latency => "latency"
    case Override => "status"
    case NamedStatus => "status"
    case Cut => "truncate"
    case Drop => "drop"
  }

  lemma NamesOfOne(spec: FaultSpec, kind: Kind)
    requires kind != Override
    ensures NameOf(kind) in spec.EffectNames() <==> Has(spec, kind)
  {
    assert "latency"[0] == 'l' && "status"[0] == 's' && "truncate"[0] == 't' && "drop"[0] == 'd';
  }

  function Rank(name: string): nat {
    if name == "latency" then 0 else if name == "status" then 1 else if name == "truncate" then 2 else 3
  }

  /** The names of one rule come in a fixed order, and each at most once. */
  lemma NamesInOrder(spec: FaultSpec)
    ensures var names := spec.EffectNames(); forall i, j :: 0 <= i < j < |names| ==> Rank(names[i]) < Rank(names[j])
  {
    assert "latency"[0] == 'l' && "status"[0] == 's' && "truncate"[0] == 't' && "drop"[0] == 'd';
  }

  lemma {:induction false} NameIsFired(specs: seq<FaultSpec>, draws: seq<Draw>, kind: Kind)
    requires |draws| == |specs| && kind != Override
    ensures NameOf(kind) in NamesFired(specs, draws) <==> SomeFired(specs, draws, kind)
  {
    if specs != [] {
      var n := |specs| - 1;
      assert specs == specs[..n] + [specs[n]] && draws == draws[..n] + [draws[n]];
      SomeFiredNext(specs[..n], draws[..n], specs[n], draws[n], kind);
      NameIsFired(specs[..n], draws[..n], kind);
      NamesOfOne(specs[n], kind);
    }
  }

  /** The names tell which effects are in force, with one exception: "status" is also recorded for a status code that
      does not exist, which overrides nothing. */
  lemma NamesTellTheEffects(specs: seq<FaultSpec>, draws: seq<Draw>, e: Effects)
    requires |draws| == |specs| && Means(e, specs, draws)
    ensures "latency" in e.names <==> e.delay.Some?
    ensures "truncate" in e.names <==> e.truncateAt.Some?
    ensures "drop" in e.names <==> e.dropConnection
    ensures "status" in e.names && e.status.None? <==>
      SomeFired(specs, draws, NamedStatus) && !SomeFired(specs, draws, Override)
    ensures e.Fired() <==> e.delay.Some? || e.truncateAt.Some? || e.dropConnection || "status" in e.names
  {
    NameIsFired(specs, draws, Latency);
    NameIsFired(specs, draws, NamedStatus);
    NameIsFired(specs, draws, Cut);
    NameIsFired(specs, draws, Drop);
    LastWinsSet(specs, draws, Override, e.status);
    LastWinsSet(specs, draws, Cut, e.truncateAt);
    OnlyTheseNames(specs, draws);
    if e.names != [] {
      assert e.names[0] in e.names;
    }
  }

  lemma {:induction false} OnlyTheseNames(specs: seq<FaultSpec>, draws: seq<Draw>)
    requires |draws| == |specs|
    ensures forall name :: name in NamesFired(specs, draws) ==> name in ["latency", "status", "truncate", "drop"]
  {
    if specs != [] {
      OnlyTheseNames(specs[..|specs| - 1], draws[..|specs| - 1]);
    }
  }

  /** Rules that are certain leave nothing to the draw: with rolls from 0 up to but not including 1, a rule at rate 1
      fires and a rule at rate 0 does not, wherever they stand in the list. */
  lemma {:induction false} CertainRules(specs: seq<FaultSpec>, rolls: Rolls, i: nat)
    requires i < |specs| && forall k: nat :: 0.0 <= rolls(k) < 1.0
    ensures specs[i].rate >= 1.0 ==> Draws(specs, rolls)[i].fires
    ensures specs[i].rate <= 0.0 ==> !Draws(specs, rolls)[i].fires
  {
    var n := |specs| - 1;
    if i < n {
      CertainRules(specs[..n], rolls, i);
    } else {
      assert 0.0 <= rolls(Used(Draws(specs[..n], rolls))) < 1.0;
    }
  }
}
