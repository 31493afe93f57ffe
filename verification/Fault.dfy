/** Fault rules (crates/core/src/fault.rs, crates/core/src/config.rs:81-87). */
module Faults {
  import opened ByteStrings
  import opened Glob
  import opened Options

  datatype FaultSpec = FaultSpec(
    route: Bytes,
    rate: real,
    latencyMs: Option<nat>,
    jitterMs: Option<nat>,
    status: Option<nat>,
    truncateAt: Option<nat>,
    dropConnection: bool
  ) {
    /** The delay this rule injects on a jitter roll: none without a base latency, whatever the jitter. */
    function DelayMs(roll: real): Option<int> {
      if latencyMs.None? then None
      else
        var jitter := if jitterMs.Some? then roll * (jitterMs.value as real) else 0.0;
        Some(latencyMs.value + jitter.Floor)
    }

    /** One name for each thing this rule does when it fires, in a fixed order. */
    function EffectNames(): seq<string> {
      (if latencyMs.Some? then ["latency"] else []) +
      (if status.Some? then ["status"] else []) +
      (if truncateAt.Some? then ["truncate"] else []) +
      (if dropConnection then ["drop"] else [])
    }
  }

  datatype TelemetryFault = TelemetryFault(
    rate: real,
    orphanSpans: bool,
    clockSkewMs: Option<int>,
    cardinalityBomb: Option<nat>,
    attributeBloatBytes: Option<nat>,
    dropExport: bool,
    exportLatencyMs: Option<nat>,
    corruptInboundTraceparent: bool,
    counterReset: bool
  )

  datatype SigningScheme = Stripe | Github | Unsigned

  datatype WebhookEndpoint = WebhookEndpoint(
    name: string,
    url: string,
    sign: SigningScheme,
    secret: Option<string>,
    backoffMs: seq<nat>,
    failFirst: nat
  )

  /** The rules whose route matches, in declaration order. */
  ghost function Applying(faults: seq<FaultSpec>, path: Bytes): seq<FaultSpec> {
    if faults == [] then []
    else
      var last := faults[|faults| - 1];
      Applying(faults[..|faults| - 1], path) + if Spells(last.route, path) then [last] else []
  }

  method FaultsFor(faults: seq<FaultSpec>, path: Bytes) returns (rules: seq<FaultSpec>)
    ensures rules == Applying(faults, path)
  {
    rules := [];
    for i := 0 to |faults|
      invariant rules == Applying(faults[..i], path)
    {
      assert faults[..i + 1][..i] == faults[..i];
      var matches := GlobMatch(faults[i].route, path);
      if matches {
        rules := rules + [faults[i]];
      }
    }
    assert faults[..|faults|] == faults;
  }

  ghost predicate Matching(faults: seq<FaultSpec>, path: Bytes, k: nat) {
    k < |faults| && RouteMatches(faults[k], path)
  }

  /** These are the places of the rules picked: ascending, all that match and no other. */
  ghost predicate Picks(faults: seq<FaultSpec>, path: Bytes, rules: seq<FaultSpec>, at: seq<nat>) {
    && |at| == |rules|
    && (forall i :: 0 <= i < |at| ==> Matching(faults, path, at[i]) && rules[i] == faults[at[i]])
    && (forall i, j :: 0 <= i < j < |at| ==> at[i] < at[j])
    && (forall k: nat :: Matching(faults, path, k) ==> k in at)
  }

  ghost predicate RouteMatches(rule: FaultSpec, path: Bytes) {
    Spells(rule.route, path)
  }

  lemma ApplyingNext(front: seq<FaultSpec>, last: FaultSpec, path: Bytes)
    ensures Applying(front + [last], path) == if RouteMatches(last, path) then Applying(front, path) + [last] else Applying(front, path)
  {
    assert (front + [last])[..|front|] == front;
  }

  lemma PicksNext(faults: seq<FaultSpec>, path: Bytes, rules: seq<FaultSpec>, at: seq<nat>, rule: FaultSpec, matches: bool)
    requires Picks(faults, path, rules, at) && matches == RouteMatches(rule, path)
    ensures if matches then Picks(faults + [rule], path, rules + [rule], at + [|faults|]) else Picks(faults + [rule], path, rules, at)
  {
    forall k: nat ensures Matching(faults + [rule], path, k) <==> Matching(faults, path, k) || (k == |faults| && matches) {
      if k < |faults| { assert (faults + [rule])[k] == faults[k]; }
    }
    assert matches ==> (at + [|faults|])[|at|] == |faults|;
  }

  lemma PicksOneMore(front: seq<FaultSpec>, last: FaultSpec, path: Bytes, at: seq<nat>) returns (at': seq<nat>)
    requires Picks(front, path, Applying(front, path), at)
    ensures Picks(front + [last], path, Applying(front + [last], path), at')
  {
    ApplyingNext(front, last, path);
    PicksNext(front, path, Applying(front, path), at, last, RouteMatches(last, path));
    at' := if RouteMatches(last, path) then at + [|front|] else at;
  }

  lemma {:induction false} ApplyingPicks(faults: seq<FaultSpec>, path: Bytes) returns (at: seq<nat>)
    ensures Picks(faults, path, Applying(faults, path), at)
  {
    if faults == [] {
      at := [];
    } else {
      var front, last := faults[..|faults| - 1], faults[|faults| - 1];
      at := ApplyingPicks(front, path);
      at := PicksOneMore(front, last, path, at);
      assert faults == front + [last];
    }
  }

  /** A rule with a base latency adds it, and the whole part of its jitter times the roll; without one it adds nothing. */
  lemma DelayAdds(spec: FaultSpec, roll: real)
    ensures spec.latencyMs.None? ==> spec.DelayMs(roll).None?
    ensures spec.latencyMs.Some? && spec.jitterMs.None? ==> spec.DelayMs(roll) == Some(spec.latencyMs.value)
    ensures spec.latencyMs.Some? && spec.jitterMs.Some? ==>
      spec.DelayMs(roll) == Some(spec.latencyMs.value + (roll * (spec.jitterMs.value as real)).Floor)
  {
    if spec.latencyMs.Some? && spec.jitterMs.Some? {
      var jitter := roll * (spec.jitterMs.value as real);
      assert spec.DelayMs(roll).value == spec.latencyMs.value + jitter.Floor;
    }
  }

  /** For rolls below one that is no less than the latency and no more than latency and jitter together. */
  lemma DelayIsBounded(spec: FaultSpec, roll: real)
    requires 0.0 <= roll < 1.0 && spec.latencyMs.Some?
    ensures spec.latencyMs.value <= spec.DelayMs(roll).value <= spec.latencyMs.value + spec.jitterMs.OrElse(0)
  {
    DelayAdds(spec, roll);
    if spec.jitterMs.Some? {
      ShareOf(roll, spec.jitterMs.value as real);
    }
  }

  lemma ShareOf(roll: real, whole: real)
    requires 0.0 <= roll < 1.0 && whole >= 0.0
    ensures 0.0 <= roll * whole <= whole
  {
  }

  lemma {:induction false} ApplyingAppend(a: seq<FaultSpec>, b: seq<FaultSpec>, path: Bytes)
    ensures Applying(a + b, path) == Applying(a, path) + Applying(b, path)
    decreases |b|
  {
    if b == [] {
      assert a + b == a;
    } else {
      var front := b[..|b| - 1];
      assert (a + b)[..|a + b| - 1] == a + front;
      ApplyingAppend(a, front, path);
    }
  }
}
