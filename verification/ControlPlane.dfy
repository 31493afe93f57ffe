/** The layered configuration and its operators (crates/core/src/state.rs, crates/core/src/config.rs,
    crates/core/src/snapshot.rs, and the fault endpoints of crates/admin/src/lib.rs). */
module ControlPlanes {
  import opened Clocks
  import opened Faults
  import opened Options
  import opened Times

  datatype Scenario = Scenario(name: string, faults: seq<FaultSpec>, telemetry: TelemetryFault, webhooks: seq<WebhookEndpoint>)

  /** What operators have changed: nothing, or a replacement, for each part. */
  datatype Overlay = Overlay(faults: Option<seq<FaultSpec>>, telemetry: Option<TelemetryFault>, webhooks: Option<seq<WebhookEndpoint>>)

  datatype Resolved = Resolved(faults: seq<FaultSpec>, telemetry: TelemetryFault, webhooks: seq<WebhookEndpoint>)

  const NO_OVERLAY := Overlay(None, None, None)

  function Resolve(base: Scenario, overlay: Overlay): Resolved {
    Resolved(overlay.faults.OrElse(base.faults),
             overlay.telemetry.OrElse(base.telemetry),
             overlay.webhooks.OrElse(base.webhooks))
  }

  type Mutation = Overlay -> Overlay

  // ----- Runs of the control plane -----

  datatype Plane = Plane(base: Scenario, overlay: Overlay, resolved: Resolved, world: World)

  function BootPlane(base: Scenario, timer: nat): Plane {
    Plane(base, NO_OVERLAY, Resolve(base, NO_OVERLAY), World(Boot(), timer))
  }

  datatype Op = Mutate(f: Mutation) | ResetAll | Tick(step: Step)

  function Mutated(p: Plane, f: Mutation): Plane {
    p.(overlay := f(p.overlay), resolved := Resolve(p.base, f(p.overlay)))
  }

  function ApplyOp(p: Plane, op: Op): Plane {
    match op
    case Mutate(f) => Mutated(p, f)
    case ResetAll =>
      p.(overlay := NO_OVERLAY, resolved := Resolve(p.base, NO_OVERLAY), world := Apply(p.world, Step.Reset))
    case Tick(step) => p.(world := Apply(p.world, step))
  }

  function RunOps(p: Plane, ops: seq<Op>): Plane
    decreases |ops|
  {
    if ops == [] then p else RunOps(ApplyOp(p, ops[0]), ops[1..])
  }

  /** The operations after the last reset. */
  function SinceReset(ops: seq<Op>): seq<Op> {
    if ops == [] then []
    else
      var last := ops[|ops| - 1];
      if last.ResetAll? then [] else SinceReset(ops[..|ops| - 1]) + [last]
  }

  /** The mutations among some operations, applied in order. */
  function Folded(overlay: Overlay, ops: seq<Op>): Overlay
    decreases |ops|
  {
    if ops == [] then overlay else Folded(if ops[0].Mutate? then ops[0].f(overlay) else overlay, ops[1..])
  }

  lemma {:induction false} RunOpsLast(p: Plane, ops: seq<Op>, op: Op)
    ensures RunOps(p, ops + [op]) == ApplyOp(RunOps(p, ops), op)
    decreases |ops|
  {
    if ops == [] {
      assert [op][1..] == [];
    } else {
      assert (ops + [op])[1..] == ops[1..] + [op];
      RunOpsLast(ApplyOp(p, ops[0]), ops[1..], op);
    }
  }

  lemma {:induction false} FoldedLast(overlay: Overlay, ops: seq<Op>, op: Op)
    ensures Folded(overlay, ops + [op]) == var o := Folded(overlay, ops); if op.Mutate? then op.f(o) else o
    decreases |ops|
  {
    if ops == [] {
      assert [op][1..] == [];
    } else {
      assert (ops + [op])[1..] == ops[1..] + [op];
      FoldedLast(if ops[0].Mutate? then ops[0].f(overlay) else overlay, ops[1..], op);
    }
  }

  /** After any run from boot, what is in force is the scenario under the mutations made since the last reset, in
      order; and the scenario is what it was. */
  lemma {:induction false} InForce(base: Scenario, timer: nat, ops: seq<Op>)
    ensures
      var p, overlay := RunOps(BootPlane(base, timer), ops), Folded(NO_OVERLAY, SinceReset(ops));
      p.base == base && p.overlay == overlay && p.resolved == Resolve(base, overlay)
    decreases |ops|
  {
    if ops != [] {
      var front, last := ops[..|ops| - 1], ops[|ops| - 1];
      assert ops == front + [last];
      InForce(base, timer, front);
      RunOpsLast(BootPlane(base, timer), front, last);
      FoldedLast(NO_OVERLAY, SinceReset(front), last);
    }
  }

  /** Part by part: an override stands for its part, an empty one included, and a part without one is the scenario's. */
  predicate Layered(base: Scenario, overlay: Overlay, resolved: Resolved) {
    && resolved.faults == (match overlay.faults case Some(faults) => faults case None => base.faults)
    && resolved.telemetry == (match overlay.telemetry case Some(telemetry) => telemetry case None => base.telemetry)
    && resolved.webhooks == (match overlay.webhooks case Some(webhooks) => webhooks case None => base.webhooks)
  }

  /** Over any run from boot, each part in force is what the overlay carries for it, or else the scenario's; right after a
      boot or a reset all three are the scenario's. */
  lemma PartsInForce(base: Scenario, timer: nat, ops: seq<Op>)
    ensures var p := RunOps(BootPlane(base, timer), ops); Layered(base, p.overlay, p.resolved)
    ensures ops == [] || ops[|ops| - 1].ResetAll? ==>
      RunOps(BootPlane(base, timer), ops).resolved == Resolved(base.faults, base.telemetry, base.webhooks)
  {
    InForce(base, timer, ops);
  }

  /** Whatever was done before, a reset leaves exactly what a boot would have left at that moment, clock included. */
  lemma ResetIsBoot(base: Scenario, timer: nat, ops: seq<Op>)
    ensures
      var p := RunOps(BootPlane(base, timer), ops);
      RunOps(BootPlane(base, timer), ops + [ResetAll]) == BootPlane(base, p.world.timer)
  {
    InForce(base, timer, ops);
    RunOpsLast(BootPlane(base, timer), ops, ResetAll);
  }

  // ----- Snapshots -----

  datatype Snapshot = Snapshot(virtualNow: int, offset: int, frozen: bool, base: Scenario, overlay: Overlay)

  function Capture(p: Plane): Snapshot {
    Snapshot(p.world.Now(), p.world.clock.offset, p.world.clock.frozen, p.base, p.overlay)
  }

  /** A process booted from a snapshot: its clock restored, then its overlay put back by one mutation. */
  function Rebuilt(snapshot: Snapshot, timer: nat): Plane {
    var booted := BootPlane(snapshot.base, timer);
    Mutated(booted.(world := World(Restored(snapshot.offset, snapshot.frozen, timer), timer)), _ => snapshot.overlay)
  }

  /** A rebuilt process has in force what the captured one had, with the same offset, frozen or not as it was; a reset
      brings it to the boot state of the captured scenario. Its clock shows wall time plus the offset, which is the time
      captured exactly when the captured clock showed as much on its own timer as the new one does. */
  lemma RestoreRebuilds(base: Scenario, timer: nat, ops: seq<Op>, timer': nat)
    ensures
      var p := RunOps(BootPlane(base, timer), ops);
      var q := Rebuilt(Capture(p), timer');
      && q.base == p.base && q.overlay == p.overlay && q.resolved == p.resolved
      && q.world.clock.offset == p.world.clock.offset && q.world.clock.frozen == p.world.clock.frozen
      && q.world.Now() == Cap(timer') + p.world.clock.offset
      && (q.world.Now() == Capture(p).virtualNow <==>
          Cap(timer') == (if p.world.clock.frozen then p.world.clock.frozenElapsed else Cap(p.world.timer)))
      && ApplyOp(q, ResetAll) == BootPlane(base, timer')
  {
    InForce(base, timer, ops);
  }

  // ----- Adding a fault: a read outside the lock, then a write -----

  /** What one caller has read and not yet written: the rules to write, and how many writes had been made by then. */
  datatype Pending = Pending(faults: seq<FaultSpec>, spec: FaultSpec, version: nat)

  datatype Adding = Adding(plane: Plane, version: nat, pending: map<nat, Pending>)

  /** The two halves of adding a rule, and anything else an operator may do in between. */
  datatype AddStep = ReadRules(caller: nat, spec: FaultSpec) | WriteRules(caller: nat) | Operate(op: Op)

  function SetFaults(faults: seq<FaultSpec>): Mutation {
    (o: Overlay) => o.(faults := Some(faults))
  }

  predicate AddEnabled(s: Adding, step: AddStep) {
    (step.ReadRules? ==> step.caller !in s.pending) && (step.WriteRules? ==> step.caller in s.pending)
  }

  function ApplyAdd(s: Adding, step: AddStep): Adding
    requires AddEnabled(s, step)
  {
    match step
    case ReadRules(caller, spec) =>
      s.(pending := s.pending[caller := Pending(s.plane.resolved.faults, spec, s.version)])
    case WriteRules(caller) =>
      var pend := s.pending[caller];
      Adding(Mutated(s.plane, SetFaults(pend.faults + [pend.spec])), s.version + 1, s.pending - {caller})
    case Operate(op) => s.(plane := ApplyOp(s.plane, op))
  }

  predicate CanAdd(s: Adding, steps: seq<AddStep>)
    decreases |steps|
  {
    steps == [] || (AddEnabled(s, steps[0]) && CanAdd(ApplyAdd(s, steps[0]), steps[1..]))
  }

  function RunAdds(s: Adding, steps: seq<AddStep>): Adding
    requires CanAdd(s, steps)
    decreases |steps|
  {
    if steps == [] then s else RunAdds(ApplyAdd(s, steps[0]), steps[1..])
  }

  // Among any other operations.

  /** What the same step would do if adding a rule were one step: append to what is in force when it writes. */
  function AtomicStep(s: Adding, p: Plane, step: AddStep): Plane
    requires AddEnabled(s, step)
  {
    match step
    case ReadRules(_, _) => p
    case WriteRules(caller) => Mutated(p, SetFaults(p.resolved.faults + [s.pending[caller].spec]))
    case Operate(op) => ApplyOp(p, op)
  }

  /** The run is at every moment where it would be if adding a rule were one step. */
  ghost predicate AlwaysAtomic(s: Adding, p: Plane, steps: seq<AddStep>)
    requires CanAdd(s, steps)
    decreases |steps|
  {
    s.plane == p && (steps != [] ==> AlwaysAtomic(ApplyAdd(s, steps[0]), AtomicStep(s, p, steps[0]), steps[1..]))
  }

  /** Whoever writes finds the rules in force that it read. */
  predicate Undisturbed(s: Adding, steps: seq<AddStep>)
    requires CanAdd(s, steps)
    decreases |steps|
  {
    steps == [] ||
    ((steps[0].WriteRules? ==> s.pending[steps[0].caller].faults == s.plane.resolved.faults) &&
     Undisturbed(ApplyAdd(s, steps[0]), steps[1..]))
  }

  lemma SameAppendSameRules(a: seq<FaultSpec>, b: seq<FaultSpec>, spec: FaultSpec)
    ensures a + [spec] == b + [spec] ==> a == b
  {
    if a + [spec] == b + [spec] {
      assert a == (a + [spec])[..|a|] && b == (b + [spec])[..|b|];
    }
  }

  /** Whatever operators do, any number of them adding rules, changing or clearing them, resetting: the run is at every
      moment as if adding a rule were one step exactly when whoever writes finds the rules in force that it read. */
  lemma {:induction false} AddsAreAtomicIff(s: Adding, steps: seq<AddStep>)
    requires CanAdd(s, steps)
    ensures AlwaysAtomic(s, s.plane, steps) <==> Undisturbed(s, steps)
    decreases |steps|
  {
    if steps != [] {
      var s', p' := ApplyAdd(s, steps[0]), AtomicStep(s, s.plane, steps[0]);
      if steps[0].WriteRules? {
        var pend := s.pending[steps[0].caller];
        SameAppendSameRules(pend.faults, s.plane.resolved.faults, pend.spec);
        assert s'.plane.resolved.faults == pend.faults + [pend.spec];
        assert p'.resolved.faults == s.plane.resolved.faults + [pend.spec];
      }
      AddsAreAtomicIff(s', steps[1..]);
    }
  }

  /** A clear between the read and the write is undone by the write. */
  lemma ClearIsUndone(p: Plane, spec: FaultSpec)
    ensures
      var s := Adding(p, 0, map[]);
      var steps := [ReadRules(1, spec), Operate(Mutate(SetFaults([]))), WriteRules(1)];
      CanAdd(s, steps) && RunAdds(s, steps).plane.resolved.faults == p.resolved.faults + [spec]
  {
    var s0 := Adding(p, 0, map[]);
    var s1 := ApplyAdd(s0, ReadRules(1, spec));
    var s2 := ApplyAdd(s1, Operate(Mutate(SetFaults([]))));
    var s3 := ApplyAdd(s2, WriteRules(1));
    assert CanAdd(s3, []) && [WriteRules(1)][1..] == [];
    assert CanAdd(s2, [WriteRules(1)]) && RunAdds(s2, [WriteRules(1)]) == s3;
    var two := [Operate(Mutate(SetFaults([]))), WriteRules(1)];
    assert two[1..] == [WriteRules(1)];
    assert CanAdd(s1, two) && RunAdds(s1, two) == s3;
    var three := [ReadRules(1, spec), Operate(Mutate(SetFaults([]))), WriteRules(1)];
    assert three[1..] == two;
  }

  // Among other callers only.

  predicate OnlyAdds(steps: seq<AddStep>) {
    forall i :: 0 <= i < |steps| ==> !steps[i].Operate?
  }

  /** The rules written, in order. */
  function Added(s: Adding, steps: seq<AddStep>): seq<FaultSpec>
    requires CanAdd(s, steps)
    decreases |steps|
  {
    if steps == [] then []
    else
      (if steps[0].WriteRules? then [s.pending[steps[0].caller].spec] else []) +
      Added(ApplyAdd(s, steps[0]), steps[1..])
  }

  /** No write falls between the read and the write of another caller. */
  predicate Serialised(s: Adding, steps: seq<AddStep>)
    requires CanAdd(s, steps)
    decreases |steps|
  {
    steps == [] ||
    ((steps[0].WriteRules? ==> s.pending[steps[0].caller].version == s.version) &&
     Serialised(ApplyAdd(s, steps[0]), steps[1..]))
  }

  /** `floor` is the number of rules there would be before any write. What a caller has read is never more than one rule
      for each write it saw, and a caller that saw the last write has read what is in force. */
  ghost predicate Bounded(s: Adding, floor: int) {
    && |s.plane.resolved.faults| <= floor + s.version
    && forall c :: c in s.pending ==>
      && s.pending[c].version <= s.version
      && |s.pending[c].faults| <= floor + s.pending[c].version
      && (s.pending[c].version == s.version ==> s.pending[c].faults == s.plane.resolved.faults)
  }

  lemma BoundedStep(s: Adding, step: AddStep, floor: int)
    requires AddEnabled(s, step) && Bounded(s, floor) && !step.Operate?
    ensures Bounded(ApplyAdd(s, step), floor)
  {
  }

  lemma {:induction false} WritesAreBounded(s: Adding, steps: seq<AddStep>, floor: int)
    requires CanAdd(s, steps) && Bounded(s, floor) && OnlyAdds(steps)
    ensures |RunAdds(s, steps).plane.resolved.faults| <= floor + s.version + |Added(s, steps)|
    ensures |s.plane.resolved.faults| < floor + s.version || !Serialised(s, steps) ==>
      |RunAdds(s, steps).plane.resolved.faults| < floor + s.version + |Added(s, steps)|
    decreases |steps|
  {
    if steps != [] {
      BoundedStep(s, steps[0], floor);
      WritesAreBounded(ApplyAdd(s, steps[0]), steps[1..], floor);
    }
  }

  lemma {:induction false} SerialisedAppends(s: Adding, steps: seq<AddStep>, floor: int)
    requires CanAdd(s, steps) && Bounded(s, floor) && OnlyAdds(steps) && Serialised(s, steps)
    ensures RunAdds(s, steps).plane.resolved.faults == s.plane.resolved.faults + Added(s, steps)
    decreases |steps|
  {
    if steps != [] {
      BoundedStep(s, steps[0], floor);
      SerialisedAppends(ApplyAdd(s, steps[0]), steps[1..], floor);
    }
  }

  /** However many callers add rules at once, starting with none under way and nobody else at work: in the end the rules
      written are appended, in order and without loss, exactly when no write falls between the read and the write of
      another caller. */
  lemma AddsAppendIff(s: Adding, steps: seq<AddStep>)
    requires CanAdd(s, steps) && s.pending == map[] && OnlyAdds(steps)
    ensures RunAdds(s, steps).plane.resolved.faults == s.plane.resolved.faults + Added(s, steps) <==> Serialised(s, steps)
  {
    var floor := |s.plane.resolved.faults| - s.version;
    if Serialised(s, steps) {
      SerialisedAppends(s, steps, floor);
    } else {
      WritesAreBounded(s, steps, floor);
    }
  }

  /** Two callers that both read before either writes: the first rule is lost. */
  lemma TwoCallersLoseARule(p: Plane, a: FaultSpec, b: FaultSpec)
    ensures
      var s := Adding(p, 0, map[]);
      var steps := [ReadRules(1, a), ReadRules(2, b), WriteRules(1), WriteRules(2)];
      CanAdd(s, steps) && RunAdds(s, steps).plane.resolved.faults == p.resolved.faults + [b]
  {
    var s0 := Adding(p, 0, map[]);
    var s1 := ApplyAdd(s0, ReadRules(1, a));
    var s2 := ApplyAdd(s1, ReadRules(2, b));
    var s3 := ApplyAdd(s2, WriteRules(1));
    var s4 := ApplyAdd(s3, WriteRules(2));
    assert CanAdd(s4, []);
    assert [WriteRules(2)][1..] == [];
    assert CanAdd(s3, [WriteRules(2)]) && RunAdds(s3, [WriteRules(2)]) == s4;
    assert [WriteRules(1), WriteRules(2)][1..] == [WriteRules(2)];
    assert CanAdd(s2, [WriteRules(1), WriteRules(2)]) && RunAdds(s2, [WriteRules(1), WriteRules(2)]) == s4;
    var three := [ReadRules(2, b), WriteRules(1), WriteRules(2)];
    assert three[1..] == [WriteRules(1), WriteRules(2)];
    assert CanAdd(s1, three) && RunAdds(s1, three) == s4;
    var four := [ReadRules(1, a), ReadRules(2, b), WriteRules(1), WriteRules(2)];
    assert four[1..] == three;
  }

  // ----- The state itself -----

  class State {
    const base: Scenario
    const clock: Clock
    var overlay: Overlay
    var resolved: Resolved

    ghost predicate Valid()
      reads this
    {
      resolved == Resolve(base, overlay)
    }

    ghost function Value(timer: nat): Plane
      reads this, clock
    {
      Plane(base, overlay, resolved, World(clock.State(), timer))
    }

    constructor (scenario: Scenario, clock: Clock)
      ensures Valid() && this.clock == clock && base == scenario && overlay == NO_OVERLAY
    {
      base := scenario;
      this.clock := clock;
      overlay := NO_OVERLAY;
      resolved := Resolve(scenario, NO_OVERLAY);
    }

    method ApplyMutation(f: Mutation)
      modifies this`overlay, this`resolved
      ensures Valid() && overlay == f(old(overlay)) && Layered(base, overlay, resolved)
      ensures forall timer :: Value(timer) == old(ApplyOp(Value(timer), Mutate(f)))
    {
      var next := f(overlay);
      resolved := Resolve(base, next);
      overlay := next;
    }

    method Reset()
      modifies this`overlay, this`resolved, clock
      ensures Valid()
      ensures resolved == Resolved(base.faults, base.telemetry, base.webhooks)
      ensures forall timer :: Value(timer) == old(ApplyOp(Value(timer), ResetAll)) == BootPlane(base, timer)
    {
      resolved := Resolve(base, NO_OVERLAY);
      overlay := NO_OVERLAY;
      clock.Reset();
    }

    /** Adds one rule to whatever is in force. */
    method AddFault(spec: FaultSpec)
      requires Valid()
      modifies this`overlay, this`resolved
      ensures Valid()
      ensures resolved == old(resolved).(faults := old(resolved).faults + [spec])
    {
      var faults := resolved.faults;
      ApplyMutation(SetFaults(faults + [spec]));
      assert Value(0).resolved == Resolve(base, old(overlay).(faults := Some(faults + [spec])));
    }

    /** Boots a process from a snapshot. */
    static method Restore(wall: Time, snapshot: Snapshot, timer: nat) returns (state: State)
      ensures fresh(state) && fresh(state.clock) && state.Valid()
      ensures state.Value(timer) == Rebuilt(snapshot, timer)
    {
      var clock := new Clock.Restore(wall, snapshot.offset, snapshot.frozen, timer);
      state := new State(snapshot.base, clock);
      state.ApplyMutation(_ => snapshot.overlay);
    }
  }
}
