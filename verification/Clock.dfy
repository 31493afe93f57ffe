/** The virtual clock (crates/core/src/clock.rs). */
module Clocks {
  import opened Int64
  import opened Times

  const TWO_TO_THE_64 := 0x1_0000_0000_0000_0000

  /** What an atomic add leaves: the sum, wrapped to 64 bits. */
  function Wrap(x: int): int {
    (x - I64_MIN) % TWO_TO_THE_64 + I64_MIN
  }

  /** A millisecond count as it arrives from a duration: anything too large becomes the largest value. */
  function Cap(ms: nat): int {
    if ms <= I64_MAX then ms else I64_MAX
  }

  /** The three atomics. `frozenElapsed` is only meaningful while `frozen`. */
  datatype Reading = Reading(offset: int, frozen: bool, frozenElapsed: int)

  /** Virtual milliseconds since the epoch, when the real timer stands at `timer` whole milliseconds. */
  function Virtual(r: Reading, timer: nat): int {
    (if r.frozen then r.frozenElapsed else Cap(timer)) + r.offset
  }

  function Advanced(r: Reading, d: nat): Reading {
    r.(offset := Wrap(r.offset + Cap(d)))
  }

  /** Freezing is two stores. */
  function Captured(r: Reading, timer: nat): Reading {
    r.(frozenElapsed := Cap(timer))
  }

  function Frozen(r: Reading, timer: nat): Reading {
    Captured(r, timer).(frozen := true)
  }

  /** Resuming is a swap of the flag, then, if it was set, a subtraction of the time skipped. */
  function Swapped(r: Reading): Reading {
    r.(frozen := false)
  }

  function Repaid(r: Reading, timer: nat): Reading {
    r.(offset := Wrap(r.offset - (Cap(timer) - r.frozenElapsed)))
  }

  function Resumed(r: Reading, timer: nat): Reading {
    if r.frozen then Repaid(Swapped(r), timer) else r
  }

  function Boot(): Reading {
    Reading(0, false, 0)
  }

  function Restored(offset: int, frozen: bool, timer: nat): Reading {
    var r := Boot().(offset := offset);
    if frozen then Frozen(r, timer) else r
  }

  // ----- Runs -----

  /** The clock and the real timer beside it. */
  datatype World = World(clock: Reading, timer: nat) {
    function Now(): int {
      Virtual(clock, timer)
    }
  }

  datatype Step = Elapse(ms: nat) | Advance(d: nat) | Freeze | Resume | Reset

  function Apply(w: World, step: Step): World {
    match step
    case Elapse(ms) => w.(timer := w.timer + ms)
    case Advance(d) => w.(clock := Advanced(w.clock, d))
    case Freeze => w.(clock := Frozen(w.clock, w.timer))
    case Resume => w.(clock := Resumed(w.clock, w.timer))
    case Reset => w.(clock := Boot())
  }

  function Run(w: World, steps: seq<Step>): World
    decreases |steps|
  {
    if steps == [] then w else Run(Apply(w, steps[0]), steps[1..])
  }

  /** The offset has room for an advance. */
  predicate Room(w: World, step: Step) {
    step.Advance? ==> w.clock.offset + Cap(step.d) <= I64_MAX
  }

  /** No reset, and neither an advance nor a resume takes the offset past 64 bits. */
  predicate Plain(w: World, steps: seq<Step>)
    decreases |steps|
  {
    steps == [] ||
    (!steps[0].Reset? && Room(w, steps[0]) &&
     (steps[0].Resume? && w.clock.frozen ==> w.Now() - Cap(w.timer) >= I64_MIN) &&
     Plain(Apply(w, steps[0]), steps[1..]))
  }

  predicate AdvancesFit(w: World, steps: seq<Step>)
    decreases |steps|
  {
    steps == [] || (!steps[0].Reset? && Room(w, steps[0]) && AdvancesFit(Apply(w, steps[0]), steps[1..]))
  }

  /** Virtual time asked for. */
  function Asked(steps: seq<Step>): nat {
    if steps == [] then 0
    else (if steps[0].Advance? then Cap(steps[0].d) else 0) + Asked(steps[1..])
  }

  /** Real time that passed while the clock was not frozen. */
  function Unfrozen(w: World, steps: seq<Step>): int
    decreases |steps|
  {
    if steps == [] then 0
    else
      var w' := Apply(w, steps[0]);
      (if w.clock.frozen then 0 else Cap(w'.timer) - Cap(w.timer)) + Unfrozen(w', steps[1..])
  }

  /** Real time swallowed by freezes of a clock that was frozen already. */
  function Recaptured(w: World, steps: seq<Step>): int
    decreases |steps|
  {
    if steps == [] then 0
    else
      (if steps[0].Freeze? && w.clock.frozen then Cap(w.timer) - w.clock.frozenElapsed else 0) +
      Recaptured(Apply(w, steps[0]), steps[1..])
  }

  predicate FreezesOnlyRunning(w: World, steps: seq<Step>)
    decreases |steps|
  {
    steps == [] ||
    ((steps[0].Freeze? ==> !w.clock.frozen) && FreezesOnlyRunning(Apply(w, steps[0]), steps[1..]))
  }

  predicate Sound(w: World) {
    && I64_MIN <= w.clock.offset <= I64_MAX
    && (w.clock.frozen ==> 0 <= w.clock.frozenElapsed <= Cap(w.timer))
  }

  lemma WrapFits(x: int)
    requires I64_MIN <= x <= I64_MAX
    ensures Wrap(x) == x
  {
  }

  lemma StepConserves(w: World, step: Step)
    requires Sound(w) && Plain(w, [step])
    ensures Sound(Apply(w, step))
    ensures Apply(w, step).Now() == w.Now() + Asked([step]) + Unfrozen(w, [step]) + Recaptured(w, [step])
    ensures Unfrozen(w, [step]) >= 0 && Recaptured(w, [step]) >= 0
  {
    match step {
      case Advance(d) => WrapFits(w.clock.offset + Cap(d));
      case Resume =>
        if w.clock.frozen {
          WrapFits(w.clock.offset - (Cap(w.timer) - w.clock.frozenElapsed));
        }
      case Elapse(_) =>
      case Freeze =>
    }
  }

  /** Virtual time is conserved over any run: it moves by exactly what was asked for, plus the real time spent unfrozen,
      plus what repeated freezes swallow. */
  lemma {:induction false} Conservation(w: World, steps: seq<Step>)
    requires Sound(w) && Plain(w, steps)
    ensures Sound(Run(w, steps))
    ensures Run(w, steps).Now() == w.Now() + Asked(steps) + Unfrozen(w, steps) + Recaptured(w, steps)
    ensures w.Now() <= Run(w, steps).Now()
    decreases |steps|
  {
    if steps != [] {
      StepConserves(w, steps[0]);
      Conservation(Apply(w, steps[0]), steps[1..]);
    }
  }

  /** A clock that shows a time from its epoch onwards, as every booted one does, cannot underflow: only its advances
      need room. */
  lemma {:induction false} OnlyAdvancesCanOverflow(w: World, steps: seq<Step>)
    requires Sound(w) && w.Now() >= 0 && AdvancesFit(w, steps)
    ensures Plain(w, steps)
    decreases |steps|
  {
    if steps != [] {
      StepConserves(w, steps[0]);
      OnlyAdvancesCanOverflow(Apply(w, steps[0]), steps[1..]);
    }
  }

  lemma {:induction false} NothingRecaptured(w: World, steps: seq<Step>)
    requires FreezesOnlyRunning(w, steps)
    ensures Recaptured(w, steps) == 0
    decreases |steps|
  {
    if steps != [] {
      NothingRecaptured(Apply(w, steps[0]), steps[1..]);
    }
  }

  /** When only a running clock is ever frozen, the advances and the real time unfrozen are all there is. */
  lemma OrderlyConservation(w: World, steps: seq<Step>)
    requires Sound(w) && Plain(w, steps) && FreezesOnlyRunning(w, steps)
    ensures Run(w, steps).Now() == w.Now() + Asked(steps) + Unfrozen(w, steps)
  {
    Conservation(w, steps);
    NothingRecaptured(w, steps);
  }

  /** Boot, a reset and a restore all leave a sound clock; the first two show wall time. */
  lemma SoundStarts(timer: nat, w: World, offset: int, frozen: bool)
    requires I64_MIN <= offset <= I64_MAX
    ensures Sound(World(Boot(), timer)) && Sound(Apply(w, Reset)) && Sound(World(Restored(offset, frozen, timer), timer))
    ensures Apply(w, Reset).Now() == Cap(w.timer) && World(Boot(), timer).Now() == Cap(timer)
  {
  }

  /** A freeze moves the time shown exactly when the clock is frozen already and the real timer has moved since. */
  lemma FreezeMovesTimeIff(w: World)
    ensures Apply(w, Freeze).Now() != w.Now() <==> w.clock.frozen && w.clock.frozenElapsed != Cap(w.timer)
  {
  }

  /** An advance moves time forward by what was asked exactly when the offset has room; otherwise time goes back. */
  lemma AdvanceMovesTimeIff(w: World, d: nat)
    requires I64_MIN <= w.clock.offset <= I64_MAX
    ensures Apply(w, Advance(d)).Now() == w.Now() + Cap(d) <==> w.clock.offset + Cap(d) <= I64_MAX
    ensures Apply(w, Advance(d)).Now() < w.Now() <==> w.clock.offset + Cap(d) > I64_MAX
  {
    var sum := w.clock.offset + Cap(d);
    if sum <= I64_MAX {
      WrapFits(sum);
    } else {
      WrapFits(sum - TWO_TO_THE_64);
      assert Wrap(sum) == Wrap(sum - TWO_TO_THE_64);
    }
  }

  // ----- In plain milliseconds -----

  /** An advance moves time by exactly the milliseconds asked for, up to the largest 64-bit value. */
  lemma AdvanceInMillis(w: World, d: nat)
    requires Sound(w)
    ensures d <= I64_MAX && w.clock.offset + d <= I64_MAX ==> Apply(w, Advance(d)).Now() == w.Now() + d
    ensures d > I64_MAX && w.clock.offset <= 0 ==> Apply(w, Advance(d)).Now() == w.Now() + I64_MAX
  {
    if w.clock.offset + Cap(d) <= I64_MAX { WrapFits(w.clock.offset + Cap(d)); }
  }

  /** While the timer is within 64 bits, a running clock moves with it, millisecond for millisecond, and a frozen one
      stands still. */
  lemma ElapseInMillis(w: World, ms: nat)
    requires w.timer + ms <= I64_MAX
    ensures Apply(w, Elapse(ms)).Now() == w.Now() + if w.clock.frozen then 0 else ms
  {
  }

  function MillisAsked(steps: seq<Step>): nat {
    if steps == [] then 0 else (if steps[0].Advance? then steps[0].d else 0) + MillisAsked(steps[1..])
  }

  function MillisElapsed(steps: seq<Step>): nat {
    if steps == [] then 0 else (if steps[0].Elapse? then steps[0].ms else 0) + MillisElapsed(steps[1..])
  }

  /** The real milliseconds that pass while the clock is not frozen. */
  function MillisUnfrozen(w: World, steps: seq<Step>): nat
    decreases |steps|
  {
    if steps == [] then 0
    else
      (if steps[0].Elapse? && !w.clock.frozen then steps[0].ms else 0) + MillisUnfrozen(Apply(w, steps[0]), steps[1..])
  }

  predicate DurationsFit(steps: seq<Step>) {
    forall i :: 0 <= i < |steps| && steps[i].Advance? ==> steps[i].d <= I64_MAX
  }

  lemma {:induction false} InPlainMillis(w: World, steps: seq<Step>)
    requires DurationsFit(steps) && w.timer + MillisElapsed(steps) <= I64_MAX
    ensures Asked(steps) == MillisAsked(steps) && Unfrozen(w, steps) == MillisUnfrozen(w, steps)
    decreases |steps|
  {
    if steps != [] {
      InPlainMillis(Apply(w, steps[0]), steps[1..]);
    }
  }

  /** In every run within 64 bits that freezes only a running clock, time moves by the milliseconds asked for and the
      real milliseconds that pass unfrozen, and by nothing else. */
  lemma ConservationInMillis(w: World, steps: seq<Step>)
    requires Sound(w) && Plain(w, steps) && FreezesOnlyRunning(w, steps)
    requires DurationsFit(steps) && w.timer + MillisElapsed(steps) <= I64_MAX
    ensures Run(w, steps).Now() == w.Now() + MillisAsked(steps) + MillisUnfrozen(w, steps)
  {
    OrderlyConservation(w, steps);
    InPlainMillis(w, steps);
  }

  // ----- Readers in the middle of a step -----

  /** Between the two stores of a freeze, a running clock shows what it showed before. */
  lemma FreezeHalfwayIsInvisible(r: Reading, timer: nat)
    requires !r.frozen
    ensures Virtual(Captured(r, timer), timer) == Virtual(r, timer) == Virtual(Frozen(r, timer), timer)
  {
  }

  /** Between the swap and the subtraction of a resume, the clock shows a time too late by the whole length of the
      freeze; so a reader there and a reader afterwards see time go back. */
  lemma ResumeHalfwayRunsAhead(r: Reading, timer: nat)
    requires r.frozen && Sound(World(r, timer)) && I64_MIN <= Virtual(r, timer) - Cap(timer)
    ensures Virtual(Swapped(r), timer) == Virtual(Resumed(r, timer), timer) + (Cap(timer) - r.frozenElapsed)
    ensures Virtual(Resumed(r, timer), timer) == Virtual(r, timer)
  {
    WrapFits(r.offset - (Cap(timer) - r.frozenElapsed));
  }

  // ----- A reader's three loads -----

  /** What a reader computes that finds this flag, then this clock when it loads the elapsed time, and at last this
      offset. */
  function Loaded(flag: bool, elapsed: World, offset: int): int {
    (if flag then elapsed.clock.frozenElapsed else Cap(elapsed.timer)) + offset
  }

  /** The time that resumes have taken back from the offset. */
  function TakenBack(w: World, steps: seq<Step>): int
    decreases |steps|
  {
    if steps == [] then 0
    else
      (if steps[0].Resume? && w.clock.frozen then Cap(w.timer) - w.clock.frozenElapsed else 0) +
      TakenBack(Apply(w, steps[0]), steps[1..])
  }

  lemma {:induction false} OffsetMoves(w: World, steps: seq<Step>)
    requires Sound(w) && Plain(w, steps)
    ensures Run(w, steps).clock.offset == w.clock.offset + Asked(steps) - TakenBack(w, steps)
    decreases |steps|
  {
    if steps != [] {
      StepConserves(w, steps[0]);
      match steps[0] {
        case Advance(d) => WrapFits(w.clock.offset + Cap(d));
        case Resume =>
          if w.clock.frozen {
            WrapFits(w.clock.offset - (Cap(w.timer) - w.clock.frozenElapsed));
          }
        case _ =>
      }
      OffsetMoves(Apply(w, steps[0]), steps[1..]);
    }
  }

  /** How far off the elapsed time is that a reader loads when the flag has changed since it was read: the length of the
      freeze, in either direction. */
  function StaleFlag(flag: bool, w: World): int {
    if flag == w.clock.frozen then 0
    else if flag then w.clock.frozenElapsed - Cap(w.timer)
    else Cap(w.timer) - w.clock.frozenElapsed
  }

  /** What a reader sees when any operations fall between its loads: the time at the second load, off by a flag that is
      out of date, ahead by the advances after it, and behind by what the resumes after it take back. Undisturbed it sees
      the time. */
  lemma LoadsApart(w: World, before: seq<Step>, after: seq<Step>)
    requires Sound(w) && Plain(w, before) && Plain(Run(w, before), after)
    ensures
      var mid := Run(w, before);
      Loaded(w.clock.frozen, mid, Run(mid, after).clock.offset) ==
        mid.Now() + StaleFlag(w.clock.frozen, mid) + Asked(after) - TakenBack(mid, after)
    ensures before == after == [] ==> Loaded(w.clock.frozen, w, w.clock.offset) == w.Now()
  {
    Conservation(w, before);
    OffsetMoves(Run(w, before), after);
  }

  /** A whole resume between the second load and the third makes the reader see a time too early by the whole freeze,
      although the resume does not move the time. */
  lemma ResumeInsideReadRunsBehind(w: World)
    requires w.clock.frozen && Sound(w) && I64_MIN <= w.Now() - Cap(w.timer)
    ensures Loaded(true, w, Resumed(w.clock, w.timer).offset) == w.Now() - (Cap(w.timer) - w.clock.frozenElapsed)
    ensures Virtual(Resumed(w.clock, w.timer), w.timer) == w.Now()
  {
    LoadsApart(w, [], [Resume]);
    ResumeHalfwayRunsAhead(w.clock, w.timer);
  }

  // ----- Other operators in the middle of a resume -----

  lemma WrapIs(x: int, laps: int, y: int)
    requires x == laps * TWO_TO_THE_64 + y && I64_MIN <= y <= I64_MAX
    ensures Wrap(x) == y
  {
  }

  lemma WrapAbsorbs(x: int, y: int)
    ensures Wrap(Wrap(x) + y) == Wrap(x + y)
  {
    var outer := (x - I64_MIN) / TWO_TO_THE_64;
    var inner := (Wrap(x) + y - I64_MIN) / TWO_TO_THE_64;
    WrapIs(x + y, outer + inner, Wrap(Wrap(x) + y));
  }

  /** An advance that lands inside a resume is neither lost nor doubled. */
  lemma AdvanceInsideResume(r: Reading, d: nat, timer: nat)
    requires r.frozen
    ensures Repaid(Advanced(Swapped(r), d), timer) == Advanced(Resumed(r, timer), d)
  {
    var skipped := Cap(timer) - r.frozenElapsed;
    WrapAbsorbs(r.offset + Cap(d), -skipped);
    WrapAbsorbs(r.offset - skipped, Cap(d));
  }

  /** A freeze that lands inside a resume makes the resume forget the first freeze: time jumps by all of it. */
  lemma FreezeInsideResume(r: Reading, timer: nat)
    requires r.frozen && Sound(World(r, timer))
    ensures Virtual(Repaid(Frozen(Swapped(r), timer), timer), timer) == Virtual(r, timer) + (Cap(timer) - r.frozenElapsed)
  {
    WrapFits(r.offset);
  }

  /** Two readings of one clock, whatever happened in between, lie whole milliseconds apart. */
  lemma ReadingsWholeMillisApart(epochWall: Time, a: World, b: World)
    ensures WholeMillisApart(epochWall + a.Now() * NANOS_PER_MS, epochWall + b.Now() * NANOS_PER_MS)
  {
    assert (epochWall + b.Now() * NANOS_PER_MS) - (epochWall + a.Now() * NANOS_PER_MS) == (b.Now() - a.Now()) * NANOS_PER_MS;
    MultipleOfMilli(b.Now() - a.Now());
  }

  lemma {:induction false} MultipleOfMilli(k: int)
    ensures k * NANOS_PER_MS % NANOS_PER_MS == 0
    decreases if k < 0 then -k else k
  {
    if k > 0 {
      MultipleOfMilli(k - 1);
    } else if k < 0 {
      MultipleOfMilli(k + 1);
    }
  }

  /** The clock itself. Every operation is told where the real timer stands. */
  class Clock {
    const epochWall: Time
    var offsetMs: int
    var frozen: bool
    var frozenElapsedMs: int

    function State(): Reading
      reads this
    {
      Reading(offsetMs, frozen, frozenElapsedMs)
    }

    constructor (wall: Time)
      ensures State() == Boot() && epochWall == wall
      ensures forall timer: nat :: timer <= I64_MAX ==> Now(timer) == wall + timer * NANOS_PER_MS
    {
      epochWall := wall;
      offsetMs, frozen, frozenElapsedMs := 0, false, 0;
    }

    /** A clock pinned to `at` and frozen already, `timer` being what little has passed since its own epoch. */
    constructor FrozenAt(at: Time, timer: nat)
      ensures State() == Frozen(Reading(0, true, 0), timer) && epochWall == at
      ensures frozen && State() == Restored(0, true, timer)
      ensures timer <= I64_MAX ==> forall later: nat :: Now(later) == at + timer * NANOS_PER_MS
    {
      epochWall := at;
      offsetMs, frozen, frozenElapsedMs := 0, true, 0;
      new;
      Freeze(timer);
    }

    constructor Restore(wall: Time, offset: int, wasFrozen: bool, timer: nat)
      ensures State() == Restored(offset, wasFrozen, timer) && epochWall == wall
    {
      epochWall := wall;
      offsetMs, frozen, frozenElapsedMs := offset, false, 0;
      new;
      if wasFrozen {
        Freeze(timer);
      }
    }

    function Now(timer: nat): Time
      reads this
    {
      epochWall + Virtual(State(), timer) * NANOS_PER_MS
    }

    method AdvanceBy(d: nat)
      modifies this`offsetMs
      ensures State() == Advanced(old(State()), d)
      ensures d <= I64_MAX && I64_MIN <= old(offsetMs) + d <= I64_MAX ==>
        forall timer: nat :: Now(timer) == old(Now(timer)) + d * NANOS_PER_MS
    {
      offsetMs := Wrap(offsetMs + Cap(d));
    }

    method Freeze(timer: nat)
      modifies this`frozenElapsedMs, this`frozen
      ensures State() == Frozen(old(State()), timer)
      ensures !old(frozen) ==> forall later: nat :: Now(later) == old(Now(timer))
    {
      frozenElapsedMs := Cap(timer);
      frozen := true;
    }

    method Resume(timer: nat)
      modifies this`offsetMs, this`frozen
      ensures State() == Resumed(old(State()), timer)
      ensures I64_MIN <= old(offsetMs) - (Cap(timer) - old(frozenElapsedMs)) <= I64_MAX ==> Now(timer) == old(Now(timer))
    {
      var wasFrozen := frozen;
      frozen := false;
      if !wasFrozen {
        return;
      }
      var skipped := Cap(timer) - frozenElapsedMs;
      offsetMs := Wrap(offsetMs - skipped);
    }

    method Reset()
      modifies this
      ensures State() == Boot()
      ensures forall timer: nat :: timer <= I64_MAX ==> Now(timer) == epochWall + timer * NANOS_PER_MS
    {
      offsetMs := 0;
      frozen := false;
      frozenElapsedMs := 0;
    }
  }
}
