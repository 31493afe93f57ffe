/** How often the event bus is told about each transition of a job, compared with what the store did.

    A scheduler writes a result back first and announces it afterwards (crates/queue/src/scheduler.rs:137-138,
    154-155). Every transition is announced exactly once, the starts of lost claims excepted. */
module QueueEvents {
  import opened Counting
  import opened Jobs
  import opened MemoryStores
  import opened QueueProtocol
  import opened QueueHistory
  import opened Times

  function Transitions(h: seq<Entry>): seq<Transition> {
    if h == [] then [] else Transitions(h[..|h| - 1]) + [h[|h| - 1].t]
  }

  /** The announcements a scheduler still has to make for transitions that have already happened. */
  function Owed(s: Sched): seq<Transition> {
    (if Owes(s.exec) then [Closing(s.exec.next)] else []) + Openings(s.queue)
  }

  function OwedByAll(scheds: seq<Sched>, t: Transition): nat {
    if scheds == [] then 0 else Count(Owed(scheds[0]), t) + OwedByAll(scheds[1..], t)
  }

  /** What was announced, what is still owed and the starts nobody knows of are together what the store did, plus the
      results it failed to record. */
  ghost predicate Accounted(w: World) {
    forall t :: AccountOf(w, t)
  }

  ghost predicate AccountOf(w: World, t: Transition) {
    Count(w.events, t) + OwedByAll(w.scheds, t) + Count(w.silent, t) == Count(Transitions(w.history), t) + Count(w.phantoms, t)
  }

  lemma {:induction false} OwedUpdate(scheds: seq<Sched>, s: nat, x: Sched, t: Transition)
    requires s < |scheds|
    ensures OwedByAll(scheds[s := x], t) + Count(Owed(scheds[s]), t) == OwedByAll(scheds, t) + Count(Owed(x), t)
    decreases s
  {
    if s == 0 {
      assert scheds[0 := x][1..] == scheds[1..];
    } else {
      assert scheds[s := x][1..] == scheds[1..][s - 1 := x];
      OwedUpdate(scheds[1..], s - 1, x, t);
    }
  }

  lemma {:induction false} TransitionsAppend(a: seq<Entry>, b: seq<Entry>)
    ensures Transitions(a + b) == Transitions(a) + Transitions(b)
    decreases |b|
  {
    if b == [] {
      assert a + b == a;
    } else {
      assert (a + b)[..|a + b| - 1] == a + b[..|b| - 1];
      TransitionsAppend(a, b[..|b| - 1]);
    }
  }

  lemma {:induction false} OpeningsAreEntries(claimed: seq<Job>, at: Time)
    ensures Transitions(OpeningEntries(claimed, at)) == Openings(claimed)
  {
    if claimed != [] {
      var head := [Entry(Opening(claimed[0]), at)];
      OpeningsAreEntries(claimed[1..], at);
      TransitionsAppend(head, OpeningEntries(claimed[1..], at));
      assert head[..0] == [] && Transitions(head) == [Opening(claimed[0])];
    }
  }

  /** What a step adds to the account: announcements, transitions made, results not recorded, and starts unknown. */
  datatype Change = Change(announced: seq<Transition>, made: seq<Transition>, unsaved: seq<Transition>, silent: seq<Transition>)

  const NO_CHANGE := Change([], [], [], [])

  ghost predicate Shifted(c: Change, owed: seq<Transition>, owed': seq<Transition>) {
    c.announced + owed' + c.silent == c.made + c.unsaved + owed
  }

  lemma ShiftedCounts(c: Change, owed: seq<Transition>, owed': seq<Transition>, t: Transition)
    requires Shifted(c, owed, owed')
    ensures Count(c.announced, t) + Count(owed', t) + Count(c.silent, t) == Count(c.made, t) + Count(c.unsaved, t) + Count(owed, t)
  {
    CountAppend(c.announced, owed', t);
    CountAppend(c.announced + owed', c.silent, t);
    CountAppend(c.made, c.unsaved, t);
    CountAppend(c.made + c.unsaved, owed, t);
  }

  ghost predicate Changes(w: World, w': World, c: Change) {
    && w'.events == w.events + c.announced && w'.phantoms == w.phantoms + c.unsaved && w'.silent == w.silent + c.silent
    && Transitions(w'.history) == Transitions(w.history) + c.made
  }

  /** A step balances when what it adds to one side of the account it adds to the other. */
  lemma Balances(w: World, w': World, s: nat, c: Change)
    requires Accounted(w) && s < |w.scheds| && |w'.scheds| == |w.scheds| && w'.scheds == w.scheds[s := w'.scheds[s]]
    requires Changes(w, w', c) && Shifted(c, Owed(w.scheds[s]), Owed(w'.scheds[s]))
    ensures Accounted(w')
  {
    forall t ensures AccountOf(w', t) {
      assert AccountOf(w, t);
      OwedUpdate(w.scheds, s, w'.scheds[s], t);
      CountAppend(w.events, c.announced, t);
      CountAppend(w.phantoms, c.unsaved, t);
      CountAppend(w.silent, c.silent, t);
      CountAppend(Transitions(w.history), c.made, t);
      ShiftedCounts(c, Owed(w.scheds[s]), Owed(w'.scheds[s]), t);
    }
  }

  lemma ClaimedTransitions(h: seq<Entry>, claimed: seq<Job>, at: Time)
    ensures Transitions(h + OpeningEntries(claimed, at)) == Transitions(h) + Openings(claimed)
  {
    TransitionsAppend(h, OpeningEntries(claimed, at));
    OpeningsAreEntries(claimed, at);
  }

  lemma AccountedClaim(w: World, s: nat, reading: Time, order: seq<JobId>)
    requires Enabled(w, Claim(s, reading, order)) && Accounted(w)
    ensures Accounted(Apply(w, Claim(s, reading, order)))
  {
    var w', claimed := Apply(w, Claim(s, reading, order)), HandedOut(order, w.jobs);
    ClaimedTransitions(w.history, claimed, reading);
    assert Owed(w.scheds[s]) == [] && Owed(w'.scheds[s]) == Openings(claimed);
    Balances(w, w', s, NO_CHANGE.(made := Openings(claimed)));
  }

  lemma AccountedLoseClaim(w: World, s: nat, reading: Time, order: seq<JobId>)
    requires Enabled(w, LoseClaim(s, reading, order)) && Accounted(w)
    ensures Accounted(Apply(w, LoseClaim(s, reading, order)))
  {
    var claimed := HandedOut(order, w.jobs);
    ClaimedTransitions(w.history, claimed, reading);
    Balances(w, Apply(w, LoseClaim(s, reading, order)), s, NO_CHANGE.(made := Openings(claimed), silent := Openings(claimed)));
  }

  lemma AccountedBegin(w: World, s: nat)
    requires Enabled(w, Begin(s)) && Accounted(w)
    ensures Accounted(Apply(w, Begin(s)))
  {
    var w', queue := Apply(w, Begin(s)), w.scheds[s].queue;
    assert Owed(w.scheds[s]) == Openings(queue) && Owed(w'.scheds[s]) == Openings(queue[1..]);
    Balances(w, w', s, NO_CHANGE.(announced := [Opening(queue[0])]));
  }

  lemma AccountedPersist(w: World, s: nat)
    requires Enabled(w, Persist(s)) && Accounted(w)
    ensures Accounted(Apply(w, Persist(s)))
  {
    var exec := w.scheds[s].exec;
    TransitionsAppend(w.history, [Entry(Closing(exec.next), exec.at)]);
    OneTransition(Entry(Closing(exec.next), exec.at));
    Balances(w, Apply(w, Persist(s)), s, NO_CHANGE.(made := [Closing(exec.next)]));
  }

  lemma AccountedRest(w: World, step: Step)
    requires Enabled(w, step) && Accounted(w) && (step.Handle? || step.LosePersist? || step.Announce?)
    ensures Accounted(Apply(w, step))
  {
    var w', s := Apply(w, step), step.s;
    if step.Handle? {
      Balances(w, w', s, NO_CHANGE);
    } else if step.LosePersist? {
      assert Owed(w'.scheds[s]) == [Closing(w.scheds[s].exec.next)] + Owed(w.scheds[s]);
      Balances(w, w', s, NO_CHANGE.(unsaved := [Closing(w.scheds[s].exec.next)]));
    } else {
      assert [Closing(w.scheds[s].exec.next)] + Owed(w'.scheds[s]) == Owed(w.scheds[s]);
      Balances(w, w', s, NO_CHANGE.(announced := [Closing(w.scheds[s].exec.next)]));
    }
  }

  lemma AccountedStep(w: World, step: Step)
    requires Enabled(w, step) && Accounted(w)
    ensures Accounted(Apply(w, step))
  {
    match step
    case Enqueue(_) => SameAccount(w, Apply(w, step));
    case Advance(_) => SameAccount(w, Apply(w, step));
    case Claim(s, reading, order) => AccountedClaim(w, s, reading, order);
    case LoseClaim(s, reading, order) => AccountedLoseClaim(w, s, reading, order);
    case Begin(s) => AccountedBegin(w, s);
    case Persist(s) => AccountedPersist(w, s);
    case _ => AccountedRest(w, step);
  }

  lemma SameAccount(w: World, w': World)
    requires Accounted(w) && w'.events == w.events && w'.scheds == w.scheds && w'.silent == w.silent
    requires w'.history == w.history && w'.phantoms == w.phantoms
    ensures Accounted(w')
  {
    forall t ensures AccountOf(w', t) {
      assert AccountOf(w, t);
    }
  }

  lemma OneTransition(a: Entry)
    ensures Transitions([a]) == [a.t]
  {
    assert [a][..0] == [];
  }

  lemma {:induction false} AccountedRun(w: World, steps: seq<Step>)
    requires CanRun(w, steps) && Accounted(w)
    ensures Accounted(Run(w, steps))
    decreases |steps|
  {
    if steps != [] {
      AccountedStep(w, steps[0]);
      AccountedRun(Apply(w, steps[0]), steps[1..]);
    }
  }

  lemma {:induction false} IdleOwesNothing(scheds: seq<Sched>, t: Transition)
    requires AllIdle(scheds)
    ensures OwedByAll(scheds, t) == 0
  {
    if scheds != [] {
      assert Owed(scheds[0]) == [];
      IdleOwesNothing(scheds[1..], t);
    }
  }

  /** In every run that has come to rest, each transition is announced as often as the store made it, but for the starts
      of lost claims, which nobody announces, and the results of failed write-backs, which are announced all the same. */
  lemma EveryTransitionIsAnnounced(schedulers: nat, now: Time, steps: seq<Step>, t: Transition)
    requires CanRun(Start(schedulers, now), steps) && AllIdle(Run(Start(schedulers, now), steps).scheds)
    ensures var w := Run(Start(schedulers, now), steps);
            Count(w.events, t) + Count(w.silent, t) == Count(Transitions(w.history), t) + Count(w.phantoms, t)
  {
    var w0 := Start(schedulers, now);
    forall u ensures AccountOf(w0, u) {
      IdleOwesNothing(w0.scheds, u);
    }
    AccountedRun(w0, steps);
    IdleOwesNothing(Run(w0, steps).scheds, t);
    assert AccountOf(Run(w0, steps), t);
  }
}
