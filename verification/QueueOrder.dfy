/** In which order the event bus is told about the transitions of each job.

    A result is announced after it was written back (crates/queue/src/scheduler.rs:137-138, 154-155), so another
    scheduler may claim the job and announce its next start in between. The announcements come in the store's order
    exactly when nobody overtakes like this and no failed write-back is announced. */
module QueueOrder {
  import opened Jobs
  import opened MemoryStores
  import opened QueueProtocol
  import opened QueueHistory
  import opened QueueEvents
  import opened Times

  function EventsOf(events: seq<Transition>, id: JobId): seq<Transition> {
    if events == [] then []
    else
      var last := events[|events| - 1];
      EventsOf(events[..|events| - 1], id) + if last.job == id then [last] else []
  }

  /** The announcements about each job, in order, are a prefix of what happened to it. */
  ghost predicate InOrder(w: World) {
    forall id :: InOrderFor(w, id)
  }

  ghost predicate InOrderFor(w: World, id: JobId) {
    EventsOf(w.events, id) <= Transitions(OfJob(w.history, id))
  }

  /** A start is announced although the previous result of the same job, already written back by another scheduler, is
      not announced yet. */
  ghost predicate Overtakes(w: World, step: Step) {
    step.Begin? && step.s < |w.scheds| && w.scheds[step.s].queue != [] &&
    exists r :: 0 <= r < |w.scheds| && w.scheds[r].exec.Stored? && w.scheds[r].exec.next.id == w.scheds[step.s].queue[0].id
  }

  /** A result is announced although it could not be written back. */
  ghost predicate Misreports(w: World, step: Step) {
    step.Announce? && step.s < |w.scheds| && w.scheds[step.s].exec.Unsaved?
  }

  ghost predicate Queued(w: World, id: JobId) {
    id in w.holder && w.holder[id] < |w.scheds| && Names(w.scheds[w.holder[id]].queue, id)
  }

  /** While nobody overtakes, at most one scheduler owes a recorded result for a given job; `ann` says which. A job under
      way, or one whose result was not recorded, has no such scheduler. */
  ghost predicate Announcers(w: World, ann: map<JobId, nat>) {
    && (forall s :: 0 <= s < |w.scheds| ==> AnnouncerOk(w.scheds[s].exec, s, w.stranded, ann))
    && (forall id :: id in ann ==> ann[id] < |w.scheds| && w.scheds[ann[id]].exec.Stored? && w.scheds[ann[id]].exec.next.id == id)
  }

  ghost predicate AnnouncerOk(exec: Exec, s: nat, stranded: set<JobId>, ann: map<JobId, nat>) {
    match exec
    case Idle => true
    case Began(job) => job.id !in ann
    case Answered(job, _, _) => job.id !in ann
    case Stored(next) => next.id in ann && ann[next.id] == s
    case Unsaved(next) => next.id !in ann && next.id in stranded
  }

  /** A start that the store made and nobody has announced: the job is in a queue, or its claim was lost. */
  ghost predicate StartPending(w: World, id: JobId) {
    id in w.jobs && (Queued(w, id) || id in w.lost)
  }

  ghost function Outstanding(w: World, ann: map<JobId, nat>, id: JobId): seq<Transition>
    requires Announcers(w, ann)
  {
    (if id in ann then [Closing(w.scheds[ann[id]].exec.next)] else []) +
    (if StartPending(w, id) then [Opening(w.jobs[id])] else [])
  }

  /** For each job: what was announced, then what is outstanding, is what happened. */
  ghost predicate LagsFor(w: World, ann: map<JobId, nat>, id: JobId)
    requires Announcers(w, ann)
  {
    EventsOf(w.events, id) + Outstanding(w, ann, id) == Transitions(OfJob(w.history, id))
  }

  ghost predicate Lagging(w: World, ann: map<JobId, nat>) {
    Announcers(w, ann) && forall id :: LagsFor(w, ann, id)
  }

  function NextAnnouncers(w: World, ann: map<JobId, nat>, step: Step): map<JobId, nat> {
    if step.Persist? && step.s < |w.scheds| && w.scheds[step.s].exec.Answered? then ann[w.scheds[step.s].exec.next.id := step.s]
    else if step.Announce? && step.s < |w.scheds| && w.scheds[step.s].exec.Stored? then ann - {w.scheds[step.s].exec.next.id}
    else ann
  }

  lemma BusyHolds(w: World, s: nat)
    requires AllHold(w) && s < |w.scheds| && (w.scheds[s].exec.Began? || w.scheds[s].exec.Answered?)
    ensures Held(w.jobs, w.holder, w.scheds[s].exec.job, s)
    ensures !Names(w.scheds[s].queue, w.scheds[s].exec.job.id)
  {
    assert Holds(w.jobs, w.holder, w.scheds[s], s);
    assert InFlight(w.scheds[s])[0] == w.scheds[s].exec.job;
    forall i | 0 <= i < |w.scheds[s].queue| ensures w.scheds[s].queue[i].id != w.scheds[s].exec.job.id {
      assert InFlight(w.scheds[s])[i + 1] == w.scheds[s].queue[i];
    }
  }

  lemma QueueHeadHolds(w: World, s: nat)
    requires AllHold(w) && s < |w.scheds| && w.scheds[s].exec.Idle? && w.scheds[s].queue != []
    ensures Held(w.jobs, w.holder, w.scheds[s].queue[0], s)
    ensures !Names(w.scheds[s].queue[1..], w.scheds[s].queue[0].id)
  {
    assert Holds(w.jobs, w.holder, w.scheds[s], s);
    assert InFlight(w.scheds[s]) == w.scheds[s].queue;
    forall i | 0 <= i < |w.scheds[s].queue[1..]| ensures w.scheds[s].queue[1..][i].id != w.scheds[s].queue[0].id {
      assert InFlight(w.scheds[s])[i + 1] == w.scheds[s].queue[1..][i];
    }
  }

  lemma AnnouncersPersist(w: World, ann: map<JobId, nat>, s: nat)
    requires Safe(w) && Announcers(w, ann) && Enabled(w, Persist(s))
    ensures Announcers(Apply(w, Persist(s)), NextAnnouncers(w, ann, Persist(s)))
  {
    var w', ann' := Apply(w, Persist(s)), NextAnnouncers(w, ann, Persist(s));
    PersistFacts(w, s);
    BusyHolds(w, s);
    forall r | 0 <= r < |w'.scheds| ensures AnnouncerOk(w'.scheds[r].exec, r, w'.stranded, ann') {
      if r != s {
        assert w'.scheds[r] == w.scheds[r] && AnnouncerOk(w.scheds[r].exec, r, w.stranded, ann);
        if w.scheds[r].exec.Began? || w.scheds[r].exec.Answered? {
          BusyHolds(w, r);
        }
      }
    }
  }

  lemma AnnouncersLosePersist(w: World, ann: map<JobId, nat>, s: nat)
    requires Safe(w) && Announcers(w, ann) && Enabled(w, LosePersist(s))
    ensures Announcers(Apply(w, LosePersist(s)), ann)
  {
    var w' := Apply(w, LosePersist(s));
    PersistFacts(w, s);
    assert AnnouncerOk(w.scheds[s].exec, s, w.stranded, ann);
    AnnouncersKeep(w, w', ann, s);
  }

  lemma OwedMeansOvertaking(w: World, ann: map<JobId, nat>, s: nat)
    requires Announcers(w, ann) && Enabled(w, Begin(s)) && w.scheds[s].queue[0].id in ann
    ensures Overtakes(w, Begin(s))
  {
    var r := ann[w.scheds[s].queue[0].id];
    assert w.scheds[r].exec.Stored? && w.scheds[r].exec.next.id == w.scheds[s].queue[0].id;
  }

  lemma AnnouncersBegin(w: World, ann: map<JobId, nat>, s: nat)
    requires Announcers(w, ann) && Enabled(w, Begin(s)) && !Overtakes(w, Begin(s))
    ensures Announcers(Apply(w, Begin(s)), ann)
    ensures w.scheds[s].queue[0].id !in ann
  {
    if w.scheds[s].queue[0].id in ann {
      OwedMeansOvertaking(w, ann, s);
    }
    AnnouncersKeep(w, Apply(w, Begin(s)), ann, s);
  }

  lemma AnnouncersStep(w: World, ann: map<JobId, nat>, step: Step)
    requires Safe(w) && Announcers(w, ann) && Enabled(w, step) && !Misreports(w, step) && !Overtakes(w, step)
    ensures Announcers(Apply(w, step), NextAnnouncers(w, ann, step))
  {
    match step
    case Enqueue(_) =>
    case Advance(_) =>
    case Claim(s, _, _) => AnnouncersKeep(w, Apply(w, step), ann, s);
    case LoseClaim(s, _, _) => AnnouncersKeep(w, Apply(w, step), ann, s);
    case Begin(s) => AnnouncersBegin(w, ann, s);
    case Handle(s, _) =>
      assert AnnouncerOk(w.scheds[s].exec, s, w.stranded, ann);
      AnnouncersKeep(w, Apply(w, step), ann, s);
    case Persist(s) => AnnouncersPersist(w, ann, s);
    case LosePersist(s) => AnnouncersLosePersist(w, ann, s);
    case Announce(s) => AnnouncersAnnounce(w, ann, s);
  }

  /** A scheduler that neither had nor gets a recorded result to announce changes nothing for the others. */
  lemma AnnouncersKeep(w: World, w': World, ann: map<JobId, nat>, s: nat)
    requires Announcers(w, ann) && s < |w.scheds| && |w'.scheds| == |w.scheds| && w.stranded <= w'.stranded
    requires forall r :: 0 <= r < |w.scheds| && r != s ==> w'.scheds[r] == w.scheds[r]
    requires !w.scheds[s].exec.Stored? && AnnouncerOk(w'.scheds[s].exec, s, w'.stranded, ann)
    ensures Announcers(w', ann)
  {
    forall r | 0 <= r < |w'.scheds| ensures AnnouncerOk(w'.scheds[r].exec, r, w'.stranded, ann) {
      if r != s {
        assert AnnouncerOk(w.scheds[r].exec, r, w.stranded, ann);
      }
    }
    forall id | id in ann ensures ann[id] != s {
    }
  }

  lemma AnnouncersAnnounce(w: World, ann: map<JobId, nat>, s: nat)
    requires Announcers(w, ann) && Enabled(w, Announce(s)) && !Misreports(w, Announce(s))
    ensures Announcers(Apply(w, Announce(s)), NextAnnouncers(w, ann, Announce(s)))
  {
    var w', ann' := Apply(w, Announce(s)), NextAnnouncers(w, ann, Announce(s));
    assert AnnouncerOk(w.scheds[s].exec, s, w.stranded, ann);
    forall r | 0 <= r < |w'.scheds| ensures AnnouncerOk(w'.scheds[r].exec, r, w'.stranded, ann') {
      if r != s {
        assert w'.scheds[r] == w.scheds[r] && AnnouncerOk(w.scheds[r].exec, r, w.stranded, ann);
      }
    }
  }

  /** The starts a claim makes pending, whether or not it reaches its scheduler. */
  ghost predicate ClaimPends(w: World, w': World, reading: Time, id: JobId) {
    if id in DueIds(w.jobs, reading) then !StartPending(w, id) && StartPending(w', id)
    else StartPending(w', id) <==> StartPending(w, id)
  }

  lemma DueIsQueued(w: World, s: nat, reading: Time, order: seq<JobId>, id: JobId)
    requires Safe(w) && Enabled(w, Claim(s, reading, order)) && id in DueIds(w.jobs, reading)
    ensures Queued(Apply(w, Claim(s, reading, order)), id)
  {
    var w' := Apply(w, Claim(s, reading, order));
    assert id in order;
    var i :| 0 <= i < |order| && order[i] == id;
    HandedOutIs(w.jobs, reading, order, i);
    assert w'.scheds[s].queue[i].id == id;
  }

  lemma PendingAfterClaim(w: World, s: nat, reading: Time, order: seq<JobId>, id: JobId)
    requires Safe(w) && Enabled(w, Claim(s, reading, order))
    ensures ClaimPends(w, Apply(w, Claim(s, reading, order)), reading, id)
  {
    var w' := Apply(w, Claim(s, reading, order));
    if id in DueIds(w.jobs, reading) {
      NotHeldWhileDue(w, reading, id);
      DueIsQueued(w, s, reading, order, id);
    } else if id in w.holder {
      assert InFlight(w.scheds[s]) == [] && Names(InFlight(w.scheds[w.holder[id]]), id);
      assert w'.scheds[w.holder[id]] == w.scheds[w.holder[id]];
    }
  }

  lemma PendingAfterLoseClaim(w: World, s: nat, reading: Time, order: seq<JobId>, id: JobId)
    requires Safe(w) && Enabled(w, LoseClaim(s, reading, order))
    ensures ClaimPends(w, Apply(w, LoseClaim(s, reading, order)), reading, id)
  {
    if id in DueIds(w.jobs, reading) {
      NotHeldWhileDue(w, reading, id);
    }
  }

  lemma QueuedAfterBegin(w: World, s: nat, id: JobId)
    requires Safe(w) && Enabled(w, Begin(s))
    ensures id == w.scheds[s].queue[0].id ==> Queued(w, id) && !Queued(Apply(w, Begin(s)), id)
    ensures id != w.scheds[s].queue[0].id ==> (Queued(Apply(w, Begin(s)), id) <==> Queued(w, id))
  {
    var queue := w.scheds[s].queue;
    QueueHeadHolds(w, s);
    if id != queue[0].id && Names(queue, id) {
      var i :| 0 <= i < |queue| && queue[i].id == id;
      assert queue[1..][i - 1].id == id;
    }
    if Names(queue[1..], id) {
      var i :| 0 <= i < |queue[1..]| && queue[1..][i].id == id;
      assert queue[i + 1].id == id;
    }
  }

  lemma EventsAppend(events: seq<Transition>, t: Transition, id: JobId)
    ensures EventsOf(events + [t], id) == EventsOf(events, id) + if t.job == id then [t] else []
  {
    assert (events + [t])[..|events|] == events;
  }

  /** The equation between announced, outstanding and happened survives every step that neither overtakes nor
      misreports. */
  lemma LaggingStep(w: World, ann: map<JobId, nat>, step: Step)
    requires Safe(w) && Lagging(w, ann) && Enabled(w, step) && !Misreports(w, step) && !Overtakes(w, step)
    ensures Lagging(Apply(w, step), NextAnnouncers(w, ann, step))
  {
    var w', ann' := Apply(w, step), NextAnnouncers(w, ann, step);
    AnnouncersStep(w, ann, step);
    forall id ensures LagsFor(w', ann', id) {
      assert LagsFor(w, ann, id);
      match step
      case Claim(s, reading, order) => LaggingClaim(w, ann, s, reading, order, id);
      case LoseClaim(s, reading, order) => LaggingLoseClaim(w, ann, s, reading, order, id);
      case Begin(s) => LaggingBegin(w, ann, s, id);
      case Persist(s) => LaggingPersist(w, ann, s, id);
      case LosePersist(s) => LaggingLosePersist(w, ann, s, id);
      case Announce(s) => LaggingAnnounce(w, ann, s, id);
      case _ => LaggingQuiet(w, ann, step, id);
    }
  }

  lemma PendingThroughQuiet(w: World, step: Step, id: JobId)
    requires Safe(w) && Enabled(w, step) && (step.Enqueue? || step.Advance? || step.Handle?)
    ensures StartPending(Apply(w, step), id) <==> StartPending(w, id)
    ensures id in w.jobs ==> id in Apply(w, step).jobs && Apply(w, step).jobs[id] == w.jobs[id]
  {
    if id in w.holder {
      HolderIsStored(w, id);
    }
  }

  lemma LaggingQuiet(w: World, ann: map<JobId, nat>, step: Step, id: JobId)
    requires Safe(w) && Announcers(w, ann) && LagsFor(w, ann, id) && Enabled(w, step)
    requires (step.Enqueue? || step.Advance? || step.Handle?) && Announcers(Apply(w, step), ann)
    ensures LagsFor(Apply(w, step), ann, id)
  {
    var w' := Apply(w, step);
    PendingThroughQuiet(w, step, id);
    assert id in ann ==> w'.scheds[ann[id]].exec == w.scheds[ann[id]].exec;
    assert Outstanding(w', ann, id) == Outstanding(w, ann, id);
  }

  /** A claim makes the start of each job it takes outstanding. */
  ghost predicate OutstandingGrows(w: World, w': World, ann: map<JobId, nat>, reading: Time, id: JobId)
    requires Announcers(w, ann) && Announcers(w', ann)
  {
    Outstanding(w', ann, id) ==
      Outstanding(w, ann, id) + if id in DueIds(w.jobs, reading) then [Opening(MarkRunning(w.jobs[id]))] else []
  }

  lemma OutstandingClaim(w: World, w': World, ann: map<JobId, nat>, s: nat, reading: Time, id: JobId)
    requires Announcers(w, ann) && Announcers(w', ann) && w'.jobs == AfterClaim(w.jobs, reading)
    requires s < |w.scheds| && w.scheds[s].exec.Idle? && |w'.scheds| == |w.scheds|
    requires forall r :: 0 <= r < |w.scheds| && r != s ==> w'.scheds[r] == w.scheds[r]
    requires ClaimPends(w, w', reading, id)
    ensures OutstandingGrows(w, w', ann, reading, id)
  {
    if id in ann {
      assert w.scheds[ann[id]].exec.Stored? && ann[id] != s;
    }
  }

  lemma LaggingLoseClaim(w: World, ann: map<JobId, nat>, s: nat, reading: Time, order: seq<JobId>, id: JobId)
    requires Safe(w) && Announcers(w, ann) && LagsFor(w, ann, id) && Enabled(w, LoseClaim(s, reading, order))
    requires Announcers(Apply(w, LoseClaim(s, reading, order)), ann)
    ensures LagsFor(Apply(w, LoseClaim(s, reading, order)), ann, id)
  {
    var w' := Apply(w, LoseClaim(s, reading, order));
    HistoryOfClaim(w, s, reading, order, id);
    PendingAfterLoseClaim(w, s, reading, order, id);
    OutstandingClaim(w, w', ann, s, reading, id);
    ClaimLags(w, w', ann, reading, id);
  }

  /** What a claim adds to a job's history it adds to what is outstanding. */
  lemma ClaimLags(w: World, w': World, ann: map<JobId, nat>, reading: Time, id: JobId)
    requires Announcers(w, ann) && Announcers(w', ann) && LagsFor(w, ann, id) && w'.events == w.events
    requires HistoryGrows(w, w', reading, id)
    requires OutstandingGrows(w, w', ann, reading, id)
    ensures LagsFor(w', ann, id)
  {
    var h := OfJob(w.history, id);
    if id in DueIds(w.jobs, reading) {
      OneMoreOutstanding(EventsOf(w.events, id), Outstanding(w, ann, id), h, Entry(Opening(MarkRunning(w.jobs[id])), reading));
    } else {
      assert h + [] == h;
    }
  }

  lemma LaggingLosePersist(w: World, ann: map<JobId, nat>, s: nat, id: JobId)
    requires Safe(w) && Announcers(w, ann) && LagsFor(w, ann, id) && Enabled(w, LosePersist(s))
    requires Announcers(Apply(w, LosePersist(s)), ann)
    ensures LagsFor(Apply(w, LosePersist(s)), ann, id)
  {
    var w' := Apply(w, LosePersist(s));
    BusyHolds(w, s);
    assert StartPending(w', id) <==> StartPending(w, id);
    if id in ann {
      assert ann[id] != s && w'.scheds[ann[id]] == w.scheds[ann[id]];
    }
    assert Outstanding(w', ann, id) == Outstanding(w, ann, id);
  }

  /** One more entry in the history is one more announcement outstanding. */
  lemma OneMoreOutstanding(announced: seq<Transition>, outstanding: seq<Transition>, h: seq<Entry>, entry: Entry)
    requires announced + outstanding == Transitions(h)
    ensures announced + (outstanding + [entry.t]) == Transitions(h + [entry])
  {
    TransitionsAppend(h, [entry]);
    OneTransition(entry);
  }

  lemma LaggingClaim(w: World, ann: map<JobId, nat>, s: nat, reading: Time, order: seq<JobId>, id: JobId)
    requires Safe(w) && Announcers(w, ann) && LagsFor(w, ann, id) && Enabled(w, Claim(s, reading, order))
    requires Announcers(Apply(w, Claim(s, reading, order)), ann)
    ensures LagsFor(Apply(w, Claim(s, reading, order)), ann, id)
  {
    var w' := Apply(w, Claim(s, reading, order));
    HistoryOfClaim(w, s, reading, order, id);
    PendingAfterClaim(w, s, reading, order, id);
    OutstandingClaim(w, w', ann, s, reading, id);
    ClaimLags(w, w', ann, reading, id);
  }

  /** What is announced moves from outstanding to announced. */
  lemma OneAnnounced(announced: seq<Transition>, moved: seq<Transition>, rest: seq<Transition>, happened: seq<Transition>)
    requires announced + (moved + rest) == happened
    ensures (announced + moved) + rest == happened
  {
  }

  /** Announcing anything but the first outstanding transition leaves the order. */
  lemma WrongNext(announced: seq<Transition>, outstanding: seq<Transition>, happened: seq<Transition>, next: Transition)
    requires announced + outstanding == happened && (outstanding == [] || outstanding[0] != next)
    ensures !(announced + [next] <= happened)
  {
    assert (announced + [next])[|announced|] == next;
    assert outstanding != [] ==> happened[|announced|] == outstanding[0];
  }

  lemma OutstandingBegin(w: World, ann: map<JobId, nat>, s: nat, id: JobId)
    requires Safe(w) && Announcers(w, ann) && Enabled(w, Begin(s)) && !Overtakes(w, Begin(s))
    requires Announcers(Apply(w, Begin(s)), ann)
    ensures var head := w.scheds[s].queue[0];
            Outstanding(w, ann, id) == (if head.id == id then [Opening(head)] else []) + Outstanding(Apply(w, Begin(s)), ann, id)
  {
    QueueHeadHolds(w, s);
    QueuedAfterBegin(w, s, id);
    AnnouncersBegin(w, ann, s);
    if id in ann {
      assert ann[id] != s;
    }
  }

  lemma LaggingBegin(w: World, ann: map<JobId, nat>, s: nat, id: JobId)
    requires Safe(w) && Announcers(w, ann) && LagsFor(w, ann, id) && Enabled(w, Begin(s)) && !Overtakes(w, Begin(s))
    requires Announcers(Apply(w, Begin(s)), ann)
    ensures LagsFor(Apply(w, Begin(s)), ann, id)
  {
    var head := w.scheds[s].queue[0];
    OutstandingBegin(w, ann, s, id);
    EventsAppend(w.events, Opening(head), id);
    OneAnnounced(EventsOf(w.events, id), if head.id == id then [Opening(head)] else [],
                 Outstanding(Apply(w, Begin(s)), ann, id), Transitions(OfJob(w.history, id)));
  }

  lemma OutstandingPersist(w: World, ann: map<JobId, nat>, s: nat)
    requires Safe(w) && Announcers(w, ann) && Enabled(w, Persist(s))
    requires Announcers(Apply(w, Persist(s)), NextAnnouncers(w, ann, Persist(s)))
    ensures var next := w.scheds[s].exec.next;
            && Outstanding(w, ann, next.id) == []
            && Outstanding(Apply(w, Persist(s)), NextAnnouncers(w, ann, Persist(s)), next.id) == [Closing(next)]
  {
    PersistFacts(w, s);
    BusyHolds(w, s);
    assert AnnouncerOk(w.scheds[s].exec, s, w.stranded, ann);
    assert !StartPending(w, w.scheds[s].exec.next.id);
    assert !StartPending(Apply(w, Persist(s)), w.scheds[s].exec.next.id);
  }

  lemma PendingThroughPersist(w: World, s: nat, id: JobId)
    requires Safe(w) && Enabled(w, Persist(s)) && id != w.scheds[s].exec.next.id
    ensures StartPending(Apply(w, Persist(s)), id) <==> StartPending(w, id)
    ensures id in w.jobs ==> Apply(w, Persist(s)).jobs[id] == w.jobs[id]
  {
    PersistFacts(w, s);
    assert id in Apply(w, Persist(s)).holder <==> id in w.holder;
  }

  lemma OthersOutstandingPersist(w: World, ann: map<JobId, nat>, s: nat, id: JobId)
    requires Safe(w) && Announcers(w, ann) && Enabled(w, Persist(s)) && id != w.scheds[s].exec.next.id
    requires Announcers(Apply(w, Persist(s)), NextAnnouncers(w, ann, Persist(s)))
    ensures Outstanding(Apply(w, Persist(s)), NextAnnouncers(w, ann, Persist(s)), id) == Outstanding(w, ann, id)
  {
    var w' := Apply(w, Persist(s));
    PendingThroughPersist(w, s, id);
    if id in ann {
      assert ann[id] != s && w'.scheds[ann[id]] == w.scheds[ann[id]];
    }
  }

  lemma LaggingPersist(w: World, ann: map<JobId, nat>, s: nat, id: JobId)
    requires Safe(w) && Announcers(w, ann) && LagsFor(w, ann, id) && Enabled(w, Persist(s))
    requires Announcers(Apply(w, Persist(s)), NextAnnouncers(w, ann, Persist(s)))
    ensures LagsFor(Apply(w, Persist(s)), NextAnnouncers(w, ann, Persist(s)), id)
  {
    var exec := w.scheds[s].exec;
    HistoryOfPersist(w, s, id);
    if id == exec.next.id {
      OutstandingPersist(w, ann, s);
      assert EventsOf(w.events, id) + [] == Transitions(OfJob(w.history, id));
      OneMoreOutstanding(EventsOf(w.events, id), [], OfJob(w.history, id), Entry(Closing(exec.next), exec.at));
      assert [] + [Closing(exec.next)] == [Closing(exec.next)];
    } else {
      OthersOutstandingPersist(w, ann, s, id);
      assert OfJob(w.history, id) + [] == OfJob(w.history, id);
    }
  }

  lemma OutstandingAnnounce(w: World, ann: map<JobId, nat>, s: nat, id: JobId)
    requires Announcers(w, ann) && Enabled(w, Announce(s)) && !Misreports(w, Announce(s))
    requires Announcers(Apply(w, Announce(s)), NextAnnouncers(w, ann, Announce(s)))
    ensures var next := w.scheds[s].exec.next;
            Outstanding(w, ann, id) ==
              (if id == next.id then [Closing(next)] else []) + Outstanding(Apply(w, Announce(s)), NextAnnouncers(w, ann, Announce(s)), id)
  {
    assert AnnouncerOk(w.scheds[s].exec, s, w.stranded, ann);
    assert StartPending(Apply(w, Announce(s)), id) <==> StartPending(w, id);
    if id in ann && id != w.scheds[s].exec.next.id { assert ann[id] != s; }
  }

  lemma LaggingAnnounce(w: World, ann: map<JobId, nat>, s: nat, id: JobId)
    requires Announcers(w, ann) && LagsFor(w, ann, id) && Enabled(w, Announce(s)) && !Misreports(w, Announce(s))
    requires Announcers(Apply(w, Announce(s)), NextAnnouncers(w, ann, Announce(s)))
    ensures LagsFor(Apply(w, Announce(s)), NextAnnouncers(w, ann, Announce(s)), id)
  {
    var next := w.scheds[s].exec.next;
    EventsAppend(w.events, Closing(next), id);
    OutstandingAnnounce(w, ann, s, id);
    OneAnnounced(EventsOf(w.events, id), if next.id == id then [Closing(next)] else [],
                 Outstanding(Apply(w, Announce(s)), NextAnnouncers(w, ann, Announce(s)), id), Transitions(OfJob(w.history, id)));
  }

  lemma LaggingIsInOrder(w: World, ann: map<JobId, nat>)
    requires Lagging(w, ann)
    ensures InOrder(w)
  {
    forall id ensures InOrderFor(w, id) {
      assert LagsFor(w, ann, id);
    }
  }

  /** What is outstanding for a job that is overtaken: a result, and only then the start. */
  lemma OvertakenOutstanding(w: World, ann: map<JobId, nat>, s: nat)
    requires Safe(w) && Announcers(w, ann) && Enabled(w, Begin(s)) && Overtakes(w, Begin(s))
    ensures var head := w.scheds[s].queue[0];
            head.id in ann && Outstanding(w, ann, head.id) == [Closing(w.scheds[ann[head.id]].exec.next), Opening(head)]
  {
    QueueHeadHolds(w, s);
    QueuedAfterBegin(w, s, w.scheds[s].queue[0].id);
  }

  /** Overtaking does put the announcements out of order. */
  lemma OvertakingBreaksOrder(w: World, ann: map<JobId, nat>, s: nat)
    requires Safe(w) && Lagging(w, ann) && Enabled(w, Begin(s)) && Overtakes(w, Begin(s))
    ensures !InOrder(Apply(w, Begin(s)))
  {
    var head := w.scheds[s].queue[0];
    var id := head.id;
    OvertakenOutstanding(w, ann, s);
    EventsAppend(w.events, Opening(head), id);
    assert LagsFor(w, ann, id);
    WrongNext(EventsOf(w.events, id), Outstanding(w, ann, id), Transitions(OfJob(w.history, id)), Opening(head));
    assert !InOrderFor(Apply(w, Begin(s)), id);
  }

  /** So does announcing a result that could not be written back. */
  lemma MisreportingBreaksOrder(w: World, ann: map<JobId, nat>, s: nat)
    requires Lagging(w, ann) && Enabled(w, Announce(s)) && Misreports(w, Announce(s))
    ensures !InOrder(Apply(w, Announce(s)))
  {
    var next := w.scheds[s].exec.next;
    assert AnnouncerOk(w.scheds[s].exec, s, w.stranded, ann);
    assert LagsFor(w, ann, next.id);
    EventsAppend(w.events, Closing(next), next.id);
    WrongNext(EventsOf(w.events, next.id), Outstanding(w, ann, next.id), Transitions(OfJob(w.history, next.id)), Closing(next));
    assert !InOrderFor(Apply(w, Announce(s)), next.id);
  }

  ghost predicate AlwaysInOrder(w: World, steps: seq<Step>)
    requires CanRun(w, steps)
    decreases |steps|
  {
    InOrder(w) && (steps != [] ==> AlwaysInOrder(Apply(w, steps[0]), steps[1..]))
  }

  ghost predicate NeverOvertakes(w: World, steps: seq<Step>)
    requires CanRun(w, steps)
    decreases |steps|
  {
    steps != [] ==> !Overtakes(w, steps[0]) && NeverOvertakes(Apply(w, steps[0]), steps[1..])
  }

  ghost predicate NeverMisreports(w: World, steps: seq<Step>)
    requires CanRun(w, steps)
    decreases |steps|
  {
    steps != [] ==> !Misreports(w, steps[0]) && NeverMisreports(Apply(w, steps[0]), steps[1..])
  }

  lemma {:induction false} OrderedExactly(w: World, ann: map<JobId, nat>, steps: seq<Step>)
    requires Safe(w) && Lagging(w, ann) && CanRun(w, steps)
    ensures AlwaysInOrder(w, steps) <==> NeverOvertakes(w, steps) && NeverMisreports(w, steps)
    decreases |steps|
  {
    LaggingIsInOrder(w, ann);
    if steps != [] {
      SafeStep(w, steps[0]);
      if Overtakes(w, steps[0]) {
        OvertakingBreaksOrder(w, ann, steps[0].s);
      } else if Misreports(w, steps[0]) {
        MisreportingBreaksOrder(w, ann, steps[0].s);
      } else {
        LaggingStep(w, ann, steps[0]);
        OrderedExactly(Apply(w, steps[0]), NextAnnouncers(w, ann, steps[0]), steps[1..]);
      }
    }
  }

  /** For every run: the announcements about each job are at all times a prefix of its history exactly when no start
      overtakes the previous result and no result is announced that could not be written back. */
  lemma AnnouncementOrder(schedulers: nat, now: Time, steps: seq<Step>)
    requires CanRun(Start(schedulers, now), steps)
    ensures var w0 := Start(schedulers, now);
            AlwaysInOrder(w0, steps) <==> NeverOvertakes(w0, steps) && NeverMisreports(w0, steps)
  {
    var w0 := Start(schedulers, now);
    StartIsSafe(schedulers, now);
    assert Lagging(w0, map[]);
    OrderedExactly(w0, map[], steps);
  }

  /** One scheduler never overtakes itself. */
  lemma {:induction false} OneSchedulerNeverOvertakes(w: World, steps: seq<Step>)
    requires CanRun(w, steps) && |w.scheds| == 1
    ensures NeverOvertakes(w, steps)
    decreases |steps|
  {
    if steps != [] {
      OneSchedulerNeverOvertakes(Apply(w, steps[0]), steps[1..]);
    }
  }

  /** So with one scheduler, failed write-backs that are announced are all that can put the announcements out of order. */
  lemma OneSchedulerInOrderIff(now: Time, steps: seq<Step>)
    requires CanRun(Start(1, now), steps)
    ensures AlwaysInOrder(Start(1, now), steps) <==> NeverMisreports(Start(1, now), steps)
  {
    AnnouncementOrder(1, now, steps);
    OneSchedulerNeverOvertakes(Start(1, now), steps);
  }

  /** Two schedulers can: the first fails a job whose backoff is zero and writes it back, the second claims it and
      announces attempt 2 before the first has announced the retry. */
  const TROUBLE := NewJob(0, "fail", 0).(backoffMs := [0])

  const STARTED: seq<Step> := [Enqueue(TROUBLE)] + [Claim(0, 0, [0]), Begin(0)]

  const FAIL_ONCE: seq<Step> := STARTED + [Handle(0, Fails("deliberate")), Persist(0)]

  const OVERTAKING: seq<Step> := FAIL_ONCE + [Claim(1, 0, [0]), Begin(1)]

  lemma StartTrouble()
    ensures CanRun(Start(2, 0), STARTED)
    ensures var w, job := Run(Start(2, 0), STARTED), MarkRunning(TROUBLE);
            w.jobs == map[0 := job] && w.now == 0 && w.scheds == [Sched([], Began(job)), Sched([], Idle)]
  {
    var w0 := Start(2, 0);
    var w1 := Apply(w0, Enqueue(TROUBLE));
    assert w0.scheds == [Sched([], Idle), Sched([], Idle)];
    RunOne(w0, Enqueue(TROUBLE));
    ClaimTheOnly(w1, 0, 0);
    var w2 := Apply(w1, Claim(0, 0, [0]));
    assert w2.scheds[0].queue[1..] == [];
    RunTwo(w1, Claim(0, 0, [0]), Begin(0));
    RunAppend(w0, [Enqueue(TROUBLE)], [Claim(0, 0, [0]), Begin(0)]);
  }

  lemma FailOnce(retry: Job)
    requires retry == Settle(MarkRunning(TROUBLE), Fails("deliberate"), 0)
    ensures CanRun(Start(2, 0), FAIL_ONCE)
    ensures var w := Run(Start(2, 0), FAIL_ONCE);
            w.jobs == map[0 := retry] && w.now == 0 && w.scheds == [Sched([], Stored(retry)), Sched([], Idle)]
  {
    StartTrouble();
    var w3 := Run(Start(2, 0), STARTED);
    RunTwo(w3, Handle(0, Fails("deliberate")), Persist(0));
    RunAppend(Start(2, 0), STARTED, [Handle(0, Fails("deliberate")), Persist(0)]);
  }

  lemma TwoSchedulersCanOvertake()
    ensures CanRun(Start(2, 0), OVERTAKING)
    ensures !AlwaysInOrder(Start(2, 0), OVERTAKING)
  {
    var w0 := Start(2, 0);
    var retry := Settle(MarkRunning(TROUBLE), Fails("deliberate"), 0);
    FailOnce(retry);
    var w4 := Run(w0, FAIL_ONCE);
    ClaimTheOnly(w4, 1, 0);
    var w5 := Apply(w4, Claim(1, 0, [0]));
    RunOne(w4, Claim(1, 0, [0]));
    RunAppend(w0, FAIL_ONCE, [Claim(1, 0, [0])]);
    RunOne(w5, Begin(1));
    RunAppend(w0, FAIL_ONCE + [Claim(1, 0, [0])], [Begin(1)]);
    assert w5.scheds[0].exec == Stored(retry);
    OvertakesAtTheEnd(w0, FAIL_ONCE + [Claim(1, 0, [0])], Begin(1));
    assert FAIL_ONCE + [Claim(1, 0, [0])] + [Begin(1)] == OVERTAKING;
    AnnouncementOrder(2, 0, OVERTAKING);
  }

  lemma ClaimTheOnly(w: World, s: nat, id: JobId)
    requires s < |w.scheds| && w.scheds[s] == Sched([], Idle) && w.jobs.Keys == {id} && IsDue(w.jobs[id], w.now)
    ensures Enabled(w, Claim(s, w.now, [id]))
    ensures Apply(w, Claim(s, w.now, [id])).scheds == w.scheds[s := Sched([MarkRunning(w.jobs[id])], Idle)]
    ensures Apply(w, Claim(s, w.now, [id])).jobs == map[id := MarkRunning(w.jobs[id])]
  {
    assert DueIds(w.jobs, w.now) == {id};
    assert HandedOut([id], w.jobs) == [MarkRunning(w.jobs[id])];
  }

  lemma {:induction false} OvertakesAtTheEnd(w: World, steps: seq<Step>, last: Step)
    requires CanRun(w, steps) && Enabled(Run(w, steps), last) && Overtakes(Run(w, steps), last)
    requires CanRun(w, steps + [last])
    ensures !NeverOvertakes(w, steps + [last])
    decreases |steps|
  {
    if steps == [] {
      assert steps + [last] == [last];
    } else {
      assert (steps + [last])[1..] == steps[1..] + [last];
      OvertakesAtTheEnd(Apply(w, steps[0]), steps[1..], last);
    }
  }
}
