/** Laws of one segment of the executor: what it keeps, in which order it acts, that it
    never stalls, and that a claimed wake always makes progress. */
module ExecutorLaws {
  import opened Base
  import opened Definition
  import opened Lifecycle
  import opened Executor

  // ---------- the opening refresh ----------

  lemma {:induction false} RefreshLaw(steps: seq<Step>, run: RunId, store: seq<Envelope>, outputs: map<StepId, Value>)
    ensures var o := Refresh(steps, run, store, outputs);
      && outputs.Keys <= o.Keys
      && (forall id | id in outputs :: o[id] == outputs[id])
      && (forall id | id in o && id !in outputs :: id in Ids(steps) && FirstOutput(store, run, id) == Some(o[id]))
      && (forall id | id in Ids(steps) && FirstOutput(store, run, id).Some? :: id in o)
  {
    if steps != [] {
      var n := |steps| - 1;
      RefreshLaw(steps[..n], run, store, outputs);
      assert Ids(steps) == Ids(steps[..n]) + {steps[n].id};
    }
  }

  // ---------- what a walk keeps ----------

  /** A completion made by this segment: a gate that was waited on before, or a step run in
      process, with everything it depends on complete. */
  ghost predicate CompletedBy(p: Plan, start: Flow, outputs: map<StepId, Value>, s: Step) {
    && s in p.steps && s.id in outputs && DepsDone(s, outputs)
    && (s.kind.GateStep? ==> s.id in start.gatesWaited && outputs[s.id] == GATE_PASSED)
    && (s.kind.TaskStep? ==> ModeOf(p, s).InProcess?)
  }

  ghost predicate IsQueueStep(p: Plan, s: Step) {
    s in p.steps && s.kind.TaskStep? && ModeOf(p, s).Queue?
  }

  /** Everything that was complete stays complete with the same output. */
  ghost predicate Extends(a: map<StepId, Value>, b: map<StepId, Value>) {
    a.Keys <= b.Keys && forall id | id in a :: b[id] == a[id]
  }

  ghost predicate CompletedNow(p: Plan, start: Flow, outputs: map<StepId, Value>, id: StepId) {
    exists s | s in p.steps :: s.id == id && CompletedBy(p, start, outputs, s)
  }

  /** The completions since the start of the segment were all made by it. */
  ghost predicate NewCompleted(p: Plan, start: Flow, outputs: map<StepId, Value>) {
    && Extends(start.outputs, outputs)
    && forall id {:trigger CompletedNow(p, start, outputs, id)} | id in outputs && id !in start.outputs ::
          CompletedNow(p, start, outputs, id)
  }

  lemma WhoCompleted(p: Plan, start: Flow, outputs: map<StepId, Value>, id: StepId) returns (s: Step)
    requires NewCompleted(p, start, outputs) && id in outputs && id !in start.outputs
    ensures s in p.steps && s.id == id && CompletedBy(p, start, outputs, s)
  {
    assert CompletedNow(p, start, outputs, id);
    s :| s in p.steps && s.id == id && CompletedBy(p, start, outputs, s);
  }

  /** The steps an event log completes. */
  function Completions(events: seq<Event>): set<StepId> {
    set i | 0 <= i < |events| && (events[i].Passed? || (events[i].Ran? && events[i].completed)) :: events[i].step
  }

  /** The event is one this step can cause; a task message carries the key built over the
      outputs seen when it was sent. */
  ghost predicate EventFits(p: Plan, start: Flow, s: Step, e: Event) {
    match e
    case Sent(id, key, seen, _) =>
      && id == s.id && IsQueueStep(p, s) && id !in start.dispatched
      && Extends(start.outputs, seen) && DepsDone(s, seen) && key == KeyFor(p, s, seen)
    case Ran(id, _) => id == s.id && s.kind.TaskStep? && ModeOf(p, s).InProcess?
    case Passed(id) => id == s.id && s.kind.GateStep? && id in start.gatesWaited
  }

  /** An event concerns a step of the right kind, whose dependencies were complete: at the
      start of the segment, or through an earlier event. */
  ghost predicate EventInOrder(p: Plan, start: Flow, events: seq<Event>, i: nat)
    requires i < |events|
  {
    exists s | s in p.steps ::
      && (forall d | d in s.dependsOn :: d in start.outputs || d in Completions(events[..i]))
      && EventFits(p, start, s, events[i])
  }

  ghost predicate InOrder(p: Plan, start: Flow, events: seq<Event>) {
    forall i | 0 <= i < |events| :: EventInOrder(p, start, events, i)
  }

  ghost predicate SeenExtends(events: seq<Event>, outputs: map<StepId, Value>) {
    forall i | 0 <= i < |events| && events[i].Sent? :: Extends(events[i].seen, outputs)
  }

  ghost predicate WasSent(events: seq<Event>, id: StepId) {
    exists i | 0 <= i < |events| :: events[i].Sent? && events[i].step == id
  }

  /** No step is sent twice. */
  ghost predicate SentOnce(events: seq<Event>) {
    forall i, j | 0 <= i < j < |events| && events[i].Sent? && events[j].Sent? :: events[i].step != events[j].step
  }

  /** Every message of the log is of a step recorded as dispatched. */
  ghost predicate SentRecorded(events: seq<Event>, dispatched: seq<StepId>) {
    forall i | 0 <= i < |events| && events[i].Sent? :: events[i].step in dispatched
  }

  /** The log is in order and fits the record of dispatched steps; a message whose dispatch
      raised may be missing from the record. */
  ghost predicate LogOk(p: Plan, start: Flow, events: seq<Event>, dispatched: seq<StepId>, going: bool) {
    && start.dispatched <= dispatched
    && (forall id | id in dispatched :: id in start.dispatched || WasSent(events, id))
    && (going ==> SentRecorded(events, dispatched))
    && InOrder(p, start, events)
    && SentOnce(events)
  }

  /** The invariant of the walk over the steps. */
  ghost predicate WalkOk(p: Plan, start: Flow, k: Walk) {
    && NewCompleted(p, start, k.flow.outputs)
    && k.flow.gatesWaited == start.gatesWaited
    && LogOk(p, start, k.events, k.flow.dispatched, k.halt.Going?)
    && SeenExtends(k.events, k.flow.outputs)
    && k.flow.outputs.Keys == start.outputs.Keys + Completions(k.events)
    && (k.gate.Some? ==>
          && k.gate.value in p.steps && k.gate.value.kind.GateStep?
          && DepsDone(k.gate.value, k.flow.outputs)
          && k.gate.value.id !in start.gatesWaited && k.gate.value.id !in start.outputs)
  }

  lemma OneMoreEvent(p: Plan, start: Flow, events: seq<Event>, e: Event)
    requires InOrder(p, start, events)
    requires EventInOrder(p, start, events + [e], |events|)
    ensures InOrder(p, start, events + [e])
    ensures Completions(events + [e]) ==
      Completions(events) + if e.Passed? || (e.Ran? && e.completed) then {e.step} else {}
  {
    var more := events + [e];
    forall i | 0 <= i < |more|
      ensures EventInOrder(p, start, more, i)
    {
      if i < |events| {
        assert EventInOrder(p, start, events, i);
        assert more[..i] == events[..i] && more[i] == events[i];
      }
    }
    forall id
      ensures id in Completions(more)
            <==> id in Completions(events) || (id == e.step && (e.Passed? || (e.Ran? && e.completed)))
    {
      if id in Completions(events) {
        var i :| && 0 <= i < |events| && (events[i].Passed? || (events[i].Ran? && events[i].completed))
                 && events[i].step == id;
        assert more[i] == events[i];
      }
      assert more[|events|] == e;
    }
  }

  lemma EventNext(p: Plan, start: Flow, k: Walk, s: Step, e: Event)
    requires WalkOk(p, start, k) && s in p.steps && DepsDone(s, k.flow.outputs) && EventFits(p, start, s, e)
    ensures EventInOrder(p, start, k.events + [e], |k.events|)
    ensures Completions(k.events + [e]) ==
      Completions(k.events) + if e.Passed? || (e.Ran? && e.completed) then {e.step} else {}
  {
    var more := k.events + [e];
    assert more[..|k.events|] == k.events && more[|k.events|] == e;
    assert EventInOrder(p, start, more, |k.events|);
    OneMoreEvent(p, start, k.events, e);
  }

  lemma SentOnceMore(events: seq<Event>, e: Event, dispatched: seq<StepId>)
    requires SentOnce(events) && SentRecorded(events, dispatched)
    requires e.Sent? ==> e.step !in dispatched
    ensures SentOnce(events + [e])
    ensures SentRecorded(events + [e], dispatched + [e.step])
    ensures !e.Sent? ==> SentRecorded(events + [e], dispatched)
  {
  }

  /** One more event, recorded as dispatched or not. */
  lemma LogOneMore(p: Plan, start: Flow, events: seq<Event>, dispatched: seq<StepId>, e: Event, recorded: bool)
    requires LogOk(p, start, events, dispatched, true) && EventInOrder(p, start, events + [e], |events|)
    requires e.Sent? ==> e.step !in dispatched
    requires recorded ==> e.Sent?
    ensures LogOk(p, start, events + [e], if recorded then dispatched + [e.step] else dispatched, e.Sent? ==> recorded)
  {
    var more := events + [e];
    OneMoreEvent(p, start, events, e);
    SentOnceMore(events, e, dispatched);
    LongerLogStillShowsSent(events, more);
    assert e.Sent? ==> WasSent(more, e.step) by { assert more[|events|] == e; }
  }

  /** Completing a step, by passing a gate or by running it in process. */
  lemma CompleteKeeps(p: Plan, start: Flow, k: Walk, s: Step, v: Value, e: Event)
    requires WalkOk(p, start, k) && k.halt.Going?
    requires s in p.steps && DepsDone(s, k.flow.outputs) && s.id !in k.flow.outputs
    requires e == Passed(s.id) || e == Ran(s.id, true)
    requires EventFits(p, start, s, e) && (e.Passed? ==> v == GATE_PASSED)
    ensures var flow := k.flow.(outputs := k.flow.outputs[s.id := v]);
      WalkOk(p, start, k.(flow := flow, progressed := true, events := k.events + [e]))
  {
    var k' := k.(flow := k.flow.(outputs := k.flow.outputs[s.id := v]), progressed := true, events := k.events + [e]);
    EventNext(p, start, k, s, e);
    LogOneMore(p, start, k.events, k.flow.dispatched, e, false);
    assert k'.flow.outputs.Keys == k.flow.outputs.Keys + {s.id};
    CompletionsStay(p, start, k.flow.outputs, k'.flow.outputs, s);
    SeenStays(k.events, e, k.flow.outputs, k'.flow.outputs);
  }

  lemma RunKeeps(p: Plan, w: World, start: Flow, k: Walk, s: Step)
    requires WalkOk(p, start, k) && k.halt.Going?
    requires s in p.steps && s.kind.TaskStep? && DepsDone(s, k.flow.outputs) && s.id !in k.flow.outputs
    requires ModeOf(p, s).InProcess?
    ensures WalkOk(p, start, Dispatch(p, w, k, s))
  {
    match w.fault(s.id)
    case BeforeEffect =>
    case NoFault =>
      CompleteKeeps(p, start, k, s, w.reply(s.id), Ran(s.id, true));
    case _ =>
      EventNext(p, start, k, s, Ran(s.id, false));
      LogOneMore(p, start, k.events, k.flow.dispatched, Ran(s.id, false), false);
  }

  lemma SeenStays(events: seq<Event>, e: Event, a: map<StepId, Value>, b: map<StepId, Value>)
    requires SeenExtends(events, a) && Extends(a, b) && !e.Sent?
    ensures SeenExtends(events + [e], b)
  {
  }

  /** Sending a task message, whether or not the dispatch returns and is recorded. */
  lemma SendKeeps(p: Plan, start: Flow, k: Walk, s: Step, kept: bool, recorded: bool)
    requires WalkOk(p, start, k) && k.halt.Going?
    requires IsQueueStep(p, s) && DepsDone(s, k.flow.outputs) && s.id !in k.flow.dispatched
    ensures var more := k.events + [Sent(s.id, KeyFor(p, s, k.flow.outputs), k.flow.outputs, kept)];
      WalkOk(p, start,
             if recorded then k.(flow := k.flow.(dispatched := k.flow.dispatched + [s.id]), events := more)
             else k.(events := more, halt := RaisedAt(s.id)))
  {
    var e := Sent(s.id, KeyFor(p, s, k.flow.outputs), k.flow.outputs, kept);
    EventNext(p, start, k, s, e);
    LogOneMore(p, start, k.events, k.flow.dispatched, e, recorded);
  }

  lemma LongerLogStillShowsSent(a: seq<Event>, b: seq<Event>)
    requires a <= b
    ensures forall id | WasSent(a, id) :: WasSent(b, id)
  {
    forall id | WasSent(a, id)
      ensures WasSent(b, id)
    {
      var i :| 0 <= i < |a| && a[i].Sent? && a[i].step == id;
      assert b[i] == a[i];
    }
  }

  lemma CompletionsStay(p: Plan, start: Flow, outputs: map<StepId, Value>, outputs': map<StepId, Value>, s: Step)
    requires NewCompleted(p, start, outputs) && Extends(outputs, outputs')
    requires outputs'.Keys <= outputs.Keys + {s.id}
    requires s.id !in outputs && s.id in outputs' ==> CompletedBy(p, start, outputs', s)
    ensures NewCompleted(p, start, outputs')
  {
    forall id | id in outputs' && id !in start.outputs
      ensures CompletedNow(p, start, outputs', id)
    {
      if id in outputs {
        var t := WhoCompleted(p, start, outputs, id);
        assert CompletedBy(p, start, outputs', t);
      }
    }
  }

  lemma DispatchKeeps(p: Plan, w: World, start: Flow, k: Walk, s: Step)
    requires WalkOk(p, start, k) && k.halt.Going?
    requires s in p.steps && s.kind.TaskStep? && DepsDone(s, k.flow.outputs) && s.id !in k.flow.outputs
    ensures WalkOk(p, start, Dispatch(p, w, k, s))
  {
    if ModeOf(p, s).InProcess? {
      RunKeeps(p, w, start, k, s);
    } else if s.id !in k.flow.dispatched {
      SendKeeps(p, start, k, s, !w.fault(s.id).Unrecorded?, w.fault(s.id).NoFault?);
    }
  }

  lemma VisitKeeps(p: Plan, w: World, start: Flow, k: Walk, s: Step)
    requires WalkOk(p, start, k) && s in p.steps
    ensures WalkOk(p, start, Visit(p, w, k, s))
  {
    if !k.halt.Going? || s.id in k.flow.outputs || !DepsDone(s, k.flow.outputs) {
    } else if s.kind.GateStep? {
      if s.id in k.flow.gatesWaited {
        CompleteKeeps(p, start, k, s, GATE_PASSED, Passed(s.id));
      }
    } else if s.needsApproval && s.id !in k.flow.approved {
      if w.granted(s.id) {
        DispatchKeeps(p, w, start, k.(flow := k.flow.(approved := k.flow.approved + [s.id])), s);
      }
    } else {
      DispatchKeeps(p, w, start, k, s);
    }
  }

  lemma {:induction false} SweepKeeps(p: Plan, w: World, start: Flow, k: Walk, i: nat)
    requires WalkOk(p, start, k) && i <= |p.steps|
    ensures WalkOk(p, start, Sweep(p, w, k, i))
    decreases |p.steps| - i
  {
    if i < |p.steps| {
      VisitKeeps(p, w, start, k, p.steps[i]);
      SweepKeeps(p, w, start, Visit(p, w, k, p.steps[i]), i + 1);
    }
  }

  lemma {:induction false} LoopKeeps(p: Plan, w: World, start: Flow, k: Walk)
    requires WalkOk(p, start, k)
    ensures WalkOk(p, start, Loop(p, w, k))
    decreases |Pending(p.steps, k.flow.outputs)|
  {
    var k' := Sweep(p, w, k.(progressed := false), 0);
    SweepShrinks(p, w, k.(progressed := false), 0);
    SweepKeeps(p, w, start, k.(progressed := false), 0);
    if k'.halt.Going? && k'.progressed { LoopKeeps(p, w, start, k'); }
  }

  // ---------- the loop stops only when nothing more can be done ----------

  /** Nothing more can be done for this step now. */
  ghost predicate Settled(p: Plan, k: Walk, s: Step) {
    || s.id in k.flow.outputs
    || !DepsDone(s, k.flow.outputs)
    || (s.kind.GateStep? && s.id !in k.flow.gatesWaited && k.gate.Some?)
    || (s.kind.TaskStep? && ModeOf(p, s).Queue? && s.id in k.flow.dispatched
        && (s.needsApproval ==> s.id in k.flow.approved))
  }

  lemma VisitSettles(p: Plan, w: World, k: Walk, s: Step)
    requires var v := Visit(p, w, k, s); v.halt.Going? && !v.progressed
    ensures Settled(p, Visit(p, w, k, s), s) && k.halt.Going? && !k.progressed
    ensures forall t | Settled(p, k, t) :: Settled(p, Visit(p, w, k, s), t)
  {
  }

  lemma {:induction false} SweepSettles(p: Plan, w: World, k: Walk, i: nat)
    requires i <= |p.steps|
    requires forall j | 0 <= j < i :: Settled(p, k, p.steps[j])
    requires var r := Sweep(p, w, k, i); r.halt.Going? && !r.progressed
    ensures k.halt.Going? && !k.progressed
    ensures forall s | s in p.steps :: Settled(p, Sweep(p, w, k, i), s)
    decreases |p.steps| - i
  {
    if i < |p.steps| {
      var v := Visit(p, w, k, p.steps[i]);
      SweepShrinks(p, w, v, i + 1);
      SweepGoing(p, w, v, i + 1);
      VisitSettles(p, w, k, p.steps[i]);
      SweepSettles(p, w, v, i + 1);
    }
  }

  lemma {:induction false} SweepGoing(p: Plan, w: World, k: Walk, i: nat)
    requires i <= |p.steps|
    ensures !k.halt.Going? ==> Sweep(p, w, k, i) == k
    decreases |p.steps| - i
  {
    if i < |p.steps| { SweepGoing(p, w, Visit(p, w, k, p.steps[i]), i + 1); }
  }

  lemma {:induction false} LoopSettles(p: Plan, w: World, k: Walk)
    requires Loop(p, w, k).halt.Going?
    ensures forall s | s in p.steps :: Settled(p, Loop(p, w, k), s)
    decreases |Pending(p.steps, k.flow.outputs)|
  {
    var k' := Sweep(p, w, k.(progressed := false), 0);
    SweepShrinks(p, w, k.(progressed := false), 0);
    if k'.halt.Going? && k'.progressed {
      LoopSettles(p, w, k');
    } else {
      SweepSettles(p, w, k.(progressed := false), 0);
    }
  }

  // ---------- one whole segment ----------

  lemma {:induction false} PendingIdsLaw(steps: seq<Step>, outputs: map<StepId, Value>)
    ensures forall id :: id in PendingIds(steps, outputs) <==> id in Pending(steps, outputs)
  {
    if steps != [] {
      var n := |steps| - 1;
      PendingIdsLaw(steps[..n], outputs);
      assert Ids(steps) == Ids(steps[..n]) + {steps[n].id};
    }
  }

  lemma {:induction false} FirstInLaw(ids: seq<StepId>, among: seq<StepId>)
    ensures FirstIn(ids, among).Some? <==> exists id | id in ids :: id in among
    ensures FirstIn(ids, among).Some? ==> FirstIn(ids, among).value in ids && FirstIn(ids, among).value in among
  {
    if ids != [] { FirstInLaw(ids[1..], among); }
  }

  /** With every step settled, no gate to wait for and something pending, a pending step has
      been dispatched: otherwise every pending step waits for another one, for ever. */
  lemma SettledCannotStall(p: Plan, k: Walk)
    requires WellFormed(p.steps) && k.gate.None?
    requires forall s | s in p.steps :: Settled(p, k, s)
    requires Pending(p.steps, k.flow.outputs) != {}
    ensures exists id | id in Pending(p.steps, k.flow.outputs) :: id in k.flow.dispatched
  {
    var pending := Pending(p.steps, k.flow.outputs);
    if !exists id | id in pending :: id in k.flow.dispatched {
      forall id {:trigger HasDependencyIn(p.steps, pending, id)} | id in pending
        ensures HasDependencyIn(p.steps, pending, id)
      {
        var i :| 0 <= i < |p.steps| && p.steps[i].id == id;
        var s := p.steps[i];
        assert Settled(p, k, s);
        var d :| d in s.dependsOn && d !in k.flow.outputs;
        assert DependsOn(p.steps, id, d);
      }
      var cycle := StuckSetHasCycle(p.steps, pending, []);
      assert false;
    }
  }

  /** The run is parked on this step: on a gate whose dependencies are complete, or on the
      first result of a step already dispatched. */
  ghost predicate ParkedOn(p: Plan, now: int, flow: Flow, on: StepId, c: WakeCondition) {
    && on !in flow.outputs
    && exists s | s in p.steps :: s.id == on && AwaitedBy(p, now, flow, s, c)
  }

  ghost predicate AwaitedBy(p: Plan, now: int, flow: Flow, s: Step, c: WakeCondition) {
    if s.kind.GateStep? then
      s.id in flow.gatesWaited && DepsDone(s, flow.outputs) && GateCondition(p, now, s, flow.outputs) == Some(c)
    else IsQueueStep(p, s) && s.id in flow.dispatched && c == ResultsReady(Some(s.id), 1)
  }

  /** Where each completion at the end of a segment comes from. */
  ghost predicate ComesFrom(p: Plan, store: seq<Envelope>, flow: Flow, outputs: map<StepId, Value>, id: StepId)
    requires id in outputs
  {
    || (id in flow.outputs && outputs[id] == flow.outputs[id])
    || (id in Ids(p.steps) && FirstOutput(store, p.run, id) == Some(outputs[id]))
    || CompletedNow(p, Opening(p, store, flow), outputs, id)
  }

  function WalkOf(p: Plan, w: World, store: seq<Envelope>, flow: Flow): Walk {
    Loop(p, w, Walk(Opening(p, store, flow), None, true, [], Going))
  }

  lemma DriveWalks(p: Plan, w: World, store: seq<Envelope>, flow: Flow)
    ensures WalkOk(p, Opening(p, store, flow), WalkOf(p, w, store, flow))
    ensures Extends(flow.outputs, Opening(p, store, flow).outputs)
  {
    RefreshLaw(p.steps, p.run, store, flow.outputs);
    LoopKeeps(p, w, Opening(p, store, flow), Walk(Opening(p, store, flow), None, true, [], Going));
  }

  /** What a segment keeps and where its completions come from; its events are in order. */
  lemma DriveLaw(p: Plan, w: World, store: seq<Envelope>, flow: Flow)
    ensures var seg, start := Drive(p, w, store, flow), Opening(p, store, flow);
      && Extends(flow.outputs, start.outputs) && Extends(start.outputs, seg.flow.outputs)
      && (forall id | id in seg.flow.outputs :: ComesFrom(p, store, flow, seg.flow.outputs, id))
      && InOrder(p, start, seg.events)
      && SeenExtends(seg.events, seg.flow.outputs)
      && seg.flow.outputs.Keys == start.outputs.Keys + Completions(seg.events)
      && (forall id | id in seg.flow.dispatched :: id in flow.dispatched || WasSent(seg.events, id))
      && (seg.outcome.Waits? || seg.outcome.Finished? ==>
            SentRecorded(seg.events, seg.flow.dispatched))
      && SentOnce(seg.events)
      && flow.dispatched <= seg.flow.dispatched
  {
    DriveWalks(p, w, store, flow);
    RefreshLaw(p.steps, p.run, store, flow.outputs);
    var k := WalkOf(p, w, store, flow);
    assert Drive(p, w, store, flow) == Conclude(p, w.now, k);
    forall id | id in k.flow.outputs
      ensures ComesFrom(p, store, flow, k.flow.outputs, id)
    {
    }
  }

  /** Only queue steps are recorded as dispatched. */
  ghost predicate DispatchedAreQueueSteps(p: Plan, flow: Flow) {
    forall id | id in flow.dispatched :: exists s | s in p.steps :: s.id == id && IsQueueStep(p, s)
  }

  lemma SentAreQueueSteps(p: Plan, start: Flow, k: Walk)
    requires WalkOk(p, start, k) && DispatchedAreQueueSteps(p, start)
    ensures DispatchedAreQueueSteps(p, k.flow)
  {
    forall id | id in k.flow.dispatched && id !in start.dispatched
      ensures exists s | s in p.steps :: s.id == id && IsQueueStep(p, s)
    {
      var i :| 0 <= i < |k.events| && k.events[i].Sent? && k.events[i].step == id;
      assert EventInOrder(p, start, k.events, i);
    }
  }

  lemma ParksOnGate(p: Plan, now: int, start: Flow, k: Walk)
    requires WellFormed(p.steps) && WalkOk(p, start, k) && k.halt.Going? && k.gate.Some?
    ensures var seg := Conclude(p, now, k);
      && !seg.outcome.Stalled? && !seg.outcome.Finished?
      && (seg.outcome.Waits? ==> ParkedOn(p, now, seg.flow, seg.outcome.on, seg.outcome.condition))
  {
    GateIsOpen(p, start, k);
    var g, seg := k.gate.value, Conclude(p, now, k);
    assert g.id in seg.flow.gatesWaited by { assert seg.flow.gatesWaited[|k.flow.gatesWaited|] == g.id; }
    if seg.outcome.Waits? { assert AwaitedBy(p, now, seg.flow, g, seg.outcome.condition); }
  }

  lemma ParksOnJoinOrFinishes(p: Plan, now: int, k: Walk)
    requires WellFormed(p.steps) && k.halt.Going? && k.gate.None?
    requires forall s | s in p.steps :: Settled(p, k, s)
    ensures var seg := Conclude(p, now, k);
      && !seg.outcome.Stalled? && seg.flow == k.flow
      && (seg.outcome.Finished? ==> Ids(p.steps) <= seg.flow.outputs.Keys)
      && (DispatchedAreQueueSteps(p, k.flow) && seg.outcome.Waits? ==>
            ParkedOn(p, now, seg.flow, seg.outcome.on, seg.outcome.condition))
  {
    var pending, seg := PendingIds(p.steps, k.flow.outputs), Conclude(p, now, k);
    PendingIdsLaw(p.steps, k.flow.outputs);
    FirstInLaw(pending, k.flow.dispatched);
    if pending == [] {
      forall id | id in Ids(p.steps)
        ensures id in k.flow.outputs
      { assert id !in pending && id !in Pending(p.steps, k.flow.outputs); }
    } else {
      assert pending[0] in pending;
      SettledCannotStall(p, k);
      if DispatchedAreQueueSteps(p, k.flow) {
        var on := seg.outcome.on;
        var s :| s in p.steps && s.id == on && IsQueueStep(p, s);
        assert AwaitedBy(p, now, seg.flow, s, seg.outcome.condition);
      }
    }
  }

  /** How a segment can end. It never stalls; it parks on a step that is not complete; it
      finishes only with every step complete. */
  lemma DriveEnds(p: Plan, w: World, store: seq<Envelope>, flow: Flow)
    requires WellFormed(p.steps)
    ensures var seg := Drive(p, w, store, flow);
      && !seg.outcome.Stalled?
      && (seg.outcome.Finished? ==> Ids(p.steps) <= seg.flow.outputs.Keys)
      && (DispatchedAreQueueSteps(p, flow) ==> DispatchedAreQueueSteps(p, seg.flow))
      && (DispatchedAreQueueSteps(p, flow) && seg.outcome.Waits? ==>
            ParkedOn(p, w.now, seg.flow, seg.outcome.on, seg.outcome.condition))
  {
    DriveWalks(p, w, store, flow);
    var start, k := Opening(p, store, flow), WalkOf(p, w, store, flow);
    assert Drive(p, w, store, flow) == Conclude(p, w.now, k);
    if DispatchedAreQueueSteps(p, flow) {
      SentAreQueueSteps(p, start, k);
    }
    if k.halt.Going? {
      if k.gate.Some? {
        ParksOnGate(p, w.now, start, k);
      } else {
        LoopSettles(p, w, Walk(start, None, true, [], Going));
        ParksOnJoinOrFinishes(p, w.now, k);
      }
    }
  }

  /** A segment that goes through records a gate as waited on exactly when it parks on it, and
      it parks on no gate twice. */
  ghost predicate GatesKept(flow: Flow, seg: Segment) {
    || seg.outcome.Crashed?
    || if seg.outcome.Waits? && !seg.outcome.condition.ResultsReady? then
         seg.outcome.on !in flow.gatesWaited && seg.flow.gatesWaited == flow.gatesWaited + [seg.outcome.on]
       else seg.flow.gatesWaited == flow.gatesWaited
  }

  lemma DriveGates(p: Plan, w: World, store: seq<Envelope>, flow: Flow)
    ensures GatesKept(flow, Drive(p, w, store, flow))
  {
    DriveWalks(p, w, store, flow);
    assert Drive(p, w, store, flow) == Conclude(p, w.now, WalkOf(p, w, store, flow));
  }

  ghost predicate IsGate(p: Plan, g: StepId) {
    exists s | s in p.steps :: s.id == g && s.kind.GateStep?
  }

  /** What a checkpoint records are steps of the plan, of the right kind. */
  ghost predicate FlowFits(p: Plan, flow: Flow) {
    DispatchedAreQueueSteps(p, flow) && forall g | g in flow.gatesWaited :: IsGate(p, g)
  }

  lemma DriveFits(p: Plan, w: World, store: seq<Envelope>, flow: Flow)
    requires WellFormed(p.steps) && FlowFits(p, flow)
    ensures var seg := Drive(p, w, store, flow);
      seg.outcome.Waits? || seg.outcome.Finished? ==> FlowFits(p, seg.flow)
  {
    DriveEnds(p, w, store, flow);
    DriveGates(p, w, store, flow);
    var seg := Drive(p, w, store, flow);
    if seg.outcome.Waits? { ParkedOnStep(p, w.now, seg.flow, seg.outcome.on, seg.outcome.condition); }
  }

  lemma ParkedOnStep(p: Plan, now: int, flow: Flow, on: StepId, c: WakeCondition)
    requires ParkedOn(p, now, flow, on, c)
    ensures on in Ids(p.steps) && (!c.ResultsReady? ==> IsGate(p, on))
  {
  }

  lemma GateIsOpen(p: Plan, start: Flow, k: Walk)
    requires WellFormed(p.steps) && WalkOk(p, start, k) && k.gate.Some?
    ensures k.gate.value.id !in k.flow.outputs
  {
    var g := k.gate.value;
    if g.id in k.flow.outputs {
      var s := WhoCompleted(p, start, k.flow.outputs, g.id);
      SameIdSameStep(p.steps, s, g);
      assert false;
    }
  }

  lemma SameIdSameStep(steps: seq<Step>, s: Step, t: Step)
    requires UniqueIds(steps) && s in steps && t in steps && s.id == t.id
    ensures s == t
  {
  }

  /** A claimed wake makes progress: a segment that starts from a park whose wake has fired
      completes what the run was parked on, unless it is cut short. */
  lemma WakeMakesProgress(p: Plan, w: World, store: seq<Envelope>, flow: Flow, on: StepId, c: WakeCondition,
                          parkedAt: int)
    requires ParkedOn(p, parkedAt, flow, on, c)
    requires c.ResultsReady? ==> FirstOutput(store, p.run, on).Some?
    ensures var seg := Drive(p, w, store, flow);
      seg.outcome.Finished? || seg.outcome.Waits? || seg.outcome.Stalled? || c.ResultsReady? ==> on in seg.flow.outputs
  {
    DriveWalks(p, w, store, flow);
    RefreshLaw(p.steps, p.run, store, flow.outputs);
    var start, k := Opening(p, store, flow), WalkOf(p, w, store, flow);
    var s :| s in p.steps && s.id == on && AwaitedBy(p, parkedAt, flow, s, c);
    if c.ResultsReady? {
      assert on in Ids(p.steps);
      assert on in start.outputs;
    } else if k.halt.Going? {
      LoopSettles(p, w, Walk(start, None, true, [], Going));
      assert Settled(p, k, s);
    }
  }

  /** Everything complete has its dependencies complete. */
  ghost predicate DownClosed(p: Plan, outputs: map<StepId, Value>) {
    forall s | s in p.steps && s.id in outputs :: DepsDone(s, outputs)
  }

  lemma DriveKeepsDownClosed(p: Plan, w: World, store: seq<Envelope>, flow: Flow)
    requires UniqueIds(p.steps) && DownClosed(p, Opening(p, store, flow).outputs)
    ensures DownClosed(p, Drive(p, w, store, flow).flow.outputs)
  {
    DriveLaw(p, w, store, flow);
    var start, outputs := Opening(p, store, flow), Drive(p, w, store, flow).flow.outputs;
    DriveWalks(p, w, store, flow);
    assert Drive(p, w, store, flow) == Conclude(p, w.now, WalkOf(p, w, store, flow));
    forall s | s in p.steps && s.id in outputs
      ensures DepsDone(s, outputs)
    {
      if s.id !in start.outputs {
        var t := WhoCompleted(p, start, outputs, s.id);
        SameIdSameStep(p.steps, s, t);
      }
    }
  }

  // ---------- approvals and replies ----------

  ghost predicate MayGo(w: World, start: Flow, s: Step) {
    s.needsApproval ==> s.id in start.approved || w.granted(s.id)
  }

  /** Nothing that needs an approval went out without one; a denial is one the approvers gave;
      what a step run in process completes with is its subagent's reply. */
  ghost predicate Cleared(p: Plan, w: World, start: Flow, k: Walk) {
    && (forall id | id in k.flow.approved :: id in start.approved || w.granted(id))
    && (forall i, s | 0 <= i < |k.events| && !k.events[i].Passed? && s in p.steps && s.id == k.events[i].step ::
          MayGo(w, start, s))
    && (k.halt.DeniedAt? ==> !w.granted(k.halt.step) && k.halt.step !in start.approved)
    && start.approved <= k.flow.approved
    && (forall s | s in p.steps && s.kind.TaskStep? && s.id in k.flow.outputs && s.id !in start.outputs ::
          k.flow.outputs[s.id] == w.reply(s.id))
  }

  lemma DispatchClears(p: Plan, w: World, start: Flow, k: Walk, s: Step)
    requires UniqueIds(p.steps) && s in p.steps && s.kind.TaskStep? && Cleared(p, w, start, k)
    requires s.needsApproval ==> s.id in k.flow.approved
    ensures Cleared(p, w, start, Dispatch(p, w, k, s))
  {
    var v := Dispatch(p, w, k, s);
    assert MayGo(w, start, s);
    forall i, t | 0 <= i < |v.events| && !v.events[i].Passed? && t in p.steps && t.id == v.events[i].step
      ensures MayGo(w, start, t)
    {
      if i < |k.events| { assert v.events[i] == k.events[i]; }
      else { SameIdSameStep(p.steps, s, t); }
    }
  }

  lemma VisitClears(p: Plan, w: World, start: Flow, k: Walk, s: Step)
    requires UniqueIds(p.steps) && s in p.steps && Cleared(p, w, start, k)
    ensures Cleared(p, w, start, Visit(p, w, k, s))
  {
    if !k.halt.Going? || s.id in k.flow.outputs || !DepsDone(s, k.flow.outputs) {
    } else if s.kind.GateStep? {
      PassClears(p, w, start, k, s);
    } else if s.needsApproval && s.id !in k.flow.approved {
      if w.granted(s.id) { DispatchClears(p, w, start, k.(flow := k.flow.(approved := k.flow.approved + [s.id])), s); }
    } else {
      DispatchClears(p, w, start, k, s);
    }
  }

  lemma PassClears(p: Plan, w: World, start: Flow, k: Walk, s: Step)
    requires UniqueIds(p.steps) && s in p.steps && s.kind.GateStep? && Cleared(p, w, start, k)
    ensures Cleared(p, w, start, VisitGate(k, s))
  {
    forall t | t in p.steps && t.kind.TaskStep?
      ensures t.id != s.id
    {
      if t.id == s.id { SameIdSameStep(p.steps, s, t); }
    }
  }

  lemma {:induction false} SweepClears(p: Plan, w: World, start: Flow, k: Walk, i: nat)
    requires UniqueIds(p.steps) && i <= |p.steps| && Cleared(p, w, start, k)
    ensures Cleared(p, w, start, Sweep(p, w, k, i))
    decreases |p.steps| - i
  {
    if i < |p.steps| {
      VisitClears(p, w, start, k, p.steps[i]);
      SweepClears(p, w, start, Visit(p, w, k, p.steps[i]), i + 1);
    }
  }

  lemma {:induction false} LoopClears(p: Plan, w: World, start: Flow, k: Walk)
    requires UniqueIds(p.steps) && Cleared(p, w, start, k)
    ensures Cleared(p, w, start, Loop(p, w, k))
    decreases |Pending(p.steps, k.flow.outputs)|
  {
    var k' := Sweep(p, w, k.(progressed := false), 0);
    SweepShrinks(p, w, k.(progressed := false), 0);
    SweepClears(p, w, start, k.(progressed := false), 0);
    if k'.halt.Going? && k'.progressed { LoopClears(p, w, start, k'); }
  }

  /** A step that needs an approval is sent or run only when it was approved before or the
      approvers grant it now; a segment is denied only when they do not. A task completed by
      the segment itself has the reply of its subagent as output. */
  lemma ApprovalsAreKept(p: Plan, w: World, store: seq<Envelope>, flow: Flow)
    requires UniqueIds(p.steps)
    ensures var seg, start := Drive(p, w, store, flow), Opening(p, store, flow);
      && (forall i, s | 0 <= i < |seg.events| && !seg.events[i].Passed? && s in p.steps && s.id == seg.events[i].step ::
            MayGo(w, flow, s))
      && (seg.outcome.ApprovalDenied? ==> !w.granted(seg.outcome.step) && seg.outcome.step !in flow.approved)
      && (forall s | s in p.steps && s.kind.TaskStep? && s.id in seg.flow.outputs && s.id !in start.outputs ::
            seg.flow.outputs[s.id] == w.reply(s.id))
  {
    var start, k := Opening(p, store, flow), WalkOf(p, w, store, flow);
    LoopClears(p, w, start, Walk(start, None, true, [], Going));
    assert Drive(p, w, store, flow) == Conclude(p, w.now, k);
  }

  /** A segment parks only when nothing is left to do: every task whose dependencies are
      complete is complete or dispatched, and a gate in that position means that the run waits
      on a gate, not on a result. */
  lemma ParkLeavesNothingReady(p: Plan, w: World, store: seq<Envelope>, flow: Flow, s: Step)
    requires WellFormed(p.steps) && s in p.steps
    requires var seg := Drive(p, w, store, flow);
      seg.outcome.Waits? && s.id !in seg.flow.outputs && DepsDone(s, seg.flow.outputs)
    ensures var seg := Drive(p, w, store, flow);
      && (s.kind.TaskStep? ==> ModeOf(p, s).Queue? && s.id in seg.flow.dispatched)
      && (s.kind.GateStep? ==> !seg.outcome.condition.ResultsReady?)
      && (s.kind.GateStep? ==> exists g | g in p.steps ::
            g.kind.GateStep? && g.id == seg.outcome.on && DepsDone(g, seg.flow.outputs))
  {
    var start, k := Opening(p, store, flow), WalkOf(p, w, store, flow);
    assert Drive(p, w, store, flow) == Conclude(p, w.now, k);
    LoopSettles(p, w, Walk(start, None, true, [], Going));
    assert Settled(p, k, s);
    if s.kind.GateStep? {
      DriveWalks(p, w, store, flow);
    }
  }

  // ---------- faults ----------

  /** A walk that goes on has met no fault; one that raised did so at a fault, and when the
      effect came first, it is the last thing in the log. */
  ghost predicate FaultsTold(w: World, k: Walk) {
    && (k.halt.Going? ==>
          forall i | 0 <= i < |k.events| && !k.events[i].Passed? :: w.fault(k.events[i].step).NoFault?)
    && (k.halt.RaisedAt? ==> !w.fault(k.halt.step).NoFault?)
    && (k.halt.RaisedAt? && w.fault(k.halt.step).AfterEffect? ==>
          k.events != [] && !k.events[|k.events| - 1].Passed? && k.events[|k.events| - 1].step == k.halt.step)
  }

  lemma {:induction false} SweepTells(p: Plan, w: World, k: Walk, i: nat)
    requires i <= |p.steps| && FaultsTold(w, k)
    ensures FaultsTold(w, Sweep(p, w, k, i))
    decreases |p.steps| - i
  {
    if i < |p.steps| {
      VisitTells(p, w, k, p.steps[i]);
      SweepTells(p, w, Visit(p, w, k, p.steps[i]), i + 1);
    }
  }

  lemma VisitTells(p: Plan, w: World, k: Walk, s: Step)
    requires FaultsTold(w, k)
    ensures FaultsTold(w, Visit(p, w, k, s))
  {
    if !k.halt.Going? || s.id in k.flow.outputs || !DepsDone(s, k.flow.outputs) || s.kind.GateStep? {
    } else if s.needsApproval && s.id !in k.flow.approved {
      DispatchTells(p, w, k.(flow := k.flow.(approved := k.flow.approved + [s.id])), s);
    } else {
      DispatchTells(p, w, k, s);
    }
  }

  lemma DispatchTells(p: Plan, w: World, k: Walk, s: Step)
    requires FaultsTold(w, k) && k.halt.Going?
    ensures FaultsTold(w, Dispatch(p, w, k, s))
  {
  }

  lemma {:induction false} LoopTells(p: Plan, w: World, k: Walk)
    requires FaultsTold(w, k)
    ensures FaultsTold(w, Loop(p, w, k))
    decreases |Pending(p.steps, k.flow.outputs)|
  {
    var k' := Sweep(p, w, k.(progressed := false), 0);
    SweepShrinks(p, w, k.(progressed := false), 0);
    SweepTells(p, w, k.(progressed := false), 0);
    if k'.halt.Going? && k'.progressed { LoopTells(p, w, k'); }
  }

  lemma WalkTells(p: Plan, w: World, store: seq<Envelope>, flow: Flow)
    ensures FaultsTold(w, WalkOf(p, w, store, flow))
  {
    LoopTells(p, w, Walk(Opening(p, store, flow), None, true, [], Going));
  }
}
