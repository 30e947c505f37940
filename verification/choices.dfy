/** Which way a segment goes: how a step is executed, when the segment is denied, on which gate
    and on which join it parks. */
module Choices {
  import opened Base
  import opened Templates
  import opened Definition
  import opened Keys
  import opened Lifecycle
  import opened Executor
  import opened ExecutorLaws

  // ---------- how a step is executed ----------

  /** The mode of a step: its own, or else the default of the executor. */
  ghost predicate GoesBy(p: Plan, s: Step, mode: Mode) {
    s.mode == Some(mode) || (s.mode.None? && p.defaultMode == mode)
  }

  /** A step whose own mode is in process is never sent, and one whose own mode is the queue never
      run in process; the default decides for the others. */
  lemma OwnModeWins(p: Plan, w: World, store: seq<Envelope>, flow: Flow, s: Step, i: nat)
    requires UniqueIds(p.steps) && s in p.steps && i < |Drive(p, w, store, flow).events|
    requires Drive(p, w, store, flow).events[i].step == s.id
    ensures var e := Drive(p, w, store, flow).events[i];
      && (e.Sent? <==> s.kind.TaskStep? && GoesBy(p, s, Queue))
      && (e.Ran? <==> s.kind.TaskStep? && GoesBy(p, s, InProcess))
      && (e.Passed? <==> s.kind.GateStep?)
  {
    DriveLaw(p, w, store, flow);
    var start, events := Opening(p, store, flow), Drive(p, w, store, flow).events;
    assert EventInOrder(p, start, events, i);
    var t :| t in p.steps && EventFits(p, start, t, events[i]);
    EventNames(p, start, t, events[i]);
    SameIdSameStep(p.steps, s, t);
  }

  lemma EventNames(p: Plan, start: Flow, t: Step, e: Executor.Event)
    requires t in p.steps && EventFits(p, start, t, e)
    ensures e.step == t.id && (e.Passed? <==> t.kind.GateStep?)
    ensures e.Sent? <==> t.kind.TaskStep? && ModeOf(p, t).Queue?
    ensures e.Ran? <==> t.kind.TaskStep? && ModeOf(p, t).InProcess?
  {
  }

  /** The task message of a step: it names the run and the step, has the task type of the step, or
      the generic one, and the objective of the workflow step, and its payload is what the input
      of the step stands for over these outputs. */
  ghost predicate CarriesTask(p: Plan, t: Step, outputs: map<StepId, Value>, k: Key) {
    && k.run == p.run && k.ref == t.id
    && k.taskType == (if t.taskType == "" then "generic_task" else t.taskType)
    && k.objective == "workflow " + p.name + " v" + p.version + " step " + t.id
    && StandsFor(DictOf(t.input), p.context, outputs, p.show, k.payload)
  }

  lemma KeyCarriesTask(p: Plan, t: Step, outputs: map<StepId, Value>)
    ensures CarriesTask(p, t, outputs, KeyFor(p, t, outputs))
  {
    BindStandsFor(DictOf(t.input), p.context, outputs, p.show);
  }

  /** Every task message of a segment carries the task of its step over the outputs seen then, in
      which all dependencies of the step are. */
  lemma SentCarriesTask(p: Plan, w: World, store: seq<Envelope>, flow: Flow, i: nat)
    requires i < |Drive(p, w, store, flow).events| && Drive(p, w, store, flow).events[i].Sent?
    ensures var e := Drive(p, w, store, flow).events[i];
      exists t | t in p.steps :: t.id == e.step && DepsDone(t, e.seen) && CarriesTask(p, t, e.seen, e.key)
  {
    DriveLaw(p, w, store, flow);
    var start, e := Opening(p, store, flow), Drive(p, w, store, flow).events[i];
    assert EventInOrder(p, start, Drive(p, w, store, flow).events, i);
    var t :| t in p.steps && EventFits(p, start, t, e);
    KeyCarriesTask(p, t, e.seen);
    SentIs(p, start, t, e);
  }

  lemma SentIs(p: Plan, start: Flow, t: Step, e: Executor.Event)
    requires t in p.steps && EventFits(p, start, t, e) && e.Sent?
    ensures e.step == t.id && DepsDone(t, e.seen) && e.key == KeyFor(p, t, e.seen)
  {
  }

  // ---------- when it is denied ----------

  /** A task that could go now but for an approval that nobody gives. */
  ghost predicate Blocked(p: Plan, w: World, flow: Flow, s: Step) {
    && s in p.steps && s.kind.TaskStep? && s.id !in flow.outputs && DepsDone(s, flow.outputs)
    && s.needsApproval && s.id !in flow.approved && !w.granted(s.id)
  }

  /** Where a walk was denied, a task is blocked. */
  ghost predicate DenialTold(p: Plan, w: World, k: Walk) {
    k.halt.DeniedAt? ==> exists s :: Blocked(p, w, k.flow, s) && s.id == k.halt.step
  }

  lemma {:induction false} SweepTellsDenial(p: Plan, w: World, k: Walk, i: nat)
    requires i <= |p.steps| && DenialTold(p, w, k)
    ensures DenialTold(p, w, Sweep(p, w, k, i))
    decreases |p.steps| - i
  {
    if i < |p.steps| {
      VisitTellsDenial(p, w, k, p.steps[i]);
      SweepTellsDenial(p, w, Visit(p, w, k, p.steps[i]), i + 1);
    }
  }

  lemma VisitTellsDenial(p: Plan, w: World, k: Walk, s: Step)
    requires s in p.steps && DenialTold(p, w, k)
    ensures DenialTold(p, w, Visit(p, w, k, s))
  {
    var v := Visit(p, w, k, s);
    if v.halt.DeniedAt? && !k.halt.DeniedAt? { assert Blocked(p, w, v.flow, s); }
  }

  lemma {:induction false} LoopTellsDenial(p: Plan, w: World, k: Walk)
    requires DenialTold(p, w, k)
    ensures DenialTold(p, w, Loop(p, w, k))
    decreases |Pending(p.steps, k.flow.outputs)|
  {
    var k' := Sweep(p, w, k.(progressed := false), 0);
    SweepShrinks(p, w, k.(progressed := false), 0);
    SweepTellsDenial(p, w, k.(progressed := false), 0);
    if k'.halt.Going? && k'.progressed { LoopTellsDenial(p, w, k'); }
  }

  /** A segment that meets no fault is denied exactly when a task is left that only waits for an
      approval nobody gives. */
  lemma DeniedExactly(p: Plan, w: World, store: seq<Envelope>, flow: Flow)
    requires forall x :: w.fault(x).NoFault?
    ensures var seg := Drive(p, w, store, flow);
      && (seg.outcome.ApprovalDenied? <==> exists s :: Blocked(p, w, seg.flow, s))
      && (seg.outcome.ApprovalDenied? ==> exists s :: Blocked(p, w, seg.flow, s) && s.id == seg.outcome.step)
  {
    var start, k := Opening(p, store, flow), WalkOf(p, w, store, flow);
    var seg := Drive(p, w, store, flow);
    assert seg == Conclude(p, w.now, k);
    LoopTellsDenial(p, w, Walk(start, None, true, [], Going));
    WalkTells(p, w, store, flow);
    if k.halt.Going? {
      LoopSettles(p, w, Walk(start, None, true, [], Going));
      forall s | s in p.steps
        ensures !Blocked(p, w, seg.flow, s)
      { assert Settled(p, k, s); }
    }
  }

  // ---------- on which gate it parks ----------

  /** A gate that the run could wait for now. */
  predicate GateIsReady(flow: Flow, g: Step) {
    g.kind.GateStep? && g.id !in flow.outputs && g.id !in flow.gatesWaited && DepsDone(g, flow.outputs)
  }

  /** The gate of the walk stands no later in the definition than `i`, if there is one. */
  ghost predicate GateUpTo(p: Plan, k: Walk, i: nat) {
    exists j :: 0 <= j <= i && j < |p.steps| && k.gate == Some(p.steps[j])
  }

  lemma {:induction false} SweepKeepsGate(p: Plan, w: World, k: Walk, i: nat)
    requires i <= |p.steps| && k.gate.Some?
    ensures Sweep(p, w, k, i).gate == k.gate
    decreases |p.steps| - i
  {
    if i < |p.steps| { SweepKeepsGate(p, w, Visit(p, w, k, p.steps[i]), i + 1); }
  }

  lemma {:induction false} LoopKeepsGate(p: Plan, w: World, k: Walk)
    requires k.gate.Some?
    ensures Loop(p, w, k).gate == k.gate
    decreases |Pending(p.steps, k.flow.outputs)|
  {
    var k' := Sweep(p, w, k.(progressed := false), 0);
    SweepShrinks(p, w, k.(progressed := false), 0);
    SweepKeepsGate(p, w, k.(progressed := false), 0);
    if k'.halt.Going? && k'.progressed { LoopKeepsGate(p, w, k'); }
  }

  /** What a ready gate that is still to be visited keeps. */
  ghost predicate StaysReady(k: Walk, g: Step) {
    && g.kind.GateStep? && g.id !in k.flow.gatesWaited && g.id !in k.flow.outputs && DepsDone(g, k.flow.outputs)
  }

  lemma {:induction false} SweepMeetsGate(p: Plan, w: World, k: Walk, i: nat, m: nat)
    requires UniqueIds(p.steps) && i <= m < |p.steps| && StaysReady(k, p.steps[m])
    requires k.gate.None? || GateUpTo(p, k, m)
    ensures var k' := Sweep(p, w, k, i); k'.halt.Going? ==> GateUpTo(p, k', m)
    decreases |p.steps| - i
  {
    var v := Visit(p, w, k, p.steps[i]);
    SweepGoing(p, w, k, i);
    SweepGoing(p, w, v, i + 1);
    if k.gate.Some? {
      SweepKeepsGate(p, w, k, i);
    } else if v.gate.Some? {
      assert v.gate == Some(p.steps[i]);
      SweepKeepsGate(p, w, v, i + 1);
    } else if i < m && v.halt.Going? {
      assert p.steps[i].id != p.steps[m].id;
      SweepMeetsGate(p, w, v, i + 1, m);
    }
  }

  predicate IsThatGate(s: Step, id: StepId) { s.kind.GateStep? && s.id == id }

  /** A segment that is not cut short parks on a gate that stands no later in the definition than
      any gate that was ready when it began. */
  lemma ParksOnEarlyGate(p: Plan, w: World, store: seq<Envelope>, flow: Flow, m: nat)
    requires UniqueIds(p.steps) && m < |p.steps| && GateIsReady(Opening(p, store, flow), p.steps[m])
    requires Drive(p, w, store, flow).outcome.Waits?
    ensures exists j | 0 <= j <= m :: IsThatGate(p.steps[j], Drive(p, w, store, flow).outcome.on)
  {
    var start := Opening(p, store, flow);
    var k := Walk(start, None, false, [], Going);
    var k', last := Sweep(p, w, k, 0), WalkOf(p, w, store, flow);
    assert Drive(p, w, store, flow) == Conclude(p, w.now, last);
    assert last.halt.Going?;
    SweepMeetsGate(p, w, k, 0, m);
    SweepShrinks(p, w, k, 0);
    assert last == if k'.halt.Going? && k'.progressed then Loop(p, w, k') else k';
    if k'.halt.Going? && k'.progressed { LoopKeepsGate(p, w, k'); }
    DriveWalks(p, w, store, flow);
    var j :| 0 <= j <= m && j < |p.steps| && k'.gate == Some(p.steps[j]);
    assert last.gate == Some(p.steps[j]) && IsThatGate(p.steps[j], Drive(p, w, store, flow).outcome.on);
  }

  // ---------- on which join it parks ----------

  lemma {:induction false} FirstPendingInOrder(steps: seq<Step>, outputs: map<StepId, Value>, among: seq<StepId>,
                                               i: nat)
    requires i < |steps| && steps[i].id !in outputs && steps[i].id in among
    requires forall j | 0 <= j < i :: steps[j].id in outputs || steps[j].id !in among
    ensures FirstIn(PendingIds(steps, outputs), among) == Some(steps[i].id)
  {
    var n := |steps| - 1;
    var before, last := PendingIds(steps[..n], outputs), steps[n].id;
    if i < n {
      FirstPendingInOrder(steps[..n], outputs, among, i);
      FirstInThen(before, if last in outputs then [] else [last], among);
    } else {
      forall id | id in before
        ensures id !in among
      {
        PendingIdsLaw(steps[..n], outputs);
        var j :| 0 <= j < n && steps[..n][j].id == id;
      }
      FirstInLaw(before, among);
      FirstInThen(before, [last], among);
    }
  }

  lemma {:induction false} FirstInThen(a: seq<StepId>, b: seq<StepId>, among: seq<StepId>)
    ensures FirstIn(a + b, among) == if FirstIn(a, among).Some? then FirstIn(a, among) else FirstIn(b, among)
  {
    if a == [] {
      assert a + b == b;
    } else {
      assert (a + b)[0] == a[0] && (a + b)[1..] == a[1..] + b;
      FirstInThen(a[1..], b, among);
    }
  }

  predicate IsOutstanding(flow: Flow, id: StepId) { id in flow.dispatched && id !in flow.outputs }

  lemma {:induction false} FirstOutstanding(steps: seq<Step>, flow: Flow, m: nat) returns (i: nat)
    requires m < |steps| && IsOutstanding(flow, steps[m].id)
    ensures i <= m && IsOutstanding(flow, steps[i].id)
    ensures forall j | 0 <= j < i :: !IsOutstanding(flow, steps[j].id)
  {
    i := m;
    if j :| 0 <= j < m && IsOutstanding(flow, steps[j].id) { i := FirstOutstanding(steps, flow, j); }
  }

  /** A segment that parks on a join parks on the first step of the definition that was sent and
      has no result. */
  lemma ParksOnFirstJoin(p: Plan, w: World, store: seq<Envelope>, flow: Flow, m: nat)
    requires var seg := Drive(p, w, store, flow);
      && seg.outcome.Waits? && seg.outcome.condition.ResultsReady?
      && m < |p.steps| && IsOutstanding(seg.flow, p.steps[m].id)
    ensures var seg := Drive(p, w, store, flow);
      exists j | 0 <= j <= m :: p.steps[j].id == seg.outcome.on && IsOutstanding(seg.flow, p.steps[j].id)
  {
    var seg, k := Drive(p, w, store, flow), WalkOf(p, w, store, flow);
    assert seg == Conclude(p, w.now, k);
    var i := FirstOutstanding(p.steps, seg.flow, m);
    FirstPendingInOrder(p.steps, seg.flow.outputs, seg.flow.dispatched, i);
  }
}
