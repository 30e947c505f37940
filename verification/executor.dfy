/** The workflow executor (`src/maof/workflows/executor.py`): what one call of
    `WorkflowExecutor.run` does, as functions on values, with its laws; the class
    in the module ExecutorSteps does it step by step on the mutable run state. */
module Executor {
  import opened Base
  import opened Templates
  import opened Definition
  import opened Keys
  import opened Lifecycle

  /** A definition together with what stays the same over all segments of one run. */
  datatype Plan = Plan(
    run: RunId,
    name: string,
    version: string,
    steps: seq<Step>,
    defaultMode: Mode,
    context: Value,
    show: Value -> string)

  /** How a dispatch ends: normally, or with an exception (or the death of the process)
      before its effect, after it, or between the effect and the guard's record of it. */
  datatype Fault = NoFault | BeforeEffect | AfterEffect | Unrecorded

  /** How the driver gets through the rest of a segment: wholly, or it dies before the stage
      begins, after a checkpoint was saved at its end, or after the wake was scheduled. */
  datatype Closing = GoesThrough | DiesAtOnce | DiesAfterSave | DiesAfterSchedule

  /** What one segment finds outside: the clock, the approval answers, the faults, the
      replies of in-process subagents, and how far the driver gets. */
  datatype World = World(
    now: int,
    granted: StepId -> bool,
    fault: StepId -> Fault,
    reply: StepId -> Value,
    closing: Closing)

  /** The resumable state the executor keeps in the checkpoint. */
  datatype Flow = Flow(
    dispatched: seq<StepId>,
    approved: seq<StepId>,
    outputs: map<StepId, Value>,
    gatesWaited: seq<StepId>)

  const FRESH_FLOW := Flow([], [], map[], [])
  const GATE_PASSED := Fields(map["gate" := Text("passed")])

  /** What a segment does to the outside and to the completed set, in order. `seen` is the
      output map the payload of a task was bound over; `kept` is false when the guard's
      record of the publish was lost. */
  datatype Event =
    | Sent(step: StepId, key: Key, seen: map<StepId, Value>, kept: bool)
    | Ran(step: StepId, completed: bool)
    | Passed(step: StepId)

  datatype Halt = Going | DeniedAt(step: StepId) | RaisedAt(step: StepId)

  datatype Walk = Walk(flow: Flow, gate: Option<Step>, progressed: bool, events: seq<Event>, halt: Halt)

  datatype Outcome =
    | Finished
    | Waits(condition: WakeCondition, on: StepId)
    | Stalled(pending: seq<StepId>)
    | ApprovalDenied(step: StepId)
    | Crashed(step: StepId)

  datatype Segment = Segment(flow: Flow, events: seq<Event>, outcome: Outcome)

  // ---------- dispatch ----------

  function ModeOf(p: Plan, s: Step): Mode {
    if s.mode.Some? then s.mode.value else p.defaultMode
  }

  predicate DepsDone(s: Step, outputs: map<StepId, Value>) {
    forall d | d in s.dependsOn :: d in outputs
  }

  function Objective(p: Plan, s: Step): string {
    "workflow " + p.name + " v" + p.version + " step " + s.id
  }

  function Payload(p: Plan, s: Step, outputs: map<StepId, Value>): Value {
    Bind(DictOf(s.input), p.context, outputs, p.show)
  }

  function TaskTypeOf(s: Step): string {
    if s.taskType == "" then "generic_task" else s.taskType
  }

  /** The idempotency key of the delegation of a step: run, step, task type and task body. */
  function KeyFor(p: Plan, s: Step, outputs: map<StepId, Value>): Key {
    Key(p.run, s.id, TaskTypeOf(s), Objective(p, s), Payload(p, s, outputs))
  }

  /** The wake condition of a gate; none when its delay is not a number. */
  function GateCondition(p: Plan, now: int, s: Step, outputs: map<StepId, Value>): Option<WakeCondition> {
    var spec := Payload(p, s, outputs);
    if spec.Get("wait") == Text("external_event") then
      var key := spec.Get("event_key");
      Some(ExternalEvent(Some(if key.Truthy() then p.show(key) else p.run + ":" + s.id)))
    else if spec.Get("at") != Null then
      Some(Timer(if spec.Get("at").Number? then Some(spec.Get("at").n) else None))
    else
      match spec.Get("delay_s")
      case Number(delay) => Some(Timer(Some(now + delay)))
      case Null => if spec.Fields? && "delay_s" in spec.fields then None else Some(Timer(Some(now)))
      case _ => None
  }

  // ---------- one segment ----------

  /** Queue-step completions picked up from the result store. */
  function Refresh(steps: seq<Step>, run: RunId, store: seq<Envelope>, outputs: map<StepId, Value>): map<StepId,
                   Value> {
    if steps == [] then outputs
    else
      var o, s := Refresh(steps[..|steps| - 1], run, store, outputs), steps[|steps| - 1];
      var first := FirstOutput(store, run, s.id);
      if s.id in o || first.None? then o else o[s.id := first.value]
  }

  /** A step run in process: its reply completes it. */
  function RunLocally(w: World, k: Walk, s: Step): Walk {
    match w.fault(s.id)
    case BeforeEffect => k.(halt := RaisedAt(s.id))
    case NoFault =>
      k.(flow := k.flow.(outputs := k.flow.outputs[s.id := w.reply(s.id)]),
         progressed := true, events := k.events + [Ran(s.id, true)])
    case _ => k.(events := k.events + [Ran(s.id, false)], halt := RaisedAt(s.id))
  }

  /** A step that goes through the queue, unless it was dispatched before. */
  function Send(p: Plan, w: World, k: Walk, s: Step): Walk {
    if s.id in k.flow.dispatched then k
    else
      var sent := Sent(s.id, KeyFor(p, s, k.flow.outputs), k.flow.outputs, !w.fault(s.id).Unrecorded?);
      match w.fault(s.id)
      case BeforeEffect => k.(halt := RaisedAt(s.id))
      case NoFault => k.(flow := k.flow.(dispatched := k.flow.dispatched + [s.id]), events := k.events + [sent])
      case _ => k.(events := k.events + [sent], halt := RaisedAt(s.id))
  }

  function Dispatch(p: Plan, w: World, k: Walk, s: Step): Walk {
    if ModeOf(p, s).InProcess? then RunLocally(w, k, s) else Send(p, w, k, s)
  }

  function VisitTask(p: Plan, w: World, k: Walk, s: Step): Walk {
    if s.needsApproval && s.id !in k.flow.approved then
      if w.granted(s.id) then Dispatch(p, w, k.(flow := k.flow.(approved := k.flow.approved + [s.id])), s)
      else k.(halt := DeniedAt(s.id))
    else Dispatch(p, w, k, s)
  }

  function VisitGate(k: Walk, s: Step): Walk {
    if s.id in k.flow.gatesWaited then
      k.(flow := k.flow.(outputs := k.flow.outputs[s.id := GATE_PASSED]),
         progressed := true, events := k.events + [Passed(s.id)])
    else if k.gate.None? then k.(gate := Some(s))
    else k
  }

  function Visit(p: Plan, w: World, k: Walk, s: Step): Walk {
    if !k.halt.Going? || s.id in k.flow.outputs || !DepsDone(s, k.flow.outputs) then k
    else if s.kind.GateStep? then VisitGate(k, s)
    else VisitTask(p, w, k, s)
  }

  /** One pass of the `for` loop over the steps, from the `i`-th on. */
  function Sweep(p: Plan, w: World, k: Walk, i: nat): Walk
    requires i <= |p.steps|
    decreases |p.steps| - i
  {
    if i == |p.steps| then k else Sweep(p, w, Visit(p, w, k, p.steps[i]), i + 1)
  }

  function Pending(steps: seq<Step>, outputs: map<StepId, Value>): set<StepId> {
    Ids(steps) - outputs.Keys
  }

  /** The `while progressed` loop. */
  function Loop(p: Plan, w: World, k: Walk): Walk
    decreases |Pending(p.steps, k.flow.outputs)|
  {
    var k' := Sweep(p, w, k.(progressed := false), 0);
    SweepShrinks(p, w, k.(progressed := false), 0);
    if k'.halt.Going? && k'.progressed then Loop(p, w, k') else k'
  }

  function PendingIds(steps: seq<Step>, outputs: map<StepId, Value>): seq<StepId> {
    if steps == [] then []
    else
      var last := steps[|steps| - 1].id;
      PendingIds(steps[..|steps| - 1], outputs) + if last in outputs then [] else [last]
  }

  function FirstIn(ids: seq<StepId>, among: seq<StepId>): Option<StepId> {
    if ids == [] then None
    else if ids[0] in among then Some(ids[0])
    else FirstIn(ids[1..], among)
  }

  /** What follows the loop: park on a gate, or finish, or park on an outstanding join. */
  function Conclude(p: Plan, now: int, k: Walk): Segment {
    match k.halt
    case DeniedAt(s) => Segment(k.flow, k.events, ApprovalDenied(s))
    case RaisedAt(s) => Segment(k.flow, k.events, Crashed(s))
    case Going =>
      if k.gate.Some? then
        var g := k.gate.value;
        var condition := GateCondition(p, now, g, k.flow.outputs);
        Segment(k.flow.(gatesWaited := k.flow.gatesWaited + [g.id]), k.events,
                if condition.Some? then Waits(condition.value, g.id) else Crashed(g.id))
      else
        var pending := PendingIds(p.steps, k.flow.outputs);
        var waiting := FirstIn(pending, k.flow.dispatched);
        Segment(k.flow, k.events,
                if pending == [] then Finished
                else if waiting.Some? then Waits(ResultsReady(Some(waiting.value), 1), waiting.value)
                else Stalled(pending))
  }

  function Opening(p: Plan, store: seq<Envelope>, flow: Flow): Flow {
    flow.(outputs := Refresh(p.steps, p.run, store, flow.outputs))
  }

  /** `WorkflowExecutor.run` from a checkpointed state. */
  function Drive(p: Plan, w: World, store: seq<Envelope>, flow: Flow): Segment {
    Conclude(p, w.now, Loop(p, w, Walk(Opening(p, store, flow), None, true, [], Going)))
  }

  // ---------- termination ----------

  lemma FewerPending(steps: seq<Step>, before: map<StepId, Value>, after: map<StepId, Value>, id: StepId)
    requires before.Keys <= after.Keys && id in Ids(steps) && id !in before && id in after
    ensures |Pending(steps, after)| < |Pending(steps, before)|
  {
    var a, b := Pending(steps, after), Pending(steps, before);
    assert id in b && id !in a;
    StrictSubsetSize(a, b);
  }

  /** A visit only completes the step it looks at, and says so. */
  lemma VisitProgress(p: Plan, w: World, k: Walk, s: Step)
    ensures var v := Visit(p, w, k, s);
      && k.flow.outputs.Keys <= v.flow.outputs.Keys
      && (k.progressed ==> v.progressed)
      && (!k.progressed && !v.progressed ==> v.flow.outputs == k.flow.outputs)
      && (!k.progressed && v.progressed ==> s.id !in k.flow.outputs && s.id in v.flow.outputs)
  {
  }

  lemma {:induction false} SweepShrinks(p: Plan, w: World, k: Walk, i: nat)
    requires i <= |p.steps|
    ensures k.flow.outputs.Keys <= Sweep(p, w, k, i).flow.outputs.Keys
    ensures k.progressed ==> Sweep(p, w, k, i).progressed
    ensures !k.progressed && Sweep(p, w, k, i).progressed ==>
      |Pending(p.steps, Sweep(p, w, k, i).flow.outputs)| < |Pending(p.steps, k.flow.outputs)|
    decreases |p.steps| - i
  {
    if i < |p.steps| {
      var s := p.steps[i];
      var v := Visit(p, w, k, s);
      VisitProgress(p, w, k, s);
      SweepShrinks(p, w, v, i + 1);
      if !k.progressed && v.progressed {
        assert s.id in Ids(p.steps);
        FewerPending(p.steps, k.flow.outputs, Sweep(p, w, v, i + 1).flow.outputs, s.id);
      }
    }
  }
}
