/** `WorkflowExecutor.run` as the program runs it: loops over the steps that update the
    run state in place and call the coordinator, proved equal to `Executor.Drive`. */
module ExecutorSteps {
  import opened Base
  import opened Definition
  import opened Keys
  import opened Lifecycle
  import opened Executor
  import opened Workers
  import opened Protocol

  /** `sc.extras["workflow"]`, the part of the stage context the executor owns. */
  class WorkflowState {
    var dispatched: seq<StepId>
    var approved: seq<StepId>
    var outputs: map<StepId, Value>
    var gatesWaited: seq<StepId>

    constructor (flow: Flow)
      ensures Snapshot() == flow
    {
      dispatched, approved := flow.dispatched, flow.approved;
      outputs, gatesWaited := flow.outputs, flow.gatesWaited;
    }

    function Snapshot(): Flow
      reads this
    {
      Flow(dispatched, approved, outputs, gatesWaited)
    }
  }

  /** The coordinator routes a delegation to the queue, through the guarded publish, or to a
      subagent in process. `log` is the history of what it did and of the gates passed. */
  class Coordinator {
    const dispatcher: QueueDispatcher
    const outside: Guarded
    const agentVersion: string -> string    // what the registry resolves a task type to
    var log: seq<Executor.Event>

    constructor (dispatcher: QueueDispatcher, agentVersion: string -> string)
      ensures log == [] && this.dispatcher == dispatcher && outside == dispatcher.outside
      ensures this.agentVersion == agentVersion
    {
      log := [];
      this.dispatcher, outside, this.agentVersion := dispatcher, dispatcher.outside, agentVersion;
    }

    /** The broker has got the task messages of the log, starting from `fx`. */
    ghost predicate InStep(fx: Effects)
      reads this, outside
    {
      outside == dispatcher.outside && outside.Snapshot() == Published(fx, log)
    }

    method Note(e: Executor.Event, ghost fx: Effects)
      requires InStep(fx) && !e.Sent?
      modifies this
      ensures InStep(fx) && log == old(log) + [e]
    {
      log := log + [e];
      assert log[..|log| - 1] == old(log);
    }

    /** `publish_task`, then the trace record; `kept` is false when the guard loses its record
        of the publish. */
    method Send(step: StepId, key: Key, seen: map<StepId, Value>, kept: bool, ghost fx: Effects)
      requires InStep(fx)
      modifies this, outside, dispatcher
      ensures InStep(fx) && log == old(log) + [Sent(step, key, seen, kept)]
    {
      dispatcher.Dispatch(key, agentVersion(key.taskType), kept);
      log := log + [Sent(step, key, seen, kept)];
      assert log[..|log| - 1] == old(log);
    }
  }

  lemma RefreshOneMore(steps: seq<Step>, i: nat, run: RunId, store: seq<Envelope>, outputs: map<StepId, Value>)
    requires i < |steps|
    ensures var o, first := Refresh(steps[..i], run, store, outputs), FirstOutput(store, run, steps[i].id);
      Refresh(steps[..i + 1], run, store, outputs)
        == if steps[i].id in o || first.None? then o else o[steps[i].id := first.value]
  {
    assert steps[..i + 1][..i] == steps[..i];
  }

  class WorkflowExecutor {
    const results: InMemoryResultStore
    const coordinator: Coordinator

    constructor (results: InMemoryResultStore, coordinator: Coordinator)
      ensures this.results == results && this.coordinator == coordinator
    {
      this.results, this.coordinator := results, coordinator;
    }

    method RefreshCompletions(p: Plan, st: WorkflowState)
      modifies st
      ensures st.Snapshot() == Opening(p, results.entries, old(st.Snapshot()))
    {
      for i := 0 to |p.steps|
        invariant st.Snapshot()
              == old(st.Snapshot()).(outputs := Refresh(p.steps[..i], p.run, results.entries, old(st.outputs)))
      {
        RefreshOneMore(p.steps, i, p.run, results.entries, old(st.outputs));
        var s := p.steps[i];
        if s.id !in st.outputs {
          var envelopes := results.List(p.run, Some(s.id));
          if envelopes != [] {
            st.outputs := st.outputs[s.id := envelopes[0].output];
          }
        }
      }
      assert p.steps[..|p.steps|] == p.steps;
    }

    /** Where the loop over the steps stands. */
    ghost function At(st: WorkflowState, gate: Option<Step>, progressed: bool, halt: Halt): Walk
      reads st, coordinator
    {
      Walk(st.Snapshot(), gate, progressed, coordinator.log, halt)
    }

    /** The dispatch of a step run in process; its reply completes it. */
    method RunStep(w: World, st: WorkflowState, s: Step, ghost gate: Option<Step>, progressed: bool, ghost fx: Effects)
        returns (progressed': bool, halt: Halt)
      requires coordinator.InStep(fx)
      modifies st`outputs, coordinator
      ensures coordinator.InStep(fx)
      ensures At(st, gate, progressed', halt) == RunLocally(w, old(At(st, gate, progressed, Going)), s)
    {
      if w.fault(s.id).BeforeEffect? {
        return progressed, RaisedAt(s.id);
      }
      coordinator.Note(Ran(s.id, w.fault(s.id).NoFault?), fx);
      if !w.fault(s.id).NoFault? {
        return progressed, RaisedAt(s.id);
      }
      st.outputs := st.outputs[s.id := w.reply(s.id)];
      return true, Going;
    }

    /** The dispatch of a step through the queue, unless it was dispatched before. */
    method SendStep(p: Plan, w: World, st: WorkflowState, s: Step, ghost gate: Option<Step>, ghost progressed: bool,
                    ghost fx: Effects)
        returns (halt: Halt)
      requires coordinator.InStep(fx)
      modifies st`dispatched, coordinator, coordinator.outside, coordinator.dispatcher
      ensures coordinator.InStep(fx)
      ensures At(st, gate, progressed, halt) == Executor.Send(p, w, old(At(st, gate, progressed, Going)), s)
    {
      if s.id in st.dispatched {
        return Going;
      }
      if w.fault(s.id).BeforeEffect? {
        return RaisedAt(s.id);
      }
      coordinator.Send(s.id, KeyFor(p, s, st.outputs), st.outputs, !w.fault(s.id).Unrecorded?, fx);
      if !w.fault(s.id).NoFault? {
        return RaisedAt(s.id);
      }
      st.dispatched := st.dispatched + [s.id];
      return Going;
    }

    /** The body of the loop for a task step whose dependencies are complete. */
    method VisitTaskStep(p: Plan, w: World, st: WorkflowState, s: Step, ghost gate: Option<Step>, progressed: bool,
                         ghost fx: Effects)
        returns (progressed': bool, halt: Halt)
      requires coordinator.InStep(fx)
      modifies st, coordinator, coordinator.outside, coordinator.dispatcher
      ensures coordinator.InStep(fx)
      ensures At(st, gate, progressed', halt) == VisitTask(p, w, old(At(st, gate, progressed, Going)), s)
    {
      if s.needsApproval && s.id !in st.approved {
        if !w.granted(s.id) {
          return progressed, DeniedAt(s.id);
        }
        st.approved := st.approved + [s.id];
      }
      if ModeOf(p, s).InProcess? {
        progressed', halt := RunStep(w, st, s, gate, progressed, fx);
      } else {
        progressed' := progressed;
        halt := SendStep(p, w, st, s, gate, progressed, fx);
      }
    }

    /** One pass over the steps. */
    method Pass(p: Plan, w: World, st: WorkflowState, gate: Option<Step>, ghost fx: Effects)
        returns (gate': Option<Step>, progressed: bool, halt: Halt)
      requires coordinator.InStep(fx)
      modifies st, coordinator, coordinator.outside, coordinator.dispatcher
      ensures coordinator.InStep(fx)
      ensures At(st, gate', progressed, halt) == Sweep(p, w, old(At(st, gate, false, Going)), 0)
    {
      gate', progressed, halt := gate, false, Going;
      ghost var k0 := At(st, gate, false, Going);
      for i := 0 to |p.steps|
        invariant coordinator.InStep(fx)
        invariant Sweep(p, w, k0, 0) == Sweep(p, w, At(st, gate', progressed, halt), i)
      {
        var s := p.steps[i];
        if halt.Going? && s.id !in st.outputs && forall d | d in s.dependsOn :: d in st.outputs {
          if s.kind.GateStep? {
            if s.id in st.gatesWaited {
              st.outputs := st.outputs[s.id := GATE_PASSED];
              coordinator.Note(Passed(s.id), fx);
              progressed := true;
            } else if gate'.None? {
              gate' := Some(s);
            }
          } else {
            progressed, halt := VisitTaskStep(p, w, st, s, gate', progressed, fx);
          }
        }
      }
    }

    /** `WorkflowExecutor.run`. The outcome names how it ends: by returning, by raising
        `NeedsWait`, by the "stalled" error, or by another exception. */
    method Run(p: Plan, w: World, st: WorkflowState) returns (outcome: Outcome)
      requires coordinator.log == [] && coordinator.outside == coordinator.dispatcher.outside
      modifies st, coordinator, coordinator.outside, coordinator.dispatcher
      ensures coordinator.outside.Snapshot() == Published(old(coordinator.outside.Snapshot()), coordinator.log)
      ensures Segment(st.Snapshot(), coordinator.log, outcome) == Drive(p, w, results.entries, old(st.Snapshot()))
    {
      RefreshCompletions(p, st);
      var gate: Option<Step>, progressed, halt := None, true, Going;
      ghost var fx := coordinator.outside.Snapshot();
      ghost var k0 := Walk(st.Snapshot(), None, true, [], Going);
      while progressed && halt.Going?
        invariant coordinator.InStep(fx)
        invariant halt.Going? && progressed ==> Loop(p, w, k0) == Loop(p, w, At(st, gate, true, Going))
        invariant !(halt.Going? && progressed) ==> Loop(p, w, k0) == At(st, gate, progressed, halt)
        decreases if halt.Going? && progressed then 1 else 0, |Pending(p.steps, st.outputs)|
      {
        ghost var k := At(st, gate, false, Going);
        SweepShrinks(p, w, k, 0);
        gate, progressed, halt := Pass(p, w, st, gate, fx);
      }
      match halt
      case DeniedAt(s) => return ApprovalDenied(s);
      case RaisedAt(s) => return Crashed(s);
      case Going =>
        if gate.Some? {
          st.gatesWaited := st.gatesWaited + [gate.value.id];
          var condition := GateCondition(p, w.now, gate.value, st.outputs);
          return if condition.Some? then Waits(condition.value, gate.value.id) else Crashed(gate.value.id);
        }
        var pending := PendingIds(p.steps, st.outputs);
        if pending == [] {
          return Finished;
        }
        var waiting := FirstIn(pending, st.dispatched);
        if waiting.None? {
          return Stalled(pending);
        }
        return Waits(ResultsReady(Some(waiting.value), 1), waiting.value);
    }
  }
}
