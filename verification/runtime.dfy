/** The driver of a workflow pipeline over the mutable stores: run store, checkpointer, waker,
    result store and broker (`src/maof/orchestrator/l1.py`, `src/maof/runs/store.py`,
    `src/maof/runs/checkpoint.py`), proved to do what the state machine of the module Protocol
    does in one drive segment. */
module Runtime {
  import opened Base
  import opened Lifecycle
  import opened Executor
  import opened Workers
  import opened Protocol
  import opened ExecutorSteps
  import Driver

  /** Status and cancel flag of every run. */
  class InMemoryRunStore {
    var status: map<RunId, Driver.Status>
    var cancelRequested: set<RunId>

    constructor ()
      ensures status == map[] && cancelRequested == {}
    {
      status, cancelRequested := map[], {};
    }

    method SetState(run: RunId, s: Driver.Status)
      modifies this`status
      ensures status == old(status)[run := s]
    {
      status := status[run := s];
    }

    /** Only a run that exists can be cancelled. */
    method RequestCancel(run: RunId) returns (ok: bool)
      modifies this`cancelRequested
      ensures ok <==> run in status
      ensures cancelRequested == old(cancelRequested) + if ok then {run} else {}
    {
      if run !in status {
        return false;
      }
      cancelRequested := cancelRequested + {run};
      return true;
    }

    predicate IsCancelled(run: RunId)
      reads this
    {
      run in cancelRequested || (run in status && status[run].Cancelled?)
    }
  }

  /** The resumable state of a run: the workflow state, and whether the stage is among the
      completed ones. */
  datatype Checkpoint = Checkpoint(flow: Flow, stageDone: bool)

  /** The latest checkpoint of every run. */
  class InMemoryCheckpointer {
    var latest: map<RunId, Checkpoint>

    constructor ()
      ensures latest == map[]
    {
      latest := map[];
    }

    method Save(run: RunId, c: Checkpoint)
      modifies this
      ensures latest == old(latest)[run := c]
    {
      latest := latest[run := c];
    }

    function Resume(run: RunId): Option<Checkpoint>
      reads this
    {
      if run in latest then Some(latest[run]) else None
    }

    function FlowOf(run: RunId): Option<Flow>
      reads this
    {
      if run in latest then Some(latest[run].flow) else None
    }
  }

  /** What a segment does, field by field. */
  lemma DrivenIs(s: Sys, r: Run, flow: Flow, w: World, seg: Segment)
    requires !r.cancel && !r.done && !w.closing.DiesAtOnce? && w.now == s.now
    requires seg == Executor.Drive(r.plan, w, s.store, flow)
    ensures Driven(s, r, flow, w) == AfterSegment(s, r, seg, w.closing)
  {
    assert w.(now := s.now) == w;
  }

  class WorkflowDriver {
    const runs: InMemoryRunStore
    const checkpoints: InMemoryCheckpointer
    const waker: InMemoryRunWaker
    const results: InMemoryResultStore
    const dispatcher: QueueDispatcher
    const agentVersion: string -> string

    constructor (runs: InMemoryRunStore, checkpoints: InMemoryCheckpointer, waker: InMemoryRunWaker,
                 results: InMemoryResultStore, dispatcher: QueueDispatcher, agentVersion: string -> string)
      ensures this.runs == runs && this.checkpoints == checkpoints && this.waker == waker
      ensures this.results == results && this.dispatcher == dispatcher
    {
      this.runs, this.checkpoints, this.waker := runs, checkpoints, waker;
      this.results, this.dispatcher, this.agentVersion := results, dispatcher, agentVersion;
    }

    /** The run as the state machine sees it, without its history. */
    function RunOf(p: Plan): Run
      reads runs, checkpoints
    {
      var saved := checkpoints.Resume(p.run);
      Run(p, if p.run in runs.status then runs.status[p.run] else Driver.Running, p.run in runs.cancelRequested,
          checkpoints.FlowOf(p.run), saved.Some? && saved.value.stageDone, [], false, {}, false)
    }

    ghost function SystemOf(p: Plan, now: int): Sys
      reads runs, checkpoints, waker, results, dispatcher.outside
    {
      Sys(map[p.run := RunOf(p)], waker.scheduled, multiset{}, results.entries, dispatcher.outside.Snapshot(),
          map[], [], [], {}, now)
    }

    /** The stores hold what the state machine says. */
    ghost predicate Shows(p: Plan, s: Sys)
      requires p.run in s.runs
      reads runs, checkpoints, waker, dispatcher.outside
    {
      && RunShows(p, s.runs[p.run])
      && waker.scheduled == s.wakes
      && dispatcher.outside.Snapshot() == s.fx
    }

    ghost predicate RunShows(p: Plan, r: Run)
      reads runs, checkpoints
    {
      && p.run in runs.status && RunOf(p).status == r.status
      && RunOf(p).cancel == r.cancel && RunOf(p).saved == r.saved && RunOf(p).done == r.done
    }

    /** How the stage ended: finish, park, fail, or leave the run as it is when an exception
        goes through. A park saves the checkpoint, schedules the wake and only then waits; the
        driver may die in between. */
    method Conclude(p: Plan, w: World, ghost r: Run, flow: Flow, ghost events: seq<Executor.Event>, outcome: Outcome)
      requires r.plan == p && !r.done && RunShows(p, r.(status := Driver.Running)) && !w.closing.DiesAtOnce?
      modifies runs`status, checkpoints, waker
      ensures RunShows(p, RunAfter(r, Segment(flow, events, outcome), |old(waker.scheduled)|, w.now, w.closing))
      ensures waker.scheduled == WakesAfter(old(waker.scheduled), p.run, Segment(flow, events, outcome), w.closing)
      ensures Others(p.run, old(runs.status), old(checkpoints.latest))
    {
      match outcome {
        case Finished =>
          checkpoints.Save(p.run, Checkpoint(flow, true));
          if !w.closing.GoesThrough? {
            return;
          }
          runs.SetState(p.run, Driver.Completed);
        case Waits(condition, _) =>
          checkpoints.Save(p.run, Checkpoint(flow, false));
          if w.closing.DiesAfterSave? {
            return;
          }
          waker.Schedule(p.run, condition);
          if w.closing.DiesAfterSchedule? {
            return;
          }
          runs.SetState(p.run, Driver.Waiting);
        case ApprovalDenied(_) =>
          runs.SetState(p.run, Driver.Failed);
        case Stalled(_) =>
        case Crashed(_) =>
      }
    }

    /** Status and checkpoint of every other run are these. */
    ghost predicate Others(run: RunId, status: map<RunId, Driver.Status>, latest: map<RunId, Checkpoint>)
      reads runs, checkpoints
    {
      && (forall id | id != run :: id in runs.status <==> id in status)
      && (forall id | id != run && id in status :: runs.status[id] == status[id])
      && (forall id | id != run :: id in checkpoints.latest <==> id in latest)
      && (forall id | id != run && id in latest :: checkpoints.latest[id] == latest[id])
    }

    /** The stage itself: the executor on the checkpointed workflow state. */
    method Execute(p: Plan, flow: Flow, w: World) returns (flow': Flow, ghost events: seq<Executor.Event>,
                   outcome: Outcome)
      modifies dispatcher, dispatcher.outside
      ensures Segment(flow', events, outcome) == Executor.Drive(p, w, results.entries, flow)
      ensures dispatcher.outside.Snapshot() == Published(old(dispatcher.outside.Snapshot()), events)
    {
      var st := new WorkflowState(flow);
      var coordinator := new Coordinator(dispatcher, agentVersion);
      var executor := new WorkflowExecutor(results, coordinator);
      outcome := executor.Run(p, w, st);
      flow', events := st.Snapshot(), coordinator.log;
    }

    /** `_drive` from a checkpointed state. A stage that is complete there is skipped, before
        the cancel flag is looked at; the driver may die before it looks at any. */
    method Drive(p: Plan, flow: Flow, w: World)
      modifies runs, checkpoints, waker, dispatcher, dispatcher.outside
      ensures Shows(p, Driven(old(SystemOf(p, w.now)), old(RunOf(p)), flow, w))
      ensures runs.cancelRequested == old(runs.cancelRequested)
      ensures Others(p.run, old(runs.status), old(checkpoints.latest))
    {
      ghost var r, s := RunOf(p), SystemOf(p, w.now);
      runs.SetState(p.run, Driver.Running);
      if w.closing.DiesAtOnce? {
        return;
      }
      var saved := checkpoints.Resume(p.run);
      if saved.Some? && saved.value.stageDone {
        runs.SetState(p.run, Driver.Completed);
        return;
      }
      if runs.IsCancelled(p.run) {
        runs.SetState(p.run, Driver.Cancelled);
        return;
      }
      var flow', outcome;
      ghost var events;
      flow', events, outcome := Execute(p, flow, w);
      Conclude(p, w, r, flow', events, outcome);
      DrivenIs(s, r, flow, w, Segment(flow', events, outcome));
    }

    /** `resume_run`; refused without a checkpoint. */
    method ResumeRun(p: Plan, w: World) returns (ok: bool)
      modifies runs, checkpoints, waker, dispatcher, dispatcher.outside
      ensures ok <==> old(checkpoints.Resume(p.run)).Some?
      ensures ok ==>
        Shows(p, Driven(old(SystemOf(p, w.now)), old(RunOf(p)), old(checkpoints.Resume(p.run)).value.flow, w))
      ensures !ok ==> SystemOf(p, w.now) == old(SystemOf(p, w.now))
    {
      var saved := checkpoints.Resume(p.run);
      if saved.None? {
        return false;
      }
      Drive(p, saved.value.flow, w);
      return true;
    }
  }
}
