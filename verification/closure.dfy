/** Runs of which no segment was cut short: the completed set is closed under dependencies,
    and every step has at most one task message, whatever its templates read. */
module Closure {
  import opened Base
  import opened Definition
  import opened Keys
  import opened Lifecycle
  import opened Executor
  import opened ExecutorLaws
  import opened Provenance
  import opened Workers
  import opened Protocol
  import opened Control
  import opened Records

  ghost predicate DispatchedDeps(p: Plan, flow: Flow) {
    forall s | s in p.steps && s.id in flow.dispatched :: DepsDone(s, flow.outputs)
  }

  ghost predicate TasksAreDispatched(p: Plan, flow: Flow, tasks: seq<Key>) {
    forall k | k in tasks && k.run == p.run :: k.ref in flow.dispatched
  }

  ghost predicate OneTaskPerStep(run: RunId, tasks: seq<Key>) {
    forall k, l | k in tasks && l in tasks && k.run == run && l.run == run && k.ref == l.ref :: k == l
  }

  /** What an uncrashed run keeps at a park. */
  ghost predicate FlowClosed(p: Plan, flow: Flow, tasks: seq<Key>) {
    DownClosed(p, flow.outputs) && DispatchedDeps(p, flow) && TasksAreDispatched(p, flow, tasks)
  }

  ghost predicate RunClosed(r: Run, tasks: seq<Key>) {
    && (r.torn ==> r.lost)
    && (!r.lost ==>
          && OneTaskPerStep(r.plan.run, tasks)
          && DownClosed(r.plan, Resumption(r).outputs)
          && (!r.done && (r.status.Waiting? || r.status.Running?) ==> FlowClosed(r.plan, Resumption(r), tasks)))
  }

  ghost predicate Closed(s: Sys) {
    forall id | id in s.runs :: RunClosed(s.runs[id], s.fx.tasks)
  }

  // ---------- a segment ----------

  ghost predicate StoredAreDispatched(p: Plan, store: seq<Envelope>, flow: Flow) {
    forall id | Stored(store, p.run, id) :: id in flow.dispatched
  }

  lemma OpeningDownClosed(p: Plan, store: seq<Envelope>, flow: Flow)
    requires DownClosed(p, flow.outputs) && DispatchedDeps(p, flow) && StoredAreDispatched(p, store, flow)
    ensures DownClosed(p, Opening(p, store, flow).outputs)
  {
    var outputs := Opening(p, store, flow).outputs;
    RefreshLaw(p.steps, p.run, store, flow.outputs);
    forall s | s in p.steps && s.id in outputs
      ensures DepsDone(s, outputs)
    {
      if s.id !in flow.outputs { assert Stored(store, p.run, s.id); }
      assert DepsDone(s, flow.outputs);
    }
  }

  /** A step sent in a segment has its dependencies complete at the end, and its message
      carries its id. */
  lemma SentHasDeps(p: Plan, w: World, store: seq<Envelope>, flow: Flow, i: nat)
    requires UniqueIds(p.steps)
    requires var events := Drive(p, w, store, flow).events; i < |events| && events[i].Sent?
    ensures var seg := Drive(p, w, store, flow);
      && seg.events[i].key.run == p.run && seg.events[i].key.ref == seg.events[i].step
      && seg.events[i].step !in flow.dispatched
      && forall s | s in p.steps && s.id == seg.events[i].step :: DepsDone(s, seg.flow.outputs)
  {
    var seg, start := Drive(p, w, store, flow), Opening(p, store, flow);
    DriveLaw(p, w, store, flow);
    assert EventInOrder(p, start, seg.events, i);
    var t :| t in p.steps && EventFits(p, start, t, seg.events[i]);
    SentFits(p, start, t, seg.events[i]);
    assert Extends(seg.events[i].seen, seg.flow.outputs);
    forall s | s in p.steps && s.id == seg.events[i].step
      ensures DepsDone(s, seg.flow.outputs)
    { SameIdSameStep(p.steps, s, t); }
  }

  lemma SegmentDispatchedDeps(p: Plan, w: World, store: seq<Envelope>, flow: Flow)
    requires UniqueIds(p.steps) && DispatchedDeps(p, flow)
    ensures DispatchedDeps(p, Drive(p, w, store, flow).flow)
  {
    var seg := Drive(p, w, store, flow);
    DriveLaw(p, w, store, flow);
    forall s | s in p.steps && s.id in seg.flow.dispatched
      ensures DepsDone(s, seg.flow.outputs)
    {
      if s.id in flow.dispatched {
        assert DepsDone(s, flow.outputs);
      } else {
        var i :| 0 <= i < |seg.events| && seg.events[i].Sent? && seg.events[i].step == s.id;
        SentHasDeps(p, w, store, flow, i);
      }
    }
  }

  lemma SegmentTasksDispatched(p: Plan, w: World, store: seq<Envelope>, flow: Flow, tasks: seq<Key>, tasks': seq<Key>)
    requires UniqueIds(p.steps) && TasksAreDispatched(p, flow, tasks)
    requires forall k | k in tasks' :: k in tasks || SentKey(Drive(p, w, store, flow).events, k)
    ensures var seg := Drive(p, w, store, flow);
      seg.outcome.Waits? || seg.outcome.Finished? ==> TasksAreDispatched(p, seg.flow, tasks')
  {
    var seg := Drive(p, w, store, flow);
    DriveLaw(p, w, store, flow);
    if seg.outcome.Waits? || seg.outcome.Finished? {
      forall k | k in tasks' && k.run == p.run
        ensures k.ref in seg.flow.dispatched
      {
        if k !in tasks {
          var i :| 0 <= i < |seg.events| && seg.events[i].Sent? && seg.events[i].key == k;
          SentHasDeps(p, w, store, flow, i);
        } else {
          assert k.ref in flow.dispatched;
        }
      }
    }
  }

  lemma SegmentOneTask(p: Plan, w: World, store: seq<Envelope>, flow: Flow, tasks: seq<Key>, tasks': seq<Key>)
    requires UniqueIds(p.steps) && TasksAreDispatched(p, flow, tasks) && OneTaskPerStep(p.run, tasks)
    requires forall k | k in tasks' :: k in tasks || SentKey(Drive(p, w, store, flow).events, k)
    ensures OneTaskPerStep(p.run, tasks')
  {
    var seg := Drive(p, w, store, flow);
    DriveLaw(p, w, store, flow);
    forall k, l | k in tasks' && l in tasks' && k.run == p.run && l.run == p.run && k.ref == l.ref
      ensures k == l
    {
      if k !in tasks {
        var i :| 0 <= i < |seg.events| && seg.events[i].Sent? && seg.events[i].key == k;
        SentHasDeps(p, w, store, flow, i);
        if l !in tasks {
          var j :| 0 <= j < |seg.events| && seg.events[j].Sent? && seg.events[j].key == l;
          SentHasDeps(p, w, store, flow, j);
        }
      } else if l !in tasks {
        var j :| 0 <= j < |seg.events| && seg.events[j].Sent? && seg.events[j].key == l;
        SentHasDeps(p, w, store, flow, j);
      }
    }
  }

  lemma SegmentClosed(r: Run, w: World, store: seq<Envelope>, wake: nat, tasks: seq<Key>, tasks': seq<Key>)
    requires UniqueIds(r.plan.steps) && !r.torn && OneTaskPerStep(r.plan.run, tasks)
    requires FlowClosed(r.plan, Resumption(r), tasks) && StoredAreDispatched(r.plan, store, Resumption(r))
    requires forall k | k in tasks' :: k in tasks || SentKey(Drive(r.plan, w, store, Resumption(r)).events, k)
    ensures RunClosed(RunAfter(r, Drive(r.plan, w, store, Resumption(r)), wake, w.now, w.closing), tasks')
  {
    var p, flow := r.plan, Resumption(r);
    OpeningDownClosed(p, store, flow);
    DriveKeepsDownClosed(p, w, store, flow);
    SegmentDispatchedDeps(p, w, store, flow);
    SegmentTasksDispatched(p, w, store, flow, tasks, tasks');
    SegmentOneTask(p, w, store, flow, tasks, tasks');
  }

  // ---------- the system ----------

  lemma StoredWereSent(accepts: Envelope -> bool, s: Sys, id: RunId, flow: Flow)
    requires Controlled(s) && Recorded(accepts, s)
    requires id in s.runs && TasksAreDispatched(s.runs[id].plan, flow, s.fx.tasks)
    ensures StoredAreDispatched(s.runs[id].plan, s.store, flow)
  {
    var p := s.runs[id].plan;
    assert RunControl(id, s.runs[id], s.wakes, s.claimed[id]);
    forall step | Stored(s.store, p.run, step)
      ensures step in flow.dispatched
    {
      StoredHasEnvelope(s.store, p.run, step);
      var e :| e in s.store && e.run == p.run && e.stepRef == step;
      ReplyIsTask(accepts, s, e);
      assert e.key in s.fx.tasks;
    }
  }

  /** A run that sends nothing new for the others leaves them closed. */
  lemma OthersClosed(r: Run, tasks: seq<Key>, tasks': seq<Key>)
    requires RunClosed(r, tasks) && forall k | k in tasks' :: k in tasks || k.run != r.plan.run
    ensures RunClosed(r, tasks')
  {
  }

  lemma NewKeysAreOwn(p: Plan, w: World, store: seq<Envelope>, flow: Flow)
    requires UniqueIds(p.steps)
    ensures forall k | SentKey(Drive(p, w, store, flow).events, k) :: k.run == p.run
  {
    var seg := Drive(p, w, store, flow);
    forall k | SentKey(seg.events, k)
      ensures k.run == p.run
    {
      var i :| 0 <= i < |seg.events| && seg.events[i].Sent? && seg.events[i].key == k;
      SentHasDeps(p, w, store, flow, i);
    }
  }

  /** All runs but this one are closed. */
  ghost predicate OthersAreClosed(s: Sys, id: RunId) {
    forall other | other in s.runs && other != id ::
      s.runs[other].plan.run == other && RunClosed(s.runs[other], s.fx.tasks)
  }

  lemma OneRunCloses(s: Sys, r': Run, tasks': seq<Key>, s': Sys)
    requires OthersAreClosed(s, r'.plan.run) && RunClosed(r', tasks')
    requires forall k | k in tasks' :: k in s.fx.tasks || k.run == r'.plan.run
    requires s'.runs == s.runs[r'.plan.run := r'] && s'.fx.tasks == tasks'
    ensures Closed(s')
  {
    forall other | other in s'.runs
      ensures RunClosed(s'.runs[other], tasks')
    {
      if other != r'.plan.run { OthersClosed(s.runs[other], s.fx.tasks, tasks'); }
    }
  }

  lemma DrivenClosed(s: Sys, r: Run, flow: Flow, w: World)
    requires EffectsOk(s.fx) && ValidPlan(r.plan) && flow == Resumption(r)
    requires OthersAreClosed(s, r.plan.run) && RunClosed(r, s.fx.tasks)
    requires !r.lost && !r.done ==>
      (r.status.Running? || r.status.Waiting?) && StoredAreDispatched(r.plan, s.store, flow)
    ensures Closed(Driven(s, r, flow, w))
  {
    var s' := Driven(s, r, flow, w);
    if w.closing.DiesAtOnce? || r.done || r.cancel {
      OneRunCloses(s, s'.runs[r.plan.run], s.fx.tasks, s');
    } else {
      SegmentCloses(s, r, w.(now := s.now));
    }
  }

  lemma SegmentCloses(s: Sys, r: Run, w: World)
    requires EffectsOk(s.fx) && ValidPlan(r.plan) && w.now == s.now && !r.done
    requires OthersAreClosed(s, r.plan.run) && RunClosed(r, s.fx.tasks)
    requires !r.lost ==>
      (r.status.Running? || r.status.Waiting?) && StoredAreDispatched(r.plan, s.store, Resumption(r))
    ensures Closed(AfterSegment(s, r, Drive(r.plan, w, s.store, Resumption(r)), w.closing))
  {
    var seg := Drive(r.plan, w, s.store, Resumption(r));
    var s' := AfterSegment(s, r, seg, w.closing);
    var r' := RunAfter(r, seg, |s.wakes|, s.now, w.closing);
    SamePlan(r, seg, |s.wakes|, s.now, w.closing);
    NewTasksAreSent(s.fx, seg.events);
    NewKeysAreOwn(r.plan, w, s.store, Resumption(r));
    RunCloses(s, r, r', w, s'.fx.tasks);
    OneRunCloses(s, r', s'.fx.tasks, s');
  }

  lemma RunCloses(s: Sys, r: Run, r': Run, w: World, tasks': seq<Key>)
    requires ValidPlan(r.plan) && !r.done && RunClosed(r, s.fx.tasks)
    requires !r.lost ==>
      (r.status.Running? || r.status.Waiting?) && StoredAreDispatched(r.plan, s.store, Resumption(r))
    requires forall k | k in tasks' :: k in s.fx.tasks || SentKey(Drive(r.plan, w, s.store, Resumption(r)).events, k)
    requires r' == RunAfter(r, Drive(r.plan, w, s.store, Resumption(r)), |s.wakes|, w.now, w.closing)
    ensures RunClosed(r', tasks')
  {
    if !r.lost { SegmentClosed(r, w, s.store, |s.wakes|, s.fx.tasks, tasks'); }
    else { LostStaysLost(r, Drive(r.plan, w, s.store, Resumption(r)), |s.wakes|, w.now, w.closing); }
  }

  lemma LostStaysLost(r: Run, seg: Segment, wake: nat, now: int, closing: Closing)
    requires r.lost
    ensures RunAfter(r, seg, wake, now, closing).lost
  {
  }

  lemma ResumeCloses(accepts: Envelope -> bool, s: Sys, id: RunId, w: World)
    requires Controlled(s) && Recorded(accepts, s) && Closed(s) && id in s.claimed && s.runs[id].saved.Some?
    ensures Closed(Driven(s.(claimed := s.claimed - multiset{id}), s.runs[id], s.runs[id].saved.value, w))
  {
    var r := s.runs[id];
    assert RunControl(id, r, s.wakes, s.claimed[id]) && RunClosed(r, s.fx.tasks);
    if !r.lost && !r.done { StoredWereSent(accepts, s, id, r.saved.value); }
    OthersFit(s, id);
    DrivenClosed(s.(claimed := s.claimed - multiset{id}), r, r.saved.value, w);
  }

  lemma OthersFit(s: Sys, id: RunId)
    requires Controlled(s) && Closed(s)
    ensures OthersAreClosed(s, id)
  {
    forall other | other in s.runs
      ensures s.runs[other].plan.run == other
    { assert RunControl(other, s.runs[other], s.wakes, s.claimed[other]); }
  }

  lemma RecoverCloses(accepts: Envelope -> bool, s: Sys, id: RunId, w: World)
    requires Controlled(s) && Recorded(accepts, s) && Closed(s)
    requires id in s.runs && s.runs[id].status.Running? && s.runs[id].saved.Some?
    ensures Closed(Driven(s, s.runs[id], s.runs[id].saved.value, w))
  {
    var r := s.runs[id];
    assert RunControl(id, r, s.wakes, s.claimed[id]) && RunClosed(r, s.fx.tasks);
    if !r.lost && !r.done { StoredWereSent(accepts, s, id, r.saved.value); }
    OthersFit(s, id);
    DrivenClosed(s, r, r.saved.value, w);
  }

  lemma StartCloses(accepts: Envelope -> bool, s: Sys, p: Plan, checkpointed: bool, w: World)
    requires Controlled(s) && Recorded(accepts, s) && Closed(s) && p.run !in s.runs && ValidPlan(p)
    ensures Closed(Driven(s, NewRun(p, checkpointed), FRESH_FLOW, w))
  {
    assert forall k | k in s.fx.tasks :: k.run != p.run;
    forall id
      ensures !Stored(s.store, p.run, id)
    {
      StoredHasEnvelope(s.store, p.run, id);
      forall e | e in s.store
        ensures e.run != p.run
      { ReplyIsTask(accepts, s, e); }
    }
    OthersFit(s, p.run);
    DrivenClosed(s, NewRun(p, checkpointed), FRESH_FLOW, w);
  }

  /** Ticks, workers and the collector leave the runs and the task messages alone. */
  lemma OtherActionsClose(accepts: Envelope -> bool, s: Sys, a: Action)
    requires Closed(s) && (a.Works() || a.Ticks() || a.Collect?)
    ensures Closed(Next(accepts, s, a))
  {
    if a.Works() { JobFrame(s, a); }
  }

  lemma CancelCloses(s: Sys, id: RunId)
    requires Closed(s)
    ensures Closed(CancelStep(s, id))
  {
    if id in s.runs { assert RunClosed(s.runs[id], s.fx.tasks); }
  }

  lemma RunStepCloses(accepts: Envelope -> bool, s: Sys, a: Action)
    requires Controlled(s) && Recorded(accepts, s) && Closed(s) && a.Drives()
    ensures Closed(RunStep(s, a))
  {
    if RunStep(s, a) != s {
      match a
      case Start(p, checkpointed, w) => StartCloses(accepts, s, p, checkpointed, w);
      case Resume(id, w) => ResumeCloses(accepts, s, id, w);
      case Recover(id, w) => RecoverCloses(accepts, s, id, w);
    }
  }

  lemma NextCloses(accepts: Envelope -> bool, s: Sys, a: Action)
    requires Controlled(s) && Recorded(accepts, s) && Closed(s)
    ensures Closed(Next(accepts, s, a))
  {
    if a.Drives() { RunStepCloses(accepts, s, a); }
    else if a.Cancel? { CancelCloses(s, a.run); }
    else { OtherActionsClose(accepts, s, a); }
  }
}
