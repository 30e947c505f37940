/** Every checkpoint holds a set of steps closed under dependencies, crashes or not. A crash
    may lose a completion on which a task already sent depends; the next segment that ends
    well completes it again, because nothing but time stood in its way. */
module Settling {
  import opened Base
  import opened Definition
  import opened Keys
  import opened Lifecycle
  import opened Executor
  import opened ExecutorLaws
  import opened Provenance
  import opened Workers
  import opened Protocol
  import opened Control
  import opened Records
  import opened Closure
  import opened Waiting

  /** A step the executor completes by itself once its dependencies are complete. */
  ghost predicate SelfCompleting(p: Plan, flow: Flow, s: Step) {
    s in p.steps && if s.kind.GateStep? then s.id in flow.gatesWaited else ModeOf(p, s).InProcess?
  }

  /** The step is complete, or has a stored result, or completes by itself after steps of
      which the same holds, in `n` rounds. */
  ghost predicate Bound(p: Plan, flow: Flow, store: seq<Envelope>, id: StepId, n: nat)
    decreases n, 0
  {
    || id in flow.outputs
    || (id in Ids(p.steps) && Stored(store, p.run, id))
    || (n > 0 && exists s | s in p.steps ::
          s.id == id && SelfCompleting(p, flow, s) && DepsBound(p, flow, store, s, n - 1))
  }

  ghost predicate DepsBound(p: Plan, flow: Flow, store: seq<Envelope>, s: Step, n: nat)
    decreases n, 1
  {
    forall d | d in s.dependsOn :: Bound(p, flow, store, d, n)
  }

  /** Everything that is complete at one moment is still bound to be complete at another. */
  ghost predicate LaterFlow(a: Flow, b: Flow) {
    a.outputs.Keys <= b.outputs.Keys && forall g | g in a.gatesWaited :: g in b.gatesWaited
  }

  ghost predicate LaterStore(p: Plan, a: seq<Envelope>, b: seq<Envelope>) {
    forall id | Stored(a, p.run, id) :: Stored(b, p.run, id)
  }

  lemma {:induction false} BoundStays(p: Plan, flow: Flow, store: seq<Envelope>, flow': Flow, store': seq<Envelope>,
                                      id: StepId, n: nat, m: nat)
    requires LaterFlow(flow, flow') && LaterStore(p, store, store') && n <= m
    requires Bound(p, flow, store, id, n)
    ensures Bound(p, flow', store', id, m)
    decreases n, 0
  {
    if id !in flow.outputs && !(id in Ids(p.steps) && Stored(store, p.run, id)) {
      var s :| s in p.steps && s.id == id && SelfCompleting(p, flow, s) && DepsBound(p, flow, store, s, n - 1);
      DepsStayBound(p, flow, store, flow', store', s, n - 1, m - 1);
    }
  }

  lemma {:induction false} DepsStayBound(p: Plan, flow: Flow, store: seq<Envelope>, flow': Flow,
                                         store': seq<Envelope>, s: Step, n: nat, m: nat)
    requires LaterFlow(flow, flow') && LaterStore(p, store, store') && n <= m
    requires DepsBound(p, flow, store, s, n)
    ensures DepsBound(p, flow', store', s, m)
    decreases n, 1
  {
    forall d | d in s.dependsOn
      ensures Bound(p, flow', store', d, m)
    { BoundStays(p, flow, store, flow', store', d, n, m); }
  }

  // ---------- a segment completes only what was bound to be complete ----------

  lemma OpeningIsBound(p: Plan, store: seq<Envelope>, flow: Flow, id: StepId, n: nat)
    requires id in Opening(p, store, flow).outputs
    ensures Bound(p, flow, store, id, n)
  {
    RefreshLaw(p.steps, p.run, store, flow.outputs);
  }

  lemma {:induction false} CompletionsAreBound(p: Plan, store: seq<Envelope>, flow: Flow, events: seq<Executor.Event>,
                                               n: nat)
    requires InOrder(p, Opening(p, store, flow), events) && n <= |events|
    ensures forall id | id in Completions(events[..n]) :: Bound(p, flow, store, id, n)
  {
    if n > 0 {
      CompletionsAreBound(p, store, flow, events, n - 1);
      forall id | id in Completions(events[..n])
        ensures Bound(p, flow, store, id, n)
      {
        var i :| 0 <= i < n && (events[i].Passed? || (events[i].Ran? && events[i].completed)) && events[i].step == id;
        if i < n - 1 {
          assert events[..n - 1][i] == events[i];
          assert id in Completions(events[..n - 1]);
          BoundStays(p, flow, store, flow, store, id, n - 1, n);
        } else {
          EventIsBound(p, store, flow, events, i);
        }
      }
    }
  }

  /** The step of an event had only bound dependencies; if the event completes it, it was
      itself bound to be complete. */
  lemma EventIsBound(p: Plan, store: seq<Envelope>, flow: Flow, events: seq<Executor.Event>, i: nat)
    requires i < |events| && EventInOrder(p, Opening(p, store, flow), events, i)
    requires forall id | id in Completions(events[..i]) :: Bound(p, flow, store, id, i)
    ensures exists s | s in p.steps :: s.id == events[i].step && DepsBound(p, flow, store, s, i)
    ensures !events[i].Sent? ==> Bound(p, flow, store, events[i].step, i + 1)
  {
    var start := Opening(p, store, flow);
    var s :| s in p.steps && (forall d | d in s.dependsOn ::
          d in start.outputs || d in Completions(events[..i])) && EventFits(p, start, s, events[i]);
    FitsStep(p, start, s, events[i]);
    forall d | d in s.dependsOn
      ensures Bound(p, flow, store, d, i)
    {
      if d in start.outputs { OpeningIsBound(p, store, flow, d, i); }
    }
    assert DepsBound(p, flow, store, s, i);
  }

  lemma FitsStep(p: Plan, start: Flow, s: Step, e: Executor.Event)
    requires s in p.steps && EventFits(p, start, s, e)
    ensures e.step == s.id && (!e.Sent? ==> SelfCompleting(p, start, s))
  {
  }

  /** The dependencies of every task a segment sends are bound to be complete. */
  lemma SentDepsBound(p: Plan, w: World, store: seq<Envelope>, flow: Flow, i: nat)
    requires UniqueIds(p.steps)
    requires var events := Drive(p, w, store, flow).events; i < |events| && events[i].Sent?
    ensures exists s | s in p.steps ::
      s.id == Drive(p, w, store, flow).events[i].step && DepsBound(p, flow, store, s, i)
  {
    var events := Drive(p, w, store, flow).events;
    DriveLaw(p, w, store, flow);
    CompletionsAreBound(p, store, flow, events, i);
    assert EventInOrder(p, Opening(p, store, flow), events, i);
    EventIsBound(p, store, flow, events, i);
  }

  // ---------- a segment that ends well has completed all of it ----------

  lemma {:induction false} BoundIsComplete(p: Plan, w: World, store: seq<Envelope>, flow: Flow, id: StepId, n: nat)
    requires UniqueIds(p.steps) && Bound(p, flow, store, id, n)
    requires WalkOf(p, w, store, flow).halt.Going?
    ensures id in WalkOf(p, w, store, flow).flow.outputs
    decreases n
  {
    var k := WalkOf(p, w, store, flow);
    DriveWalks(p, w, store, flow);
    RefreshLaw(p.steps, p.run, store, flow.outputs);
    if id !in Opening(p, store, flow).outputs {
      var s :| s in p.steps && s.id == id && SelfCompleting(p, flow, s) && DepsBound(p, flow, store, s, n - 1);
      forall d | d in s.dependsOn
        ensures d in k.flow.outputs
      {
        assert Bound(p, flow, store, d, n - 1);
        BoundIsComplete(p, w, store, flow, d, n - 1);
      }
      LoopSettles(p, w, Walk(Opening(p, store, flow), None, true, [], Going));
      assert Settled(p, k, s);
    }
  }

  /** Every task message of the run was sent with dependencies that stay bound. */
  ghost predicate TaskBound(p: Plan, store: seq<Envelope>, flow: Flow, k: Key) {
    exists s, n: nat | s in p.steps :: s.id == k.ref && DepsBound(p, flow, store, s, n)
  }

  ghost predicate TasksBound(p: Plan, store: seq<Envelope>, flow: Flow, tasks: seq<Key>) {
    forall k | k in tasks && k.run == p.run :: TaskBound(p, store, flow, k)
  }

  ghost predicate StoredWereTasks(p: Plan, store: seq<Envelope>, tasks: seq<Key>) {
    forall id | Stored(store, p.run, id) :: exists k | k in tasks :: k.run == p.run && k.ref == id
  }

  lemma StoredHasDeps(p: Plan, w: World, store: seq<Envelope>, flow: Flow, tasks: seq<Key>, s: Step)
    requires UniqueIds(p.steps) && TasksBound(p, store, flow, tasks) && StoredWereTasks(p, store, tasks)
    requires WalkOf(p, w, store, flow).halt.Going?
    requires s in p.steps && Stored(store, p.run, s.id)
    ensures DepsDone(s, WalkOf(p, w, store, flow).flow.outputs)
  {
    var k :| k in tasks && k.run == p.run && k.ref == s.id;
    assert TaskBound(p, store, flow, k);
    var t, n: nat :| t in p.steps && t.id == k.ref && DepsBound(p, flow, store, t, n);
    SameIdSameStep(p.steps, s, t);
    forall d | d in s.dependsOn
      ensures d in WalkOf(p, w, store, flow).flow.outputs
    { BoundIsComplete(p, w, store, flow, d, n); }
  }

  lemma SegmentEndsClosed(p: Plan, w: World, store: seq<Envelope>, flow: Flow, tasks: seq<Key>)
    requires UniqueIds(p.steps) && DownClosed(p, flow.outputs)
    requires TasksBound(p, store, flow, tasks) && StoredWereTasks(p, store, tasks)
    requires var seg := Drive(p, w, store, flow); seg.outcome.Waits? || seg.outcome.Finished?
    ensures DownClosed(p, Drive(p, w, store, flow).flow.outputs)
  {
    var k, start := WalkOf(p, w, store, flow), Opening(p, store, flow);
    assert Drive(p, w, store, flow) == Conclude(p, w.now, k);
    assert k.halt.Going?;
    DriveWalks(p, w, store, flow);
    RefreshLaw(p.steps, p.run, store, flow.outputs);
    forall s | s in p.steps && s.id in k.flow.outputs
      ensures DepsDone(s, k.flow.outputs)
    {
      if s.id in flow.outputs {
        assert DepsDone(s, flow.outputs);
      } else if s.id in start.outputs {
        StoredHasDeps(p, w, store, flow, tasks, s);
      } else {
        var t := WhoCompleted(p, start, k.flow.outputs, s.id);
        SameIdSameStep(p.steps, s, t);
      }
    }
  }

  // ---------- the system ----------

  ghost predicate RunSettles(r: Run, store: seq<Envelope>, tasks: seq<Key>) {
    DownClosed(r.plan, Resumption(r).outputs) && TasksBound(r.plan, store, Resumption(r), tasks)
  }

  ghost predicate Settles(s: Sys) {
    forall id | id in s.runs :: RunSettles(s.runs[id], s.store, s.fx.tasks)
  }

  lemma TasksStayBound(p: Plan, store: seq<Envelope>, flow: Flow, store': seq<Envelope>, flow': Flow, tasks: seq<Key>)
    requires TasksBound(p, store, flow, tasks) && LaterFlow(flow, flow') && LaterStore(p, store, store')
    ensures TasksBound(p, store', flow', tasks)
  {
    forall k | k in tasks && k.run == p.run
      ensures TaskBound(p, store', flow', k)
    {
      assert TaskBound(p, store, flow, k);
      var s, n: nat :| s in p.steps && s.id == k.ref && DepsBound(p, flow, store, s, n);
      DepsStayBound(p, flow, store, flow', store', s, n, n);
    }
  }

  lemma SegmentTasksBound(p: Plan, w: World, store: seq<Envelope>, flow: Flow, tasks: seq<Key>, tasks': seq<Key>)
    requires UniqueIds(p.steps) && TasksBound(p, store, flow, tasks)
    requires forall k | k in tasks' :: k in tasks || SentKey(Drive(p, w, store, flow).events, k)
    ensures TasksBound(p, store, flow, tasks')
  {
    var events := Drive(p, w, store, flow).events;
    forall k | k in tasks' && k.run == p.run
      ensures TaskBound(p, store, flow, k)
    {
      if k in tasks {
        assert TaskBound(p, store, flow, k);
      } else {
        var i :| 0 <= i < |events| && events[i].Sent? && events[i].key == k;
        SentHasDeps(p, w, store, flow, i);
        SentDepsBound(p, w, store, flow, i);
      }
    }
  }

  lemma DriveIsLater(p: Plan, w: World, store: seq<Envelope>, flow: Flow)
    ensures LaterFlow(flow, Drive(p, w, store, flow).flow)
  {
    DriveWalks(p, w, store, flow);
    assert Drive(p, w, store, flow) == Conclude(p, w.now, WalkOf(p, w, store, flow));
  }

  lemma EndSettles(p: Plan, w: World, store: seq<Envelope>, flow: Flow, tasks: seq<Key>, tasks': seq<Key>)
    requires UniqueIds(p.steps) && DownClosed(p, flow.outputs)
    requires TasksBound(p, store, flow, tasks) && StoredWereTasks(p, store, tasks)
    requires TasksBound(p, store, flow, tasks')
    requires var seg := Drive(p, w, store, flow); seg.outcome.Waits? || seg.outcome.Finished?
    ensures var flow' := Drive(p, w, store, flow).flow;
      DownClosed(p, flow'.outputs) && TasksBound(p, store, flow', tasks')
  {
    SegmentEndsClosed(p, w, store, flow, tasks);
    DriveIsLater(p, w, store, flow);
    TasksStayBound(p, store, flow, store, Drive(p, w, store, flow).flow, tasks');
  }

  lemma SavedAfter(r: Run, seg: Segment, wake: nat, now: int, closing: Closing)
    ensures Resumption(RunAfter(r, seg, wake, now, closing))
         == if seg.outcome.Waits? || seg.outcome.Finished? then seg.flow else Resumption(r)
  {
  }

  lemma SegmentSettles(r: Run, flow: Flow, w: World, store: seq<Envelope>, wake: nat, tasks: seq<Key>, tasks': seq<Key>)
    requires ValidPlan(r.plan) && flow == Resumption(r) && DownClosed(r.plan, flow.outputs)
    requires TasksBound(r.plan, store, flow, tasks) && StoredWereTasks(r.plan, store, tasks)
    requires forall k | k in tasks' :: k in tasks || SentKey(Drive(r.plan, w, store, flow).events, k)
    ensures RunSettles(RunAfter(r, Drive(r.plan, w, store, flow), wake, w.now, w.closing), store, tasks')
  {
    var seg := Drive(r.plan, w, store, flow);
    SegmentTasksBound(r.plan, w, store, flow, tasks, tasks');
    if seg.outcome.Waits? || seg.outcome.Finished? { EndSettles(r.plan, w, store, flow, tasks, tasks'); }
    AfterSettles(r, seg, store, wake, w.now, w.closing, tasks');
  }

  lemma AfterSettles(r: Run, seg: Segment, store: seq<Envelope>, wake: nat, now: int, closing: Closing, tasks: seq<Key>)
    requires DownClosed(r.plan, Resumption(r).outputs) && TasksBound(r.plan, store, Resumption(r), tasks)
    requires seg.outcome.Waits? || seg.outcome.Finished? ==>
      DownClosed(r.plan, seg.flow.outputs) && TasksBound(r.plan, store, seg.flow, tasks)
    ensures RunSettles(RunAfter(r, seg, wake, now, closing), store, tasks)
  {
    SavedAfter(r, seg, wake, now, closing);
    assert RunAfter(r, seg, wake, now, closing).plan == r.plan;
  }

  lemma StoredAreTasks(accepts: Envelope -> bool, s: Sys, p: Plan)
    requires Controlled(s) && Recorded(accepts, s)
    ensures StoredWereTasks(p, s.store, s.fx.tasks)
  {
    forall id | Stored(s.store, p.run, id)
      ensures exists k | k in s.fx.tasks :: k.run == p.run && k.ref == id
    {
      StoredHasEnvelope(s.store, p.run, id);
      var e :| e in s.store && e.run == p.run && e.stepRef == id;
      ReplyIsTask(accepts, s, e);
      assert e.key in s.fx.tasks;
    }
  }

  lemma OthersSettle(r: Run, store: seq<Envelope>, tasks: seq<Key>, tasks': seq<Key>)
    requires RunSettles(r, store, tasks) && forall k | k in tasks' :: k in tasks || k.run != r.plan.run
    ensures RunSettles(r, store, tasks')
  {
  }

  ghost predicate OthersAreSettled(s: Sys, id: RunId) {
    forall other | other in s.runs && other != id ::
      s.runs[other].plan.run == other && RunSettles(s.runs[other], s.store, s.fx.tasks)
  }

  lemma OneRunSettles(s: Sys, r': Run, tasks': seq<Key>, s': Sys)
    requires OthersAreSettled(s, r'.plan.run) && RunSettles(r', s.store, tasks')
    requires forall k | k in tasks' :: k in s.fx.tasks || k.run == r'.plan.run
    requires s'.runs == s.runs[r'.plan.run := r'] && s'.fx.tasks == tasks' && s'.store == s.store
    ensures Settles(s')
  {
    forall other | other in s'.runs
      ensures RunSettles(s'.runs[other], s.store, tasks')
    {
      if other != r'.plan.run { OthersSettle(s.runs[other], s.store, s.fx.tasks, tasks'); }
    }
  }

  lemma DrivenSettles(s: Sys, r: Run, flow: Flow, w: World)
    requires EffectsOk(s.fx) && ValidPlan(r.plan) && flow == Resumption(r)
    requires OthersAreSettled(s, r.plan.run) && RunSettles(r, s.store, s.fx.tasks)
    requires StoredWereTasks(r.plan, s.store, s.fx.tasks)
    ensures Settles(Driven(s, r, flow, w))
  {
    var s' := Driven(s, r, flow, w);
    if w.closing.DiesAtOnce? || r.done || r.cancel {
      OneRunSettles(s, s'.runs[r.plan.run], s.fx.tasks, s');
    } else {
      SegmentOfSettles(s, r, flow, w.(now := s.now));
    }
  }

  lemma SegmentOfSettles(s: Sys, r: Run, flow: Flow, w: World)
    requires EffectsOk(s.fx) && ValidPlan(r.plan) && flow == Resumption(r) && w.now == s.now
    requires OthersAreSettled(s, r.plan.run) && RunSettles(r, s.store, s.fx.tasks)
    requires StoredWereTasks(r.plan, s.store, s.fx.tasks)
    ensures Settles(AfterSegment(s, r, Drive(r.plan, w, s.store, flow), w.closing))
  {
    var seg := Drive(r.plan, w, s.store, flow);
    var s' := AfterSegment(s, r, seg, w.closing);
    var r' := RunAfter(r, seg, |s.wakes|, s.now, w.closing);
    SamePlan(r, seg, |s.wakes|, s.now, w.closing);
    NewTasksAreSent(s.fx, seg.events);
    NewKeysAreOwn(r.plan, w, s.store, flow);
    SegmentSettles(r, flow, w, s.store, |s.wakes|, s.fx.tasks, s'.fx.tasks);
    OneRunSettles(s, r', s'.fx.tasks, s');
  }

  lemma OthersFitToo(s: Sys, id: RunId)
    requires Controlled(s) && Settles(s)
    ensures OthersAreSettled(s, id)
  {
    forall other | other in s.runs
      ensures s.runs[other].plan.run == other
    { assert RunControl(other, s.runs[other], s.wakes, s.claimed[other]); }
  }

  lemma ResumeSettles(accepts: Envelope -> bool, s: Sys, id: RunId, w: World)
    requires Controlled(s) && Recorded(accepts, s) && Settles(s) && id in s.claimed && s.runs[id].saved.Some?
    ensures Settles(Driven(s.(claimed := s.claimed - multiset{id}), s.runs[id], s.runs[id].saved.value, w))
  {
    var r := s.runs[id];
    assert RunControl(id, r, s.wakes, s.claimed[id]) && RunSettles(r, s.store, s.fx.tasks);
    StoredAreTasks(accepts, s, r.plan);
    OthersFitToo(s, id);
    DrivenSettles(s.(claimed := s.claimed - multiset{id}), r, r.saved.value, w);
  }

  lemma RecoverSettles(accepts: Envelope -> bool, s: Sys, id: RunId, w: World)
    requires Controlled(s) && Recorded(accepts, s) && Settles(s) && id in s.runs
    requires s.runs[id].status.Running? && s.runs[id].saved.Some?
    ensures Settles(Driven(s, s.runs[id], s.runs[id].saved.value, w))
  {
    var r := s.runs[id];
    assert RunControl(id, r, s.wakes, s.claimed[id]) && RunSettles(r, s.store, s.fx.tasks);
    StoredAreTasks(accepts, s, r.plan);
    OthersFitToo(s, id);
    DrivenSettles(s, r, r.saved.value, w);
  }

  lemma StartSettles(accepts: Envelope -> bool, s: Sys, p: Plan, checkpointed: bool, w: World)
    requires Controlled(s) && Recorded(accepts, s) && Settles(s) && p.run !in s.runs && ValidPlan(p)
    ensures Settles(Driven(s, NewRun(p, checkpointed), FRESH_FLOW, w))
  {
    assert forall k | k in s.fx.tasks :: k.run != p.run;
    StoredAreTasks(accepts, s, p);
    assert RunSettles(NewRun(p, checkpointed), s.store, s.fx.tasks);
    OthersFitToo(s, p.run);
    DrivenSettles(s, NewRun(p, checkpointed), FRESH_FLOW, w);
  }

  lemma CollectSettles(accepts: Envelope -> bool, s: Sys, e: Envelope, dies: bool)
    requires Settles(s)
    ensures Settles(Collecting(accepts, s, e, dies))
  {
    var s' := Collecting(accepts, s, e, dies);
    if s'.store != s.store {
      forall id | id in s.runs
        ensures RunSettles(s.runs[id], s'.store, s.fx.tasks)
      {
        var r := s.runs[id];
        assert RunSettles(r, s.store, s.fx.tasks);
        forall step | Stored(s.store, r.plan.run, step)
          ensures Stored(s'.store, r.plan.run, step)
        { StoredStays(s.store, e, r.plan.run, step); }
        TasksStayBound(r.plan, s.store, Resumption(r), s'.store, Resumption(r), s.fx.tasks);
      }
    }
  }

  lemma JobSettles(s: Sys, a: Action)
    requires Settles(s) && a.Works()
    ensures Settles(JobStep(s, a))
  {
    JobFrame(s, a);
  }

  lemma CancelSettles(s: Sys, id: RunId)
    requires Settles(s)
    ensures Settles(CancelStep(s, id))
  {
    if id in s.runs { assert RunSettles(s.runs[id], s.store, s.fx.tasks); }
  }

  lemma RunStepSettles(accepts: Envelope -> bool, s: Sys, a: Action)
    requires Controlled(s) && Recorded(accepts, s) && Settles(s) && a.Drives()
    ensures Settles(RunStep(s, a))
  {
    if RunStep(s, a) != s {
      match a
      case Start(p, checkpointed, w) => StartSettles(accepts, s, p, checkpointed, w);
      case Resume(id, w) => ResumeSettles(accepts, s, id, w);
      case Recover(id, w) => RecoverSettles(accepts, s, id, w);
    }
  }

  lemma NextSettles(accepts: Envelope -> bool, s: Sys, a: Action)
    requires Controlled(s) && Recorded(accepts, s) && Settles(s)
    ensures Settles(Next(accepts, s, a))
  {
    if a.Drives() { RunStepSettles(accepts, s, a); }
    else if a.Works() { JobSettles(s, a); }
    else if a.Collect? { CollectSettles(accepts, s, a.e, a.dies); }
    else if a.Cancel? { CancelSettles(s, a.run); }
  }

  // ---------- every reachable state ----------

  /** The invariant of the system. */
  ghost predicate Sound(accepts: Envelope -> bool, s: Sys) {
    Controlled(s) && Recorded(accepts, s) && Closed(s) && Settles(s) && Held(s)
  }

  lemma MoveKeepsSound(accepts: Envelope -> bool, s: Sys, s': Sys)
    requires Sound(accepts, s) && Moves(accepts, s, s')
    ensures Sound(accepts, s')
  {
    var a :| s' == Next(accepts, s, a);
    NextKeepsControl(accepts, s, a);
    NextRecords(accepts, s, a);
    NextCloses(accepts, s, a);
    NextSettles(accepts, s, a);
    NextHolds(accepts, s, a);
  }

  lemma NextIsSound(accepts: Envelope -> bool, h: seq<Sys>, i: nat)
    requires IsHistory(accepts, h) && 0 < i < |h| && Sound(accepts, h[i - 1])
    ensures Sound(accepts, h[i])
  {
    var j := i - 1;
    assert Moves(accepts, h[j], h[j + 1]);
    MoveKeepsSound(accepts, h[j], h[i]);
  }

  lemma EmptyIsSound(accepts: Envelope -> bool)
    ensures Sound(accepts, EMPTY)
  {
  }

  /** Every state that any sequence of actions can lead to is sound. */
  lemma AlwaysSound(accepts: Envelope -> bool, s: Sys)
    requires Reachable(accepts, s)
    ensures Sound(accepts, s)
  {
    var h :| IsHistory(accepts, h) && h[0] == EMPTY && h[|h| - 1] == s;
    EndIsSound(accepts, h);
  }

  lemma EndIsSound(accepts: Envelope -> bool, h: seq<Sys>)
    requires IsHistory(accepts, h) && h[0] == EMPTY
    ensures Sound(accepts, h[|h| - 1])
  {
    EmptyIsSound(accepts);
    var i := 0;
    while i < |h| - 1
      invariant i < |h| && Sound(accepts, h[i])
    {
      NextIsSound(accepts, h, i + 1);
      i := i + 1;
    }
  }

  /** What that says of one run. */
  lemma RunIsSound(accepts: Envelope -> bool, s: Sys, id: RunId)
    requires Sound(accepts, s) && id in s.runs
    ensures RunControl(id, s.runs[id], s.wakes, s.claimed[id]) && RunData(s.runs[id], s.wakes, s.store)
    ensures RunClosed(s.runs[id], s.fx.tasks) && RunSettles(s.runs[id], s.store, s.fx.tasks)
    ensures RunHeld(s.runs[id], s.wakes, s.claimed[id])
  {
  }
}
