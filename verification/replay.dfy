/** The runs a crash can lead to, built step by step: which tasks a dying segment has sent, how
    their results arrive, and when a replay sends a step again under another key. */
module Replay {
  import opened Base
  import opened Definition
  import opened Keys
  import opened Lifecycle
  import opened Executor
  import opened ExecutorLaws
  import opened Provenance
  import opened Workers
  import opened Protocol
  import opened Control
  import opened Records
  import opened Settling
  import opened Guarantees
  import Driver

  // ---------- ancestors and ranks ----------

  lemma PathThenPath(steps: seq<Step>, first: seq<StepId>, second: seq<StepId>, u: StepId, v: StepId, x: StepId)
    requires Leads(steps, first, u, v) && Leads(steps, second, v, x)
    ensures Leads(steps, first + second[1..], u, x)
  {
    var path := first + second[1..];
    forall i | 0 <= i < |path| - 1
      ensures DependsOn(steps, path[i + 1], path[i])
    {
      if i < |first| - 1 {
        assert DependsOn(steps, first[i + 1], first[i]);
      } else {
        var j := i - (|first| - 1);
        assert path[i] == second[j] && path[i + 1] == second[j + 1];
        assert DependsOn(steps, second[j + 1], second[j]);
      }
    }
  }

  lemma AncestorsChain(steps: seq<Step>, u: StepId, v: StepId, x: StepId)
    requires Ancestor(steps, u, v) && Ancestor(steps, v, x)
    ensures Ancestor(steps, u, x)
  {
    var first :| Leads(steps, first, u, v);
    var second :| Leads(steps, second, v, x);
    PathThenPath(steps, first, second, u, v, x);
  }

  lemma DependencyIsAncestor(steps: seq<Step>, s: Step, d: StepId)
    requires s in steps && d in s.dependsOn
    ensures Ancestor(steps, d, s.id)
  {
    assert DependsOn(steps, s.id, d);
    var path := [d, s.id];
    assert DependsOn(steps, path[1], path[0]);
    assert Leads(steps, path, d, s.id);
  }

  lemma AncestorIsStep(steps: seq<Step>, u: StepId, v: StepId)
    requires KnownDependencies(steps) && Ancestor(steps, u, v)
    ensures u in Ids(steps)
  {
    var path :| Leads(steps, path, u, v);
    assert DependsOn(steps, path[1], path[0]);
  }

  lemma NotOwnAncestor(steps: seq<Step>, t: StepId)
    requires Acyclic(steps)
    ensures !Ancestor(steps, t, t)
  {
    if Ancestor(steps, t, t) {
      var path :| Leads(steps, path, t, t);
      assert IsCycle(steps, path);
    }
  }

  ghost function AncestorsOf(steps: seq<Step>, v: StepId): set<StepId> {
    set u | u in Ids(steps) && Ancestor(steps, u, v)
  }

  /** Every accepted workflow has a rank: the number of steps before a step. */
  lemma HasRank(steps: seq<Step>) returns (rank: map<StepId, nat>)
    requires WellFormed(steps)
    ensures Ranks(steps, rank)
  {
    rank := map s | s in Ids(steps) :: |AncestorsOf(steps, s)|;
    forall s, d | DependsOn(steps, s, d)
      ensures s in rank && d in rank && rank[d] < rank[s]
    {
      var i :| 0 <= i < |steps| && steps[i].id == s && d in steps[i].dependsOn;
      DependencyIsAncestor(steps, steps[i], d);
      AncestorIsStep(steps, d, s);
      forall u | u in AncestorsOf(steps, d)
        ensures u in AncestorsOf(steps, s)
      { AncestorsChain(steps, u, d, s); }
      NotOwnAncestor(steps, d);
      assert d in AncestorsOf(steps, s) && d !in AncestorsOf(steps, d);
      StrictSubsetSize(AncestorsOf(steps, d), AncestorsOf(steps, s));
    }
  }

  lemma AncestorRanksLess(steps: seq<Step>, rank: map<StepId, nat>, u: StepId, v: StepId)
    requires Ranks(steps, rank) && Ancestor(steps, u, v)
    ensures u in rank && v in rank && rank[u] < rank[v]
  {
    var path :| Leads(steps, path, u, v);
    RankGrowsAlongPath(steps, rank, path);
  }

  // ---------- a segment that dies right after one dispatch ----------

  /** Every approval is granted, and the process dies after the effect of this step alone. */
  ghost predicate FailsAt(w: World, t: StepId) {
    && w.closing.GoesThrough? && (forall x :: w.granted(x))
    && forall x :: w.fault(x) == if x == t then AfterEffect else NoFault
  }

  /** A queue step with no message the checkpoint knows of and no result. */
  ghost predicate Unsent(p: Plan, store: seq<Envelope>, flow: Flow, t: Step) {
    && IsQueueStep(p, t) && t.id !in flow.outputs && t.id !in flow.dispatched
    && !Stored(store, p.run, t.id)
  }

  ghost predicate Sends(events: seq<Executor.Event>, t: StepId, i: int) {
    0 <= i < |events| && events[i].Sent? && events[i].step == t
  }

  /** Where the walk over the steps ends: after the message of the step, or with the step still
      to be sent. */
  lemma WalkFails(p: Plan, w: World, store: seq<Envelope>, flow: Flow, t: Step)
    requires UniqueIds(p.steps) && FailsAt(w, t.id) && Unsent(p, store, flow, t)
    ensures var k := WalkOf(p, w, store, flow);
      && !k.halt.DeniedAt?
      && (k.halt.RaisedAt? ==> k.halt.step == t.id && exists i :: Sends(k.events, t.id, i))
      && (k.halt.Going? ==> t.id !in k.flow.outputs && t.id !in k.flow.dispatched)
  {
    var start, k := Opening(p, store, flow), WalkOf(p, w, store, flow);
    DriveWalks(p, w, store, flow);
    WalkTells(p, w, store, flow);
    LoopClears(p, w, start, Walk(start, None, true, [], Going));
    if k.halt.RaisedAt? {
      RaisedWasSent(p, start, k, t);
    } else {
      RefreshLaw(p.steps, p.run, store, flow.outputs);
      if t.id in k.flow.outputs {
        var s := WhoCompleted(p, start, k.flow.outputs, t.id);
        SameIdSameStep(p.steps, s, t);
        assert false;
      }
      if t.id in k.flow.dispatched { assert false; }
    }
  }

  lemma RaisedWasSent(p: Plan, start: Flow, k: Walk, t: Step)
    requires UniqueIds(p.steps) && IsQueueStep(p, t) && InOrder(p, start, k.events)
    requires k.events != [] && !k.events[|k.events| - 1].Passed? && k.events[|k.events| - 1].step == t.id
    ensures exists i :: Sends(k.events, t.id, i)
  {
    var n := |k.events| - 1;
    assert EventInOrder(p, start, k.events, n);
    var s :| s in p.steps && EventFits(p, start, s, k.events[n]);
    FitsStep(p, start, s, k.events[n]);
    SameIdSameStep(p.steps, s, t);
    assert Sends(k.events, t.id, n);
  }

  /** A step whose dependencies are bound to be complete is sent. */
  lemma BoundTargetIsSent(p: Plan, w: World, store: seq<Envelope>, flow: Flow, t: Step, n: nat)
    requires UniqueIds(p.steps) && FailsAt(w, t.id) && Unsent(p, store, flow, t) && DepsBound(p, flow, store, t, n)
    ensures WalkOf(p, w, store, flow).halt == RaisedAt(t.id)
  {
    var k := WalkOf(p, w, store, flow);
    WalkFails(p, w, store, flow, t);
    if k.halt.Going? {
      forall d | d in t.dependsOn
        ensures d in k.flow.outputs
      { BoundIsComplete(p, w, store, flow, d, n); }
      LoopSettles(p, w, Walk(Opening(p, store, flow), None, true, [], Going));
      assert false;
    }
  }

  /** What the message of such a step was bound over. */
  ghost predicate SeenAt(p: Plan, w: World, store: seq<Envelope>, flow: Flow, t: Step, seen: map<StepId, Value>) {
    && Extends(Opening(p, store, flow).outputs, seen) && DepsDone(t, seen) && seen.Keys <= Ids(p.steps)
    && forall d | d in t.dependsOn && d !in Opening(p, store, flow).outputs ::
         (RoleOf(p, d).LocalTask? ==> seen[d] == w.reply(d)) && (RoleOf(p, d).Gate? ==> seen[d] == GATE_PASSED)
  }

  lemma SentIsSeen(p: Plan, w: World, store: seq<Envelope>, flow: Flow, t: Step, i: nat)
    requires UniqueIds(p.steps) && IsQueueStep(p, t) && flow.outputs.Keys <= Ids(p.steps)
    requires Sends(Drive(p, w, store, flow).events, t.id, i)
    ensures var e := Drive(p, w, store, flow).events[i];
      e.key == KeyFor(p, t, e.seen) && SeenAt(p, w, store, flow, t, e.seen)
  {
    var start, seg := Opening(p, store, flow), Drive(p, w, store, flow);
    var e := seg.events[i];
    DriveLaw(p, w, store, flow);
    ApprovalsAreKept(p, w, store, flow);
    assert EventInOrder(p, start, seg.events, i);
    var s :| s in p.steps && EventFits(p, start, s, e);
    SentFits(p, start, s, e);
    SameIdSameStep(p.steps, s, t);
    OutputsAreSteps(p, w, store, flow);
    forall d | d in t.dependsOn && d !in start.outputs
      ensures (RoleOf(p, d).LocalTask? ==> e.seen[d] == w.reply(d)) && (RoleOf(p, d).Gate? ==> e.seen[d] == GATE_PASSED)
    {
      assert d in seg.flow.outputs && seg.flow.outputs[d] == e.seen[d];
      CompletedValue(p, w, store, flow, d);
    }
  }

  /** What a step that the segment itself has completed has as output. */
  lemma CompletedValue(p: Plan, w: World, store: seq<Envelope>, flow: Flow, d: StepId)
    requires UniqueIds(p.steps)
    requires d in Drive(p, w, store, flow).flow.outputs && d !in Opening(p, store, flow).outputs
    ensures var outputs := Drive(p, w, store, flow).flow.outputs;
      && (RoleOf(p, d).LocalTask? ==> outputs[d] == w.reply(d))
      && (RoleOf(p, d).Gate? ==> outputs[d] == GATE_PASSED)
  {
    var start, seg := Opening(p, store, flow), Drive(p, w, store, flow);
    DriveWalks(p, w, store, flow);
    ApprovalsAreKept(p, w, store, flow);
    assert seg == Conclude(p, w.now, WalkOf(p, w, store, flow));
    var s := WhoCompleted(p, start, seg.flow.outputs, d);
    StepIsFound(p, s);
  }

  lemma OutputsAreSteps(p: Plan, w: World, store: seq<Envelope>, flow: Flow)
    requires flow.outputs.Keys <= Ids(p.steps)
    ensures Drive(p, w, store, flow).flow.outputs.Keys <= Ids(p.steps)
  {
    DriveLaw(p, w, store, flow);
    forall id | id in Drive(p, w, store, flow).flow.outputs
      ensures id in Ids(p.steps)
    { assert ComesFrom(p, store, flow, Drive(p, w, store, flow).flow.outputs, id); }
  }

  // ---------- building a history ----------

  const ACCEPT_ALL: Envelope -> bool := (e: Envelope) => true
  const WORKER := Worker(None, "results", (id: string, v: Value) => true, (t: string) => true)

  function RunOf(s: Sys, p: Plan): Run
    requires p.run in s.runs
  {
    s.runs[p.run]
  }

  /** The run of this plan can go on from its checkpoint, and nothing is in progress at the
      workers: every result message is stored. */
  ghost predicate Live(s: Sys, p: Plan) {
    && Reachable(ACCEPT_ALL, s) && p.run in s.runs && RunOf(s, p).plan == p && ValidPlan(p)
    && !RunOf(s, p).cancel && !RunOf(s, p).done && RunOf(s, p).saved.Some?
    && (RunOf(s, p).status.Running? || RunOf(s, p).status.Waiting?)
    && s.jobs == map[] && (forall k | PublishResult(k) in s.fx.guard :: Holds(s.store, k))
  }

  lemma LiveIsSound(s: Sys, p: Plan)
    requires Live(s, p)
    ensures Sound(ACCEPT_ALL, s) && StoreOk(p, s.store)
    ensures RunControl(p.run, RunOf(s, p), s.wakes, s.claimed[p.run])
    ensures Resumption(RunOf(s, p)).outputs.Keys <= Ids(p.steps)
  {
    AlwaysSound(ACCEPT_ALL, s);
    RunIsSound(ACCEPT_ALL, s, p.run);
    RecordedAreSteps(RunOf(s, p), s.wakes, s.store);
  }

  lemma LiveHasData(s: Sys, p: Plan)
    requires Live(s, p)
    ensures RunData(RunOf(s, p), s.wakes, s.store)
    ensures StoreOk(p, s.store)
    ensures OutputsOk(p, s.store, MayPass(RunOf(s, p), s.wakes), Resumption(RunOf(s, p)).outputs)
  {
    AlwaysSound(ACCEPT_ALL, s);
    RunIsSound(ACCEPT_ALL, s, p.run);
  }

  lemma RecordedAreSteps(r: Run, wakes: seq<Wake>, store: seq<Envelope>)
    requires RunData(r, wakes, store) && r.saved.Some?
    ensures r.saved.value.outputs.Keys <= Ids(r.plan.steps)
  {
    forall id | id in r.saved.value.outputs
      ensures id in Ids(r.plan.steps)
    {
      assert OutputOk(r.plan, store, MayPass(r, wakes), id, r.saved.value.outputs[id]);
      RoleIsStep(r.plan, id);
    }
  }

  /** The run is created and an earlier stage leaves a checkpoint; the process dies before the
      workflow stage. */
  lemma Created(p: Plan) returns (s: Sys)
    requires ValidPlan(p)
    ensures Live(s, p) && s.store == [] && s.fx.tasks == []
    ensures RunOf(s, p) == NewRun(p, true) && s.wakes == [] && s.claimed == multiset{} && s.signals == {}
  {
    var w := World(0, (x: StepId) => true, (x: StepId) => NoFault, (x: StepId) => Null, DiesAtOnce);
    EmptyIsReachable(ACCEPT_ALL);
    NextIsReachable(ACCEPT_ALL, EMPTY, Start(p, true, w));
    s := Next(ACCEPT_ALL, EMPTY, Start(p, true, w));
  }

  lemma WorkerSteps(s: Sys, m: Message, v: Value)
    ensures var s2 := Next(ACCEPT_ALL, Next(ACCEPT_ALL, s, Begin(0, WORKER, m)), AgentMoves(0, Answers(v)));
      Next(ACCEPT_ALL, s2, Reply(0, true))
         == JobStep(JobStep(JobStep(s, Begin(0, WORKER, m)), AgentMoves(0, Answers(v))), Reply(0, true))
  {
  }

  lemma ReplyArrives(s: Sys, k: Key, v: Value)
    requires s.jobs == map[] && k in s.fx.tasks && PublishResult(k) !in s.fx.guard && !IsCancelled(s, k.run)
    ensures var m := Message(k, None, "", [], {}, {});
      var s' := JobStep(JobStep(JobStep(s, Begin(0, WORKER, m)), AgentMoves(0, Answers(v))), Reply(0, true));
      s' == s.(fx := s.fx.(guard := s.fx.guard[PublishResult(k) := Null],
                           replies := s.fx.replies + [EnvelopeFor(k, v)]),
               begun := s.begun + [k])
  {
    var m := Message(k, None, "", [], {}, {});
    var s1 := JobStep(s, Begin(0, WORKER, m));
    assert s1.jobs == map[0 := Job(WORKER, m, None)];
    var s2 := JobStep(s1, AgentMoves(0, Answers(v)));
    assert s2.jobs == map[0 := Job(WORKER, m, Some(v))];
    var s3 := JobStep(s2, Reply(0, true));
    assert s3.jobs == map[];
  }

  lemma HeldWasSent(accepts: Envelope -> bool, s: Sys, k: Key)
    requires Controlled(s) && Recorded(accepts, s) && Holds(s.store, k)
    ensures Stored(s.store, k.run, k.ref)
  {
    var i :| 0 <= i < |s.store| && s.store[i].key == k;
    assert s.store[i] in s.store;
    ReplyIsTask(accepts, s, s.store[i]);
    StoredHasEnvelope(s.store, k.run, k.ref);
  }

  lemma HeldIsStored(s: Sys, p: Plan, k: Key)
    requires Live(s, p) && k.run == p.run && Holds(s.store, k)
    ensures Stored(s.store, p.run, k.ref)
  {
    AlwaysSound(ACCEPT_ALL, s);
    HeldWasSent(ACCEPT_ALL, s, k);
  }

  lemma UnstoredHasNoReply(s: Sys, p: Plan, k: Key)
    requires Live(s, p) && k.run == p.run && !Stored(s.store, p.run, k.ref)
    ensures PublishResult(k) !in s.fx.guard && !Holds(s.store, k)
  {
    if Holds(s.store, k) {
      HeldIsStored(s, p, k);
      assert false;
    }
  }

  /** The system after a worker has handled the task and the collector has stored the result,
      and died before it looked at the wakes. */
  ghost function Delivered(s: Sys, k: Key, v: Value): Sys {
    s.(fx := s.fx.(guard := s.fx.guard[PublishResult(k) := Null], replies := s.fx.replies + [EnvelopeFor(k, v)]),
       begun := s.begun + [k], store := s.store + [EnvelopeFor(k, v)])
  }

  lemma DeliveredIsReachable(s: Sys, k: Key, v: Value)
    requires Reachable(ACCEPT_ALL, s) && s.jobs == map[] && k in s.fx.tasks && !IsCancelled(s, k.run)
    requires PublishResult(k) !in s.fx.guard && !Holds(s.store, k)
    ensures Reachable(ACCEPT_ALL, Delivered(s, k, v))
  {
    var m, e := Message(k, None, "", [], {}, {}), EnvelopeFor(k, v);
    var s1 := Next(ACCEPT_ALL, s, Begin(0, WORKER, m));
    var s2 := Next(ACCEPT_ALL, s1, AgentMoves(0, Answers(v)));
    var s3 := Next(ACCEPT_ALL, s2, Reply(0, true));
    NextIsReachable(ACCEPT_ALL, s, Begin(0, WORKER, m));
    NextIsReachable(ACCEPT_ALL, s1, AgentMoves(0, Answers(v)));
    NextIsReachable(ACCEPT_ALL, s2, Reply(0, true));
    NextIsReachable(ACCEPT_ALL, s3, Collect(e, true));
    WorkerSteps(s, m, v);
    ReplyArrives(s, k, v);
    CollectStores(s3, e);
  }

  lemma DeliveredIsLive(s: Sys, p: Plan, k: Key, v: Value)
    requires Live(s, p) && Reachable(ACCEPT_ALL, Delivered(s, k, v))
    ensures Live(Delivered(s, k, v), p)
  {
    var s' := Delivered(s, k, v);
    forall l | PublishResult(l) in s'.fx.guard
      ensures Holds(s'.store, l)
    {
      if l == k {
        assert s'.store[|s.store|].key == l;
      } else {
        var i :| 0 <= i < |s.store| && s.store[i].key == l;
        assert s'.store[i].key == l;
      }
    }
  }

  lemma TaskNamesItsStep(s: Sys, p: Plan, k: Key, v: Value)
    requires Live(s, p) && k in s.fx.tasks && k.run == p.run
    ensures EnvelopeFor(k, v).stepRef == k.ref
  {
    AlwaysSound(ACCEPT_ALL, s);
    assert TaskOk(p, s.store, k);
    RoleIsStep(p, k.ref);
  }

  /** A worker handles a task message and its result is stored. */
  lemma Deliver(s: Sys, p: Plan, k: Key, v: Value) returns (s': Sys)
    requires Live(s, p) && k in s.fx.tasks && k.run == p.run && !Stored(s.store, p.run, k.ref)
    ensures Live(s', p) && s'.runs == s.runs && s'.claimed == s.claimed && s'.fx.tasks == s.fx.tasks
    ensures s'.wakes == s.wakes && s'.signals == s.signals
    ensures !Holds(s.store, k) && s'.store == s.store + [EnvelopeFor(k, v)]
    ensures EnvelopeFor(k, v).stepRef == k.ref
  {
    UnstoredHasNoReply(s, p, k);
    TaskNamesItsStep(s, p, k, v);
    DeliveredIsReachable(s, k, v);
    DeliveredIsLive(s, p, k, v);
    s' := Delivered(s, k, v);
  }

  lemma CollectStores(s: Sys, e: Envelope)
    requires e in s.fx.replies && !Holds(s.store, e.key)
    ensures Next(ACCEPT_ALL, s, Collect(e, true)) == s.(store := s.store + [e])
  {
  }

  /** The action that drives the run next. */
  function Drives(s: Sys, p: Plan, w: World): Action
    requires p.run in s.runs
  {
    if p.run in s.claimed then Resume(p.run, w) else Recover(p.run, w)
  }

  lemma DrivesOn(s: Sys, p: Plan, w: World)
    requires Live(s, p) && !w.closing.DiesAtOnce? && (p.run in s.claimed || RunOf(s, p).status.Running?)
    ensures var s0 := if p.run in s.claimed then s.(claimed := s.claimed - multiset{p.run}) else s;
      Next(ACCEPT_ALL, s, Drives(s, p, w))
        == AfterSegment(s0, RunOf(s, p), SegmentOf(s, RunOf(s, p), Resumption(RunOf(s, p)), w), w.closing)
    ensures Reachable(ACCEPT_ALL, Next(ACCEPT_ALL, s, Drives(s, p, w)))
  {
    NextIsReachable(ACCEPT_ALL, s, Drives(s, p, w));
  }

  /** The segment dies after sending the step, and sent it over these outputs. */
  lemma DyingSent(p: Plan, w: World, store: seq<Envelope>, flow: Flow, t: Step) returns (i: int)
    requires UniqueIds(p.steps) && FailsAt(w, t.id) && Unsent(p, store, flow, t) && flow.outputs.Keys <= Ids(p.steps)
    requires WalkOf(p, w, store, flow).halt == RaisedAt(t.id)
    ensures var seg := Drive(p, w, store, flow);
      && seg.outcome == Crashed(t.id) && Sends(seg.events, t.id, i)
      && seg.events[i].key == KeyFor(p, t, seg.events[i].seen) && SeenAt(p, w, store, flow, t, seg.events[i].seen)
  {
    WalkFails(p, w, store, flow, t);
    var seg := Drive(p, w, store, flow);
    assert seg == Conclude(p, w.now, WalkOf(p, w, store, flow));
    i :| Sends(seg.events, t.id, i);
    SentIsSeen(p, w, store, flow, t, i);
  }

  /** What a dying segment leaves of the system. */
  lemma DiedIsLive(s: Sys, p: Plan, s0: Sys, seg: Segment)
    requires Live(s, p) && seg.outcome.Crashed?
    requires s0 == s.(claimed := s0.claimed) && Reachable(ACCEPT_ALL, AfterSegment(s0, RunOf(s, p), seg, GoesThrough))
    ensures var s' := AfterSegment(s0, RunOf(s, p), seg, GoesThrough);
      && Live(s', p) && RunOf(s', p) == RunOf(s, p).(status := Driver.Running, lost := true)
      && s'.store == s.store && s'.wakes == s.wakes && s'.signals == s.signals
  {
    PublishKeepsReplies(s.fx, seg.events);
  }

  /** One more segment that dies after sending the step: its message is among the tasks, and
      the run can go on from the same checkpoint. */
  lemma DieSending(s: Sys, p: Plan, t: Step, w: World) returns (s': Sys, seen: map<StepId, Value>)
    requires Live(s, p) && (p.run in s.claimed || RunOf(s, p).status.Running?)
    requires FailsAt(w, t.id) && w.now == s.now && Unsent(p, s.store, Resumption(RunOf(s, p)), t)
    requires WalkOf(p, w, s.store, Resumption(RunOf(s, p))).halt == RaisedAt(t.id)
    ensures Live(s', p) && RunOf(s', p) == RunOf(s, p).(status := Driver.Running, lost := true)
    ensures s'.store == s.store && s'.now == s.now && s'.wakes == s.wakes && s'.signals == s.signals
    ensures forall k | k in s.fx.tasks :: k in s'.fx.tasks
    ensures SeenAt(p, w, s.store, Resumption(RunOf(s, p)), t, seen) && KeyFor(p, t, seen) in s'.fx.tasks
  {
    var r := RunOf(s, p);
    assert w.(now := s.now) == w;
    LiveIsSound(s, p);
    DrivesOn(s, p, w);
    var i := DyingSent(p, w, s.store, Resumption(r), t);
    var seg := Drive(p, w, s.store, Resumption(r));
    seen := seg.events[i].seen;
    SentIsPublished(s.fx, seg.events, i);
    s' := Next(ACCEPT_ALL, s, Drives(s, p, w));
    DiedIsLive(s, p, if p.run in s.claimed then s.(claimed := s.claimed - multiset{p.run}) else s, seg);
  }

  lemma SentIsPublished(fx: Effects, events: seq<Executor.Event>, i: int)
    requires EffectsOk(fx) && 0 <= i < |events| && events[i].Sent?
    ensures events[i].key in Published(fx, events).tasks && forall k | k in fx.tasks :: k in Published(fx, events).tasks
  {
    PublishedLaw(fx, events);
    assert SentKey(events, events[i].key);
  }

  lemma {:induction false} PublishKeepsReplies(fx: Effects, events: seq<Executor.Event>)
    ensures forall k :: PublishResult(k) in Published(fx, events).guard <==> PublishResult(k) in fx.guard
  {
    if events != [] { PublishKeepsReplies(fx, events[..|events| - 1]); }
  }

  // ---------- results of all queue steps before a step ----------

  /** No gate has to pass before the step. */
  ghost predicate NoGateBefore(p: Plan, t: StepId) {
    forall u | Ancestor(p.steps, u, t) :: !RoleOf(p, u).Gate?
  }

  lemma {:induction false} AllBound(p: Plan, store: seq<Envelope>, flow: Flow, rank: map<StepId, nat>, t: Step, n: nat)
    requires WellFormed(p.steps) && Ranks(p.steps, rank) && t in p.steps && t.id in rank && rank[t.id] <= n
    requires AncestorsStored(p, store, t.id) && NoGateBefore(p, t.id)
    ensures DepsBound(p, flow, store, t, n)
    decreases n
  {
    forall d | d in t.dependsOn
      ensures Bound(p, flow, store, d, n)
    {
      DependencyIsAncestor(p.steps, t, d);
      AncestorIsStep(p.steps, d, t.id);
      AncestorRanksLess(p.steps, rank, d, t.id);
      if !RoleOf(p, d).QueueTask? {
        var s := FindStep(p.steps, d).value;
        forall u | Ancestor(p.steps, u, d)
          ensures Ancestor(p.steps, u, t.id)
        { AncestorsChain(p.steps, u, d, t.id); }
        AllBound(p, store, flow, rank, s, n - 1);
        assert SelfCompleting(p, flow, s);
      }
    }
  }

  /** The queue steps before this one that have no result yet. */
  ghost function Missing(p: Plan, store: seq<Envelope>, t: StepId): set<StepId> {
    set u | u in Ids(p.steps) && Ancestor(p.steps, u, t) && RoleOf(p, u).QueueTask? && !Stored(store, p.run, u)
  }

  lemma {:induction false} Lowest(rank: map<StepId, nat>, ids: set<StepId>) returns (u: StepId)
    requires ids != {} && ids <= rank.Keys
    ensures u in ids && forall x | x in ids :: rank[u] <= rank[x]
    decreases ids
  {
    var first :| first in ids;
    var rest := ids - {first};
    assert forall x | x in ids :: x == first || x in rest;
    u := first;
    if rest != {} {
      var v := Lowest(rank, rest);
      u := if rank[v] < rank[first] then v else first;
    }
  }

  /** The next of them to be handled: all queue steps before it have results. */
  lemma NextMissing(p: Plan, store: seq<Envelope>, t: StepId) returns (u: Step)
    requires WellFormed(p.steps) && Missing(p, store, t) != {}
    ensures u.id in Missing(p, store, t) && IsQueueStep(p, u) && AncestorsStored(p, store, u.id)
  {
    var rank := HasRank(p.steps);
    var id := Lowest(rank, Missing(p, store, t));
    u := FindStep(p.steps, id).value;
    forall x | Ancestor(p.steps, x, id) && RoleOf(p, x).QueueTask?
      ensures Stored(store, p.run, x)
    {
      AncestorsChain(p.steps, x, id, t);
      AncestorIsStep(p.steps, x, t);
      AncestorRanksLess(p.steps, rank, x, id);
    }
  }

  /** A run that has only its first checkpoint, whose segments have died so far. */
  ghost predicate Fresh(s: Sys, p: Plan) {
    && Live(s, p) && RunOf(s, p).status.Running? && RunOf(s, p).saved == Some(FRESH_FLOW) && RunOf(s, p).parks == []
    && !RunOf(s, p).torn && s.wakes == [] && s.signals == {}
  }

  function Dying(t: StepId, reply: StepId -> Value): World {
    World(0, (x: StepId) => true, (x: StepId) => if x == t then AfterEffect else NoFault, reply, GoesThrough)
  }

  /** Once all queue steps before it have results and no gate is before it, a step can be sent
      by a segment from the first checkpoint that dies right after. */
  lemma FreshSends(s: Sys, p: Plan, t: Step) returns (s': Sys, k: Key)
    requires Fresh(s, p) && IsQueueStep(p, t) && !Stored(s.store, p.run, t.id)
    requires AncestorsStored(p, s.store, t.id) && NoGateBefore(p, t.id)
    ensures Fresh(s', p) && s'.store == s.store && (forall k | k in s.fx.tasks :: k in s'.fx.tasks)
    ensures k in s'.fx.tasks && k.run == p.run && k.ref == t.id
  {
    var rank := HasRank(p.steps);
    var w := Dying(t.id, (x: StepId) => Null).(now := s.now);
    AllBound(p, s.store, FRESH_FLOW, rank, t, rank[t.id]);
    BoundTargetIsSent(p, w, s.store, FRESH_FLOW, t, rank[t.id]);
    var seen;
    s', seen := DieSending(s, p, t, w);
    k := KeyFor(p, t, seen);
  }

  lemma MissingLess(p: Plan, store: seq<Envelope>, t: StepId, e: Envelope)
    requires !Holds(store, e.key) && e.run == p.run && e.stepRef in Missing(p, store, t)
    ensures Missing(p, store + [e], t) < Missing(p, store, t)
    ensures forall x :: Stored(store + [e], p.run, x) <==> Stored(store, p.run, x) || x == e.stepRef
  {
    forall x
      ensures Stored(store + [e], p.run, x) <==> Stored(store, p.run, x) || x == e.stepRef
    {
      StoredStays(store, e, p.run, x);
      assert (store + [e])[..|store|] == store;
    }
    assert e.stepRef !in Missing(p, store + [e], t);
  }

  /** Segment after segment dies, and every queue step before `t` gets its result. */
  lemma {:induction false} StoreAncestors(s: Sys, p: Plan, t: Step) returns (s': Sys)
    requires Fresh(s, p) && t in p.steps && !Stored(s.store, p.run, t.id)
    requires forall x | Ancestor(p.steps, x, t.id) && RoleOf(p, x).QueueTask? :: NoGateBefore(p, x)
    ensures Fresh(s', p) && !Stored(s'.store, p.run, t.id) && AncestorsStored(p, s'.store, t.id)
    decreases Missing(p, s.store, t.id)
  {
    if Missing(p, s.store, t.id) == {} {
      s' := s;
      NothingMissing(p, s.store, t.id);
    } else {
      var u := NextMissing(p, s.store, t.id);
      NotOwnAncestor(p.steps, t.id);
      var s1, k := FreshSends(s, p, u);
      var s2 := Deliver(s1, p, k, Null);
      MissingLess(p, s.store, t.id, EnvelopeFor(k, Null));
      s' := StoreAncestors(s2, p, t);
    }
  }

  lemma NothingMissing(p: Plan, store: seq<Envelope>, t: StepId)
    requires WellFormed(p.steps) && Missing(p, store, t) == {}
    ensures AncestorsStored(p, store, t)
  {
    forall u | Ancestor(p.steps, u, t) && RoleOf(p, u).QueueTask?
      ensures Stored(store, p.run, u)
    {
      AncestorIsStep(p.steps, u, t);
      assert u !in Missing(p, store, t);
    }
  }

  /** A run with the results of all queue steps before this one, which has not been sent. */
  lemma Prepared(p: Plan, t: Step) returns (s: Sys)
    requires ValidPlan(p) && t in p.steps
    requires forall x | Ancestor(p.steps, x, t.id) && RoleOf(p, x).QueueTask? :: NoGateBefore(p, x)
    ensures Fresh(s, p) && !Stored(s.store, p.run, t.id) && AncestorsStored(p, s.store, t.id)
  {
    var s0 := Created(p);
    NothingStored(p.run);
    s := StoreAncestors(s0, p, t);
  }

  lemma NothingStored(run: RunId)
    ensures forall id :: !Stored([], run, id)
  {
  }

  lemma NoGateBeforeAncestors(p: Plan, t: StepId)
    requires NoGateBefore(p, t)
    ensures forall x | Ancestor(p.steps, x, t) :: NoGateBefore(p, x)
  {
    forall x, u | Ancestor(p.steps, x, t) && Ancestor(p.steps, u, x)
      ensures !RoleOf(p, u).Gate?
    { AncestorsChain(p.steps, u, x, t); }
  }

  lemma LiveStoreOk(s: Sys, p: Plan)
    requires Live(s, p)
    ensures StoreOk(p, s.store)
  {
    LiveIsSound(s, p);
  }

  lemma TwoKeys(tasks: seq<Key>, run: RunId, step: StepId, k: Key, l: Key)
    requires k in tasks && l in tasks && k != l && k.run == l.run == run && k.ref == l.ref == step
    ensures !OneKey(tasks, run, step)
  {
  }

  /** Whatever gates there are, from any checkpoint of any accepted workflow: when the step can
      be sent and its payload tells two answers of the subagents apart, whatever else it sees,
      a replay sends it under a second key. */
  lemma ReplayTellsApart(s: Sys, p: Plan, t: Step, n: nat, wa: World, wb: World) returns (s': Sys)
    requires Live(s, p) && (p.run in s.claimed || RunOf(s, p).status.Running?)
    requires Unsent(p, s.store, Resumption(RunOf(s, p)), t) && DepsBound(p, Resumption(RunOf(s, p)), s.store, t, n)
    requires FailsAt(wa, t.id) && FailsAt(wb, t.id) && wa.now == wb.now == s.now
    requires var flow := Resumption(RunOf(s, p));
      forall a, b | SeenAt(p, wa, s.store, flow, t, a) && SeenAt(p, wb, s.store, flow, t, b) ::
        Payload(p, t, a) != Payload(p, t, b)
    ensures Live(s', p) && !OneKey(s'.fx.tasks, p.run, t.id)
  {
    var flow := Resumption(RunOf(s, p));
    BoundTargetIsSent(p, wa, s.store, flow, t, n);
    BoundTargetIsSent(p, wb, s.store, flow, t, n);
    var s1, a := DieSending(s, p, t, wa);
    assert Resumption(RunOf(s1, p)) == flow;
    var b;
    s', b := DieSending(s1, p, t, wb);
    TwoKeys(s'.fx.tasks, p.run, t.id, KeyFor(p, t, a), KeyFor(p, t, b));
  }
}
