/** When a step is sent under one key only, whatever crashes: exactly, by the definition. A run
    is led to the step, past the gates before it, with the results and replies one chooses, and
    dies there twice. */
module Resending {
  import opened Base
  import opened Templates
  import opened Definition
  import opened Keys
  import opened Lifecycle
  import opened Executor
  import opened ExecutorLaws
  import opened Provenance
  import opened Workers
  import opened Protocol
  import opened Records
  import opened Closure
  import opened Settling
  import opened Guarantees
  import opened Replay
  import opened Gaps

  // ---------- which replies a replay may change ----------

  /** The templates of the step name only its own dependencies and queue steps before it. */
  ghost predicate ReadsNearby(p: Plan, t: Step) {
    forall id | Reads(DictOf(t.input), id) ::
      || id !in Ids(p.steps)
      || (RoleOf(p, id).QueueTask? && Ancestor(p.steps, id, t.id))
      || id in t.dependsOn
  }

  /** The step names the reply of this subagent. */
  ghost predicate ReadsReply(p: Plan, t: Step, l: StepId) {
    Reads(DictOf(t.input), l) && l in t.dependsOn && RoleOf(p, l).LocalTask?
  }

  /** Every gate before the step comes before each subagent whose reply it names, so no
      checkpoint at such a gate keeps a reply. */
  ghost predicate GatesComeFirst(p: Plan, t: Step) {
    forall u, l | Ancestor(p.steps, u, t.id) && RoleOf(p, u).Gate? && ReadsReply(p, t, l) :: Ancestor(p.steps, u, l)
  }

  // ---------- on the way to the step ----------

  /** The first output of every queue step before `t` is the one given. */
  ghost predicate Answered(p: Plan, store: seq<Envelope>, t: StepId, answer: StepId -> Value) {
    forall u | Ancestor(p.steps, u, t) && RoleOf(p, u).QueueTask? && Stored(store, p.run, u) ::
      FirstOutput(store, p.run, u) == Some(answer(u))
  }

  lemma AnsweredMore(p: Plan, store: seq<Envelope>, t: StepId, answer: StepId -> Value, e: Envelope)
    requires Answered(p, store, t, answer) && !Holds(store, e.key)
    requires e.run == p.run && e.output == answer(e.stepRef) && !Stored(store, p.run, e.stepRef)
    ensures Answered(p, store + [e], t, answer)
  {
    forall u | Ancestor(p.steps, u, t) && RoleOf(p, u).QueueTask? && Stored(store + [e], p.run, u)
      ensures FirstOutput(store + [e], p.run, u) == Some(answer(u))
    {
      StoredStays(store, e, p.run, u);
      if !Stored(store, p.run, u) {
        assert (store + [e])[..|store|] == store;
        assert Listed(store, p.run, Some(u)) == [];
      }
    }
  }

  ghost predicate HasTask(tasks: seq<Key>, run: RunId, id: StepId) {
    exists k | k in tasks :: k.run == run && k.ref == id
  }

  /** The step is still to be sent, no checkpoint keeps a reply it names, and every step recorded
      as dispatched has a task message. */
  ghost predicate Open(p: Plan, store: seq<Envelope>, flow: Flow, tasks: seq<Key>, t: Step) {
    && Unsent(p, store, flow, t)
    && (forall l | ReadsReply(p, t, l) :: l !in flow.outputs)
    && (forall id | id in flow.dispatched :: HasTask(tasks, p.run, id))
  }

  /** The run is on its way to the step, with these answers so far. */
  ghost predicate Heading(s: Sys, p: Plan, t: Step, answer: StepId -> Value) {
    && Live(s, p) && !RunOf(s, p).torn && (p.run in s.claimed || RunOf(s, p).status.Running?)
    && Open(p, s.store, Resumption(RunOf(s, p)), s.fx.tasks, t) && Answered(p, s.store, t.id, answer)
  }

  lemma {:induction false} ClosedUnderAncestors(p: Plan, outputs: map<StepId, Value>, path: seq<StepId>, u: StepId,
                                                v: StepId)
    requires DownClosed(p, outputs) && Leads(p.steps, path, u, v) && v in outputs
    ensures u in outputs
    decreases |path|
  {
    var d, shorter := LastEdge(p.steps, path, u, v);
    var i :| 0 <= i < |p.steps| && p.steps[i].id == v && d in p.steps[i].dependsOn;
    assert DepsDone(p.steps[i], outputs);
    if u != d { ClosedUnderAncestors(p, outputs, shorter, u, d); }
  }

  lemma ClosedHasAncestor(p: Plan, outputs: map<StepId, Value>, u: StepId, v: StepId)
    requires DownClosed(p, outputs) && Ancestor(p.steps, u, v) && v in outputs
    ensures u in outputs
  {
    var path :| Leads(p.steps, path, u, v);
    ClosedUnderAncestors(p, outputs, path, u, v);
  }

  /** A step that stays unsent though its queue ancestors have results waits for a gate. */
  lemma OpenGateBefore(p: Plan, w: World, store: seq<Envelope>, flow: Flow, q: Step) returns (g: StepId)
    requires WellFormed(p.steps) && FailsAt(w, q.id) && Unsent(p, store, flow, q)
    requires AncestorsStored(p, store, q.id) && WalkOf(p, w, store, flow).halt.Going?
    ensures Ancestor(p.steps, g, q.id) && RoleOf(p, g).Gate? && g !in WalkOf(p, w, store, flow).flow.outputs
  {
    var k := WalkOf(p, w, store, flow);
    WalkFails(p, w, store, flow, q);
    LoopSettles(p, w, Walk(Opening(p, store, flow), None, true, [], Going));
    AncestorsAreIn(p, w, store, flow, q);
    if forall u | Ancestor(p.steps, u, q.id) && RoleOf(p, u).Gate? :: u in k.flow.outputs {
      NothingHoldsIt(p, k, q);
      assert false;
    } else {
      g :| Ancestor(p.steps, g, q.id) && RoleOf(p, g).Gate? && g !in k.flow.outputs;
    }
  }

  /** Behind a gate that is still open nothing is sent, and no reply is kept. */
  lemma OpenBehindGate(p: Plan, w: World, store: seq<Envelope>, flow: Flow, t: Step, g: StepId)
    requires WellFormed(p.steps) && Unsent(p, store, flow, t) && GatesComeFirst(p, t)
    requires Ancestor(p.steps, g, t.id) && RoleOf(p, g).Gate?
    requires var seg := Drive(p, w, store, flow); g !in seg.flow.outputs && DownClosed(p, seg.flow.outputs)
    ensures var seg := Drive(p, w, store, flow);
      Unsent(p, store, seg.flow, t) && forall l | ReadsReply(p, t, l) :: l !in seg.flow.outputs
  {
    var seg := Drive(p, w, store, flow);
    forall l | ReadsReply(p, t, l)
      ensures l !in seg.flow.outputs
    { if l in seg.flow.outputs { ClosedHasAncestor(p, seg.flow.outputs, g, l); } }
    if t.id in seg.flow.outputs { ClosedHasAncestor(p, seg.flow.outputs, g, t.id); }
    DriveLaw(p, w, store, flow);
    if t.id in seg.flow.dispatched {
      var i :| 0 <= i < |seg.events| && seg.events[i].Sent? && seg.events[i].step == t.id;
      SentHasDeps(p, w, store, flow, i);
      SentNeedsAncestor(p, seg.flow.outputs, t, g);
    }
  }

  lemma SentNeedsAncestor(p: Plan, outputs: map<StepId, Value>, t: Step, g: StepId)
    requires UniqueIds(p.steps) && t in p.steps && DownClosed(p, outputs) && DepsDone(t, outputs)
    requires Ancestor(p.steps, g, t.id)
    ensures g in outputs
  {
    var path :| Leads(p.steps, path, g, t.id);
    var d, shorter := LastEdge(p.steps, path, g, t.id);
    DependencyOfStep(p.steps, t, d);
    if g != d { ClosedHasAncestor(p, outputs, g, d); }
  }

  lemma DispatchedHaveTasks(p: Plan, w: World, store: seq<Envelope>, flow: Flow, fx: Effects)
    requires UniqueIds(p.steps) && EffectsOk(fx) && forall id | id in flow.dispatched :: HasTask(fx.tasks, p.run, id)
    ensures var seg := Drive(p, w, store, flow);
      forall id | id in seg.flow.dispatched :: HasTask(Published(fx, seg.events).tasks, p.run, id)
  {
    var seg := Drive(p, w, store, flow);
    DriveLaw(p, w, store, flow);
    PublishedLaw(fx, seg.events);
    forall id | id in seg.flow.dispatched
      ensures HasTask(Published(fx, seg.events).tasks, p.run, id)
    {
      if id in flow.dispatched {
        var k :| k in fx.tasks && k.run == p.run && k.ref == id;
        assert k in Published(fx, seg.events).tasks;
      } else {
        var i :| 0 <= i < |seg.events| && seg.events[i].Sent? && seg.events[i].step == id;
        SentHasDeps(p, w, store, flow, i);
        SentIsPublished(fx, seg.events, i);
      }
    }
  }

  /** The run parks on a gate on its way, and the gate comes about. */
  lemma ParkOnTheWay(s: Sys, p: Plan, t: Step, u: Step, w: World, answer: StepId -> Value) returns (s': Sys)
    requires Heading(s, p, t, answer) && GatesComeFirst(p, t) && GatesAreUsable(p)
    requires u == t || Ancestor(p.steps, u.id, t.id)
    requires Unsent(p, s.store, Resumption(RunOf(s, p)), u) && AncestorsStored(p, s.store, u.id)
    requires FailsAt(w, u.id) && w.now == s.now && WalkOf(p, w, s.store, Resumption(RunOf(s, p))).halt.Going?
    ensures Heading(s', p, t, answer) && s'.store == s.store && |RunOf(s', p).parks| == |RunOf(s, p).parks| + 1
  {
    var r := RunOf(s, p);
    var flow, s0 := Resumption(r), if p.run in s.claimed then s.(claimed := s.claimed - multiset{p.run}) else s;
    var seg := Drive(p, w, s.store, flow);
    assert w.(now := s.now) == w;
    LiveIsSound(s, p);
    ParksBefore(p, w, s.store, flow, u);
    DrivesOn(s, p, w);
    var s1 := Next(ACCEPT_ALL, s, Drives(s, p, w));
    ParkedIsLive(s, p, s0, seg);
    var g := OpenGateBefore(p, w, s.store, flow, u);
    CheckpointsAreClosed(ACCEPT_ALL, s1, p.run);
    StaysOpen(p, w, s.store, flow, s.fx, t, u, g);
    s' := Fires(s1, p.run, |s.wakes|);
    WokenIsLive(s1, p, s');
  }

  lemma StaysOpen(p: Plan, w: World, store: seq<Envelope>, flow: Flow, fx: Effects, t: Step, u: Step, g: StepId)
    requires WellFormed(p.steps) && Open(p, store, flow, fx.tasks, t) && GatesComeFirst(p, t) && EffectsOk(fx)
    requires u == t || Ancestor(p.steps, u.id, t.id)
    requires Ancestor(p.steps, g, u.id) && RoleOf(p, g).Gate? && g !in WalkOf(p, w, store, flow).flow.outputs
    requires DownClosed(p, Drive(p, w, store, flow).flow.outputs)
    ensures var seg := Drive(p, w, store, flow);
      Open(p, store, seg.flow, Published(fx, seg.events).tasks, t)
  {
    if u != t { AncestorsChain(p.steps, g, u.id, t.id); }
    assert Drive(p, w, store, flow).flow.outputs == WalkOf(p, w, store, flow).flow.outputs;
    OpenBehindGate(p, w, store, flow, t, g);
    DispatchedHaveTasks(p, w, store, flow, fx);
  }

  /** A worker handles a task on the way, with the answer given. */
  lemma AnswerOnTheWay(s: Sys, p: Plan, t: Step, k: Key, answer: StepId -> Value) returns (s': Sys)
    requires Heading(s, p, t, answer) && k in s.fx.tasks && k.run == p.run && k.ref in Missing(p, s.store, t.id)
    ensures Heading(s', p, t, answer) && Missing(p, s'.store, t.id) < Missing(p, s.store, t.id)
    ensures RunOf(s', p) == RunOf(s, p)
  {
    var e := EnvelopeFor(k, answer(k.ref));
    s' := Deliver(s, p, k, answer(k.ref));
    MissingLess(p, s.store, t.id, e);
    AnsweredMore(p, s.store, t.id, answer, e);
    NotOwnAncestor(p.steps, t.id);
  }

  /** The segment dies after it has sent a step on the way. */
  lemma DieOnTheWay(s: Sys, p: Plan, t: Step, u: Step, w: World, answer: StepId -> Value) returns (s': Sys, k: Key)
    requires Heading(s, p, t, answer) && FailsAt(w, u.id) && w.now == s.now
    requires Unsent(p, s.store, Resumption(RunOf(s, p)), u)
    requires WalkOf(p, w, s.store, Resumption(RunOf(s, p))).halt == RaisedAt(u.id)
    ensures Heading(s', p, t, answer) && s'.store == s.store && RunOf(s', p).parks == RunOf(s, p).parks
    ensures k in s'.fx.tasks && k.run == p.run && k.ref == u.id
  {
    var seen;
    s', seen := DieSending(s, p, u, w);
    k := KeyFor(p, u, seen);
    TasksStay(p, Resumption(RunOf(s, p)), s.fx.tasks, s'.fx.tasks);
  }

  lemma TasksStay(p: Plan, flow: Flow, tasks: seq<Key>, tasks': seq<Key>)
    requires (forall id | id in flow.dispatched :: HasTask(tasks, p.run, id)) && forall k | k in tasks :: k in tasks'
    ensures forall id | id in flow.dispatched :: HasTask(tasks', p.run, id)
  {
  }

  /** The step can be led to: no gate is before it, or all gates can come about. */
  ghost predicate CanComeTo(p: Plan, t: Step) {
    NoGateBefore(p, t.id) || GatesAreUsable(p)
  }

  /** The walk reaches the step in the next segment. */
  ghost predicate AtStep(s: Sys, p: Plan, t: Step)
    requires p.run in s.runs
  {
    WalkOf(p, Dying(t.id, (x: StepId) => Null).(now := s.now), s.store, Resumption(RunOf(s, p))).halt == RaisedAt(t.id)
  }

  /** The queue step to see to next: the step itself once all queue steps before it have results. */
  lemma NextOnTheWay(p: Plan, store: seq<Envelope>, t: Step) returns (u: Step)
    requires WellFormed(p.steps) && IsQueueStep(p, t)
    ensures IsQueueStep(p, u) && AncestorsStored(p, store, u.id)
    ensures if Missing(p, store, t.id) == {} then u == t
            else u.id in Missing(p, store, t.id) && Ancestor(p.steps, u.id, t.id)
  {
    if Missing(p, store, t.id) == {} {
      u := t;
      NothingMissing(p, store, t.id);
    } else {
      u := NextMissing(p, store, t.id);
    }
  }

  /** Gate after gate passes and queue step after queue step gets its result, until the next
      segment comes to the step. */
  lemma {:induction false} Arrives(s: Sys, p: Plan, t: Step, answer: StepId -> Value) returns (s': Sys)
    requires Heading(s, p, t, answer) && GatesComeFirst(p, t) && CanComeTo(p, t)
    ensures Heading(s', p, t, answer) && AncestorsStored(p, s'.store, t.id) && AtStep(s', p, t)
    decreases Missing(p, s.store, t.id), |p.steps| + 1 - |RunOf(s, p).parks|
  {
    var flow := Resumption(RunOf(s, p));
    var u := NextOnTheWay(p, s.store, t);
    if u != t && u.id in flow.dispatched {
      var k :| k in s.fx.tasks && k.run == p.run && k.ref == u.id;
      var s1 := AnswerOnTheWay(s, p, t, k, answer);
      s' := Arrives(s1, p, t, answer);
    } else {
      var w := Dying(u.id, (x: StepId) => Null).(now := s.now);
      MissingIsUnsent(s, p, t, u, answer);
      WalkFails(p, w, s.store, flow, u);
      if WalkOf(p, w, s.store, flow).halt.Going? {
        GatesAreUsableHere(s, p, t, u, w);
        var s1 := ParkOnTheWay(s, p, t, u, w, answer);
        ParksAtMostOncePerStep(ACCEPT_ALL, s1, p.run);
        s' := Arrives(s1, p, t, answer);
      } else if u == t {
        s' := s;
      } else {
        var s1, k := DieOnTheWay(s, p, t, u, w, answer);
        var s2 := AnswerOnTheWay(s1, p, t, k, answer);
        s' := Arrives(s2, p, t, answer);
      }
    }
  }

  lemma MissingIsUnsent(s: Sys, p: Plan, t: Step, u: Step, answer: StepId -> Value)
    requires Heading(s, p, t, answer) && IsQueueStep(p, u)
    requires u == t || (u.id in Missing(p, s.store, t.id) && u.id !in Resumption(RunOf(s, p)).dispatched)
    ensures Unsent(p, s.store, Resumption(RunOf(s, p)), u)
  {
    LiveHasData(s, p);
    RecordedIsStored(RunOf(s, p), s.wakes, s.store, u.id);
  }

  lemma RecordedIsStored(r: Run, wakes: seq<Wake>, store: seq<Envelope>, id: StepId)
    requires RunData(r, wakes, store) && RoleOf(r.plan, id).QueueTask?
    ensures id in Resumption(r).outputs ==> Stored(store, r.plan.run, id)
  {
    if r.saved.Some? && id in r.saved.value.outputs {
      assert OutputOk(r.plan, store, MayPass(r, wakes), id, r.saved.value.outputs[id]);
    }
  }

  lemma GatesAreUsableHere(s: Sys, p: Plan, t: Step, u: Step, w: World)
    requires ValidPlan(p) && p.run in s.runs && CanComeTo(p, t) && (u == t || Ancestor(p.steps, u.id, t.id))
    requires FailsAt(w, u.id) && Unsent(p, s.store, Resumption(RunOf(s, p)), u) && AncestorsStored(p, s.store, u.id)
    requires WalkOf(p, w, s.store, Resumption(RunOf(s, p))).halt.Going?
    ensures GatesAreUsable(p)
  {
    var g := OpenGateBefore(p, w, s.store, Resumption(RunOf(s, p)), u);
    if u != t { AncestorsChain(p.steps, g, u.id, t.id); }
  }

  // ---------- two replies, two keys ----------

  /** What is seen of a queue step with a result is its first one. */
  lemma QueueStepIsSeen(p: Plan, store: seq<Envelope>, passed: set<StepId>, flow: Flow, seen: map<StepId, Value>,
                        id: StepId)
    requires StoreOk(p, store) && OutputsOk(p, store, passed, flow.outputs)
    requires Extends(Opening(p, store, flow).outputs, seen) && id in Ids(p.steps)
    requires RoleOf(p, id).QueueTask? && Stored(store, p.run, id)
    ensures FirstOutput(store, p.run, id) == Some(Shown(seen, id))
  {
    RefreshLaw(p.steps, p.run, store, flow.outputs);
    OpeningOutputsOk(p, store, flow, passed);
    assert OutputOk(p, store, passed, id, Opening(p, store, flow).outputs[id]);
  }

  /** What is seen of a gate is that it passed, and of a subagent that no checkpoint keeps its
      reply. */
  lemma DependencyIsSeen(p: Plan, store: seq<Envelope>, passed: set<StepId>, flow: Flow, w: World, t: Step,
                         seen: map<StepId, Value>, id: StepId)
    requires StoreOk(p, store) && OutputsOk(p, store, passed, flow.outputs) && SeenAt(p, w, store, flow, t, seen)
    requires id in t.dependsOn
    ensures RoleOf(p, id).Gate? ==> Shown(seen, id) == GATE_PASSED
    ensures RoleOf(p, id).LocalTask? && id !in flow.outputs ==> Shown(seen, id) == w.reply(id)
  {
    OpeningOutputsOk(p, store, flow, passed);
    var start := Opening(p, store, flow).outputs;
    if id in start {
      assert OutputOk(p, store, passed, id, start[id]);
      if RoleOf(p, id).LocalTask? { NonQueueIsFromCheckpoint(p, store, flow, id); }
    }
  }

  /** What the run saw is what was chosen: the answers, the replies, and gates that passed. */
  lemma ReadIsChosen(p: Plan, store: seq<Envelope>, passed: set<StepId>, flow: Flow, w: World, t: Step,
                     m: map<StepId, Value>, answer: StepId -> Value, seen: map<StepId, Value>, id: StepId)
    requires StoreOk(p, store) && OutputsOk(p, store, passed, flow.outputs)
    requires Answered(p, store, t.id, answer) && AncestorsStored(p, store, t.id)
    requires RoleOf(p, id).QueueTask? && Ancestor(p.steps, id, t.id) ==> answer(id) == Shown(m, id)
    requires MayBeSeen(p, t, m) && SeenAt(p, w, store, flow, t, seen) && w.reply(id) == Shown(m, id)
    requires ReadsReply(p, t, id) ==> id !in flow.outputs
    requires t in p.steps && Reads(DictOf(t.input), id) && id in Ids(p.steps)
    requires (RoleOf(p, id).QueueTask? && Ancestor(p.steps, id, t.id)) || id in t.dependsOn
    ensures SameAt(seen, m, id)
  {
    if id in t.dependsOn { DependencyIsAncestor(p.steps, t, id); }
    if RoleOf(p, id).QueueTask? {
      QueueStepIsSeen(p, store, passed, flow, seen, id);
    } else {
      assert FindStep(p.steps, id).Some?;
      DependencyIsSeen(p, store, passed, flow, w, t, seen, id);
    }
  }

  lemma SeenTellsPayload(p: Plan, store: seq<Envelope>, passed: set<StepId>, flow: Flow, w: World, t: Step,
                         m: map<StepId, Value>, answer: StepId -> Value, seen: map<StepId, Value>)
    requires WellFormed(p.steps) && StoreOk(p, store) && OutputsOk(p, store, passed, flow.outputs)
    requires Answered(p, store, t.id, answer) && AncestorsStored(p, store, t.id)
    requires forall u | RoleOf(p, u).QueueTask? && Ancestor(p.steps, u, t.id) :: answer(u) == Shown(m, u)
    requires MayBeSeen(p, t, m) && SeenAt(p, w, store, flow, t, seen) && (forall id :: w.reply(id) == Shown(m, id))
    requires forall l | ReadsReply(p, t, l) :: l !in flow.outputs
    requires t in p.steps && ReadsNearby(p, t)
    ensures Payload(p, t, seen) == Payload(p, t, m)
  {
    forall id | Reads(DictOf(t.input), id)
      ensures SameAt(seen, m, id)
    {
      if id in Ids(p.steps) { ReadIsChosen(p, store, passed, flow, w, t, m, answer, seen, id); }
    }
    BindDependsOnlyOnReads(DictOf(t.input), p.context, seen, m, p.show);
  }

  function Showing(m: map<StepId, Value>): StepId -> Value {
    (id: StepId) => Shown(m, id)
  }

  /** Arrived at the step, the run sends it over the replies chosen and dies. */
  lemma SendsOver(s: Sys, p: Plan, t: Step, n: nat, m: map<StepId, Value>, answer: StepId -> Value)
    returns (s': Sys, k: Key)
    requires Heading(s, p, t, answer) && AncestorsStored(p, s.store, t.id) && ReadsNearby(p, t)
    requires DepsBound(p, Resumption(RunOf(s, p)), s.store, t, n) && MayBeSeen(p, t, m)
    requires forall u | RoleOf(p, u).QueueTask? && Ancestor(p.steps, u, t.id) :: answer(u) == Shown(m, u)
    ensures Heading(s', p, t, answer) && s'.store == s.store && Resumption(RunOf(s', p)) == Resumption(RunOf(s, p))
    ensures forall l | l in s.fx.tasks :: l in s'.fx.tasks
    ensures k in s'.fx.tasks && k.run == p.run && k.ref == t.id && k.payload == Payload(p, t, m)
  {
    var flow, w := Resumption(RunOf(s, p)), Dying(t.id, Showing(m)).(now := s.now);
    BoundTargetIsSent(p, w, s.store, flow, t, n);
    var seen;
    s', seen := DieSending(s, p, t, w);
    TasksStay(p, flow, s.fx.tasks, s'.fx.tasks);
    LiveHasData(s, p);
    SeenTellsPayload(p, s.store, MayPass(RunOf(s, p), s.wakes), flow, w, t, m, answer, seen);
    k := KeyFor(p, t, seen);
  }

  /** A step that a segment comes to has dependencies that the next one completes as well. */
  lemma ArrivedIsBound(s: Sys, p: Plan, t: Step, answer: StepId -> Value) returns (n: nat)
    requires Heading(s, p, t, answer) && AtStep(s, p, t)
    ensures DepsBound(p, Resumption(RunOf(s, p)), s.store, t, n)
  {
    var flow, w := Resumption(RunOf(s, p)), Dying(t.id, (x: StepId) => Null).(now := s.now);
    LiveIsSound(s, p);
    var i := DyingSent(p, w, s.store, flow, t);
    SentDepsBound(p, w, s.store, flow, i);
    var u :| u in p.steps && u.id == t.id && DepsBound(p, flow, s.store, u, i);
    SameIdSameStep(p.steps, u, t);
    n := i;
  }

  lemma FirstHeading(p: Plan, t: Step, answer: StepId -> Value) returns (s: Sys)
    requires ValidPlan(p) && IsQueueStep(p, t)
    ensures Heading(s, p, t, answer)
  {
    s := Created(p);
    NothingStored(p.run);
  }

  /** Two replies of the subagents that the payload tells apart make two keys. */
  lemma TwoRepliesTwoKeys(p: Plan, t: Step, a: map<StepId, Value>, b: map<StepId, Value>) returns (s: Sys)
    requires ValidPlan(p) && IsQueueStep(p, t) && ReadsNearby(p, t) && GatesComeFirst(p, t) && CanComeTo(p, t)
    requires AgreeOnTold(p, t, a, b) && Payload(p, t, a) != Payload(p, t, b)
    ensures Live(s, p) && !OneKey(s.fx.tasks, p.run, t.id)
  {
    forall u | RoleOf(p, u).QueueTask? && Ancestor(p.steps, u, t.id)
      ensures Shown(a, u) == Shown(b, u)
    { assert Told(p, t, u) && SameAt(a, b, u); }
    var s0 := FirstHeading(p, t, Showing(a));
    var s1 := Arrives(s0, p, t, Showing(a));
    var n := ArrivedIsBound(s1, p, t, Showing(a));
    var s2, k := SendsOver(s1, p, t, n, a, Showing(a));
    var l;
    s, l := SendsOver(s2, p, t, n, b, Showing(a));
    TwoKeys(s.fx.tasks, p.run, t.id, k, l);
  }

  ghost predicate AlwaysOneKey(p: Plan, t: Step) {
    forall s | Reachable(ACCEPT_ALL, s) && p.run in s.runs && s.runs[p.run].plan == p ::
      OneKey(s.fx.tasks, p.run, t.id)
  }

  /** The exact condition, for every accepted workflow and every queue step of it whose templates
      name only its own dependencies and queue steps before it, when the gates before it can come
      about and come before the subagents whose replies it names: all its task messages, over
      every run, carry one key if and only if its payload is settled by the outputs of the queue
      steps before it. */
  lemma OneKeyExactly(p: Plan, t: Step)
    requires ValidPlan(p) && IsQueueStep(p, t) && ReadsNearby(p, t) && GatesComeFirst(p, t) && CanComeTo(p, t)
    ensures AlwaysOneKey(p, t) <==> Replayable(p, t)
  {
    if Replayable(p, t) {
      StepIsFound(p, t);
      forall s | Reachable(ACCEPT_ALL, s) && p.run in s.runs && s.runs[p.run].plan == p
        ensures OneKey(s.fx.tasks, p.run, t.id)
      { EachStepOnce(ACCEPT_ALL, s, p.run, t.id); }
    } else {
      var a, b :| AgreeOnTold(p, t, a, b) && Payload(p, t, a) != Payload(p, t, b);
      var s := TwoRepliesTwoKeys(p, t, a, b);
    }
  }
}
