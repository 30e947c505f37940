/** When the completed set is closed under dependencies right after the refresh from the result
    store, at the start of a segment: exactly, by the state and by the definition. */
module Gaps {
  import opened Base
  import opened Templates
  import opened Definition
  import opened Keys
  import opened Lifecycle
  import opened Executor
  import opened ExecutorLaws
  import opened Provenance
  import opened Workers
  import opened Protocol
  import opened Settling
  import opened Guarantees
  import opened Replay

  // ---------- by the state ----------

  /** Every in-process or gate dependency of a step with a stored result that the checkpoint
      does not record is in the checkpoint. */
  ghost predicate NothingIsLost(p: Plan, store: seq<Envelope>, flow: Flow) {
    forall s, d | s in p.steps && Stored(store, p.run, s.id) && s.id !in flow.outputs && d in s.dependsOn
      && !RoleOf(p, d).QueueTask? :: d in flow.outputs
  }

  lemma NonQueueIsFromCheckpoint(p: Plan, store: seq<Envelope>, flow: Flow, d: StepId)
    requires StoreOk(p, store) && !RoleOf(p, d).QueueTask?
    ensures d in Opening(p, store, flow).outputs ==> d in flow.outputs
  {
    RefreshLaw(p.steps, p.run, store, flow.outputs);
    assert Stored(store, p.run, d) ==> RoleOf(p, d).QueueTask?;
  }

  lemma OpeningIsClosedIff(p: Plan, store: seq<Envelope>, flow: Flow)
    requires WellFormed(p.steps) && StoreOk(p, store) && DownClosed(p, flow.outputs)
    ensures DownClosed(p, Opening(p, store, flow).outputs) <==> NothingIsLost(p, store, flow)
  {
    var outputs := Opening(p, store, flow).outputs;
    RefreshLaw(p.steps, p.run, store, flow.outputs);
    forall s, d | s in p.steps && s.id in outputs && s.id !in flow.outputs && d in s.dependsOn
      ensures Stored(store, p.run, s.id)
      ensures RoleOf(p, d).QueueTask? ==> d in outputs
      ensures !RoleOf(p, d).QueueTask? ==> (d in outputs <==> d in flow.outputs)
    {
      DependencyIsAncestor(p.steps, s, d);
      RoleIsStep(p, d);
      assert AncestorsStored(p, store, s.id);
      if !RoleOf(p, d).QueueTask? { NonQueueIsFromCheckpoint(p, store, flow, d); }
    }
    if DownClosed(p, outputs) {
      forall s, d | s in p.steps && Stored(store, p.run, s.id) && s.id !in flow.outputs && d in s.dependsOn
        && !RoleOf(p, d).QueueTask?
        ensures d in flow.outputs
      {
        assert s.id in Ids(p.steps) && s.id in outputs;
        assert DepsDone(s, outputs);
      }
    }
    if NothingIsLost(p, store, flow) {
      forall s | s in p.steps && s.id in outputs
        ensures DepsDone(s, outputs)
      {
        if s.id in flow.outputs { assert DepsDone(s, flow.outputs); }
      }
    }
  }

  /** In every reachable state, whatever crashed before: the completed set with which the next
      segment opens is closed if and only if nothing was lost that the stored results needed. */
  lemma OpensClosedExactly(accepts: Envelope -> bool, s: Sys, id: RunId, flow: Flow)
    requires Reachable(accepts, s) && NextSegment(s, id, flow)
    ensures var p := s.runs[id].plan;
      DownClosed(p, Opening(p, s.store, flow).outputs) <==> NothingIsLost(p, s.store, flow)
  {
    AlwaysSound(accepts, s);
    RunIsSound(accepts, s, id);
    OpeningIsClosedIff(s.runs[id].plan, s.store, flow);
  }

  // ---------- by the definition ----------

  /** Queue steps depend on queue steps only. */
  ghost predicate QueueOnQueue(p: Plan) {
    forall s, d | IsQueueStep(p, s) && d in s.dependsOn :: RoleOf(p, d).QueueTask?
  }

  /** Such a workflow opens closed in every segment of every run. */
  lemma QueueOnQueueOpensClosed(accepts: Envelope -> bool, s: Sys, id: RunId, flow: Flow)
    requires Reachable(accepts, s) && NextSegment(s, id, flow) && QueueOnQueue(s.runs[id].plan)
    ensures DownClosed(s.runs[id].plan, Opening(s.runs[id].plan, s.store, flow).outputs)
  {
    AlwaysSound(accepts, s);
    RunIsSound(accepts, s, id);
    NothingToLose(s.runs[id].plan, s.store, flow);
    OpensClosedExactly(accepts, s, id, flow);
  }

  lemma NothingToLose(p: Plan, store: seq<Envelope>, flow: Flow)
    requires ValidPlan(p) && StoreOk(p, store) && QueueOnQueue(p)
    ensures NothingIsLost(p, store, flow)
  {
    forall t | t in p.steps && Stored(store, p.run, t.id)
      ensures IsQueueStep(p, t)
    { StepIsFound(p, t); }
  }

  /** A condition of a gate that can come about. */
  predicate Usable(c: Option<WakeCondition>) {
    && c.Some? && !c.value.ResultsReady?
    && (c.value.Timer? ==> c.value.at.Some?) && (c.value.ExternalEvent? ==> c.value.key.Some?)
  }

  /** The bound input of a gate asks for an event, for a time, or for a delay, which is none when
      it names none. */
  predicate CanComeAbout(spec: Value) {
    || spec.Get("wait") == Text("external_event")
    || spec.Get("at").Number?
    || (spec.Get("at") == Null && (spec.Get("delay_s").Number? || !(spec.Fields? && "delay_s" in spec.fields)))
  }

  /** Whatever its input is bound to, every gate waits for an event, a time or a delay. */
  ghost predicate GatesAreUsable(p: Plan) {
    forall g, outputs | g in p.steps && g.kind.GateStep? :: CanComeAbout(Payload(p, g, outputs))
  }

  /** Such a gate parks the run on something that can come about, and no other gate does. */
  lemma UsableExactly(p: Plan, now: int, g: Step, outputs: map<StepId, Value>)
    ensures Usable(GateCondition(p, now, g, outputs)) <==> CanComeAbout(Payload(p, g, outputs))
  {
  }

  /** To be read off the definition: the input of the gate names the event wait, a time or a
      delay outright, or it names neither a time nor a delay. */
  predicate AsksOutright(g: Step) {
    || ("wait" in g.input && g.input["wait"] == Literal(Text("external_event")))
    || ("at" in g.input && g.input["at"].Literal? && g.input["at"].value.Number?)
    || ("at" !in g.input && "delay_s" in g.input && g.input["delay_s"].Literal? && g.input["delay_s"].value.Number?)
    || ("at" !in g.input && "delay_s" !in g.input)
  }

  lemma OutrightIsUsable(p: Plan)
    requires forall g | g in p.steps && g.kind.GateStep? :: AsksOutright(g)
    ensures GatesAreUsable(p)
  {
    forall g, outputs | g in p.steps && g.kind.GateStep?
      ensures CanComeAbout(Payload(p, g, outputs))
    {
      BindStandsFor(DictOf(g.input), p.context, outputs, p.show);
      assert AsksOutright(g);
    }
  }

  /** A queue step with a dependency that does not go through the queue. */
  ghost predicate IsMixed(p: Plan, s: Step) {
    IsQueueStep(p, s) && exists d :: d in s.dependsOn && !RoleOf(p, d).QueueTask?
  }

  ghost function Mixed(p: Plan): set<StepId> {
    set i | 0 <= i < |p.steps| && IsMixed(p, p.steps[i]) :: p.steps[i].id
  }

  lemma MixedStep(p: Plan, id: StepId) returns (q: Step)
    requires id in Mixed(p)
    ensures IsMixed(p, q) && q.id == id
  {
    var i :| 0 <= i < |p.steps| && IsMixed(p, p.steps[i]) && p.steps[i].id == id;
    q := p.steps[i];
  }

  lemma MixedIsThere(p: Plan)
    requires !QueueOnQueue(p)
    ensures Mixed(p) != {}
  {
    var s, d :| IsQueueStep(p, s) && d in s.dependsOn && !RoleOf(p, d).QueueTask?;
    assert IsMixed(p, s) && s.id in Mixed(p);
  }

  /** A lowest such step: all queue steps before it depend on queue steps only, down to the
      first. */
  lemma LowestMixed(p: Plan) returns (q: Step)
    requires WellFormed(p.steps) && !QueueOnQueue(p)
    ensures IsMixed(p, q)
    ensures forall x | Ancestor(p.steps, x, q.id) && RoleOf(p, x).QueueTask? :: NoGateBefore(p, x)
  {
    var rank := HasRank(p.steps);
    MixedIsThere(p);
    assert Mixed(p) <= rank.Keys;
    var id := Lowest(rank, Mixed(p));
    q := MixedStep(p, id);
    forall x | Ancestor(p.steps, x, q.id) && RoleOf(p, x).QueueTask?
      ensures NoGateBefore(p, x)
    { NoGateBelow(p, rank, q.id, x); }
  }

  lemma NoGateBelow(p: Plan, rank: map<StepId, nat>, q: StepId, x: StepId)
    requires WellFormed(p.steps) && Ranks(p.steps, rank) && q in rank
    requires forall m | m in Mixed(p) :: m in rank && rank[q] <= rank[m]
    requires Ancestor(p.steps, x, q) && RoleOf(p, x).QueueTask?
    ensures NoGateBefore(p, x)
  {
    forall u | Ancestor(p.steps, u, x)
      ensures !RoleOf(p, u).Gate?
    {
      var path :| Leads(p.steps, path, u, x);
      AllQueueBelow(p, rank, q, path, u, x);
    }
  }

  lemma {:induction false} AllQueueBelow(p: Plan, rank: map<StepId, nat>, q: StepId, path: seq<StepId>, u: StepId,
                                         x: StepId)
    requires WellFormed(p.steps) && Ranks(p.steps, rank) && q in rank
    requires forall m | m in Mixed(p) :: m in rank && rank[q] <= rank[m]
    requires Ancestor(p.steps, x, q) && RoleOf(p, x).QueueTask? && Leads(p.steps, path, u, x)
    ensures RoleOf(p, u).QueueTask?
    decreases |path|
  {
    var d, shorter := LastEdge(p.steps, path, u, x);
    var s := FindStep(p.steps, x).value;
    AncestorRanksLess(p.steps, rank, x, q);
    DependencyOfStep(p.steps, s, d);
    assert !IsMixed(p, s) by { assert s.id !in Mixed(p); }
    assert RoleOf(p, d).QueueTask?;
    if u != d {
      DependencyIsAncestor(p.steps, s, d);
      AncestorsChain(p.steps, d, x, q);
      AllQueueBelow(p, rank, q, shorter, u, d);
    }
  }

  /** Without a gate to wait for, or with all gates before it passed, a step whose queue
      ancestors have results does not stay unsent: everything else before it completes by
      itself. */
  lemma NothingHoldsIt(p: Plan, k: Walk, q: Step)
    requires WellFormed(p.steps) && IsQueueStep(p, q)
    requires k.gate.None? || forall u | Ancestor(p.steps, u, q.id) && RoleOf(p, u).Gate? :: u in k.flow.outputs
    requires forall s | s in p.steps :: Settled(p, k, s)
    requires forall u | Ancestor(p.steps, u, q.id) && RoleOf(p, u).QueueTask? :: u in k.flow.outputs
    ensures q.id in k.flow.outputs || q.id in k.flow.dispatched
  {
    var open := set x | x in Ids(p.steps) && x !in k.flow.outputs && (x == q.id || Ancestor(p.steps, x, q.id));
    if q.id !in k.flow.outputs && q.id !in k.flow.dispatched {
      assert q.id in open;
      forall x {:trigger HasDependencyIn(p.steps, open, x)} | x in open
        ensures HasDependencyIn(p.steps, open, x)
      {
        var s := FindStep(p.steps, x).value;
        assert Settled(p, k, s);
        StepIsFound(p, q);
        var d :| d in s.dependsOn && d !in k.flow.outputs;
        DependencyIsAncestor(p.steps, s, d);
        AncestorIsStep(p.steps, d, x);
        if x != q.id { AncestorsChain(p.steps, d, x, q.id); }
        assert DependsOn(p.steps, x, d);
      }
      var cycle := StuckSetHasCycle(p.steps, open, []);
      assert false;
    }
  }

  // ---------- the run that opens with a gap ----------

  /** A dependency that does not go through the queue is missing here. */
  ghost predicate Lacks(p: Plan, q: Step, outputs: map<StepId, Value>) {
    exists d :: d in q.dependsOn && !RoleOf(p, d).QueueTask? && d !in outputs
  }

  /** The step waits to be sent, all queue steps before it have results, and one of its other
      dependencies is not in the checkpoint. */
  ghost predicate Awaiting(s: Sys, p: Plan, q: Step) {
    && Live(s, p) && !RunOf(s, p).torn && (p.run in s.claimed || RunOf(s, p).status.Running?)
    && Unsent(p, s.store, Resumption(RunOf(s, p)), q) && AncestorsStored(p, s.store, q.id)
    && Lacks(p, q, Resumption(RunOf(s, p)).outputs)
  }

  ghost predicate OpensWithGap(s: Sys, p: Plan) {
    && Reachable(ACCEPT_ALL, s) && p.run in s.runs && s.runs[p.run].plan == p
    && NextSegment(s, p.run, Resumption(s.runs[p.run]))
    && !DownClosed(p, Opening(p, s.store, Resumption(s.runs[p.run])).outputs)
  }

  /** The step has been sent by a segment that died; its result arrives. */
  lemma GapOpens(s: Sys, p: Plan, q: Step, k: Key) returns (s': Sys)
    requires Live(s, p) && RunOf(s, p).status.Running? && Unsent(p, s.store, Resumption(RunOf(s, p)), q)
    requires k in s.fx.tasks && k.run == p.run && k.ref == q.id
    requires Lacks(p, q, Resumption(RunOf(s, p)).outputs)
    ensures OpensWithGap(s', p)
  {
    var flow := Resumption(RunOf(s, p));
    s' := Deliver(s, p, k, Null);
    var e := EnvelopeFor(k, Null);
    StoredStays(s.store, e, p.run, q.id);
    assert (s.store + [e])[..|s.store|] == s.store;
    LiveStoreOk(s', p);
    var d :| d in q.dependsOn && !RoleOf(p, d).QueueTask? && d !in flow.outputs;
    NonQueueIsFromCheckpoint(p, s'.store, flow, d);
    RefreshLaw(p.steps, p.run, s'.store, flow.outputs);
    assert Stored(s'.store, p.run, q.id) && q.id in Ids(p.steps);
    assert !DepsDone(q, Opening(p, s'.store, flow).outputs);
  }

  /** With all other dependencies complete the step would have been sent. */
  lemma UnsentLacks(p: Plan, k: Walk, q: Step)
    requires IsQueueStep(p, q) && Settled(p, k, q) && q.id !in k.flow.outputs && q.id !in k.flow.dispatched
    requires forall u | Ancestor(p.steps, u, q.id) && RoleOf(p, u).QueueTask? :: u in k.flow.outputs
    ensures Lacks(p, q, k.flow.outputs)
  {
    var d :| d in q.dependsOn && d !in k.flow.outputs;
    DependencyIsAncestor(p.steps, q, d);
  }

  /** A segment that goes through parks on a gate, and the step still waits to be sent. */
  lemma ParksBefore(p: Plan, w: World, store: seq<Envelope>, flow: Flow, q: Step)
    requires WellFormed(p.steps) && GatesAreUsable(p) && FailsAt(w, q.id) && Unsent(p, store, flow, q)
    requires AncestorsStored(p, store, q.id) && WalkOf(p, w, store, flow).halt.Going?
    ensures var seg := Drive(p, w, store, flow);
      && seg.outcome.Waits? && Usable(Some(seg.outcome.condition))
      && Unsent(p, store, seg.flow, q) && Lacks(p, q, seg.flow.outputs)
  {
    var k := WalkOf(p, w, store, flow);
    WalkFails(p, w, store, flow, q);
    LoopSettles(p, w, Walk(Opening(p, store, flow), None, true, [], Going));
    AncestorsAreIn(p, w, store, flow, q);
    UnsentLacks(p, k, q);
    if k.gate.None? {
      NothingHoldsIt(p, k, q);
      assert false;
    } else {
      ConcludesAtGate(p, w, store, flow);
    }
  }

  lemma ConcludesAtGate(p: Plan, w: World, store: seq<Envelope>, flow: Flow)
    requires GatesAreUsable(p)
    requires var k := WalkOf(p, w, store, flow); k.halt.Going? && k.gate.Some?
    ensures var seg, k := Drive(p, w, store, flow), WalkOf(p, w, store, flow);
      && seg.outcome.Waits? && Usable(Some(seg.outcome.condition))
      && seg.flow.outputs == k.flow.outputs && seg.flow.dispatched == k.flow.dispatched
  {
    DriveWalks(p, w, store, flow);
    var k := WalkOf(p, w, store, flow);
    assert Drive(p, w, store, flow) == Conclude(p, w.now, k);
    UsableExactly(p, w.now, k.gate.value, k.flow.outputs);
  }

  lemma AncestorsAreIn(p: Plan, w: World, store: seq<Envelope>, flow: Flow, q: Step)
    requires WellFormed(p.steps) && AncestorsStored(p, store, q.id)
    ensures forall u | Ancestor(p.steps, u, q.id) && RoleOf(p, u).QueueTask? ::
      u in WalkOf(p, w, store, flow).flow.outputs
  {
    DriveWalks(p, w, store, flow);
    RefreshLaw(p.steps, p.run, store, flow.outputs);
    forall u | Ancestor(p.steps, u, q.id) && RoleOf(p, u).QueueTask?
      ensures u in WalkOf(p, w, store, flow).flow.outputs
    {
      RoleIsStep(p, u);
      assert Stored(store, p.run, u);
    }
  }

  lemma TimePasses(s: Sys, d: nat)
    ensures Next(ACCEPT_ALL, s, Advance(d)) == s.(now := s.now + d)
    ensures Next(ACCEPT_ALL, s, PollTimers) == SweepFor(s, Clock(s.now))
  {
  }

  lemma TimeComes(s: Sys, id: RunId, i: nat) returns (s': Sys)
    requires Reachable(ACCEPT_ALL, s) && i < |s.wakes| && !s.wakes[i].fired && s.wakes[i].run == id
    requires s.wakes[i].condition.Timer? && s.wakes[i].condition.at.Some?
    ensures Reachable(ACCEPT_ALL, s') && id in s'.claimed
    ensures s'.runs == s.runs && s'.store == s.store && s'.fx == s.fx && s'.jobs == s.jobs
  {
    var at := s.wakes[i].condition.at.value;
    var d: nat := if at > s.now then at - s.now else 0;
    var s1 := s.(now := s.now + d);
    NextIsReachable(ACCEPT_ALL, s, Advance(d));
    TimePasses(s, d);
    NextIsReachable(ACCEPT_ALL, s1, PollTimers);
    TimePasses(s1, 0);
    s' := SweepFor(s1, Clock(s1.now));
    SweepClaimsIt(s1, Clock(s1.now), i);
  }

  /** A sweep that hits the entry claims its run. */
  lemma SweepClaimsIt(s: Sys, t: Trigger, i: nat)
    requires i < |s.wakes| && Claimable(t, s.wakes[i])
    ensures s.wakes[i].run in SweepFor(s, t).claimed
  {
    WokenIsWhatIsClaimed(s.wakes, t);
    assert s.wakes[i].run in Woken(s.wakes, t);
  }

  lemma EventComes(s: Sys, id: RunId, i: nat) returns (s': Sys)
    requires Reachable(ACCEPT_ALL, s) && i < |s.wakes| && !s.wakes[i].fired && s.wakes[i].run == id
    requires s.wakes[i].condition.ExternalEvent? && s.wakes[i].condition.key.Some?
    ensures Reachable(ACCEPT_ALL, s') && id in s'.claimed
    ensures s'.runs == s.runs && s'.store == s.store && s'.fx == s.fx && s'.jobs == s.jobs
  {
    var name := s.wakes[i].condition.key.value;
    NextIsReachable(ACCEPT_ALL, s, Signal(name));
    WokenIsWhatIsClaimed(s.wakes, Lifecycle.Event(name));
    assert Claimable(Lifecycle.Event(name), s.wakes[i]) && id in Woken(s.wakes, Lifecycle.Event(name));
    s' := Next(ACCEPT_ALL, s, Signal(name));
  }

  /** The entry a run waits for comes about: its event is signalled, or its time comes. */
  lemma Fires(s: Sys, id: RunId, i: nat) returns (s': Sys)
    requires Reachable(ACCEPT_ALL, s) && i < |s.wakes| && !s.wakes[i].fired && s.wakes[i].run == id
    requires Usable(Some(s.wakes[i].condition))
    ensures Reachable(ACCEPT_ALL, s') && id in s'.claimed
    ensures s'.runs == s.runs && s'.store == s.store && s'.fx == s.fx && s'.jobs == s.jobs
  {
    if s.wakes[i].condition.Timer? { s' := TimeComes(s, id, i); } else { s' := EventComes(s, id, i); }
  }

  /** What a segment that parks leaves of the system. */
  lemma ParkedIsLive(s: Sys, p: Plan, s0: Sys, seg: Segment)
    requires Live(s, p) && seg.outcome.Waits? && s0 == s.(claimed := s0.claimed)
    requires Reachable(ACCEPT_ALL, AfterSegment(s0, RunOf(s, p), seg, GoesThrough))
    ensures var s' := AfterSegment(s0, RunOf(s, p), seg, GoesThrough);
      && Live(s', p) && s'.store == s.store && Resumption(RunOf(s', p)) == seg.flow
      && |RunOf(s', p).parks| == |RunOf(s, p).parks| + 1 && RunOf(s', p).torn == RunOf(s, p).torn
      && s'.wakes == s.wakes + [Wake(p.run, seg.outcome.condition, false)]
  {
    PublishKeepsReplies(s.fx, seg.events);
  }

  lemma WokenIsLive(s: Sys, p: Plan, s': Sys)
    requires Live(s, p) && Reachable(ACCEPT_ALL, s')
    requires s'.runs == s.runs && s'.store == s.store && s'.fx == s.fx && s'.jobs == s.jobs
    ensures Live(s', p)
  {
  }

  /** The run parks on a gate, which then comes about. */
  lemma ParkAndWake(s: Sys, p: Plan, q: Step, w: World) returns (s': Sys)
    requires Awaiting(s, p, q) && GatesAreUsable(p) && FailsAt(w, q.id) && w.now == s.now
    requires WalkOf(p, w, s.store, Resumption(RunOf(s, p))).halt.Going?
    ensures Awaiting(s', p, q) && |RunOf(s', p).parks| == |RunOf(s, p).parks| + 1
  {
    var r := RunOf(s, p);
    var seg := Drive(p, w, s.store, Resumption(r));
    assert w.(now := s.now) == w;
    ParksBefore(p, w, s.store, Resumption(r), q);
    DrivesOn(s, p, w);
    var s1 := Next(ACCEPT_ALL, s, Drives(s, p, w));
    ParkedIsLive(s, p, if p.run in s.claimed then s.(claimed := s.claimed - multiset{p.run}) else s, seg);
    s' := Fires(s1, p.run, |s.wakes|);
    WokenIsLive(s1, p, s');
  }

  /** Gate after gate passes, until a segment sends the step and dies. */
  lemma {:induction false} DriveToGap(s: Sys, p: Plan, q: Step) returns (s': Sys)
    requires Awaiting(s, p, q) && GatesAreUsable(p)
    ensures OpensWithGap(s', p)
    decreases |p.steps| + 1 - |RunOf(s, p).parks|
  {
    var w := Dying(q.id, (x: StepId) => Null).(now := s.now);
    WalkFails(p, w, s.store, Resumption(RunOf(s, p)), q);
    if WalkOf(p, w, s.store, Resumption(RunOf(s, p))).halt.Going? {
      var s1 := ParkAndWake(s, p, q, w);
      ParksAtMostOncePerStep(ACCEPT_ALL, s1, p.run);
      s' := DriveToGap(s1, p, q);
    } else {
      var s1, seen := DieSending(s, p, q, w);
      s' := GapOpens(s1, p, q, KeyFor(p, q, seen));
    }
  }

  /** A workflow in which a queue step depends on a gate or on a step run in process has a run
      that opens a segment with a gap. */
  lemma GapIsReached(p: Plan) returns (s: Sys)
    requires ValidPlan(p) && GatesAreUsable(p) && !QueueOnQueue(p)
    ensures OpensWithGap(s, p)
  {
    var q := LowestMixed(p);
    var s1 := Prepared(p, q);
    s := DriveToGap(s1, p, q);
  }

  ghost predicate AlwaysOpensClosed(p: Plan) {
    forall s, flow | Reachable(ACCEPT_ALL, s) && NextSegment(s, p.run, flow) && s.runs[p.run].plan == p ::
      DownClosed(p, Opening(p, s.store, flow).outputs)
  }

  /** For every accepted workflow whose gates can come about: every segment of every run opens
      with a closed set, whatever crashes, if and only if queue steps depend on queue steps
      only. */
  lemma AlwaysOpensClosedExactly(p: Plan)
    requires ValidPlan(p) && GatesAreUsable(p)
    ensures AlwaysOpensClosed(p) <==> QueueOnQueue(p)
  {
    if QueueOnQueue(p) {
      forall s, flow | Reachable(ACCEPT_ALL, s) && NextSegment(s, p.run, flow) && s.runs[p.run].plan == p
        ensures DownClosed(p, Opening(p, s.store, flow).outputs)
      { QueueOnQueueOpensClosed(ACCEPT_ALL, s, p.run, flow); }
    } else {
      var s := GapIsReached(p);
    }
  }
}
