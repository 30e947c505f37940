/** Runs that park again and again: a death after a wake entry leaves an entry that wakes the run
    while it waits for something else. With the module Parking this gives the workflows whose
    runs keep the bound on parks, exactly. */
module Straying {
  import opened Base
  import opened Definition
  import opened Lifecycle
  import opened Executor
  import opened ExecutorLaws
  import opened Provenance
  import opened Workers
  import opened Protocol
  import opened Control
  import opened Guarantees
  import opened Replay
  import opened Gaps
  import opened Resending
  import opened Deaths
  import opened Parking

  // ---------- segments without faults ----------

  /** The two find the same outside, but for the clock and the closing. */
  ghost predicate SameOutside(w: World, w': World) {
    forall x :: w.granted(x) == w'.granted(x) && w.fault(x) == w'.fault(x) && w.reply(x) == w'.reply(x)
  }

  lemma {:induction false} SameSweep(p: Plan, w: World, w': World, k: Walk, i: nat)
    requires SameOutside(w, w') && i <= |p.steps|
    ensures Sweep(p, w, k, i) == Sweep(p, w', k, i)
    decreases |p.steps| - i
  {
    if i < |p.steps| { SameSweep(p, w, w', Visit(p, w, k, p.steps[i]), i + 1); }
  }

  lemma {:induction false} SameLoop(p: Plan, w: World, w': World, k: Walk)
    requires SameOutside(w, w')
    ensures Loop(p, w, k) == Loop(p, w', k)
    decreases |Pending(p.steps, k.flow.outputs)|
  {
    var k' := Sweep(p, w, k.(progressed := false), 0);
    SameSweep(p, w, w', k.(progressed := false), 0);
    SweepShrinks(p, w, k.(progressed := false), 0);
    if k'.halt.Going? && k'.progressed { SameLoop(p, w, w', k'); }
  }

  const CALM := Calm(GoesThrough)

  /** The walk of a segment without faults. */
  function CalmWalk(p: Plan, store: seq<Envelope>, flow: Flow): Walk {
    WalkOf(p, CALM, store, flow)
  }

  lemma CalmWalkIs(p: Plan, closing: Closing, now: int, store: seq<Envelope>, flow: Flow)
    ensures WalkOf(p, Calm(closing).(now := now), store, flow) == CalmWalk(p, store, flow)
  {
    SameLoop(p, Calm(closing).(now := now), CALM, Walk(Opening(p, store, flow), None, true, [], Going));
  }

  /** The join a walk without a gate to wait for parks on. */
  function JoinOf(p: Plan, k: Walk): Option<StepId> {
    FirstIn(PendingIds(p.steps, k.flow.outputs), k.flow.dispatched)
  }

  /** The checkpoint it leaves. */
  function ParkFlow(k: Walk): Flow {
    if k.gate.Some? then k.flow.(gatesWaited := k.flow.gatesWaited + [k.gate.value.id]) else k.flow
  }

  /** The segment parks as its walk tells, on a gate that can come about or on a join. */
  ghost predicate IsCalmPark(p: Plan, now: int, seg: Segment, k: Walk) {
    && seg.outcome.Waits? && ParkedOn(p, now, seg.flow, seg.outcome.on, seg.outcome.condition)
    && (seg.outcome.condition.ResultsReady? <==> k.gate.None?)
    && (!seg.outcome.condition.ResultsReady? ==> Usable(Some(seg.outcome.condition)))
    && (seg.outcome.condition.ResultsReady? ==>
          JoinOf(p, k) == Some(seg.outcome.on) && seg.outcome.condition == ResultsReady(Some(seg.outcome.on), 1))
    && seg.flow == ParkFlow(k)
  }

  /** With a queue step unanswered a segment without faults parks. */
  lemma CalmParks(p: Plan, closing: Closing, now: int, store: seq<Envelope>, flow: Flow, x: Step)
    requires ValidPlan(p) && GatesAreUsable(p) && FlowFits(p, flow)
    requires IsQueueStep(p, x) && !Stored(store, p.run, x.id) && x.id !in flow.outputs
    ensures IsCalmPark(p, now, Drive(p, Calm(closing).(now := now), store, flow), CalmWalk(p, store, flow))
  {
    var w := Calm(closing).(now := now);
    CalmWalkIs(p, closing, now, store, flow);
    CalmEnds(p, w, store, flow);
    DriveEnds(p, w, store, flow);
    UnstoredStaysOpen(p, w, store, flow, x);
    if CalmWalk(p, store, flow).gate.Some? { ConcludesAtGate(p, w, store, flow); }
    CalmWalks(p, w, store, flow);
    assert Drive(p, w, store, flow) == Conclude(p, now, WalkOf(p, w, store, flow));
  }

  /** The run parks once more, or dies after the wake entry. */
  ghost predicate ParksOnce(s: Sys, s': Sys, p: Plan, closing: Closing, pk: Park, c: WakeCondition)
    requires p.run in s.runs && p.run in s'.runs
  {
    && s'.store == s.store && s'.wakes == s.wakes + [Wake(p.run, c, false)]
    && s'.claimed == s.claimed - multiset{p.run} && Resumption(RunOf(s', p)) == pk.flow
    && pk.wake == |s.wakes| && ParkedOn(p, pk.at, pk.flow, pk.step, c)
    && (if closing.GoesThrough? then
          RunOf(s', p).status.Waiting? && RunOf(s', p).parks == RunOf(s, p).parks + [pk]
          && RunOf(s', p).torn == RunOf(s, p).torn
        else RunOf(s', p).status.Running? && RunOf(s', p).parks == RunOf(s, p).parks)
  }

  /** What the run goes on from: a checkpoint, with a queue step unanswered, and a message for
      every step recorded as dispatched. */
  ghost predicate Drivable(s: Sys, p: Plan, x: Step) {
    && Live(s, p) && (p.run in s.claimed || RunOf(s, p).status.Running?)
    && Unanswered(s, p, x)
  }

  ghost predicate Unanswered(s: Sys, p: Plan, x: Step)
    requires p.run in s.runs
  {
    && IsQueueStep(p, x) && !Stored(s.store, p.run, x.id)
    && forall id | id in Resumption(RunOf(s, p)).dispatched :: HasTask(s.fx.tasks, p.run, id)
  }

  lemma LiveFits(s: Sys, p: Plan)
    requires Live(s, p)
    ensures FlowFits(p, Resumption(RunOf(s, p))) && EffectsOk(s.fx)
  {
    LiveIsSound(s, p);
    ResumptionFits(RunOf(s, p));
  }

  lemma UnansweredIsOpen(s: Sys, p: Plan, x: Step)
    requires Live(s, p) && Unanswered(s, p, x)
    ensures x.id !in Resumption(RunOf(s, p)).outputs
  {
    StepIsFound(p, x);
    LiveHasData(s, p);
    RecordedIsStored(RunOf(s, p), s.wakes, s.store, x.id);
  }

  lemma NextIsCalm(s: Sys, p: Plan, x: Step, closing: Closing)
    requires Drivable(s, p, x) && GatesAreUsable(p)
    ensures var flow := Resumption(RunOf(s, p));
      IsCalmPark(p, s.now, Drive(p, Calm(closing).(now := s.now), s.store, flow), CalmWalk(p, s.store, flow))
    ensures EffectsOk(s.fx)
  {
    LiveFits(s, p);
    UnansweredIsOpen(s, p, x);
    CalmParks(p, closing, s.now, s.store, Resumption(RunOf(s, p)), x);
  }

  lemma OneSegment(s: Sys, p: Plan, x: Step, closing: Closing) returns (s': Sys, pk: Park, c: WakeCondition)
    requires Drivable(s, p, x) && GatesAreUsable(p) && (closing.GoesThrough? || closing.DiesAfterSchedule?)
    ensures Live(s', p) && Unanswered(s', p, x) && ParksOnce(s, s', p, closing, pk, c)
    ensures s' == Next(ACCEPT_ALL, s, Drives(s, p, Calm(closing)))
    ensures var k := CalmWalk(p, s.store, Resumption(RunOf(s, p)));
      && (c.ResultsReady? <==> k.gate.None?) && (!c.ResultsReady? ==> Usable(Some(c)))
      && (c.ResultsReady? ==> JoinOf(p, k) == Some(pk.step) && c == ResultsReady(Some(pk.step), 1))
      && pk.flow == ParkFlow(k)
  {
    var flow, s0 := Resumption(RunOf(s, p)), s.(claimed := s.claimed - multiset{p.run});
    var w := Calm(closing).(now := s.now);
    var seg := Drive(p, w, s.store, flow);
    NextIsCalm(s, p, x, closing);
    NextIsAfter(s, p, closing);
    s' := Next(ACCEPT_ALL, s, Drives(s, p, Calm(closing)));
    WaitingIsLive(s, p, s0, seg, closing);
    DispatchedHaveTasks(p, w, s.store, flow, s.fx);
    pk, c := Park(seg.outcome.on, |s.wakes|, s.now, seg.flow), seg.outcome.condition;
    AfterParks(s, p, s0, seg, closing, pk);
  }

  lemma NextIsAfter(s: Sys, p: Plan, closing: Closing)
    requires Live(s, p) && (p.run in s.claimed || RunOf(s, p).status.Running?) && !closing.DiesAtOnce?
    ensures Next(ACCEPT_ALL, s, Drives(s, p, Calm(closing)))
      == AfterSegment(s.(claimed := s.claimed - multiset{p.run}), RunOf(s, p),
                      Drive(p, Calm(closing).(now := s.now), s.store, Resumption(RunOf(s, p))), closing)
    ensures Reachable(ACCEPT_ALL, Next(ACCEPT_ALL, s, Drives(s, p, Calm(closing))))
  {
    DrivesOn(s, p, Calm(closing));
    if p.run !in s.claimed { assert s.claimed - multiset{p.run} == s.claimed; }
  }

  lemma WaitingIsLive(s: Sys, p: Plan, s0: Sys, seg: Segment, closing: Closing)
    requires Live(s, p) && seg.outcome.Waits? && s0 == s.(claimed := s0.claimed)
    requires Reachable(ACCEPT_ALL, AfterSegment(s0, RunOf(s, p), seg, closing))
    ensures Live(AfterSegment(s0, RunOf(s, p), seg, closing), p)
  {
    PublishKeepsReplies(s.fx, seg.events);
  }

  lemma AfterParks(s: Sys, p: Plan, s0: Sys, seg: Segment, closing: Closing, pk: Park)
    requires p.run in s.runs && RunOf(s, p).plan == p && seg.outcome.Waits?
    requires s0 == s.(claimed := s.claimed - multiset{p.run}) && (closing.GoesThrough? || closing.DiesAfterSchedule?)
    requires pk == Park(seg.outcome.on, |s.wakes|, s.now, seg.flow)
    requires ParkedOn(p, s.now, seg.flow, seg.outcome.on, seg.outcome.condition)
    ensures ParksOnce(s, AfterSegment(s0, RunOf(s, p), seg, closing), p, closing, pk, seg.outcome.condition)
  {
  }

  // ---------- the entry of a gate ----------

  ghost predicate Overparks(s: Sys, p: Plan) {
    Reachable(ACCEPT_ALL, s) && p.run in s.runs && s.runs[p.run].plan == p && !ParksBounded(s.runs[p.run])
  }

  /** A gate the run parks on comes about, and the run goes on. */
  lemma GateComes(s: Sys, p: Plan, x: Step, i: nat) returns (s': Sys)
    requires Live(s, p) && Unanswered(s, p, x) && i < |s.wakes| && !s.wakes[i].fired && s.wakes[i].run == p.run
    requires Usable(Some(s.wakes[i].condition))
    ensures Drivable(s', p, x) && p.run in s'.claimed && s'.runs == s.runs && s'.store == s.store
  {
    s' := Fires(s, p.run, i);
    WokenIsLive(s, p, s');
  }

  function WalkAt(s: Sys, p: Plan): Walk
    requires p.run in s.runs
  {
    CalmWalk(p, s.store, Resumption(RunOf(s, p)))
  }

  /** The run comes to the last gate before it waits for a join. */
  lemma {:induction false} ComesToLastGate(s: Sys, p: Plan, x: Step) returns (s': Sys)
    requires Drivable(s, p, x) && GatesAreUsable(p) && !RunOf(s, p).torn && WalkAt(s, p).gate.Some?
    ensures Drivable(s', p, x) && WalkAt(s', p).gate.Some?
    ensures CalmWalk(p, s'.store, ParkFlow(WalkAt(s', p))).gate.None?
    decreases |p.steps| + 1 - |RunOf(s, p).parks|
  {
    if CalmWalk(p, s.store, ParkFlow(WalkAt(s, p))).gate.None? {
      s' := s;
    } else {
      var s1, pk, c := OneSegment(s, p, x, GoesThrough);
      var s2 := GateComes(s1, p, x, |s.wakes|);
      ParksAtMostOncePerStep(ACCEPT_ALL, s2, p.run);
      s' := ComesToLastGate(s2, p, x);
    }
  }

  /** A join the run parks on has no result, so another segment does not complete it. */
  lemma JoinStaysOpen(p: Plan, store: seq<Envelope>, flow: Flow, on: StepId, at: int, c: WakeCondition)
    requires ValidPlan(p) && c.ResultsReady? && CalmWalk(p, store, flow).gate.None?
    requires ParkedOn(p, at, CalmWalk(p, store, flow).flow, on, c)
    ensures on !in CalmWalk(p, store, CalmWalk(p, store, flow).flow).flow.outputs
  {
    var k := CalmWalk(p, store, flow);
    var t :| t in p.steps && t.id == on && AwaitedBy(p, at, k.flow, t, c);
    DriveWalks(p, CALM, store, flow);
    RefreshLaw(p.steps, p.run, store, flow.outputs);
    assert on in Ids(p.steps);
    UnstoredStaysOpen(p, CALM, store, k.flow, t);
    assert Drive(p, CALM, store, k.flow) == Conclude(p, CALM.now, CalmWalk(p, store, k.flow));
  }

  /** The run dies after the wake entry of that gate, and then waits for a join, which another
      segment would not complete. */
  lemma StraysAtGate(s: Sys, p: Plan, x: Step) returns (s': Sys, i: nat, parks: seq<Park>, pk: Park)
    requires Drivable(s, p, x) && GatesAreUsable(p) && WalkAt(s, p).gate.Some?
    requires CalmWalk(p, s.store, ParkFlow(WalkAt(s, p))).gate.None?
    ensures Live(s', p) && Unanswered(s', p, x) && RunOf(s', p).parks == parks + [pk]
    ensures i < |s'.wakes| && !s'.wakes[i].fired && s'.wakes[i].run == p.run && Usable(Some(s'.wakes[i].condition))
    ensures pk.step !in WalkAt(s', p).flow.outputs
  {
    var s1 := DiesAtGate(s, p, x);
    var c;
    s', pk, c := OneSegment(s1, p, x, GoesThrough);
    JoinStaysOpen(p, s1.store, Resumption(RunOf(s1, p)), pk.step, pk.at, c);
    i, parks := |s.wakes|, RunOf(s1, p).parks;
  }

  /** The death at the last gate: it leaves the entry of the gate, and a checkpoint from which the
      run comes to a join. */
  lemma DiesAtGate(s: Sys, p: Plan, x: Step) returns (s': Sys)
    requires Drivable(s, p, x) && GatesAreUsable(p) && WalkAt(s, p).gate.Some?
    requires CalmWalk(p, s.store, ParkFlow(WalkAt(s, p))).gate.None?
    ensures Drivable(s', p, x) && WalkAt(s', p).gate.None? && |s'.wakes| == |s.wakes| + 1
    ensures var entry := s'.wakes[|s.wakes|];
      !entry.fired && entry.run == p.run && Usable(Some(entry.condition))
  {
    var pk, c;
    s', pk, c := OneSegment(s, p, x, DiesAfterSchedule);
  }

  /** The gate comes about, and the run parks again without the join. */
  lemma GateStrays(s: Sys, p: Plan, x: Step) returns (s': Sys)
    requires Drivable(s, p, x) && GatesAreUsable(p) && !RunOf(s, p).torn && WalkAt(s, p).gate.Some?
    ensures Overparks(s', p)
  {
    var s1 := ComesToLastGate(s, p, x);
    var s2, i, parks, pk := StraysAtGate(s1, p, x);
    var s3 := GateComes(s2, p, x, i);
    var pk', c';
    s', pk', c' := OneSegment(s3, p, x, GoesThrough);
    ParksTwice(parks + [pk] + [pk'], |parks|);
  }

  lemma ParksTwice(parks: seq<Park>, i: nat)
    requires i + 1 < |parks| && parks[i].step !in parks[i + 1].flow.outputs
    ensures !ParksGrow(parks)
  {
    assert !Grows(parks[i], parks[i + 1]);
  }

  // ---------- the entries of a join ----------

  /** The walk has nothing to do but what was done. */
  ghost predicate Still(a: Walk, b: Walk) {
    && b.flow.outputs == a.flow.outputs && b.flow.dispatched == a.flow.dispatched
    && b.flow.gatesWaited == a.flow.gatesWaited && b.gate.None? && b.halt.Going? && !b.progressed
  }

  lemma VisitIsStill(p: Plan, k: Walk, b: Walk, s: Step)
    requires k.gate.None? && Settled(p, k, s) && Still(k, b)
    ensures Still(k, Visit(p, CALM, b, s))
  {
  }

  lemma {:induction false} SweepIsStill(p: Plan, k: Walk, b: Walk, i: nat)
    requires i <= |p.steps| && k.gate.None? && (forall s | s in p.steps :: Settled(p, k, s)) && Still(k, b)
    ensures Still(k, Sweep(p, CALM, b, i))
    decreases |p.steps| - i
  {
    if i < |p.steps| {
      VisitIsStill(p, k, b, p.steps[i]);
      SweepIsStill(p, k, Visit(p, CALM, b, p.steps[i]), i + 1);
    }
  }

  lemma OpensAsItWas(p: Plan, store: seq<Envelope>, flow: Flow)
    ensures Opening(p, store, CalmWalk(p, store, flow).flow) == CalmWalk(p, store, flow).flow
  {
    var k := CalmWalk(p, store, flow);
    DriveWalks(p, CALM, store, flow);
    RefreshLaw(p.steps, p.run, store, flow.outputs);
    RefreshLaw(p.steps, p.run, store, k.flow.outputs);
    assert Refresh(p.steps, p.run, store, k.flow.outputs) == k.flow.outputs;
  }

  /** From the checkpoint of a join the run comes to the same join, with nothing new. */
  lemma SameJoin(p: Plan, store: seq<Envelope>, flow: Flow)
    requires ValidPlan(p) && CalmWalk(p, store, flow).gate.None?
    ensures var k, k' := CalmWalk(p, store, flow), CalmWalk(p, store, CalmWalk(p, store, flow).flow);
      k'.gate.None? && JoinOf(p, k') == JoinOf(p, k) && k'.flow.dispatched == k.flow.dispatched
  {
    var k := CalmWalk(p, store, flow);
    CalmWalks(p, CALM, store, flow);
    LoopSettles(p, CALM, Walk(Opening(p, store, flow), None, true, [], Going));
    OpensAsItWas(p, store, flow);
    SweepIsStill(p, k, Walk(k.flow, None, false, [], Going), 0);
  }

  function JoinEntry(run: RunId, z: StepId): Wake { Wake(run, ResultsReady(Some(z), 1), false) }

  ghost predicate AllJoins(wakes: seq<Wake>, run: RunId, z: StepId) {
    forall i | 0 <= i < |wakes| :: wakes[i] == JoinEntry(run, z)
  }

  /** The next segment waits for this join. */
  ghost predicate AtJoin(s: Sys, p: Plan, x: Step, z: StepId) {
    && Drivable(s, p, x) && RunOf(s, p).status.Running? && AllJoins(s.wakes, p.run, z)
    && WalkAt(s, p).gate.None? && JoinOf(p, WalkAt(s, p)) == Some(z)
  }

  lemma DiesAtJoin(s: Sys, p: Plan, x: Step, z: StepId) returns (s': Sys)
    requires AtJoin(s, p, x, z) && GatesAreUsable(p)
    ensures AtJoin(s', p, x, z) && |s'.wakes| == |s.wakes| + 1 && s'.store == s.store
    ensures HasTask(s'.fx.tasks, p.run, z)
  {
    var pk, c;
    s', pk, c := OneSegment(s, p, x, DiesAfterSchedule);
    SameJoin(p, s.store, Resumption(RunOf(s, p)));
    FirstInLaw(PendingIds(p.steps, WalkAt(s, p).flow.outputs), WalkAt(s, p).flow.dispatched);
  }

  /** Death after death leaves entry after entry for one join. */
  lemma {:induction false} ManyEntries(s: Sys, p: Plan, x: Step, z: StepId, n: nat) returns (s': Sys)
    requires AtJoin(s, p, x, z) && GatesAreUsable(p)
    ensures AtJoin(s', p, x, z) && |s'.wakes| == |s.wakes| + n && s'.store == s.store
    ensures n > 0 ==> HasTask(s'.fx.tasks, p.run, z)
  {
    if n == 0 {
      s' := s;
    } else {
      var s1 := ManyEntries(s, p, x, z, n - 1);
      s' := DiesAtJoin(s1, p, x, z);
    }
  }

  lemma {:induction false} AllWoken(wakes: seq<Wake>, run: RunId, z: StepId, store: seq<Envelope>)
    requires AllJoins(wakes, run, z) && Stored(store, run, z)
    ensures multiset(Woken(wakes, Joins(Some(store))))[run] == |wakes|
  {
    if wakes != [] {
      var n := |wakes| - 1;
      AllWoken(wakes[..n], run, z, store);
      assert Claimable(Joins(Some(store)), wakes[n]);
    }
  }

  /** One result claims the run once for each entry. */
  lemma ManyClaims(s: Sys, p: Plan, x: Step, z: StepId) returns (s': Sys)
    requires AtJoin(s, p, x, z) && s.store == [] && HasTask(s.fx.tasks, p.run, z)
    ensures Live(s', p) && s'.claimed[p.run] >= |s.wakes| && (x.id != z ==> Unanswered(s', p, x))
  {
    NothingStored(p.run);
    var k :| k in s.fx.tasks && k.run == p.run && k.ref == z;
    var s1 := Deliver(s, p, k, Null);
    var e := EnvelopeFor(k, Null);
    assert s1.store[|s.store|] == e;
    StoredStays([], e, p.run, x.id);
    NewIsStored(e);
    AllWoken(s1.wakes, p.run, z, s1.store);
    NextIsReachable(ACCEPT_ALL, s1, PollJoins);
    PollIsSweep(ACCEPT_ALL, s1);
    s' := Next(ACCEPT_ALL, s1, PollJoins);
  }

  lemma NewIsStored(e: Envelope)
    ensures Stored([e], e.run, e.stepRef)
  {
    assert [e][..0] == [];
  }

  /** Claim after claim resumes the run, and each time it parks again. */
  lemma {:induction false} ParksOn(s: Sys, p: Plan, x: Step, n: nat) returns (s': Sys)
    requires Live(s, p) && Unanswered(s, p, x) && GatesAreUsable(p) && s.claimed[p.run] >= n
    ensures Live(s', p) && |RunOf(s', p).parks| == |RunOf(s, p).parks| + n
    decreases n
  {
    if n == 0 {
      s' := s;
    } else {
      var s1, pk, c := OneSegment(s, p, x, GoesThrough);
      s' := ParksOn(s1, p, x, n - 1);
    }
  }

  lemma JoinStrays(s: Sys, p: Plan, x: Step, z: StepId) returns (s': Sys)
    requires AtJoin(s, p, x, z) && GatesAreUsable(p) && s.store == [] && x.id != z
    ensures Overparks(s', p)
  {
    var n := |p.steps| + 1;
    var s1 := ManyEntries(s, p, x, z, n);
    var s2 := ManyClaims(s1, p, x, z);
    s' := ParksOn(s2, p, x, n);
  }

  // ---------- by the definition ----------

  lemma CreatedIsDrivable(p: Plan, x: Step) returns (s: Sys)
    requires ValidPlan(p) && IsQueueStep(p, x)
    ensures Drivable(s, p, x) && RunOf(s, p).status.Running? && !RunOf(s, p).torn
    ensures s.store == [] && s.wakes == [] && Resumption(RunOf(s, p)) == FRESH_FLOW
  {
    s := Created(p);
    NothingStored(p.run);
  }

  /** With a queue step to wait for and no gate in the way the run comes to a join first. */
  lemma ComesToJoin(p: Plan, x: Step) returns (s: Sys, z: StepId)
    requires ValidPlan(p) && GatesAreUsable(p) && IsQueueStep(p, x)
    requires CalmWalk(p, [], FRESH_FLOW).gate.None?
    ensures AtJoin(s, p, x, z) && s.store == [] && s.wakes == []
  {
    s := CreatedIsDrivable(p, x);
    var s1, pk, c := OneSegment(s, p, x, GoesThrough);
    z := pk.step;
  }

  /** No queue step comes before the gate. */
  ghost predicate NoJoinBefore(p: Plan, g: StepId) {
    forall u | Ancestor(p.steps, u, g) :: !RoleOf(p, u).QueueTask?
  }

  lemma GateComesFirst(p: Plan, y: Step)
    requires ValidPlan(p) && y in p.steps && y.kind.GateStep? && NoJoinBefore(p, y.id)
    ensures CalmWalk(p, [], FRESH_FLOW).gate.Some?
  {
    var g := LowestGateUpTo(p, y);
    NothingStored(p.run);
    GateIsReached(p, CALM, [], g);
  }

  /** A lowest gate among those before this one and itself. */
  lemma LowestGateUpTo(p: Plan, y: Step) returns (g: Step)
    requires WellFormed(p.steps) && y in p.steps && y.kind.GateStep? && NoJoinBefore(p, y.id)
    ensures g in p.steps && g.kind.GateStep? && NoGateBefore(p, g.id) && NoJoinBefore(p, g.id)
  {
    var rank := HasRank(p.steps);
    StepIsFound(p, y);
    var gates := set u | u in Ids(p.steps) && RoleOf(p, u).Gate? && (u == y.id || Ancestor(p.steps, u, y.id));
    assert y.id in gates;
    var id := Lowest(rank, gates);
    g := FindStep(p.steps, id).value;
    forall u | Ancestor(p.steps, u, id)
      ensures Ancestor(p.steps, u, y.id)
    { if id != y.id { AncestorsChain(p.steps, u, id, y.id); } }
    forall u | Ancestor(p.steps, u, id) && RoleOf(p, u).Gate?
      ensures u in gates
    { RoleIsStep(p, u); }
    forall u | Ancestor(p.steps, u, id)
      ensures !RoleOf(p, u).Gate?
    { AncestorRanksLess(p.steps, rank, u, id); }
  }

  /** A workflow that is not of that kind, and in which the run comes to a join first, has
      another queue step. */
  lemma AnotherQueueStep(p: Plan, z: StepId) returns (x: Step)
    requires ValidPlan(p) && !JoinComesFirst(p) && CalmWalk(p, [], FRESH_FLOW).gate.None?
    ensures IsQueueStep(p, x) && x.id != z
  {
    var x0, y :| IsQueueStep(p, x0) && ParksAt(p, y) && y.id != x0.id && !Ancestor(p.steps, x0.id, y.id);
    if x0.id != z {
      x := x0;
    } else if IsQueueStep(p, y) {
      x := y;
    } else {
      x := JoinBeforeGate(p, y);
    }
  }

  lemma JoinBeforeGate(p: Plan, y: Step) returns (x: Step)
    requires ValidPlan(p) && y in p.steps && y.kind.GateStep? && CalmWalk(p, [], FRESH_FLOW).gate.None?
    ensures IsQueueStep(p, x) && Ancestor(p.steps, x.id, y.id)
  {
    if NoJoinBefore(p, y.id) {
      GateComesFirst(p, y);
      assert false;
    }
    var u :| Ancestor(p.steps, u, y.id) && RoleOf(p, u).QueueTask?;
    x := FindStep(p.steps, u).value;
  }

  /** A workflow that is not of that kind has a run that breaks the bound. */
  lemma BoundIsBroken(p: Plan) returns (s: Sys)
    requires ValidPlan(p) && GatesAreUsable(p) && !JoinComesFirst(p)
    ensures Overparks(s, p)
  {
    var x0, y0 :| IsQueueStep(p, x0) && ParksAt(p, y0) && y0.id != x0.id && !Ancestor(p.steps, x0.id, y0.id);
    if CalmWalk(p, [], FRESH_FLOW).gate.Some? {
      var s0 := CreatedIsDrivable(p, x0);
      s := GateStrays(s0, p, x0);
    } else {
      var s0, z := ComesToJoin(p, x0);
      var x := AnotherQueueStep(p, z);
      NothingStored(p.run);
      s := JoinStrays(s0, p, x, z);
    }
  }

  ghost predicate AlwaysBounded(p: Plan) {
    forall s | Reachable(ACCEPT_ALL, s) && p.run in s.runs && s.runs[p.run].plan == p :: ParksBounded(s.runs[p.run])
  }

  /** For every accepted workflow whose gates can come about: every run parks at most as often as
      there are steps, completing from park to park what it was parked on, whatever dies, if and
      only if every queue step comes before all other steps the run can park on. */
  lemma ParksBoundedExactly(p: Plan)
    requires ValidPlan(p) && GatesAreUsable(p)
    ensures AlwaysBounded(p) <==> JoinComesFirst(p)
  {
    if JoinComesFirst(p) {
      forall s | Reachable(ACCEPT_ALL, s) && p.run in s.runs && s.runs[p.run].plan == p
        ensures ParksBounded(s.runs[p.run])
      { JoinFirstIsBounded(ACCEPT_ALL, s, p.run); }
    } else {
      var s := BoundIsBroken(p);
    }
  }

  /** A workflow with a queue step, every gate of which comes after one, has a run that is claimed
      at once as often as one likes. */
  lemma ClaimedAnyNumber(p: Plan, x: Step, n: nat) returns (s: Sys)
    requires ValidPlan(p) && GatesAreUsable(p) && IsQueueStep(p, x)
    requires forall g | g in p.steps && g.kind.GateStep? :: !NoJoinBefore(p, g.id)
    ensures Reachable(ACCEPT_ALL, s) && p.run in s.runs && s.runs[p.run].plan == p && s.claimed[p.run] >= n
  {
    JoinIsFirst(p);
    var s0, z := ComesToJoin(p, x);
    var s1 := ManyEntries(s0, p, x, z, n + 1);
    s := ManyClaims(s1, p, x, z);
  }

  lemma JoinIsFirst(p: Plan)
    requires ValidPlan(p) && forall g | g in p.steps && g.kind.GateStep? :: !NoJoinBefore(p, g.id)
    ensures CalmWalk(p, [], FRESH_FLOW).gate.None?
  {
    var k := CalmWalk(p, [], FRESH_FLOW);
    DriveWalks(p, CALM, [], FRESH_FLOW);
    NothingStored(p.run);
    SegmentOutputsOk(p, CALM, [], FRESH_FLOW, {});
    assert Drive(p, CALM, [], FRESH_FLOW).flow.outputs == k.flow.outputs;
    if k.gate.Some? { DependenciesStored(p, [], {}, k.flow.outputs, k.gate.value); }
  }
}
