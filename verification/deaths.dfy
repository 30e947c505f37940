/** What a death inside a park does: the promises about gates and wakes that it breaks, and the
    workflows for which it cannot. */
module Deaths {
  import opened Base
  import opened Definition
  import opened Lifecycle
  import opened Executor
  import opened ExecutorLaws
  import opened Provenance
  import opened Protocol
  import opened Control
  import opened Settling
  import opened Guarantees
  import opened Replay
  import opened Gaps

  // ---------- one death ----------

  /** The driver dies inside the park, before or after the wake entry. */
  predicate DiesInPark(closing: Closing) { closing.DiesAfterSave? || closing.DiesAfterSchedule? }

  /** What a death inside a park leaves of the run and its entries. */
  lemma DiedInPark(s: Sys, r: Run, seg: Segment, closing: Closing)
    requires seg.outcome.Waits? && DiesInPark(closing)
    ensures var s1 := AfterSegment(s, r, seg, closing);
      var r1 := s1.runs[r.plan.run];
      && r1.plan == r.plan && r1.status.Running? && r1.saved == Some(seg.flow)
      && r1.parks == r.parks && r1.done == r.done && r1.cancel == r.cancel
      && s1.store == s.store && s1.now == s.now && s1.signals == s.signals
      && (closing.DiesAfterSave? ==>
            s1.wakes == s.wakes && r1.torn == r.torn
            && (!seg.outcome.condition.ResultsReady? ==> seg.outcome.on in r1.skipped))
      && (closing.DiesAfterSchedule? ==>
            r1.torn && s1.wakes == s.wakes + [Wake(r.plan.run, seg.outcome.condition, false)])
  {
  }

  /** The run dies inside a park on a gate, and the next segment passes the gate nevertheless:
      after a death at the checkpoint without any entry for it, after a death at the entry with
      the entry still unfired. */
  lemma DeathPassesGate(s: Sys, r: Run, flow: Flow, w: World, again: World)
    requires Ready(r, flow, s.wakes) && !r.done && !r.cancel && DiesInPark(w.closing) && again.closing.GoesThrough?
    requires var seg := SegmentOf(s, r, flow, w); seg.outcome.Waits? && !seg.outcome.condition.ResultsReady?
    ensures var s1 := Driven(s, r, flow, w);
      var s2 := Driven(s1, s1.runs[r.plan.run], Resumption(s1.runs[r.plan.run]), again);
      var r2 := s2.runs[r.plan.run];
      && (r2.status.Waiting? || r2.status.Completed? ==>
            r2.saved.Some? && SegmentOf(s, r, flow, w).outcome.on in r2.saved.value.outputs)
      && (w.closing.DiesAfterSave? ==> s1.wakes == s.wakes)
      && (w.closing.DiesAfterSchedule? ==>
            |s1.wakes| == |s.wakes| + 1 && !s2.wakes[|s.wakes|].fired && s2.wakes[|s.wakes|].run == r.plan.run)
  {
    var p, seg := r.plan, SegmentOf(s, r, flow, w);
    DiedInPark(s, r, seg, w.closing);
    var s1 := AfterSegment(s, r, seg, w.closing);
    ResumptionFits(r);
    DriveEnds(p, w.(now := s.now), s.store, flow);
    WakeMakesProgress(p, again.(now := s.now), s.store, seg.flow, seg.outcome.on, seg.outcome.condition, s.now);
    AfterRecords(s1, s1.runs[p.run], Drive(p, again.(now := s.now), s.store, seg.flow));
  }

  lemma AfterRecords(s: Sys, r: Run, seg: Segment)
    ensures var s' := AfterSegment(s, r, seg, GoesThrough);
      var r' := s'.runs[r.plan.run];
      && s.wakes <= s'.wakes && s'.signals == s.signals && r.skipped <= r'.skipped && r'.plan == r.plan
      && (forall i | |s.wakes| <= i < |s'.wakes| :: !s'.wakes[i].fired)
      && (seg.outcome.Waits? || seg.outcome.Finished? ==> r'.saved == Some(seg.flow))
      && (seg.outcome.Waits? ==> r'.status.Waiting?) && (seg.outcome.Finished? ==> r'.status.Completed?)
      && (r'.status.Waiting? && !r.status.Waiting? ==> seg.outcome.Waits?)
      && (r'.status.Completed? && !r.status.Completed? ==> seg.outcome.Finished?)
  {
  }

  // ---------- a segment without faults ----------

  function Calm(closing: Closing): World {
    World(0, (x: StepId) => true, (x: StepId) => NoFault, (x: StepId) => Null, closing)
  }

  ghost predicate IsCalm(w: World) {
    (forall x :: w.granted(x)) && forall x :: w.fault(x).NoFault?
  }

  lemma CalmWalks(p: Plan, w: World, store: seq<Envelope>, flow: Flow)
    requires UniqueIds(p.steps) && IsCalm(w)
    ensures WalkOf(p, w, store, flow).halt.Going?
  {
    WalkTells(p, w, store, flow);
    LoopClears(p, w, Opening(p, store, flow), Walk(Opening(p, store, flow), None, true, [], Going));
  }

  /** It parks or finishes; with a gate to wait for it parks on a gate. */
  lemma CalmEnds(p: Plan, w: World, store: seq<Envelope>, flow: Flow)
    requires ValidPlan(p) && GatesAreUsable(p) && IsCalm(w)
    ensures var seg := Drive(p, w, store, flow);
      && (seg.outcome.Waits? || seg.outcome.Finished?)
      && (WalkOf(p, w, store, flow).gate.Some? ==> seg.outcome.Waits? && !seg.outcome.condition.ResultsReady?)
  {
    CalmWalks(p, w, store, flow);
    DriveEnds(p, w, store, flow);
    if WalkOf(p, w, store, flow).gate.Some? { ConcludesAtGate(p, w, store, flow); }
    assert Drive(p, w, store, flow) == Conclude(p, w.now, WalkOf(p, w, store, flow));
  }

  // ---------- gates ----------

  /** Every gate that a run of this workflow records as passed has passed on its own wake. */
  ghost predicate GatesPassOnTime(p: Plan) {
    forall s, g | Reachable(ACCEPT_ALL, s) && HasOutput(s, p.run, g) && s.runs[p.run].plan == p && RoleOf(p, g).Gate? ::
      OwnWakeFired(s, s.runs[p.run], g)
  }

  ghost predicate HasGate(p: Plan) {
    exists g | g in p.steps :: g.kind.GateStep?
  }

  /** A gate that no other gate comes before. */
  lemma LowestGate(p: Plan) returns (g: Step)
    requires WellFormed(p.steps) && HasGate(p)
    ensures g in p.steps && g.kind.GateStep? && NoGateBefore(p, g.id)
  {
    var rank := HasRank(p.steps);
    var gates := set i | 0 <= i < |p.steps| && p.steps[i].kind.GateStep? :: p.steps[i].id;
    var some :| some in p.steps && some.kind.GateStep?;
    assert some.id in gates;
    var id := Lowest(rank, gates);
    var i :| 0 <= i < |p.steps| && p.steps[i].kind.GateStep? && p.steps[i].id == id;
    g := p.steps[i];
    forall u | Ancestor(p.steps, u, id) && RoleOf(p, u).Gate?
      ensures u in gates
    { RoleIsStep(p, u); }
    forall u | Ancestor(p.steps, u, id)
      ensures !RoleOf(p, u).Gate?
    { AncestorRanksLess(p.steps, rank, u, id); }
  }

  /** Once the queue steps before it have results, a segment without faults comes to a gate. */
  lemma GateIsReached(p: Plan, w: World, store: seq<Envelope>, g: Step)
    requires ValidPlan(p) && StoreOk(p, store) && IsCalm(w)
    requires g in p.steps && g.kind.GateStep? && NoGateBefore(p, g.id) && AncestorsStored(p, store, g.id)
    ensures WalkOf(p, w, store, FRESH_FLOW).gate.Some?
  {
    var k := WalkOf(p, w, store, FRESH_FLOW);
    var rank := HasRank(p.steps);
    CalmWalks(p, w, store, FRESH_FLOW);
    AllBound(p, store, FRESH_FLOW, rank, g, rank[g.id]);
    forall d | d in g.dependsOn
      ensures d in k.flow.outputs
    { BoundIsComplete(p, w, store, FRESH_FLOW, d, rank[g.id]); }
    LoopSettles(p, w, Walk(Opening(p, store, FRESH_FLOW), None, true, [], Going));
    GateIsOpenAtFirst(p, w, store, g);
    assert Settled(p, k, g);
  }

  /** No gate passes in the first segment. */
  lemma GateIsOpenAtFirst(p: Plan, w: World, store: seq<Envelope>, g: Step)
    requires ValidPlan(p) && StoreOk(p, store) && g in p.steps && g.kind.GateStep?
    ensures g.id !in WalkOf(p, w, store, FRESH_FLOW).flow.outputs
  {
    var start, k := Opening(p, store, FRESH_FLOW), WalkOf(p, w, store, FRESH_FLOW);
    DriveWalks(p, w, store, FRESH_FLOW);
    StepIsFound(p, g);
    NonQueueIsFromCheckpoint(p, store, FRESH_FLOW, g.id);
    if g.id in k.flow.outputs {
      var t := WhoCompleted(p, start, k.flow.outputs, g.id);
      SameIdSameStep(p.steps, t, g);
      assert false;
    }
  }

  // ---------- a gate that passes without its wake ----------

  /** A run that recovery drives on from its checkpoint. */
  ghost predicate Recoverable(s: Sys, id: RunId) {
    && Reachable(ACCEPT_ALL, s) && id in s.runs && s.runs[id].plan.run == id && s.runs[id].status.Running?
    && s.runs[id].saved.Some? && !s.runs[id].done && !s.runs[id].cancel
  }

  lemma Recovers(s: Sys, id: RunId, w: World) returns (s': Sys)
    requires Recoverable(s, id) && !w.closing.DiesAtOnce?
    ensures s' == Next(ACCEPT_ALL, s, Recover(id, w)) && Reachable(ACCEPT_ALL, s')
    ensures var r := s.runs[id]; s' == AfterSegment(s, r, SegmentOf(s, r, Resumption(r), w), w.closing)
  {
    NextIsReachable(ACCEPT_ALL, s, Recover(id, w));
    s' := Next(ACCEPT_ALL, s, Recover(id, w));
  }

  /** The run dies at the checkpoint of the park on a gate. */
  lemma SkipsGate(s: Sys, p: Plan, g: Step) returns (s': Sys, h: StepId)
    requires Fresh(s, p) && GatesAreUsable(p)
    requires g in p.steps && g.kind.GateStep? && NoGateBefore(p, g.id) && AncestorsStored(p, s.store, g.id)
    ensures Recoverable(s', p.run) && s'.runs[p.run].plan == p && s'.wakes == [] && s'.signals == {}
    ensures h in s'.runs[p.run].skipped && IsGate(p, h)
    ensures s' == Driven(s, RunOf(s, p), FRESH_FLOW, Calm(DiesAfterSave))
    ensures var seg := SegmentOf(s, RunOf(s, p), FRESH_FLOW, Calm(DiesAfterSave));
      seg.outcome.Waits? && !seg.outcome.condition.ResultsReady? && seg.outcome.on == h
  {
    var w := Calm(DiesAfterSave).(now := s.now);
    var r, seg := RunOf(s, p), Drive(p, w, s.store, FRESH_FLOW);
    LiveIsSound(s, p);
    GateIsReached(p, w, s.store, g);
    CalmEnds(p, w, s.store, FRESH_FLOW);
    DriveEnds(p, w, s.store, FRESH_FLOW);
    s' := Recovers(s, p.run, Calm(DiesAfterSave));
    h := seg.outcome.on;
    DiedInPark(s, r, seg, DiesAfterSave);
    ParkedOnStep(p, w.now, seg.flow, h, seg.outcome.condition);
  }

  /** The next segment passes it. */
  lemma PassesSkipped(s: Sys, p: Plan, h: StepId, r0: Run, s0: Sys) returns (s': Sys)
    requires Recoverable(s, p.run) && s.runs[p.run].plan == p && ValidPlan(p) && GatesAreUsable(p)
    requires s.wakes == [] && s.signals == {} && h in s.runs[p.run].skipped
    requires Ready(r0, FRESH_FLOW, s0.wakes) && !r0.done && !r0.cancel && r0.plan == p
    requires s == Driven(s0, r0, FRESH_FLOW, Calm(DiesAfterSave))
    requires var seg := SegmentOf(s0, r0, FRESH_FLOW, Calm(DiesAfterSave));
      seg.outcome.Waits? && !seg.outcome.condition.ResultsReady? && seg.outcome.on == h
    ensures Reachable(ACCEPT_ALL, s') && HasOutput(s', p.run, h) && s'.runs[p.run].plan == p
    ensures h in s'.runs[p.run].skipped && s'.signals == {} && forall i | 0 <= i < |s'.wakes| :: !s'.wakes[i].fired
  {
    var w, r := Calm(GoesThrough), s.runs[p.run];
    var seg := SegmentOf(s, r, Resumption(r), w);
    DeathPassesGate(s0, r0, FRESH_FLOW, Calm(DiesAfterSave), w);
    s' := Recovers(s, p.run, w);
    CalmEnds(p, w.(now := s.now), s.store, Resumption(r));
    AfterRecords(s, r, seg);
  }

  /** A workflow with a gate has a run that records a gate as passed though no wake has ever
      fired and no event has been signalled. */
  lemma GateIsSkipped(p: Plan) returns (s: Sys, h: StepId)
    requires ValidPlan(p) && GatesAreUsable(p) && HasGate(p)
    ensures Reachable(ACCEPT_ALL, s) && HasOutput(s, p.run, h) && s.runs[p.run].plan == p && RoleOf(p, h).Gate?
    ensures s.signals == {} && forall i | 0 <= i < |s.wakes| :: !s.wakes[i].fired
    ensures !OwnWakeFired(s, s.runs[p.run], h)
  {
    var g := LowestGate(p);
    NoGateBeforeAncestors(p, g.id);
    var s0 := Prepared(p, g);
    LiveIsSound(s0, p);
    var s1;
    s1, h := SkipsGate(s0, p, g);
    s := PassesSkipped(s1, p, h, RunOf(s0, p), s0);
    var gate :| gate in p.steps && gate.id == h && gate.kind.GateStep?;
    StepIsFound(p, gate);
    AlwaysSound(ACCEPT_ALL, s);
    SkippedHasNoWake(s, p.run, h);
  }

  /** For every accepted workflow whose gates can come about: every gate recorded as passed, in
      every reachable state, has passed on its own wake, if and only if there is no gate. */
  lemma GatesPassOnTimeExactly(p: Plan)
    requires ValidPlan(p) && GatesAreUsable(p)
    ensures GatesPassOnTime(p) <==> !HasGate(p)
  {
    if HasGate(p) {
      var s, h := GateIsSkipped(p);
    } else {
      NoGateNoRole(p);
    }
  }

  lemma NoGateNoRole(p: Plan)
    requires !HasGate(p)
    ensures forall g :: !RoleOf(p, g).Gate?
  {
    forall g
      ensures !RoleOf(p, g).Gate?
    {
      if RoleOf(p, g).Gate? {
        RoleIsStep(p, g);
        assert false;
      }
    }
  }

  // ---------- one wake ----------

  ghost predicate AlwaysOneWake(p: Plan) {
    forall s | Reachable(ACCEPT_ALL, s) && p.run in s.runs && s.runs[p.run].plan == p :: HasOneWake(s, p.run)
  }

  /** The first segment of a run that can park parks. */
  lemma FirstSegmentParks(p: Plan, w: World)
    requires ValidPlan(p) && GatesAreUsable(p) && IsCalm(w) && CanPark(p)
    ensures Drive(p, w, [], FRESH_FLOW).outcome.Waits?
  {
    var start, k := Opening(p, [], FRESH_FLOW), WalkOf(p, w, [], FRESH_FLOW);
    CalmEnds(p, w, [], FRESH_FLOW);
    DriveEnds(p, w, [], FRESH_FLOW);
    DriveWalks(p, w, [], FRESH_FLOW);
    RefreshLaw(p.steps, p.run, [], map[]);
    assert Drive(p, w, [], FRESH_FLOW) == Conclude(p, w.now, k);
    var s :| s in p.steps && (s.kind.GateStep? || ModeOf(p, s).Queue?);
    if s.id in k.flow.outputs {
      var t := WhoCompleted(p, start, k.flow.outputs, s.id);
      SameIdSameStep(p.steps, t, s);
      assert false;
    }
  }

  /** A run that can park and dies after the wake entry: a running run has an unfired entry. */
  lemma StrayWake(p: Plan) returns (s: Sys)
    requires ValidPlan(p) && GatesAreUsable(p) && CanPark(p)
    ensures Reachable(ACCEPT_ALL, s) && p.run in s.runs && s.runs[p.run].plan == p && s.runs[p.run].status.Running?
    ensures UnfiredOf(s.wakes, p.run, 0)
  {
    var w := Calm(DiesAfterSchedule);
    var s0 := Created(p);
    FirstSegmentParks(p, w.(now := s0.now));
    s := Recovers(s0, p.run, w);
    DiedInPark(s0, RunOf(s0, p), SegmentOf(s0, RunOf(s0, p), FRESH_FLOW, w), DiesAfterSchedule);
  }

  /** For every accepted workflow whose gates can come about: its run has one wake while it
      waits and none otherwise, in every reachable state, if and only if it never parks, since
      all its steps run in process. */
  lemma OneWakeExactly(p: Plan)
    requires ValidPlan(p) && GatesAreUsable(p)
    ensures AlwaysOneWake(p) <==> !CanPark(p)
  {
    if CanPark(p) {
      var s := StrayWake(p);
      assert !HasOneWake(s, p.run);
    } else {
      forall s | Reachable(ACCEPT_ALL, s) && p.run in s.runs && s.runs[p.run].plan == p
        ensures HasOneWake(s, p.run)
      {
        RunIsControlled(ACCEPT_ALL, s, p.run);
        ParkedRunHasOneWake(ACCEPT_ALL, s, p.run);
      }
    }
  }
}
