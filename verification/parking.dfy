/** How often a run parks, whatever dies: exactly, by the definition. A death after a wake entry
    leaves an entry that wakes the run for nothing, unless whatever can fire it comes after every
    result the run may wait for. */
module Parking {
  import opened Base
  import opened Definition
  import opened Lifecycle
  import opened Executor
  import opened ExecutorLaws
  import opened Provenance
  import opened Protocol
  import opened Control
  import opened Records
  import opened Waiting
  import opened Settling
  import opened Guarantees
  import opened Replay
  import Driver

  // ---------- workflows with one join, before all gates ----------

  /** A run can park on this step. */
  ghost predicate ParksAt(p: Plan, y: Step) {
    y in p.steps && (y.kind.GateStep? || ModeOf(p, y).Queue?)
  }

  /** Every queue step comes before all other steps a run can park on; so there is one at most. */
  ghost predicate JoinComesFirst(p: Plan) {
    forall x, y | IsQueueStep(p, x) && ParksAt(p, y) && y.id != x.id :: Ancestor(p.steps, x.id, y.id)
  }

  lemma OneQueueStep(p: Plan, x: Step, y: Step)
    requires WellFormed(p.steps) && JoinComesFirst(p) && IsQueueStep(p, x) && IsQueueStep(p, y)
    ensures x.id == y.id
  {
    if x.id != y.id {
      AncestorsChain(p.steps, x.id, y.id, x.id);
      NotOwnAncestor(p.steps, x.id);
    }
  }

  /** Every queue step has a result. */
  ghost predicate QueueDone(p: Plan, store: seq<Envelope>) {
    forall x | IsQueueStep(p, x) :: Stored(store, p.run, x.id)
  }

  // ---------- what such a run keeps ----------

  /** An entry of the run waits for the one queue step, or was scheduled after its result. */
  ghost predicate EntryOk(p: Plan, w: Wake, store: seq<Envelope>) {
    w.run == p.run ==>
      match w.condition
      case ResultsReady(step, expected) => step.Some? && expected == 1 && RoleOf(p, step.value).QueueTask?
      case _ => QueueDone(p, store)
  }

  ghost predicate CanPass(p: Plan, store: seq<Envelope>, step: StepId) {
    RoleOf(p, step).Gate? || Stored(store, p.run, step)
  }

  /** The next segment that ends well goes beyond the last park. */
  ghost predicate GoesBeyond(r: Run, store: seq<Envelope>) {
    r.parks != [] ==>
      r.saved.Some? && (Beyond(Last(r.parks), r.saved.value.outputs)
                        || (r.saved.value == Last(r.parks).flow && CanPass(r.plan, store, Last(r.parks).step)))
  }

  ghost predicate ParksTold(p: Plan, parks: seq<Park>, wakes: seq<Wake>) {
    && ParksGrow(parks)
    && (forall i | 0 <= i < |parks| :: parks[i].step in Ids(p.steps))
    && (parks != [] ==> ParkOk(p, Last(parks), wakes))
  }

  ghost predicate RunGrows(r: Run, wakes: seq<Wake>, store: seq<Envelope>, claims: nat) {
    JoinComesFirst(r.plan) ==>
      && ParksTold(r.plan, r.parks, wakes)
      && (!r.status.Waiting? ==> GoesBeyond(r, store))
      && (claims >= 1 ==> QueueDone(r.plan, store))
      && (forall i | 0 <= i < |wakes| :: EntryOk(r.plan, wakes[i], store))
  }

  ghost predicate Grown(s: Sys) {
    && (forall id | id in s.runs :: RunGrows(s.runs[id], s.wakes, s.store, s.claimed[id]))
    && (forall i | 0 <= i < |s.wakes| :: s.wakes[i].run in s.runs)
  }

  // ---------- time passes ----------

  /** The same entries, fired or not, and some more. */
  ghost predicate MoreEntries(wakes: seq<Wake>, wakes': seq<Wake>) {
    |wakes| <= |wakes'| && forall i | 0 <= i < |wakes| :: wakes'[i] == wakes[i].(fired := wakes'[i].fired)
  }

  lemma GrowsLater(r: Run, wakes: seq<Wake>, wakes': seq<Wake>, store: seq<Envelope>, store': seq<Envelope>,
                   claims: nat, claims': nat)
    requires RunGrows(r, wakes, store, claims) && MoreEntries(wakes, wakes') && LaterStore(r.plan, store, store')
    requires forall i | |wakes| <= i < |wakes'| :: wakes'[i].run != r.plan.run
    requires claims' >= 1 && JoinComesFirst(r.plan) ==> claims >= 1 || QueueDone(r.plan, store')
    ensures RunGrows(r, wakes', store', claims')
  {
    if JoinComesFirst(r.plan) {
      if r.parks != [] { assert ParkOk(r.plan, Last(r.parks), wakes); }
      forall i | 0 <= i < |wakes'|
        ensures EntryOk(r.plan, wakes'[i], store')
      { if i < |wakes| { assert EntryOk(r.plan, wakes[i], store); } }
    }
  }

  /** An entry that has fired tells that all queue steps have results. */
  lemma FiredIsDone(p: Plan, w: Wake, store: seq<Envelope>, now: int, signals: set<string>)
    requires WellFormed(p.steps) && JoinComesFirst(p) && EntryOk(p, w, store) && w.run == p.run
    requires w.fired && FiredFor(w, store, now, signals)
    ensures QueueDone(p, store)
  {
    if w.condition.ResultsReady? {
      var x := FindStep(p.steps, w.condition.step.value).value;
      forall y | IsQueueStep(p, y)
        ensures Stored(store, p.run, y.id)
      { OneQueueStep(p, x, y); }
    }
  }

  /** New claims come from entries that fire. */
  ghost predicate ClaimsCome(s: Sys, s': Sys) {
    forall id | id in s'.claimed && id !in s.claimed :: exists i :: NewlyFired(s.wakes, s'.wakes, id, i)
  }

  lemma FiringGrows(s: Sys, s': Sys)
    requires Controlled(s) && Grown(s) && WakesSound(s')
    requires s'.runs == s.runs && s'.store == s.store && Firing(s.wakes, s'.wakes) && ClaimsCome(s, s')
    ensures Grown(s')
  {
    forall id | id in s.runs
      ensures RunGrows(s.runs[id], s'.wakes, s.store, s'.claimed[id])
    {
      assert RunControl(id, s.runs[id], s.wakes, s.claimed[id]);
      assert RunGrows(s.runs[id], s.wakes, s.store, s.claimed[id]);
      if id in s'.claimed && id !in s.claimed && JoinComesFirst(s.runs[id].plan) {
        var i :| NewlyFired(s.wakes, s'.wakes, id, i);
        FiredIsDone(s.runs[id].plan, s'.wakes[i], s.store, s'.now, s'.signals);
      }
      GrowsLater(s.runs[id], s.wakes, s'.wakes, s.store, s.store, s.claimed[id], s'.claimed[id]);
    }
  }

  lemma SweepGrows(s: Sys, t: Trigger)
    requires Controlled(s) && Grown(s) && WakesSound(SweepFor(s, t))
    ensures Grown(SweepFor(s, t))
  {
    SweepClaims(s.runs, s.wakes, s.claimed, t);
    FiringGrows(s, SweepFor(s, t));
  }

  lemma StoreGrows(s: Sys, e: Envelope)
    requires Grown(s) && !Holds(s.store, e.key)
    ensures Grown(s.(store := s.store + [e]))
  {
    forall id | id in s.runs
      ensures RunGrows(s.runs[id], s.wakes, s.store + [e], s.claimed[id])
    {
      forall x | Stored(s.store, s.runs[id].plan.run, x)
        ensures Stored(s.store + [e], s.runs[id].plan.run, x)
      { StoredStays(s.store, e, s.runs[id].plan.run, x); }
      GrowsLater(s.runs[id], s.wakes, s.wakes, s.store, s.store + [e], s.claimed[id], s.claimed[id]);
    }
  }

  lemma SatisfyGrows(s: Sys, run: RunId, step: StepId)
    requires Controlled(s) && Grown(s) && CanSatisfy(s.wakes, Some(s.store), run, step)
    ensures Grown(s.(wakes := Satisfied(s.wakes, Some(s.store), run, step), claimed := s.claimed + multiset{run}))
  {
    var s' := s.(wakes := Satisfied(s.wakes, Some(s.store), run, step), claimed := s.claimed + multiset{run});
    SatisfyKeeps(s, run, step);
    SatisfyFires(s.wakes, s.store, run, step, s.runs, s.claimed);
    FiringGrows(s, s');
  }

  lemma CollectGrows(accepts: Envelope -> bool, s: Sys, e: Envelope, dies: bool)
    requires Controlled(s) && Grown(s)
    ensures Grown(Collecting(accepts, s, e, dies))
  {
    if e in s.fx.replies && accepts(e) && !Holds(s.store, e.key) {
      var stored := s.(store := s.store + [e]);
      MoreResultsKeepSound(s, e);
      StoreGrows(s, e);
      if !dies {
        if CanSatisfy(s.wakes, Some(stored.store), e.run, e.stepRef) {
          SatisfyGrows(stored, e.run, e.stepRef);
        } else {
          SameGrown(stored, Collecting(accepts, s, e, dies));
        }
      }
    }
  }

  lemma SameGrown(s: Sys, s': Sys)
    requires Grown(s) && s'.runs == s.runs && s'.wakes == s.wakes && s'.claimed == s.claimed && s'.store == s.store
    ensures Grown(s')
  {
  }

  // ---------- a segment ----------

  lemma ReadyGoesBeyond(r: Run, wakes: seq<Wake>, store: seq<Envelope>, claims: nat)
    requires ValidPlan(r.plan) && JoinComesFirst(r.plan) && RunGrows(r, wakes, store, claims)
    requires WakeIsHeld(r, wakes, claims) && (r.status.Waiting? ==> claims >= 1)
    ensures GoesBeyond(r, store)
  {
    if r.status.Waiting? {
      var pk := Last(r.parks);
      var s :| s in r.plan.steps && s.id == pk.step
        && AwaitedBy(r.plan, pk.at, pk.flow, s, wakes[pk.wake].condition);
      StepIsFound(r.plan, s);
    }
  }

  lemma SegmentGoesBeyond(r: Run, w: World, store: seq<Envelope>, wakes: seq<Wake>)
    requires ValidPlan(r.plan) && StoreOk(r.plan, store) && r.parks != []
    requires ParkOk(r.plan, Last(r.parks), wakes) && GoesBeyond(r, store)
    ensures var seg := Drive(r.plan, w, store, Resumption(r));
      seg.outcome.Finished? || seg.outcome.Waits? ==> Beyond(Last(r.parks), seg.flow.outputs)
  {
    DriveExtends(r.plan, w, store, Resumption(r));
    if r.saved.value == Last(r.parks).flow { FromParkExactly(r.plan, w, store, Last(r.parks), wakes); }
  }

  /** The entry of a park on a gate is scheduled after the result of the one queue step. */
  lemma NewEntryIsOk(p: Plan, now: int, store: seq<Envelope>, passed: set<StepId>, flow: Flow, on: StepId,
                     c: WakeCondition)
    requires ValidPlan(p) && JoinComesFirst(p) && ParkedOn(p, now, flow, on, c)
    requires OutputsOk(p, store, passed, flow.outputs)
    ensures EntryOk(p, Wake(p.run, c, false), store)
  {
    var s :| s in p.steps && s.id == on && AwaitedBy(p, now, flow, s, c);
    StepIsFound(p, s);
    if s.kind.GateStep? {
      DependenciesStored(p, store, passed, flow.outputs, s);
      forall x | IsQueueStep(p, x)
        ensures Stored(store, p.run, x.id)
      {
        StepIsFound(p, x);
        assert ParksAt(p, s) && x.id != s.id;
      }
    }
  }

  lemma ParkedOnOpenStep(p: Plan, now: int, flow: Flow, on: StepId, c: WakeCondition)
    requires ParkedOn(p, now, flow, on, c)
    ensures on in Ids(p.steps) && on !in flow.outputs
  {
  }

  lemma OneParkTold(p: Plan, parks: seq<Park>, pk: Park, wakes: seq<Wake>, w: Wake)
    requires ParksTold(p, parks, wakes) && ParkOk(p, pk, wakes + [w]) && pk.wake == |wakes| && pk.step in Ids(p.steps)
    requires parks != [] ==> Beyond(Last(parks), pk.flow.outputs)
    ensures ParksTold(p, parks + [pk], wakes + [w])
  {
    var more := parks + [pk];
    assert Last(more) == pk;
    forall i {:trigger more[i + 1]} | 0 <= i < |more| - 1
      ensures Grows(more[i], more[i + 1])
    {
      if i < |parks| - 1 {
        assert Grows(parks[i], parks[i + 1]);
      } else {
        assert ParkOk(p, Last(parks), wakes);
      }
    }
  }

  /** What is known of the end of a segment of such a run. */
  ghost predicate EndsBeyond(r: Run, seg: Segment, now: int, store: seq<Envelope>) {
    && (seg.outcome.Waits? ==>
          && ParkedOn(r.plan, now, seg.flow, seg.outcome.on, seg.outcome.condition)
          && EntryOk(r.plan, Wake(r.plan.run, seg.outcome.condition, false), store))
    && ((seg.outcome.Waits? || seg.outcome.Finished?) && r.parks != [] ==> Beyond(Last(r.parks), seg.flow.outputs))
  }

  lemma ParksToldAfter(r: Run, seg: Segment, wakes: seq<Wake>, now: int, closing: Closing, store: seq<Envelope>)
    requires ParksTold(r.plan, r.parks, wakes) && EndsBeyond(r, seg, now, store)
    ensures ParksTold(r.plan, RunAfter(r, seg, |wakes|, now, closing).parks,
                      WakesAfter(wakes, r.plan.run, seg, closing))
  {
    if seg.outcome.Waits? {
      var wake, pk := Wake(r.plan.run, seg.outcome.condition, false), Park(seg.outcome.on, |wakes|, now, seg.flow);
      ParkedOnOpenStep(r.plan, now, seg.flow, seg.outcome.on, seg.outcome.condition);
      assert ParkOk(r.plan, pk, wakes + [wake]);
      if closing.GoesThrough? { OneParkTold(r.plan, r.parks, pk, wakes, wake); }
      if r.parks != [] { ParkStays(r.plan, Last(r.parks), wakes, wakes + [wake]); }
    }
  }

  lemma GoesBeyondAfter(r: Run, seg: Segment, wake: nat, now: int, closing: Closing, store: seq<Envelope>)
    requires GoesBeyond(r, store) && EndsBeyond(r, seg, now, store)
    ensures var r' := RunAfter(r, seg, wake, now, closing); !r'.status.Waiting? ==> GoesBeyond(r', store)
  {
    AfterFields(r, seg, wake, now, closing);
    if !seg.outcome.Waits? && !seg.outcome.Finished? { SavedAsBefore(r, seg, wake, now, closing); }
  }

  lemma SavedAsBefore(r: Run, seg: Segment, wake: nat, now: int, closing: Closing)
    requires !seg.outcome.Waits? && !seg.outcome.Finished?
    ensures RunAfter(r, seg, wake, now, closing).saved == r.saved
  {
  }

  lemma AfterGrows(r: Run, seg: Segment, wakes: seq<Wake>, now: int, closing: Closing, store: seq<Envelope>,
                   claims: nat, claims': nat)
    requires RunGrows(r, wakes, store, claims) && claims' <= claims
    requires JoinComesFirst(r.plan) ==> GoesBeyond(r, store) && EndsBeyond(r, seg, now, store)
    ensures RunGrows(RunAfter(r, seg, |wakes|, now, closing), WakesAfter(wakes, r.plan.run, seg, closing), store,
                     claims')
  {
    SamePlan(r, seg, |wakes|, now, closing);
    if JoinComesFirst(r.plan) {
      ParksToldAfter(r, seg, wakes, now, closing, store);
      GoesBeyondAfter(r, seg, |wakes|, now, closing, store);
    }
  }

  lemma SegmentEndsBeyond(r: Run, w: World, store: seq<Envelope>, wakes: seq<Wake>)
    requires JoinComesFirst(r.plan) && ValidPlan(r.plan) && CheckpointOk(r) && RunData(r, wakes, store) && !r.done
    requires ParksTold(r.plan, r.parks, wakes) && GoesBeyond(r, store)
    requires forall g | g in Resumption(r).gatesWaited :: g in MayPass(r, wakes)
    ensures EndsBeyond(r, Drive(r.plan, w, store, Resumption(r)), w.now, store)
  {
    var seg := Drive(r.plan, w, store, Resumption(r));
    ResumptionFits(r);
    DriveEnds(r.plan, w, store, Resumption(r));
    SegmentOutputsOk(r.plan, w, store, Resumption(r), MayPass(r, wakes));
    if seg.outcome.Waits? {
      NewEntryIsOk(r.plan, w.now, store, MayPass(r, wakes), seg.flow, seg.outcome.on, seg.outcome.condition);
    }
    if r.parks != [] { SegmentGoesBeyond(r, w, store, wakes); }
  }

  // ---------- every action ----------

  ghost predicate OthersGrow(s: Sys, id: RunId) {
    && (forall other | other in s.runs && other != id ::
          s.runs[other].plan.run == other && RunGrows(s.runs[other], s.wakes, s.store, s.claimed[other]))
    && (forall i | 0 <= i < |s.wakes| :: s.wakes[i].run in s.runs || s.wakes[i].run == id)
  }

  lemma OneRunGrows(s: Sys, r': Run, s': Sys)
    requires OthersGrow(s, r'.plan.run) && RunGrows(r', s'.wakes, s'.store, s'.claimed[r'.plan.run])
    requires s'.runs == s.runs[r'.plan.run := r'] && s'.store == s.store && s'.claimed == s.claimed
    requires s.wakes <= s'.wakes && forall i | |s.wakes| <= i < |s'.wakes| :: s'.wakes[i].run == r'.plan.run
    ensures Grown(s')
  {
    forall other | other in s.runs && other != r'.plan.run
      ensures RunGrows(s.runs[other], s'.wakes, s.store, s.claimed[other])
    { GrowsLater(s.runs[other], s.wakes, s'.wakes, s.store, s.store, s.claimed[other], s.claimed[other]); }
  }

  lemma MarkGrows(r: Run, status: Driver.Status, wakes: seq<Wake>, store: seq<Envelope>, claims: nat, claims': nat)
    requires RunGrows(r, wakes, store, claims) && claims' <= claims && !status.Waiting?
    requires JoinComesFirst(r.plan) ==> GoesBeyond(r, store)
    ensures RunGrows(r.(status := status), wakes, store, claims')
  {
  }

  lemma DrivenGrows(s: Sys, r: Run, flow: Flow, w: World, claims: nat)
    requires Ready(r, flow, s.wakes) && RunData(r, s.wakes, s.store)
    requires OthersGrow(s, r.plan.run) && RunGrows(r, s.wakes, s.store, claims) && s.claimed[r.plan.run] <= claims
    requires JoinComesFirst(r.plan) ==> GoesBeyond(r, s.store)
    ensures Grown(Driven(s, r, flow, w))
  {
    var s', id := Driven(s, r, flow, w), r.plan.run;
    if w.closing.DiesAtOnce? || r.done || r.cancel {
      MarkGrows(r, s'.runs[id].status, s.wakes, s.store, claims, s.claimed[id]);
      OneRunGrows(s, s'.runs[id], s');
    } else {
      if JoinComesFirst(r.plan) {
        WaitedGatesPassed(r, flow, s.wakes, s.store);
        SegmentEndsBeyond(r, w.(now := s.now), s.store, s.wakes);
      }
      SegmentGrows(s, r, Drive(r.plan, w.(now := s.now), s.store, flow), w.closing, claims);
    }
  }

  lemma SegmentGrows(s: Sys, r: Run, seg: Segment, closing: Closing, claims: nat)
    requires OthersGrow(s, r.plan.run) && RunGrows(r, s.wakes, s.store, claims) && s.claimed[r.plan.run] <= claims
    requires JoinComesFirst(r.plan) ==> GoesBeyond(r, s.store) && EndsBeyond(r, seg, s.now, s.store)
    ensures Grown(AfterSegment(s, r, seg, closing))
  {
    AfterGrows(r, seg, s.wakes, s.now, closing, s.store, claims, s.claimed[r.plan.run]);
    SamePlan(r, seg, |s.wakes|, s.now, closing);
    OneRunGrows(s, RunAfter(r, seg, |s.wakes|, s.now, closing), AfterSegment(s, r, seg, closing));
  }

  lemma OthersGrowOn(s: Sys, id: RunId, claimed: multiset<RunId>)
    requires Controlled(s) && Grown(s) && forall other | other != id :: claimed[other] == s.claimed[other]
    ensures OthersGrow(s.(claimed := claimed), id)
  {
    forall other | other in s.runs
      ensures s.runs[other].plan.run == other
    { assert RunControl(other, s.runs[other], s.wakes, s.claimed[other]); }
  }

  /** A claimed run, or one that runs, goes on from its checkpoint. */
  lemma GoesOn(id: RunId, r: Run, wakes: seq<Wake>, store: seq<Envelope>, claims: nat)
    requires RunControl(id, r, wakes, claims) && RunHeld(r, wakes, claims) && RunGrows(r, wakes, store, claims)
    requires r.saved.Some? && (claims >= 1 || r.status.Running?)
    ensures Ready(r, r.saved.value, wakes)
    ensures JoinComesFirst(r.plan) ==> GoesBeyond(r, store)
  {
    if JoinComesFirst(r.plan) { ReadyGoesBeyond(r, wakes, store, claims); }
  }

  /** The run is driven from its checkpoint, with one claim less or none less. */
  lemma GoingOnGrows(s: Sys, id: RunId, claimed: multiset<RunId>, w: World)
    requires Controlled(s) && Grown(s) && id in s.runs && s.runs[id].saved.Some?
    requires RunData(s.runs[id], s.wakes, s.store) && RunHeld(s.runs[id], s.wakes, s.claimed[id])
    requires id in s.claimed || s.runs[id].status.Running?
    requires claimed[id] <= s.claimed[id] && forall other | other != id :: claimed[other] == s.claimed[other]
    ensures Grown(Driven(s.(claimed := claimed), s.runs[id], s.runs[id].saved.value, w))
  {
    var r := s.runs[id];
    OthersGrowOn(s, id, claimed);
    GoesOn(id, r, s.wakes, s.store, s.claimed[id]);
    DrivenGrows(s.(claimed := claimed), r, r.saved.value, w, s.claimed[id]);
  }

  lemma OneClaimLess(claimed: multiset<RunId>, id: RunId)
    ensures (claimed - multiset{id})[id] <= claimed[id]
    ensures forall other | other != id :: (claimed - multiset{id})[other] == claimed[other]
  {
  }

  lemma ResumeGrows(accepts: Envelope -> bool, s: Sys, id: RunId, w: World)
    requires Sound(accepts, s) && Grown(s) && id in s.claimed && id in s.runs && s.runs[id].saved.Some?
    ensures Grown(Driven(s.(claimed := s.claimed - multiset{id}), s.runs[id], s.runs[id].saved.value, w))
  {
    RunIsSound(accepts, s, id);
    OneClaimLess(s.claimed, id);
    GoingOnGrows(s, id, s.claimed - multiset{id}, w);
  }

  lemma RecoverGrows(accepts: Envelope -> bool, s: Sys, id: RunId, w: World)
    requires Sound(accepts, s) && Grown(s) && id in s.runs && s.runs[id].status.Running? && s.runs[id].saved.Some?
    ensures Grown(Driven(s, s.runs[id], s.runs[id].saved.value, w))
  {
    RunIsSound(accepts, s, id);
    assert s.(claimed := s.claimed) == s;
    GoingOnGrows(s, id, s.claimed, w);
  }

  lemma NewRunGrows(p: Plan, checkpointed: bool, wakes: seq<Wake>, store: seq<Envelope>)
    requires ValidPlan(p) && StoreOk(p, store) && StoreOrdered(p, store)
    requires forall i | 0 <= i < |wakes| :: wakes[i].run != p.run
    ensures var r := NewRun(p, checkpointed);
      && Ready(r, FRESH_FLOW, wakes) && RunData(r, wakes, store) && RunGrows(r, wakes, store, 0) && GoesBeyond(r, store)
  {
  }

  lemma StartGrows(accepts: Envelope -> bool, s: Sys, p: Plan, checkpointed: bool, w: World)
    requires Sound(accepts, s) && Grown(s) && p.run !in s.runs && ValidPlan(p)
    ensures Grown(Driven(s, NewRun(p, checkpointed), FRESH_FLOW, w))
  {
    StoreIsOkForNewRun(s, accepts, p);
    NewRunGrows(p, checkpointed, s.wakes, s.store);
    OthersGrowOn(s, p.run, s.claimed);
    assert s.(claimed := s.claimed) == s;
    DrivenGrows(s, NewRun(p, checkpointed), FRESH_FLOW, w, 0);
  }

  lemma RunStepGrows(accepts: Envelope -> bool, s: Sys, a: Action)
    requires Sound(accepts, s) && Grown(s) && a.Drives()
    ensures Grown(RunStep(s, a))
  {
    if RunStep(s, a) != s {
      match a
      case Start(p, checkpointed, w) => StartGrows(accepts, s, p, checkpointed, w);
      case Resume(id, w) => ResumeGrows(accepts, s, id, w);
      case Recover(id, w) => RecoverGrows(accepts, s, id, w);
    }
  }

  lemma TickGrows(s: Sys, a: Action)
    requires Controlled(s) && Grown(s) && a.Ticks()
    ensures Grown(TickStep(s, a))
  {
    TickKeepsControl(s, a);
    match a
    case PollTimers => SweepGrows(s, Clock(s.now));
    case PollJoins => SweepGrows(s, Joins(Some(s.store)));
    case Signal(name) => SignalGrows(s, name);
    case Advance(_) => SameGrown(s, TickStep(s, a));
  }

  lemma SignalGrows(s: Sys, name: string)
    requires Controlled(s) && Grown(s)
    ensures Grown(SweepFor(s.(signals := s.signals + {name}), Lifecycle.Event(name)))
  {
    var s1 := s.(signals := s.signals + {name});
    TickKeepsControl(s, Signal(name));
    SweepClaims(s.runs, s.wakes, s.claimed, Lifecycle.Event(name));
    FiringGrows(s, SweepFor(s1, Lifecycle.Event(name)));
  }

  lemma CancelGrows(s: Sys, id: RunId)
    requires Grown(s)
    ensures Grown(CancelStep(s, id))
  {
    if id in s.runs { assert RunGrows(s.runs[id], s.wakes, s.store, s.claimed[id]); }
  }

  lemma NextGrows(accepts: Envelope -> bool, s: Sys, a: Action)
    requires Sound(accepts, s) && Grown(s)
    ensures Grown(Next(accepts, s, a))
  {
    if a.Drives() { RunStepGrows(accepts, s, a); }
    else if a.Works() {
      JobFrame(s, a);
      SameGrown(s, JobStep(s, a));
    }
    else if a.Ticks() { TickGrows(s, a); }
    else if a.Collect? { CollectGrows(accepts, s, a.e, a.dies); }
    else { CancelGrows(s, a.run); }
  }

  lemma MoveGrows(accepts: Envelope -> bool, s: Sys, s': Sys)
    requires Reachable(accepts, s) && Grown(s) && Moves(accepts, s, s')
    ensures Grown(s')
  {
    var a :| s' == Next(accepts, s, a);
    AlwaysSound(accepts, s);
    NextGrows(accepts, s, a);
  }

  lemma {:induction false} HistoryGrows(accepts: Envelope -> bool, h: seq<Sys>, i: nat)
    requires IsHistory(accepts, h) && h[0] == EMPTY && i < |h|
    ensures Reachable(accepts, h[i]) && Grown(h[i])
  {
    EmptyIsReachable(accepts);
    HistoryIsReachable(accepts, h, i);
    if i > 0 {
      var j := i - 1;
      HistoryGrows(accepts, h, j);
      assert Moves(accepts, h[j], h[j + 1]);
      MoveGrows(accepts, h[j], h[j + 1]);
    }
  }

  lemma AlwaysGrown(accepts: Envelope -> bool, s: Sys)
    requires Reachable(accepts, s)
    ensures Grown(s)
  {
    var h :| IsHistory(accepts, h) && h[0] == EMPTY && h[|h| - 1] == s;
    HistoryGrows(accepts, h, |h| - 1);
  }

  // ---------- the bound ----------

  lemma GrowingCountsUp(p: Plan, parks: seq<Park>)
    requires ParksGrow(parks) && forall i | 0 <= i < |parks| :: parks[i].step in Ids(p.steps)
    ensures CountsUp(p, parks)
  {
    forall i {:trigger parks[i + 1]} | 0 <= i < |parks| - 1
      ensures |DoneAt(p, parks[i])| < |DoneAt(p, parks[i + 1])|
    {
      assert Grows(parks[i], parks[i + 1]);
      GrowsMore(p, parks[i], parks[i + 1]);
    }
  }

  /** Parks with more and more steps complete are few. */
  lemma RisingParksAreFew(p: Plan, parks: seq<Park>)
    requires CountsUp(p, parks)
    requires parks != [] ==> Last(parks).step in Ids(p.steps) && Last(parks).step !in Last(parks).flow.outputs
    ensures |parks| <= |Ids(p.steps)|
  {
    if parks != [] {
      ParksCount(p, parks, |parks| - 1);
      FewerAreDone(p, Last(parks));
    }
  }

  lemma FewerAreDone(p: Plan, pk: Park)
    requires pk.step in Ids(p.steps) && pk.step !in pk.flow.outputs
    ensures |DoneAt(p, pk)| < |Ids(p.steps)|
  {
    StrictSubsetSize(DoneAt(p, pk), Ids(p.steps));
  }

  lemma ToldIsBounded(r: Run, wakes: seq<Wake>)
    requires WellFormed(r.plan.steps) && ParksTold(r.plan, r.parks, wakes)
    ensures ParksBounded(r)
  {
    GrowingCountsUp(r.plan, r.parks);
    if r.parks != [] { assert ParkOk(r.plan, Last(r.parks), wakes); }
    RisingParksAreFew(r.plan, r.parks);
    UniqueIdsCount(r.plan.steps);
  }

  /** A run of such a workflow keeps the bound, whatever dies. */
  lemma JoinFirstIsBounded(accepts: Envelope -> bool, s: Sys, id: RunId)
    requires Reachable(accepts, s) && id in s.runs && JoinComesFirst(s.runs[id].plan)
    ensures ParksBounded(s.runs[id])
  {
    AlwaysGrown(accepts, s);
    RunIsControlled(accepts, s, id);
    assert RunGrows(s.runs[id], s.wakes, s.store, s.claimed[id]);
    ToldIsBounded(s.runs[id], s.wakes);
  }
}
