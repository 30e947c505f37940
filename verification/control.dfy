/** What every reachable state of the system keeps about runs and their wakes. */
module Control {
  import opened Base
  import opened Definition
  import opened Lifecycle
  import opened Executor
  import opened ExecutorLaws
  import opened Protocol
  import Driver

  // ---------- one run ----------

  /** The park is on a step that was not complete, and its entry waits for that very step. */
  ghost predicate ParkOk(p: Plan, pk: Park, wakes: seq<Wake>) {
    && pk.wake < |wakes| && wakes[pk.wake].run == p.run
    && ParkedOn(p, pk.at, pk.flow, pk.step, wakes[pk.wake].condition)
  }

  /** The completed set has grown since the park, by the step parked on at least. */
  ghost predicate Beyond(pk: Park, outputs: map<StepId, Value>) {
    Extends(pk.flow.outputs, outputs) && pk.step in outputs
  }

  ghost predicate Grows(a: Park, b: Park) {
    Beyond(a, b.flow.outputs) && a.step !in a.flow.outputs && a.wake < b.wake
  }

  ghost predicate ParksOk(p: Plan, parks: seq<Park>, wakes: seq<Wake>) {
    && (forall i | 0 <= i < |parks| :: ParkOk(p, parks[i], wakes))
    && (forall i {:trigger parks[i + 1]} | 0 <= i < |parks| - 1 ::
          Grows(parks[i], parks[i + 1]) && wakes[parks[i].wake].fired)
  }

  function Last(parks: seq<Park>): Park
    requires parks != []
  {
    parks[|parks| - 1]
  }

  predicate LastFired(parks: seq<Park>, wakes: seq<Wake>) {
    parks != [] ==> Last(parks).wake < |wakes| && wakes[Last(parks).wake].fired
  }

  /** The checkpoint is the one of the last park, or one saved later by a segment that died
      before it had parked again. */
  ghost predicate SavedAtPark(r: Run) {
    r.parks != [] ==>
      r.saved.Some? && (r.saved.value == Last(r.parks).flow || Beyond(Last(r.parks), r.saved.value.outputs))
  }

  /** A run of the plan can park: some step is a gate or goes through the queue. */
  ghost predicate CanPark(p: Plan) {
    exists s | s in p.steps :: s.kind.GateStep? || ModeOf(p, s).Queue?
  }

  /** What holds of every checkpoint: it records steps of the plan, and all of them as complete
      when the stage is. Only a run that can park dies inside a park. */
  ghost predicate CheckpointOk(r: Run) {
    && (r.status.Completed? ==> r.done)
    && (r.done ==> r.saved.Some? && Ids(r.plan.steps) <= r.saved.value.outputs.Keys)
    && (r.saved.Some? ==> FlowFits(r.plan, r.saved.value))
    && (r.torn ==> CanPark(r.plan))
  }

  /** A waiting run has one entry to wait for: not fired yet, or claimed with its resume still
      to come. Any other run has neither. */
  ghost predicate WaitOk(r: Run, wakes: seq<Wake>, claims: nat) {
    if r.status.Waiting? then
      && r.parks != [] && Last(r.parks).wake < |wakes| && r.saved == Some(Last(r.parks).flow)
      && claims == if wakes[Last(r.parks).wake].fired then 1 else 0
    else claims == 0 && LastFired(r.parks, wakes)
  }

  /** The parks of the run, its checkpoint and its wakes fit together. */
  ghost predicate Orderly(r: Run, wakes: seq<Wake>, claims: nat) {
    ParksOk(r.plan, r.parks, wakes) && (!r.done ==> SavedAtPark(r)) && WaitOk(r, wakes, claims)
  }

  ghost predicate RunControl(id: RunId, r: Run, wakes: seq<Wake>, claims: nat) {
    && r.plan.run == id && ValidPlan(r.plan) && CheckpointOk(r)
    && (!r.torn ==> Orderly(r, wakes, claims))
  }

  // ---------- the system ----------

  /** The entry is the one the run parked on last, or the run died after it had scheduled it. */
  ghost predicate OwnedBy(r: Run, i: nat) {
    r.torn || (r.parks != [] && Last(r.parks).wake == i)
  }

  ghost predicate UnfiredAreOwned(runs: map<RunId, Run>, wakes: seq<Wake>) {
    forall i | 0 <= i < |wakes| && !wakes[i].fired :: wakes[i].run in runs && OwnedBy(runs[wakes[i].run], i)
  }

  /** An entry that fired had its reason: enough results under different keys, a due time, or
      its event. */
  ghost predicate FiredFor(w: Wake, store: seq<Envelope>, now: int, signals: set<string>) {
    w.fired ==>
      match w.condition
      case ResultsReady(step, expected) => step.Some? && CountOf(store, w.run, step.value) >= expected
      case Timer(at) => at.Some? && at.value <= now
      case ExternalEvent(key) => key.Some? && key.value in signals
  }

  ghost predicate WakesSound(s: Sys) {
    forall i | 0 <= i < |s.wakes| :: FiredFor(s.wakes[i], s.store, s.now, s.signals)
  }

  ghost predicate RunsControlled(runs: map<RunId, Run>, wakes: seq<Wake>, claimed: multiset<RunId>) {
    && (forall id | id in runs :: RunControl(id, runs[id], wakes, claimed[id]))
    && (forall id | id in claimed :: id in runs)
    && UnfiredAreOwned(runs, wakes)
  }

  ghost predicate Controlled(s: Sys) {
    RunsControlled(s.runs, s.wakes, s.claimed) && WakesSound(s)
  }

  // ---------- entries fire ----------

  /** The entries are the same but for some that fire. */
  ghost predicate Firing(wakes: seq<Wake>, wakes': seq<Wake>) {
    && |wakes'| == |wakes|
    && forall i | 0 <= i < |wakes| ::
          wakes'[i] == wakes[i].(fired := wakes'[i].fired) && (wakes[i].fired ==> wakes'[i].fired)
  }

  predicate NewlyFired(wakes: seq<Wake>, wakes': seq<Wake>, id: RunId, i: int) {
    0 <= i < |wakes| && i < |wakes'| && !wakes[i].fired && wakes'[i].fired && wakes[i].run == id
  }

  /** The entries that fire are claimed for their runs. */
  ghost predicate ClaimsFit(wakes: seq<Wake>, wakes': seq<Wake>, id: RunId, claims: nat, claims': nat) {
    && (claims' == claims || claims' == claims + 1)
    && (claims' == claims + 1 <==> exists i :: NewlyFired(wakes, wakes', id, i))
  }

  lemma FiringKeepsOrder(r: Run, wakes: seq<Wake>, wakes': seq<Wake>, claims: nat, claims': nat)
    requires !r.torn && Orderly(r, wakes, claims) && Firing(wakes, wakes')
    requires forall i | NewlyFired(wakes, wakes', r.plan.run, i) :: OwnedBy(r, i)
    requires ClaimsFit(wakes, wakes', r.plan.run, claims, claims')
    ensures Orderly(r, wakes', claims')
  {
    var id := r.plan.run;
    forall i | 0 <= i < |r.parks|
      ensures ParkOk(r.plan, r.parks[i], wakes')
    { assert ParkOk(r.plan, r.parks[i], wakes); }
    assert r.parks != [] ==> ParkOk(r.plan, Last(r.parks), wakes);
    if i :| NewlyFired(wakes, wakes', id, i) { assert OwnedBy(r, i); }
    assert claims' == claims + if r.parks != [] && NewlyFired(wakes, wakes', id, Last(r.parks).wake) then 1 else 0;
  }

  /** The claims of the runs that are not torn, and whose they are. */
  ghost predicate ClaimsOk(runs: map<RunId, Run>, wakes: seq<Wake>, wakes': seq<Wake>, claimed: multiset<RunId>,
                           claimed': multiset<RunId>) {
    && (forall id | id in runs && !runs[id].torn :: ClaimsFit(wakes, wakes', id, claimed[id], claimed'[id]))
    && (forall id | id in claimed' && id !in claimed :: exists i :: NewlyFired(wakes, wakes', id, i))
  }

  lemma FiringKeeps(runs: map<RunId, Run>, wakes: seq<Wake>, wakes': seq<Wake>, claimed: multiset<RunId>,
                    claimed': multiset<RunId>)
    requires RunsControlled(runs, wakes, claimed) && Firing(wakes, wakes')
    requires ClaimsOk(runs, wakes, wakes', claimed, claimed')
    ensures RunsControlled(runs, wakes', claimed')
  {
    forall id | id in runs
      ensures RunControl(id, runs[id], wakes', claimed'[id])
    {
      assert RunControl(id, runs[id], wakes, claimed[id]);
      if !runs[id].torn { FiringKeepsOrder(runs[id], wakes, wakes', claimed[id], claimed'[id]); }
    }
    forall id | id in claimed'
      ensures id in runs
    {
      if id !in claimed {
        var i :| NewlyFired(wakes, wakes', id, i);
        assert wakes[i].run in runs;
      }
    }
  }

  /** The run has at most one unfired entry. */
  ghost predicate OneUnfired(wakes: seq<Wake>, id: RunId) {
    forall i, j | 0 <= i < j < |wakes| && !wakes[i].fired && !wakes[j].fired ::
          !(wakes[i].run == id && wakes[j].run == id)
  }

  ghost predicate FiresOne(wakes: seq<Wake>, t: Trigger, id: RunId) {
    exists i :: NewlyFired(wakes, Swept(wakes, t), id, i)
  }

  /** A sweep claims a run at most once when it has one unfired entry. */
  lemma {:induction false} WokenCount(wakes: seq<Wake>, t: Trigger, id: RunId)
    requires OneUnfired(wakes, id)
    ensures multiset(Woken(wakes, t))[id] == if FiresOne(wakes, t, id) then 1 else 0
  {
    if wakes != [] {
      var n := |wakes| - 1;
      var rest, last := wakes[..n], wakes[n];
      assert OneUnfired(rest, id);
      WokenCount(rest, t, id);
      assert multiset(Woken(wakes, t))[id]
          == multiset(Woken(rest, t))[id] + if Claimable(t, last) && last.run == id then 1 else 0;
      FiresOneMore(wakes, t, id);
    }
  }

  lemma FiresOneMore(wakes: seq<Wake>, t: Trigger, id: RunId)
    requires wakes != [] && OneUnfired(wakes, id)
    ensures var rest, last := wakes[..|wakes| - 1], wakes[|wakes| - 1];
      && (FiresOne(wakes, t, id) <==> FiresOne(rest, t, id) || (Claimable(t, last) && last.run == id))
      && !(FiresOne(rest, t, id) && Claimable(t, last) && last.run == id)
  {
    var n := |wakes| - 1;
    var rest, last := wakes[..n], wakes[n];
    if i :| NewlyFired(rest, Swept(rest, t), id, i) {
      assert rest[i] == wakes[i];
      assert NewlyFired(wakes, Swept(wakes, t), id, i);
    }
    if i :| NewlyFired(wakes, Swept(wakes, t), id, i) {
      if i < n {
        assert rest[i] == wakes[i];
        assert NewlyFired(rest, Swept(rest, t), id, i);
      }
    }
    assert Claimable(t, last) && last.run == id ==> NewlyFired(wakes, Swept(wakes, t), id, n);
  }

  lemma OwnedIsOne(runs: map<RunId, Run>, wakes: seq<Wake>, id: RunId)
    requires UnfiredAreOwned(runs, wakes) && id in runs && !runs[id].torn
    ensures OneUnfired(wakes, id)
  {
  }

  lemma SweepClaims(runs: map<RunId, Run>, wakes: seq<Wake>, claimed: multiset<RunId>, t: Trigger)
    requires UnfiredAreOwned(runs, wakes)
    ensures ClaimsOk(runs, wakes, Swept(wakes, t), claimed, claimed + multiset(Woken(wakes, t)))
  {
    var wakes', claimed' := Swept(wakes, t), claimed + multiset(Woken(wakes, t));
    forall id | id in runs && !runs[id].torn
      ensures ClaimsFit(wakes, wakes', id, claimed[id], claimed'[id])
    {
      OwnedIsOne(runs, wakes, id);
      WokenCount(wakes, t, id);
    }
    WokenIsWhatIsClaimed(wakes, t);
    forall id | id in claimed' && id !in claimed
      ensures exists i :: NewlyFired(wakes, wakes', id, i)
    {
      assert id in Woken(wakes, t);
      var i :| 0 <= i < |wakes| && Claimable(t, wakes[i]) && wakes[i].run == id;
      assert NewlyFired(wakes, wakes', id, i);
    }
  }

  lemma SweepIsSound(s: Sys, t: Trigger)
    requires WakesSound(s)
    requires t.Clock? ==> t.now == s.now
    requires t.Event? ==> t.name in s.signals
    requires t.Joins? ==> t.entries == Some(s.store)
    ensures WakesSound(SweepFor(s, t))
  {
    forall i | 0 <= i < |s.wakes|
      ensures FiredFor(Swept(s.wakes, t)[i], s.store, s.now, s.signals)
    { assert FiredFor(s.wakes[i], s.store, s.now, s.signals); }
  }

  lemma SweepKeeps(s: Sys, t: Trigger)
    requires Controlled(s)
    requires t.Clock? ==> t.now == s.now
    requires t.Event? ==> t.name in s.signals
    requires t.Joins? ==> t.entries == Some(s.store)
    ensures Controlled(SweepFor(s, t))
  {
    SweepIsSound(s, t);
    SweepClaims(s.runs, s.wakes, s.claimed, t);
    FiringKeeps(s.runs, s.wakes, Swept(s.wakes, t), s.claimed, s.claimed + multiset(Woken(s.wakes, t)));
  }

  // ---------- a segment ----------

  /** Nothing wakes the run any more, and its checkpoint is that of its last park or a later one. */
  ghost predicate AtPark(r: Run, wakes: seq<Wake>) {
    ParksOk(r.plan, r.parks, wakes) && LastFired(r.parks, wakes) && (!r.done ==> SavedAtPark(r))
  }

  /** The run is about to be driven from its checkpoint. */
  ghost predicate Ready(r: Run, flow: Flow, wakes: seq<Wake>) {
    && ValidPlan(r.plan) && CheckpointOk(r) && flow == Resumption(r)
    && (!r.torn ==> AtPark(r, wakes))
  }

  lemma OneParkMore(p: Plan, parks: seq<Park>, pk: Park, wakes: seq<Wake>, w: Wake)
    requires ParksOk(p, parks, wakes) && LastFired(parks, wakes)
    requires ParkOk(p, pk, wakes + [w]) && pk.wake == |wakes|
    requires parks != [] ==> Beyond(Last(parks), pk.flow.outputs)
    ensures ParksOk(p, parks + [pk], wakes + [w])
  {
    var more := parks + [pk];
    forall i | 0 <= i < |parks|
      ensures ParkOk(p, more[i], wakes + [w])
    { assert ParkOk(p, parks[i], wakes); }
    if parks != [] { assert ParkOk(p, Last(parks), wakes); }
    forall i {:trigger more[i + 1]} | 0 <= i < |more| - 1
      ensures Grows(more[i], more[i + 1]) && (wakes + [w])[more[i].wake].fired
    {
      assert ParkOk(p, parks[i], wakes);
      if i < |parks| - 1 { assert Grows(parks[i], parks[i + 1]); }
    }
  }

  /** A claimed wake makes progress: the step of the last park is complete afterwards. */
  lemma ResumeProgress(r: Run, w: World, store: seq<Envelope>, wakes: seq<Wake>, now: int, signals: set<string>)
    requires AtPark(r, wakes) && r.parks != [] && !r.done
    requires FiredFor(wakes[Last(r.parks).wake], store, now, signals)
    ensures var seg := Drive(r.plan, w, store, Resumption(r));
      seg.outcome.Finished? || seg.outcome.Waits? ==> Beyond(Last(r.parks), seg.flow.outputs)
  {
    var pk := Last(r.parks);
    assert ParkOk(r.plan, pk, wakes);
    DriveExtends(r.plan, w, store, Resumption(r));
    if Resumption(r) == pk.flow {
      JoinHasResult(r.plan, pk, wakes[pk.wake], store, now, signals);
      WakeMakesProgress(r.plan, w, store, pk.flow, pk.step, wakes[pk.wake].condition, pk.at);
    }
  }

  lemma DriveExtends(p: Plan, w: World, store: seq<Envelope>, flow: Flow)
    ensures Extends(flow.outputs, Drive(p, w, store, flow).flow.outputs)
  {
    DriveLaw(p, w, store, flow);
  }

  lemma JoinHasResult(p: Plan, pk: Park, wake: Wake, store: seq<Envelope>, now: int, signals: set<string>)
    requires ParkedOn(p, pk.at, pk.flow, pk.step, wake.condition) && wake.run == p.run
    requires wake.fired && FiredFor(wake, store, now, signals)
    ensures wake.condition.ResultsReady? ==> FirstOutput(store, p.run, pk.step).Some?
  {
    var s :| s in p.steps && s.id == pk.step && AwaitedBy(p, pk.at, pk.flow, s, wake.condition);
  }

  lemma ParkKeepsOrder(r: Run, seg: Segment, wakes: seq<Wake>, now: int)
    requires ParksOk(r.plan, r.parks, wakes) && LastFired(r.parks, wakes) && seg.outcome.Waits? && !r.done
    requires ParkedOn(r.plan, now, seg.flow, seg.outcome.on, seg.outcome.condition)
    requires r.parks != [] ==> Beyond(Last(r.parks), seg.flow.outputs)
    ensures Orderly(RunAfter(r, seg, |wakes|, now, GoesThrough), WakesAfter(wakes, r.plan.run, seg, GoesThrough), 0)
  {
    var wake := Wake(r.plan.run, seg.outcome.condition, false);
    var pk := Park(seg.outcome.on, |wakes|, now, seg.flow);
    assert ParkOk(r.plan, pk, wakes + [wake]);
    OneParkMore(r.plan, r.parks, pk, wakes, wake);
    assert Last(RunAfter(r, seg, |wakes|, now, GoesThrough).parks) == pk;
  }

  /** A segment that dies after the checkpoint of a park, before the wake entry. */
  lemma SaveKeepsOrder(r: Run, seg: Segment, wakes: seq<Wake>, now: int)
    requires AtPark(r, wakes) && seg.outcome.Waits? && !r.done
    requires r.parks != [] ==> Beyond(Last(r.parks), seg.flow.outputs)
    ensures Orderly(RunAfter(r, seg, |wakes|, now, DiesAfterSave), WakesAfter(wakes, r.plan.run, seg, DiesAfterSave), 0)
  {
  }

  lemma EndFields(r: Run, seg: Segment, wake: nat, now: int, closing: Closing)
    requires !seg.outcome.Waits?
    ensures var r' := RunAfter(r, seg, wake, now, closing);
      && r'.plan == r.plan && r'.parks == r.parks && !r'.status.Waiting?
      && (!r'.done ==> r'.saved == r.saved)
  {
  }

  /** A segment that does not park. */
  lemma EndKeepsOrder(r: Run, seg: Segment, wakes: seq<Wake>, now: int, closing: Closing)
    requires AtPark(r, wakes) && !r.done && !seg.outcome.Waits?
    ensures Orderly(RunAfter(r, seg, |wakes|, now, closing), WakesAfter(wakes, r.plan.run, seg, closing), 0)
  {
    EndFields(r, seg, |wakes|, now, closing);
    SameOrder(r, RunAfter(r, seg, |wakes|, now, closing), wakes);
  }

  lemma SameOrder(r: Run, r': Run, wakes: seq<Wake>)
    requires AtPark(r, wakes) && !r.done && r'.plan == r.plan && r'.parks == r.parks && !r'.status.Waiting?
    requires !r'.done ==> r'.saved == r.saved
    ensures Orderly(r', wakes, 0)
  {
  }

  lemma SegmentKeepsOrder(r: Run, w: World, store: seq<Envelope>, wakes: seq<Wake>, now: int, signals: set<string>)
    requires !r.done && Ready(r, Resumption(r), wakes) && AtPark(r, wakes)
    requires r.parks != [] ==> FiredFor(wakes[Last(r.parks).wake], store, w.now, signals)
    ensures var seg := Drive(r.plan, w, store, Resumption(r));
      w.closing.GoesThrough? || w.closing.DiesAfterSave? || !seg.outcome.Waits? ==>
        Orderly(RunAfter(r, seg, |wakes|, w.now, w.closing), WakesAfter(wakes, r.plan.run, seg, w.closing), 0)
  {
    var seg := Drive(r.plan, w, store, Resumption(r));
    DriveEnds(r.plan, w, store, Resumption(r));
    if !seg.outcome.Waits? {
      EndKeepsOrder(r, seg, wakes, w.now, w.closing);
    } else {
      if r.parks != [] { ResumeProgress(r, w, store, wakes, w.now, signals); }
      ParkKeepsOrder(r, seg, wakes, w.now);
      SaveKeepsOrder(r, seg, wakes, w.now);
    }
  }

  lemma CheckpointStaysOk(r: Run, seg: Segment, wake: nat, now: int, closing: Closing)
    requires CheckpointOk(r) && !r.done
    requires seg.outcome.Finished? ==> Ids(r.plan.steps) <= seg.flow.outputs.Keys
    requires seg.outcome.Finished? || seg.outcome.Waits? ==> FlowFits(r.plan, seg.flow)
    requires seg.outcome.Waits? ==> CanPark(r.plan)
    ensures CheckpointOk(RunAfter(r, seg, wake, now, closing))
  {
  }

  lemma ResumptionFits(r: Run)
    requires CheckpointOk(r)
    ensures FlowFits(r.plan, Resumption(r))
  {
  }

  lemma SegmentKeepsCheckpoint(r: Run, w: World, store: seq<Envelope>, wake: nat)
    requires ValidPlan(r.plan) && CheckpointOk(r) && !r.done
    ensures CheckpointOk(RunAfter(r, Drive(r.plan, w, store, Resumption(r)), wake, w.now, w.closing))
  {
    var flow, seg := Resumption(r), Drive(r.plan, w, store, Resumption(r));
    ResumptionFits(r);
    DriveEnds(r.plan, w, store, flow);
    DriveFits(r.plan, w, store, flow);
    if seg.outcome.Waits? { ParkingCanPark(r.plan, w.now, seg.flow, seg.outcome.on, seg.outcome.condition); }
    CheckpointStaysOk(r, seg, wake, w.now, w.closing);
  }

  lemma ParkingCanPark(p: Plan, now: int, flow: Flow, on: StepId, c: WakeCondition)
    requires ParkedOn(p, now, flow, on, c)
    ensures CanPark(p)
  {
  }

  lemma TornAfter(r: Run, seg: Segment, wake: nat, now: int, closing: Closing)
    ensures !RunAfter(r, seg, wake, now, closing).torn ==>
      !r.torn && (closing.GoesThrough? || closing.DiesAfterSave? || !seg.outcome.Waits?)
  {
  }

  lemma SegmentKeepsRun(r: Run, w: World, store: seq<Envelope>, wakes: seq<Wake>, signals: set<string>, claims: nat)
    requires !r.done && Ready(r, Resumption(r), wakes) && (!r.torn ==> claims == 0)
    requires !r.torn && r.parks != [] ==> FiredFor(wakes[Last(r.parks).wake], store, w.now, signals)
    ensures var seg := Drive(r.plan, w, store, Resumption(r));
      RunControl(r.plan.run, RunAfter(r, seg, |wakes|, w.now, w.closing),
                 WakesAfter(wakes, r.plan.run, seg, w.closing), claims)
  {
    var seg := Drive(r.plan, w, store, Resumption(r));
    SamePlan(r, seg, |wakes|, w.now, w.closing);
    TornAfter(r, seg, |wakes|, w.now, w.closing);
    SegmentKeepsCheckpoint(r, w, store, |wakes|);
    if !r.torn { SegmentKeepsOrder(r, w, store, wakes, w.now, signals); }
  }

  /** A run that only takes another status. */
  lemma MarkKeepsRun(r: Run, status: Driver.Status, wakes: seq<Wake>, claims: nat)
    requires Ready(r, Resumption(r), wakes) && (!r.torn ==> claims == 0)
    requires !status.Waiting? && (status.Completed? ==> r.done)
    ensures RunControl(r.plan.run, r.(status := status), wakes, claims)
  {
  }

  /** One more entry changes nothing for the other runs. */
  lemma OtherRunKeeps(id: RunId, r: Run, wakes: seq<Wake>, more: seq<Wake>, claims: nat)
    requires RunControl(id, r, wakes, claims) && wakes <= more
    ensures RunControl(id, r, more, claims)
  {
    if !r.torn {
      forall i | 0 <= i < |r.parks|
        ensures ParkOk(r.plan, r.parks[i], more)
      { assert ParkOk(r.plan, r.parks[i], wakes); }
      forall i {:trigger r.parks[i + 1]} | 0 <= i < |r.parks| - 1
        ensures Grows(r.parks[i], r.parks[i + 1]) && more[r.parks[i].wake].fired
      { assert ParkOk(r.plan, r.parks[i], wakes); }
    }
  }

  /** Everything but this run, which has no claim and no unfired entry unless it is torn. */
  ghost predicate OthersControlled(s: Sys, r: Run) {
    var id := r.plan.run;
    && (forall other | other in s.runs && other != id :: RunControl(other, s.runs[other], s.wakes, s.claimed[other]))
    && (forall other | other in s.claimed :: other in s.runs)
    && (!r.torn ==> id !in s.claimed)
    && (forall i | 0 <= i < |s.wakes| && !s.wakes[i].fired ::
          if s.wakes[i].run == id then r.torn
          else s.wakes[i].run in s.runs && OwnedBy(s.runs[s.wakes[i].run], i))
  }

  lemma OneRunChanges(s: Sys, r: Run, r': Run, wakes': seq<Wake>)
    requires var id := r.plan.run;
      OthersControlled(s, r) && RunControl(id, r', wakes', s.claimed[id]) && (r.torn ==> r'.torn)
    requires wakes' == s.wakes
      || (|wakes'| == |s.wakes| + 1 && wakes'[..|s.wakes|] == s.wakes
          && wakes'[|s.wakes|].run == r.plan.run && OwnedBy(r', |s.wakes|))
    ensures RunsControlled(s.runs[r.plan.run := r'], wakes', s.claimed)
  {
    var runs' := s.runs[r.plan.run := r'];
    forall other | other in runs'
      ensures RunControl(other, runs'[other], wakes', s.claimed[other])
    {
      if other != r.plan.run { OtherRunKeeps(other, s.runs[other], s.wakes, wakes', s.claimed[other]); }
    }
    forall i | 0 <= i < |wakes'| && !wakes'[i].fired
      ensures wakes'[i].run in runs' && OwnedBy(runs'[wakes'[i].run], i)
    {
      if i < |s.wakes| { assert wakes'[i] == s.wakes[i]; }
    }
  }

  lemma MarkKeeps(s: Sys, r: Run, status: Driver.Status)
    requires WakesSound(s) && OthersControlled(s, r) && Ready(r, Resumption(r), s.wakes)
    requires !status.Waiting? && (status.Completed? ==> r.done)
    ensures Controlled(Marked(s, r, status))
  {
    MarkKeepsRun(r, status, s.wakes, s.claimed[r.plan.run]);
    OneRunChanges(s, r, r.(status := status), s.wakes);
  }

  lemma SegmentKeeps(s: Sys, r: Run, w: World)
    requires WakesSound(s) && OthersControlled(s, r) && Ready(r, Resumption(r), s.wakes) && !r.done && w.now == s.now
    ensures Controlled(AfterSegment(s, r, Drive(r.plan, w, s.store, Resumption(r)), w.closing))
  {
    if !r.torn && r.parks != [] { LastWakeSound(s, r); }
    SegmentKeepsRun(r, w, s.store, s.wakes, s.signals, s.claimed[r.plan.run]);
    AfterKeeps(s, r, Drive(r.plan, w, s.store, Resumption(r)), w.closing);
  }

  lemma AfterKeeps(s: Sys, r: Run, seg: Segment, closing: Closing)
    requires WakesSound(s) && OthersControlled(s, r)
    requires RunControl(r.plan.run, RunAfter(r, seg, |s.wakes|, s.now, closing),
                        WakesAfter(s.wakes, r.plan.run, seg, closing), s.claimed[r.plan.run])
    ensures Controlled(AfterSegment(s, r, seg, closing))
  {
    var r' := RunAfter(r, seg, |s.wakes|, s.now, closing);
    var wakes' := WakesAfter(s.wakes, r.plan.run, seg, closing);
    NewEntryIsOwned(r, seg, s.wakes, s.now, closing);
    SamePlan(r, seg, |s.wakes|, s.now, closing);
    OneRunChanges(s, r, r', wakes');
    StaysControlled(s, s.runs[r.plan.run := r'], wakes', AfterSegment(s, r, seg, closing));
  }

  lemma StaysControlled(s: Sys, runs': map<RunId, Run>, wakes': seq<Wake>, s': Sys)
    requires WakesSound(s) && RunsControlled(runs', wakes', s.claimed) && s.wakes <= wakes'
    requires forall i | |s.wakes| <= i < |wakes'| :: !wakes'[i].fired
    requires s'.runs == runs' && s'.wakes == wakes' && s'.claimed == s.claimed
    requires s'.store == s.store && s'.now == s.now && s'.signals == s.signals
    ensures Controlled(s')
  {
    forall i | 0 <= i < |wakes'|
      ensures FiredFor(wakes'[i], s.store, s.now, s.signals)
    {
      if i < |s.wakes| { assert FiredFor(s.wakes[i], s.store, s.now, s.signals); }
    }
  }

  lemma LastWakeSound(s: Sys, r: Run)
    requires WakesSound(s) && AtPark(r, s.wakes) && r.parks != []
    ensures FiredFor(s.wakes[Last(r.parks).wake], s.store, s.now, s.signals)
  {
  }

  lemma NewEntryIsOwned(r: Run, seg: Segment, wakes: seq<Wake>, now: int, closing: Closing)
    ensures var r', wakes' := RunAfter(r, seg, |wakes|, now, closing), WakesAfter(wakes, r.plan.run, seg, closing);
      && (r.torn ==> r'.torn)
      && (wakes' == wakes ||
          (|wakes'| == |wakes| + 1 && wakes'[..|wakes|] == wakes
           && wakes'[|wakes|].run == r.plan.run && OwnedBy(r', |wakes|)))
  {
  }

  lemma DrivenKeeps(s: Sys, r: Run, flow: Flow, w: World)
    requires WakesSound(s) && OthersControlled(s, r) && Ready(r, flow, s.wakes)
    ensures Controlled(Driven(s, r, flow, w))
  {
    if w.closing.DiesAtOnce? { MarkKeeps(s, r, Driver.Running); }
    else if r.done { MarkKeeps(s, r, Driver.Completed); }
    else if r.cancel { MarkKeeps(s, r, Driver.Cancelled); }
    else { SegmentKeeps(s, r, w.(now := s.now)); }
  }

  // ---------- every action ----------

  lemma ResumeKeeps(s: Sys, id: RunId, w: World)
    requires Controlled(s) && id in s.claimed && s.runs[id].saved.Some?
    ensures Controlled(Driven(s.(claimed := s.claimed - multiset{id}), s.runs[id], s.runs[id].saved.value, w))
  {
    var r := s.runs[id];
    assert RunControl(id, r, s.wakes, s.claimed[id]);
    if !r.torn { assert r.status.Waiting? && s.claimed[id] == 1; }
    DrivenKeeps(s.(claimed := s.claimed - multiset{id}), r, r.saved.value, w);
  }

  lemma RecoverKeeps(s: Sys, id: RunId, w: World)
    requires Controlled(s) && id in s.runs && s.runs[id].status.Running? && s.runs[id].saved.Some?
    ensures Controlled(Driven(s, s.runs[id], s.runs[id].saved.value, w))
  {
    assert RunControl(id, s.runs[id], s.wakes, s.claimed[id]);
    DrivenKeeps(s, s.runs[id], s.runs[id].saved.value, w);
  }

  lemma StartKeeps(s: Sys, p: Plan, checkpointed: bool, w: World)
    requires Controlled(s) && p.run !in s.runs && ValidPlan(p)
    ensures Controlled(Driven(s, NewRun(p, checkpointed), FRESH_FLOW, w))
  {
    DrivenKeeps(s, NewRun(p, checkpointed), FRESH_FLOW, w);
  }

  lemma MoreResultsKeepSound(s: Sys, e: Envelope)
    requires Controlled(s) && !Holds(s.store, e.key)
    ensures Controlled(s.(store := s.store + [e]))
  {
    forall i | 0 <= i < |s.wakes|
      ensures FiredFor(s.wakes[i], s.store + [e], s.now, s.signals)
    {
      assert FiredFor(s.wakes[i], s.store, s.now, s.signals);
      if s.wakes[i].condition.ResultsReady? {
        ListedGrows(s.store, e, s.wakes[i].run, s.wakes[i].condition.step);
      }
    }
  }

  lemma SatisfyFires(wakes: seq<Wake>, store: seq<Envelope>, run: RunId, step: StepId, runs: map<RunId, Run>,
                     claimed: multiset<RunId>)
    requires CanSatisfy(wakes, Some(store), run, step)
    ensures Firing(wakes, Satisfied(wakes, Some(store), run, step))
    ensures ClaimsOk(runs, wakes, Satisfied(wakes, Some(store), run, step), claimed, claimed + multiset{run})
  {
    var k := FirstAwaiting(wakes, run, step);
    var wakes', claimed' := wakes[k := wakes[k].(fired := true)], claimed + multiset{run};
    assert NewlyFired(wakes, wakes', run, k);
    forall id
      ensures ClaimsFit(wakes, wakes', id, claimed[id], claimed'[id])
    { assert forall i | NewlyFired(wakes, wakes', id, i) :: i == k; }
  }

  lemma SatisfyKeeps(s: Sys, run: RunId, step: StepId)
    requires Controlled(s) && CanSatisfy(s.wakes, Some(s.store), run, step)
    ensures Controlled(s.(wakes := Satisfied(s.wakes, Some(s.store), run, step), claimed := s.claimed + multiset{run}))
  {
    var wakes' := Satisfied(s.wakes, Some(s.store), run, step);
    SatisfyFires(s.wakes, s.store, run, step, s.runs, s.claimed);
    FiringKeeps(s.runs, s.wakes, wakes', s.claimed, s.claimed + multiset{run});
    forall i | 0 <= i < |wakes'|
      ensures FiredFor(wakes'[i], s.store, s.now, s.signals)
    { assert FiredFor(s.wakes[i], s.store, s.now, s.signals); }
  }

  lemma CollectKeeps(accepts: Envelope -> bool, s: Sys, e: Envelope, dies: bool)
    requires Controlled(s)
    ensures Controlled(Collecting(accepts, s, e, dies))
  {
    if e in s.fx.replies && accepts(e) && !Holds(s.store, e.key) {
      var stored := s.(store := s.store + [e]);
      MoreResultsKeepSound(s, e);
      if !dies {
        if CanSatisfy(s.wakes, Some(stored.store), e.run, e.stepRef) {
          SatisfyKeeps(stored, e.run, e.stepRef);
        } else {
          assert Collecting(accepts, s, e, dies) == stored;
        }
      }
    }
  }

  lemma CancelKeeps(s: Sys, id: RunId)
    requires Controlled(s)
    ensures Controlled(CancelStep(s, id))
  {
    if id in s.runs {
      CancelKeepsRuns(s.runs, s.wakes, s.claimed, id);
    }
  }

  lemma CancelKeepsRuns(runs: map<RunId, Run>, wakes: seq<Wake>, claimed: multiset<RunId>, id: RunId)
    requires RunsControlled(runs, wakes, claimed) && id in runs
    ensures RunsControlled(runs[id := runs[id].(cancel := true)], wakes, claimed)
  {
    CancelKeepsRun(id, runs[id], wakes, claimed[id]);
  }

  lemma CancelKeepsRun(id: RunId, r: Run, wakes: seq<Wake>, claims: nat)
    requires RunControl(id, r, wakes, claims)
    ensures RunControl(id, r.(cancel := true), wakes, claims)
  {
  }

  lemma AdvanceKeeps(s: Sys, dt: nat)
    requires Controlled(s)
    ensures Controlled(s.(now := s.now + dt))
  {
    forall i | 0 <= i < |s.wakes|
      ensures FiredFor(s.wakes[i], s.store, s.now + dt, s.signals)
    { assert FiredFor(s.wakes[i], s.store, s.now, s.signals); }
  }

  lemma SignalKeeps(s: Sys, name: string)
    requires Controlled(s)
    ensures Controlled(SweepFor(s.(signals := s.signals + {name}), Lifecycle.Event(name)))
  {
    var s1 := s.(signals := s.signals + {name});
    forall i | 0 <= i < |s.wakes|
      ensures FiredFor(s.wakes[i], s.store, s.now, s1.signals)
    { assert FiredFor(s.wakes[i], s.store, s.now, s.signals); }
    SweepKeeps(s1, Lifecycle.Event(name));
  }

  lemma RunStepKeepsControl(s: Sys, a: Action)
    requires Controlled(s) && a.Drives()
    ensures Controlled(RunStep(s, a))
  {
    if RunStep(s, a) != s {
      match a
      case Start(p, checkpointed, w) => StartKeeps(s, p, checkpointed, w);
      case Resume(id, w) => ResumeKeeps(s, id, w);
      case Recover(id, w) => RecoverKeeps(s, id, w);
    }
  }

  lemma TickKeepsControl(s: Sys, a: Action)
    requires Controlled(s) && a.Ticks()
    ensures Controlled(TickStep(s, a))
  {
    match a
    case PollTimers => SweepKeeps(s, Clock(s.now));
    case PollJoins => SweepKeeps(s, Joins(Some(s.store)));
    case Signal(name) => SignalKeeps(s, name);
    case Advance(dt) => AdvanceKeeps(s, dt);
  }

  lemma JobFrame(s: Sys, a: Action)
    requires a.Works()
    ensures var s' := JobStep(s, a);
      && s'.runs == s.runs && s'.wakes == s.wakes && s'.claimed == s.claimed
      && s'.store == s.store && s'.now == s.now && s'.signals == s.signals
      && s'.fx.tasks == s.fx.tasks
  {
  }

  lemma SameControl(s: Sys, s': Sys)
    requires Controlled(s) && s'.runs == s.runs && s'.wakes == s.wakes && s'.claimed == s.claimed
    requires s'.store == s.store && s'.now == s.now && s'.signals == s.signals
    ensures Controlled(s')
  {
  }

  lemma JobKeepsControl(s: Sys, a: Action)
    requires Controlled(s) && a.Works()
    ensures Controlled(JobStep(s, a))
  {
    JobFrame(s, a);
    SameControl(s, JobStep(s, a));
  }

  lemma NextKeepsControl(accepts: Envelope -> bool, s: Sys, a: Action)
    requires Controlled(s)
    ensures Controlled(Next(accepts, s, a))
  {
    if a.Drives() { RunStepKeepsControl(s, a); }
    else if a.Works() { JobKeepsControl(s, a); }
    else if a.Ticks() { TickKeepsControl(s, a); }
    else if a.Collect? { CollectKeeps(accepts, s, a.e, a.dies); }
    else { CancelKeeps(s, a.run); }
  }
}
