/** What the system promises over every sequence of actions: any interleaving of segments,
    crashes, worker steps, redeliveries, polls, events and cancellations. */
module Guarantees {
  import opened Base
  import opened Definition
  import opened Keys
  import opened Lifecycle
  import opened Executor
  import opened ExecutorLaws
  import opened Provenance
  import opened Workers
  import opened Protocol
  import opened Control
  import opened Records
  import opened Waiting
  import opened Closure
  import opened Settling

  // ---------- parking and waking ----------

  ghost predicate UnfiredOf(wakes: seq<Wake>, id: RunId, i: int) {
    0 <= i < |wakes| && wakes[i].run == id && !wakes[i].fired
  }

  ghost predicate HasOneWake(s: Sys, id: RunId)
    requires id in s.runs
  {
    && s.claimed[id] <= 1
    && (forall i, j | UnfiredOf(s.wakes, id, i) && UnfiredOf(s.wakes, id, j) :: i == j)
    && (forall i | UnfiredOf(s.wakes, id, i) ::
          s.runs[id].status.Waiting? && s.runs[id].parks != [] && i == Last(s.runs[id].parks).wake)
    && (s.claimed[id] == 1 ==> s.runs[id].status.Waiting?)
    && (s.runs[id].status.Waiting? ==> ((exists i :: UnfiredOf(s.wakes, id, i)) <==> s.claimed[id] == 0))
  }

  /** A waiting run has exactly one thing to wait for: an unfired entry, which is the one it
      parked on last, or a claimed wake whose resume is still to come. No other run has an
      unfired entry or a claim. A run that died between the wake entry of a park and the
      WAITING status is excepted: see `OneWakeExactly` and `ClaimedAnyNumber`. */
  lemma ParkedRunHasOneWake(accepts: Envelope -> bool, s: Sys, id: RunId)
    requires Reachable(accepts, s) && id in s.runs && !s.runs[id].torn
    ensures HasOneWake(s, id)
  {
    AlwaysSound(accepts, s);
    RunIsSound(accepts, s, id);
    OrderlyHasOneWake(s, id);
  }

  lemma OrderlyHasOneWake(s: Sys, id: RunId)
    requires id in s.runs && !s.runs[id].torn && UnfiredAreOwned(s.runs, s.wakes)
    requires RunControl(id, s.runs[id], s.wakes, s.claimed[id])
    ensures HasOneWake(s, id)
  {
    var r := s.runs[id];
    if r.parks != [] {
      assert ParkOk(r.plan, Last(r.parks), s.wakes);
      assert UnfiredOf(s.wakes, id, Last(r.parks).wake) <==> !s.wakes[Last(r.parks).wake].fired;
    }
  }

  /** The gate has passed on its own entry: the run parked on it, the entry scheduled for it
      then has fired, and what the definition asks of the gate has come about. */
  ghost predicate OwnWakeFired(s: Sys, r: Run, g: StepId) {
    exists i | 0 <= i < |r.parks| ::
      && r.parks[i].step == g
      && OwnGateWake(s, r.plan, r.parks[i])
  }

  ghost predicate OwnGateWake(s: Sys, p: Plan, pk: Park) {
    && pk.wake < |s.wakes|
    && s.wakes[pk.wake].fired
    && exists gate | gate in p.steps ::
          gate.id == pk.step && gate.kind.GateStep? && GateIsDue(p, pk, gate, s.now, s.signals)
  }

  /** What the definition asks of a gate, in its own terms: its event has been signalled, its
      time has come, or its delay has passed since the run parked on it. */
  ghost predicate GateIsDue(p: Plan, pk: Park, gate: Step, now: int, signals: set<string>) {
    var spec := Payload(p, gate, pk.flow.outputs);
    if spec.Get("wait") == Text("external_event") then
      (if spec.Get("event_key").Truthy() then p.show(spec.Get("event_key")) else p.run + ":" + gate.id) in signals
    else if spec.Get("at") != Null then spec.Get("at").Number? && spec.Get("at").n <= now
    else if spec.Get("delay_s").Number? then pk.at + spec.Get("delay_s").n <= now
    else spec.Get("delay_s") == Null && pk.at <= now
  }

  lemma FiredGateIsDue(p: Plan, pk: Park, gate: Step, wake: Wake, store: seq<Envelope>, now: int, signals: set<string>)
    requires GateCondition(p, pk.at, gate, pk.flow.outputs) == Some(wake.condition)
    requires wake.fired && FiredFor(wake, store, now, signals)
    ensures GateIsDue(p, pk, gate, now, signals)
  {
  }

  lemma PassedGateHadItsWake(s: Sys, id: RunId, g: StepId)
    requires Controlled(s) && id in s.runs && !s.runs[id].torn
    requires g in MayPass(s.runs[id], s.wakes) && g !in s.runs[id].skipped && RoleOf(s.runs[id].plan, g).Gate?
    ensures OwnWakeFired(s, s.runs[id], g)
  {
    var r := s.runs[id];
    assert RunControl(id, r, s.wakes, s.claimed[id]);
    var i :| && 0 <= i < |r.parks| && r.parks[i].step == g
             && r.parks[i].wake < |s.wakes| && s.wakes[r.parks[i].wake].fired;
    var pk := r.parks[i];
    assert ParkOk(r.plan, pk, s.wakes) && FiredFor(s.wakes[pk.wake], s.store, s.now, s.signals);
    var gate :| && gate in r.plan.steps && gate.id == g
                && AwaitedBy(r.plan, pk.at, pk.flow, gate, s.wakes[pk.wake].condition);
    StepIsFound(r.plan, gate);
    FiredGateIsDue(r.plan, pk, gate, s.wakes[pk.wake], s.store, s.now, s.signals);
    assert OwnGateWake(s, r.plan, pk);
  }

  /** The checkpoint of the run records an output of the step. */
  ghost predicate HasOutput(s: Sys, id: RunId, step: StepId) {
    id in s.runs && s.runs[id].saved.Some? && step in s.runs[id].saved.value.outputs
  }

  /** Whatever results of other steps arrive meanwhile, a gate that a run has recorded as
      passed was passed after its own wake, exactly if no death came between the checkpoint of
      the park on that gate and the wake entry. A run that died after a wake entry is excepted. */
  lemma GatePassesAfterItsOwnWake(accepts: Envelope -> bool, s: Sys, id: RunId, g: StepId)
    requires Reachable(accepts, s) && HasOutput(s, id, g) && RoleOf(s.runs[id].plan, g).Gate?
    requires !s.runs[id].torn
    ensures OwnWakeFired(s, s.runs[id], g) <==> g !in s.runs[id].skipped
  {
    AlwaysSound(accepts, s);
    RecordedMayPass(s.runs[id], s.wakes, s.store, g);
    if g in s.runs[id].skipped { SkippedHasNoWake(s, id, g); } else { PassedGateHadItsWake(s, id, g); }
  }

  lemma RecordedMayPass(r: Run, wakes: seq<Wake>, store: seq<Envelope>, g: StepId)
    requires RunData(r, wakes, store) && r.saved.Some? && g in r.saved.value.outputs && RoleOf(r.plan, g).Gate?
    ensures g in MayPass(r, wakes)
  {
    assert OutputOk(r.plan, store, MayPass(r, wakes), g, r.saved.value.outputs[g]);
  }

  /** A gate that a death skipped never gets a wake of its own. */
  lemma SkippedHasNoWake(s: Sys, id: RunId, g: StepId)
    requires Held(s) && id in s.runs && g in s.runs[id].skipped
    ensures !OwnWakeFired(s, s.runs[id], g)
  {
    assert RunHeld(s.runs[id], s.wakes, s.claimed[id]);
  }

  /** The segment that resuming or recovering a run drives next. */
  ghost predicate NextSegment(s: Sys, id: RunId, flow: Flow) {
    && id in s.runs && s.runs[id].saved == Some(flow) && !s.runs[id].done
    && (id in s.claimed || s.runs[id].status.Running?)
  }

  /** The first segment of a run that is about to start. */
  ghost predicate FirstSegment(s: Sys, r: Run, flow: Flow) {
    && r.plan.run !in s.runs && ValidPlan(r.plan) && flow == FRESH_FLOW
    && (r == NewRun(r.plan, true) || r == NewRun(r.plan, false))
  }

  /** The run is driven from this checkpointed state next: it starts, resumes or recovers. */
  ghost predicate DrivenNext(s: Sys, r: Run, flow: Flow) {
    || FirstSegment(s, r, flow)
    || (NextSegment(s, r.plan.run, flow) && s.runs[r.plan.run] == r)
  }

  lemma DrivenNextIsReady(accepts: Envelope -> bool, s: Sys, r: Run, flow: Flow)
    requires Controlled(s) && Recorded(accepts, s) && DrivenNext(s, r, flow)
    ensures Ready(r, flow, s.wakes) && !r.done && RunData(r, s.wakes, s.store)
    ensures OutputsOk(r.plan, s.store, MayPass(r, s.wakes), flow.outputs)
    ensures forall g | g in flow.gatesWaited :: g in MayPass(r, s.wakes)
  {
    if FirstSegment(s, r, flow) {
      StoreIsOkForNewRun(s, accepts, r.plan);
    } else {
      NextSegmentIsReady(accepts, s, r.plan.run, flow);
    }
  }

  lemma NextSegmentIsReady(accepts: Envelope -> bool, s: Sys, id: RunId, flow: Flow)
    requires Controlled(s) && Recorded(accepts, s) && NextSegment(s, id, flow)
    ensures var r := s.runs[id];
      && r.plan.run == id && Ready(r, flow, s.wakes) && RunData(r, s.wakes, s.store)
      && OutputsOk(r.plan, s.store, MayPass(r, s.wakes), flow.outputs)
      && forall g | g in flow.gatesWaited :: g in MayPass(r, s.wakes)
  {
    var r := s.runs[id];
    assert RunControl(id, r, s.wakes, s.claimed[id]) && RunData(r, s.wakes, s.store);
    WaitedGatesPassed(r, flow, s.wakes, s.store);
  }

  lemma PassedFits(p: Plan, start: Flow, s: Step, e: Executor.Event)
    requires s in p.steps && EventFits(p, start, s, e) && e.Passed?
    ensures e.step == s.id && s.kind.GateStep? && s.id in start.gatesWaited
  {
  }

  lemma PassedHadWakes(s: Sys, r: Run, flow: Flow, w: World, i: nat)
    requires Controlled(s) && r.plan.run in s.runs && s.runs[r.plan.run] == r && !r.torn
    requires ValidPlan(r.plan)
    requires forall g | g in flow.gatesWaited :: g in MayPass(r, s.wakes)
    requires var events := Drive(r.plan, w, s.store, flow).events; i < |events| && events[i].Passed?
    requires Drive(r.plan, w, s.store, flow).events[i].step !in r.skipped
    ensures OwnWakeFired(s, r, Drive(r.plan, w, s.store, flow).events[i].step)
  {
    PassedWasWaitedOn(r.plan, w, s.store, flow, i);
    PassedGateHadItsWake(s, r.plan.run, Drive(r.plan, w, s.store, flow).events[i].step);
  }

  lemma PassedWasWaitedOn(p: Plan, w: World, store: seq<Envelope>, flow: Flow, i: nat)
    requires WellFormed(p.steps)
    requires var events := Drive(p, w, store, flow).events; i < |events| && events[i].Passed?
    ensures var step := Drive(p, w, store, flow).events[i].step;
      step in flow.gatesWaited && RoleOf(p, step).Gate?
  {
    var events, start := Drive(p, w, store, flow).events, Opening(p, store, flow);
    EndsInOrder(p, w, store, flow);
    assert EventInOrder(p, start, events, i);
    var t :| t in p.steps && EventFits(p, start, t, events[i]);
    PassedFits(p, start, t, events[i]);
    StepIsFound(p, t);
  }

  lemma SentHadAncestors(r: Run, store: seq<Envelope>, passed: set<StepId>, flow: Flow, w: World)
    requires ValidPlan(r.plan) && StoreOk(r.plan, store) && OutputsOk(r.plan, store, passed, flow.outputs)
    requires forall g | g in flow.gatesWaited :: g in passed
    ensures var events := Drive(r.plan, w, store, flow).events;
      forall i | 0 <= i < |events| && events[i].Sent? :: AncestorsStored(r.plan, store, events[i].step)
  {
    var events := Drive(r.plan, w, store, flow).events;
    forall i | 0 <= i < |events| && events[i].Sent?
      ensures AncestorsStored(r.plan, store, events[i].step)
    { SentTaskOk(r.plan, w, store, flow, passed, i); }
  }

  lemma EndsInOrder(p: Plan, w: World, store: seq<Envelope>, flow: Flow)
    requires WellFormed(p.steps)
    ensures !Drive(p, w, store, flow).outcome.Stalled?
    ensures InOrder(p, Opening(p, store, flow), Drive(p, w, store, flow).events)
  {
    DriveLaw(p, w, store, flow);
    DriveEnds(p, w, store, flow);
  }

  /** Every action of every segment, the first one included and even when the segment is cut
      short later: a step is sent, run or passed only when all its dependencies are complete.
      No segment ends in the stalled error. */
  lemma SegmentsActInOrder(accepts: Envelope -> bool, s: Sys, r: Run, flow: Flow, w: World)
    requires Reachable(accepts, s) && DrivenNext(s, r, flow)
    ensures !SegmentOf(s, r, flow, w).outcome.Stalled?
    ensures InOrder(r.plan, Opening(r.plan, s.store, flow), SegmentOf(s, r, flow, w).events)
  {
    if !FirstSegment(s, r, flow) { RunIsControlled(accepts, s, r.plan.run); }
    EndsInOrder(r.plan, w.(now := s.now), s.store, flow);
  }

  /** Every gate that a segment passes, even if the segment is cut short later, had its own
      wake, exactly if no death skipped it. A run that died after a wake entry is excepted. */
  lemma SegmentsPassGatesOnTime(accepts: Envelope -> bool, s: Sys, r: Run, flow: Flow, w: World, i: nat)
    requires Reachable(accepts, s) && DrivenNext(s, r, flow) && !r.torn
    requires var events := SegmentOf(s, r, flow, w).events; i < |events| && events[i].Passed?
    ensures var g := SegmentOf(s, r, flow, w).events[i].step; OwnWakeFired(s, r, g) <==> g !in r.skipped
  {
    AlwaysSound(accepts, s);
    var g := SegmentOf(s, r, flow, w).events[i].step;
    if FirstSegment(s, r, flow) {
      PassedWasWaitedOn(r.plan, w.(now := s.now), s.store, flow, i);
    } else {
      NextSegmentIsReady(accepts, s, r.plan.run, flow);
      if g in r.skipped {
        SkippedHasNoWake(s, r.plan.run, g);
      } else {
        PassedHadWakes(s, r, flow, w.(now := s.now), i);
      }
    }
  }

  /** Every task that a segment sends, even if the segment is cut short later, is sent when all
      queue steps before it, directly or not, have stored results. */
  lemma SegmentsSendAfterResults(accepts: Envelope -> bool, s: Sys, r: Run, flow: Flow, w: World, i: nat)
    requires Reachable(accepts, s) && DrivenNext(s, r, flow)
    requires var events := SegmentOf(s, r, flow, w).events; i < |events| && events[i].Sent?
    ensures AncestorsStored(r.plan, s.store, SegmentOf(s, r, flow, w).events[i].step)
  {
    AlwaysSound(accepts, s);
    DrivenNextIsReady(accepts, s, r, flow);
    SentHadAncestors(r, s.store, MayPass(r, s.wakes), flow, w.(now := s.now));
  }

  lemma RunIsControlled(accepts: Envelope -> bool, s: Sys, id: RunId)
    requires Reachable(accepts, s) && id in s.runs
    ensures RunControl(id, s.runs[id], s.wakes, s.claimed[id])
  {
    AlwaysSound(accepts, s);
  }

  // ---------- progress ----------

  /** The steps of the plan that were complete at a park. */
  function DoneAt(p: Plan, pk: Park): set<StepId> {
    pk.flow.outputs.Keys * Ids(p.steps)
  }

  lemma ParkedStepIsPending(p: Plan, pk: Park, wakes: seq<Wake>)
    requires ParkOk(p, pk, wakes)
    ensures pk.step in Ids(p.steps) && pk.step !in DoneAt(p, pk)
  {
    var s :| s in p.steps && s.id == pk.step && AwaitedBy(p, pk.at, pk.flow, s, wakes[pk.wake].condition);
  }

  lemma SomeStepIsPending(p: Plan, pk: Park, wakes: seq<Wake>)
    requires ParkOk(p, pk, wakes)
    ensures |DoneAt(p, pk)| < |Ids(p.steps)|
  {
    ParkedStepIsPending(p, pk, wakes);
    StrictSubsetSize(DoneAt(p, pk), Ids(p.steps));
  }

  lemma {:induction false} ParksCount(p: Plan, parks: seq<Park>, i: nat)
    requires CountsUp(p, parks) && i < |parks|
    ensures i <= |DoneAt(p, parks[i])|
  {
    if i > 0 {
      var j := i - 1;
      ParksCount(p, parks, j);
      assert |DoneAt(p, parks[j])| < |DoneAt(p, parks[j + 1])|;
    }
  }

  /** More steps are complete at each park than at the one before. */
  ghost predicate CountsUp(p: Plan, parks: seq<Park>) {
    forall i {:trigger parks[i + 1]} | 0 <= i < |parks| - 1 :: |DoneAt(p, parks[i])| < |DoneAt(p, parks[i + 1])|
  }

  lemma ParksCountUp(p: Plan, parks: seq<Park>, wakes: seq<Wake>)
    requires ParksOk(p, parks, wakes)
    ensures CountsUp(p, parks)
  {
    forall i {:trigger parks[i + 1]} | 0 <= i < |parks| - 1
      ensures |DoneAt(p, parks[i])| < |DoneAt(p, parks[i + 1])|
    {
      ParkedStepIsPending(p, parks[i], wakes);
      NextParkGrows(p, parks, wakes, i);
      GrowsMore(p, parks[i], parks[i + 1]);
    }
  }

  lemma NextParkGrows(p: Plan, parks: seq<Park>, wakes: seq<Wake>, i: nat)
    requires ParksOk(p, parks, wakes) && i + 1 < |parks|
    ensures Grows(parks[i], parks[i + 1])
  {
  }

  lemma GrowsMore(p: Plan, a: Park, b: Park)
    requires Grows(a, b) && a.step in Ids(p.steps)
    ensures |DoneAt(p, a)| < |DoneAt(p, b)|
  {
    assert a.step in DoneAt(p, b) && a.step !in DoneAt(p, a);
    assert DoneAt(p, a) < DoneAt(p, b);
    StrictSubsetSize(DoneAt(p, a), DoneAt(p, b));
  }

  /** From one park to the next the completed set grows. */
  ghost predicate ParksGrow(parks: seq<Park>) {
    forall i {:trigger parks[i + 1]} | 0 <= i < |parks| - 1 :: Grows(parks[i], parks[i + 1])
  }

  lemma ParksAreFew(p: Plan, parks: seq<Park>, wakes: seq<Wake>)
    requires WellFormed(p.steps) && ParksOk(p, parks, wakes)
    ensures |parks| <= |p.steps| && ParksGrow(parks)
  {
    UniqueIdsCount(p.steps);
    if parks != [] {
      ParksCountUp(p, parks, wakes);
      ParksCount(p, parks, |parks| - 1);
      SomeStepIsPending(p, Last(parks), wakes);
    }
  }

  /** The run has parked at most as often as it has steps, completing from one park to the next
      the step it was parked on. */
  ghost predicate ParksBounded(r: Run) {
    |r.parks| <= |r.plan.steps| && ParksGrow(r.parks)
  }

  /** A run of any accepted workflow parks at most as often as it has steps, and from one park
      to the next it completes at least the step it was parked on, keeping all outputs. */
  lemma ParksAtMostOncePerStep(accepts: Envelope -> bool, s: Sys, id: RunId)
    requires Reachable(accepts, s) && id in s.runs && !s.runs[id].torn
    ensures ParksBounded(s.runs[id])
  {
    RunIsControlled(accepts, s, id);
    ParksAreFew(s.runs[id].plan, s.runs[id].parks, s.wakes);
  }

  /** The run has completed the step it was parked on. */
  ghost predicate Advanced(r: Run, r': Run) {
    && r.parks != [] && r.saved.Some? && Last(r.parks).step !in r.saved.value.outputs
    && r'.saved.Some? && Last(r.parks).step in r'.saved.value.outputs
  }

  lemma SegmentAdvances(r: Run, w: World, store: seq<Envelope>, wakes: seq<Wake>, signals: set<string>)
    requires AtPark(r, wakes) && r.parks != [] && !r.done && r.saved == Some(Last(r.parks).flow)
    requires FiredFor(wakes[Last(r.parks).wake], store, w.now, signals)
    ensures var r' := RunAfter(r, Drive(r.plan, w, store, Resumption(r)), |wakes|, w.now, w.closing);
      r'.status.Waiting? || r'.status.Completed? ==> Advanced(r, r')
  {
    assert ParkOk(r.plan, Last(r.parks), wakes);
    ResumeProgress(r, w, store, wakes, w.now, signals);
  }

  lemma DrivenAdvances(s: Sys, r: Run, w: World)
    requires WakesSound(s) && r.parks != [] && AtPark(r, s.wakes) && !r.done && r.saved == Some(Last(r.parks).flow)
    ensures var r' := Driven(s, r, Resumption(r), w).runs[r.plan.run];
      r'.status.Waiting? || r'.status.Completed? ==> Advanced(r, r')
  {
    SegmentAdvances(r, w.(now := s.now), s.store, s.wakes, s.signals);
  }

  lemma ResumeAdvances(s: Sys, id: RunId, w: World)
    requires Controlled(s) && id in s.claimed && !s.runs[id].torn && !s.runs[id].done
    ensures s.runs[id].saved.Some?
    ensures var s' := Driven(s.(claimed := s.claimed - multiset{id}), s.runs[id], s.runs[id].saved.value, w);
      && id in s'.runs
      && (s'.runs[id].status.Waiting? || s'.runs[id].status.Completed? ==> Advanced(s.runs[id], s'.runs[id]))
  {
    var r := s.runs[id];
    assert RunControl(id, r, s.wakes, s.claimed[id]);
    DrivenAdvances(s.(claimed := s.claimed - multiset{id}), r, w);
  }

  lemma ResumeIsDriven(accepts: Envelope -> bool, s: Sys, id: RunId, w: World)
    requires id in s.claimed && id in s.runs && s.runs[id].saved.Some?
    ensures Next(accepts, s, Resume(id, w))
          == Driven(s.(claimed := s.claimed - multiset{id}), s.runs[id], s.runs[id].saved.value, w)
  {
  }

  /** Resuming a claimed wake completes the step the run was parked on, unless the segment is
      cut short, denied or cancelled. */
  lemma ClaimedWakeMakesProgress(accepts: Envelope -> bool, s: Sys, s': Sys, id: RunId, w: World)
    requires Reachable(accepts, s) && id in s.claimed && s' == Next(accepts, s, Resume(id, w))
    requires id in s.runs && !s.runs[id].torn && !s.runs[id].done
    ensures id in s'.runs
    ensures s'.runs[id].status.Waiting? || s'.runs[id].status.Completed? ==> Advanced(s.runs[id], s'.runs[id])
  {
    AlwaysSound(accepts, s);
    ResumeAdvances(s, id, w);
    ResumeIsDriven(accepts, s, id, w);
  }

  /** A segment from a park completes the step parked on, unless it is cut short, exactly if the
      step is a gate or has a stored result. */
  lemma FromParkExactly(p: Plan, w: World, store: seq<Envelope>, pk: Park, wakes: seq<Wake>)
    requires ValidPlan(p) && StoreOk(p, store) && ParkOk(p, pk, wakes)
    ensures var seg := Drive(p, w, store, pk.flow);
      seg.outcome.Finished? || seg.outcome.Waits? ==>
        (pk.step in seg.flow.outputs <==> RoleOf(p, pk.step).Gate? || Stored(store, p.run, pk.step))
  {
    var c, seg := wakes[pk.wake].condition, Drive(p, w, store, pk.flow);
    var t :| t in p.steps && t.id == pk.step && AwaitedBy(p, pk.at, pk.flow, t, c);
    StepIsFound(p, t);
    if RoleOf(p, pk.step).Gate? || Stored(store, p.run, pk.step) {
      WakeMakesProgress(p, w, store, pk.flow, pk.step, c, pk.at);
    } else {
      UnstoredStaysOpen(p, w, store, pk.flow, t);
    }
  }

  lemma UnstoredStaysOpen(p: Plan, w: World, store: seq<Envelope>, flow: Flow, t: Step)
    requires ValidPlan(p) && IsQueueStep(p, t) && !Stored(store, p.run, t.id) && t.id !in flow.outputs
    ensures t.id !in Drive(p, w, store, flow).flow.outputs
  {
    DriveLaw(p, w, store, flow);
    forall s | s in p.steps && s.id == t.id
      ensures s == t
    { SameIdSameStep(p.steps, s, t); }
  }

  /** Of every run, wherever it died before: resuming it completes the step it was parked on,
      unless the segment is cut short, denied or cancelled, exactly if that step is a gate or has
      a stored result. */
  lemma ResumeAdvancesExactly(accepts: Envelope -> bool, s: Sys, s': Sys, id: RunId, w: World)
    requires Reachable(accepts, s) && id in s.claimed && s' == Next(accepts, s, Resume(id, w))
    requires id in s.runs && s.runs[id].status.Waiting?
    ensures s.runs[id].parks != [] && id in s'.runs
    ensures var r, r', step := s.runs[id], s'.runs[id], Last(s.runs[id].parks).step;
      r'.status.Waiting? || r'.status.Completed? ==>
        (Advanced(r, r') <==> RoleOf(r.plan, step).Gate? || Stored(s.store, id, step))
  {
    AlwaysSound(accepts, s);
    RunIsSound(accepts, s, id);
    ResumeIsDriven(accepts, s, id, w);
    WaitingAdvancesExactly(s.(claimed := s.claimed - multiset{id}), s.runs[id], w);
  }

  lemma WaitingAdvancesExactly(s: Sys, r: Run, w: World)
    requires ValidPlan(r.plan) && StoreOk(r.plan, s.store) && !r.done && r.status.Waiting?
    requires r.parks != [] && ParkOk(r.plan, Last(r.parks), s.wakes) && r.saved == Some(Last(r.parks).flow)
    ensures var r' := Driven(s, r, Resumption(r), w).runs[r.plan.run];
      r'.status.Waiting? || r'.status.Completed? ==>
        (Advanced(r, r') <==>
          RoleOf(r.plan, Last(r.parks).step).Gate? || Stored(s.store, r.plan.run, Last(r.parks).step))
  {
    var w' := w.(now := s.now);
    FromParkExactly(r.plan, w', s.store, Last(r.parks), s.wakes);
    DrivenRun(s, r, w);
    AdvancedAfter(r, Drive(r.plan, w', s.store, Resumption(r)), |s.wakes|, s.now, w.closing);
  }

  lemma DrivenRun(s: Sys, r: Run, w: World)
    requires !r.done
    ensures var r' := Driven(s, r, Resumption(r), w).runs[r.plan.run];
      r'.status.Waiting? || r'.status.Completed? ==>
        r' == RunAfter(r, Drive(r.plan, w.(now := s.now), s.store, Resumption(r)), |s.wakes|, s.now, w.closing)
  {
  }

  lemma AdvancedAfter(r: Run, seg: Segment, wake: nat, now: int, closing: Closing)
    requires r.parks != [] && r.saved == Some(Last(r.parks).flow) && Last(r.parks).step !in Last(r.parks).flow.outputs
    ensures var r' := RunAfter(r, seg, wake, now, closing);
      r'.status.Waiting? || r'.status.Completed? ==>
        && (seg.outcome.Waits? || seg.outcome.Finished?)
        && (Advanced(r, r') <==> Last(r.parks).step in seg.flow.outputs)
  {
  }

  /** The result the run waits for is stored. */
  ghost predicate JoinIsStored(s: Sys, r: Run) {
    && r.status.Waiting? && r.parks != [] && RoleOf(r.plan, Last(r.parks).step).QueueTask?
    && Stored(s.store, r.plan.run, Last(r.parks).step)
  }

  lemma StoredJoinIsClaimable(s: Sys, r: Run)
    requires ValidPlan(r.plan) && JoinIsStored(s, r) && ParkOk(r.plan, Last(r.parks), s.wakes)
    ensures !s.wakes[Last(r.parks).wake].fired ==> Claimable(Joins(Some(s.store)), s.wakes[Last(r.parks).wake])
  {
    var pk := Last(r.parks);
    var t :| t in r.plan.steps && t.id == pk.step && AwaitedBy(r.plan, pk.at, pk.flow, t, s.wakes[pk.wake].condition);
    StepIsFound(r.plan, t);
  }

  lemma PollClaimsStoredJoin(s: Sys, id: RunId)
    requires Controlled(s) && Held(s) && id in s.runs && JoinIsStored(s, s.runs[id])
    ensures id in SweepFor(s, Joins(Some(s.store))).claimed
  {
    var r, t := s.runs[id], Joins(Some(s.store));
    assert RunControl(id, r, s.wakes, s.claimed[id]) && RunHeld(r, s.wakes, s.claimed[id]);
    StoredJoinIsClaimable(s, r);
    if !s.wakes[Last(r.parks).wake].fired {
      WokenIsWhatIsClaimed(s.wakes, t);
      assert id in Woken(s.wakes, t);
    }
  }

  lemma PollIsSweep(accepts: Envelope -> bool, s: Sys)
    ensures Next(accepts, s, PollJoins) == SweepFor(s, Joins(Some(s.store)))
  {
  }

  /** No join is lost, whatever died before: whenever the result a run waits for is stored,
      however the arrival of the result and the parking of the run fell, the run is claimed
      after the next poll. */
  lemma NoJoinIsLost(accepts: Envelope -> bool, s: Sys, id: RunId)
    requires Reachable(accepts, s) && id in s.runs && JoinIsStored(s, s.runs[id])
    ensures id in Next(accepts, s, PollJoins).claimed
  {
    AlwaysSound(accepts, s);
    PollClaimsStoredJoin(s, id);
    PollIsSweep(accepts, s);
  }

  /** What an external event has to be called for this gate. */
  function EventOf(p: Plan, pk: Park, gate: Step): string {
    var key := Payload(p, gate, pk.flow.outputs).Get("event_key");
    if key.Truthy() then p.show(key) else p.run + ":" + gate.id
  }

  ghost predicate WaitsForEvent(p: Plan, pk: Park, gate: Step) {
    Payload(p, gate, pk.flow.outputs).Get("wait") == Text("external_event")
  }

  /** A gate that is due is hit by the poll of the timers; one that waits for an event is hit by
      its signal. */
  lemma DueGateIsHit(p: Plan, pk: Park, gate: Step, wake: Wake, now: int)
    requires GateCondition(p, pk.at, gate, pk.flow.outputs) == Some(wake.condition)
    ensures !WaitsForEvent(p, pk, gate) && GateIsDue(p, pk, gate, now, {}) ==> Hits(Clock(now), wake)
    ensures WaitsForEvent(p, pk, gate) ==> Hits(Lifecycle.Event(EventOf(p, pk, gate)), wake)
  {
  }

  lemma ParkedGateCondition(p: Plan, pk: Park, gate: Step, wakes: seq<Wake>)
    requires ValidPlan(p) && ParkOk(p, pk, wakes) && gate in p.steps && gate.kind.GateStep? && gate.id == pk.step
    ensures GateCondition(p, pk.at, gate, pk.flow.outputs) == Some(wakes[pk.wake].condition)
  {
    var t :| t in p.steps && t.id == pk.step && AwaitedBy(p, pk.at, pk.flow, t, wakes[pk.wake].condition);
    SameIdSameStep(p.steps, t, gate);
  }

  /** A sweep that hits the entry of a waiting run leaves it claimed. */
  lemma HitRunIsClaimed(s: Sys, r: Run, t: Trigger)
    requires WakeIsHeld(r, s.wakes, s.claimed[r.plan.run]) && r.status.Waiting? && Hits(t, s.wakes[Last(r.parks).wake])
    ensures r.plan.run in SweepFor(s, t).claimed
  {
    var i := Last(r.parks).wake;
    if !s.wakes[i].fired {
      WokenIsWhatIsClaimed(s.wakes, t);
      assert Claimable(t, s.wakes[i]) && r.plan.run in Woken(s.wakes, t);
    }
  }

  lemma TicksAreSweeps(accepts: Envelope -> bool, s: Sys, name: string)
    ensures Next(accepts, s, PollTimers) == SweepFor(s, Clock(s.now))
    ensures Next(accepts, s, Signal(name)) == SweepFor(s.(signals := s.signals + {name}), Lifecycle.Event(name))
  {
  }

  /** No gate is lost, whatever died before: a run that waits on a gate is claimed by the next
      poll once the time the definition asks for has come or the delay has passed, and by the
      signal of the event it asks for. */
  lemma NoGateIsLost(accepts: Envelope -> bool, s: Sys, id: RunId, gate: Step)
    requires Reachable(accepts, s) && id in s.runs && s.runs[id].status.Waiting?
    requires gate in s.runs[id].plan.steps && gate.kind.GateStep?
    requires s.runs[id].parks != [] && Last(s.runs[id].parks).step == gate.id
    ensures var p, pk := s.runs[id].plan, Last(s.runs[id].parks);
      if WaitsForEvent(p, pk, gate) then id in Next(accepts, s, Signal(EventOf(p, pk, gate))).claimed
      else GateIsDue(p, pk, gate, s.now, s.signals) ==> id in Next(accepts, s, PollTimers).claimed
  {
    var r := s.runs[id];
    var p, pk := r.plan, Last(r.parks);
    var name := EventOf(p, pk, gate);
    AlwaysSound(accepts, s);
    RunIsSound(accepts, s, id);
    ParkedGateCondition(p, pk, gate, s.wakes);
    DueGateIsHit(p, pk, gate, s.wakes[pk.wake], s.now);
    TicksAreSweeps(accepts, s, name);
    if WaitsForEvent(p, pk, gate) {
      HitRunIsClaimed(s.(signals := s.signals + {name}), r, Lifecycle.Event(name));
    } else if GateIsDue(p, pk, gate, s.now, s.signals) {
      HitRunIsClaimed(s, r, Clock(s.now));
    }
  }

  /** The collector does not wait for a poll: the first result of the step a run waits for claims
      the run at once. */
  lemma FreshResultClaimsAtOnce(accepts: Envelope -> bool, s: Sys, id: RunId, e: Envelope)
    requires Reachable(accepts, s) && id in s.runs && s.runs[id].status.Waiting? && s.runs[id].parks != []
    requires e in s.fx.replies && accepts(e) && !Holds(s.store, e.key)
    requires e.run == id && e.stepRef == Last(s.runs[id].parks).step
    ensures id in Next(accepts, s, Collect(e, false)).claimed
    ensures Next(accepts, s, Collect(e, false)).store == s.store + [e]
  {
    AlwaysSound(accepts, s);
    RunIsSound(accepts, s, id);
    ReplyIsTask(accepts, s, e);
    AwaitedJoin(s.runs[id], s.wakes, e.stepRef);
    FreshIsEnough(s, s.runs[id], e);
    FreshIsCollected(accepts, s, e);
  }

  lemma FreshIsCollected(accepts: Envelope -> bool, s: Sys, e: Envelope)
    requires e in s.fx.replies && accepts(e) && !Holds(s.store, e.key)
    ensures var s' := Next(accepts, s, Collect(e, false));
      && s'.store == s.store + [e]
      && (CanSatisfy(s.wakes, Some(s.store + [e]), e.run, e.stepRef) || e.run in s.claimed ==> e.run in s'.claimed)
  {
  }

  lemma AwaitedJoin(r: Run, wakes: seq<Wake>, step: StepId)
    requires ValidPlan(r.plan) && r.parks != [] && ParkOk(r.plan, Last(r.parks), wakes)
    requires Last(r.parks).step == step && RoleOf(r.plan, step).QueueTask?
    ensures wakes[Last(r.parks).wake].condition == ResultsReady(Some(step), 1)
  {
    var pk := Last(r.parks);
    var t :| t in r.plan.steps && t.id == step && AwaitedBy(r.plan, pk.at, pk.flow, t, wakes[pk.wake].condition);
    StepIsFound(r.plan, t);
  }

  lemma FreshIsEnough(s: Sys, r: Run, e: Envelope)
    requires WakeIsHeld(r, s.wakes, s.claimed[e.run]) && r.status.Waiting? && r.plan.run == e.run
    requires s.wakes[Last(r.parks).wake].condition == ResultsReady(Some(e.stepRef), 1)
    requires JoinsForOne(s.wakes)
    ensures CanSatisfy(s.wakes, Some(s.store + [e]), e.run, e.stepRef) || e.run in s.claimed
  {
    assert (s.store + [e])[..|s.store|] == s.store;
  }

  // ---------- what a run has recorded ----------

  /** The `i`-th stored result is the first one of the step. */
  predicate IsFirstResult(s: Sys, id: RunId, step: StepId, i: int) {
    && 0 <= i < |s.store| && s.store[i].run == id && s.store[i].stepRef == step
    && forall j | 0 <= j < i :: !(s.store[j].run == id && s.store[j].stepRef == step)
  }

  /** The output of a queue step is the first stored result of that very step; the result
      answers a task message of this run and was accepted by the validator. */
  lemma QueueOutputsAreAcceptedResults(accepts: Envelope -> bool, s: Sys, id: RunId, step: StepId)
    requires Reachable(accepts, s) && HasOutput(s, id, step) && RoleOf(s.runs[id].plan, step).QueueTask?
    ensures exists i | 0 <= i < |s.store| ::
      && IsFirstResult(s, id, step, i) && accepts(s.store[i]) && s.store[i].key in s.fx.tasks
      && s.store[i].output == s.runs[id].saved.value.outputs[step]
  {
    AlwaysSound(accepts, s);
    var r := s.runs[id];
    assert RunControl(id, r, s.wakes, s.claimed[id]) && RunData(r, s.wakes, s.store);
    assert OutputOk(r.plan, s.store, MayPass(r, s.wakes), step, r.saved.value.outputs[step]);
    var i := FirstOutputIsFirst(s.store, id, step);
    assert IsFirstResult(s, id, step, i) && s.store[i] in s.store && s.store[i] in s.fx.replies;
  }

  /** Every result message answers a task message of its run and step, sent for a queue step
      when the queue steps before it had stored results. */
  lemma ResultsAnswerTasks(accepts: Envelope -> bool, s: Sys, e: Envelope)
    requires Reachable(accepts, s) && e in s.fx.replies
    ensures e.key in s.fx.tasks && e.run in s.runs && e.key.run == e.run && e.key.ref == e.stepRef
    ensures RoleOf(s.runs[e.run].plan, e.stepRef).QueueTask? && AncestorsStored(s.runs[e.run].plan, s.store, e.stepRef)
  {
    AlwaysSound(accepts, s);
    ReplyIsTask(accepts, s, e);
  }

  /** The completed set in every checkpoint is closed under dependencies, whatever crashed
      before; a completed run has completed every step. */
  lemma CheckpointsAreClosed(accepts: Envelope -> bool, s: Sys, id: RunId)
    requires Reachable(accepts, s) && id in s.runs && s.runs[id].saved.Some?
    ensures DownClosed(s.runs[id].plan, s.runs[id].saved.value.outputs)
    ensures s.runs[id].status.Completed? ==> Ids(s.runs[id].plan.steps) <= s.runs[id].saved.value.outputs.Keys
  {
    AlwaysSound(accepts, s);
    assert RunControl(id, s.runs[id], s.wakes, s.claimed[id]) && RunSettles(s.runs[id], s.store, s.fx.tasks);
  }

  /** While no segment has been cut short the set is closed at the start of a segment too. */
  lemma UncrashedRunsOpenClosed(accepts: Envelope -> bool, s: Sys, id: RunId, flow: Flow)
    requires Reachable(accepts, s) && NextSegment(s, id, flow) && !s.runs[id].lost
    ensures DownClosed(s.runs[id].plan, Opening(s.runs[id].plan, s.store, flow).outputs)
  {
    AlwaysSound(accepts, s);
    assert RunControl(id, s.runs[id], s.wakes, s.claimed[id]) && RunClosed(s.runs[id], s.fx.tasks);
    StoredWereSent(accepts, s, id, flow);
    OpeningDownClosed(s.runs[id].plan, s.store, flow);
  }

  // ---------- at most once ----------

  lemma OnceIsDistinct(keys: seq<Key>)
    requires forall k :: multiset(keys)[k] <= 1
    ensures Distinct(keys)
  {
    forall i, j | 0 <= i < j < |keys|
      ensures keys[i] != keys[j]
    {
      var head, tail := keys[..j], keys[j..];
      assert keys == head + tail && head[i] == keys[i] && tail[0] == keys[j];
      assert keys[i] in multiset(head) && keys[j] in multiset(tail);
      assert multiset(keys) == multiset(head) + multiset(tail);
      assert multiset(keys)[keys[i]] == multiset(head)[keys[i]] + multiset(tail)[keys[i]];
    }
  }

  /** Every idempotency key has at most one task message, one ledger record and one result
      message more than the guard has lost records of it, exactly one of each when nothing was
      lost, and at most one stored result in any case; each of them answers a task message. */
  lemma EachKeyOnce(accepts: Envelope -> bool, s: Sys)
    requires Reachable(accepts, s)
    ensures forall k :: multiset(s.fx.tasks)[k] <= 1 + s.fx.unrecorded[PublishTask(k)]
    ensures forall k :: multiset(s.fx.ledger)[k] <= 1 + s.fx.unrecorded[Effect(k)]
    ensures forall k :: multiset(KeysOf(s.fx.replies))[k] <= 1 + s.fx.unrecorded[PublishResult(k)]
    ensures s.fx.unrecorded == multiset{} ==>
      Distinct(s.fx.tasks) && Distinct(s.fx.ledger) && Distinct(KeysOf(s.fx.replies))
    ensures DistinctKeys(s.store)
    ensures forall k | k in s.fx.ledger :: k in s.fx.tasks
    ensures forall e | e in s.fx.replies :: e.key in s.fx.tasks
    ensures forall e | e in s.store :: e in s.fx.replies && e.key in s.fx.tasks
  {
    AlwaysSound(accepts, s);
    BalancedIsBound(s.fx);
    if s.fx.unrecorded == multiset{} {
      OnceIsDistinct(s.fx.tasks);
      OnceIsDistinct(s.fx.ledger);
      OnceIsDistinct(KeysOf(s.fx.replies));
    }
  }

  /** A step whose dispatches all carry the same key: the run never lost a segment, or the
      payload of the step is settled by outputs that a replay finds again. */
  ghost predicate Repeatable(r: Run, step: StepId) {
    !r.lost || (FindStep(r.plan.steps, step).Some? && Replayable(r.plan, FindStep(r.plan.steps, step).value))
  }

  lemma SameStepSameKey(accepts: Envelope -> bool, s: Sys, k: Key, l: Key)
    requires Reachable(accepts, s)
    requires k in s.fx.tasks && l in s.fx.tasks && k.run == l.run && k.ref == l.ref
    requires k.run in s.runs && Repeatable(s.runs[k.run], k.ref)
    ensures k == l
  {
    AlwaysSound(accepts, s);
    assert RunControl(k.run, s.runs[k.run], s.wakes, s.claimed[k.run]) && RunClosed(s.runs[k.run], s.fx.tasks);
    assert TaskOk(s.runs[k.run].plan, s.store, k) && TaskOk(s.runs[l.run].plan, s.store, l);
  }

  /** All keys of the step in this log are the same one. */
  ghost predicate OneKey(tasks: seq<Key>, id: RunId, step: StepId) {
    forall k, l | k in tasks && l in tasks && k.run == id && l.run == id && k.ref == step && l.ref == step :: k == l
  }

  lemma ReplyKeysAreTasks(fx: Effects)
    requires RepliesOk(fx)
    ensures forall k | k in KeysOf(fx.replies) :: k in fx.tasks
  {
    forall k | k in KeysOf(fx.replies)
      ensures k in fx.tasks
    {
      var i :| 0 <= i < |fx.replies| && fx.replies[i].key == k;
      assert fx.replies[i] in fx.replies;
    }
  }

  /** Crash replay: over every run, however often it crashes and is driven again from its
      checkpoint, a repeatable step has one key. So each log holds the step at most as often as
      `EachKeyOnce` allows a key, and the store holds it at most once. */
  lemma EachStepOnce(accepts: Envelope -> bool, s: Sys, id: RunId, step: StepId)
    requires Reachable(accepts, s) && id in s.runs && Repeatable(s.runs[id], step)
    ensures OneKey(s.fx.tasks, id, step) && OneKey(s.fx.ledger, id, step) && OneKey(KeysOf(s.fx.replies), id, step)
    ensures |Listed(s.store, id, Some(step))| <= 1
  {
    AlwaysSound(accepts, s);
    forall k, l | k in s.fx.tasks && l in s.fx.tasks && k.run == id && l.run == id && k.ref == step && l.ref == step
      ensures k == l
    { SameStepSameKey(accepts, s, k, l); }
    ReplyKeysAreTasks(s.fx);
    StoredOnce(accepts, s, id, step);
  }

  lemma SameKeyStored(accepts: Envelope -> bool, s: Sys, id: RunId, step: StepId, a: Envelope, b: Envelope)
    requires Controlled(s) && Recorded(accepts, s) && OneKey(s.fx.tasks, id, step)
    requires a in s.store && b in s.store && a.run == b.run == id && a.stepRef == b.stepRef == step
    ensures a.key == b.key
  {
    ReplyIsTask(accepts, s, a);
    ReplyIsTask(accepts, s, b);
    assert a.key in s.fx.tasks && b.key in s.fx.tasks;
  }

  lemma StoredOnce(accepts: Envelope -> bool, s: Sys, id: RunId, step: StepId)
    requires Controlled(s) && Recorded(accepts, s) && OneKey(s.fx.tasks, id, step)
    ensures |Listed(s.store, id, Some(step))| <= 1
  {
    var found := Listed(s.store, id, Some(step));
    ListedIsWhatMatches(s.store, id, Some(step));
    if |found| > 1 {
      assert found[0] in found && found[1] in found;
      SameKeyStored(accepts, s, id, step, found[0], found[1]);
      assert false;
    }
  }

  // ---------- cancellation ----------

  /** Nothing of the run has begun between the two states: no segment, no task message, no
      subagent, no handler. */
  ghost predicate NothingBegan(s: Sys, s': Sys, id: RunId) {
    && id in s.runs && id in s'.runs && s'.runs[id].cancel
    && s'.runs[id].saved == s.runs[id].saved && s'.runs[id].done == s.runs[id].done
    && s'.runs[id].parks == s.runs[id].parks && s'.runs[id].lost == s.runs[id].lost
    && s.begun <= s'.begun && (forall i | |s.begun| <= i < |s'.begun| :: s'.begun[i].run != id)
    && s.subruns <= s'.subruns && (forall i | |s.subruns| <= i < |s'.subruns| :: s'.subruns[i] != id)
    && s.fx.tasks <= s'.fx.tasks && (forall i | |s.fx.tasks| <= i < |s'.fx.tasks| :: s'.fx.tasks[i].run != id)
  }

  lemma NothingBeganTwice(s: Sys, t: Sys, u: Sys, id: RunId)
    requires NothingBegan(s, t, id) && NothingBegan(t, u, id)
    ensures NothingBegan(s, u, id)
  {
  }

  lemma {:induction false} SubrunsAreOwn(run: RunId, events: seq<Executor.Event>)
    ensures forall i | 0 <= i < |Subruns(run, events)| :: Subruns(run, events)[i] == run
  {
    if events != [] { SubrunsAreOwn(run, events[..|events| - 1]); }
  }

  lemma SegmentOfOthersBeginsNothing(s: Sys, r: Run, flow: Flow, w: World, id: RunId)
    requires EffectsOk(s.fx) && id in s.runs && s.runs[id].cancel && r.plan.run != id && ValidPlan(r.plan)
    ensures NothingBegan(s, AfterSegment(s, r, Drive(r.plan, w, s.store, flow), w.closing), id)
  {
    var seg := Drive(r.plan, w, s.store, flow);
    PublishedLaw(s.fx, seg.events);
    NewKeysAreOwn(r.plan, w, s.store, flow);
    SubrunsAreOwn(r.plan.run, seg.events);
  }

  lemma DrivingOthersBeginsNothing(s: Sys, r: Run, flow: Flow, w: World, id: RunId)
    requires EffectsOk(s.fx) && id in s.runs && s.runs[id].cancel
    requires if r.plan.run == id then r == s.runs[id] else ValidPlan(r.plan)
    ensures NothingBegan(s, Driven(s, r, flow, w), id)
  {
    if r.plan.run != id { SegmentOfOthersBeginsNothing(s, r, flow, w.(now := s.now), id); }
  }

  lemma RunStepBeginsNothing(accepts: Envelope -> bool, s: Sys, a: Action, id: RunId)
    requires Controlled(s) && Recorded(accepts, s) && id in s.runs && s.runs[id].cancel && a.Drives()
    ensures NothingBegan(s, RunStep(s, a), id)
  {
    if RunStep(s, a) != s {
      match a
      case Start(p, checkpointed, w) => DrivingOthersBeginsNothing(s, NewRun(p, checkpointed), FRESH_FLOW, w, id);
      case Resume(other, w) =>
        assert RunControl(other, s.runs[other], s.wakes, s.claimed[other]);
        var s0 := s.(claimed := s.claimed - multiset{other});
        DrivingOthersBeginsNothing(s0, s.runs[other], s.runs[other].saved.value, w, id);
      case Recover(other, w) =>
        assert RunControl(other, s.runs[other], s.wakes, s.claimed[other]);
        DrivingOthersBeginsNothing(s, s.runs[other], s.runs[other].saved.value, w, id);
    }
  }

  lemma JobBeginsNothing(s: Sys, a: Action, id: RunId)
    requires id in s.runs && s.runs[id].cancel && a.Works()
    ensures NothingBegan(s, JobStep(s, a), id)
  {
    assert a.Begin? && a.message.key.run == id ==> JobStep(s, a) == s;
  }

  lemma OtherActionsBeginNothing(accepts: Envelope -> bool, s: Sys, a: Action, id: RunId)
    requires id in s.runs && s.runs[id].cancel && (a.Ticks() || a.Collect? || a.Cancel?)
    ensures NothingBegan(s, Next(accepts, s, a), id)
  {
    var s' := Next(accepts, s, a);
    assert s'.fx == s.fx && s'.begun == s.begun;
  }

  lemma NextBeginsNothing(accepts: Envelope -> bool, s: Sys, a: Action, id: RunId)
    requires Controlled(s) && Recorded(accepts, s) && id in s.runs && s.runs[id].cancel
    ensures NothingBegan(s, Next(accepts, s, a), id)
  {
    if a.Drives() { RunStepBeginsNothing(accepts, s, a, id); }
    else if a.Works() { JobBeginsNothing(s, a, id); }
    else { OtherActionsBeginNothing(accepts, s, a, id); }
  }

  lemma MoveBeginsNothing(accepts: Envelope -> bool, s: Sys, s': Sys, id: RunId)
    requires Reachable(accepts, s) && Moves(accepts, s, s') && id in s.runs && s.runs[id].cancel
    ensures NothingBegan(s, s', id)
  {
    AlwaysSound(accepts, s);
    var a :| s' == Next(accepts, s, a);
    NextBeginsNothing(accepts, s, a, id);
  }

  lemma {:induction false} HistoryBeginsNothing(accepts: Envelope -> bool, h: seq<Sys>, i: nat, id: RunId)
    requires IsHistory(accepts, h) && Reachable(accepts, h[0]) && i < |h|
    requires id in h[0].runs && h[0].runs[id].cancel
    ensures NothingBegan(h[0], h[i], id)
  {
    if i > 0 {
      var j := i - 1;
      HistoryBeginsNothing(accepts, h, j, id);
      HistoryIsReachable(accepts, h, j);
      assert Moves(accepts, h[j], h[j + 1]);
      MoveBeginsNothing(accepts, h[j], h[j + 1], id);
      NothingBeganTwice(h[0], h[j], h[j + 1], id);
    }
  }

  /** Once cancellation was asked for, no segment of the run and no handler of its tasks ever
      begins again, and no task message of it is sent, whatever happens later. */
  lemma CancelStopsTheRun(accepts: Envelope -> bool, s: Sys, later: Sys, id: RunId)
    requires Reachable(accepts, s) && id in s.runs && s.runs[id].cancel
    requires Reaches(accepts, s, later)
    ensures NothingBegan(s, later, id)
  {
    var h :| IsHistory(accepts, h) && h[0] == s && h[|h| - 1] == later;
    HistoryBeginsNothing(accepts, h, |h| - 1, id);
  }

  /** Asking for cancellation stops the run: nothing of it begins after that. */
  lemma CancelTakesHold(accepts: Envelope -> bool, s: Sys, later: Sys, id: RunId)
    requires Reachable(accepts, s) && id in s.runs
    requires Reaches(accepts, Next(accepts, s, Cancel(id)), later)
    ensures NothingBegan(Next(accepts, s, Cancel(id)), later, id)
  {
    NextIsReachable(accepts, s, Cancel(id));
    CancelStopsTheRun(accepts, Next(accepts, s, Cancel(id)), later, id);
  }
}
