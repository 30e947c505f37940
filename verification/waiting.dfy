/** What is kept of every run, also of one that died inside a park: a waiting run can still be
    woken, and the gates a death skipped are told apart from those it parked on. */
module Waiting {
  import opened Base
  import opened Definition
  import opened Lifecycle
  import opened Executor
  import opened ExecutorLaws
  import opened Protocol
  import opened Control

  /** A waiting run is at the checkpoint of its last park and holds a wake: the entry it parked on,
      or once that has fired, a claim. */
  ghost predicate WakeIsHeld(r: Run, wakes: seq<Wake>, claims: nat) {
    r.status.Waiting? ==>
      && r.parks != [] && ParkOk(r.plan, Last(r.parks), wakes)
      && r.saved == Some(Last(r.parks).flow) && !r.done
      && (wakes[Last(r.parks).wake].fired ==> claims >= 1)
  }

  /** The gates a death skipped are recorded as waited on, and so are those the run parked on;
      none of them is both. */
  ghost predicate SkipsTold(p: Plan, parks: seq<Park>, skipped: set<StepId>, gates: seq<StepId>) {
    && (forall g | g in skipped :: IsGate(p, g) && g in gates)
    && (forall i | 0 <= i < |parks| && IsGate(p, parks[i].step) :: parks[i].step in gates)
    && (forall i | 0 <= i < |parks| :: parks[i].step !in skipped)
  }

  ghost predicate SkipsOk(r: Run) {
    SkipsTold(r.plan, r.parks, r.skipped, Resumption(r).gatesWaited)
  }

  ghost predicate RunHeld(r: Run, wakes: seq<Wake>, claims: nat) {
    WakeIsHeld(r, wakes, claims) && SkipsOk(r)
  }

  /** A join waits for one result. */
  ghost predicate JoinsForOne(wakes: seq<Wake>) {
    forall i | 0 <= i < |wakes| && wakes[i].condition.ResultsReady? :: wakes[i].condition.expected == 1
  }

  ghost predicate Held(s: Sys) {
    (forall id | id in s.runs :: RunHeld(s.runs[id], s.wakes, s.claimed[id])) && JoinsForOne(s.wakes)
  }

  // ---------- entries fire ----------

  lemma FiringHolds(r: Run, wakes: seq<Wake>, wakes': seq<Wake>, claims: nat, claims': nat)
    requires WakeIsHeld(r, wakes, claims) && Firing(wakes, wakes') && claims <= claims'
    requires (exists i :: NewlyFired(wakes, wakes', r.plan.run, i)) ==> claims' >= 1
    ensures WakeIsHeld(r, wakes', claims')
  {
    if r.status.Waiting? {
      var i := Last(r.parks).wake;
      if !wakes[i].fired && wakes'[i].fired { assert NewlyFired(wakes, wakes', r.plan.run, i); }
    }
  }

  lemma FiringKeepsHeld(s: Sys, s': Sys)
    requires Controlled(s) && Held(s) && s'.runs == s.runs && Firing(s.wakes, s'.wakes)
    requires forall id :: s.claimed[id] <= s'.claimed[id]
    requires forall id, i | NewlyFired(s.wakes, s'.wakes, id, i) :: s'.claimed[id] >= 1
    ensures Held(s')
  {
    forall id | id in s.runs
      ensures RunHeld(s.runs[id], s'.wakes, s'.claimed[id])
    {
      assert RunControl(id, s.runs[id], s.wakes, s.claimed[id]);
      assert RunHeld(s.runs[id], s.wakes, s.claimed[id]);
      FiringHolds(s.runs[id], s.wakes, s'.wakes, s.claimed[id], s'.claimed[id]);
    }
  }

  lemma SweepHolds(s: Sys, t: Trigger)
    requires Controlled(s) && Held(s)
    ensures Held(SweepFor(s, t))
  {
    var s' := SweepFor(s, t);
    WokenIsWhatIsClaimed(s.wakes, t);
    forall id, i | NewlyFired(s.wakes, s'.wakes, id, i)
      ensures s'.claimed[id] >= 1
    {
      assert Claimable(t, s.wakes[i]);
      assert id in Woken(s.wakes, t);
    }
    FiringKeepsHeld(s, s');
  }

  lemma OneFires(wakes: seq<Wake>, wakes': seq<Wake>, k: nat)
    requires k < |wakes| && wakes' == wakes[k := wakes[k].(fired := true)]
    ensures Firing(wakes, wakes')
    ensures forall id, i | NewlyFired(wakes, wakes', id, i) :: id == wakes[k].run
  {
  }

  lemma SatisfyHolds(s: Sys, s': Sys, run: RunId, k: nat)
    requires Controlled(s) && Held(s) && s'.runs == s.runs && k < |s.wakes| && s.wakes[k].run == run
    requires s'.wakes == s.wakes[k := s.wakes[k].(fired := true)] && s'.claimed == s.claimed + multiset{run}
    ensures Held(s')
  {
    OneFires(s.wakes, s'.wakes, k);
    FiringKeepsHeld(s, s');
  }

  lemma CollectHolds(accepts: Envelope -> bool, s: Sys, e: Envelope, dies: bool)
    requires Controlled(s) && Held(s)
    ensures Held(Collecting(accepts, s, e, dies))
  {
    if e in s.fx.replies && accepts(e) && !Holds(s.store, e.key) {
      if !dies && CanSatisfy(s.wakes, Some(s.store + [e]), e.run, e.stepRef) {
        SatisfyHolds(s, Collecting(accepts, s, e, dies), e.run, FirstAwaiting(s.wakes, e.run, e.stepRef));
      } else {
        SameRunsHeld(s, Collecting(accepts, s, e, dies));
      }
    }
  }

  // ---------- a segment ----------

  lemma ParkStays(p: Plan, pk: Park, wakes: seq<Wake>, more: seq<Wake>)
    requires ParkOk(p, pk, wakes) && wakes <= more
    ensures ParkOk(p, pk, more) && more[pk.wake] == wakes[pk.wake]
  {
  }

  /** A run that parks waits for the entry it has just scheduled. */
  lemma ParkHolds(r: Run, seg: Segment, wakes: seq<Wake>, now: int, closing: Closing, claims: nat)
    requires seg.outcome.Waits? ==> ParkedOn(r.plan, now, seg.flow, seg.outcome.on, seg.outcome.condition)
    requires !r.done
    ensures WakeIsHeld(RunAfter(r, seg, |wakes|, now, closing), WakesAfter(wakes, r.plan.run, seg, closing), claims)
  {
    var r' := RunAfter(r, seg, |wakes|, now, closing);
    if r'.status.Waiting? {
      var pk := Park(seg.outcome.on, |wakes|, now, seg.flow);
      assert Last(r'.parks) == pk;
      assert ParkOk(r.plan, pk, wakes + [Wake(r.plan.run, seg.outcome.condition, false)]);
    }
  }

  lemma ParkTells(p: Plan, parks: seq<Park>, skipped: set<StepId>, gates: seq<StepId>, pk: Park)
    requires SkipsTold(p, parks, skipped, gates) && forall g | g in gates :: IsGate(p, g)
    ensures IsGate(p, pk.step) && pk.step !in gates ==>
      && SkipsTold(p, parks + [pk], skipped, gates + [pk.step])
      && SkipsTold(p, parks, skipped + {pk.step}, gates + [pk.step])
    ensures !IsGate(p, pk.step) ==> SkipsTold(p, parks + [pk], skipped, gates)
  {
  }

  lemma AfterFields(r: Run, seg: Segment, wake: nat, now: int, closing: Closing)
    ensures var r' := RunAfter(r, seg, wake, now, closing);
      && r'.plan == r.plan
      && (seg.outcome.Waits? ==> r'.saved == Some(seg.flow))
      && (if seg.outcome.Waits? && closing.GoesThrough? then
            r'.parks == r.parks + [Park(seg.outcome.on, wake, now, seg.flow)]
          else r'.parks == r.parks)
      && (if seg.outcome.Waits? && closing.DiesAfterSave? && !seg.outcome.condition.ResultsReady? then
            r'.skipped == r.skipped + {seg.outcome.on}
          else r'.skipped == r.skipped)
      && (!seg.outcome.Waits? ==> r'.saved == r.saved || r'.saved == Some(seg.flow))
      && (seg.outcome.Crashed? ==> r'.saved == r.saved)
  {
  }

  lemma SkipsAfter(r: Run, seg: Segment, wake: nat, now: int, closing: Closing)
    requires SkipsOk(r) && FlowFits(r.plan, Resumption(r)) && GatesKept(Resumption(r), seg)
    requires seg.outcome.Waits? ==> (IsGate(r.plan, seg.outcome.on) <==> !seg.outcome.condition.ResultsReady?)
    ensures SkipsOk(RunAfter(r, seg, wake, now, closing))
  {
    var gates := Resumption(r).gatesWaited;
    AfterFields(r, seg, wake, now, closing);
    if seg.outcome.Waits? {
      var on := seg.outcome.on;
      ParkTells(r.plan, r.parks, r.skipped, gates, Park(on, wake, now, seg.flow));
      MoreGatesTold(r.plan, r.parks, r.skipped, gates, on);
    }
  }

  lemma MoreGatesTold(p: Plan, parks: seq<Park>, skipped: set<StepId>, gates: seq<StepId>, on: StepId)
    requires SkipsTold(p, parks, skipped, gates)
    ensures SkipsTold(p, parks, skipped, gates + [on])
  {
  }

  lemma AwaitedKind(p: Plan, now: int, flow: Flow, on: StepId, c: WakeCondition)
    requires UniqueIds(p.steps) && ParkedOn(p, now, flow, on, c)
    ensures (IsGate(p, on) <==> !c.ResultsReady?) && (c.ResultsReady? ==> c.expected == 1)
  {
    var s :| s in p.steps && s.id == on && AwaitedBy(p, now, flow, s, c);
    if t :| t in p.steps && t.id == on && t.kind.GateStep? { SameIdSameStep(p.steps, s, t); }
  }

  ghost predicate ForOne(seg: Segment) {
    seg.outcome.Waits? && seg.outcome.condition.ResultsReady? ==> seg.outcome.condition.expected == 1
  }

  lemma SegmentHolds(r: Run, w: World, store: seq<Envelope>, wakes: seq<Wake>, claims: nat)
    requires ValidPlan(r.plan) && CheckpointOk(r) && SkipsOk(r) && !r.done
    ensures var seg := Drive(r.plan, w, store, Resumption(r));
      RunHeld(RunAfter(r, seg, |wakes|, w.now, w.closing), WakesAfter(wakes, r.plan.run, seg, w.closing), claims)
    ensures ForOne(Drive(r.plan, w, store, Resumption(r)))
  {
    var seg := Drive(r.plan, w, store, Resumption(r));
    ResumptionFits(r);
    DriveEnds(r.plan, w, store, Resumption(r));
    DriveGates(r.plan, w, store, Resumption(r));
    if seg.outcome.Waits? { AwaitedKind(r.plan, w.now, seg.flow, seg.outcome.on, seg.outcome.condition); }
    ParkHolds(r, seg, wakes, w.now, w.closing, claims);
    SkipsAfter(r, seg, |wakes|, w.now, w.closing);
  }

  // ---------- the system ----------

  ghost predicate OthersAreHeld(s: Sys, id: RunId) {
    forall other | other in s.runs && other != id :: RunHeld(s.runs[other], s.wakes, s.claimed[other])
  }

  lemma OneRunHolds(s: Sys, r': Run, s': Sys)
    requires OthersAreHeld(s, r'.plan.run) && RunHeld(r', s'.wakes, s'.claimed[r'.plan.run])
    requires s'.runs == s.runs[r'.plan.run := r'] && s.wakes <= s'.wakes && s'.claimed == s.claimed
    requires JoinsForOne(s'.wakes)
    ensures Held(s')
  {
    forall other | other in s.runs && other != r'.plan.run
      ensures RunHeld(s.runs[other], s'.wakes, s.claimed[other])
    {
      var r := s.runs[other];
      assert RunHeld(r, s.wakes, s.claimed[other]);
      if r.status.Waiting? { ParkStays(r.plan, Last(r.parks), s.wakes, s'.wakes); }
    }
  }

  lemma DrivenHolds(s: Sys, r: Run, flow: Flow, w: World)
    requires ValidPlan(r.plan) && CheckpointOk(r) && SkipsOk(r) && flow == Resumption(r)
    requires OthersAreHeld(s, r.plan.run) && JoinsForOne(s.wakes)
    ensures Held(Driven(s, r, flow, w))
  {
    var s' := Driven(s, r, flow, w);
    if w.closing.DiesAtOnce? || r.done || r.cancel {
      OneRunHolds(s, s'.runs[r.plan.run], s');
    } else {
      var w' := w.(now := s.now);
      SegmentHolds(r, w', s.store, s.wakes, s.claimed[r.plan.run]);
      AfterHolds(s, r, Drive(r.plan, w', s.store, flow), w.closing);
    }
  }

  lemma AfterHolds(s: Sys, r: Run, seg: Segment, closing: Closing)
    requires OthersAreHeld(s, r.plan.run) && JoinsForOne(s.wakes) && ForOne(seg)
    requires RunHeld(RunAfter(r, seg, |s.wakes|, s.now, closing), WakesAfter(s.wakes, r.plan.run, seg, closing),
                     s.claimed[r.plan.run])
    ensures Held(AfterSegment(s, r, seg, closing))
  {
    SamePlan(r, seg, |s.wakes|, s.now, closing);
    OneRunHolds(s, RunAfter(r, seg, |s.wakes|, s.now, closing), AfterSegment(s, r, seg, closing));
  }

  // ---------- every action ----------

  /** A claim less is a matter of its own run. */
  lemma OthersStayHeld(s: Sys, id: RunId)
    requires Held(s)
    ensures OthersAreHeld(s.(claimed := s.claimed - multiset{id}), id)
  {
    forall other | other in s.runs && other != id
      ensures (s.claimed - multiset{id})[other] == s.claimed[other]
    {
    }
  }

  lemma ResumeHolds(s: Sys, id: RunId, w: World)
    requires Controlled(s) && Held(s) && id in s.claimed && s.runs[id].saved.Some?
    ensures Held(Driven(s.(claimed := s.claimed - multiset{id}), s.runs[id], s.runs[id].saved.value, w))
  {
    var r := s.runs[id];
    assert RunControl(id, r, s.wakes, s.claimed[id]) && RunHeld(r, s.wakes, s.claimed[id]);
    OthersStayHeld(s, id);
    DrivenHolds(s.(claimed := s.claimed - multiset{id}), r, r.saved.value, w);
  }

  lemma RecoverHolds(s: Sys, id: RunId, w: World)
    requires Controlled(s) && Held(s) && id in s.runs && s.runs[id].saved.Some?
    ensures Held(Driven(s, s.runs[id], s.runs[id].saved.value, w))
  {
    var r := s.runs[id];
    assert RunControl(id, r, s.wakes, s.claimed[id]) && RunHeld(r, s.wakes, s.claimed[id]);
    DrivenHolds(s, r, r.saved.value, w);
  }

  lemma RunStepHolds(s: Sys, a: Action)
    requires Controlled(s) && Held(s) && a.Drives()
    ensures Held(RunStep(s, a))
  {
    if RunStep(s, a) != s {
      match a
      case Start(p, checkpointed, w) => DrivenHolds(s, NewRun(p, checkpointed), FRESH_FLOW, w);
      case Resume(id, w) => ResumeHolds(s, id, w);
      case Recover(id, w) => RecoverHolds(s, id, w);
    }
  }

  lemma TickHolds(s: Sys, a: Action)
    requires Controlled(s) && Held(s) && a.Ticks()
    ensures Held(TickStep(s, a))
  {
    match a
    case PollTimers => SweepHolds(s, Clock(s.now));
    case PollJoins => SweepHolds(s, Joins(Some(s.store)));
    case Signal(name) => SignalHolds(s, name);
    case Advance(_) =>
  }

  lemma SignalHolds(s: Sys, name: string)
    requires Controlled(s) && Held(s)
    ensures Held(SweepFor(s.(signals := s.signals + {name}), Lifecycle.Event(name)))
  {
    SweepHolds(s, Lifecycle.Event(name));
    SameRunsHeld(SweepFor(s, Lifecycle.Event(name)),
                 SweepFor(s.(signals := s.signals + {name}), Lifecycle.Event(name)));
  }

  lemma SameRunsHeld(s: Sys, s': Sys)
    requires Held(s) && s'.runs == s.runs && s'.wakes == s.wakes && s'.claimed == s.claimed
    ensures Held(s')
  {
  }

  lemma CancelHolds(s: Sys, id: RunId)
    requires Held(s)
    ensures Held(CancelStep(s, id))
  {
    if id in s.runs { assert RunHeld(s.runs[id], s.wakes, s.claimed[id]); }
  }

  lemma NextHolds(accepts: Envelope -> bool, s: Sys, a: Action)
    requires Controlled(s) && Held(s)
    ensures Held(Next(accepts, s, a))
  {
    if a.Drives() { RunStepHolds(s, a); }
    else if a.Works() {
      JobFrame(s, a);
      SameRunsHeld(s, JobStep(s, a));
    }
    else if a.Ticks() { TickHolds(s, a); }
    else if a.Collect? { CollectHolds(accepts, s, a.e, a.dies); }
    else { CancelHolds(s, a.run); }
  }
}
