/** What every reachable state of the system keeps about task messages, results and the
    outputs a run has recorded. */
module Records {
  import opened Base
  import opened Definition
  import opened Keys
  import opened Lifecycle
  import opened Executor
  import opened ExecutorLaws
  import opened Provenance
  import opened Workers
  import opened Protocol
  import opened Control
  import Driver

  /** The steps the run has parked on whose entry has fired. */
  function PassedBy(parks: seq<Park>, wakes: seq<Wake>): set<StepId> {
    set i | 0 <= i < |parks| && parks[i].wake < |wakes| && wakes[parks[i].wake].fired :: parks[i].step
  }

  /** The gates a checkpoint may record as passed: those whose entry fired, those a death
      skipped, and any gate when the run died after it had scheduled an entry. */
  function MayPass(r: Run, wakes: seq<Wake>): set<StepId> {
    PassedBy(r.parks, wakes) + r.skipped + if r.torn then Ids(r.plan.steps) else {}
  }

  ghost predicate WasParkedOn(parks: seq<Park>, g: StepId) {
    exists i | 0 <= i < |parks| :: parks[i].step == g
  }

  ghost predicate WasWaitedOn(r: Run, g: StepId) {
    WasParkedOn(r.parks, g) || g in r.skipped
  }

  /** A result of this run is stored after the results of all queue steps before it. */
  ghost predicate OrderedAt(p: Plan, store: seq<Envelope>, i: nat)
    requires i < |store|
  {
    store[i].run == p.run ==> RoleOf(p, store[i].stepRef).QueueTask? && AncestorsStored(p, store[..i], store[i].stepRef)
  }

  ghost predicate StoreOrdered(p: Plan, store: seq<Envelope>) {
    forall i | 0 <= i < |store| :: OrderedAt(p, store, i)
  }

  ghost predicate SavedData(r: Run, wakes: seq<Wake>, store: seq<Envelope>) {
    r.saved.Some? ==>
      && OutputsOk(r.plan, store, MayPass(r, wakes), r.saved.value.outputs)
      && (!r.done && !r.torn ==> forall g | g in r.saved.value.gatesWaited :: WasWaitedOn(r, g))
  }

  ghost predicate RunData(r: Run, wakes: seq<Wake>, store: seq<Envelope>) {
    StoreOk(r.plan, store) && StoreOrdered(r.plan, store) && SavedData(r, wakes, store)
  }

  ghost predicate TasksOk(runs: map<RunId, Run>, store: seq<Envelope>, tasks: seq<Key>) {
    forall k | k in tasks :: k.run in runs && TaskOk(runs[k.run].plan, store, k)
  }

  ghost predicate RepliesOk(fx: Effects) {
    forall e | e in fx.replies :: e.key in fx.tasks && e == EnvelopeFor(e.key, e.output)
  }

  ghost predicate JobsOk(s: Sys) {
    && (forall j | j in s.jobs :: s.jobs[j].message.key in s.fx.tasks)
    && (forall k | k in s.begun :: k in s.fx.tasks)
    && (forall k | k in s.fx.ledger :: k in s.fx.tasks)
  }

  ghost predicate StoredAreAccepted(accepts: Envelope -> bool, s: Sys) {
    DistinctKeys(s.store) && forall e | e in s.store :: e in s.fx.replies && accepts(e)
  }

  ghost predicate Recorded(accepts: Envelope -> bool, s: Sys) {
    && EffectsOk(s.fx)
    && (forall id | id in s.runs :: RunData(s.runs[id], s.wakes, s.store))
    && TasksOk(s.runs, s.store, s.fx.tasks)
    && RepliesOk(s.fx) && JobsOk(s)
    && StoredAreAccepted(accepts, s)
  }

  // ---------- entries fire, or one more is scheduled ----------

  ghost predicate LaterWakes(wakes: seq<Wake>, wakes': seq<Wake>) {
    |wakes| <= |wakes'| && forall i | 0 <= i < |wakes| :: wakes[i].fired ==> wakes'[i].fired
  }

  lemma LaterWakesKeepRun(r: Run, wakes: seq<Wake>, wakes': seq<Wake>, store: seq<Envelope>)
    requires RunData(r, wakes, store) && LaterWakes(wakes, wakes')
    ensures RunData(r, wakes', store)
  {
    assert PassedBy(r.parks, wakes) <= PassedBy(r.parks, wakes');
    if r.saved.Some? {
      MorePassedIsOk(r.plan, store, MayPass(r, wakes), MayPass(r, wakes'), r.saved.value.outputs);
    }
  }

  lemma LaterWakesKeep(accepts: Envelope -> bool, s: Sys, s': Sys)
    requires Recorded(accepts, s) && LaterWakes(s.wakes, s'.wakes)
    requires s'.runs == s.runs && s'.store == s.store && s'.fx == s.fx && s'.jobs == s.jobs && s'.begun == s.begun
    ensures Recorded(accepts, s')
  {
    forall id | id in s.runs
      ensures RunData(s.runs[id], s'.wakes, s.store)
    { LaterWakesKeepRun(s.runs[id], s.wakes, s'.wakes, s.store); }
  }

  // ---------- a segment ----------

  ghost predicate AllFired(parks: seq<Park>, wakes: seq<Wake>) {
    forall i | 0 <= i < |parks| :: parks[i].wake < |wakes| && wakes[parks[i].wake].fired
  }

  lemma AllParksFired(p: Plan, parks: seq<Park>, wakes: seq<Wake>)
    requires ParksOk(p, parks, wakes) && LastFired(parks, wakes)
    ensures AllFired(parks, wakes)
  {
    forall i | 0 <= i < |parks|
      ensures parks[i].wake < |wakes| && wakes[parks[i].wake].fired
    {
      if i < |parks| - 1 { assert Grows(parks[i], parks[i + 1]); }
      else { assert parks[i] == Last(parks); }
    }
  }

  lemma ParkedOnHavePassed(r: Run, wakes: seq<Wake>, gates: seq<StepId>)
    requires AllFired(r.parks, wakes) && forall g | g in gates :: WasWaitedOn(r, g)
    ensures forall g | g in gates :: g in PassedBy(r.parks, wakes) + r.skipped
  {
  }

  lemma WaitedGatesPassed(r: Run, flow: Flow, wakes: seq<Wake>, store: seq<Envelope>)
    requires Ready(r, flow, wakes) && SavedData(r, wakes, store) && !r.done
    ensures forall g | g in flow.gatesWaited :: g in MayPass(r, wakes)
  {
    if !r.torn {
      AllParksFired(r.plan, r.parks, wakes);
      ParkedOnHavePassed(r, wakes, flow.gatesWaited);
    }
  }

  lemma MoreParksPassed(parks: seq<Park>, pk: Park, wakes: seq<Wake>, w: Wake)
    ensures PassedBy(parks, wakes) <= PassedBy(parks + [pk], wakes + [w])
  {
    forall g | g in PassedBy(parks, wakes)
      ensures g in PassedBy(parks + [pk], wakes + [w])
    {
      var i :| 0 <= i < |parks| && parks[i].wake < |wakes| && wakes[parks[i].wake].fired && parks[i].step == g;
      assert (parks + [pk])[i] == parks[i];
    }
  }

  lemma SegmentKeepsData(r: Run, flow: Flow, w: World, store: seq<Envelope>, wakes: seq<Wake>)
    requires Ready(r, flow, wakes) && RunData(r, wakes, store) && !r.done
    ensures var seg := Drive(r.plan, w, store, flow);
      RunData(RunAfter(r, seg, |wakes|, w.now, w.closing), WakesAfter(wakes, r.plan.run, seg, w.closing), store)
    ensures forall g | g in flow.gatesWaited :: g in MayPass(r, wakes)
    ensures OutputsOk(r.plan, store, MayPass(r, wakes), flow.outputs)
  {
    WaitedGatesPassed(r, flow, wakes, store);
    SegmentOutputsOk(r.plan, w, store, flow, MayPass(r, wakes));
    DriveGates(r.plan, w, store, flow);
    SegmentRunData(r, flow, Drive(r.plan, w, store, flow), store, wakes, w.now, w.closing);
  }

  lemma SegmentRunData(r: Run, flow: Flow, seg: Segment, store: seq<Envelope>, wakes: seq<Wake>, now: int,
                       closing: Closing)
    requires RunData(r, wakes, store) && !r.done && flow == Resumption(r)
    requires OutputsOk(r.plan, store, MayPass(r, wakes), seg.flow.outputs)
    requires GatesKept(flow, seg)
    ensures RunData(RunAfter(r, seg, |wakes|, now, closing), WakesAfter(wakes, r.plan.run, seg, closing), store)
  {
    SamePlan(r, seg, |wakes|, now, closing);
    SavedStaysOk(r, flow, seg, store, wakes, now, closing);
  }

  lemma MayPassAfter(r: Run, seg: Segment, wakes: seq<Wake>, now: int, closing: Closing)
    ensures MayPass(r, wakes) <=
      MayPass(RunAfter(r, seg, |wakes|, now, closing), WakesAfter(wakes, r.plan.run, seg, closing))
  {
    var wakes' := WakesAfter(wakes, r.plan.run, seg, closing);
    assert PassedBy(r.parks, wakes) <= PassedBy(r.parks, wakes');
    if seg.outcome.Waits? && closing.GoesThrough? {
      var pk, wake := Park(seg.outcome.on, |wakes|, now, seg.flow), Wake(r.plan.run, seg.outcome.condition, false);
      MoreParksPassed(r.parks, pk, wakes, wake);
    }
  }

  lemma SavedStaysOk(r: Run, flow: Flow, seg: Segment, store: seq<Envelope>, wakes: seq<Wake>, now: int,
                     closing: Closing)
    requires SavedData(r, wakes, store) && !r.done && flow == Resumption(r)
    requires OutputsOk(r.plan, store, MayPass(r, wakes), seg.flow.outputs)
    requires GatesKept(flow, seg)
    ensures SavedData(RunAfter(r, seg, |wakes|, now, closing), WakesAfter(wakes, r.plan.run, seg, closing), store)
  {
    var r', wakes' := RunAfter(r, seg, |wakes|, now, closing), WakesAfter(wakes, r.plan.run, seg, closing);
    SamePlan(r, seg, |wakes|, now, closing);
    MayPassAfter(r, seg, wakes, now, closing);
    if !r'.torn { WaitedAfter(r, flow, seg, |wakes|, now, closing); }
    if r'.saved.Some? {
      var outputs := if r'.saved == r.saved then r.saved.value.outputs else seg.flow.outputs;
      MorePassedIsOk(r.plan, store, MayPass(r, wakes), MayPass(r', wakes'), outputs);
    }
  }

  /** Every gate the new checkpoint records was parked on, or a death skipped it. */
  lemma WaitedAfter(r: Run, flow: Flow, seg: Segment, wake: nat, now: int, closing: Closing)
    requires !r.done && flow == Resumption(r) && GatesKept(flow, seg)
    requires r.saved.Some? ==> forall g | g in flow.gatesWaited :: WasWaitedOn(r, g)
    ensures var r' := RunAfter(r, seg, wake, now, closing);
      !r'.torn && !r'.done && r'.saved.Some? ==> forall g | g in r'.saved.value.gatesWaited :: WasWaitedOn(r', g)
  {
    var r' := RunAfter(r, seg, wake, now, closing);
    if !r'.torn && !r'.done && r'.saved.Some? {
      forall g | g in r'.saved.value.gatesWaited
        ensures WasWaitedOn(r', g)
      {
        if g in flow.gatesWaited {
          StillWaitedOn(r, r', g);
        } else if closing.GoesThrough? {
          assert r'.parks[|r.parks|].step == g;
        }
      }
    }
  }

  lemma StillWaitedOn(r: Run, r': Run, g: StepId)
    requires WasWaitedOn(r, g) && r.parks <= r'.parks && r.skipped <= r'.skipped
    ensures WasWaitedOn(r', g)
  {
    if g !in r.skipped {
      var i :| 0 <= i < |r.parks| && r.parks[i].step == g;
      assert r'.parks[i].step == g;
    }
  }

  /** The broker gets the task messages of the segment and nothing else. */
  lemma {:induction false} PublishedLaw(fx: Effects, events: seq<Executor.Event>)
    requires EffectsOk(fx)
    ensures var fx' := Published(fx, events);
      && EffectsOk(fx') && fx'.ledger == fx.ledger && fx'.replies == fx.replies
      && fx.tasks <= fx'.tasks
      && (forall i | |fx.tasks| <= i < |fx'.tasks| :: SentKey(events, fx'.tasks[i]))
      && (forall k | SentKey(events, k) :: k in fx'.tasks)
  {
    if events != [] {
      var n := |events| - 1;
      PublishedLaw(fx, events[..n]);
      if events[n].Sent? { TaskKeepsOk(Published(fx, events[..n]), events[n].key, events[n].kept); }
      forall k
        ensures SentKey(events, k) <==> SentKey(events[..n], k) || (events[n].Sent? && events[n].key == k)
      { SentOneMore(events, k); }
    }
  }

  lemma SentOneMore(events: seq<Executor.Event>, k: Key)
    requires events != []
    ensures var n := |events| - 1;
      SentKey(events, k) <==> SentKey(events[..n], k) || (events[n].Sent? && events[n].key == k)
  {
    var n := |events| - 1;
    if SentKey(events[..n], k) {
      var i :| 0 <= i < n && events[..n][i].Sent? && events[..n][i].key == k;
      assert events[i].key == k;
    }
    if i :| 0 <= i < |events| && events[i].Sent? && events[i].key == k {
      if i < n { assert events[..n][i].key == k; }
    }
  }

  /** A new task message is one the segment has sent. */
  lemma NewTasksAreSent(fx: Effects, events: seq<Executor.Event>)
    requires EffectsOk(fx)
    ensures forall k | k in Published(fx, events).tasks :: k in fx.tasks || SentKey(events, k)
  {
    PublishedLaw(fx, events);
    var tasks := Published(fx, events).tasks;
    forall k | k in tasks
      ensures k in fx.tasks || SentKey(events, k)
    {
      var i :| 0 <= i < |tasks| && tasks[i] == k;
      if i < |fx.tasks| { assert fx.tasks[i] == k; }
    }
  }

  ghost predicate SentKey(events: seq<Executor.Event>, k: Key) {
    exists i | 0 <= i < |events| :: events[i].Sent? && events[i].key == k
  }

  lemma SegmentTasksOk(r: Run, flow: Flow, w: World, store: seq<Envelope>, passed: set<StepId>)
    requires ValidPlan(r.plan) && StoreOk(r.plan, store) && OutputsOk(r.plan, store, passed, flow.outputs)
    requires forall g | g in flow.gatesWaited :: g in passed
    ensures forall k | SentKey(Drive(r.plan, w, store, flow).events, k) :: TaskOk(r.plan, store, k)
  {
    var events := Drive(r.plan, w, store, flow).events;
    forall k | SentKey(events, k)
      ensures TaskOk(r.plan, store, k)
    {
      var i :| 0 <= i < |events| && events[i].Sent? && events[i].key == k;
      SentTaskOk(r.plan, w, store, flow, passed, i);
    }
  }

  /** One run takes a new value, with the same plan. */
  lemma TasksKeep(runs: map<RunId, Run>, r': Run, store: seq<Envelope>, tasks: seq<Key>, tasks': seq<Key>)
    requires TasksOk(runs, store, tasks)
    requires r'.plan.run in runs ==> r'.plan == runs[r'.plan.run].plan
    requires forall k | k in tasks' :: k in tasks || TaskOk(r'.plan, store, k)
    ensures TasksOk(runs[r'.plan.run := r'], store, tasks')
  {
  }

  lemma StoreIsOkForNewRun(s: Sys, accepts: Envelope -> bool, p: Plan)
    requires Recorded(accepts, s) && p.run !in s.runs
    ensures StoreOk(p, s.store) && StoreOrdered(p, s.store)
  {
    forall e | e in s.store
      ensures e.run != p.run
    {
      assert e in s.fx.replies;
      assert e == EnvelopeFor(e.key, e.output);
      assert e.key in s.fx.tasks;
    }
    NoResultsIsOk(p, s.store);
  }

  lemma NoResultsIsOk(p: Plan, store: seq<Envelope>)
    requires forall e | e in store :: e.run != p.run
    ensures StoreOk(p, store) && StoreOrdered(p, store)
  {
    forall id
      ensures !Stored(store, p.run, id)
    { StoredHasEnvelope(store, p.run, id); }
    forall i | 0 <= i < |store|
      ensures OrderedAt(p, store, i)
    { assert store[i] in store; }
  }

  lemma OneRunKeepsData(runs: map<RunId, Run>, runs': map<RunId, Run>, r': Run, wakes: seq<Wake>, wakes': seq<Wake>,
                        store: seq<Envelope>)
    requires forall id | id in runs :: RunData(runs[id], wakes, store)
    requires LaterWakes(wakes, wakes') && RunData(r', wakes', store)
    requires runs' == runs[r'.plan.run := r']
    ensures forall id | id in runs' :: RunData(runs'[id], wakes', store)
  {
    forall other | other in runs && other != r'.plan.run
      ensures RunData(runs[other], wakes', store)
    { LaterWakesKeepRun(runs[other], wakes, wakes', store); }
  }

  /** One run takes a new value, with more entries and more task messages. */
  lemma OneRunRecorded(accepts: Envelope -> bool, s: Sys, r': Run, wakes': seq<Wake>, fx': Effects,
                       subruns': seq<RunId>)
    requires Recorded(accepts, s) && LaterWakes(s.wakes, wakes') && RunData(r', wakes', s.store)
    requires EffectsOk(fx') && s.fx.tasks <= fx'.tasks && fx'.replies == s.fx.replies && fx'.ledger == s.fx.ledger
    requires TasksOk(s.runs[r'.plan.run := r'], s.store, fx'.tasks)
    ensures Recorded(accepts, s.(runs := s.runs[r'.plan.run := r'], wakes := wakes', fx := fx', subruns := subruns'))
  {
    OneRunKeepsData(s.runs, s.runs[r'.plan.run := r'], r', s.wakes, wakes', s.store);
  }

  lemma SegmentTasksKeep(runs: map<RunId, Run>, r: Run, r': Run, flow: Flow, w: World, store: seq<Envelope>,
                         passed: set<StepId>, fx: Effects)
    requires EffectsOk(fx) && TasksOk(runs, store, fx.tasks)
    requires ValidPlan(r.plan) && StoreOk(r.plan, store) && OutputsOk(r.plan, store, passed, flow.outputs)
    requires forall g | g in flow.gatesWaited :: g in passed
    requires r.plan.run in runs ==> r.plan == runs[r.plan.run].plan
    requires r'.plan == r.plan
    ensures var fx' := Published(fx, Drive(r.plan, w, store, flow).events);
      && EffectsOk(fx') && fx.tasks <= fx'.tasks && fx'.replies == fx.replies && fx'.ledger == fx.ledger
      && TasksOk(runs[r.plan.run := r'], store, fx'.tasks)
  {
    var events := Drive(r.plan, w, store, flow).events;
    PublishedLaw(fx, events);
    NewTasksAreSent(fx, events);
    SegmentTasksOk(r, flow, w, store, passed);
    TasksKeep(runs, r', store, fx.tasks, Published(fx, events).tasks);
  }

  lemma MarkRecords(accepts: Envelope -> bool, s: Sys, r: Run, status: Driver.Status)
    requires Recorded(accepts, s) && RunData(r, s.wakes, s.store)
    requires r.plan.run in s.runs ==> r.plan == s.runs[r.plan.run].plan
    ensures Recorded(accepts, Marked(s, r, status))
  {
    var r' := r.(status := status);
    TasksKeep(s.runs, r', s.store, s.fx.tasks, s.fx.tasks);
    OneRunRecorded(accepts, s, r', s.wakes, s.fx, s.subruns);
  }

  lemma SegmentRecords(accepts: Envelope -> bool, s: Sys, r: Run, flow: Flow, w: World)
    requires Recorded(accepts, s) && Ready(r, flow, s.wakes) && !r.done && w.now == s.now
    requires RunData(r, s.wakes, s.store)
    requires r.plan.run in s.runs ==> r.plan == s.runs[r.plan.run].plan
    ensures Recorded(accepts, AfterSegment(s, r, Drive(r.plan, w, s.store, flow), w.closing))
  {
    var id, seg := r.plan.run, Drive(r.plan, w, s.store, flow);
    var r', wakes' := RunAfter(r, seg, |s.wakes|, s.now, w.closing), WakesAfter(s.wakes, id, seg, w.closing);
    SegmentKeepsData(r, flow, w, s.store, s.wakes);
    SegmentTasksKeep(s.runs, r, r', flow, w, s.store, MayPass(r, s.wakes), s.fx);
    OneRunRecorded(accepts, s, r', wakes', Published(s.fx, seg.events), s.subruns + Subruns(id, seg.events));
  }

  lemma DrivenRecords(accepts: Envelope -> bool, s: Sys, r: Run, flow: Flow, w: World)
    requires Recorded(accepts, s) && Ready(r, flow, s.wakes)
    requires RunData(r, s.wakes, s.store)
    requires r.plan.run in s.runs ==> r.plan == s.runs[r.plan.run].plan
    ensures Recorded(accepts, Driven(s, r, flow, w))
  {
    if w.closing.DiesAtOnce? { MarkRecords(accepts, s, r, Driver.Running); }
    else if r.done { MarkRecords(accepts, s, r, Driver.Completed); }
    else if r.cancel { MarkRecords(accepts, s, r, Driver.Cancelled); }
    else { SegmentRecords(accepts, s, r, flow, w.(now := s.now)); }
  }

  // ---------- workers ----------

  lemma FxRecords(accepts: Envelope -> bool, s: Sys, s': Sys)
    requires Recorded(accepts, s)
    requires s'.runs == s.runs && s'.wakes == s.wakes && s'.store == s.store
    requires EffectsOk(s'.fx) && s'.fx.tasks == s.fx.tasks && s.fx.replies <= s'.fx.replies
    requires RepliesOk(s'.fx) && JobsOk(s')
    ensures Recorded(accepts, s')
  {
  }

  lemma BeginRecords(accepts: Envelope -> bool, s: Sys, a: Action)
    requires Recorded(accepts, s) && (a.Begin? || a.Drop?)
    ensures Recorded(accepts, JobStep(s, a))
  {
    FxRecords(accepts, s, JobStep(s, a));
  }

  lemma ActingLaw(fx: Effects, k: Key, move: Move)
    requires EffectsOk(fx)
    ensures var fx' := Acting(fx, k, move).0;
      EffectsOk(fx') && fx'.tasks == fx.tasks && fx'.replies == fx.replies && forall l | l in fx'.ledger ::
            l in fx.ledger || l == k
  {
    if move.Commits? { CommitKeepsOk(fx, k, move.output, move.kept); }
  }

  lemma MoveRecords(accepts: Envelope -> bool, s: Sys, a: Action)
    requires Recorded(accepts, s) && a.AgentMoves?
    ensures Recorded(accepts, JobStep(s, a))
  {
    if a.job in s.jobs && s.jobs[a.job].output.None? {
      var j := s.jobs[a.job];
      var (fx, output) := Acting(s.fx, j.message.key, a.move);
      ActingLaw(s.fx, j.message.key, a.move);
      var jobs := if output.None? then s.jobs - {a.job} else s.jobs[a.job := j.(output := output)];
      FxRecords(accepts, s, s.(fx := fx, jobs := jobs));
    }
  }

  lemma ReplyingLaw(c: Worker, fx: Effects, m: Message, output: Value, kept: bool)
    requires EffectsOk(fx) && RepliesOk(fx) && m.key in fx.tasks
    ensures var fx' := Replying(c, fx, m, output, kept);
      && EffectsOk(fx') && RepliesOk(fx') && fx'.tasks == fx.tasks && fx'.ledger == fx.ledger
      && fx.replies <= fx'.replies
  {
    ReplyKeepsOk(fx, EnvelopeFor(m.key, output), kept);
  }

  lemma ReplyRecords(accepts: Envelope -> bool, s: Sys, a: Action)
    requires Recorded(accepts, s) && a.Reply?
    ensures Recorded(accepts, JobStep(s, a))
  {
    if a.job in s.jobs && s.jobs[a.job].output.Some? {
      var j := s.jobs[a.job];
      var fx := Replying(j.worker, s.fx, j.message, j.output.value, a.kept);
      ReplyingLaw(j.worker, s.fx, j.message, j.output.value, a.kept);
      FxRecords(accepts, s, s.(fx := fx, jobs := s.jobs - {a.job}));
    }
  }

  // ---------- the collector ----------

  lemma ReplyIsTask(accepts: Envelope -> bool, s: Sys, e: Envelope)
    requires Controlled(s) && Recorded(accepts, s) && e in s.fx.replies
    ensures e.run in s.runs && e.key.run == e.run && e.stepRef == e.key.ref
    ensures TaskOk(s.runs[e.run].plan, s.store, e.key)
  {
    assert e == EnvelopeFor(e.key, e.output);
    var p := s.runs[e.key.run].plan;
    assert TaskOk(p, s.store, e.key) && ValidPlan(p);
    assert e.key.ref in Ids(p.steps) by { var t := FindStep(p.steps, e.key.ref).value; }
  }

  lemma RunKeepsWithResult(r: Run, wakes: seq<Wake>, store: seq<Envelope>, e: Envelope)
    requires RunData(r, wakes, store) && !Holds(store, e.key)
    requires e.run == r.plan.run ==> TaskOk(r.plan, store, e.key) && e.stepRef == e.key.ref
    ensures RunData(r, wakes, store + [e])
  {
    StoreStaysOk(r.plan, store, e);
    forall i | 0 <= i < |store + [e]|
      ensures OrderedAt(r.plan, store + [e], i)
    {
      if i < |store| {
        assert OrderedAt(r.plan, store, i);
        assert (store + [e])[..i] == store[..i];
      } else {
        assert (store + [e])[..i] == store;
      }
    }
    if r.saved.Some? {
      OutputsStayOk(r.plan, store, MayPass(r, wakes), e, r.saved.value.outputs);
    }
  }

  lemma TasksKeepWithResult(runs: map<RunId, Run>, store: seq<Envelope>, tasks: seq<Key>, e: Envelope)
    requires TasksOk(runs, store, tasks) && !Holds(store, e.key)
    ensures TasksOk(runs, store + [e], tasks)
  {
    forall k | k in tasks
      ensures k.run in runs && TaskOk(runs[k.run].plan, store + [e], k)
    { TaskStaysOk(runs[k.run].plan, store, e, k); }
  }

  lemma StoringRecords(accepts: Envelope -> bool, s: Sys, e: Envelope)
    requires Controlled(s) && Recorded(accepts, s)
    requires e in s.fx.replies && accepts(e) && !Holds(s.store, e.key)
    ensures Recorded(accepts, s.(store := s.store + [e]))
  {
    ReplyIsTask(accepts, s, e);
    forall id | id in s.runs
      ensures RunData(s.runs[id], s.wakes, s.store + [e])
    {
      assert RunControl(id, s.runs[id], s.wakes, s.claimed[id]);
      RunKeepsWithResult(s.runs[id], s.wakes, s.store, e);
    }
    TasksKeepWithResult(s.runs, s.store, s.fx.tasks, e);
  }

  lemma SatisfiedIsLater(wakes: seq<Wake>, store: seq<Envelope>, run: RunId, step: StepId)
    ensures LaterWakes(wakes, Satisfied(wakes, Some(store), run, step))
  {
  }

  lemma CollectRecords(accepts: Envelope -> bool, s: Sys, e: Envelope, dies: bool)
    requires Controlled(s) && Recorded(accepts, s)
    ensures Recorded(accepts, Collecting(accepts, s, e, dies))
  {
    if e in s.fx.replies && accepts(e) && !Holds(s.store, e.key) {
      var stored := s.(store := s.store + [e]);
      StoringRecords(accepts, s, e);
      if !dies {
        SatisfiedIsLater(s.wakes, stored.store, e.run, e.stepRef);
        LaterWakesKeep(accepts, stored, Collecting(accepts, s, e, dies));
      }
    }
  }

  // ---------- every action ----------

  lemma ResumeRecords(accepts: Envelope -> bool, s: Sys, id: RunId, w: World)
    requires Controlled(s) && Recorded(accepts, s) && id in s.claimed && s.runs[id].saved.Some?
    ensures Recorded(accepts, Driven(s.(claimed := s.claimed - multiset{id}), s.runs[id], s.runs[id].saved.value, w))
  {
    var r := s.runs[id];
    assert RunControl(id, r, s.wakes, s.claimed[id]);
    assert RunData(r, s.wakes, s.store);
    DrivenRecords(accepts, s.(claimed := s.claimed - multiset{id}), r, r.saved.value, w);
  }

  lemma RecoverRecords(accepts: Envelope -> bool, s: Sys, id: RunId, w: World)
    requires Controlled(s) && Recorded(accepts, s) && id in s.runs
    requires s.runs[id].status.Running? && s.runs[id].saved.Some?
    ensures Recorded(accepts, Driven(s, s.runs[id], s.runs[id].saved.value, w))
  {
    var r := s.runs[id];
    assert RunControl(id, r, s.wakes, s.claimed[id]);
    assert RunData(r, s.wakes, s.store);
    DrivenRecords(accepts, s, r, r.saved.value, w);
  }

  lemma StartRecords(accepts: Envelope -> bool, s: Sys, p: Plan, checkpointed: bool, w: World)
    requires Recorded(accepts, s) && p.run !in s.runs && ValidPlan(p)
    ensures Recorded(accepts, Driven(s, NewRun(p, checkpointed), FRESH_FLOW, w))
  {
    StoreIsOkForNewRun(s, accepts, p);
    DrivenRecords(accepts, s, NewRun(p, checkpointed), FRESH_FLOW, w);
  }

  lemma CancelRecords(accepts: Envelope -> bool, s: Sys, id: RunId)
    requires Controlled(s) && Recorded(accepts, s)
    ensures Recorded(accepts, CancelStep(s, id))
  {
    if id in s.runs {
      var r, r' := s.runs[id], s.runs[id].(cancel := true);
      assert RunControl(id, r, s.wakes, s.claimed[id]);
      assert RunData(r, s.wakes, s.store);
      TasksKeep(s.runs, r', s.store, s.fx.tasks, s.fx.tasks);
      OneRunRecorded(accepts, s, r', s.wakes, s.fx, s.subruns);
    }
  }

  lemma TickRecords(accepts: Envelope -> bool, s: Sys, a: Action)
    requires Recorded(accepts, s) && a.Ticks()
    ensures Recorded(accepts, TickStep(s, a))
  {
    LaterWakesKeep(accepts, s, TickStep(s, a));
  }

  lemma JobRecords(accepts: Envelope -> bool, s: Sys, a: Action)
    requires Recorded(accepts, s) && a.Works()
    ensures Recorded(accepts, JobStep(s, a))
  {
    match a
    case AgentMoves(_, _) => MoveRecords(accepts, s, a);
    case Reply(_, _) => ReplyRecords(accepts, s, a);
    case _ => BeginRecords(accepts, s, a);
  }

  lemma RunStepRecords(accepts: Envelope -> bool, s: Sys, a: Action)
    requires Controlled(s) && Recorded(accepts, s) && a.Drives()
    ensures Recorded(accepts, RunStep(s, a))
  {
    if RunStep(s, a) != s {
      match a
      case Start(p, checkpointed, w) => StartRecords(accepts, s, p, checkpointed, w);
      case Resume(id, w) => ResumeRecords(accepts, s, id, w);
      case Recover(id, w) => RecoverRecords(accepts, s, id, w);
    }
  }

  lemma NextRecords(accepts: Envelope -> bool, s: Sys, a: Action)
    requires Controlled(s) && Recorded(accepts, s)
    ensures Recorded(accepts, Next(accepts, s, a))
  {
    if a.Drives() { RunStepRecords(accepts, s, a); }
    else if a.Works() { JobRecords(accepts, s, a); }
    else if a.Ticks() { TickRecords(accepts, s, a); }
    else if a.Collect? { CollectRecords(accepts, s, a.e, a.dies); }
    else { CancelRecords(accepts, s, a.run); }
  }
}
