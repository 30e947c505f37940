/** Where the outputs of a run come from: facts about a plan and the result store that every
    segment of the executor keeps, whatever was lost in crashes before. */
module Provenance {
  import opened Base
  import opened Templates
  import opened Definition
  import opened Keys
  import opened Lifecycle
  import opened Executor
  import opened ExecutorLaws

  // ---------- roles and ancestors ----------

  datatype Role = QueueTask | LocalTask | Gate | NoStep

  function FindStep(steps: seq<Step>, id: StepId): (r: Option<Step>)
    ensures r.Some? ==> r.value in steps && r.value.id == id
    ensures r.None? ==> id !in Ids(steps)
  {
    if steps == [] then None
    else if steps[0].id == id then Some(steps[0])
    else
      var r := FindStep(steps[1..], id);
      assert r.None? ==> forall i | 0 < i < |steps| :: steps[i].id != id by {
        assert forall i | 0 < i < |steps| :: steps[i] == steps[1..][i - 1];
      }
      r
  }

  function RoleOf(p: Plan, id: StepId): Role {
    match FindStep(p.steps, id)
    case None => NoStep
    case Some(s) => if s.kind.GateStep? then Gate else if ModeOf(p, s).Queue? then QueueTask else LocalTask
  }

  lemma StepIsFound(p: Plan, s: Step)
    requires UniqueIds(p.steps) && s in p.steps
    ensures FindStep(p.steps, s.id) == Some(s)
  {
    SameIdSameStep(p.steps, FindStep(p.steps, s.id).value, s);
  }

  /** `u` has to be complete before `v` can start. */
  ghost predicate Ancestor(steps: seq<Step>, u: StepId, v: StepId) {
    exists path :: Leads(steps, path, u, v)
  }

  ghost predicate Leads(steps: seq<Step>, path: seq<StepId>, u: StepId, v: StepId) {
    |path| > 1 && IsPath(steps, path) && path[0] == u && path[|path| - 1] == v
  }

  ghost predicate Stored(store: seq<Envelope>, run: RunId, id: StepId) {
    FirstOutput(store, run, id).Some?
  }

  lemma StoredHasEnvelope(store: seq<Envelope>, run: RunId, id: StepId)
    ensures Stored(store, run, id) <==> exists e | e in store :: e.run == run && e.stepRef == id
    ensures Stored(store, run, id) ==> exists e | e in store ::
      e.run == run && e.stepRef == id && FirstOutput(store, run, id) == Some(e.output)
  {
    ListedIsWhatMatches(store, run, Some(id));
    var found := Listed(store, run, Some(id));
    if found != [] {
      assert found[0] in found;
    }
    if e :| e in store && e.run == run && e.stepRef == id {
      assert e in found;
    }
  }

  /** Every queue step that comes before `v` has a result in the store. */
  ghost predicate AncestorsStored(p: Plan, store: seq<Envelope>, v: StepId) {
    forall u | Ancestor(p.steps, u, v) && RoleOf(p, u).QueueTask? :: Stored(store, p.run, u)
  }

  // ---------- what a checkpoint, a task message and a stored result promise ----------

  /** A completed step: a queue step has the output of its first stored result; a gate passed
      after its own wake; whatever the step, the queue steps before it have results. */
  ghost predicate OutputOk(p: Plan, store: seq<Envelope>, passed: set<StepId>, id: StepId, v: Value) {
    && AncestorsStored(p, store, id)
    && match RoleOf(p, id)
       case QueueTask => FirstOutput(store, p.run, id) == Some(v)
       case Gate => v == GATE_PASSED && id in passed
       case LocalTask => true
       case NoStep => false
  }

  ghost predicate OutputsOk(p: Plan, store: seq<Envelope>, passed: set<StepId>, outputs: map<StepId, Value>) {
    forall id | id in outputs :: OutputOk(p, store, passed, id, outputs[id])
  }

  /** The outputs a replay of the step is sure to find again: those of the queue steps before
      it, which are stored, and of the gates it depends on. */
  ghost predicate Told(p: Plan, s: Step, id: StepId) {
    || (RoleOf(p, id).QueueTask? && Ancestor(p.steps, id, s.id))
    || (RoleOf(p, id).Gate? && id in s.dependsOn)
  }

  /** Outputs over which the step may be sent: the gates it depends on have passed. */
  ghost predicate MayBeSeen(p: Plan, s: Step, m: map<StepId, Value>) {
    && m.Keys <= Ids(p.steps)
    && forall g | g in s.dependsOn && RoleOf(p, g).Gate? :: g in m && m[g] == GATE_PASSED
  }

  ghost predicate AgreeOnTold(p: Plan, s: Step, a: map<StepId, Value>, b: map<StepId, Value>) {
    && MayBeSeen(p, s, a) && MayBeSeen(p, s, b)
    && forall id | Told(p, s, id) :: SameAt(a, b, id)
  }

  /** The payload of the step is settled by outputs that a replay finds again. */
  ghost predicate Replayable(p: Plan, s: Step) {
    forall a, b | AgreeOnTold(p, s, a, b) :: Payload(p, s, a) == Payload(p, s, b)
  }

  /** A way to see it from the definition: the templates name no step but queue steps before
      this one and gates it depends on. */
  lemma ReadingToldIsReplayable(p: Plan, s: Step)
    requires forall id | Reads(DictOf(s.input), id) :: Told(p, s, id) || id !in Ids(p.steps)
    ensures Replayable(p, s)
  {
    forall a, b | AgreeOnTold(p, s, a, b)
      ensures Payload(p, s, a) == Payload(p, s, b)
    { BindDependsOnlyOnReads(DictOf(s.input), p.context, a, b, p.show); }
  }

  /** The outputs of the run as the store tells them. */
  function ToldOutputs(p: Plan, store: seq<Envelope>): map<StepId, Value> {
    map id | && id in Ids(p.steps)
             && (RoleOf(p, id).Gate? || (RoleOf(p, id).QueueTask? && FirstOutput(store, p.run, id).Some?)) ::
      if RoleOf(p, id).Gate? then GATE_PASSED else FirstOutput(store, p.run, id).value
  }

  /** A task message of this plan: of a queue step, sent when the queue steps before it had
      results; the key of a replayable step is told by the store. */
  ghost predicate TaskOk(p: Plan, store: seq<Envelope>, k: Key) {
    && k.run == p.run && RoleOf(p, k.ref).QueueTask?
    && k.taskType == TaskTypeOf(FindStep(p.steps, k.ref).value)
    && AncestorsStored(p, store, k.ref)
    && (Replayable(p, FindStep(p.steps, k.ref).value) ==> ToldKey(p, store, k))
  }

  ghost predicate ToldKey(p: Plan, store: seq<Envelope>, k: Key)
    requires RoleOf(p, k.ref).QueueTask?
  {
    k == KeyFor(p, FindStep(p.steps, k.ref).value, ToldOutputs(p, store))
  }

  /** Every stored result of this run answers a task message of its plan. */
  ghost predicate StoreOk(p: Plan, store: seq<Envelope>) {
    forall id | Stored(store, p.run, id) :: RoleOf(p, id).QueueTask? && AncestorsStored(p, store, id)
  }

  // ---------- a segment keeps them ----------

  /** The last edge of the path that makes `u` an ancestor of `v`. */
  lemma LastEdge(steps: seq<Step>, path: seq<StepId>, u: StepId, v: StepId) returns (d: StepId, shorter: seq<StepId>)
    requires Leads(steps, path, u, v)
    ensures DependsOn(steps, v, d) && |shorter| < |path|
    ensures u == d || Leads(steps, shorter, u, d)
  {
    var n := |path| - 1;
    d, shorter := path[n - 1], path[..n];
    assert DependsOn(steps, path[(n - 1) + 1], path[n - 1]);
    forall i | 0 <= i < |shorter| - 1
      ensures DependsOn(steps, shorter[i + 1], shorter[i])
    { assert DependsOn(steps, path[i + 1], path[i]); }
  }

  lemma DependencyOfStep(steps: seq<Step>, s: Step, d: StepId)
    requires UniqueIds(steps) && s in steps && DependsOn(steps, s.id, d)
    ensures d in s.dependsOn
  {
    var i :| 0 <= i < |steps| && steps[i].id == s.id && d in steps[i].dependsOn;
    SameIdSameStep(steps, s, steps[i]);
  }

  /** Walk back from a completed step: every queue step before it has a stored result. */
  lemma {:induction false} PathIsStored(p: Plan, store: seq<Envelope>, passed: set<StepId>, start: Flow,
                                        outputs: map<StepId, Value>, path: seq<StepId>, u: StepId, v: StepId)
    requires UniqueIds(p.steps) && Leads(p.steps, path, u, v) && RoleOf(p, u).QueueTask?
    requires OutputsOk(p, store, passed, start.outputs) && NewCompleted(p, start, outputs)
    requires v in outputs
    ensures Stored(store, p.run, u)
    decreases |path|
  {
    if v in start.outputs {
      assert OutputOk(p, store, passed, v, start.outputs[v]);
      assert Ancestor(p.steps, u, v);
    } else {
      var s := WhoCompleted(p, start, outputs, v);
      var d, shorter := LastEdge(p.steps, path, u, v);
      DependencyOfStep(p.steps, s, d);
      if u == d {
        QueueOutputIsStored(p, store, passed, start, outputs, u);
      } else {
        PathIsStored(p, store, passed, start, outputs, shorter, u, d);
      }
    }
  }

  lemma QueueOutputIsStored(p: Plan, store: seq<Envelope>, passed: set<StepId>, start: Flow,
                            outputs: map<StepId, Value>, u: StepId)
    requires UniqueIds(p.steps) && RoleOf(p, u).QueueTask? && u in outputs
    requires OutputsOk(p, store, passed, start.outputs) && NewCompleted(p, start, outputs)
    ensures u in start.outputs && Stored(store, p.run, u)
  {
    if u in start.outputs {
      assert OutputOk(p, store, passed, u, start.outputs[u]);
    } else {
      var t := WhoCompleted(p, start, outputs, u);
      StepIsFound(p, t);
      assert false;
    }
  }

  lemma OpeningOutputsOk(p: Plan, store: seq<Envelope>, flow: Flow, passed: set<StepId>)
    requires StoreOk(p, store) && OutputsOk(p, store, passed, flow.outputs)
    ensures OutputsOk(p, store, passed, Opening(p, store, flow).outputs)
  {
    var start := Opening(p, store, flow);
    RefreshLaw(p.steps, p.run, store, flow.outputs);
    forall id | id in start.outputs
      ensures OutputOk(p, store, passed, id, start.outputs[id])
    {
      if id in flow.outputs {
        assert OutputOk(p, store, passed, id, flow.outputs[id]);
      } else {
        assert Stored(store, p.run, id);
      }
    }
  }

  lemma NewAncestorsStored(p: Plan, store: seq<Envelope>, passed: set<StepId>, start: Flow,
                           outputs: map<StepId, Value>, id: StepId)
    requires UniqueIds(p.steps) && OutputsOk(p, store, passed, start.outputs) && NewCompleted(p, start, outputs)
    requires id in outputs
    ensures AncestorsStored(p, store, id)
  {
    forall u | Ancestor(p.steps, u, id) && RoleOf(p, u).QueueTask?
      ensures Stored(store, p.run, u)
    {
      var path :| Leads(p.steps, path, u, id);
      PathIsStored(p, store, passed, start, outputs, path, u, id);
    }
  }

  lemma NewOutputOk(p: Plan, store: seq<Envelope>, passed: set<StepId>, start: Flow, outputs: map<StepId, Value>,
                    id: StepId)
    requires UniqueIds(p.steps) && OutputsOk(p, store, passed, start.outputs) && NewCompleted(p, start, outputs)
    requires id in outputs && id !in start.outputs
    requires forall g | g in start.gatesWaited :: g in passed
    ensures OutputOk(p, store, passed, id, outputs[id])
  {
    NewAncestorsStored(p, store, passed, start, outputs, id);
    var s := WhoCompleted(p, start, outputs, id);
    StepIsFound(p, s);
  }

  /** The outputs at the end of a segment are as promised. */
  lemma SegmentOutputsOk(p: Plan, w: World, store: seq<Envelope>, flow: Flow, passed: set<StepId>)
    requires UniqueIds(p.steps) && StoreOk(p, store) && OutputsOk(p, store, passed, flow.outputs)
    requires forall g | g in flow.gatesWaited :: g in passed
    ensures OutputsOk(p, store, passed, Drive(p, w, store, flow).flow.outputs)
  {
    var start, outputs := Opening(p, store, flow), Drive(p, w, store, flow).flow.outputs;
    OpeningOutputsOk(p, store, flow, passed);
    DriveWalks(p, w, store, flow);
    assert NewCompleted(p, start, outputs);
    forall id | id in outputs
      ensures OutputOk(p, store, passed, id, outputs[id])
    {
      if id in start.outputs {
        assert OutputOk(p, store, passed, id, start.outputs[id]);
      } else {
        NewOutputOk(p, store, passed, start, outputs, id);
      }
    }
  }

  lemma DependenciesStored(p: Plan, store: seq<Envelope>, passed: set<StepId>, outputs: map<StepId, Value>, s: Step)
    requires UniqueIds(p.steps) && s in p.steps && DepsDone(s, outputs)
    requires OutputsOk(p, store, passed, outputs)
    ensures AncestorsStored(p, store, s.id)
  {
    forall u | Ancestor(p.steps, u, s.id) && RoleOf(p, u).QueueTask?
      ensures Stored(store, p.run, u)
    {
      var path :| Leads(p.steps, path, u, s.id);
      var d, shorter := LastEdge(p.steps, path, u, s.id);
      DependencyOfStep(p.steps, s, d);
      assert OutputOk(p, store, passed, d, outputs[d]);
      assert u == d || Ancestor(p.steps, u, d);
    }
  }

  /** What a replayable step saw is what the store tells. */
  lemma SeenIsTold(p: Plan, store: seq<Envelope>, passed: set<StepId>, outputs: map<StepId, Value>,
                   seen: map<StepId, Value>, s: Step)
    requires IsQueueStep(p, s) && DepsDone(s, seen) && Extends(seen, outputs) && Replayable(p, s)
    requires OutputsOk(p, store, passed, outputs) && AncestorsStored(p, store, s.id) && ShowsStored(p, store, seen)
    ensures KeyFor(p, s, seen) == KeyFor(p, s, ToldOutputs(p, store))
  {
    var told := ToldOutputs(p, store);
    forall id | Told(p, s, id)
      ensures SameAt(seen, told, id)
    {
      RoleIsStep(p, id);
      assert id in seen && OutputOk(p, store, passed, id, outputs[id]);
    }
    forall id | id in seen
      ensures id in Ids(p.steps) && (RoleOf(p, id).Gate? ==> seen[id] == GATE_PASSED)
    {
      assert OutputOk(p, store, passed, id, outputs[id]);
      RoleIsStep(p, id);
    }
    ToldMayBeSeen(p, store, s);
    assert AgreeOnTold(p, s, seen, told);
  }

  lemma ToldMayBeSeen(p: Plan, store: seq<Envelope>, s: Step)
    ensures MayBeSeen(p, s, ToldOutputs(p, store))
  {
    forall g | g in s.dependsOn && RoleOf(p, g).Gate?
      ensures g in ToldOutputs(p, store)
    { RoleIsStep(p, g); }
  }

  lemma RoleIsStep(p: Plan, id: StepId)
    ensures !RoleOf(p, id).NoStep? ==> id in Ids(p.steps)
  {
  }

  /** Every stored result of the run shows in these outputs. */
  ghost predicate ShowsStored(p: Plan, store: seq<Envelope>, outputs: map<StepId, Value>) {
    forall id | id in Ids(p.steps) && Stored(store, p.run, id) :: id in outputs
  }

  lemma KeyIsOk(p: Plan, store: seq<Envelope>, passed: set<StepId>, outputs: map<StepId, Value>,
                seen: map<StepId, Value>, s: Step)
    requires UniqueIds(p.steps) && IsQueueStep(p, s) && DepsDone(s, seen) && Extends(seen, outputs)
    requires OutputsOk(p, store, passed, outputs) && ShowsStored(p, store, seen)
    ensures TaskOk(p, store, KeyFor(p, s, seen))
  {
    StepIsFound(p, s);
    DependenciesStored(p, store, passed, outputs, s);
    if Replayable(p, s) { SeenIsTold(p, store, passed, outputs, seen, s); }
  }

  lemma SentFits(p: Plan, start: Flow, s: Step, e: Event)
    requires s in p.steps && EventFits(p, start, s, e) && e.Sent?
    ensures e.step == s.id && IsQueueStep(p, s) && e.step !in start.dispatched
    ensures Extends(start.outputs, e.seen) && DepsDone(s, e.seen) && e.key == KeyFor(p, s, e.seen)
  {
  }

  /** Every task message a segment sends is as promised. */
  lemma SentTaskOk(p: Plan, w: World, store: seq<Envelope>, flow: Flow, passed: set<StepId>, i: nat)
    requires UniqueIds(p.steps) && StoreOk(p, store) && OutputsOk(p, store, passed, flow.outputs)
    requires forall g | g in flow.gatesWaited :: g in passed
    requires i < |Drive(p, w, store, flow).events| && Drive(p, w, store, flow).events[i].Sent?
    ensures var e := Drive(p, w, store, flow).events[i];
      TaskOk(p, store, e.key) && e.key.ref == e.step && e.step !in flow.dispatched
  {
    var seg, start := Drive(p, w, store, flow), Opening(p, store, flow);
    SegmentOutputsOk(p, w, store, flow, passed);
    DriveLaw(p, w, store, flow);
    RefreshLaw(p.steps, p.run, store, flow.outputs);
    assert EventInOrder(p, start, seg.events, i);
    var e := seg.events[i];
    var s :| s in p.steps && EventFits(p, start, s, e);
    SentFits(p, start, s, e);
    KeyIsOk(p, store, passed, seg.flow.outputs, e.seen, s);
  }

  // ---------- the store grows ----------

  lemma StoredStays(store: seq<Envelope>, e: Envelope, run: RunId, id: StepId)
    requires !Holds(store, e.key)
    ensures Stored(store, run, id) ==> FirstOutput(store + [e], run, id) == FirstOutput(store, run, id)
    ensures Stored(store + [e], run, id) ==> Stored(store, run, id) || (e.run == run && e.stepRef == id)
  {
    ListedGrows(store, e, run, Some(id));
    assert (store + [e])[..|store|] == store;
  }

  lemma AncestorsStayStored(p: Plan, store: seq<Envelope>, e: Envelope, v: StepId)
    requires !Holds(store, e.key) && AncestorsStored(p, store, v)
    ensures AncestorsStored(p, store + [e], v)
  {
    forall u | Ancestor(p.steps, u, v) && RoleOf(p, u).QueueTask?
      ensures Stored(store + [e], p.run, u)
    { StoredStays(store, e, p.run, u); }
  }

  lemma OutputsStayOk(p: Plan, store: seq<Envelope>, passed: set<StepId>, e: Envelope, outputs: map<StepId, Value>)
    requires !Holds(store, e.key) && OutputsOk(p, store, passed, outputs)
    ensures OutputsOk(p, store + [e], passed, outputs)
  {
    forall id | id in outputs
      ensures OutputOk(p, store + [e], passed, id, outputs[id])
    {
      assert OutputOk(p, store, passed, id, outputs[id]);
      AncestorsStayStored(p, store, e, id);
      StoredStays(store, e, p.run, id);
    }
  }

  lemma MorePassedIsOk(p: Plan, store: seq<Envelope>, passed: set<StepId>, passed': set<StepId>,
                       outputs: map<StepId, Value>)
    requires OutputsOk(p, store, passed, outputs) && passed <= passed'
    ensures OutputsOk(p, store, passed', outputs)
  {
    forall id | id in outputs
      ensures OutputOk(p, store, passed', id, outputs[id])
    { assert OutputOk(p, store, passed, id, outputs[id]); }
  }

  lemma TaskStaysOk(p: Plan, store: seq<Envelope>, e: Envelope, k: Key)
    requires !Holds(store, e.key) && TaskOk(p, store, k)
    ensures TaskOk(p, store + [e], k)
  {
    AncestorsStayStored(p, store, e, k.ref);
    var s := FindStep(p.steps, k.ref).value;
    if Replayable(p, s) {
      forall id | Told(p, s, id)
        ensures SameAt(ToldOutputs(p, store), ToldOutputs(p, store + [e]), id)
      {
        RoleIsStep(p, id);
        StoredStays(store, e, p.run, id);
      }
      ToldMayBeSeen(p, store, s);
      ToldMayBeSeen(p, store + [e], s);
      assert AgreeOnTold(p, s, ToldOutputs(p, store), ToldOutputs(p, store + [e]));
    }
  }

  lemma StoreStaysOk(p: Plan, store: seq<Envelope>, e: Envelope)
    requires !Holds(store, e.key) && StoreOk(p, store)
    requires e.run == p.run ==> TaskOk(p, store, e.key) && e.stepRef == e.key.ref
    ensures StoreOk(p, store + [e])
  {
    forall id | Stored(store + [e], p.run, id)
      ensures RoleOf(p, id).QueueTask? && AncestorsStored(p, store + [e], id)
    {
      StoredStays(store, e, p.run, id);
      if Stored(store, p.run, id) { AncestorsStayStored(p, store, e, id); }
      else { AncestorsStayStored(p, store, e, e.key.ref); }
    }
  }
}
