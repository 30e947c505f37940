/** Promotion of a completed run into a workflow definition
    (`src/maof/workflows/promote.py`). */
module Promote {
  import opened Base
  import opened Definition
  import opened Lifecycle
  import opened Executor
  import opened Provenance
  import opened Workers
  import opened Protocol
  import opened Control
  import opened Records
  import opened Settling
  import Driver

  datatype Promotion = Promoted(steps: seq<Step>) | RunNotFound | RunNotCompleted | NothingRecorded

  // ---------- the chain ----------

  function NameOf(e: Envelope): StepId {
    if e.stepRef != "" then e.stepRef else e.taskId
  }

  /** The agent version of the last dispatch record of each step that has one. */
  function Versions(trace: seq<TraceEntry>, run: RunId): map<StepId, string> {
    if trace == [] then map[]
    else
      var before, last := Versions(trace[..|trace| - 1], run), trace[|trace| - 1];
      if last.run == run && last.Dispatched? && last.step != "" && last.version != "" then
        before[last.step := last.version]
      else before
  }

  function ChainStep(e: Envelope, previous: Option<StepId>, versions: map<StepId, string>): Step {
    Step(NameOf(e), TaskStep, e.taskType, if previous.Some? then [previous.value] else [], map[], Some(Queue), false,
         if NameOf(e) in versions then map["agent_version" := versions[NameOf(e)]] else map[])
  }

  function LastId(steps: seq<Step>): Option<StepId> {
    if steps == [] then None else Some(steps[|steps| - 1].id)
  }

  /** The envelopes chained one after the other, each step once. */
  function Chain(es: seq<Envelope>, versions: map<StepId, string>): seq<Step> {
    if es == [] then []
    else
      var before, last := Chain(es[..|es| - 1], versions), es[|es| - 1];
      if NameOf(last) in Ids(before) then before else before + [ChainStep(last, LastId(before), versions)]
  }

  function Promoting(found: bool, status: Driver.Status, es: seq<Envelope>, trace: seq<TraceEntry>,
                     run: RunId): Promotion {
    if !found then RunNotFound
    else if !status.Completed? then RunNotCompleted
    else if es == [] then NothingRecorded
    else Promoted(Chain(es, Versions(trace, run)))
  }

  /** The record pins a version for the step in the run. */
  predicate Pins(entry: TraceEntry, run: RunId, step: StepId) {
    entry.Dispatched? && entry.run == run && entry.step == step && step != "" && entry.version != ""
  }

  /** The last record that pins the step is the `i`-th. */
  predicate LastPin(trace: seq<TraceEntry>, run: RunId, step: StepId, i: int) {
    && 0 <= i < |trace| && Pins(trace[i], run, step)
    && forall j | i < j < |trace| :: !Pins(trace[j], run, step)
  }

  /** A step is pinned exactly when some record of the run pins it, and then to the version of
      the last such record. */
  ghost predicate ArePinned(trace: seq<TraceEntry>, run: RunId, versions: map<StepId, string>) {
    && (forall i, step | 0 <= i < |trace| && Pins(trace[i], run, step) :: step in versions)
    && (forall step | step in versions ::
          exists i :: LastPin(trace, run, step, i) && versions[step] == trace[i].version)
  }

  lemma {:induction false} VersionsLaw(trace: seq<TraceEntry>, run: RunId)
    ensures ArePinned(trace, run, Versions(trace, run))
  {
    if trace != [] {
      var n := |trace| - 1;
      VersionsLaw(trace[..n], run);
      var before, versions := Versions(trace[..n], run), Versions(trace, run);
      forall step | step in versions
        ensures exists i :: LastPin(trace, run, step, i) && versions[step] == trace[i].version
      {
        if Pins(trace[n], run, step) {
          assert LastPin(trace, run, step, n);
        } else {
          var i :| LastPin(trace[..n], run, step, i) && before[step] == trace[..n][i].version;
          assert LastPin(trace, run, step, i);
        }
      }
      forall i, step | 0 <= i < |trace| && Pins(trace[i], run, step)
        ensures step in versions
      {
        if i < n { assert Pins(trace[..n][i], run, step); }
      }
    }
  }

  /** `_resolved_versions`. */
  method ResolvedVersions(trace: seq<TraceEntry>, run: RunId) returns (versions: map<StepId, string>)
    ensures ArePinned(trace, run, versions)
    ensures versions == Versions(trace, run)
  {
    VersionsLaw(trace, run);
    versions := map[];
    for i := 0 to |trace|
      invariant versions == Versions(trace[..i], run)
    {
      assert trace[..i + 1][..i] == trace[..i];
      var entry := trace[i];
      if entry.run == run && entry.Dispatched? && entry.step != "" && entry.version != "" {
        versions := versions[entry.step := entry.version];
      }
    }
    assert trace[..|trace|] == trace;
  }

  /** The first envelope of its name. */
  predicate IsFirstNamed(es: seq<Envelope>, m: nat) {
    m < |es| && forall j | 0 <= j < m :: NameOf(es[j]) != NameOf(es[m])
  }

  /** The version the trace pins the step to: that of its last record with one. */
  ghost predicate PinnedBy(trace: seq<TraceEntry>, run: RunId, s: Step) {
    && (forall i | LastPin(trace, run, s.id, i) :: s.pins == map["agent_version" := trace[i].version])
    && ((forall i | 0 <= i < |trace| :: !Pins(trace[i], run, s.id)) ==> s.pins == map[])
  }

  /** A step that replays an envelope: a queue step of its name and task type, without an input or
      an approval of its own. */
  predicate Replays(e: Envelope, s: Step) {
    && s.id == (if e.stepRef != "" then e.stepRef else e.taskId) && s.taskType == e.taskType
    && s.kind.TaskStep? && s.mode == Some(Queue) && s.input == map[] && !s.needsApproval
  }

  /** One step for the first envelope of each name, in the order of the envelopes, each depending
      on the one before and pinned as the trace says. */
  ghost predicate IsReplayOf(es: seq<Envelope>, trace: seq<TraceEntry>, run: RunId, steps: seq<Step>, at: seq<nat>) {
    && |at| == |steps| && (forall i, j | 0 <= i < j < |at| :: at[i] < at[j])
    && (forall m :: m in at <==> IsFirstNamed(es, m))
    && (forall i | 0 <= i < |steps| ::
          at[i] < |es| && Replays(es[at[i]], steps[i]) && PinnedBy(trace, run, steps[i]))
    && IsChain(steps)
  }

  lemma VersionPins(trace: seq<TraceEntry>, run: RunId, e: Envelope, previous: Option<StepId>)
    ensures PinnedBy(trace, run, ChainStep(e, previous, Versions(trace, run)))
  {
    var versions, s := Versions(trace, run), ChainStep(e, previous, Versions(trace, run));
    VersionsLaw(trace, run);
    forall i | LastPin(trace, run, s.id, i)
      ensures s.pins == map["agent_version" := trace[i].version]
    {
      var j :| LastPin(trace, run, s.id, j) && versions[s.id] == trace[j].version;
      assert i == j;
    }
  }

  predicate HasName(es: seq<Envelope>, id: StepId) {
    exists m | 0 <= m < |es| :: NameOf(es[m]) == id
  }

  lemma {:induction false} ChainReplays(es: seq<Envelope>, trace: seq<TraceEntry>, run: RunId) returns (at: seq<nat>)
    ensures IsReplayOf(es, trace, run, Chain(es, Versions(trace, run)), at)
    ensures forall id :: id in Ids(Chain(es, Versions(trace, run))) <==> HasName(es, id)
  {
    if es == [] {
      at := [];
    } else {
      var n := |es| - 1;
      var before := ChainReplays(es[..n], trace, run);
      assert es == es[..n] + [es[n]];
      NamesOfMore(es[..n], es[n]);
      at := ReplaysOneMore(es[..n], es[n], trace, run, Chain(es[..n], Versions(trace, run)), before);
    }
  }

  lemma NamesOfMore(es: seq<Envelope>, e: Envelope)
    ensures forall id :: HasName(es + [e], id) <==> HasName(es, id) || id == NameOf(e)
    ensures forall m: nat | m < |es| :: IsFirstNamed(es + [e], m) <==> IsFirstNamed(es, m)
    ensures IsFirstNamed(es + [e], |es|) <==> !HasName(es, NameOf(e))
  {
    var more := es + [e];
    assert more[|es|] == e && forall m | 0 <= m < |es| :: more[m] == es[m];
  }

  lemma ReplaysOneMore(es: seq<Envelope>, e: Envelope, trace: seq<TraceEntry>, run: RunId, c: seq<Step>,
                       before: seq<nat>)
    returns (at: seq<nat>)
    requires IsReplayOf(es, trace, run, c, before) && forall id :: id in Ids(c) <==> HasName(es, id)
    ensures var s := ChainStep(e, LastId(c), Versions(trace, run));
      var c' := if NameOf(e) in Ids(c) then c else c + [s];
      IsReplayOf(es + [e], trace, run, c', at) && forall id :: id in Ids(c') <==> HasName(es + [e], id)
  {
    var s := ChainStep(e, LastId(c), Versions(trace, run));
    NamesOfMore(es, e);
    IdsOfOneMore(c, s);
    if NameOf(e) in Ids(c) {
      at := before;
    } else {
      VersionPins(trace, run, e, LastId(c));
      at := before + [|es|];
      LinksOneMore(es, e, trace, run, c, before, s);
    }
  }

  lemma ChainOneMore(c: seq<Step>, s: Step)
    requires IsChain(c) && s.dependsOn == if c == [] then [] else [c[|c| - 1].id]
    ensures IsChain(c + [s])
  {
    var more := c + [s];
    forall i | 0 <= i < |more|
      ensures IsLinked(more, i)
    {
      if i < |c| { assert IsLinked(c, i); }
    }
  }

  lemma LinksOneMore(es: seq<Envelope>, e: Envelope, trace: seq<TraceEntry>, run: RunId, c: seq<Step>,
                     before: seq<nat>, s: Step)
    requires IsReplayOf(es, trace, run, c, before) && Replays(e, s) && PinnedBy(trace, run, s)
    requires s.dependsOn == if c == [] then [] else [c[|c| - 1].id]
    requires forall m: nat | m < |es| :: IsFirstNamed(es + [e], m) <==> IsFirstNamed(es, m)
    requires IsFirstNamed(es + [e], |es|)
    ensures IsReplayOf(es + [e], trace, run, c + [s], before + [|es|])
  {
    var more, at := es + [e], before + [|es|];
    ChainOneMore(c, s);
    assert forall i | i in before :: i < |es|;
    forall i | 0 <= i < |c + [s]|
      ensures at[i] < |more| && Replays(more[at[i]], (c + [s])[i]) && PinnedBy(trace, run, (c + [s])[i])
    {
      if i < |c| { assert Replays(es[before[i]], c[i]) && more[before[i]] == es[before[i]]; }
    }
  }

  /** `promote_run`; `status` is what the run store knows, if anything. Whatever was recorded,
      the definition built at the end passes validation. */
  method PromoteRun(run: RunId, status: Option<Driver.Status>, results: InMemoryResultStore,
                    trace: seq<TraceEntry>) returns (r: Promotion)
    ensures r
          == Promoting(status.Some?, if status.Some? then status.value else Driver.Running,
                       Listed(results.entries, run, None), trace, run)
    ensures r.RunNotFound? <==> status.None?
    ensures r.RunNotCompleted? <==> status.Some? && !status.value.Completed?
    ensures r.NothingRecorded? <==> status == Some(Driver.Completed) && Listed(results.entries, run, None) == []
    ensures r.Promoted? ==> WellFormed(r.steps)
    ensures r.Promoted? ==> exists at :: IsReplayOf(Listed(results.entries, run, None), trace, run, r.steps, at)
  {
    if status.None? {
      return RunNotFound;
    }
    if !status.value.Completed? {
      return RunNotCompleted;
    }
    var envelopes := results.List(run, None);
    if envelopes == [] {
      return NothingRecorded;
    }
    var versions := ResolvedVersions(trace, run);
    var steps: seq<Step>, seen: set<StepId>, previous: Option<StepId> := [], {}, None;
    for i := 0 to |envelopes|
      invariant steps == Chain(envelopes[..i], versions)
      invariant seen == Ids(steps) && previous == LastId(steps)
    {
      assert envelopes[..i + 1][..i] == envelopes[..i];
      var id := NameOf(envelopes[i]);
      if id !in seen {
        IdsOfOneMore(steps, ChainStep(envelopes[i], previous, versions));
        steps := steps + [ChainStep(envelopes[i], previous, versions)];
        seen := seen + {id};
        previous := Some(id);
      }
    }
    assert envelopes[..|envelopes|] == envelopes;
    ChainIsValid(envelopes, versions);
    ghost var at := ChainReplays(envelopes, trace, run);
    var validation := ValidateDag(steps);
    assert validation.Accepted?;
    return Promoted(steps);
  }

  lemma IdsOfOneMore(steps: seq<Step>, s: Step)
    ensures Ids(steps + [s]) == Ids(steps) + {s.id}
  {
    assert forall i | 0 <= i < |steps| :: (steps + [s])[i] == steps[i];
    assert (steps + [s])[|steps|] == s;
    forall id | id in Ids(steps)
      ensures id in Ids(steps + [s])
    {
      var i :| 0 <= i < |steps| && steps[i].id == id;
      assert (steps + [s])[i].id == id;
    }
  }

  // ---------- every chain is valid ----------

  /** Each step depends on the one before it, and on nothing else. */
  ghost predicate IsChain(steps: seq<Step>) {
    forall i | 0 <= i < |steps| :: IsLinked(steps, i)
  }

  predicate IsLinked(steps: seq<Step>, i: int)
    requires 0 <= i < |steps|
  {
    steps[i].dependsOn == if i == 0 then [] else [steps[i - 1].id]
  }

  /** A queue step of the chain for an envelope. */
  ghost predicate StepFor(es: seq<Envelope>, s: Step) {
    s.kind.TaskStep? && s.mode == Some(Queue) && exists e | e in es :: NameOf(e) == s.id && e.taskType == s.taskType
  }

  ghost predicate Covers(es: seq<Envelope>, c: seq<Step>) {
    && (forall e | e in es :: NameOf(e) in Ids(c))
    && (forall s | s in c :: StepFor(es, s))
  }

  lemma CoversOneMore(es: seq<Envelope>, c: seq<Step>, e: Envelope, versions: map<StepId, string>)
    requires Covers(es, c)
    ensures Covers(es + [e], if NameOf(e) in Ids(c) then c else c + [ChainStep(e, LastId(c), versions)])
  {
    var more := es + [e];
    IdsOfOneMore(c, ChainStep(e, LastId(c), versions));
    forall s | s in c
      ensures StepFor(more, s)
    {
      assert StepFor(es, s);
      var x :| x in es && NameOf(x) == s.id && x.taskType == s.taskType;
      assert x in more;
    }
    assert e in more;
    assert StepFor(more, ChainStep(e, LastId(c), versions));
  }

  lemma LinkOneMore(c: seq<Step>, s: Step)
    requires UniqueIds(c) && IsChain(c) && s.id !in Ids(c)
    requires s.dependsOn == if c == [] then [] else [c[|c| - 1].id]
    ensures UniqueIds(c + [s]) && IsChain(c + [s])
  {
    ChainOneMore(c, s);
    assert forall i | 0 <= i < |c| :: c[i].id in Ids(c);
  }

  /** The chain has a step for each envelope's name, each once. */
  lemma {:induction false} ChainLaw(es: seq<Envelope>, versions: map<StepId, string>)
    ensures UniqueIds(Chain(es, versions)) && IsChain(Chain(es, versions)) && Covers(es, Chain(es, versions))
  {
    if es == [] {
      assert Chain(es, versions) == [];
    } else {
      var n := |es| - 1;
      ChainLaw(es[..n], versions);
      var before := Chain(es[..n], versions);
      assert es[..n] + [es[n]] == es;
      CoversOneMore(es[..n], before, es[n], versions);
      if NameOf(es[n]) !in Ids(before) {
        LinkOneMore(before, ChainStep(es[n], LastId(before), versions));
      }
    }
  }

  lemma ChainIsRanked(steps: seq<Step>) returns (rank: map<StepId, nat>)
    requires UniqueIds(steps) && IsChain(steps)
    ensures Ranks(steps, rank) && KnownDependencies(steps)
  {
    rank := map id | id in Ids(steps) :: PlaceOf(steps, id);
    forall i, d | 0 <= i < |steps| && d in steps[i].dependsOn
      ensures d in Ids(steps) && steps[i].id in rank && rank[d] < rank[steps[i].id]
    {
      assert IsLinked(steps, i);
      assert d == steps[i - 1].id;
      assert PlaceOf(steps, d) == i - 1 && PlaceOf(steps, steps[i].id) == i;
    }
  }

  function PlaceOf(steps: seq<Step>, id: StepId): (i: nat)
    requires id in Ids(steps)
    ensures i < |steps| && steps[i].id == id
  {
    if steps[|steps| - 1].id == id then |steps| - 1
    else
      assert id in Ids(steps[..|steps| - 1]) by {
        var i :| 0 <= i < |steps| && steps[i].id == id;
        assert steps[..|steps| - 1][i].id == id;
      }
      PlaceOf(steps[..|steps| - 1], id)
  }

  /** Whatever the envelopes are, duplicates and strays included, the chain is accepted. */
  lemma ChainIsValid(es: seq<Envelope>, versions: map<StepId, string>)
    ensures WellFormed(Chain(es, versions))
  {
    ChainLaw(es, versions);
    var rank := ChainIsRanked(Chain(es, versions));
    RankedIsAcyclic(Chain(es, versions), rank);
  }

  // ---------- promoting a run of the system ----------

  /** Every queue step that comes before a step of the chain stands earlier in the chain. */
  ghost predicate ExtendsOrder(p: Plan, c: seq<Step>) {
    forall j, u | 0 <= j < |c| && Ancestor(p.steps, u, c[j].id) && RoleOf(p, u).QueueTask? :: u in Ids(c[..j])
  }

  /** The chain of the results stored so far has the steps of those results, in order. */
  ghost predicate ChainFits(p: Plan, store: seq<Envelope>, c: seq<Step>) {
    ExtendsOrder(p, c) && forall id :: id in Ids(c) <==> Stored(store, p.run, id)
  }

  lemma {:induction false} ChainOfPrefix(p: Plan, store: seq<Envelope>, versions: map<StepId, string>, n: nat)
    requires n <= |store| && StoreOrdered(p, store)
    requires forall e | e in store && e.run == p.run :: e.stepRef != ""
    ensures ChainFits(p, store[..n], Chain(Listed(store[..n], p.run, None), versions))
  {
    if n == 0 {
      forall id
        ensures !Stored(store[..0], p.run, id)
      { StoredHasEnvelope(store[..0], p.run, id); }
    } else {
      ChainOfPrefix(p, store, versions, n - 1);
      assert store[..n] == store[..n - 1] + [store[n - 1]];
      assert OrderedAt(p, store, n - 1) && store[n - 1] in store;
      ChainOfOneMore(p, store[..n - 1], store[n - 1], versions);
    }
  }

  lemma ChainOfOneMore(p: Plan, store: seq<Envelope>, e: Envelope, versions: map<StepId, string>)
    requires ChainFits(p, store, Chain(Listed(store, p.run, None), versions))
    requires e.run == p.run ==> e.stepRef != "" && AncestorsStored(p, store, e.stepRef)
    ensures ChainFits(p, store + [e], Chain(Listed(store + [e], p.run, None), versions))
  {
    var es := Listed(store, p.run, None);
    assert (store + [e])[..|store|] == store;
    StoredOneMore(store, e, p.run);
    if e.run == p.run {
      assert Listed(store + [e], p.run, None) == es + [e];
      assert (es + [e])[..|es|] == es;
      OneMoreInChain(p, Chain(es, versions), store, e, versions);
    } else {
      assert Listed(store + [e], p.run, None) == es;
    }
  }

  lemma StoredOneMore(store: seq<Envelope>, e: Envelope, run: RunId)
    ensures forall id :: Stored(store + [e], run, id) <==> Stored(store, run, id) || (e.run == run && e.stepRef == id)
  {
    forall id
      ensures Stored(store + [e], run, id) <==> Stored(store, run, id) || (e.run == run && e.stepRef == id)
    {
      assert (store + [e])[..|store|] == store;
    }
  }

  lemma OneMoreInChain(p: Plan, c: seq<Step>, store: seq<Envelope>, e: Envelope, versions: map<StepId, string>)
    requires ChainFits(p, store, c)
    requires e.run == p.run && e.stepRef != "" && AncestorsStored(p, store, e.stepRef)
    ensures var c' := if NameOf(e) in Ids(c) then c else c + [ChainStep(e, LastId(c), versions)];
      ExtendsOrder(p, c') && forall id :: id in Ids(c') <==> Stored(store, p.run, id) || id == e.stepRef
  {
    var c' := c + [ChainStep(e, LastId(c), versions)];
    IdsOfOneMore(c, ChainStep(e, LastId(c), versions));
    forall j, u | 0 <= j < |c'| && Ancestor(p.steps, u, c'[j].id) && RoleOf(p, u).QueueTask?
      ensures u in Ids(c'[..j])
    {
      if j < |c| {
        assert c'[j] == c[j] && c'[..j] == c[..j];
      } else {
        assert c'[..j] == c;
      }
    }
  }

  /** The steps of the plan that go through the queue. */
  ghost predicate SameQueueSteps(p: Plan, c: seq<Step>) {
    && (forall id :: id in Ids(c) <==> RoleOf(p, id).QueueTask?)
    && (forall s | s in c :: RoleOf(p, s.id).QueueTask? ==> s.taskType == TaskTypeOf(FindStep(p.steps, s.id).value))
  }

  lemma StoredAreQueueSteps(accepts: Envelope -> bool, s: Sys, id: RunId)
    requires Controlled(s) && Recorded(accepts, s) && id in s.runs && s.runs[id].status.Completed?
    ensures forall step :: Stored(s.store, id, step) <==> RoleOf(s.runs[id].plan, step).QueueTask?
  {
    var r := s.runs[id];
    assert RunControl(id, r, s.wakes, s.claimed[id]) && RunData(r, s.wakes, s.store);
    forall step
      ensures Stored(s.store, id, step) <==> RoleOf(r.plan, step).QueueTask?
    {
      if RoleOf(r.plan, step).QueueTask? {
        assert step in Ids(r.plan.steps) by { var t := FindStep(r.plan.steps, step).value; }
        assert OutputOk(r.plan, s.store, MayPass(r, s.wakes), step, r.saved.value.outputs[step]);
      }
    }
  }

  lemma EnvelopeTypes(accepts: Envelope -> bool, s: Sys, id: RunId, e: Envelope)
    requires Controlled(s) && Recorded(accepts, s) && id in s.runs && e in s.store && e.run == id
    ensures e.stepRef != "" && RoleOf(s.runs[id].plan, e.stepRef).QueueTask?
    ensures e.taskType == TaskTypeOf(FindStep(s.runs[id].plan.steps, e.stepRef).value)
  {
    var p := s.runs[id].plan;
    assert RunControl(id, s.runs[id], s.wakes, s.claimed[id]);
    assert e in s.fx.replies && e == EnvelopeFor(e.key, e.output);
    ReplyIsTask(accepts, s, e);
    assert e.stepRef in Ids(p.steps) by { var t := FindStep(p.steps, e.stepRef).value; }
  }

  lemma PromotesSystem(accepts: Envelope -> bool, s: Sys, id: RunId, trace: seq<TraceEntry>)
    requires Controlled(s) && Recorded(accepts, s) && id in s.runs && s.runs[id].status.Completed?
    ensures var p, c := s.runs[id].plan, Chain(Listed(s.store, id, None), Versions(trace, id));
      WellFormed(c) && SameQueueSteps(p, c) && ExtendsOrder(p, c)
  {
    var r, es, versions := s.runs[id], Listed(s.store, id, None), Versions(trace, id);
    var c := Chain(es, versions);
    assert RunControl(id, r, s.wakes, s.claimed[id]) && RunData(r, s.wakes, s.store);
    forall e | e in s.store && e.run == id
      ensures e.stepRef != ""
    { EnvelopeTypes(accepts, s, id, e); }
    assert s.store[..|s.store|] == s.store;
    ChainOfPrefix(r.plan, s.store, versions, |s.store|);
    StoredAreQueueSteps(accepts, s, id);
    ChainIsValid(es, versions);
    ChainLaw(es, versions);
    ChainTypes(accepts, s, id, c);
  }

  lemma ChainTypes(accepts: Envelope -> bool, s: Sys, id: RunId, c: seq<Step>)
    requires Controlled(s) && Recorded(accepts, s) && id in s.runs && Covers(Listed(s.store, id, None), c)
    ensures forall t | t in c ::
      RoleOf(s.runs[id].plan, t.id).QueueTask? && t.taskType == TaskTypeOf(FindStep(s.runs[id].plan.steps, t.id).value)
  {
    ListedIsWhatMatches(s.store, id, None);
    forall t | t in c
      ensures RoleOf(s.runs[id].plan, t.id).QueueTask?
      ensures t.taskType == TaskTypeOf(FindStep(s.runs[id].plan.steps, t.id).value)
    {
      assert StepFor(Listed(s.store, id, None), t);
      var e :| e in Listed(s.store, id, None) && NameOf(e) == t.id && e.taskType == t.taskType;
      EnvelopeTypes(accepts, s, id, e);
    }
  }

  /** A completed run of the system, however often it crashed on the way, is promoted to a
      valid chain that has each of its queue steps exactly once, with its task type, in an
      order that respects every dependency of the original workflow, direct or not. Only a run
      without queue steps has nothing to promote. */
  lemma PromotionKeepsTheOrder(accepts: Envelope -> bool, s: Sys, id: RunId, trace: seq<TraceEntry>)
    requires Reachable(accepts, s) && id in s.runs && s.runs[id].status.Completed?
    ensures var p := s.runs[id].plan;
      match Promoting(true, s.runs[id].status, Listed(s.store, id, None), trace, id)
      case Promoted(c) =>
        && WellFormed(c) && SameQueueSteps(p, c)
        && forall i, j | 0 <= i < |c| && 0 <= j < |c| && Ancestor(p.steps, c[i].id, c[j].id) :: i < j
      case NothingRecorded => forall step :: !RoleOf(p, step).QueueTask?
      case _ => false
  {
    AlwaysSound(accepts, s);
    var p, c := s.runs[id].plan, Chain(Listed(s.store, id, None), Versions(trace, id));
    PromotesSystem(accepts, s, id, trace);
    OrderOfPlaces(p, c);
    if Listed(s.store, id, None) == [] {
      assert Ids(c) == {};
    }
  }

  lemma OrderOfPlaces(p: Plan, c: seq<Step>)
    requires UniqueIds(c) && SameQueueSteps(p, c) && ExtendsOrder(p, c)
    ensures forall i, j | 0 <= i < |c| && 0 <= j < |c| && Ancestor(p.steps, c[i].id, c[j].id) :: i < j
  {
    forall i, j | 0 <= i < |c| && 0 <= j < |c| && Ancestor(p.steps, c[i].id, c[j].id)
      ensures i < j
    {
      assert c[i].id in Ids(c);
      var k :| 0 <= k < |c[..j]| && c[..j][k].id == c[i].id;
    }
  }
}
