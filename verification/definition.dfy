/** Workflow definitions and their structural validation
    (`src/maof/workflows/definition.py`). */
module Definition {
  import opened Base
  import opened Templates

  datatype Kind = TaskStep | GateStep
  datatype Mode = Queue | InProcess

  /** `taskType` is empty when the definition names none. */
  datatype Step = Step(
    id: StepId,
    kind: Kind,
    taskType: string,
    dependsOn: seq<StepId>,
    input: map<string, Template>,
    mode: Option<Mode>,
    needsApproval: bool,
    pins: map<string, string>)

  datatype Validation =
    | Accepted
    | DuplicateIds
    | UnknownDependencies(step: StepId, unknown: seq<StepId>)
    | Cycle(remaining: set<StepId>)

  function Ids(steps: seq<Step>): set<StepId> {
    set i | 0 <= i < |steps| :: steps[i].id
  }

  ghost predicate UniqueIds(steps: seq<Step>) {
    forall i, j | 0 <= i < j < |steps| :: steps[i].id != steps[j].id
  }

  ghost predicate KnownUpTo(steps: seq<Step>, n: nat)
    requires n <= |steps|
  {
    forall i | 0 <= i < n :: forall d | d in steps[i].dependsOn :: d in Ids(steps)
  }

  ghost predicate KnownDependencies(steps: seq<Step>) {
    KnownUpTo(steps, |steps|)
  }

  /** Some step called `s` depends directly on `d`. */
  ghost predicate DependsOn(steps: seq<Step>, s: StepId, d: StepId) {
    exists i | 0 <= i < |steps| :: steps[i].id == s && d in steps[i].dependsOn
  }

  /** A path along the dependency edges, from a dependency to what depends on it. */
  ghost predicate IsPath(steps: seq<Step>, p: seq<StepId>) {
    |p| > 0 && forall i | 0 <= i < |p| - 1 :: DependsOn(steps, p[i + 1], p[i])
  }

  ghost predicate IsCycle(steps: seq<Step>, p: seq<StepId>) {
    |p| > 1 && IsPath(steps, p) && p[0] == p[|p| - 1]
  }

  ghost predicate Acyclic(steps: seq<Step>) {
    forall p: seq<StepId> :: !IsCycle(steps, p)
  }

  /** A rank that goes strictly down along every dependency. */
  ghost predicate Ranks(steps: seq<Step>, rank: map<StepId, nat>) {
    && rank.Keys == Ids(steps)
    && forall s, d | DependsOn(steps, s, d) :: s in rank && d in rank && rank[d] < rank[s]
  }

  ghost predicate WellFormed(steps: seq<Step>) {
    UniqueIds(steps) && KnownDependencies(steps) && Acyclic(steps)
  }

  lemma {:induction false} RankGrowsAlongPath(steps: seq<Step>, rank: map<StepId, nat>, p: seq<StepId>)
    requires Ranks(steps, rank) && IsPath(steps, p) && |p| > 1
    ensures p[0] in rank && p[|p| - 1] in rank && rank[p[0]] < rank[p[|p| - 1]]
  {
    assert DependsOn(steps, p[1], p[0]);
    if |p| > 2 {
      var q := p[1..];
      assert forall i | 0 <= i < |q| - 1 :: DependsOn(steps, q[i + 1], q[i]) by {
        forall i | 0 <= i < |q| - 1
          ensures DependsOn(steps, q[i + 1], q[i])
        { assert DependsOn(steps, p[(i + 1) + 1], p[i + 1]); }
      }
      RankGrowsAlongPath(steps, rank, q);
    }
  }

  lemma RankedIsAcyclic(steps: seq<Step>, rank: map<StepId, nat>)
    requires Ranks(steps, rank)
    ensures Acyclic(steps)
  {
    forall p: seq<StepId>
      ensures !IsCycle(steps, p)
    {
      if IsCycle(steps, p) { RankGrowsAlongPath(steps, rank, p); }
    }
  }

  ghost predicate HasDependencyIn(steps: seq<Step>, stuck: set<StepId>, s: StepId) {
    exists d :: d in stuck && DependsOn(steps, s, d)
  }

  ghost predicate Stuck(steps: seq<Step>, stuck: set<StepId>) {
    forall s {:trigger HasDependencyIn(steps, stuck, s)} | s in stuck :: HasDependencyIn(steps, stuck, s)
  }

  /** Walk backwards along dependencies for ever inside a finite set: a step repeats. */
  lemma {:induction false} StuckSetHasCycle(steps: seq<Step>, stuck: set<StepId>, walk: seq<StepId>)
      returns (cycle: seq<StepId>)
    requires stuck != {}
    requires Stuck(steps, stuck)
    requires walk == [] || IsPath(steps, walk)
    requires forall i | 0 <= i < |walk| :: walk[i] in stuck
    requires Distinct(walk)
    ensures IsCycle(steps, cycle) && forall i | 0 <= i < |cycle| :: cycle[i] in stuck
    decreases |stuck| - |walk|
  {
    var d :| d in stuck;
    if walk != [] {
      assert HasDependencyIn(steps, stuck, walk[0]);
      d :| d in stuck && DependsOn(steps, walk[0], d);
    }
    var longer := [d] + walk;
    assert IsPath(steps, longer) by {
      forall i | 0 <= i < |longer| - 1
        ensures DependsOn(steps, longer[i + 1], longer[i])
      { if i > 0 { assert DependsOn(steps, walk[(i - 1) + 1], walk[i - 1]); } }
    }
    if d in walk {
      var k :| 0 <= k < |walk| && walk[k] == d;
      cycle := longer[..k + 2];
      forall i | 0 <= i < |cycle| - 1
        ensures DependsOn(steps, cycle[i + 1], cycle[i])
      { assert DependsOn(steps, longer[i + 1], longer[i]); }
    } else {
      DistinctFits(longer, stuck);
      cycle := StuckSetHasCycle(steps, stuck, longer);
    }
  }

  lemma {:induction false} DistinctFits<T>(s: seq<T>, all: set<T>)
    requires Distinct(s) && forall i | 0 <= i < |s| :: s[i] in all
    ensures |s| <= |all|
  {
    if s != [] {
      var rest := s[..|s| - 1];
      DistinctFits(rest, all - {s[|s| - 1]});
    }
  }

  /** The dependencies of a step that no step of the workflow is called by, in order. */
  function Unknown(known: set<StepId>, deps: seq<StepId>): (r: seq<StepId>)
    ensures forall d :: d in r <==> d in deps && d !in known
  {
    if deps == [] then []
    else (if deps[0] in known then [] else [deps[0]]) + Unknown(known, deps[1..])
  }

  /** What validation answers, by the three checks in their order: unique ids first,
      then the first step with an unknown dependency, then cycles. */
  ghost predicate Explains(steps: seq<Step>, r: Validation) {
    match r
    case Accepted => WellFormed(steps)
    case DuplicateIds => !UniqueIds(steps)
    case UnknownDependencies(id, unknown) =>
      && UniqueIds(steps)
      && exists i | 0 <= i < |steps| ::
           && steps[i].id == id
           && unknown == Unknown(Ids(steps), steps[i].dependsOn) && unknown != []
           && KnownUpTo(steps, i)
    case Cycle(remaining) =>
      && UniqueIds(steps) && KnownDependencies(steps)
      && exists p :: IsCycle(steps, p) && forall i | 0 <= i < |p| :: p[i] in remaining
  }

  /** The set of direct dependencies of the step called `s`. */
  function DependenciesOf(steps: seq<Step>, s: StepId): (r: set<StepId>)
    ensures forall d :: d in r <==> DependsOn(steps, s, d)
  {
    set i, d | 0 <= i < |steps| && steps[i].id == s && d in steps[i].dependsOn :: d
  }

  lemma {:induction false} UniqueIdsCount(steps: seq<Step>)
    ensures |Ids(steps)| <= |steps|
    ensures UniqueIds(steps) <==> |Ids(steps)| == |steps|
  {
    if steps != [] {
      var n := |steps| - 1;
      var rest := steps[..n];
      UniqueIdsCount(rest);
      assert Ids(steps) == Ids(rest) + {steps[n].id};
      if steps[n].id in Ids(rest) {
        assert Ids(steps) == Ids(rest);
      }
    }
  }

  function DependencyMap(steps: seq<Step>): map<StepId, set<StepId>> {
    map s | s in Ids(steps) :: DependenciesOf(steps, s)
  }

  /** The dependencies of `s` that are still waiting. */
  function Awaited(deps: map<StepId, set<StepId>>, remaining: set<StepId>, s: StepId): set<StepId> {
    if s in deps then deps[s] * remaining else {}
  }

  predicate Below(rank: map<StepId, nat>, d: StepId, s: StepId) {
    d in rank && s in rank && rank[d] < rank[s]
  }

  /** The steps already taken are ranked after everything they depend on. */
  ghost predicate Ordered(deps: map<StepId, set<StepId>>, rank: map<StepId, nat>, bound: nat) {
    && rank.Keys <= deps.Keys
    && (forall s | s in rank :: rank[s] < bound)
    && forall s, d {:trigger Below(rank, d, s)} | s in rank && d in deps[s] :: Below(rank, d, s)
  }

  lemma TakeRound(deps: map<StepId, set<StepId>>, remaining: set<StepId>, ready: set<StepId>, rank: map<StepId, nat>,
                  round: nat)
      returns (rank': map<StepId, nat>)
    requires Ordered(deps, rank, round) && rank.Keys == deps.Keys - remaining
    requires ready <= remaining <= deps.Keys
    requires forall s | s in deps :: deps[s] <= deps.Keys
    requires forall s | s in ready :: Awaited(deps, remaining, s) == {}
    ensures Ordered(deps, rank', round + 1) && rank'.Keys == deps.Keys - (remaining - ready)
  {
    rank' := map s | s in rank.Keys + ready :: if s in rank then rank[s] else round;
    forall s, d | s in rank' && d in deps[s]
      ensures Below(rank', d, s)
    {
      if s in rank {
        assert Below(rank, d, s);
      } else {
        assert d !in Awaited(deps, remaining, s);
      }
    }
  }

  /** `remaining` holds every step still waiting with the dependencies it still awaits. */
  ghost predicate Tracks(deps: map<StepId, set<StepId>>, remaining: map<StepId, set<StepId>>) {
    && remaining.Keys <= deps.Keys
    && forall s {:trigger remaining[s]} | s in remaining :: remaining[s] == Awaited(deps, remaining.Keys, s)
  }

  lemma TracksRest(deps: map<StepId, set<StepId>>, remaining: map<StepId, set<StepId>>, ready: set<StepId>,
                   rest: map<StepId, set<StepId>>)
    requires Tracks(deps, remaining) && ready <= remaining.Keys && ready != {}
    requires rest == map s | s in remaining && s !in ready :: remaining[s] - ready
    ensures Tracks(deps, rest) && rest.Keys == remaining.Keys - ready && |rest.Keys| < |remaining.Keys|
  {
    assert rest.Keys == remaining.Keys - ready;
    StrictSubsetSize(rest.Keys, remaining.Keys);
  }

  lemma AllWait(deps: map<StepId, set<StepId>>, remaining: map<StepId, set<StepId>>, ready: set<StepId>)
    requires Tracks(deps, remaining)
    requires ready == (set s | s in remaining && remaining[s] == {}) && ready == {}
    ensures forall s {:trigger Awaited(deps, remaining.Keys, s)} | s in remaining ::
      Awaited(deps, remaining.Keys, s) != {}
  {
    assert forall s | s in remaining :: s !in ready;
  }

  /** Kahn's algorithm, the loop of `_validate_dag`: each round takes away the steps whose
      remaining dependencies are empty. The round number is the rank of the step. */
  method Kahn(deps: map<StepId, set<StepId>>) returns (stuck: set<StepId>, ghost rank: map<StepId, nat>)
    requires forall s | s in deps :: deps[s] <= deps.Keys
    ensures rank.Keys == deps.Keys - stuck && stuck <= deps.Keys
    ensures exists bound :: Ordered(deps, rank, bound)
    ensures forall s {:trigger Awaited(deps, stuck, s)} | s in stuck :: Awaited(deps, stuck, s) != {}
  {
    var remaining := deps;
    rank := map[];
    ghost var round: nat := 0;
    assert Ordered(deps, rank, round);
    while remaining != map[]
      invariant Tracks(deps, remaining) && rank.Keys == deps.Keys - remaining.Keys
      invariant Ordered(deps, rank, round)
      decreases |remaining.Keys|
    {
      var ready := set s | s in remaining && remaining[s] == {};
      if ready == {} {
        AllWait(deps, remaining, ready);
        return remaining.Keys, rank;
      }
      forall s | s in ready
        ensures Awaited(deps, remaining.Keys, s) == {}
      { assert remaining[s] == {}; }
      rank := TakeRound(deps, remaining.Keys, ready, rank, round);
      var rest := map s | s in remaining && s !in ready :: remaining[s] - ready;
      TracksRest(deps, remaining, ready, rest);
      remaining, round := rest, round + 1;
    }
    return {}, rank;
  }

  lemma StuckMeansCycle(steps: seq<Step>, deps: map<StepId, set<StepId>>, stuck: set<StepId>)
    requires deps == DependencyMap(steps) && stuck <= deps.Keys && stuck != {}
    requires forall s {:trigger Awaited(deps, stuck, s)} | s in stuck :: Awaited(deps, stuck, s) != {}
    ensures exists p :: IsCycle(steps, p) && forall i | 0 <= i < |p| :: p[i] in stuck
  {
    forall s {:trigger HasDependencyIn(steps, stuck, s)} | s in stuck
      ensures HasDependencyIn(steps, stuck, s)
    {
      var d :| d in Awaited(deps, stuck, s);
      assert DependsOn(steps, s, d);
    }
    var p := StuckSetHasCycle(steps, stuck, []);
  }

  lemma CycleHasNoRank(steps: seq<Step>, p: seq<StepId>)
    requires IsCycle(steps, p)
    ensures !Acyclic(steps) && forall rank :: !Ranks(steps, rank)
  {
    forall rank
      ensures !Ranks(steps, rank)
    {
      if Ranks(steps, rank) { RankGrowsAlongPath(steps, rank, p); }
    }
  }

  /** What the outcome of Kahn's algorithm says about the workflow. */
  lemma KahnDecides(steps: seq<Step>, stuck: set<StepId>, rank: map<StepId, nat>, bound: nat)
    requires stuck <= Ids(steps) && rank.Keys == Ids(steps) - stuck
    requires KnownDependencies(steps) && Ordered(DependencyMap(steps), rank, bound)
    requires forall s {:trigger Awaited(DependencyMap(steps), stuck, s)} | s in stuck ::
      Awaited(DependencyMap(steps), stuck, s) != {}
    ensures stuck == {} ==> Acyclic(steps) && Ranks(steps, rank)
    ensures stuck != {} ==> exists p :: IsCycle(steps, p) && forall i | 0 <= i < |p| :: p[i] in stuck
    ensures stuck != {} ==> !Acyclic(steps) && forall rank :: !Ranks(steps, rank)
  {
    var deps := DependencyMap(steps);
    if stuck == {} {
      forall s, d | DependsOn(steps, s, d)
        ensures s in rank && d in rank && rank[d] < rank[s]
      { assert d in deps[s] && Below(rank, d, s); }
      RankedIsAcyclic(steps, rank);
    } else {
      StuckMeansCycle(steps, deps, stuck);
      var p :| IsCycle(steps, p) && forall i | 0 <= i < |p| :: p[i] in stuck;
      CycleHasNoRank(steps, p);
    }
  }

  lemma DependenciesKnown(steps: seq<Step>)
    requires KnownDependencies(steps)
    ensures forall s | s in DependencyMap(steps) :: DependencyMap(steps)[s] <= Ids(steps)
  {
    forall s, d | s in Ids(steps) && d in DependenciesOf(steps, s)
      ensures d in Ids(steps)
    { assert DependsOn(steps, s, d); }
  }

  /** `WorkflowDefinition._validate_dag`. */
  method ValidateDag(steps: seq<Step>) returns (r: Validation)
    ensures Explains(steps, r)
    ensures r.Accepted? <==> WellFormed(steps)
    ensures r.Accepted? <==> UniqueIds(steps) && KnownDependencies(steps) && exists rank :: Ranks(steps, rank)
  {
    UniqueIdsCount(steps);
    if |steps| != |Ids(steps)| {
      return DuplicateIds;
    }
    r := CheckKnown(steps);
    if r.Accepted? {
      DependenciesKnown(steps);
      var stuck;
      ghost var rank;
      stuck, rank := Kahn(DependencyMap(steps));
      ghost var bound :| Ordered(DependencyMap(steps), rank, bound);
      KahnDecides(steps, stuck, rank, bound);
      r := if stuck == {} then Accepted else Cycle(stuck);
    }
  }

  method CheckKnown(steps: seq<Step>) returns (r: Validation)
    requires UniqueIds(steps)
    ensures r.Accepted? <==> KnownDependencies(steps)
    ensures r.Accepted? || (r.UnknownDependencies? && Explains(steps, r))
  {
    var known := Ids(steps);
    for i := 0 to |steps|
      invariant KnownUpTo(steps, i)
    {
      var unknown := Unknown(known, steps[i].dependsOn);
      if unknown != [] {
        assert unknown[0] in unknown;
        return UnknownDependencies(steps[i].id, unknown);
      }
    }
    return Accepted;
  }
}
