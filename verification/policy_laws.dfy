/** What an evaluation of the policy rules is, said by the conditions of the rules and by what
    their actions ask for (`src/maof/policy/engine.py`, `src/maof/policy/actions.py`). */
module PolicyLaws {
  import opened Base
  import opened Policy

  // ---------- which rules act, and on what ----------

  /** A rule that matches acts, one that does not leaves the work as it is, and neither raises. */
  ghost predicate Passes(rule: Rule, k: Work, k': Work) {
    match rule.when(k)
    case Matches => ApplyAll(rule.actions, k) == Some(k')
    case Skips => k' == k
    case Raises => false
  }

  /** The work as each rule finds it, and at last as the evaluation leaves it. */
  ghost predicate Passing(rules: seq<Rule>, start: Work, works: seq<Work>) {
    && |works| == |rules| + 1 && works[0] == start
    && forall i | 0 <= i < |rules| :: Passes(rules[i], works[i], works[i + 1])
  }

  /** These are the rules whose condition holds of the work they find, in order. */
  ghost predicate AreTheMatching(rules: seq<Rule>, works: seq<Work>, matched: seq<Rule>)
    requires |works| == |rules| + 1
  {
    exists at :: Selects(rules, at, matched) && MatchAt(rules, works, at)
  }

  /** The evaluation comes to the `n`-th rule, and that one raises, by its condition or by an
      action. */
  ghost predicate RaisesAt(rules: seq<Rule>, start: Work, n: nat, works: seq<Work>) {
    && n < |rules| && Passing(rules[..n], start, works)
    && (rules[n].when(works[n]).Raises?
        || (rules[n].when(works[n]).Matches? && ApplyAll(rules[n].actions, works[n]).None?))
  }

  function Shifted(at: seq<nat>): seq<nat> {
    seq(|at|, i requires 0 <= i < |at| => at[i] + 1)
  }

  lemma SelectsFirst<T>(xs: seq<T>, at: seq<nat>, ys: seq<T>)
    requires xs != [] && Selects(xs[1..], at, ys)
    ensures Selects(xs, Shifted(at), ys) && Selects(xs, [0] + Shifted(at), [xs[0]] + ys)
  {
  }

  lemma ShiftedHas(at: seq<nat>)
    ensures forall i: nat :: i + 1 in Shifted(at) <==> i in at
    ensures 0 !in Shifted(at)
  {
    forall i: nat
      ensures i + 1 in Shifted(at) <==> i in at
    {
      if i in at {
        var j :| 0 <= j < |at| && at[j] == i;
        assert Shifted(at)[j] == i + 1;
      }
    }
  }

  lemma PassingFirst(rules: seq<Rule>, start: Work, next: Work, works: seq<Work>)
    requires rules != [] && Passes(rules[0], start, next) && Passing(rules[1..], next, works)
    ensures Passing(rules, start, [start] + works)
  {
    forall i | 0 <= i < |rules|
      ensures Passes(rules[i], ([start] + works)[i], ([start] + works)[i + 1])
    { if i > 0 { assert Passes(rules[1..][i - 1], works[i - 1], works[i]); } }
  }

  /** The places where a rule matches the work it finds. */
  ghost predicate MatchAt(rules: seq<Rule>, works: seq<Work>, at: seq<nat>)
    requires |works| == |rules| + 1
  {
    forall i | 0 <= i < |rules| :: i in at <==> rules[i].when(works[i]).Matches?
  }

  lemma MatchFirst(rules: seq<Rule>, start: Work, works: seq<Work>, at: seq<nat>)
    requires rules != [] && |works| == |rules| && MatchAt(rules[1..], works, at)
    ensures MatchAt(rules, [start] + works,
                    if rules[0].when(start).Matches? then [0] + Shifted(at) else Shifted(at))
  {
    ShiftedHas(at);
    forall i | 0 < i < |rules|
      ensures i in Shifted(at) <==> rules[i].when(([start] + works)[i]).Matches?
    { assert (i - 1) + 1 in Shifted(at) <==> i - 1 in at; }
  }

  lemma {:induction false} FoldPasses(rules: seq<Rule>, k: Progress) returns (works: seq<Work>)
    requires Fold(rules, k).Some?
    ensures Passing(rules, k.work, works) && works[|rules|] == Fold(rules, k).value.work
  {
    if rules == [] {
      works := [k.work];
    } else {
      var next := Consider(rules[0], k).value;
      var rest := FoldPasses(rules[1..], next);
      PassingFirst(rules, k.work, next.work, rest);
      works := [k.work] + rest;
    }
  }

  /** Where the rules match, and which they are. */
  ghost function Places(rules: seq<Rule>, works: seq<Work>): seq<nat>
    requires |works| == |rules| + 1
  {
    if rules == [] then []
    else (if rules[0].when(works[0]).Matches? then [0] else []) + Shifted(Places(rules[1..], works[1..]))
  }

  ghost function Picked(rules: seq<Rule>, works: seq<Work>): seq<Rule>
    requires |works| == |rules| + 1
  {
    if rules == [] then []
    else (if rules[0].when(works[0]).Matches? then [rules[0]] else []) + Picked(rules[1..], works[1..])
  }

  lemma {:induction false} PlacesSelect(rules: seq<Rule>, works: seq<Work>)
    requires |works| == |rules| + 1
    ensures Selects(rules, Places(rules, works), Picked(rules, works))
  {
    if rules != [] {
      PlacesSelect(rules[1..], works[1..]);
      SelectsFirst(rules, Places(rules[1..], works[1..]), Picked(rules[1..], works[1..]));
      assert [] + Shifted(Places(rules[1..], works[1..])) == Shifted(Places(rules[1..], works[1..]));
      assert [] + Picked(rules[1..], works[1..]) == Picked(rules[1..], works[1..]);
    }
  }

  lemma {:induction false} PlacesMatch(rules: seq<Rule>, works: seq<Work>)
    requires |works| == |rules| + 1
    ensures MatchAt(rules, works, Places(rules, works))
  {
    if rules != [] {
      PlacesMatch(rules[1..], works[1..]);
      MatchFirst(rules, works[0], works[1..], Places(rules[1..], works[1..]));
      assert works == [works[0]] + works[1..];
      assert [] + Shifted(Places(rules[1..], works[1..])) == Shifted(Places(rules[1..], works[1..]));
    }
  }

  lemma {:induction false} FoldPicks(rules: seq<Rule>, k: Progress, works: seq<Work>)
    requires Fold(rules, k).Some? && Passing(rules, k.work, works)
    ensures Fold(rules, k).value.matched == k.matched + Picked(rules, works)
  {
    if rules != [] {
      var one := if rules[0].when(works[0]).Matches? then [rules[0]] else [];
      var rest := Picked(rules[1..], works[1..]);
      PassingRest(rules, k.work, works);
      FoldPicks(rules[1..], Progress(works[1], k.matched + one), works[1..]);
      assert (k.matched + one) + rest == k.matched + (one + rest);
    }
  }

  lemma PassingRest(rules: seq<Rule>, start: Work, works: seq<Work>)
    requires rules != [] && Passing(rules, start, works)
    ensures Passing(rules[1..], works[1], works[1..])
    ensures var one := if rules[0].when(works[0]).Matches? then [rules[0]] else [];
      forall matched :: Consider(rules[0], Progress(start, matched)) == Some(Progress(works[1], matched + one))
  {
    assert Passes(rules[0], works[0], works[1]);
    assert forall matched: seq<Rule> :: matched + [] == matched;
    forall i | 0 <= i < |rules| - 1
      ensures Passes(rules[1..][i], works[1..][i], works[1..][i + 1])
    { assert Passes(rules[i + 1], works[i + 1], works[i + 2]); }
  }

  lemma {:induction false} FoldRaises(rules: seq<Rule>, k: Progress) returns (n: nat, works: seq<Work>)
    requires Fold(rules, k).None?
    ensures RaisesAt(rules, k.work, n, works)
  {
    if Consider(rules[0], k).None? {
      n, works := 0, [k.work];
      assert Passing(rules[..0], k.work, works);
    } else {
      var next := Consider(rules[0], k).value;
      var n', works' := FoldRaises(rules[1..], next);
      n, works := n' + 1, [k.work] + works';
      assert rules[..n][1..] == rules[1..][..n'];
      forall i | 0 <= i < n
        ensures Passes(rules[..n][i], works[i], works[i + 1])
      { if i > 0 { assert Passes(rules[1..][..n'][i - 1], works'[i - 1], works'[i]); } }
    }
  }

  lemma {:induction false} PassingIsOne(rules: seq<Rule>, start: Work, a: seq<Work>, b: seq<Work>, i: nat)
    requires Passing(rules, start, a) && i < |b| <= |a| && b[0] == start
    requires forall j | 0 <= j < i :: Passes(rules[j], b[j], b[j + 1])
    ensures a[i] == b[i]
  {
    if i > 0 {
      PassingIsOne(rules, start, a, b, i - 1);
      assert Passes(rules[i - 1], a[i - 1], a[i]) && Passes(rules[i - 1], b[i - 1], b[i]);
    }
  }

  /** The trace of an evaluation is exactly the rules whose condition holds of the work they find;
      and there is no result exactly when a rule raises that the evaluation comes to. */
  lemma TraceExactly(rules: seq<Rule>, start: Work)
    ensures var r := Fold(rules, Progress(start, []));
      && (r.Some? ==> exists works :: Passing(rules, start, works) && works[|rules|] == r.value.work
                        && AreTheMatching(rules, works, r.value.matched))
      && (r.None? <==> exists n: nat, works :: RaisesAt(rules, start, n, works))
  {
    if Fold(rules, Progress(start, [])).Some? {
      var works := TraceOfResult(rules, start);
      forall n: nat, b
        ensures !RaisesAt(rules, start, n, b)
      { NobodyRaises(rules, start, works, n, b); }
    } else {
      var n, works := FoldRaises(rules, Progress(start, []));
    }
  }

  lemma TraceOfResult(rules: seq<Rule>, start: Work) returns (works: seq<Work>)
    requires Fold(rules, Progress(start, [])).Some?
    ensures var r := Fold(rules, Progress(start, [])).value;
      Passing(rules, start, works) && works[|rules|] == r.work && AreTheMatching(rules, works, r.matched)
  {
    works := FoldPasses(rules, Progress(start, []));
    PlacesSelect(rules, works);
    PlacesMatch(rules, works);
    FoldPicks(rules, Progress(start, []), works);
    assert [] + Picked(rules, works) == Fold(rules, Progress(start, [])).value.matched;
  }

  lemma NobodyRaises(rules: seq<Rule>, start: Work, works: seq<Work>, n: nat, b: seq<Work>)
    requires Passing(rules, start, works)
    ensures !RaisesAt(rules, start, n, b)
  {
    if n < |rules| { assert Passes(rules[n], works[n], works[n + 1]); }
    if RaisesAt(rules, start, n, b) {
      forall j | 0 <= j < n
        ensures Passes(rules[j], b[j], b[j + 1])
      { assert Passes(rules[..n][j], b[j], b[j + 1]); }
      PassingIsOne(rules, start, works, b, n);
    }
  }

  /** A rule that acts on what it finds says something with this action. */
  ghost predicate SomeActing(rules: seq<Rule>, works: seq<Work>, asks: Action -> bool)
    requires |works| == |rules| + 1
  {
    exists i, j | 0 <= i < |rules| && 0 <= j < |rules[i].actions| ::
      rules[i].when(works[i]).Matches? && asks(rules[i].actions[j])
  }

  lemma {:induction false} FlatHas(matched: seq<Rule>, a: Action)
    ensures a in Flat(matched) <==> exists r | r in matched :: a in r.actions
  {
    if matched != [] {
      var n := |matched| - 1;
      FlatHas(matched[..n], a);
      assert matched == matched[..n] + [matched[n]];
    }
  }

  lemma ActingAreFlat(rules: seq<Rule>, works: seq<Work>, matched: seq<Rule>, asks: Action -> bool)
    requires |works| == |rules| + 1 && AreTheMatching(rules, works, matched)
    ensures SomeActing(rules, works, asks) <==> exists a | a in Flat(matched) :: asks(a)
  {
    var at :| Selects(rules, at, matched) && MatchAt(rules, works, at);
    if SomeActing(rules, works, asks) {
      var i, j :| && 0 <= i < |rules| && 0 <= j < |rules[i].actions|
                  && rules[i].when(works[i]).Matches? && asks(rules[i].actions[j]);
      var m :| 0 <= m < |at| && at[m] == i;
      FlatHas(matched, rules[i].actions[j]);
      assert matched[m] == rules[i] && matched[m] in matched;
    }
    if a :| a in Flat(matched) && asks(a) {
      FlatHas(matched, a);
      var r :| r in matched && a in r.actions;
      var m :| 0 <= m < |matched| && matched[m] == r;
      assert at[m] in at && rules[at[m]].when(works[at[m]]).Matches?;
      var j :| 0 <= j < |r.actions| && r.actions[j] == a;
      assert asks(rules[at[m]].actions[j]);
    }
  }

  const DENIES: Action -> bool := (a: Action) => a.DenyPlan?
  const ASKS: Action -> bool := (a: Action) => a.RequireApproval?

  /** So the plan is denied exactly when a rule that denies it matches what it finds, and held for
      approval exactly when a rule that asks for it does. */
  lemma DeniedByConditions(rules: seq<Rule>, flags: map<string, Flag>, plan: Option<Plan>, toolset: seq<string>)
    requires Fold(rules, Progress(Work(NO_DECISION, flags, plan, toolset), [])).Some?
    ensures var start := Work(NO_DECISION, flags, plan, toolset);
      var r := Fold(rules, Progress(start, [])).value;
      exists works :: Passing(rules, start, works) && works[|rules|] == r.work
        && (r.work.decision.denied <==> SomeActing(rules, works, DENIES))
        && (r.work.decision.requireApproval <==> SomeActing(rules, works, ASKS))
  {
    var start := Work(NO_DECISION, flags, plan, toolset);
    var r := Fold(rules, Progress(start, [])).value;
    TraceExactly(rules, start);
    EvaluationLaw(rules, flags, plan, toolset);
    var works :| Passing(rules, start, works) && works[|rules|] == r.work && AreTheMatching(rules, works, r.matched);
    ActingAreFlat(rules, works, r.matched, DENIES);
    ActingAreFlat(rules, works, r.matched, ASKS);
    SayersAreThere(Flat(r.matched));
  }

  lemma SayersAreThere(actions: seq<Action>)
    ensures Denies(actions) <==> exists a | a in actions :: DENIES(a)
    ensures AsksApproval(actions) <==> exists a | a in actions :: ASKS(a)
  {
    assert forall i | 0 <= i < |actions| && actions[i].DenyPlan? :: DENIES(actions[i]);
    assert forall i | 0 <= i < |actions| && actions[i].RequireApproval? :: ASKS(actions[i]);
  }

  // ---------- when an action raises ----------

  predicate ReadsAsNumber(flags: map<string, Flag>, key: string) { key !in flags || flags[key].Num? }

  predicate BoundReads(flags: map<string, Flag>, b: Bound) { b.FromFlag? ==> ReadsAsNumber(flags, b.name) }

  /** The engine does not know the action, or a clamp names no flag or one that is no number. */
  predicate CannotApply(a: Action, k: Work) {
    || a.Unknown?
    || (a.Clamp? && (a.flag.None? || !ReadsAsNumber(k.flags, a.flag.value)
                     || !BoundReads(k.flags, a.max) || !BoundReads(k.flags, a.min)))
  }

  lemma RaisesExactly(a: Action, k: Work)
    ensures Apply(a, k).None? <==> CannotApply(a, k)
  {
  }

  // ---------- what a clamp makes of a number ----------

  /** The number a flag reads as; a missing one reads as zero. */
  function NumberIn(flags: map<string, Flag>, key: string): real {
    if key in flags && flags[key].Num? then flags[key].r else 0.0
  }

  /** The number a bound stands for, if there is a bound. */
  function BoundIn(flags: map<string, Flag>, b: Bound): Option<real> {
    match b
    case NoBound => None
    case Fixed(r) => Some(r)
    case FromFlag(name) => Some(NumberIn(flags, name))
  }

  /** A number between the bounds stays, one below the lower bound becomes it, one above the upper
      bound becomes that, unless the lower bound is higher still. */
  predicate IsClamped(v: real, hi: Option<real>, lo: Option<real>, r: real) {
    if (hi.None? || v <= hi.value) && (lo.None? || lo.value <= v) then r == v
    else if lo.Some? && (v < lo.value || (hi.Some? && hi.value < lo.value)) then r == lo.value
    else hi.Some? && r == hi.value
  }

  lemma ClampIs(a: Action, k: Work)
    requires a.Clamp? && !CannotApply(a, k)
    ensures Apply(a, k).Some?
    ensures var flags := Apply(a, k).value.flags;
      && flags.Keys == k.flags.Keys + {a.flag.value} && flags[a.flag.value].Num?
      && IsClamped(NumberIn(k.flags, a.flag.value), BoundIn(k.flags, a.max), BoundIn(k.flags, a.min),
                   flags[a.flag.value].r)
  {
  }

  // ---------- what a sequence of actions leaves ----------

  datatype Topic = DenialReason | ApprovalReason | Roles | Parties

  /** The action says something about this. */
  predicate Says(a: Action, topic: Topic) {
    match topic
    case DenialReason => a.DenyPlan?
    case ApprovalReason => a.RequireApproval?
    case Roles => a.RequireApproval? && a.roles != []
    case Parties => a.RequireApproval? && a.parties.Some? && a.parties.value != 0
  }

  predicate LastToSay(actions: seq<Action>, topic: Topic, i: int) {
    0 <= i < |actions| && Says(actions[i], topic) && forall j | i < j < |actions| :: !Says(actions[j], topic)
  }

  predicate NobodySays(actions: seq<Action>, topic: Topic) {
    forall i | 0 <= i < |actions| :: !Says(actions[i], topic)
  }

  ghost predicate ReasonsTold(actions: seq<Action>, d: Decision, d': Decision) {
    && (forall i | LastToSay(actions, DenialReason, i) :: d'.denialReason == actions[i].reason)
    && (NobodySays(actions, DenialReason) ==> d'.denialReason == d.denialReason)
    && (forall i | LastToSay(actions, ApprovalReason, i) :: d'.approvalReason == actions[i].reason)
    && (NobodySays(actions, ApprovalReason) ==> d'.approvalReason == d.approvalReason)
  }

  ghost predicate RolesTold(actions: seq<Action>, d: Decision, d': Decision) {
    && (forall i | LastToSay(actions, Roles, i) :: d'.approvalRoles == actions[i].roles)
    && (NobodySays(actions, Roles) ==> d'.approvalRoles == d.approvalRoles)
  }

  ghost predicate PartiesTold(actions: seq<Action>, d: Decision, d': Decision) {
    && (forall i | LastToSay(actions, Parties, i) :: d'.approvalParties == actions[i].parties.value)
    && (NobodySays(actions, Parties) ==> d'.approvalParties == d.approvalParties)
  }

  /** Reasons, roles and parties are those of the last action that gives any. */
  ghost predicate DecisionTold(actions: seq<Action>, d: Decision, d': Decision) {
    ReasonsTold(actions, d, d') && RolesTold(actions, d, d') && PartiesTold(actions, d, d')
  }

  lemma OneMoreSays(actions: seq<Action>, a: Action, topic: Topic)
    ensures LastToSay(actions + [a], topic, |actions|) <==> Says(a, topic)
    ensures forall i | 0 <= i < |actions| ::
      LastToSay(actions + [a], topic, i) <==> LastToSay(actions, topic, i) && !Says(a, topic)
    ensures NobodySays(actions + [a], topic) <==> NobodySays(actions, topic) && !Says(a, topic)
  {
    var more := actions + [a];
    assert more[|actions|] == a && forall i | 0 <= i < |actions| :: more[i] == actions[i];
  }

  /** The actions one after the other: all but the last, then the last. */
  lemma LastActs(actions: seq<Action>, k: Work)
    requires actions != [] && ApplyAll(actions, k).Some?
    ensures var n := |actions| - 1;
      && actions == actions[..n] + [actions[n]]
      && ApplyAll(actions[..n], k).Some? && Apply(actions[n], ApplyAll(actions[..n], k).value) == ApplyAll(actions, k)
  {
    var n := |actions| - 1;
    assert actions == actions[..n] + [actions[n]];
    ApplyAllThen(actions[..n], [actions[n]], k);
    var one := [actions[n]];
    assert one[0] == actions[n] && one[1..] == [];
  }

  lemma {:induction false} DecisionLaw(actions: seq<Action>, k: Work)
    requires ApplyAll(actions, k).Some?
    ensures DecisionTold(actions, k.decision, ApplyAll(actions, k).value.decision)
  {
    if actions != [] {
      var n := |actions| - 1;
      LastActs(actions, k);
      DecisionLaw(actions[..n], k);
      OneMoreTold(actions[..n], actions[n], k.decision, ApplyAll(actions[..n], k).value);
    }
  }

  lemma OneMoreTold(actions: seq<Action>, a: Action, d: Decision, k: Work)
    requires DecisionTold(actions, d, k.decision) && Apply(a, k).Some?
    ensures DecisionTold(actions + [a], d, Apply(a, k).value.decision)
  {
    OneMoreReason(actions, a, d, k);
    OneMoreRole(actions, a, d, k);
    OneMoreParty(actions, a, d, k);
  }

  lemma OneMoreReason(actions: seq<Action>, a: Action, d: Decision, k: Work)
    requires ReasonsTold(actions, d, k.decision) && Apply(a, k).Some?
    ensures ReasonsTold(actions + [a], d, Apply(a, k).value.decision)
  {
    OneMoreSays(actions, a, DenialReason);
    OneMoreSays(actions, a, ApprovalReason);
    var more := actions + [a];
    assert more[|actions|] == a && forall i | 0 <= i < |actions| :: more[i] == actions[i];
  }

  lemma OneMoreRole(actions: seq<Action>, a: Action, d: Decision, k: Work)
    requires RolesTold(actions, d, k.decision) && Apply(a, k).Some?
    ensures RolesTold(actions + [a], d, Apply(a, k).value.decision)
  {
    OneMoreSays(actions, a, Roles);
    var more := actions + [a];
    assert more[|actions|] == a && forall i | 0 <= i < |actions| :: more[i] == actions[i];
  }

  lemma OneMoreParty(actions: seq<Action>, a: Action, d: Decision, k: Work)
    requires PartiesTold(actions, d, k.decision) && Apply(a, k).Some?
    ensures PartiesTold(actions + [a], d, Apply(a, k).value.decision)
  {
    OneMoreSays(actions, a, Parties);
    var more := actions + [a];
    assert more[|actions|] == a && forall i | 0 <= i < |actions| :: more[i] == actions[i];
  }

  // ---------- nudges ----------

  /** The first of these actions to give a text that was not among the nudges. */
  predicate FirstMention(actions: seq<Action>, given: seq<string>, i: nat) {
    && i < |actions| && actions[i].AddNudge? && actions[i].text !in given
    && forall j | 0 <= j < i :: !(actions[j].AddNudge? && actions[j].text == actions[i].text)
  }

  /** The nudges are those given and after them each new text once, in the order of its first
      mention. */
  ghost predicate NudgesTold(actions: seq<Action>, given: seq<string>, nudges: seq<string>, at: seq<nat>) {
    && |nudges| == |given| + |at| && nudges[..|given|] == given
    && (forall i, j | 0 <= i < j < |at| :: at[i] < at[j])
    && (forall i :: i in at <==> FirstMention(actions, given, i))
    && (forall i | 0 <= i < |at| :: at[i] < |actions| && actions[at[i]].AddNudge?
                                    && nudges[|given| + i] == actions[at[i]].text)
  }

  lemma MentionedIsThere(actions: seq<Action>, given: seq<string>, nudges: seq<string>, at: seq<nat>, text: string)
    requires NudgesTold(actions, given, nudges, at)
    ensures text in nudges <==> text in given || exists i | 0 <= i < |actions| :: actions[i] == AddNudge(text)
  {
    if text in nudges && text !in given {
      var rest := nudges[|given|..];
      assert nudges == given + rest;
      var i :| 0 <= i < |rest| && rest[i] == text;
      assert actions[at[i]] == AddNudge(text);
    }
    if i :| 0 <= i < |actions| && actions[i] == AddNudge(text) {
      if text !in given {
        var first := FirstTo(actions, given, i);
        assert first in at;
        var m :| 0 <= m < |at| && at[m] == first;
        assert nudges[|given| + m] == text;
      }
    }
    if text in given {
      var i :| 0 <= i < |given| && given[i] == text;
      assert nudges[..|given|][i] == text;
    }
  }

  lemma {:induction false} FirstTo(actions: seq<Action>, given: seq<string>, i: nat) returns (first: nat)
    requires i < |actions| && actions[i].AddNudge? && actions[i].text !in given
    ensures first <= i && FirstMention(actions, given, first) && actions[first] == actions[i]
  {
    first := i;
    if j :| 0 <= j < i && actions[j].AddNudge? && actions[j].text == actions[i].text {
      first := FirstTo(actions, given, j);
    }
  }

  lemma {:induction false} NudgesLaw(actions: seq<Action>, k: Work) returns (at: seq<nat>)
    requires ApplyAll(actions, k).Some?
    ensures NudgesTold(actions, k.decision.nudges, ApplyAll(actions, k).value.decision.nudges, at)
  {
    if actions == [] {
      at := [];
    } else {
      var n, given := |actions| - 1, k.decision.nudges;
      LastActs(actions, k);
      var before := NudgesLaw(actions[..n], k);
      var k1 := ApplyAll(actions[..n], k).value;
      at := before + if FirstMention(actions, given, n) then [n] else [];
      if actions[n].AddNudge? { MentionedIsThere(actions[..n], given, k1.decision.nudges, before, actions[n].text); }
      OneMoreNudge(actions[..n], actions[n], given, k1, before);
    }
  }

  lemma OneMoreNudge(actions: seq<Action>, a: Action, given: seq<string>, k: Work, before: seq<nat>)
    requires NudgesTold(actions, given, k.decision.nudges, before) && Apply(a, k).Some?
    requires a.AddNudge? ==>
      var mentioned := exists i | 0 <= i < |actions| :: actions[i] == AddNudge(a.text);
      (a.text in k.decision.nudges <==> a.text in given || mentioned)
    ensures var n := |actions|;
      NudgesTold(actions + [a], given, Apply(a, k).value.decision.nudges,
                 before + if FirstMention(actions + [a], given, n) then [n] else [])
  {
    var n, more := |actions|, actions + [a];
    assert more[n] == a && forall i | 0 <= i < n :: more[i] == actions[i];
    forall i | 0 <= i < n
      ensures FirstMention(more, given, i) <==> FirstMention(actions, given, i)
    {
    }
    if a.AddNudge? {
      assert FirstMention(more, given, n) <==> a.text !in k.decision.nudges;
    }
    assert forall i | i in before :: i < n;
  }

  // ---------- flags ----------

  /** The action writes this flag. */
  predicate Writes(a: Action, key: string) { (a.SetFlag? && a.key == key) || (a.Clamp? && a.flag == Some(key)) }

  predicate LastToWrite(actions: seq<Action>, key: string, i: int) {
    0 <= i < |actions| && Writes(actions[i], key) && forall j | i < j < |actions| :: !Writes(actions[j], key)
  }

  /** What the action leaves in the flag it writes, from the flags before it. */
  ghost predicate Wrote(a: Action, before: map<string, Flag>, value: Flag) {
    if a.SetFlag? then value == a.value
    else
      && a.Clamp? && a.flag.Some? && value.Num?
      && IsClamped(NumberIn(before, a.flag.value), BoundIn(before, a.max), BoundIn(before, a.min), value.r)
  }

  /** The `i`-th action left this value, from the flags it found. */
  ghost predicate WroteAt(actions: seq<Action>, k: Work, i: int, value: Flag) {
    && 0 <= i < |actions| && ApplyAll(actions[..i], k).Some?
    && Wrote(actions[i], ApplyAll(actions[..i], k).value.flags, value)
  }

  /** A flag nobody writes is as it was; any other is what the last action to write it made of the
      flags it found. */
  ghost predicate FlagTold(actions: seq<Action>, k: Work, flags: map<string, Flag>, key: string) {
    && ((forall i | 0 <= i < |actions| :: !Writes(actions[i], key)) ==>
          (key in flags <==> key in k.flags) && (key in flags ==> flags[key] == k.flags[key]))
    && (forall i | LastToWrite(actions, key, i) :: key in flags && WroteAt(actions, k, i, flags[key]))
  }

  lemma {:induction false} FlagsLaw(actions: seq<Action>, k: Work, key: string)
    requires ApplyAll(actions, k).Some?
    ensures FlagTold(actions, k, ApplyAll(actions, k).value.flags, key)
  {
    if actions != [] {
      var n := |actions| - 1;
      LastActs(actions, k);
      FlagsLaw(actions[..n], k, key);
      var before, flags := ApplyAll(actions[..n], k).value, ApplyAll(actions, k).value.flags;
      WritesFlag(actions[n], before, key);
      forall i | LastToWrite(actions, key, i)
        ensures key in flags && WroteAt(actions, k, i, flags[key])
      {
        if i < n {
          assert LastToWrite(actions[..n], key, i);
          WroteBefore(actions, k, n, i, flags[key]);
        }
      }
    }
  }

  lemma WroteBefore(actions: seq<Action>, k: Work, n: nat, i: nat, value: Flag)
    requires n <= |actions| && WroteAt(actions[..n], k, i, value)
    ensures WroteAt(actions, k, i, value)
  {
    assert actions[..n][..i] == actions[..i];
  }

  lemma WritesFlag(a: Action, k: Work, key: string)
    requires Apply(a, k).Some?
    ensures var flags := Apply(a, k).value.flags;
      if Writes(a, key) then key in flags && Wrote(a, k.flags, flags[key])
      else (key in flags <==> key in k.flags) && (key in flags ==> flags[key] == k.flags[key])
  {
    RaisesExactly(a, k);
    if a.Clamp? { ClampIs(a, k); }
  }

  // ---------- the rules of an evaluation, and their order ----------

  predicate IsForStage(r: Rule, stage: string) { r.stage == "*" || r.stage == stage }

  lemma {:induction false} ApplicableAre(rules: seq<Rule>, stage: string) returns (at: seq<nat>)
    ensures Selects(rules, at, Applicable(rules, stage))
    ensures forall i | 0 <= i < |rules| :: i in at <==> rules[i].enabled && IsForStage(rules[i], stage)
  {
    if rules == [] {
      at := [];
    } else {
      var rest := ApplicableAre(rules[1..], stage);
      SelectsFirst(rules, rest, Applicable(rules[1..], stage));
      ShiftedHas(rest);
      var takes := rules[0].enabled && IsForStage(rules[0], stage);
      at := if takes then [0] + Shifted(rest) else Shifted(rest);
      assert Applicable(rules, stage) == (if takes then [rules[0]] else []) + Applicable(rules[1..], stage);
      forall i | 0 < i < |rules|
        ensures i in at <==> rules[i].enabled && IsForStage(rules[i], stage)
      { assert (i - 1) + 1 in Shifted(rest) <==> i - 1 in rest; }
    }
  }

  lemma {:induction false} CallablesAre(rules: seq<Rule>, stage: string) returns (at: seq<nat>)
    ensures Selects(rules, at, ForStage(rules, stage))
    ensures forall i | 0 <= i < |rules| :: i in at <==> IsForStage(rules[i], stage)
  {
    if rules == [] {
      at := [];
    } else {
      var rest := CallablesAre(rules[1..], stage);
      SelectsFirst(rules, rest, ForStage(rules[1..], stage));
      ShiftedHas(rest);
      var takes := IsForStage(rules[0], stage);
      at := if takes then [0] + Shifted(rest) else Shifted(rest);
      assert ForStage(rules, stage) == (if takes then [rules[0]] else []) + ForStage(rules[1..], stage);
      forall i | 0 < i < |rules|
        ensures i in at <==> IsForStage(rules[i], stage)
      { assert (i - 1) + 1 in Shifted(rest) <==> i - 1 in rest; }
    }
  }

  /** The rules of an evaluation: first the enabled rules of the ruleset that are for the stage,
      each where it stands, then the callables that are, and each group sorted by priority,
      rules of one priority in the order they were given. */
  ghost predicate IsOrderOf(ruleset: seq<Rule>, callables: seq<Rule>, stage: string, rules: seq<Rule>) {
    exists a, b, at, bt ::
      && Selects(ruleset, at, a) && (forall i | 0 <= i < |ruleset| ::
              i in at <==> ruleset[i].enabled && IsForStage(ruleset[i], stage))
      && Selects(callables, bt, b) && (forall i | 0 <= i < |callables| :: i in bt <==> IsForStage(callables[i], stage))
      && AreSorted(a, b, rules)
  }

  /** These are the rules of the one and then of the other, each stably sorted by priority. */
  ghost predicate AreSorted(a: seq<Rule>, b: seq<Rule>, rules: seq<Rule>) {
    && |rules| == |a| + |b|
    && SortedByPriority(rules[..|a|]) && (forall p :: OfPriority(rules[..|a|], p) == OfPriority(a, p))
    && SortedByPriority(rules[|a|..]) && (forall p :: OfPriority(rules[|a|..], p) == OfPriority(b, p))
  }

  lemma {:induction false} InsertLength(r: Rule, sorted: seq<Rule>)
    ensures |Insert(r, sorted)| == |sorted| + 1
  {
    if sorted != [] && sorted[0].priority < r.priority { InsertLength(r, sorted[1..]); }
  }

  lemma {:induction false} ByPriorityLength(rules: seq<Rule>)
    ensures |ByPriority(rules)| == |rules|
  {
    if rules != [] {
      ByPriorityLength(rules[1..]);
      InsertLength(rules[0], ByPriority(rules[1..]));
    }
  }

  lemma OrderLaw(ruleset: seq<Rule>, callables: seq<Rule>, stage: string)
    ensures IsOrderOf(ruleset, callables, stage, Order(ruleset, callables, stage))
  {
    var a, b, rules := Applicable(ruleset, stage), ForStage(callables, stage), Order(ruleset, callables, stage);
    var at := ApplicableAre(ruleset, stage);
    var bt := CallablesAre(callables, stage);
    ByPriorityIsStableSort(a);
    ByPriorityIsStableSort(b);
    ByPriorityLength(a);
    ByPriorityLength(b);
    assert rules[..|a|] == ByPriority(a) && rules[|a|..] == ByPriority(b);
    assert AreSorted(a, b, rules);
  }

  // ---------- one whole evaluation ----------

  /** What an evaluation decides, writes and remarks, said by the actions of the rules it matched. */
  lemma EvaluationTold(rules: seq<Rule>, flags: map<string, Flag>, plan: Option<Plan>, toolset: seq<string>)
    requires Fold(rules, Progress(Work(NO_DECISION, flags, plan, toolset), [])).Some?
    ensures var start := Work(NO_DECISION, flags, plan, toolset);
      var r := Fold(rules, Progress(start, [])).value;
      && DecisionTold(Flat(r.matched), Decision(false, "", [], 1, false, "", []), r.work.decision)
      && (exists at :: NudgesTold(Flat(r.matched), [], r.work.decision.nudges, at))
      && (forall key :: FlagTold(Flat(r.matched), start, r.work.flags, key))
  {
    var start := Work(NO_DECISION, flags, plan, toolset);
    var actions := Flat(Fold(rules, Progress(start, [])).value.matched);
    FoldAppliesMatched(rules, start, Progress(start, []));
    DecisionLaw(actions, start);
    var at := NudgesLaw(actions, start);
    forall key
      ensures FlagTold(actions, start, ApplyAll(actions, start).value.flags, key)
    { FlagsLaw(actions, start, key); }
  }
}
