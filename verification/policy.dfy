/** The policy engine's rule fold and its actions
    (`src/maof/policy/engine.py`, `src/maof/policy/actions.py`). The condition of a rule is
    any function of the evaluation context, which covers the condition language and the
    Python-callable rules alike; it may raise. Numbers are exact. */
module Policy {
  import opened Base

  /** A flag is a text; what matters is whether it reads as a number. */
  datatype Flag = Num(r: real) | Word(text: string)

  datatype Plan = Plan(tasks: seq<Task>, taskTypes: seq<string>)
  datatype Task = Task(id: string, taskType: string)

  datatype Bound = NoBound | Fixed(r: real) | FromFlag(name: string)

  datatype Action =
    | SetFlag(key: string, value: Flag)
    | AddNudge(text: string)
    | RequireApproval(reason: string, roles: seq<string>, parties: Option<int>)
    | DenyPlan(reason: string)
    | StripTool(name: string)
    | StripTaskType(taskType: string)
    | Clamp(flag: Option<string>, max: Bound, min: Bound)
    | Unknown(name: string)

  datatype Decision = Decision(
    requireApproval: bool, approvalReason: string, approvalRoles: seq<string>, approvalParties: int,
    denied: bool, denialReason: string, nudges: seq<string>)

  const NO_DECISION := Decision(false, "", [], 1, false, "", [])

  /** The working copies the actions mutate, which is also what conditions look at. */
  datatype Work = Work(decision: Decision, flags: map<string, Flag>, plan: Option<Plan>, toolset: seq<string>)

  datatype Verdict = Matches | Skips | Raises

  datatype Rule = Rule(id: string, stage: string, priority: int, enabled: bool, when: Work -> Verdict,
                       actions: seq<Action>)

  // ---------- actions ----------

  /** `_num` of a flag: a missing flag counts as zero, a text that is no number raises. */
  function NumberOf(flags: map<string, Flag>, key: string): Option<real> {
    if key !in flags then Some(0.0)
    else match flags[key] case Num(r) => Some(r) case Word(_) => None
  }

  function BoundOf(flags: map<string, Flag>, b: Bound): Option<Bound> {
    match b
    case FromFlag(name) =>
      var r := NumberOf(flags, name);
      if r.Some? then Some(Fixed(r.value)) else None
    case _ => Some(b)
  }

  /** The upper bound first, then the lower one: a lower bound above the upper one wins. */
  function Clamped(v: real, max: Bound, min: Bound): real {
    var capped := if max.Fixed? && max.r < v then max.r else v;
    if min.Fixed? && min.r > capped then min.r else capped
  }

  function Without(xs: seq<string>, x: string): seq<string> {
    if xs == [] then [] else (if xs[0] == x then [] else [xs[0]]) + Without(xs[1..], x)
  }

  function TasksWithout(ts: seq<Task>, taskType: string): seq<Task> {
    if ts == [] then [] else (if ts[0].taskType == taskType then [] else [ts[0]]) + TasksWithout(ts[1..], taskType)
  }

  /** `apply_action`; none when it raises. */
  function Apply(a: Action, k: Work): Option<Work> {
    match a
    case SetFlag(key, value) => Some(k.(flags := k.flags[key := value]))
    case AddNudge(text) =>
      Some(if text in k.decision.nudges then k else k.(decision := k.decision.(nudges := k.decision.nudges + [text])))
    case RequireApproval(reason, roles, parties) =>
      Some(k.(decision := k.decision.(
        requireApproval := true, approvalReason := reason,
        approvalRoles := if roles == [] then k.decision.approvalRoles else roles,
        approvalParties := if parties.Some? && parties.value != 0 then parties.value else k.decision.approvalParties)))
    case DenyPlan(reason) => Some(k.(decision := k.decision.(denied := true, denialReason := reason)))
    case StripTool(name) => Some(k.(toolset := Without(k.toolset, name)))
    case StripTaskType(tt) =>
      Some(if k.plan.None? then k
           else k.(plan := Some(Plan(TasksWithout(k.plan.value.tasks, tt), Without(k.plan.value.taskTypes, tt)))))
    case Clamp(flag, max, min) =>
      if flag.None? then None
      else
        var upper, lower, v := BoundOf(k.flags, max), BoundOf(k.flags, min), NumberOf(k.flags, flag.value);
        if upper.None? || lower.None? || v.None? then None
        else Some(k.(flags := k.flags[flag.value := Num(Clamped(v.value, upper.value, lower.value))]))
    case Unknown(_) => None
  }

  function ApplyAll(actions: seq<Action>, k: Work): Option<Work> {
    if actions == [] then Some(k)
    else
      var next := Apply(actions[0], k);
      if next.None? then None else ApplyAll(actions[1..], next.value)
  }

  // ---------- the fold over the rules ----------

  /** Where an evaluation stands; `matched` is its trace. */
  datatype Progress = Progress(work: Work, matched: seq<Rule>)

  function Consider(rule: Rule, k: Progress): Option<Progress> {
    match rule.when(k.work)
    case Raises => None
    case Skips => Some(k)
    case Matches =>
      var done := ApplyAll(rule.actions, k.work);
      if done.None? then None else Some(Progress(done.value, k.matched + [rule]))
  }

  function Fold(rules: seq<Rule>, k: Progress): Option<Progress> {
    if rules == [] then Some(k)
    else
      var next := Consider(rules[0], k);
      if next.None? then None else Fold(rules[1..], next.value)
  }

  predicate StageMatch(ruleStage: string, stage: string) { ruleStage == "*" || ruleStage == stage }

  /** Python's stable sort by priority. */
  function Insert(r: Rule, sorted: seq<Rule>): seq<Rule> {
    if sorted == [] then [r]
    else if sorted[0].priority < r.priority then [sorted[0]] + Insert(r, sorted[1..])
    else [r] + sorted
  }

  function ByPriority(rules: seq<Rule>): seq<Rule> {
    if rules == [] then [] else Insert(rules[0], ByPriority(rules[1..]))
  }

  function Applicable(rules: seq<Rule>, stage: string): seq<Rule> {
    if rules == [] then []
    else
      (if rules[0].enabled && StageMatch(rules[0].stage, stage) then [rules[0]] else [])
      + Applicable(rules[1..], stage)
  }

  /** A callable rule cannot be disabled. */
  function ForStage(callables: seq<Rule>, stage: string): seq<Rule> {
    if callables == [] then []
    else (if StageMatch(callables[0].stage, stage) then [callables[0]] else []) + ForStage(callables[1..], stage)
  }

  /** The rules of one evaluation: the enabled rules of the ruleset, then the callable rules,
      each group by priority and, at the same priority, in the order they were given. */
  function Order(ruleset: seq<Rule>, callables: seq<Rule>, stage: string): seq<Rule> {
    ByPriority(Applicable(ruleset, stage)) + ByPriority(ForStage(callables, stage))
  }

  // ---------- the order of the rules ----------

  ghost predicate SortedByPriority(rules: seq<Rule>) {
    forall i, j | 0 <= i < j < |rules| :: rules[i].priority <= rules[j].priority
  }

  function OfPriority(rules: seq<Rule>, p: int): seq<Rule> {
    if rules == [] then [] else (if rules[0].priority == p then [rules[0]] else []) + OfPriority(rules[1..], p)
  }

  lemma {:induction false} InsertHas(r: Rule, sorted: seq<Rule>)
    ensures forall x | x in Insert(r, sorted) :: x == r || x in sorted
  {
    if sorted != [] && sorted[0].priority < r.priority { InsertHas(r, sorted[1..]); }
  }

  lemma {:induction false} InsertSorts(r: Rule, sorted: seq<Rule>)
    requires SortedByPriority(sorted)
    ensures SortedByPriority(Insert(r, sorted))
  {
    if sorted != [] && sorted[0].priority < r.priority {
      var rest := Insert(r, sorted[1..]);
      InsertSorts(r, sorted[1..]);
      InsertHas(r, sorted[1..]);
      assert Insert(r, sorted) == [sorted[0]] + rest;
      assert forall i | 0 <= i < |rest| :: rest[i] in rest;
    }
  }

  lemma {:induction false} InsertLaw(r: Rule, sorted: seq<Rule>)
    ensures forall p ::
      OfPriority(Insert(r, sorted), p) == (if r.priority == p then [r] else []) + OfPriority(sorted, p)
  {
    if sorted != [] && sorted[0].priority < r.priority {
      InsertLaw(r, sorted[1..]);
      assert Insert(r, sorted)[1..] == Insert(r, sorted[1..]);
    } else {
      assert Insert(r, sorted) == [r] + sorted && ([r] + sorted)[1..] == sorted;
    }
  }

  /** The sort orders by priority and keeps the given order within each priority. */
  lemma {:induction false} ByPriorityIsStableSort(rules: seq<Rule>)
    ensures SortedByPriority(ByPriority(rules))
    ensures forall p :: OfPriority(ByPriority(rules), p) == OfPriority(rules, p)
  {
    if rules != [] {
      ByPriorityIsStableSort(rules[1..]);
      InsertSorts(rules[0], ByPriority(rules[1..]));
      InsertLaw(rules[0], ByPriority(rules[1..]));
    }
  }

  // ---------- what an evaluation does, said by the actions of the matched rules ----------

  /** The actions of the matched rules, one after the other. */
  function Flat(matched: seq<Rule>): seq<Action> {
    if matched == [] then [] else Flat(matched[..|matched| - 1]) + matched[|matched| - 1].actions
  }

  lemma {:induction false} ApplyAllThen(a: seq<Action>, b: seq<Action>, k: Work)
    ensures ApplyAll(a + b, k) == if ApplyAll(a, k).None? then None else ApplyAll(b, ApplyAll(a, k).value)
  {
    if a == [] {
      assert a + b == b;
    } else {
      assert (a + b)[0] == a[0] && (a + b)[1..] == a[1..] + b;
      if Apply(a[0], k).Some? { ApplyAllThen(a[1..], b, Apply(a[0], k).value); }
    }
  }

  /** An evaluation that does not raise applies the actions of the rules it matched, in order. */
  lemma {:induction false} FoldAppliesMatched(rules: seq<Rule>, start: Work, k: Progress)
    requires ApplyAll(Flat(k.matched), start) == Some(k.work)
    requires Fold(rules, k).Some?
    ensures ApplyAll(Flat(Fold(rules, k).value.matched), start) == Some(Fold(rules, k).value.work)
  {
    if rules != [] {
      var next := Consider(rules[0], k).value;
      if rules[0].when(k.work).Matches? {
        assert next.matched[..|k.matched|] == k.matched;
        ApplyAllThen(Flat(k.matched), rules[0].actions, start);
      }
      FoldAppliesMatched(rules[1..], start, next);
    }
  }

  function StrippedTypes(actions: seq<Action>): set<string> {
    set i | 0 <= i < |actions| && actions[i].StripTaskType? :: actions[i].taskType
  }

  function StrippedTools(actions: seq<Action>): set<string> {
    set i | 0 <= i < |actions| && actions[i].StripTool? :: actions[i].name
  }

  ghost predicate Denies(actions: seq<Action>) {
    exists i | 0 <= i < |actions| :: actions[i].DenyPlan?
  }

  ghost predicate AsksApproval(actions: seq<Action>) {
    exists i | 0 <= i < |actions| :: actions[i].RequireApproval?
  }

  function Keep(xs: seq<string>, gone: set<string>): seq<string> {
    if xs == [] then [] else (if xs[0] in gone then [] else [xs[0]]) + Keep(xs[1..], gone)
  }

  function KeepTasks(ts: seq<Task>, gone: set<string>): seq<Task> {
    if ts == [] then [] else (if ts[0].taskType in gone then [] else [ts[0]]) + KeepTasks(ts[1..], gone)
  }

  lemma {:induction false} KeepThen(xs: seq<string>, x: string, gone: set<string>)
    ensures Keep(Without(xs, x), gone) == Keep(xs, gone + {x})
  {
    if xs != [] {
      KeepThen(xs[1..], x, gone);
      assert Without(xs, x) == if xs[0] == x then Without(xs[1..], x) else [xs[0]] + Without(xs[1..], x);
    }
  }

  lemma {:induction false} KeepTasksThen(ts: seq<Task>, tt: string, gone: set<string>)
    ensures KeepTasks(TasksWithout(ts, tt), gone) == KeepTasks(ts, gone + {tt})
  {
    if ts != [] {
      KeepTasksThen(ts[1..], tt, gone);
      var rest := TasksWithout(ts[1..], tt);
      assert TasksWithout(ts, tt) == if ts[0].taskType == tt then rest else [ts[0]] + rest;
    }
  }

  lemma {:induction false} KeepNothing(xs: seq<string>)
    ensures Keep(xs, {}) == xs
  {
    if xs != [] { KeepNothing(xs[1..]); }
  }

  lemma {:induction false} KeepNoTasks(ts: seq<Task>)
    ensures KeepTasks(ts, {}) == ts
  {
    if ts != [] { KeepNoTasks(ts[1..]); }
  }

  function Filtered(plan: Option<Plan>, gone: set<string>): Option<Plan> {
    if plan.None? then None else Some(Plan(KeepTasks(plan.value.tasks, gone), Keep(plan.value.taskTypes, gone)))
  }

  lemma StrippedSplit(actions: seq<Action>)
    requires actions != []
    ensures StrippedTypes(actions)
          == StrippedTypes(actions[1..]) + if actions[0].StripTaskType? then {actions[0].taskType} else {}
    ensures StrippedTools(actions)
          == StrippedTools(actions[1..]) + if actions[0].StripTool? then {actions[0].name} else {}
    ensures Denies(actions) <==> actions[0].DenyPlan? || Denies(actions[1..])
    ensures AsksApproval(actions) <==> actions[0].RequireApproval? || AsksApproval(actions[1..])
  {
    assert forall i | 0 < i < |actions| :: actions[i] == actions[1..][i - 1];
  }

  lemma {:induction false} ActionsLaw(actions: seq<Action>, k: Work)
    requires ApplyAll(actions, k).Some?
    ensures var r := ApplyAll(actions, k).value;
      && r.plan == Filtered(k.plan, StrippedTypes(actions))
      && r.toolset == Keep(k.toolset, StrippedTools(actions))
      && (r.decision.denied <==> k.decision.denied || Denies(actions))
      && (r.decision.requireApproval <==> k.decision.requireApproval || AsksApproval(actions))
  {
    if actions == [] {
      assert StrippedTools(actions) == {} && StrippedTypes(actions) == {};
      KeepNothing(k.toolset);
      if k.plan.Some? { KeepNothing(k.plan.value.taskTypes); KeepNoTasks(k.plan.value.tasks); }
    } else {
      var a, next := actions[0], Apply(actions[0], k).value;
      ActionsLaw(actions[1..], next);
      StrippedSplit(actions);
      assert !a.StripTaskType? ==> StrippedTypes(actions) == StrippedTypes(actions[1..]);
      assert !a.StripTool? ==> StrippedTools(actions) == StrippedTools(actions[1..]);
      if a.StripTool? {
        KeepThen(k.toolset, a.name, StrippedTools(actions[1..]));
      } else if a.StripTaskType? && k.plan.Some? {
        KeepThen(k.plan.value.taskTypes, a.taskType, StrippedTypes(actions[1..]));
        KeepTasksThen(k.plan.value.tasks, a.taskType, StrippedTypes(actions[1..]));
      }
    }
  }

  /** For every ruleset: the plan that comes back is the given plan without exactly the task
      types stripped by matched rules, the toolset likewise, and the plan is denied (or needs
      approval) exactly when a matched rule says so. */
  lemma EvaluationLaw(rules: seq<Rule>, flags: map<string, Flag>, plan: Option<Plan>, toolset: seq<string>)
    requires Fold(rules, Progress(Work(NO_DECISION, flags, plan, toolset), [])).Some?
    ensures var r := Fold(rules, Progress(Work(NO_DECISION, flags, plan, toolset), [])).value;
      && r.work.plan == Filtered(plan, StrippedTypes(Flat(r.matched)))
      && r.work.toolset == Keep(toolset, StrippedTools(Flat(r.matched)))
      && (r.work.decision.denied <==> Denies(Flat(r.matched)))
      && (r.work.decision.requireApproval <==> AsksApproval(Flat(r.matched)))
  {
    var k := Progress(Work(NO_DECISION, flags, plan, toolset), []);
    FoldAppliesMatched(rules, k.work, k);
    ActionsLaw(Flat(Fold(rules, k).value.matched), k.work);
  }

  // ---------- clamped flags ----------

  /** An action that cannot raise the flag above a cap it was clamped to. */
  predicate KeepsCap(a: Action, flag: string) {
    && !(a.SetFlag? && a.key == flag)
    && !(a.Clamp? && a.flag == Some(flag) && !a.min.NoBound?)
  }

  ghost predicate Capped(k: Work, flag: string, cap: real) {
    flag in k.flags && k.flags[flag].Num? && k.flags[flag].r <= cap
  }

  lemma {:induction false} CapStays(actions: seq<Action>, k: Work, flag: string, cap: real)
    requires Capped(k, flag, cap) && ApplyAll(actions, k).Some?
    requires forall i | 0 <= i < |actions| :: KeepsCap(actions[i], flag)
    ensures Capped(ApplyAll(actions, k).value, flag, cap)
  {
    if actions != [] {
      assert KeepsCap(actions[0], flag);
      CapStays(actions[1..], Apply(actions[0], k).value, flag, cap);
    }
  }

  /** A flag clamped with a maximum and no minimum by a matched rule stays at or below that
      maximum through everything later that neither sets it nor clamps it with a minimum. The
      maximum may be a number or the value another flag has at that moment. */
  lemma ClampHoldsToTheEnd(rules: seq<Rule>, start: Work, i: nat, flag: string, max: Bound, cap: real)
    requires Fold(rules, Progress(start, [])).Some?
    requires var all := Flat(Fold(rules, Progress(start, [])).value.matched);
      && i < |all| && all[i] == Clamp(Some(flag), max, NoBound)
      && (forall j | i < j < |all| :: KeepsCap(all[j], flag))
      && ApplyAll(all[..i], start).Some?
      && BoundOf(ApplyAll(all[..i], start).value.flags, max) == Some(Fixed(cap))
    ensures Capped(Fold(rules, Progress(start, [])).value.work, flag, cap)
  {
    var done := Fold(rules, Progress(start, [])).value;
    var all := Flat(done.matched);
    FoldAppliesMatched(rules, start, Progress(start, []));
    assert all == all[..i] + all[i..] && all[i..] == [all[i]] + all[i + 1..];
    ApplyAllThen(all[..i], all[i..], start);
    var k := ApplyAll(all[..i], start).value;
    assert all[i..][1..] == all[i + 1..];
    CapStays(all[i + 1..], Apply(all[i], k).value, flag, cap);
  }

  /** With both bounds the minimum wins: the result is never below it, and it keeps the maximum
      exactly when the minimum is not above that. So the cap alone is not a promise. */
  lemma MinimumBeatsMaximum(v: real, max: real, min: real)
    ensures Clamped(v, Fixed(max), Fixed(min)) >= min
    ensures Clamped(v, Fixed(max), Fixed(min)) <= max <==> min <= max
    ensures max <= min ==> Clamped(v, Fixed(max), Fixed(min)) == min
  {
  }

  // ---------- the engine ----------

  /** The part of a context envelope the engine writes. */
  class ContextEnvelope {
    var policyFlags: map<string, Flag>
    var toolset: seq<string>

    constructor (flags: map<string, Flag>, toolset: seq<string>)
      ensures policyFlags == flags && this.toolset == toolset
    {
      policyFlags, this.toolset := flags, toolset;
    }
  }

  /** A plan as an object: evaluation must not write to the caller's. */
  class PlanObject {
    var tasks: seq<Task>
    var taskTypes: seq<string>

    constructor (plan: Plan)
      ensures Snapshot() == plan
    {
      tasks, taskTypes := plan.tasks, plan.taskTypes;
    }

    function Snapshot(): Plan
      reads this
    {
      Plan(tasks, taskTypes)
    }
  }

  function PlanOf(plan: PlanObject?): Option<Plan>
    reads plan
  {
    if plan == null then None else Some(plan.Snapshot())
  }

  class NativePolicyEngine {
    const ruleset: seq<Rule>
    const callables: seq<Rule>

    constructor (ruleset: seq<Rule>, callables: seq<Rule>)
      ensures this.ruleset == ruleset && this.callables == callables
    {
      this.ruleset, this.callables := ruleset, callables;
    }

    method ApplyActions(actions: seq<Action>, k: Work) returns (r: Option<Work>)
      ensures r == ApplyAll(actions, k)
    {
      r := Some(k);
      for i := 0 to |actions|
        invariant r.Some? && ApplyAll(actions, k) == ApplyAll(actions[i..], r.value)
      {
        r := Apply(actions[i], r.value);
        if r.None? {
          return;
        }
      }
    }

    /** `_evaluate`. It works on copies: when a rule raises, nothing was written; otherwise the
        envelope gets the working flags and toolset, and the working plan is a new object, so
        the caller's plan is left as it was. */
    method Evaluate(env: ContextEnvelope, stage: string, plan: PlanObject?)
        returns (result: Option<Progress>, working: PlanObject?)
      modifies env
      ensures result
            == Fold(Order(ruleset, callables, stage),
                    Progress(Work(NO_DECISION, old(env.policyFlags), PlanOf(plan), old(env.toolset)), []))
      ensures result.None? ==> env.policyFlags == old(env.policyFlags) && env.toolset == old(env.toolset)
      ensures result.Some? ==> env.policyFlags == result.value.work.flags && env.toolset == result.value.work.toolset
      ensures working != null ==> fresh(working)
      ensures result.Some? ==> PlanOf(working) == result.value.work.plan
    {
      working := null;
      var rules := Order(ruleset, callables, stage);
      var k := Progress(Work(NO_DECISION, env.policyFlags, PlanOf(plan), env.toolset), []);
      result := Some(k);
      for i := 0 to |rules|
        invariant env.policyFlags == old(env.policyFlags) && env.toolset == old(env.toolset)
        invariant result == Some(k)
        invariant Fold(rules, Progress(Work(NO_DECISION, old(env.policyFlags), PlanOf(plan), old(env.toolset)), []))
              == Fold(rules[i..], k)
      {
        match rules[i].when(k.work)
        case Raises => return None, null;
        case Skips =>
        case Matches =>
          var done := ApplyActions(rules[i].actions, k.work);
          if done.None? {
            return None, null;
          }
          k := Progress(done.value, k.matched + [rules[i]]);
          result := Some(k);
      }
      env.policyFlags, env.toolset := k.work.flags, k.work.toolset;
      if k.work.plan.Some? {
        working := new PlanObject(k.work.plan.value);
      }
    }
  }
}
