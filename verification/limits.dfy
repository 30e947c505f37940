/** The purchase cycle of the repository: its steps are replayable, its gate comes about, and its
    task messages carry what its definition says. */
module Limits {
  import opened Base
  import opened Templates
  import opened Definition
  import opened Keys
  import opened Lifecycle
  import opened Executor
  import opened ExecutorLaws
  import opened Provenance
  import opened Protocol
  import opened Settling
  import opened Replay
  import opened Gaps

  function Task(id: StepId, taskType: string, dependsOn: seq<StepId>, input: map<string, Template>): Step {
    Step(id, TaskStep, taskType, dependsOn, input, None, false,
         if id == "reserve" then map["agent_version" := "v1"] else map[])
  }

  function FromStep(id: StepId, field: string): Template { Whole(["steps", id, "output", field]) }

  function FromContext(field: string): Template { Whole(["context", field]) }

  function Plain(text: string): Template { Literal(Text(text)) }

  /** The steps of the purchase cycle, all through the queue: plan, reserve, a gate until the
      ordering window opens, an order for each region, actualize, invoice. */
  const CYCLE := [
    Task("plan", "purchase_plan", [],
         map["budget" := FromContext("committed_spend_usd"), "east_name" := FromContext("order_code_east"),
             "west_name" := FromContext("order_code_west")]),
    Task("reserve", "funds_commit", ["plan"],
         map["amount" := FromContext("committed_spend_usd"), "plan_ref" := FromStep("plan", "plan_id")]),
    Step("window_open", GateStep, "", ["reserve"], map["wait" := Plain("timer"), "delay_s" := Literal(Number(0))],
         None, false, map[]),
    Task("order_east", "order_placement", ["window_open"],
         map["region" := Plain("east"), "order_code" := FromStep("plan", "east_name"),
             "plan_ref" := FromStep("plan", "plan_id")]),
    Task("order_west", "order_placement", ["window_open"],
         map["region" := Plain("west"), "order_code" := FromStep("plan", "west_name"),
             "plan_ref" := FromStep("plan", "plan_id")]),
    Task("actualize", "reconciliation", ["order_east", "order_west"],
         map["kind" := Plain("actualize"), "committed_usd" := FromStep("reserve", "amount_usd")]),
    Task("invoice", "reconciliation", ["actualize"],
         map["kind" := Plain("invoice"), "actual_usd" := FromStep("actualize", "actual_usd")])]

  function CyclePlan(run: RunId, context: Value, show: Value -> string): Plan {
    Plan(run, "po-cycle", "1", CYCLE, Queue, context, show)
  }

  /** The step that a step of the cycle reads, if any. */
  function ReadBy(step: StepId): Option<StepId> {
    match step
    case "reserve" => Some("plan")
    case "order_east" => Some("plan")
    case "order_west" => Some("plan")
    case "actualize" => Some("reserve")
    case "invoice" => Some("actualize")
    case _ => None
  }

  lemma CycleReads(s: Step, id: StepId)
    requires s in CYCLE && Reads(DictOf(s.input), id)
    ensures ReadBy(s.id) == Some(id)
  {
    var k :| k in s.input && Reads(s.input[k], id);
    var i :| 0 <= i < 7 && CYCLE[i] == s;
    if i < 4 { EarlyReads(i, k, id); } else { LateReads(i, k, id); }
  }

  lemma EarlyReads(i: nat, k: string, id: StepId)
    requires i < 4 && k in CYCLE[i].input && Reads(CYCLE[i].input[k], id)
    ensures ReadBy(CYCLE[i].id) == Some(id)
  {
    assert i == 0 || i == 1 || i == 2 || i == 3;
  }

  lemma LateReads(i: nat, k: string, id: StepId)
    requires 4 <= i < 7 && k in CYCLE[i].input && Reads(CYCLE[i].input[k], id)
    ensures ReadBy(CYCLE[i].id) == Some(id)
  {
    assert i == 4 || i == 5 || i == 6;
  }

  lemma CycleAncestors(steps: seq<Step>)
    requires steps == CYCLE
    ensures Ancestor(steps, "plan", "reserve") && Ancestor(steps, "plan", "order_east")
    ensures Ancestor(steps, "plan", "order_west") && Ancestor(steps, "reserve", "actualize")
    ensures Ancestor(steps, "actualize", "invoice")
  {
    DependencyIsAncestor(steps, steps[1], "plan");
    DependencyIsAncestor(steps, steps[2], "reserve");
    DependencyIsAncestor(steps, steps[3], "window_open");
    DependencyIsAncestor(steps, steps[4], "window_open");
    DependencyIsAncestor(steps, steps[5], "order_east");
    DependencyIsAncestor(steps, steps[6], "actualize");
    AncestorsChain(steps, "plan", "reserve", "window_open");
    AncestorsChain(steps, "plan", "window_open", "order_east");
    AncestorsChain(steps, "plan", "window_open", "order_west");
    AncestorsChain(steps, "reserve", "window_open", "order_east");
    AncestorsChain(steps, "reserve", "order_east", "actualize");
  }

  lemma CycleIds()
    ensures UniqueIds(CYCLE)
  {
  }

  lemma QueueRole(p: Plan, s: Step)
    requires UniqueIds(p.steps) && IsQueueStep(p, s)
    ensures RoleOf(p, s.id).QueueTask?
  {
    StepIsFound(p, s);
  }

  lemma ReadIsBefore(steps: seq<Step>, step: StepId, id: StepId)
    requires steps == CYCLE && ReadBy(step) == Some(id)
    ensures Ancestor(steps, id, step)
  {
    CycleAncestors(steps);
  }

  lemma ReadIsQueueStep(p: Plan, id: StepId)
    requires p.steps == CYCLE && p.defaultMode == Queue && id in {"plan", "reserve", "actualize"}
    ensures RoleOf(p, id).QueueTask?
  {
    var i := if id == "plan" then 0 else if id == "reserve" then 1 else 5;
    CycleIds();
    assert p.steps[i].id == id && IsQueueStep(p, p.steps[i]);
    QueueRole(p, p.steps[i]);
  }

  /** What a step reads is a queue step before it. */
  lemma ReadIsTold(p: Plan, s: Step, id: StepId)
    requires p.steps == CYCLE && p.defaultMode == Queue && ReadBy(s.id) == Some(id)
    ensures Told(p, s, id)
  {
    ReadIsBefore(p.steps, s.id, id);
    ReadIsQueueStep(p, id);
  }

  /** Every step of the purchase cycle is replayable, the orders and the actualization included,
      which read steps they do not depend on directly. */
  lemma CycleIsReplayable(run: RunId, context: Value, show: Value -> string, s: Step)
    requires s in CYCLE
    ensures Replayable(CyclePlan(run, context, show), s)
  {
    var p := CyclePlan(run, context, show);
    forall id | Reads(DictOf(s.input), id)
      ensures Told(p, s, id)
    {
      CycleReads(s, id);
      ReadIsTold(p, s, id);
    }
    ReadingToldIsReplayable(p, s);
  }

  /** The one gate of the cycle can come about: it asks for a delay outright. */
  lemma CycleGatesAreUsable(run: RunId, context: Value, show: Value -> string)
    ensures GatesAreUsable(CyclePlan(run, context, show))
  {
    var p := CyclePlan(run, context, show);
    forall g | g in p.steps && g.kind.GateStep?
      ensures AsksOutright(g)
    { CycleGate(g); }
    OutrightIsUsable(p);
  }

  lemma CycleGate(g: Step)
    requires g in CYCLE && g.kind.GateStep?
    ensures g == CYCLE[2]
  {
    var i :| 0 <= i < 7 && CYCLE[i] == g;
    assert i == 0 || i == 1 || i == 2 || i == 3 || i == 4 || i == 5 || i == 6;
  }

  // ---------- what the task messages of the cycle carry ----------

  lemma FieldIsAt(v: Value, name: string, r: Value)
    requires IsAt(v, [name], r)
    ensures StepsDown(v, name, r)
  {
    var trail :| IsTrail(v, [name], trail) && trail[1] == r;
    assert StepsDown(trail[0], [name][0], trail[1]);
  }

  lemma SentIsTaskOk(accepts: Envelope -> bool, s: Sys, k: Key)
    requires Reachable(accepts, s) && k in s.fx.tasks
    ensures k.run in s.runs && TaskOk(s.runs[k.run].plan, s.store, k)
  {
    AlwaysSound(accepts, s);
  }

  ghost predicate IsCycle(p: Plan) { p == CyclePlan(p.run, p.context, p.show) }

  /** A message of the cycle: what it says, and what its payload stands for. */
  lemma CycleTask(p: Plan, store: seq<Envelope>, k: Key, t: Step)
    requires IsCycle(p) && TaskOk(p, store, k) && t in CYCLE && t.id == k.ref
    ensures k.taskType == TaskTypeOf(t) && k.objective == "workflow po-cycle v1 step " + t.id
    ensures StandsFor(DictOf(t.input), p.context, ToldOutputs(p, store), p.show, k.payload)
    ensures AncestorsStored(p, store, t.id)
  {
    CycleIds();
    StepIsFound(p, t);
    CycleIsReplayable(p.run, p.context, p.show, t);
    CyclePayload(p, ToldOutputs(p, store), t);
  }

  lemma CyclePayload(p: Plan, told: map<StepId, Value>, t: Step)
    requires p.name == "po-cycle" && p.version == "1"
    ensures var k := KeyFor(p, t, told);
      && k.objective == "workflow po-cycle v1 step " + t.id
      && StandsFor(DictOf(t.input), p.context, told, p.show, k.payload)
  {
    BindStandsFor(DictOf(t.input), p.context, told, p.show);
  }

  /** The field of a told output under a template that names it. */
  lemma FromStepIsTold(p: Plan, store: seq<Envelope>, id: StepId, field: string, v: Value)
    requires RoleOf(p, id).QueueTask? && Stored(store, p.run, id)
    requires StandsFor(FromStep(id, field), p.context, ToldOutputs(p, store), p.show, v)
    ensures StepsDown(FirstOutput(store, p.run, id).value, field, v)
  {
    RoleIsStep(p, id);
    var path := ["steps", id, "output", field];
    assert path[3..] == [field] && PathNames(path, p.context, ToldOutputs(p, store), v);
    FieldIsAt(FirstOutput(store, p.run, id).value, field, v);
  }

  lemma FromContextIsThere(context: Value, field: string, outputs: map<StepId, Value>, show: Value -> string, v: Value)
    requires StandsFor(FromContext(field), context, outputs, show, v)
    ensures StepsDown(context, field, v)
  {
    var path := ["context", field];
    assert path[1..] == [field] && PathNames(path, context, outputs, v);
    FieldIsAt(context, field, v);
  }

  /** The input of an order. */
  function OrderInput(region: string, code: string): map<string, Template> {
    map["region" := Plain(region), "order_code" := FromStep("plan", code), "plan_ref" := FromStep("plan", "plan_id")]
  }

  lemma OrderFields(p: Plan, store: seq<Envelope>, region: string, code: string, v: Value)
    requires RoleOf(p, "plan").QueueTask? && Stored(store, p.run, "plan")
    requires StandsFor(DictOf(OrderInput(region, code)), p.context, ToldOutputs(p, store), p.show, v)
    ensures v.Fields? && v.fields.Keys == {"region", "order_code", "plan_ref"} && v.fields["region"] == Text(region)
    ensures StepsDown(FirstOutput(store, p.run, "plan").value, code, v.fields["order_code"])
    ensures StepsDown(FirstOutput(store, p.run, "plan").value, "plan_id", v.fields["plan_ref"])
  {
    var input, told := OrderInput(region, code), ToldOutputs(p, store);
    assert StandsFor(input["region"], p.context, told, p.show, v.fields["region"]);
    FromStepIsTold(p, store, "plan", code, v.fields["order_code"]);
    FromStepIsTold(p, store, "plan", "plan_id", v.fields["plan_ref"]);
  }

  lemma OrderSteps()
    ensures CYCLE[3].id == "order_east" && CYCLE[3].input == OrderInput("east", "east_name")
    ensures CYCLE[4].id == "order_west" && CYCLE[4].input == OrderInput("west", "west_name")
    ensures TaskTypeOf(CYCLE[3]) == "order_placement" && TaskTypeOf(CYCLE[4]) == "order_placement"
    ensures CYCLE[3] in CYCLE && CYCLE[4] in CYCLE
  {
  }

  /** In every reachable state a task message of an order carries its region, and the order code
      and the id out of the first stored result of the plan step. */
  lemma OrderCarriesThePlan(accepts: Envelope -> bool, s: Sys, p: Plan, k: Key, east: bool)
    requires Reachable(accepts, s) && p.run in s.runs && s.runs[p.run].plan == p && IsCycle(p)
    requires k in s.fx.tasks && k.run == p.run && k.ref == if east then "order_east" else "order_west"
    ensures FirstOutput(s.store, p.run, "plan").Some? && k.taskType == "order_placement"
    ensures var plan := FirstOutput(s.store, p.run, "plan").value;
      && k.payload.Fields? && k.payload.fields.Keys == {"region", "order_code", "plan_ref"}
      && k.payload.fields["region"] == Text(if east then "east" else "west")
      && StepsDown(plan, if east then "east_name" else "west_name", k.payload.fields["order_code"])
      && StepsDown(plan, "plan_id", k.payload.fields["plan_ref"])
  {
    SentIsTaskOk(accepts, s, k);
    OrderIs(p, s.store, k, east);
  }

  lemma OrderIs(p: Plan, store: seq<Envelope>, k: Key, east: bool)
    requires IsCycle(p) && TaskOk(p, store, k) && k.ref == if east then "order_east" else "order_west"
    ensures FirstOutput(store, p.run, "plan").Some? && k.taskType == "order_placement"
    ensures var plan := FirstOutput(store, p.run, "plan").value;
      && k.payload.Fields? && k.payload.fields.Keys == {"region", "order_code", "plan_ref"}
      && k.payload.fields["region"] == Text(if east then "east" else "west")
      && StepsDown(plan, if east then "east_name" else "west_name", k.payload.fields["order_code"])
      && StepsDown(plan, "plan_id", k.payload.fields["plan_ref"])
  {
    var t := CYCLE[if east then 3 else 4];
    OrderSteps();
    CycleTask(p, store, k, t);
    ReadIsBefore(p.steps, t.id, "plan");
    ReadIsQueueStep(p, "plan");
    OrderFields(p, store, if east then "east" else "west", if east then "east_name" else "west_name", k.payload);
  }

  /** A task message of the reservation carries the spend of the run context, and the id out of
      the first stored result of the plan step. */
  lemma ReservationCarriesTheSpend(accepts: Envelope -> bool, s: Sys, p: Plan, k: Key)
    requires Reachable(accepts, s) && p.run in s.runs && s.runs[p.run].plan == p && IsCycle(p)
    requires k in s.fx.tasks && k.run == p.run && k.ref == "reserve"
    ensures FirstOutput(s.store, p.run, "plan").Some? && k.taskType == "funds_commit"
    ensures k.payload.Fields? && k.payload.fields.Keys == {"amount", "plan_ref"}
    ensures StepsDown(p.context, "committed_spend_usd", k.payload.fields["amount"])
    ensures StepsDown(FirstOutput(s.store, p.run, "plan").value, "plan_id", k.payload.fields["plan_ref"])
  {
    SentIsTaskOk(accepts, s, k);
    ReservationIs(p, s.store, k);
  }

  lemma ReservationStep()
    ensures CYCLE[1].id == "reserve" && TaskTypeOf(CYCLE[1]) == "funds_commit" && CYCLE[1] in CYCLE
    ensures CYCLE[1].input == ReservationInput()
  {
  }

  function ReservationInput(): map<string, Template> {
    map["amount" := FromContext("committed_spend_usd"), "plan_ref" := FromStep("plan", "plan_id")]
  }

  lemma ReservationFields(p: Plan, store: seq<Envelope>, v: Value)
    requires RoleOf(p, "plan").QueueTask? && Stored(store, p.run, "plan")
    requires StandsFor(DictOf(ReservationInput()), p.context, ToldOutputs(p, store), p.show, v)
    ensures v.Fields? && v.fields.Keys == {"amount", "plan_ref"}
    ensures StepsDown(p.context, "committed_spend_usd", v.fields["amount"])
    ensures StepsDown(FirstOutput(store, p.run, "plan").value, "plan_id", v.fields["plan_ref"])
  {
    FromContextIsThere(p.context, "committed_spend_usd", ToldOutputs(p, store), p.show, v.fields["amount"]);
    FromStepIsTold(p, store, "plan", "plan_id", v.fields["plan_ref"]);
  }

  lemma ReservationIs(p: Plan, store: seq<Envelope>, k: Key)
    requires IsCycle(p) && TaskOk(p, store, k) && k.ref == "reserve"
    ensures FirstOutput(store, p.run, "plan").Some? && k.taskType == "funds_commit"
    ensures k.payload.Fields? && k.payload.fields.Keys == {"amount", "plan_ref"}
    ensures StepsDown(p.context, "committed_spend_usd", k.payload.fields["amount"])
    ensures StepsDown(FirstOutput(store, p.run, "plan").value, "plan_id", k.payload.fields["plan_ref"])
  {
    ReservationStep();
    CycleTask(p, store, k, CYCLE[1]);
    ReadIsBefore(p.steps, "reserve", "plan");
    ReadIsQueueStep(p, "plan");
    ReservationFields(p, store, k.payload);
  }
}
