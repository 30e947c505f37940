/** The queue side of a delegation: the guarded publish of a task, the worker that handles
    it, and the guarded publish of its result (`src/maof/orchestrator/coordinator.py`,
    `src/maof/orchestrator/messages.py`, `src/maof/workers/pool.py`, and the ledger of
    `examples/po_demo/agents.py`). */
module Workers {
  import opened Base
  import opened Keys
  import opened Lifecycle

  /** Everything the guard protects: its table, the task messages and results that reached
      the broker, and the records a task's side effect appended to the ledger. A call of the
      guard is one step here: it finds a record, or it executes and records, or its record is
      lost after the effect and it raises; the module Guard shows that there is nothing else.
      `unrecorded` counts the lost records. */
  datatype Effects = Effects(
    guard: map<Slot<Key>, Value>,
    tasks: seq<Key>,
    replies: seq<Envelope>,
    ledger: seq<Key>,
    unrecorded: multiset<Slot<Key>>)

  const NO_EFFECTS := Effects(map[], [], [], [], multiset{})

  /** An execution under the guard has returned `v`. */
  function Noted(fx: Effects, slot: Slot<Key>, v: Value, kept: bool): Effects {
    if kept then fx.(guard := fx.guard[slot := v]) else fx.(unrecorded := fx.unrecorded + multiset{slot})
  }

  /** `publish_task` under the guard. */
  function PublishTaskOnce(fx: Effects, k: Key, kept: bool): Effects {
    if PublishTask(k) in fx.guard then fx else Noted(fx.(tasks := fx.tasks + [k]), PublishTask(k), Null, kept)
  }

  /** The side effect of a task under the guard: the answer is the recorded one, and there is
      none when the record was lost. */
  function CommitOnce(fx: Effects, k: Key, v: Value, kept: bool): (Effects, Option<Value>) {
    if Effect(k) in fx.guard then (fx, Some(fx.guard[Effect(k)]))
    else (Noted(fx.(ledger := fx.ledger + [k]), Effect(k), v, kept), if kept then Some(v) else None)
  }

  /** `publish_result` under the guard. */
  function PublishResultOnce(fx: Effects, e: Envelope, kept: bool): Effects {
    if PublishResult(e.key) in fx.guard then fx
    else Noted(fx.(replies := fx.replies + [e]), PublishResult(e.key), Null, kept)
  }

  // ---------- once for each record ----------

  function KeysOf(es: seq<Envelope>): seq<Key> {
    seq(|es|, i requires 0 <= i < |es| => es[i].key)
  }

  /** How often what this slot protects has been executed: once for the record, if there is
      one, and once for each record that was lost. */
  function Executions(fx: Effects, slot: Slot<Key>): nat {
    (if slot in fx.guard then 1 else 0) + fx.unrecorded[slot]
  }

  ghost predicate Balanced(fx: Effects, k: Key) {
    && multiset(fx.tasks)[k] == Executions(fx, PublishTask(k))
    && multiset(fx.ledger)[k] == Executions(fx, Effect(k))
    && multiset(KeysOf(fx.replies))[k] == Executions(fx, PublishResult(k))
  }

  /** Every log holds a key exactly as often as the slot of that log was executed. */
  ghost predicate EffectsOk(fx: Effects) {
    forall k :: Balanced(fx, k)
  }

  lemma TaskKeepsOk(fx: Effects, k: Key, kept: bool)
    requires EffectsOk(fx)
    ensures EffectsOk(PublishTaskOnce(fx, k, kept)) && k in PublishTaskOnce(fx, k, kept).tasks
  {
    var fx' := PublishTaskOnce(fx, k, kept);
    forall l
      ensures Balanced(fx', l)
    { assert Balanced(fx, l); }
    assert Balanced(fx', k) && k in multiset(fx'.tasks);
  }

  lemma CommitKeepsOk(fx: Effects, k: Key, v: Value, kept: bool)
    requires EffectsOk(fx)
    ensures var (fx', r) := CommitOnce(fx, k, v, kept);
      && EffectsOk(fx') && k in fx'.ledger
      && (r.Some? <==> Effect(k) in fx'.guard) && (r.Some? ==> fx'.guard[Effect(k)] == r.value)
  {
    var fx' := CommitOnce(fx, k, v, kept).0;
    forall l
      ensures Balanced(fx', l)
    { assert Balanced(fx, l); }
    assert Balanced(fx', k) && k in multiset(fx'.ledger);
  }

  lemma ReplyKeepsOk(fx: Effects, e: Envelope, kept: bool)
    requires EffectsOk(fx)
    ensures EffectsOk(PublishResultOnce(fx, e, kept))
  {
    var fx' := PublishResultOnce(fx, e, kept);
    assert fx'.replies != fx.replies ==> KeysOf(fx'.replies) == KeysOf(fx.replies) + [e.key];
    forall l
      ensures Balanced(fx', l)
    { assert Balanced(fx, l); }
  }

  // ---------- one delivery at a worker ----------

  datatype Tool = Tool(name: string, rbac: Option<string>)

  /** A task message; the key carries the run, the step, the task type and the task body. */
  datatype Message = Message(key: Key, schemaId: Option<string>, replyTo: string, tools: seq<Tool>,
                             actorScopes: set<string>, tenantScopes: set<string>)

  /** What `agent.handle` does on one delivery: raise, answer, or answer through a side
      effect under the guard, as `_commit` does, whose record may be lost. */
  datatype Move = Raises | Answers(output: Value) | Commits(output: Value, kept: bool)

  /** A worker: its configuration, and the schemas and agents it knows. A schema that is not
      registered accepts everything. */
  datatype Worker = Worker(
    allowed: Option<set<string>>,
    resultQueue: string,
    conforms: (string, Value) -> bool,
    knows: string -> bool)

  datatype Refusal = BadSignature | NotAllowed | BadTask | NoAgent

  datatype Admission = Skip | Refuse(why: Refusal) | Admit(tools: seq<Tool>)

  datatype Handled = Skipped | Refused(why: Refusal) | AgentFailed | BadResult | ReplyFailed | Done

  /** Tools whose scope neither the actor nor the tenant holds are stripped. */
  function Permitted(tools: seq<Tool>, held: set<string>): (r: seq<Tool>)
    ensures forall t :: t in r <==> t in tools && (t.rbac.None? || t.rbac.value in held)
  {
    if tools == [] then []
    else
      var last := tools[|tools| - 1];
      Permitted(tools[..|tools| - 1], held) + if last.rbac.None? || last.rbac.value in held then [last] else []
  }

  function SchemaOf(m: Message): string {
    if m.schemaId.Some? && m.schemaId.value != "" then m.schemaId.value else m.key.taskType + ".v1"
  }

  /** The checks of `_handle` before the agent begins, in their order. */
  function Admitting(c: Worker, m: Message, signed: bool, cancelled: bool): Admission {
    if !signed then Refuse(BadSignature)
    else if cancelled then Skip
    else if c.allowed.Some? && m.key.taskType !in c.allowed.value then Refuse(NotAllowed)
    else if !c.conforms(SchemaOf(m), m.key.payload) then Refuse(BadTask)
    else if !c.knows(m.key.taskType) then Refuse(NoAgent)
    else Admit(Permitted(m.tools, m.actorScopes + m.tenantScopes))
  }

  /** What the agent does; no answer when it raises. */
  function Acting(fx: Effects, k: Key, move: Move): (Effects, Option<Value>) {
    match move
    case Raises => (fx, None)
    case Answers(v) => (fx, Some(v))
    case Commits(v, kept) => CommitOnce(fx, k, v, kept)
  }

  function TaskId(k: Key): string {
    InnerStepId(k.run, k.ref, k.taskType)
  }

  /** The result envelope of a task: filed under its step, or under its task id when the task
      names no step. */
  function EnvelopeFor(k: Key, output: Value): Envelope {
    Envelope(k, k.run, if k.ref != "" then k.ref else TaskId(k), TaskId(k), k.taskType, output)
  }

  predicate ResultConforms(c: Worker, k: Key, output: Value) {
    c.conforms(k.taskType + ".result.v1", output)
  }

  /** The worker publishes a result of this output. */
  predicate Publishes(c: Worker, m: Message, output: Value) {
    ResultConforms(c, m.key, output) && (m.replyTo != "" || c.resultQueue != "")
  }

  /** A result that does not conform never leaves the worker. */
  function Replying(c: Worker, fx: Effects, m: Message, output: Value, kept: bool): Effects {
    if Publishes(c, m, output) then PublishResultOnce(fx, EnvelopeFor(m.key, output), kept) else fx
  }

  /** What is ahead in one delivery: the signature, the cancel flag, the agent, and whether the
      guard keeps its record of the reply. */
  datatype Fate = Fate(signed: bool, cancelled: bool, move: seq<Tool> -> Move, kept: bool)

  /** `_handle` from beginning to end. */
  function HandleTask(c: Worker, fx: Effects, m: Message, fate: Fate): (Effects, Handled) {
    match Admitting(c, m, fate.signed, fate.cancelled)
    case Skip => (fx, Skipped)
    case Refuse(why) => (fx, Refused(why))
    case Admit(tools) =>
      var (fx', r) := Acting(fx, m.key, fate.move(tools));
      if r.None? then (fx', AgentFailed)
      else
        (Replying(c, fx', m, r.value, fate.kept),
         if !ResultConforms(c, m.key, r.value) then BadResult
         else if Publishes(c, m, r.value) && PublishResult(m.key) !in fx'.guard && !fate.kept then ReplyFailed
         else Done)
  }

  lemma HandlingKeepsOk(c: Worker, fx: Effects, m: Message, fate: Fate)
    requires EffectsOk(fx)
    ensures EffectsOk(HandleTask(c, fx, m, fate).0)
  {
    var a := Admitting(c, m, fate.signed, fate.cancelled);
    if a.Admit? {
      var mv := fate.move(a.tools);
      if mv.Commits? { CommitKeepsOk(fx, m.key, mv.output, mv.kept); }
      var (fx', r) := Acting(fx, m.key, mv);
      if r.Some? { ReplyKeepsOk(fx', EnvelopeFor(m.key, r.value), fate.kept); }
    }
  }

  // ---------- every sequence of publishes and deliveries ----------

  datatype Act =
    | Publish(k: Key, kept: bool)
    | Handle(c: Worker, m: Message, fate: Fate)

  function EffectsAfter(acts: seq<Act>): Effects {
    if acts == [] then NO_EFFECTS
    else
      var fx, a := EffectsAfter(acts[..|acts| - 1]), acts[|acts| - 1];
      match a
      case Publish(k, kept) => PublishTaskOnce(fx, k, kept)
      case Handle(c, m, fate) => HandleTask(c, fx, m, fate).0
  }

  /** Under any number of duplicate publishes, redeliveries, refusals and failing handlers
      every key has at most one task message, one ledger record and one result message more
      than the guard has lost records of it. */
  lemma {:induction false} EachKeyAtMostOnce(acts: seq<Act>)
    ensures var fx := EffectsAfter(acts);
      && EffectsOk(fx)
      && (forall k :: multiset(fx.tasks)[k] <= 1 + fx.unrecorded[PublishTask(k)])
      && (forall k :: multiset(fx.ledger)[k] <= 1 + fx.unrecorded[Effect(k)])
      && (forall k :: multiset(KeysOf(fx.replies))[k] <= 1 + fx.unrecorded[PublishResult(k)])
  {
    if acts != [] {
      EachKeyAtMostOnce(acts[..|acts| - 1]);
      var fx, a := EffectsAfter(acts[..|acts| - 1]), acts[|acts| - 1];
      match a
      case Publish(k, kept) => TaskKeepsOk(fx, k, kept);
      case Handle(c, m, fate) => HandlingKeepsOk(c, fx, m, fate);
    }
    BalancedIsBound(EffectsAfter(acts));
  }

  lemma BalancedIsBound(fx: Effects)
    requires EffectsOk(fx)
    ensures forall k :: multiset(fx.tasks)[k] <= 1 + fx.unrecorded[PublishTask(k)]
    ensures forall k :: multiset(fx.ledger)[k] <= 1 + fx.unrecorded[Effect(k)]
    ensures forall k :: multiset(KeysOf(fx.replies))[k] <= 1 + fx.unrecorded[PublishResult(k)]
  {
    forall k
      ensures multiset(fx.tasks)[k] <= 1 + fx.unrecorded[PublishTask(k)]
      ensures multiset(fx.ledger)[k] <= 1 + fx.unrecorded[Effect(k)]
      ensures multiset(KeysOf(fx.replies))[k] <= 1 + fx.unrecorded[PublishResult(k)]
    { assert Balanced(fx, k); }
  }

  /** A redelivery of a task whose agent commits answers what the first one committed,
      whatever it would answer now, and leaves the ledger as it is. */
  lemma RedeliveryAnswersTheSame(c: Worker, fx: Effects, m: Message, first: Value, again: Value, kept: bool)
    requires Effect(m.key) !in fx.guard
    ensures var once := Acting(fx, m.key, Commits(first, true)).0;
      && Acting(once, m.key, Commits(again, kept)) == (once, Some(first))
      && Acting(Replying(c, once, m, first, kept), m.key, Commits(again, kept)).1 == Some(first)
      && Acting(Replying(c, once, m, first, kept), m.key, Commits(again, kept)).0.ledger == fx.ledger + [m.key]
  {
  }

  // ---------- the objects ----------

  class Guarded {
    var guard: map<Slot<Key>, Value>
    var tasks: seq<Key>
    var replies: seq<Envelope>
    var ledger: seq<Key>
    ghost var unrecorded: multiset<Slot<Key>>

    constructor ()
      ensures Snapshot() == NO_EFFECTS
    {
      guard, tasks, replies, ledger, unrecorded := map[], [], [], [], multiset{};
    }

    ghost function Snapshot(): Effects
      reads this
    {
      Effects(guard, tasks, replies, ledger, unrecorded)
    }

    /** The guard records an execution, or its record is lost. */
    method Note(slot: Slot<Key>, v: Value, kept: bool)
      modifies this`guard, this`unrecorded
      ensures Snapshot() == Noted(old(Snapshot()), slot, v, kept)
    {
      if kept { guard := guard[slot := v]; }
      else { unrecorded := unrecorded + multiset{slot}; }
    }
  }

  /** A dispatch record in the trace of a run: the step, and the version of the agent it was
      routed to when the registry resolved one. */
  datatype TraceEntry = Dispatched(run: RunId, step: StepId, version: string) | OtherEntry(run: RunId)

  class QueueDispatcher {
    const outside: Guarded
    var trace: seq<TraceEntry>

    constructor (outside: Guarded)
      ensures this.outside == outside && trace == []
    {
      this.outside, trace := outside, [];
    }

    /** A replayed dispatch leaves the broker as it is; the trace gets a second record. When
        the record of the publish is lost the call raises, before the trace is written. */
    method Dispatch(k: Key, version: string, kept: bool)
      modifies this, outside
      ensures outside.Snapshot() == PublishTaskOnce(old(outside.Snapshot()), k, kept)
      ensures trace == old(trace) +
        if kept || PublishTask(k) in old(outside.guard) then [Dispatched(k.run, k.ref, version)] else []
    {
      if PublishTask(k) !in outside.guard {
        outside.tasks := outside.tasks + [k];
        outside.Note(PublishTask(k), Null, kept);
        if !kept {
          return;
        }
      }
      trace := trace + [Dispatched(k.run, k.ref, version)];
    }
  }

  class WorkerPool {
    const config: Worker
    const outside: Guarded

    constructor (config: Worker, outside: Guarded)
      ensures this.config == config && this.outside == outside
    {
      this.config, this.outside := config, outside;
    }

    /** The side effect of a task, as `_commit` runs it. */
    method Commit(k: Key, v: Value, kept: bool) returns (answer: Option<Value>)
      modifies outside
      ensures (outside.Snapshot(), answer) == CommitOnce(old(outside.Snapshot()), k, v, kept)
    {
      if Effect(k) in outside.guard {
        return Some(outside.guard[Effect(k)]);
      }
      outside.ledger := outside.ledger + [k];
      outside.Note(Effect(k), v, kept);
      return if kept then Some(v) else None;
    }

    method Handle(m: Message, fate: Fate) returns (h: Handled)
      modifies outside
      ensures (outside.Snapshot(), h) == HandleTask(config, old(outside.Snapshot()), m, fate)
    {
      if !fate.signed {
        return Refused(BadSignature);
      }
      if fate.cancelled {
        return Skipped;
      }
      if config.allowed.Some? && m.key.taskType !in config.allowed.value {
        return Refused(NotAllowed);
      }
      if !config.conforms(SchemaOf(m), m.key.payload) {
        return Refused(BadTask);
      }
      if !config.knows(m.key.taskType) {
        return Refused(NoAgent);
      }
      var tools := [];
      for i := 0 to |m.tools|
        invariant tools == Permitted(m.tools[..i], m.actorScopes + m.tenantScopes)
      {
        assert m.tools[..i + 1][..i] == m.tools[..i];
        var t := m.tools[i];
        if t.rbac.None? || t.rbac.value in m.actorScopes || t.rbac.value in m.tenantScopes { tools := tools + [t]; }
      }
      assert m.tools[..|m.tools|] == m.tools;
      var output;
      match fate.move(tools) {
        case Raises => return AgentFailed;
        case Answers(v) => output := Some(v);
        case Commits(v, kept) => output := Commit(m.key, v, kept);
      }
      if output.None? {
        return AgentFailed;
      }
      if !ResultConforms(config, m.key, output.value) {
        return BadResult;
      }
      if m.replyTo != "" || config.resultQueue != "" {
        if PublishResult(m.key) !in outside.guard {
          outside.replies := outside.replies + [EnvelopeFor(m.key, output.value)];
          outside.Note(PublishResult(m.key), Null, fate.kept);
          if !fate.kept {
            return ReplyFailed;
          }
        }
      }
      return Done;
    }
  }
}
