/** What a worker refuses, what its agent gets to see, and what leaves it: the whole of one
    delivery said by its outcome (`src/maof/workers/pool.py`). */
module Admission {
  import opened Base
  import opened Keys
  import opened Lifecycle
  import opened Workers

  // ---------- the checks ----------

  predicate TypeIsAllowed(c: Worker, m: Message) {
    c.allowed.None? || m.key.taskType in c.allowed.value
  }

  /** The task body conforms to the schema the message names, or to that of its task type. */
  predicate BodyConforms(c: Worker, m: Message) {
    c.conforms(if m.schemaId.Some? && m.schemaId.value != "" then m.schemaId.value else m.key.taskType + ".v1",
               m.key.payload)
  }

  /** The delivery passes every check. */
  predicate Accepted(c: Worker, m: Message, fate: Fate) {
    fate.signed && !fate.cancelled && TypeIsAllowed(c, m) && BodyConforms(c, m) && c.knows(m.key.taskType)
  }

  /** The tool is free, or the actor or the tenant holds its scope. */
  predicate MayUse(m: Message, t: Tool) {
    t.rbac.None? || t.rbac.value in m.actorScopes || t.rbac.value in m.tenantScopes
  }

  /** Exactly the tools of the message that may be used, in their order. */
  ghost predicate AreUsable(m: Message, tools: seq<Tool>) {
    exists at :: Selects(m.tools, at, tools) && forall i | 0 <= i < |m.tools| :: i in at <==> MayUse(m, m.tools[i])
  }

  predicate IsFreeFor(t: Tool, held: set<string>) { t.rbac.None? || t.rbac.value in held }

  ghost predicate AreFreeAt(tools: seq<Tool>, held: set<string>, at: seq<nat>) {
    && (forall i | i in at :: i < |tools|)
    && (forall i | 0 <= i < |tools| :: i in at <==> IsFreeFor(tools[i], held))
  }

  lemma FreeOneMore(tools: seq<Tool>, held: set<string>, at: seq<nat>, last: Tool)
    requires AreFreeAt(tools, held, at)
    ensures AreFreeAt(tools + [last], held, at + if IsFreeFor(last, held) then [|tools|] else [])
  {
  }

  lemma {:induction false} PermittedAreFree(tools: seq<Tool>, held: set<string>) returns (at: seq<nat>)
    ensures Selects(tools, at, Permitted(tools, held)) && AreFreeAt(tools, held, at)
  {
    if tools == [] {
      at := [];
    } else {
      var n := |tools| - 1;
      var before := PermittedAreFree(tools[..n], held);
      assert tools == tools[..n] + [tools[n]];
      SelectsOneMore(tools[..n], before, Permitted(tools[..n], held), tools[n]);
      FreeOneMore(tools[..n], held, before, tools[n]);
      at := if IsFreeFor(tools[n], held) then before + [n] else before;
      assert before + [] == before;
    }
  }

  lemma PermittedAreUsable(m: Message, held: set<string>)
    requires held == m.actorScopes + m.tenantScopes
    ensures AreUsable(m, Permitted(m.tools, held))
  {
    var at := PermittedAreFree(m.tools, held);
    assert forall t :: IsFreeFor(t, held) <==> MayUse(m, t);
  }

  // ---------- what the agent's answer leads to ----------

  predicate HasWhereToReply(c: Worker, m: Message) { m.replyTo != "" || c.resultQueue != "" }

  /** The result message of this output: it carries key, run, task type and output of the task, and
      is filed under its step, or under its task id when it names none. */
  ghost predicate IsReplyTo(k: Key, output: Value, e: Envelope) {
    && e.key == k && e.run == k.run && e.taskType == k.taskType && e.output == output
    && e.taskId == k.run + ":" + k.ref + ":" + k.taskType
    && e.stepRef == if k.ref != "" then k.ref else e.taskId
  }

  /** The answer conforms to the result schema of the task type. */
  predicate AnswerConforms(c: Worker, m: Message, output: Value) {
    c.conforms(m.key.taskType + ".result.v1", output)
  }

  /** A conforming answer is published, once, if there is somewhere to reply to; any other never
      leaves the worker. */
  ghost predicate Answered(c: Worker, fx: Effects, m: Message, output: Value, kept: bool, fx': Effects, h: Handled) {
    var publishes := AnswerConforms(c, m, output) && HasWhereToReply(c, m) && PublishResult(m.key) !in fx.guard;
    && (if publishes then exists e :: IsReplyTo(m.key, output, e) && fx'.replies == fx.replies + [e]
        else fx'.replies == fx.replies)
    && h == (if !AnswerConforms(c, m, output) then BadResult else if publishes && !kept then ReplyFailed else Done)
  }

  /** The side effect of the task is in the ledger, once for each record of the guard. */
  ghost predicate Committed(fx: Effects, k: Key, fx': Effects) {
    fx'.ledger == if Effect(k) in fx.guard then fx.ledger else fx.ledger + [k]
  }

  /** What the agent's move leads to. A repeated commit answers what was recorded. */
  ghost predicate Moved(c: Worker, fx: Effects, m: Message, move: Move, kept: bool, fx': Effects, h: Handled) {
    match move
    case Raises => h == AgentFailed && fx' == fx
    case Answers(v) => fx'.ledger == fx.ledger && Answered(c, fx, m, v, kept, fx', h)
    case Commits(v, noted) =>
      && Committed(fx, m.key, fx')
      && if Effect(m.key) in fx.guard then Answered(c, fx, m, fx.guard[Effect(m.key)], kept, fx', h)
         else if noted then Answered(c, fx, m, v, kept, fx', h)
         else h == AgentFailed && fx'.replies == fx.replies
  }

  /** One delivery: each refusal exactly when its check is the first to fail, and then nothing has
      happened; otherwise the agent is called with exactly the tools that may be used, and what
      it does is published and recorded as the source says. The task messages stay as they are. */
  lemma HandledExactly(c: Worker, fx: Effects, m: Message, fate: Fate)
    ensures var (fx', h) := HandleTask(c, fx, m, fate);
      && (h == Refused(BadSignature) <==> !fate.signed)
      && (h == Skipped <==> fate.signed && fate.cancelled)
      && (h == Refused(NotAllowed) <==> fate.signed && !fate.cancelled && !TypeIsAllowed(c, m))
      && (h == Refused(BadTask) <==>
            fate.signed && !fate.cancelled && TypeIsAllowed(c, m) && !BodyConforms(c, m))
      && (h == Refused(NoAgent) <==>
            fate.signed && !fate.cancelled && TypeIsAllowed(c, m) && BodyConforms(c, m) && !c.knows(m.key.taskType))
      && (!Accepted(c, m, fate) ==> fx' == fx)
      && (Accepted(c, m, fate) ==>
            exists tools :: AreUsable(m, tools) && Moved(c, fx, m, fate.move(tools), fate.kept, fx', h))
      && fx'.tasks == fx.tasks
  {
    if Accepted(c, m, fate) {
      var held := m.actorScopes + m.tenantScopes;
      var tools := Permitted(m.tools, held);
      PermittedAreUsable(m, held);
      MoveIs(c, fx, m, fate.move(tools), fate.kept);
    }
  }

  lemma MoveIs(c: Worker, fx: Effects, m: Message, move: Move, kept: bool)
    ensures var (fx1, r) := Acting(fx, m.key, move);
      Moved(c, fx, m, move, kept,
            if r.None? then fx1 else Replying(c, fx1, m, r.value, kept),
            if r.None? then AgentFailed
            else if !ResultConforms(c, m.key, r.value) then BadResult
            else if Publishes(c, m, r.value) && PublishResult(m.key) !in fx1.guard && !kept then ReplyFailed
            else Done)
  {
    var (fx1, r) := Acting(fx, m.key, move);
    if r.Some? { ReplyIs(m.key, r.value); }
  }

  lemma ReplyIs(k: Key, output: Value)
    ensures IsReplyTo(k, output, EnvelopeFor(k, output))
  {
  }

  // ---------- every sequence of deliveries ----------

  /** The `i`-th act is an accepted delivery of this task. */
  ghost predicate AcceptedAt(acts: seq<Act>, i: int, k: Key) {
    0 <= i < |acts| && acts[i].Handle? && acts[i].m.key == k && Accepted(acts[i].c, acts[i].m, acts[i].fate)
  }

  /** The `i`-th act is an accepted delivery that may publish this result. */
  ghost predicate RepliedAt(acts: seq<Act>, i: int, e: Envelope) {
    && AcceptedAt(acts, i, e.key)
    && AnswerConforms(acts[i].c, acts[i].m, e.output) && HasWhereToReply(acts[i].c, acts[i].m)
  }

  /** Whatever is delivered, and however often: every ledger record and every result message comes
      from a signed, allowed, conforming, known and uncancelled delivery of its task, every
      result message from an output that conforms, and every task message was published. */
  lemma {:induction false} OnlyAcceptedLeaveTraces(acts: seq<Act>)
    ensures forall k | k in EffectsAfter(acts).ledger :: exists i :: AcceptedAt(acts, i, k)
    ensures forall e | e in EffectsAfter(acts).replies :: exists i :: RepliedAt(acts, i, e)
    ensures forall k | k in EffectsAfter(acts).tasks :: exists i | 0 <= i < |acts| :: acts[i].Publish? && acts[i].k == k
  {
    if acts != [] {
      var n := |acts| - 1;
      var before, a := acts[..n], acts[n];
      OnlyAcceptedLeaveTraces(before);
      forall k | k in EffectsAfter(acts).ledger
        ensures exists i :: AcceptedAt(acts, i, k)
      {
        if k in EffectsAfter(before).ledger {
          var i :| AcceptedAt(before, i, k);
          assert AcceptedAt(acts, i, k);
        } else {
          HandledExactly(a.c, EffectsAfter(before), a.m, a.fate);
          assert AcceptedAt(acts, n, k);
        }
      }
      forall e | e in EffectsAfter(acts).replies
        ensures exists i :: RepliedAt(acts, i, e)
      {
        if e in EffectsAfter(before).replies {
          var i :| RepliedAt(before, i, e);
          assert RepliedAt(acts, i, e);
        } else {
          NewReplyIs(a.c, EffectsAfter(before), a.m, a.fate, e);
          assert RepliedAt(acts, n, e);
        }
      }
      forall k | k in EffectsAfter(acts).tasks
        ensures exists i | 0 <= i < |acts| :: acts[i].Publish? && acts[i].k == k
      {
        if k in EffectsAfter(before).tasks {
          var i :| 0 <= i < |before| && before[i].Publish? && before[i].k == k;
          assert acts[i].Publish? && acts[i].k == k;
        } else if a.Handle? {
          HandledExactly(a.c, EffectsAfter(before), a.m, a.fate);
        }
      }
    }
  }

  lemma NewReplyIs(c: Worker, fx: Effects, m: Message, fate: Fate, e: Envelope)
    requires e in HandleTask(c, fx, m, fate).0.replies && e !in fx.replies
    ensures Accepted(c, m, fate) && e.key == m.key && AnswerConforms(c, m, e.output) && HasWhereToReply(c, m)
  {
    HandledExactly(c, fx, m, fate);
  }
}
