/** The in-memory broker and its retry schedule (`src/maof/transport/fake.py`,
    `src/maof/transport/retry.py`). */
module Broker {
  import opened Base

  /** A queued message. `attempt` is the attempt header; a message without one is on its
      first delivery. */
  datatype Stored = Stored(body: string, headers: map<string, string>, attempt: Option<int>, messageId: string,
                           correlationId: Option<string>)

  function Attempt(m: Stored): int { if m.attempt.Some? then m.attempt.value else 1 }

  /** What a message is, whatever its delivery count. */
  function Core(m: Stored): Stored { m.(attempt := None) }

  /** `RetryPolicy.delay_for_attempt`; a queue without a policy has no delays. */
  function DelayFor(delays: seq<int>, attempt: int): Option<int> {
    if 1 <= attempt <= |delays| then Some(delays[attempt - 1]) else None
  }

  function Retried(m: Stored): Stored { m.(attempt := Some(Attempt(m) + 1)) }

  /** A queued message with the place it had when the drain began. */
  datatype Item = Item(msg: Stored, tag: nat)

  datatype Delivery = Delivery(msg: Stored, tag: nat, handled: bool)

  function DeliveriesLeft(delays: seq<int>, attempt: int): nat {
    if 1 <= attempt <= |delays| then |delays| - attempt + 2 else 1
  }

  function Budget(q: seq<Item>, delays: seq<int>): nat {
    if q == [] then 0 else DeliveriesLeft(delays, Attempt(q[0].msg)) + Budget(q[1..], delays)
  }

  lemma {:induction false} BudgetAppend(q: seq<Item>, it: Item, delays: seq<int>)
    ensures Budget(q + [it], delays) == Budget(q, delays) + DeliveriesLeft(delays, Attempt(it.msg))
  {
    if q == [] {
      assert q + [it] == [it];
    } else {
      assert (q + [it])[1..] == q[1..] + [it];
      BudgetAppend(q[1..], it, delays);
    }
  }

  predicate Retryable(d: Delivery, delays: seq<int>) {
    !d.handled && DelayFor(delays, Attempt(d.msg)).Some?
  }

  /** The queue after its first message was delivered. */
  function QueueAfter(q: seq<Item>, handled: bool, delays: seq<int>): (r: seq<Item>)
    requires q != []
    ensures Budget(r, delays) < Budget(q, delays)
  {
    var it := q[0];
    if Retryable(Delivery(it.msg, it.tag, handled), delays) then
      BudgetAppend(q[1..], Item(Retried(it.msg), it.tag), delays);
      q[1..] + [Item(Retried(it.msg), it.tag)]
    else q[1..]
  }

  /** All deliveries of a drain, in order; `ok` tells for each delivery, by its number,
      whether the handler returns. */
  function Drain(q: seq<Item>, delays: seq<int>, ok: nat -> bool, n: nat): seq<Delivery>
    decreases Budget(q, delays)
  {
    if q == [] then []
    else [Delivery(q[0].msg, q[0].tag, ok(n))] + Drain(QueueAfter(q, ok(n), delays), delays, ok, n + 1)
  }

  function Of(log: seq<Delivery>, tag: nat): seq<Delivery> {
    if log == [] then [] else (if log[0].tag == tag then [log[0]] else []) + Of(log[1..], tag)
  }

  /** The last deliveries of messages that were given up, and of all messages. */
  function DeadLetters(log: seq<Delivery>, delays: seq<int>): seq<Stored> {
    if log == [] then []
    else (if !log[0].handled && !Retryable(log[0], delays) then [log[0].msg] else []) + DeadLetters(log[1..], delays)
  }

  function FinalCores(log: seq<Delivery>, delays: seq<int>): multiset<Stored> {
    if log == [] then multiset{}
    else (if Retryable(log[0], delays) then multiset{} else multiset{Core(log[0].msg)}) + FinalCores(log[1..], delays)
  }

  function Cores(q: seq<Item>): multiset<Stored> {
    if q == [] then multiset{} else multiset{Core(q[0].msg)} + Cores(q[1..])
  }

  function DelaysOf(log: seq<Delivery>, delays: seq<int>): seq<int> {
    if log == [] then []
    else (if Retryable(log[0], delays) then [delays[Attempt(log[0].msg) - 1]] else []) + DelaysOf(log[1..], delays)
  }

  ghost predicate DistinctTags(q: seq<Item>) {
    forall i, j | 0 <= i < j < |q| :: q[i].tag != q[j].tag
  }

  /** The life of one message: delivered, and after each failure with retries left delivered
      again with the next attempt number; the last delivery is handled or out of retries. */
  ghost predicate IsTrail(m: Stored, t: seq<Delivery>, delays: seq<int>)
    decreases |t|
  {
    && t != [] && t[0].msg == m
    && if |t| == 1 then !Retryable(t[0], delays)
       else Retryable(t[0], delays) && IsTrail(Retried(m), t[1..], delays)
  }

  lemma {:induction false} NotQueuedNotDelivered(q: seq<Item>, delays: seq<int>, ok: nat -> bool, n: nat, tag: nat)
    requires forall i | 0 <= i < |q| :: q[i].tag != tag
    ensures Of(Drain(q, delays, ok, n), tag) == []
    decreases Budget(q, delays)
  {
    if q != [] { NotQueuedNotDelivered(QueueAfter(q, ok(n), delays), delays, ok, n + 1, tag); }
  }

  lemma QueueAfterKeepsTags(q: seq<Item>, handled: bool, delays: seq<int>)
    requires q != [] && DistinctTags(q)
    ensures DistinctTags(QueueAfter(q, handled, delays))
    ensures forall i | 0 < i < |q| :: QueueAfter(q, handled, delays)[i - 1] == q[i]
  {
  }

  /** Every queued message lives exactly one trail. */
  lemma {:induction false} DrainTrails(q: seq<Item>, delays: seq<int>, ok: nat -> bool, n: nat, i: nat)
    requires i < |q| && DistinctTags(q)
    ensures IsTrail(q[i].msg, Of(Drain(q, delays, ok, n), q[i].tag), delays)
    decreases Budget(q, delays)
  {
    var next, d := QueueAfter(q, ok(n), delays), Delivery(q[0].msg, q[0].tag, ok(n));
    var log, rest := Drain(q, delays, ok, n), Drain(next, delays, ok, n + 1);
    assert log == [d] + rest;
    assert log[1..] == rest;
    QueueAfterKeepsTags(q, ok(n), delays);
    if i > 0 {
      assert d.tag != q[i].tag && Of(log, q[i].tag) == Of(rest, q[i].tag);
      DrainTrails(next, delays, ok, n + 1, i - 1);
    } else if Retryable(d, delays) {
      assert next[|next| - 1] == Item(Retried(q[0].msg), q[0].tag);
      DrainTrails(next, delays, ok, n + 1, |next| - 1);
      assert Of(log, q[0].tag)[1..] == Of(rest, q[0].tag);
    } else {
      NotQueuedNotDelivered(next, delays, ok, n + 1, q[0].tag);
    }
  }

  /** What a trail that starts at attempt 1 looks like: attempts 1, 2, ... without a gap, at
      most one more than there are retry steps; the message itself never changes; every
      delivery but the last failed, and the last was handled or exhausted the schedule. */
  lemma {:induction false} TrailShape(m: Stored, t: seq<Delivery>, delays: seq<int>)
    requires IsTrail(m, t, delays) && 1 <= Attempt(m) <= |delays| + 1
    ensures |t| + Attempt(m) <= |delays| + 2
    ensures forall k | 0 <= k < |t| :: Attempt(t[k].msg) == Attempt(m) + k && Core(t[k].msg) == Core(m)
    ensures forall k | 0 <= k < |t| - 1 :: !t[k].handled
    ensures t[|t| - 1].handled || |t| + Attempt(m) == |delays| + 2
    decreases |t|
  {
    if |t| > 1 {
      TrailShape(Retried(m), t[1..], delays);
      forall k | 0 <= k < |t|
        ensures Attempt(t[k].msg) == Attempt(m) + k && Core(t[k].msg) == Core(m)
        ensures k < |t| - 1 ==> !t[k].handled
      {
        if k > 0 { assert t[k] == t[1..][k - 1]; }
      }
    }
  }

  /** The queue is first in, first out: the messages that were queued are delivered once each, in
      their order and as they were, before anything is delivered again; and every delivery ends
      as its handler says. */
  lemma {:induction false} DrainIsFifo(q: seq<Item>, delays: seq<int>, ok: nat -> bool, n: nat, i: nat)
    requires i < |q|
    ensures i < |Drain(q, delays, ok, n)| && Drain(q, delays, ok, n)[i] == Delivery(q[i].msg, q[i].tag, ok(n + i))
    decreases Budget(q, delays)
  {
    if i > 0 {
      var next := QueueAfter(q, ok(n), delays);
      assert next[i - 1] == q[i];
      DrainIsFifo(next, delays, ok, n + 1, i - 1);
    }
  }

  lemma {:induction false} DrainIsHandled(q: seq<Item>, delays: seq<int>, ok: nat -> bool, n: nat, i: nat)
    requires i < |Drain(q, delays, ok, n)|
    ensures Drain(q, delays, ok, n)[i].handled == ok(n + i)
    decreases Budget(q, delays)
  {
    if i > 0 { DrainIsHandled(QueueAfter(q, ok(n), delays), delays, ok, n + 1, i - 1); }
  }

  /** A trail waits, before each redelivery, for the delay its schedule has for the attempt that
      failed. */
  lemma {:induction false} TrailDelays(m: Stored, t: seq<Delivery>, delays: seq<int>)
    requires IsTrail(m, t, delays) && 1 <= Attempt(m) <= |delays| + 1
    ensures |DelaysOf(t, delays)| == |t| - 1 <= |delays| - (Attempt(m) - 1)
    ensures forall k | 0 <= k < |t| - 1 :: DelaysOf(t, delays)[k] == delays[Attempt(m) - 1 + k]
    decreases |t|
  {
    if |t| > 1 {
      var rest := DelaysOf(t[1..], delays);
      TrailDelays(Retried(m), t[1..], delays);
      assert DelaysOf(t, delays) == [delays[Attempt(m) - 1]] + rest;
      forall k | 0 <= k < |t| - 1
        ensures DelaysOf(t, delays)[k] == delays[Attempt(m) - 1 + k]
      { if k > 0 { assert rest[k - 1] == delays[Attempt(Retried(m)) - 1 + (k - 1)]; } }
    } else {
      assert t[1..] == [];
    }
  }

  /** A failed delivery whose attempt number the schedule has no delay for. */
  predicate GivenUp(d: Delivery, delays: seq<int>) {
    !d.handled && !(1 <= (if d.msg.attempt.Some? then d.msg.attempt.value else 1) <= |delays|)
  }

  /** The dead letters are the messages of the deliveries given up, as they were delivered, in
      order. */
  lemma {:induction false} DeadLettersAre(log: seq<Delivery>, delays: seq<int>) returns (at: seq<nat>)
    ensures |at| == |DeadLetters(log, delays)| && (forall i, j | 0 <= i < j < |at| :: at[i] < at[j])
    ensures forall k | 0 <= k < |at| :: at[k] < |log| && DeadLetters(log, delays)[k] == log[at[k]].msg
    ensures forall i | 0 <= i < |log| :: i in at <==> GivenUp(log[i], delays)
  {
    if log == [] {
      at := [];
    } else {
      var n := |log| - 1;
      var before := DeadLettersAre(log[..n], delays);
      assert log == log[..n] + [log[n]];
      DeadLettersAppend(log[..n], log[n], delays);
      assert DeadLetters([log[n]], delays) == if GivenUp(log[n], delays) then [log[n].msg] else [];
      at := before + if GivenUp(log[n], delays) then [n] else [];
      assert forall i | i in before :: i < n;
    }
  }

  lemma {:induction false} CoresAppend(q: seq<Item>, it: Item)
    ensures Cores(q + [it]) == Cores(q) + multiset{Core(it.msg)}
  {
    if q == [] {
      assert q + [it] == [it];
    } else {
      assert (q + [it])[1..] == q[1..] + [it];
      CoresAppend(q[1..], it);
    }
  }

  /** Conservation: the messages that end handled or dead-lettered are exactly the messages
      that were queued, bodies and ids unchanged. */
  lemma {:induction false} DrainConserves(q: seq<Item>, delays: seq<int>, ok: nat -> bool, n: nat)
    ensures FinalCores(Drain(q, delays, ok, n), delays) == Cores(q)
    decreases Budget(q, delays)
  {
    if q != [] {
      DrainConserves(QueueAfter(q, ok(n), delays), delays, ok, n + 1);
      CoresAppend(q[1..], Item(Retried(q[0].msg), q[0].tag));
    }
  }

  // ---------- the broker object ----------

  datatype QueueSpec = QueueSpec(name: string, retrySteps: seq<int>, dlqName: Option<string>)

  function Tagged(q: seq<Stored>): (r: seq<Item>)
    ensures DistinctTags(r) && |r| == |q|
  {
    seq(|q|, i requires 0 <= i < |q| => Item(q[i], i))
  }

  function Untagged(q: seq<Item>): seq<Stored> {
    seq(|q|, i requires 0 <= i < |q| => q[i].msg)
  }

  function QueueIn(queues: map<string, seq<Stored>>, name: string): seq<Stored> {
    if name in queues then queues[name] else []
  }

  /** Between two states of the queues, only `name` changed, and its dead-letter queue, if it
      has one, gained `letters` at its end. */
  ghost predicate OnlyDeadLettered(a: map<string, seq<Stored>>, b: map<string, seq<Stored>>, name: string,
                                   dead: Option<string>, letters: seq<Stored>) {
    && (dead.Some? ==> QueueIn(b, dead.value) == QueueIn(a, dead.value) + letters)
    && forall other | other != name && dead != Some(other) :: QueueIn(b, other) == QueueIn(a, other)
  }

  lemma DeadLetteredThen(a: map<string, seq<Stored>>, b: map<string, seq<Stored>>, c: map<string, seq<Stored>>,
                         name: string, dead: Option<string>, first: seq<Stored>, second: seq<Stored>)
    requires OnlyDeadLettered(a, b, name, dead, first) && OnlyDeadLettered(b, c, name, dead, second)
    ensures OnlyDeadLettered(a, c, name, dead, first + second)
  {
  }

  /** The queues after the delivery of `m` from `name` has failed. */
  function FailedQueues(queues: map<string, seq<Stored>>, name: string, dead: Option<string>, delays: seq<int>,
                        m: Stored): map<string, seq<Stored>> {
    if DelayFor(delays, Attempt(m)).Some? then queues[name := QueueIn(queues, name) + [Retried(m)]]
    else if dead.Some? then queues[dead.value := QueueIn(queues, dead.value) + [m]]
    else queues
  }

  function DeliveredQueues(queues: map<string, seq<Stored>>, name: string, dead: Option<string>, delays: seq<int>,
                           handled: bool): map<string, seq<Stored>>
    requires QueueIn(queues, name) != []
  {
    var q := QueueIn(queues, name);
    if handled then queues[name := q[1..]] else FailedQueues(queues[name := q[1..]], name, dead, delays, q[0])
  }

  /** One delivery moves the queue on and dead-letters what is given up. */
  lemma DeliveryLaw(queues: map<string, seq<Stored>>, name: string, dead: Option<string>, delays: seq<int>,
                    handled: bool, items: seq<Item>)
    requires dead != Some(name) && items != [] && QueueIn(queues, name) == Untagged(items)
    ensures var queues' := DeliveredQueues(queues, name, dead, delays, handled);
      && QueueIn(queues', name) == Untagged(QueueAfter(items, handled, delays))
      && OnlyDeadLettered(queues, queues', name, dead,
                          DeadLetters([Delivery(items[0].msg, items[0].tag, handled)], delays))
  {
    var d := Delivery(items[0].msg, items[0].tag, handled);
    assert DeadLetters([d], delays) == if !handled && !Retryable(d, delays) then [d.msg] else [];
  }

  /** The queues after `n` deliveries from `name`, which is its own dead-letter queue, all of
      which failed. */
  function AfterFailures(queues: map<string, seq<Stored>>, name: string, delays: seq<int>, n: nat): map<string,
                         seq<Stored>>
    decreases n
  {
    if n == 0 || QueueIn(queues, name) == [] then queues
    else AfterFailures(DeliveredQueues(queues, name, Some(name), delays, false), name, delays, n - 1)
  }

  /** Why the drain below asks that a queue is not its own dead-letter queue: it would never get
      shorter while its handler fails. */
  lemma {:induction false} SelfDeadLetteringNeverEnds(queues: map<string, seq<Stored>>, name: string,
                                                      delays: seq<int>, n: nat)
    ensures |QueueIn(AfterFailures(queues, name, delays, n), name)| == |QueueIn(queues, name)|
    decreases n
  {
    if n != 0 && QueueIn(queues, name) != [] {
      SelfDeadLetteringNeverEnds(DeliveredQueues(queues, name, Some(name), delays, false), name, delays, n - 1);
    }
  }

  /** The last of these specs that gives the queue retry steps is the `i`-th. */
  predicate LastPolicy(specs: seq<QueueSpec>, name: string, i: int) {
    && 0 <= i < |specs| && specs[i].name == name && specs[i].retrySteps != []
    && forall j | i < j < |specs| :: specs[j].name == name ==> specs[j].retrySteps == []
  }

  /** The last of these specs that gives the queue a dead-letter queue is the `i`-th. */
  predicate LastDlq(specs: seq<QueueSpec>, name: string, i: int) {
    && 0 <= i < |specs| && specs[i].name == name && specs[i].dlqName.Some?
    && forall j | i < j < |specs| :: specs[j].name == name ==> specs[j].dlqName.None?
  }

  /** Every queue has the retry steps of the last spec that gives it some, and of what was
      there before when there is none; the same for dead-letter queues. */
  ghost predicate Declared(specs: seq<QueueSpec>, policies: map<string, seq<int>>, policies': map<string, seq<int>>,
                           dlq: map<string, string>, dlq': map<string, string>) {
    && (forall name, i | LastPolicy(specs, name, i) :: name in policies' && policies'[name] == specs[i].retrySteps)
    && (forall name | name in policies' ::
          (exists i :: LastPolicy(specs, name, i)) || (name in policies && policies'[name] == policies[name]))
    && (forall name | name in policies :: name in policies')
    && (forall name, i | LastDlq(specs, name, i) :: name in dlq' && dlq'[name] == specs[i].dlqName.value)
    && (forall name | name in dlq' ::
          (exists i :: LastDlq(specs, name, i)) || (name in dlq && dlq'[name] == dlq[name]))
    && (forall name | name in dlq :: name in dlq')
  }

  function QueuesWith(queues: map<string, seq<Stored>>, q: QueueSpec): map<string, seq<Stored>> {
    var named := if q.name in queues then queues else queues[q.name := []];
    if q.dlqName.Some? && q.dlqName.value !in named then named[q.dlqName.value := []] else named
  }

  /** Every queue holds the messages it held. */
  ghost predicate SameMessages(a: map<string, seq<Stored>>, b: map<string, seq<Stored>>) {
    forall name :: QueueIn(b, name) == QueueIn(a, name)
  }

  /** Every queue the specs name is there. */
  ghost predicate AreDeclared(specs: seq<QueueSpec>, queues: map<string, seq<Stored>>) {
    forall i | 0 <= i < |specs| ::
      specs[i].name in queues && (specs[i].dlqName.Some? ==> specs[i].dlqName.value in queues)
  }

  lemma QueuesStay(specs: seq<QueueSpec>, q: QueueSpec, first: map<string, seq<Stored>>,
                   queues: map<string, seq<Stored>>)
    requires SameMessages(first, queues) && AreDeclared(specs, queues)
    ensures SameMessages(first, QueuesWith(queues, q)) && AreDeclared(specs + [q], QueuesWith(queues, q))
  {
  }

  function PoliciesWith(policies: map<string, seq<int>>, q: QueueSpec): map<string, seq<int>> {
    if q.retrySteps != [] then policies[q.name := q.retrySteps] else policies
  }

  function DlqWith(dlq: map<string, string>, q: QueueSpec): map<string, string> {
    if q.dlqName.Some? then dlq[q.name := q.dlqName.value] else dlq
  }

  lemma LastOfMore(specs: seq<QueueSpec>, q: QueueSpec, name: string)
    ensures forall i | 0 <= i < |specs| ::
      LastPolicy(specs + [q], name, i) <==> LastPolicy(specs, name, i) && !(q.name == name && q.retrySteps != [])
    ensures LastPolicy(specs + [q], name, |specs|) <==> q.name == name && q.retrySteps != []
    ensures forall i | 0 <= i < |specs| ::
      LastDlq(specs + [q], name, i) <==> LastDlq(specs, name, i) && !(q.name == name && q.dlqName.Some?)
    ensures LastDlq(specs + [q], name, |specs|) <==> q.name == name && q.dlqName.Some?
  {
    var more := specs + [q];
    assert more[|specs|] == q && forall i | 0 <= i < |specs| :: more[i] == specs[i];
  }

  lemma OneMoreDeclared(specs: seq<QueueSpec>, q: QueueSpec, policies: map<string, seq<int>>,
                        policies': map<string, seq<int>>,
                        dlq: map<string, string>, dlq': map<string, string>)
    requires Declared(specs, policies, policies', dlq, dlq')
    ensures Declared(specs + [q], policies, PoliciesWith(policies', q), dlq, DlqWith(dlq', q))
  {
    var more, ps, ds := specs + [q], PoliciesWith(policies', q), DlqWith(dlq', q);
    forall name, i | LastPolicy(more, name, i)
      ensures name in ps && ps[name] == more[i].retrySteps
    { LastOfMore(specs, q, name); }
    forall name, i | LastDlq(more, name, i)
      ensures name in ds && ds[name] == more[i].dlqName.value
    { LastOfMore(specs, q, name); }
    forall name | name in ps
      ensures (exists i :: LastPolicy(more, name, i)) || (name in policies && ps[name] == policies[name])
    {
      LastOfMore(specs, q, name);
      if i :| LastPolicy(specs, name, i) { assert LastPolicy(more, name, i) || LastPolicy(more, name, |specs|); }
    }
    forall name | name in ds
      ensures (exists i :: LastDlq(more, name, i)) || (name in dlq && ds[name] == dlq[name])
    {
      LastOfMore(specs, q, name);
      if i :| LastDlq(specs, name, i) { assert LastDlq(more, name, i) || LastDlq(more, name, |specs|); }
    }
  }

  class InMemoryBroker {
    var queues: map<string, seq<Stored>>
    var policies: map<string, seq<int>>
    var dlq: map<string, string>
    var scheduledDelays: seq<int>

    constructor ()
      ensures queues == map[] && policies == map[] && dlq == map[] && scheduledDelays == []
    {
      queues, policies, dlq, scheduledDelays := map[], map[], map[], [];
    }

    function Queue(name: string): seq<Stored>
      reads this
    {
      QueueIn(queues, name)
    }

    function DeadLetterQueue(name: string): Option<string>
      reads this
    {
      if name in dlq then Some(dlq[name]) else None
    }

    function Delays(name: string): seq<int>
      reads this
    {
      if name in policies then policies[name] else []
    }

    /** The body of the loop over the specs. */
    method Declare(q: QueueSpec)
      modifies this`queues, this`policies, this`dlq
      ensures queues == QueuesWith(old(queues), q)
      ensures policies == PoliciesWith(old(policies), q) && dlq == DlqWith(old(dlq), q)
    {
      if q.name !in queues { queues := queues[q.name := []]; }
      if q.retrySteps != [] { policies := policies[q.name := q.retrySteps]; }
      if q.dlqName.Some? {
        dlq := dlq[q.name := q.dlqName.value];
        if q.dlqName.value !in queues { queues := queues[q.dlqName.value := []]; }
      }
    }

    /** Declaring queues never drops a message, and later specs win over earlier ones. */
    method EnsureTopology(specs: seq<QueueSpec>)
      modifies this
      ensures scheduledDelays == old(scheduledDelays)
      ensures SameMessages(old(queues), queues) && AreDeclared(specs, queues)
      ensures Declared(specs, old(policies), policies, old(dlq), dlq)
    {
      for i := 0 to |specs|
        invariant scheduledDelays == old(scheduledDelays)
        invariant SameMessages(old(queues), queues) && AreDeclared(specs[..i], queues)
        invariant Declared(specs[..i], old(policies), policies, old(dlq), dlq)
      {
        OneMoreDeclared(specs[..i], specs[i], old(policies), policies, old(dlq), dlq);
        QueuesStay(specs[..i], specs[i], old(queues), queues);
        assert specs[..i] + [specs[i]] == specs[..i + 1];
        Declare(specs[i]);
      }
      assert specs[..|specs|] == specs;
    }

    method Publish(name: string, m: Stored)
      modifies this`queues
      ensures queues == old(queues)[name := old(Queue(name)) + [m]]
    {
      queues := queues[name := Queue(name) + [m]];
    }

    method OnFailure(name: string, m: Stored)
      modifies this`queues, this`scheduledDelays
      ensures queues == FailedQueues(old(queues), name, DeadLetterQueue(name), Delays(name), m)
      ensures scheduledDelays == old(scheduledDelays) +
        if DelayFor(Delays(name), Attempt(m)).Some? then [DelayFor(Delays(name), Attempt(m)).value] else []
    {
      var delay := DelayFor(Delays(name), Attempt(m));
      if delay.Some? {
        scheduledDelays := scheduledDelays + [delay.value];
        queues := queues[name := Queue(name) + [Retried(m)]];
        return;
      }
      if name in dlq {
        queues := queues[dlq[name] := Queue(dlq[name]) + [m]];
      }
    }

    /** Take the first message off, call the handler, and deal with a failure. */
    method DeliverFirst(name: string, handled: bool)
      requires Queue(name) != []
      modifies this`queues, this`scheduledDelays
      ensures queues == DeliveredQueues(old(queues), name, DeadLetterQueue(name), Delays(name), handled)
      ensures scheduledDelays
            == old(scheduledDelays) + DelaysOf([Delivery(old(Queue(name))[0], 0, handled)], Delays(name))
    {
      var m := Queue(name)[0];
      queues := queues[name := Queue(name)[1..]];
      if !handled { OnFailure(name, m); }
    }

    /** `consume` drains the queue; `ok` tells for each delivery whether the handler returns.
        The deliveries are the drain of the queue; the queue ends empty, its dead-letter queue
        has gained the dead letters in order, and nothing else has changed. */
    method Consume(name: string, ok: nat -> bool) returns (ghost log: seq<Delivery>)
      requires name in dlq ==> dlq[name] != name
      modifies this`queues, this`scheduledDelays
      ensures log == Drain(Tagged(old(Queue(name))), Delays(name), ok, 0)
      ensures Queue(name) == []
      ensures scheduledDelays == old(scheduledDelays) + DelaysOf(log, Delays(name))
      ensures OnlyDeadLettered(old(queues), queues, name, DeadLetterQueue(name), DeadLetters(log, Delays(name)))
    {
      ghost var job := Job(name, DeadLetterQueue(name), Delays(name), queues, scheduledDelays);
      ghost var items := Tagged(Queue(name));
      var n := 0;
      log := [];
      while Queue(name) != []
        invariant Delays(name) == job.delays && DeadLetterQueue(name) == job.dead
        invariant n == |log|
        invariant Underway(job, ok, log, items, queues, scheduledDelays)
        decreases Budget(items, job.delays)
      {
        ghost var queues', scheduled' := queues, scheduledDelays;
        DeliverFirst(name, ok(n));
        OneMoreDelivery(job, ok, log, items, queues', scheduled');
        log := log + [Delivery(items[0].msg, items[0].tag, ok(n))];
        items := QueueAfter(items, ok(n), job.delays);
        n := n + 1;
      }
    }
  }

  /** A drain as it started. */
  datatype Job = Job(name: string, dead: Option<string>, delays: seq<int>, queues: map<string, seq<Stored>>,
                     scheduled: seq<int>)

  /** `log` has been delivered and `items` are still to be. */
  ghost predicate DrainedTo(job: Job, ok: nat -> bool, log: seq<Delivery>, items: seq<Item>) {
    Drain(Tagged(QueueIn(job.queues, job.name)), job.delays, ok, 0) == log + Drain(items, job.delays, ok, |log|)
  }

  /** The queues and the schedule after these deliveries. */
  ghost predicate MovedTo(job: Job, log: seq<Delivery>, items: seq<Item>,
                          queues: map<string, seq<Stored>>, scheduled: seq<int>) {
    && QueueIn(queues, job.name) == Untagged(items)
    && scheduled == job.scheduled + DelaysOf(log, job.delays)
    && OnlyDeadLettered(job.queues, queues, job.name, job.dead, DeadLetters(log, job.delays))
  }

  ghost predicate Underway(job: Job, ok: nat -> bool, log: seq<Delivery>, items: seq<Item>,
                           queues: map<string, seq<Stored>>, scheduled: seq<int>) {
    DrainedTo(job, ok, log, items) && MovedTo(job, log, items, queues, scheduled)
  }

  lemma OneMoreDelivery(job: Job, ok: nat -> bool, log: seq<Delivery>, items: seq<Item>,
                        queues: map<string, seq<Stored>>, scheduled: seq<int>)
    requires Underway(job, ok, log, items, queues, scheduled) && items != [] && job.dead != Some(job.name)
    ensures var handled := ok(|log|);
      Underway(job, ok, log + [Delivery(items[0].msg, items[0].tag, handled)], QueueAfter(items, handled, job.delays),
               DeliveredQueues(queues, job.name, job.dead, job.delays, handled),
               scheduled + DelaysOf([Delivery(items[0].msg, 0, handled)], job.delays))
  {
    var d := Delivery(items[0].msg, items[0].tag, ok(|log|));
    DrainedMore(job, ok, log, items, d);
    QueuesMove(job, log, items, queues, scheduled, d);
  }

  lemma DrainedMore(job: Job, ok: nat -> bool, log: seq<Delivery>, items: seq<Item>, d: Delivery)
    requires DrainedTo(job, ok, log, items) && items != [] && d == Delivery(items[0].msg, items[0].tag, ok(|log|))
    ensures DrainedTo(job, ok, log + [d], QueueAfter(items, d.handled, job.delays))
  {
    assert |log + [d]| == |log| + 1;
    DrainStep(items, job.delays, ok, |log|, log, d);
  }

  lemma QueuesMove(job: Job, log: seq<Delivery>, items: seq<Item>,
                   queues: map<string, seq<Stored>>, scheduled: seq<int>, d: Delivery)
    requires MovedTo(job, log, items, queues, scheduled) && items != [] && job.dead != Some(job.name)
    requires d == Delivery(items[0].msg, items[0].tag, d.handled)
    ensures MovedTo(job, log + [d], QueueAfter(items, d.handled, job.delays),
                    DeliveredQueues(queues, job.name, job.dead, job.delays, d.handled),
                    scheduled + DelaysOf([Delivery(items[0].msg, 0, d.handled)], job.delays))
  {
    var queues' := DeliveredQueues(queues, job.name, job.dead, job.delays, d.handled);
    LogAppend(log, d, job.delays);
    DelaysSkipTags(items[0], d.handled, job.delays);
    DeliveryLaw(queues, job.name, job.dead, job.delays, d.handled, items);
    DeadLetteredThen(job.queues, queues, queues', job.name, job.dead,
                     DeadLetters(log, job.delays), DeadLetters([d], job.delays));
  }

  lemma DelaysSkipTags(it: Item, handled: bool, delays: seq<int>)
    ensures DelaysOf([Delivery(it.msg, 0, handled)], delays) == DelaysOf([Delivery(it.msg, it.tag, handled)], delays)
  {
  }

  lemma DrainStep(items: seq<Item>, delays: seq<int>, ok: nat -> bool, n: nat, done: seq<Delivery>, d: Delivery)
    requires items != [] && d == Delivery(items[0].msg, items[0].tag, ok(n))
    ensures done + Drain(items, delays, ok, n)
          == (done + [d]) + Drain(QueueAfter(items, ok(n), delays), delays, ok, n + 1)
  {
    var rest := Drain(QueueAfter(items, ok(n), delays), delays, ok, n + 1);
    assert Drain(items, delays, ok, n) == [d] + rest;
    assert done + ([d] + rest) == (done + [d]) + rest;
  }

  lemma LogAppend(log: seq<Delivery>, d: Delivery, delays: seq<int>)
    ensures DelaysOf(log + [d], delays) == DelaysOf(log, delays) + DelaysOf([d], delays)
    ensures DeadLetters(log + [d], delays) == DeadLetters(log, delays) + DeadLetters([d], delays)
  {
    DelaysAppend(log, d, delays);
    DeadLettersAppend(log, d, delays);
  }

  lemma {:induction false} DelaysAppend(log: seq<Delivery>, d: Delivery, delays: seq<int>)
    ensures DelaysOf(log + [d], delays) == DelaysOf(log, delays) + DelaysOf([d], delays)
  {
    if log == [] {
      assert log + [d] == [d];
    } else {
      assert (log + [d])[1..] == log[1..] + [d];
      DelaysAppend(log[1..], d, delays);
    }
  }

  lemma {:induction false} DeadLettersAppend(log: seq<Delivery>, d: Delivery, delays: seq<int>)
    ensures DeadLetters(log + [d], delays) == DeadLetters(log, delays) + DeadLetters([d], delays)
  {
    if log == [] {
      assert log + [d] == [d];
    } else {
      var first := if !log[0].handled && !Retryable(log[0], delays) then [log[0].msg] else [];
      assert (log + [d])[0] == log[0] && (log + [d])[1..] == log[1..] + [d];
      DeadLettersAppend(log[1..], d, delays);
      assert DeadLetters(log, delays) == first + DeadLetters(log[1..], delays);
    }
  }
}
