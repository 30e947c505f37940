/** The idempotency guard (`src/maof/runs/idempotency.py`): callers racing on the same key,
    as a state machine over the steps lock, check, run, record. `Abort` is the loss of the
    record after the side effect happened (a commit that fails, or the death of the process);
    the in-memory guard records without a gap, so its runs have no such step. */
module Guard {
  import opened Base

  datatype Phase =
    | Waiting(key: string)
    | Holding(key: string)
    | Running(key: string)
    | Executed(key: string, value: Value)
    | Returned(key: string, value: Value)
    | Failed(key: string)

  /** `successes` and `aborts` are histories: the keys of the executions of `fn` that
      returned, and of those whose record was lost. */
  datatype State = State(recorded: map<string, Value>, callers: map<nat, Phase>, successes: seq<string>,
                         aborts: seq<string>)

  datatype Action =
    | Call(c: nat, key: string)
    | Acquire(c: nat)
    | Check(c: nat)
    | FnReturns(c: nat, value: Value)
    | FnRaises(c: nat)
    | Record(c: nat)
    | Abort(c: nat)

  predicate Critical(ph: Phase) { ph.Holding? || ph.Running? || ph.Executed? }

  /** Locks are taken per slot. The in-memory guard has a slot per key; an advisory lock on
      the hash of the key may share a slot between keys. */
  predicate LockFree(slot: string -> int, s: State, key: string) {
    forall c | c in s.callers && Critical(s.callers[c]) :: slot(s.callers[c].key) != slot(key)
  }

  function Next(slot: string -> int, s: State, a: Action): State {
    if a.Call? then
      if a.c in s.callers then s else s.(callers := s.callers[a.c := Waiting(a.key)])
    else if a.c !in s.callers then s
    else
      var ph := s.callers[a.c];
      match a
      case Acquire(c) =>
        if ph.Waiting? && LockFree(slot, s, ph.key) then s.(callers := s.callers[c := Holding(ph.key)]) else s
      case Check(c) =>
        if !ph.Holding? then s
        else if ph.key in s.recorded then s.(callers := s.callers[c := Returned(ph.key, s.recorded[ph.key])])
        else s.(callers := s.callers[c := Running(ph.key)])
      case FnReturns(c, v) =>
        if !ph.Running? then s
        else s.(callers := s.callers[c := Executed(ph.key, v)], successes := s.successes + [ph.key])
      case FnRaises(c) =>
        if ph.Running? then s.(callers := s.callers[c := Failed(ph.key)]) else s
      case Record(c) =>
        if !ph.Executed? then s
        else s.(recorded := if ph.key in s.recorded then s.recorded else s.recorded[ph.key := ph.value],
                callers := s.callers[c := Returned(ph.key, ph.value)])
      case Abort(c) =>
        if !ph.Executed? then s
        else s.(callers := s.callers[c := Failed(ph.key)], aborts := s.aborts + [ph.key])
  }

  function After(slot: string -> int, actions: seq<Action>): State {
    if actions == [] then State(map[], map[], [], [])
    else Next(slot, After(slot, actions[..|actions| - 1]), actions[|actions| - 1])
  }

  function Times(s: seq<string>, key: string): nat {
    if s == [] then 0 else Times(s[..|s| - 1], key) + if s[|s| - 1] == key then 1 else 0
  }

  ghost predicate Unrecorded(s: State, key: string) {
    exists c | c in s.callers :: s.callers[c].Executed? && s.callers[c].key == key
  }

  ghost predicate Exclusive(slot: string -> int, s: State) {
    forall c, d | c in s.callers && d in s.callers && c != d && Critical(s.callers[c]) && Critical(s.callers[d]) ::
      slot(s.callers[c].key) != slot(s.callers[d].key)
  }

  ghost predicate Inv(slot: string -> int, s: State) {
    && Exclusive(slot, s)
    && (forall c | c in s.callers && (s.callers[c].Running? || s.callers[c].Executed?) ::
          s.callers[c].key !in s.recorded)
    && (forall c | c in s.callers && s.callers[c].Returned? ::
          s.callers[c].key in s.recorded && s.recorded[s.callers[c].key] == s.callers[c].value)
    && Counts(s)
  }

  /** Each successful execution of a key is recorded, lost, or about to be recorded. */
  ghost predicate Balanced(s: State, k: string) {
    Times(s.successes, k)
      == Times(s.aborts, k) + (if k in s.recorded then 1 else 0) + (if Unrecorded(s, k) then 1 else 0)
  }

  ghost predicate Counts(s: State) {
    forall k :: Balanced(s, k)
  }

  lemma TimesAppend(s: seq<string>, x: string, key: string)
    ensures Times(s + [x], key) == Times(s, key) + if x == key then 1 else 0
  {
    assert (s + [x])[..|s|] == s;
  }

  /** Only the phase of `c` changes; who has executed without a record is as before. */
  lemma SamePending(s: State, s': State, c: nat)
    requires c in s.callers && c in s'.callers && !s.callers[c].Executed? && !s'.callers[c].Executed?
    requires s'.callers == s.callers[c := s'.callers[c]]
    ensures forall k :: Unrecorded(s', k) <==> Unrecorded(s, k)
  {
    forall k
      ensures Unrecorded(s', k) <==> Unrecorded(s, k)
    {
      if d :| d in s.callers && s.callers[d].Executed? && s.callers[d].key == k {
        assert s'.callers[d] == s.callers[d];
      }
      if d :| d in s'.callers && s'.callers[d].Executed? && s'.callers[d].key == k {
        assert s'.callers[d] == s.callers[d];
      }
    }
  }

  /** `c` enters or leaves the phase between the effect and its record. */
  lemma PendingChanges(slot: string -> int, s: State, s': State, c: nat, key: string)
    requires Exclusive(slot, s) && c in s.callers && Critical(s.callers[c]) && s.callers[c].key == key
    requires s'.callers.Keys == s.callers.Keys && forall d | d in s.callers && d != c :: s'.callers[d] == s.callers[d]
    requires s'.callers[c].key == key
    ensures forall k | k != key :: Unrecorded(s', k) <==> Unrecorded(s, k)
    ensures Unrecorded(s, key) <==> s.callers[c].Executed?
    ensures Unrecorded(s', key) <==> s'.callers[c].Executed?
  {
    forall k | k != key
      ensures Unrecorded(s', k) <==> Unrecorded(s, k)
    {
      if d :| d in s.callers && s.callers[d].Executed? && s.callers[d].key == k {
        assert s'.callers[d] == s.callers[d];
      }
      if d :| d in s'.callers && s'.callers[d].Executed? && s'.callers[d].key == k {
        assert s'.callers[d] == s.callers[d];
      }
    }
    if d :| d in s.callers && s.callers[d].Executed? && s.callers[d].key == key { assert d == c; }
    assert forall d | d in s'.callers && d != c :: !(s'.callers[d].Executed? && s'.callers[d].key == key);
  }

  lemma CountsKeep(slot: string -> int, s: State, a: Action)
    requires Inv(slot, s)
    ensures Counts(Next(slot, s, a))
  {
    var s' := Next(slot, s, a);
    if s' == s {
    } else if a.Call? {
      forall k
        ensures Balanced(s', k)
      {
        assert Balanced(s, k);
        if d :| d in s.callers && s.callers[d].Executed? && s.callers[d].key == k {
          assert s'.callers[d] == s.callers[d];
        }
      }
    } else {
      var key := s.callers[a.c].key;
      match a
      case Acquire(c) =>
        SamePending(s, s', c);
        forall k ensures Balanced(s', k) { assert Balanced(s, k); }
      case Check(c) =>
        SamePending(s, s', c);
        forall k ensures Balanced(s', k) { assert Balanced(s, k); }
      case FnRaises(c) =>
        SamePending(s, s', c);
        forall k ensures Balanced(s', k) { assert Balanced(s, k); }
      case FnReturns(c, v) =>
        PendingChanges(slot, s, s', c, key);
        forall k ensures Balanced(s', k) { assert Balanced(s, k); TimesAppend(s.successes, key, k); }
      case Record(c) =>
        PendingChanges(slot, s, s', c, key);
        forall k ensures Balanced(s', k) { assert Balanced(s, k); }
      case Abort(c) =>
        PendingChanges(slot, s, s', c, key);
        forall k ensures Balanced(s', k) { assert Balanced(s, k); TimesAppend(s.aborts, key, k); }
    }
  }

  lemma NextKeepsInv(slot: string -> int, s: State, a: Action)
    requires Inv(slot, s)
    ensures Inv(slot, Next(slot, s, a))
  {
    CountsKeep(slot, s, a);
  }

  lemma {:induction false} AlwaysInv(slot: string -> int, actions: seq<Action>)
    ensures Inv(slot, After(slot, actions))
  {
    if actions != [] {
      AlwaysInv(slot, actions[..|actions| - 1]);
      NextKeepsInv(slot, After(slot, actions[..|actions| - 1]), actions[|actions| - 1]);
    }
  }

  predicate NoAborts(actions: seq<Action>) {
    forall i | 0 <= i < |actions| :: !actions[i].Abort?
  }

  lemma {:induction false} NoAbortsNoLostRecord(slot: string -> int, actions: seq<Action>)
    requires NoAborts(actions)
    ensures After(slot, actions).aborts == []
  {
    if actions != [] { NoAbortsNoLostRecord(slot, actions[..|actions| - 1]); }
  }

  /** The guard under every interleaving of its callers: no two executions for one key are
      in flight, a key is executed successfully at most once more than its record was lost,
      and everybody who returns gets the recorded result. */
  lemma GuardIsExclusive(slot: string -> int, actions: seq<Action>)
    ensures var s := After(slot, actions);
      && (forall c, d | c in s.callers && d in s.callers && s.callers[c].Running? && s.callers[d].Running?
            && s.callers[c].key == s.callers[d].key :: c == d)
      && (forall k :: Times(s.successes, k) <= 1 + Times(s.aborts, k))
      && (forall c, d | c in s.callers && d in s.callers && s.callers[c].Returned? && s.callers[d].Returned?
            && s.callers[c].key == s.callers[d].key :: s.callers[c].value == s.callers[d].value)
  {
    AlwaysInv(slot, actions);
    forall k
      ensures Times(After(slot, actions).successes, k) <= 1 + Times(After(slot, actions).aborts, k)
    { assert Balanced(After(slot, actions), k); }
  }

  /** Without a lost record, a successful execution happens at most once for each key, and it
      has happened when anybody has returned. */
  lemma AtMostOneSuccess(slot: string -> int, actions: seq<Action>, key: string)
    requires NoAborts(actions)
    ensures var s := After(slot, actions);
      && Times(s.successes, key) <= 1
      && (forall c | c in s.callers && s.callers[c].Returned? && s.callers[c].key == key ::
            Times(s.successes, key) == 1)
  {
    AlwaysInv(slot, actions);
    NoAbortsNoLostRecord(slot, actions);
    assert Balanced(After(slot, actions), key);
  }

  lemma AfterOneMore(slot: string -> int, before: seq<Action>, a: Action)
    ensures After(slot, before + [a]) == Next(slot, After(slot, before), a)
  {
    assert (before + [a])[..|before|] == before;
  }

  const ONE_SLOT: string -> int := (key: string) => 0

  /** The other half: once the record can be lost, a second execution is possible. */
  lemma LostRecordRunsTwice()
    ensures exists actions :: !NoAborts(actions) && Times(After(ONE_SLOT, actions).successes, "k") == 2
  {
    var once := LoseRecord(ONE_SLOT);
    var twice := ExecuteAgain(ONE_SLOT, once);
    TwiceIsTwo();
    var i :| 0 <= i < |once| && once[i].Abort?;
    assert twice[i].Abort?;
  }

  lemma LoseRecord(slot: string -> int) returns (q: seq<Action>)
    ensures !NoAborts(q) && After(slot, q) == State(map[], map[0 := Failed("k")], ["k"], ["k"])
  {
    q := [Call(0, "k")];
    AfterOneMore(slot, [], q[0]);
    assert After(slot, q).callers == map[0 := Waiting("k")];
    AfterOneMore(slot, q, Acquire(0)); q := q + [Acquire(0)];
    AfterOneMore(slot, q, Check(0)); q := q + [Check(0)];
    assert After(slot, q).callers == map[0 := Running("k")];
    AfterOneMore(slot, q, FnReturns(0, Null)); q := q + [FnReturns(0, Null)];
    AfterOneMore(slot, q, Abort(0)); q := q + [Abort(0)];
    assert q[4].Abort?;
  }

  lemma SecondExecution(slot: string -> int)
    ensures var s0 := State(map[], map[0 := Failed("k")], ["k"], ["k"]);
      var s3 := Next(slot, Next(slot, Next(slot, s0, Call(1, "k")), Acquire(1)), Check(1));
      Next(slot, s3, FnReturns(1, Null)).successes == ["k", "k"]
  {
    var s0 := State(map[], map[0 := Failed("k")], ["k"], ["k"]);
    var s1 := Next(slot, s0, Call(1, "k"));
    assert s1 == s0.(callers := map[0 := Failed("k"), 1 := Waiting("k")]);
    assert LockFree(slot, s1, "k");
    var s2 := Next(slot, s1, Acquire(1));
    assert s2.callers[1] == Holding("k");
  }

  lemma AfterFourMore(slot: string -> int, q: seq<Action>, a: Action, b: Action, c: Action, d: Action)
    ensures After(slot, q + [a] + [b] + [c] + [d])
          == Next(slot, Next(slot, Next(slot, Next(slot, After(slot, q), a), b), c), d)
  {
    AfterOneMore(slot, q, a);
    AfterOneMore(slot, q + [a], b);
    AfterOneMore(slot, q + [a] + [b], c);
    AfterOneMore(slot, q + [a] + [b] + [c], d);
  }

  lemma TwiceIsTwo()
    ensures Times(["k", "k"], "k") == 2
  {
    assert ["k", "k"] == ["k"] + ["k"];
    TimesAppend(["k"], "k", "k");
    TimesAppend([], "k", "k");
  }

  lemma ExecuteAgain(slot: string -> int, before: seq<Action>) returns (longer: seq<Action>)
    requires After(slot, before) == State(map[], map[0 := Failed("k")], ["k"], ["k"])
    ensures before <= longer && After(slot, longer).successes == ["k", "k"]
  {
    longer := before + [Call(1, "k")] + [Acquire(1)] + [Check(1)] + [FnReturns(1, Null)];
    AfterFourMore(slot, before, Call(1, "k"), Acquire(1), Check(1), FnReturns(1, Null));
    SecondExecution(slot);
  }

  // ---------- the guard as whole calls ----------

  /** The executions of a key that are over: the one in flight between its effect and its
      record, if there is one, is left out. */
  ghost function Over(s: State, k: string): int {
    Times(s.successes, k) - if Unrecorded(s, k) then 1 else 0
  }

  /** Nothing about this key: no execution, no record, no loss. */
  ghost predicate Quiet(s: State, s': State, k: string) {
    && Over(s', k) == Over(s, k) && Times(s'.aborts, k) == Times(s.aborts, k)
    && (k in s'.recorded <==> k in s.recorded) && (k in s.recorded ==> s'.recorded[k] == s.recorded[k])
  }

  /** One whole call that finds no record, executes and records. */
  ghost predicate KeptCall(s: State, s': State, k: string, v: Value) {
    && k !in s.recorded && s'.recorded == s.recorded[k := v]
    && Over(s', k) == Over(s, k) + 1 && Times(s'.aborts, k) == Times(s.aborts, k)
  }

  /** One whole call that finds no record and executes, but its record is lost: it raises. */
  ghost predicate LostCall(s: State, s': State, k: string) {
    && k !in s.recorded && s'.recorded == s.recorded
    && Over(s', k) == Over(s, k) + 1 && Times(s'.aborts, k) == Times(s.aborts, k) + 1
  }

  lemma StepIsQuietFor(slot: string -> int, s: State, a: Action, k: string)
    requires Inv(slot, s)
    requires !((a.Record? || a.Abort?) && a.c in s.callers && s.callers[a.c].Executed? && s.callers[a.c].key == k)
    ensures Quiet(s, Next(slot, s, a), k)
  {
    NextKeepsInv(slot, s, a);
    assert Balanced(s, k) && Balanced(Next(slot, s, a), k);
    TimesAppend(s.aborts, if a.Call? then a.key else if a.c in s.callers then s.callers[a.c].key else "", k);
  }

  lemma RecordIsCall(slot: string -> int, s: State, a: Action)
    requires Inv(slot, s) && (a.Record? || a.Abort?) && a.c in s.callers && s.callers[a.c].Executed?
    ensures var s', k := Next(slot, s, a), s.callers[a.c].key;
      if a.Record? then KeptCall(s, s', k, s.callers[a.c].value) else LostCall(s, s', k)
  {
    var k := s.callers[a.c].key;
    NextKeepsInv(slot, s, a);
    assert Balanced(s, k) && Balanced(Next(slot, s, a), k);
    TimesAppend(s.aborts, k, k);
  }

  /** Every step of the interleaved guard leaves a key alone or is one whole call for it: kept,
      or lost after its effect. Whoever returns gets what the table holds. So users of the
      guard may treat a call as a single step, if that step may also lose its record. */
  lemma StepRefinesCall(slot: string -> int, s: State, a: Action, k: string)
    requires Inv(slot, s)
    ensures var s' := Next(slot, s, a);
      && (Quiet(s, s', k) || LostCall(s, s', k) || exists v :: KeptCall(s, s', k, v))
      && (a.c in s'.callers && s'.callers[a.c].Returned? ==>
            s'.callers[a.c].key in s'.recorded && s'.recorded[s'.callers[a.c].key] == s'.callers[a.c].value)
  {
    NextKeepsInv(slot, s, a);
    if (a.Record? || a.Abort?) && a.c in s.callers && s.callers[a.c].Executed? && s.callers[a.c].key == k {
      RecordIsCall(slot, s, a);
    } else {
      StepIsQuietFor(slot, s, a, k);
    }
  }

  // ---------- one call, undisturbed ----------

  function Entered(slot: string -> int, s: State, c: nat, key: string): State {
    Next(slot, Next(slot, Next(slot, s, Call(c, key)), Acquire(c)), Check(c))
  }

  /** A call that nobody disturbs, when the lock is free: a recorded key returns what is recorded
      and executes nothing; otherwise the function runs, and its value is recorded and returned,
      or it raises and nothing is recorded. Whichever it is, the lock is free again and the other
      callers are where they were. */
  lemma LoneCall(slot: string -> int, s: State, c: nat, key: string, v: Value)
    requires c !in s.callers && LockFree(slot, s, key)
    ensures var s3 := Entered(slot, s, c, key);
      && s3.recorded == s.recorded && s3.successes == s.successes && s3.aborts == s.aborts
      && s3.callers == s.callers[c := if key in s.recorded then Returned(key, s.recorded[key]) else Running(key)]
      && (key in s.recorded ==> LockFree(slot, s3, key))
    ensures key !in s.recorded ==>
      var s5 := Next(slot, Next(slot, Entered(slot, s, c, key), FnReturns(c, v)), Record(c));
      && s5.recorded == s.recorded[key := v] && s5.successes == s.successes + [key] && s5.aborts == s.aborts
      && s5.callers == s.callers[c := Returned(key, v)] && LockFree(slot, s5, key)
    ensures key !in s.recorded ==>
      var s4 := Next(slot, Entered(slot, s, c, key), FnRaises(c));
      && s4.recorded == s.recorded && s4.successes == s.successes && s4.aborts == s.aborts
      && s4.callers == s.callers[c := Failed(key)] && LockFree(slot, s4, key)
  {
    var s1 := Next(slot, s, Call(c, key));
    assert s1.callers == s.callers[c := Waiting(key)];
    assert LockFree(slot, s1, key);
    var s2 := Next(slot, s1, Acquire(c));
    assert s2.callers == s.callers[c := Holding(key)];
    var s3 := Next(slot, s2, Check(c));
    assert s3.callers == s.callers[c := if key in s.recorded then Returned(key, s.recorded[key]) else Running(key)];
    if key !in s.recorded { LoneExecution(slot, s, s3, c, key, v); }
  }

  lemma LoneExecution(slot: string -> int, s: State, s3: State, c: nat, key: string, v: Value)
    requires c !in s.callers && LockFree(slot, s, key) && key !in s.recorded
    requires s3 == s.(callers := s.callers[c := Running(key)])
    ensures var s5 := Next(slot, Next(slot, s3, FnReturns(c, v)), Record(c));
      && s5.recorded == s.recorded[key := v] && s5.successes == s.successes + [key] && s5.aborts == s.aborts
      && s5.callers == s.callers[c := Returned(key, v)] && LockFree(slot, s5, key)
    ensures var s4 := Next(slot, s3, FnRaises(c));
      && s4.recorded == s.recorded && s4.successes == s.successes && s4.aborts == s.aborts
      && s4.callers == s.callers[c := Failed(key)] && LockFree(slot, s4, key)
  {
    var s4 := Next(slot, s3, FnReturns(c, v));
    assert s4.callers == s.callers[c := Executed(key, v)];
    var s5 := Next(slot, s4, Record(c));
    assert s5.callers == s.callers[c := Returned(key, v)];
  }
}
