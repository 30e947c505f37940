/** Idempotency keys (`src/maof/runs/idempotency.py`, `src/maof/orchestrator/coordinator.py`).
    The key of a task is the SHA-256 digest of a text built from the fields below. The digest
    is taken to be injective, so the rest of the project uses the record itself as the key;
    the lemmas here are about the text that is hashed and about the guard's name spaces. */
module Keys {
  import opened Base

  datatype Key = Key(run: RunId, ref: StepId, taskType: string, objective: string, payload: Value)

  const NUL: char := '\0'

  predicate NulFree(s: string) { NUL !in s }

  /** `step_id = f"{run_id}:{ref}:{task_type}"` */
  function InnerStepId(run: string, ref: string, taskType: string): string {
    run + ":" + ref + ":" + taskType
  }

  /** The text that is hashed; `canonical` is the canonical JSON of the task body. */
  function Material(run: string, ref: string, taskType: string, canonical: string): string {
    run + [NUL] + InnerStepId(run, ref, taskType) + [NUL] + taskType + [NUL] + canonical
  }

  /** Where the first NUL of a text stands; its length when it has none. */
  function FirstNul(s: string): nat {
    if s == "" || s[0] == NUL then 0 else 1 + FirstNul(s[1..])
  }

  lemma {:induction false} FirstNulEndsField(x: string, u: string)
    requires NulFree(x)
    ensures FirstNul(x + [NUL] + u) == |x|
  {
    var s := x + [NUL] + u;
    if x == "" {
      assert s[0] == NUL;
    } else {
      assert x[0] in x && s[1..] == x[1..] + [NUL] + u;
      assert forall c | c in x[1..] :: c in x;
      FirstNulEndsField(x[1..], u);
    }
  }

  /** A text splits at its first NUL in one way only. */
  lemma SplitAtNul(x: string, u: string, y: string, v: string)
    requires NulFree(x) && NulFree(y) && x + [NUL] + u == y + [NUL] + v
    ensures x == y && u == v
  {
    var s, t := x + [NUL] + u, y + [NUL] + v;
    FirstNulEndsField(x, u);
    FirstNulEndsField(y, v);
    assert x == s[..|x|] && y == t[..|y|];
    assert u == s[|x| + 1..] && v == t[|y| + 1..];
  }

  /** The inner step id joins with ":" and is ambiguous on its own; the run id and the task
      type beside it make the whole text unambiguous. */
  lemma MaterialInjective(run: string, ref: string, taskType: string, canonical: string,
                          run': string, ref': string, taskType': string, canonical': string)
    requires NulFree(run) && NulFree(ref) && NulFree(taskType)
    requires NulFree(run') && NulFree(ref') && NulFree(taskType')
    ensures Material(run, ref, taskType, canonical) == Material(run', ref', taskType', canonical')
      <==> run == run' && ref == ref' && taskType == taskType' && canonical == canonical'
  {
    if Material(run, ref, taskType, canonical) == Material(run', ref', taskType', canonical') {
      var id, id' := InnerStepId(run, ref, taskType), InnerStepId(run', ref', taskType');
      var c, c' := taskType + [NUL] + canonical, taskType' + [NUL] + canonical';
      var b, b' := id + [NUL] + c, id' + [NUL] + c';
      assert Material(run, ref, taskType, canonical) == run + [NUL] + b;
      assert Material(run', ref', taskType', canonical') == run' + [NUL] + b';
      SplitAtNul(run, b, run', b');
      SplitAtNul(id, c, id', c');
      SplitAtNul(taskType, canonical, taskType', canonical');
      var n := |run| + 1;
      assert ref == id[n..n + |ref|] && ref' == id'[n..n + |ref'|];
    }
  }

  /** Without the NUL joins two different tasks would share an inner step id. */
  lemma InnerStepIdIsAmbiguous()
    ensures InnerStepId("r", "a:b", "t") == InnerStepId("r:a", "b", "t")
  {
    assert InnerStepId("r", "a:b", "t") == "r:a:b:t";
    assert InnerStepId("r:a", "b", "t") == "r:a:b:t";
  }

  // ---------- the guard's name spaces ----------

  /** The three uses of the guard: publishing a task, publishing a result, and the side
      effect of the task itself, which uses the bare key. */
  datatype Slot<K> = PublishTask(key: K) | PublishResult(key: K) | Effect(key: K)

  function SlotText(slot: Slot<string>): string {
    match slot
    case PublishTask(k) => "publish:" + k
    case PublishResult(k) => "publish-result:" + k
    case Effect(k) => k
  }

  /** `hexdigest()`: 64 hexadecimal digits. */
  predicate IsDigest(k: string) {
    |k| == 64 && forall i | 0 <= i < |k| :: '0' <= k[i] <= '9' || 'a' <= k[i] <= 'f'
  }

  lemma SlotsNeverCollide(a: Slot<string>, b: Slot<string>)
    requires IsDigest(a.key) && IsDigest(b.key)
    ensures SlotText(a) == SlotText(b) <==> a == b
  {
    if SlotText(a) == SlotText(b) {
      var s := SlotText(a);
      if a.PublishTask? { assert s[7] == ':' && |s| == 72 && a.key == s[8..]; }
      if b.PublishTask? { assert s[7] == ':' && |s| == 72 && b.key == s[8..]; }
      if a.PublishResult? { assert |s| == 79 && a.key == s[15..]; }
      if b.PublishResult? { assert |s| == 79 && b.key == s[15..]; }
    }
  }
}
