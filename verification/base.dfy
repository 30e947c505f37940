/** Shared value types: optional values, JSON-like values and identifiers. */
module Base {

  type StepId = string
  type RunId = string

  datatype Option<+T> = None | Some(value: T)

  /** A JSON value: what a task payload, a task output and a run context are made of.
      Timestamps and delays are whole numbers on an integer clock. */
  datatype Value =
    | Null
    | Text(text: string)
    | Number(n: int)
    | Items(items: seq<Value>)
    | Fields(fields: map<string, Value>)
  {
    /** Python truthiness, as `value or default` uses it. */
    predicate Truthy() {
      match this
      case Null => false
      case Text(t) => t != ""
      case Number(n) => n != 0
      case Items(xs) => xs != []
      case Fields(m) => m != map[]
    }

    /** `value.get(name)`; a value that is not an object has no fields. */
    function Get(name: string): Value {
      if Fields? && name in fields then fields[name] else Null
    }
  }

  /** Every element of `s` at a different place is a different element. */
  ghost predicate Distinct<T>(s: seq<T>) {
    forall i, j | 0 <= i < j < |s| :: s[i] != s[j]
  }

  lemma SubsetSize<T>(a: set<T>, b: set<T>)
    requires a <= b
    ensures |a| <= |b|
  {
    assert b == a + (b - a);
  }

  lemma StrictSubsetSize<T>(a: set<T>, b: set<T>)
    requires a < b
    ensures |a| < |b|
  {
    assert !(b <= a);
    var x :| x in b && x !in a;
    SubsetSize(a, b - {x});
  }

  /** `ys` are the elements of `xs` at these places, in order. */
  ghost predicate Selects<T>(xs: seq<T>, at: seq<nat>, ys: seq<T>) {
    && |at| == |ys|
    && (forall j, k | 0 <= j < k < |at| :: at[j] < at[k])
    && (forall k | 0 <= k < |at| :: at[k] < |xs| && ys[k] == xs[at[k]])
  }

  lemma SelectsOneMore<T>(xs: seq<T>, at: seq<nat>, ys: seq<T>, x: T)
    requires Selects(xs, at, ys)
    ensures Selects(xs + [x], at, ys) && Selects(xs + [x], at + [|xs|], ys + [x])
  {
  }
}
