/** Input templates of a workflow step (`src/maof/workflows/definition.py`).
    A template is a tree of literals and dotted paths; the scanner that finds the
    paths inside a text is not part of this model. */
module Templates {
  import opened Base

  datatype Template =
    | Literal(value: Value)
    | Whole(path: seq<string>)           // the text is one template: the resolved type is kept
    | Mixed(pieces: seq<Piece>)          // templates embedded in a longer text
    | ListOf(items: seq<Template>)
    | DictOf(fields: map<string, Template>)

  datatype Piece = Plain(text: string) | Embedded(path: seq<string>)

  /** `current.get(part)` along the path; leaving an object resolves to null. */
  function Walk(current: Value, parts: seq<string>): Value
    decreases |parts|
  {
    if parts == [] then current
    else if current.Fields? then Walk(current.Get(parts[0]), parts[1..])
    else Null
  }

  predicate NamesOutput(path: seq<string>) {
    |path| >= 3 && path[0] == "steps" && path[2] == "output"
  }

  /** What a template finds under a step: its output, or an empty object when it has none. */
  function Shown(outputs: map<StepId, Value>, id: StepId): Value {
    if id in outputs then outputs[id] else Fields(map[])
  }

  function Resolved(path: seq<string>, context: Value, outputs: map<StepId, Value>): Value {
    if |path| > 0 && path[0] == "context" then Walk(context, path[1..])
    else if NamesOutput(path) then Walk(Shown(outputs, path[1]), path[3..])
    else Null
  }

  /** The path is resolved by walking a local variable down the value. */
  method ResolvePath(path: seq<string>, context: Value, outputs: map<StepId, Value>) returns (r: Value)
    ensures r == Resolved(path, context, outputs) && PathNames(path, context, outputs, r)
  {
    ResolvedIsNamed(path, context, outputs);
    var current: Value;
    var parts: seq<string>;
    if |path| > 0 && path[0] == "context" {
      current, parts := context, path[1..];
    } else if |path| > 0 && path[0] == "steps" {
      if |path| < 3 || path[2] != "output" {
        return Null;
      }
      current, parts := if path[1] in outputs then outputs[path[1]] else Fields(map[]), path[3..];
    } else {
      return Null;
    }
    var i := 0;
    while i < |parts|
      invariant i <= |parts|
      invariant Resolved(path, context, outputs) == Walk(current, parts[i..])
    {
      if !current.Fields? {
        return Null;
      }
      current := current.Get(parts[i]);
      i := i + 1;
    }
    return current;
  }

  function PieceText(p: Piece, context: Value, outputs: map<StepId, Value>, show: Value -> string): string {
    match p
    case Plain(t) => t
    case Embedded(path) =>
      var v := Resolved(path, context, outputs);
      if v.Truthy() then show(v) else ""
  }

  function PiecesText(ps: seq<Piece>, context: Value, outputs: map<StepId, Value>, show: Value -> string): string {
    if ps == [] then ""
    else PieceText(ps[0], context, outputs, show) + PiecesText(ps[1..], context, outputs, show)
  }

  /** `bind_templates`; `show` is how a value is written inside a longer text. */
  function Bind(t: Template, context: Value, outputs: map<StepId, Value>, show: Value -> string): Value
    decreases t
  {
    match t
    case Literal(v) => v
    case Whole(path) => Resolved(path, context, outputs)
    case Mixed(ps) => Text(PiecesText(ps, context, outputs, show))
    case ListOf(ts) => Items(seq(|ts|, i requires 0 <= i < |ts| => Bind(ts[i], context, outputs, show)))
    case DictOf(m) => Fields(map k | k in m :: Bind(m[k], context, outputs, show))
  }

  /** The steps whose outputs a template reads. */
  predicate Reads(t: Template, id: StepId)
    decreases t
  {
    match t
    case Literal(_) => false
    case Whole(path) => NamesOutput(path) && path[1] == id
    case Mixed(ps) => exists i | 0 <= i < |ps| :: ps[i].Embedded? && NamesOutput(ps[i].path) && ps[i].path[1] == id
    case ListOf(ts) => exists i | 0 <= i < |ts| :: Reads(ts[i], id)
    case DictOf(m) => exists k | k in m :: Reads(m[k], id)
  }

  /** Two output maps that look the same at one step. */
  predicate SameAt(a: map<StepId, Value>, b: map<StepId, Value>, id: StepId) {
    Shown(a, id) == Shown(b, id)
  }

  lemma {:induction false} PiecesDependOnlyOnReads(ps: seq<Piece>, context: Value, a: map<StepId, Value>,
                                                   b: map<StepId, Value>, show: Value -> string)
    requires forall i | 0 <= i < |ps| :: ps[i].Embedded? && NamesOutput(ps[i].path) ==> SameAt(a, b, ps[i].path[1])
    ensures PiecesText(ps, context, a, show) == PiecesText(ps, context, b, show)
  {
    if ps != [] {
      PiecesDependOnlyOnReads(ps[1..], context, a, b, show);
      assert PieceText(ps[0], context, a, show) == PieceText(ps[0], context, b, show);
    }
  }

  /** A bound payload depends on the outputs of the steps its template reads and on
      nothing else: this is what makes a replayed dispatch rebuild the same payload. */
  lemma {:induction false} BindDependsOnlyOnReads(t: Template, context: Value, a: map<StepId, Value>,
                                                  b: map<StepId, Value>, show: Value -> string)
    requires forall id | Reads(t, id) :: SameAt(a, b, id)
    ensures Bind(t, context, a, show) == Bind(t, context, b, show)
    decreases t
  {
    match t
    case Literal(_) =>
    case Whole(path) =>
      if NamesOutput(path) { assert Reads(t, path[1]); }
    case Mixed(ps) =>
      forall i | 0 <= i < |ps| && ps[i].Embedded? && NamesOutput(ps[i].path)
        ensures SameAt(a, b, ps[i].path[1])
      { assert Reads(t, ps[i].path[1]); }
      PiecesDependOnlyOnReads(ps, context, a, b, show);
    case ListOf(ts) =>
      forall i | 0 <= i < |ts|
        ensures Bind(ts[i], context, a, show) == Bind(ts[i], context, b, show)
      {
        assert forall id | Reads(ts[i], id) :: Reads(t, id);
        BindDependsOnlyOnReads(ts[i], context, a, b, show);
      }
    case DictOf(m) =>
      forall k | k in m
        ensures Bind(m[k], context, a, show) == Bind(m[k], context, b, show)
      {
        assert forall id | Reads(m[k], id) :: Reads(t, id);
        BindDependsOnlyOnReads(m[k], context, a, b, show);
      }
  }

  // ---------- what binding yields ----------

  /** One field name down: the field of an object, or null when there is none. */
  predicate StepsDown(v: Value, name: string, r: Value) {
    if v.Fields? && name in v.fields then r == v.fields[name] else r == Null
  }

  /** The value at these field names, or null once an object is left; `trail` has the values on
      the way. */
  predicate IsTrail(v: Value, names: seq<string>, trail: seq<Value>) {
    && |trail| == |names| + 1 && trail[0] == v
    && forall i | 0 <= i < |names| :: StepsDown(trail[i], names[i], trail[i + 1])
  }

  ghost predicate IsAt(v: Value, names: seq<string>, r: Value) {
    exists trail :: IsTrail(v, names, trail) && trail[|names|] == r
  }

  /** There is exactly one such value. */
  lemma {:induction false} IsAtOne(v: Value, names: seq<string>, a: Value, b: Value)
    requires IsAt(v, names, a) && IsAt(v, names, b)
    ensures a == b
  {
    var s :| IsTrail(v, names, s) && s[|names|] == a;
    var t :| IsTrail(v, names, t) && t[|names|] == b;
    SameTrail(v, names, s, t, |names|);
  }

  lemma {:induction false} SameTrail(v: Value, names: seq<string>, s: seq<Value>, t: seq<Value>, n: nat)
    requires IsTrail(v, names, s) && IsTrail(v, names, t) && n <= |names|
    ensures s[n] == t[n]
  {
    if n > 0 {
      SameTrail(v, names, s, t, n - 1);
      assert StepsDown(s[n - 1], names[n - 1], s[n]) && StepsDown(t[n - 1], names[n - 1], t[n]);
    }
  }

  /** Once null, the walk stays null. */
  lemma {:induction false} WalkIsAt(v: Value, names: seq<string>)
    ensures IsAt(v, names, Walk(v, names))
    decreases |names|
  {
    if names == [] {
      assert IsTrail(v, names, [v]);
    } else {
      var next := if v.Fields? && names[0] in v.fields then v.fields[names[0]] else Null;
      WalkIsAt(next, names[1..]);
      if !v.Fields? { NullStays(names[1..]); }
      var rest :| IsTrail(next, names[1..], rest) && rest[|names| - 1] == Walk(next, names[1..]);
      var trail := [v] + rest;
      forall i | 0 <= i < |names|
        ensures StepsDown(trail[i], names[i], trail[i + 1])
      { if i > 0 { assert StepsDown(rest[i - 1], names[1..][i - 1], rest[i]); } }
      assert IsTrail(v, names, trail) && trail[|names|] == Walk(v, names);
    }
  }

  lemma {:induction false} NullStays(names: seq<string>)
    ensures Walk(Null, names) == Null
  {
  }

  /** The value a dotted path names: in the run context, or in the output of a step. */
  ghost predicate PathNames(path: seq<string>, context: Value, outputs: map<StepId, Value>, r: Value) {
    if |path| > 0 && path[0] == "context" then IsAt(context, path[1..], r)
    else if |path| >= 3 && path[0] == "steps" && path[2] == "output" then
      IsAt(if path[1] in outputs then outputs[path[1]] else Fields(map[]), path[3..], r)
    else r == Null
  }

  /** What an embedded path is written as: its value as text, or nothing when that is null,
      zero or empty. */
  ghost predicate PieceShows(p: Piece, context: Value, outputs: map<StepId, Value>, show: Value -> string, t: string) {
    if p.Plain? then t == p.text
    else exists v :: PathNames(p.path, context, outputs, v)
           && t == if v in {Null, Text(""), Number(0), Items([]), Fields(map[])} then "" else show(v)
  }

  function Joined(texts: seq<string>): string {
    if texts == [] then "" else texts[0] + Joined(texts[1..])
  }

  ghost predicate PiecesShow(ps: seq<Piece>, context: Value, outputs: map<StepId, Value>, show: Value -> string,
                             texts: seq<string>) {
    |texts| == |ps| && forall i | 0 <= i < |ps| :: PieceShows(ps[i], context, outputs, show, texts[i])
  }

  /** The value a template stands for: a literal is kept, a whole template has the value its
      path names, with its type, a longer text is put together piece by piece, a list has the
      values of its items in their places, an object those of exactly its keys. */
  ghost predicate StandsFor(t: Template, context: Value, outputs: map<StepId, Value>, show: Value -> string, v: Value)
    decreases t
  {
    match t
    case Literal(value) => v == value
    case Whole(path) => PathNames(path, context, outputs, v)
    case Mixed(ps) => exists texts :: PiecesShow(ps, context, outputs, show, texts) && v == Text(Joined(texts))
    case ListOf(ts) =>
      && v.Items? && |v.items| == |ts|
      && forall i | 0 <= i < |ts| :: StandsFor(ts[i], context, outputs, show, v.items[i])
    case DictOf(m) =>
      && v.Fields? && v.fields.Keys == m.Keys
      && forall k | k in m :: StandsFor(m[k], context, outputs, show, v.fields[k])
  }

  lemma ResolvedIsNamed(path: seq<string>, context: Value, outputs: map<StepId, Value>)
    ensures PathNames(path, context, outputs, Resolved(path, context, outputs))
  {
    if |path| > 0 && path[0] == "context" { WalkIsAt(context, path[1..]); }
    else if |path| >= 3 && path[0] == "steps" && path[2] == "output" {
      WalkIsAt(if path[1] in outputs then outputs[path[1]] else Fields(map[]), path[3..]);
    }
  }

  lemma {:induction false} PiecesAreShown(ps: seq<Piece>, context: Value, outputs: map<StepId, Value>,
                                          show: Value -> string) returns (texts: seq<string>)
    ensures PiecesShow(ps, context, outputs, show, texts) && Joined(texts) == PiecesText(ps, context, outputs, show)
  {
    if ps == [] {
      texts := [];
    } else {
      var rest := PiecesAreShown(ps[1..], context, outputs, show);
      var first := PieceText(ps[0], context, outputs, show);
      texts := [first] + rest;
      if ps[0].Embedded? { ResolvedIsNamed(ps[0].path, context, outputs); }
      forall i | 0 <= i < |ps|
        ensures PieceShows(ps[i], context, outputs, show, texts[i])
      { if i > 0 { assert PieceShows(ps[1..][i - 1], context, outputs, show, rest[i - 1]); } }
      assert texts[1..] == rest;
    }
  }

  /** What binding yields, for every template, context and outputs. */
  lemma {:induction false} BindStandsFor(t: Template, context: Value, outputs: map<StepId, Value>,
                                         show: Value -> string)
    ensures StandsFor(t, context, outputs, show, Bind(t, context, outputs, show))
    decreases t
  {
    match t
    case Literal(_) =>
    case Whole(path) => ResolvedIsNamed(path, context, outputs);
    case Mixed(ps) => var texts := PiecesAreShown(ps, context, outputs, show);
    case ListOf(ts) =>
      forall i | 0 <= i < |ts|
        ensures StandsFor(ts[i], context, outputs, show, Bind(ts[i], context, outputs, show))
      { BindStandsFor(ts[i], context, outputs, show); }
    case DictOf(m) =>
      forall k | k in m
        ensures StandsFor(m[k], context, outputs, show, Bind(m[k], context, outputs, show))
      { BindStandsFor(m[k], context, outputs, show); }
  }

  lemma NamedIsOne(path: seq<string>, context: Value, outputs: map<StepId, Value>, a: Value, b: Value)
    requires PathNames(path, context, outputs, a) && PathNames(path, context, outputs, b)
    ensures a == b
  {
    if |path| > 0 && path[0] == "context" { IsAtOne(context, path[1..], a, b); }
    else if |path| >= 3 && path[0] == "steps" && path[2] == "output" {
      IsAtOne(if path[1] in outputs then outputs[path[1]] else Fields(map[]), path[3..], a, b);
    }
  }

  lemma TextsAreOne(ps: seq<Piece>, context: Value, outputs: map<StepId, Value>, show: Value -> string,
                    a: seq<string>, b: seq<string>)
    requires PiecesShow(ps, context, outputs, show, a) && PiecesShow(ps, context, outputs, show, b)
    ensures a == b
  {
    forall i | 0 <= i < |ps|
      ensures a[i] == b[i]
    {
      assert PieceShows(ps[i], context, outputs, show, a[i]) && PieceShows(ps[i], context, outputs, show, b[i]);
      if ps[i].Embedded? { ShownOnce(ps[i], context, outputs, show, a[i], b[i]); }
    }
  }

  lemma ShownOnce(p: Piece, context: Value, outputs: map<StepId, Value>, show: Value -> string, a: string, b: string)
    requires p.Embedded? && PieceShows(p, context, outputs, show, a) && PieceShows(p, context, outputs, show, b)
    ensures a == b
  {
    var v :| PathNames(p.path, context, outputs, v)
      && a == if v in {Null, Text(""), Number(0), Items([]), Fields(map[])} then "" else show(v);
    var u :| PathNames(p.path, context, outputs, u)
      && b == if u in {Null, Text(""), Number(0), Items([]), Fields(map[])} then "" else show(u);
    NamedIsOne(p.path, context, outputs, u, v);
  }

  /** And a template stands for nothing else, so that binding is that and no other value. */
  lemma {:induction false} StandsForOne(t: Template, context: Value, outputs: map<StepId, Value>,
                                        show: Value -> string, a: Value, b: Value)
    requires StandsFor(t, context, outputs, show, a) && StandsFor(t, context, outputs, show, b)
    ensures a == b
    decreases t
  {
    match t
    case Literal(_) =>
    case Whole(path) => NamedIsOne(path, context, outputs, a, b);
    case Mixed(ps) =>
      var s :| PiecesShow(ps, context, outputs, show, s) && a == Text(Joined(s));
      var u :| PiecesShow(ps, context, outputs, show, u) && b == Text(Joined(u));
      TextsAreOne(ps, context, outputs, show, s, u);
    case ListOf(ts) =>
      forall i | 0 <= i < |ts|
        ensures a.items[i] == b.items[i]
      { StandsForOne(ts[i], context, outputs, show, a.items[i], b.items[i]); }
    case DictOf(m) =>
      forall k | k in m
        ensures a.fields[k] == b.fields[k]
      { StandsForOne(m[k], context, outputs, show, a.fields[k], b.fields[k]); }
  }

  /** Binding yields exactly the value the template stands for. */
  lemma BindIsExactly(t: Template, context: Value, outputs: map<StepId, Value>, show: Value -> string, v: Value)
    ensures Bind(t, context, outputs, show) == v <==> StandsFor(t, context, outputs, show, v)
  {
    BindStandsFor(t, context, outputs, show);
    if StandsFor(t, context, outputs, show, v) {
      StandsForOne(t, context, outputs, show, v, Bind(t, context, outputs, show));
    }
  }
}
