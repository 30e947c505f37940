/** The token budgeter (`src/maof/context/budget.py`, `src/maof/context/compaction.py`). */
module Budget {

  /** The texts of a context envelope that count towards the budget. */
  datatype Content = Content(goal: string, dialogue: seq<string>, memories: seq<string>, notes: seq<string>)

  function NonEmpty(parts: seq<string>): seq<string> {
    if parts == [] then [] else (if parts[0] == "" then [] else [parts[0]]) + NonEmpty(parts[1..])
  }

  function Lines(parts: seq<string>): string {
    if parts == [] then "" else if |parts| == 1 then parts[0] else parts[0] + "\n" + Lines(parts[1..])
  }

  /** `_envelope_text`: goal, dialogue, memories and data-pointer notes, one per line. */
  function EnvelopeText(c: Content): string {
    Lines(NonEmpty([c.goal] + c.dialogue + c.memories + c.notes))
  }

  /** The default counter: about four characters a token. */
  function EstimateTokens(text: string): int { |text| / 4 }

  function Count(c: Content, counter: string -> int): int { counter(EnvelopeText(c)) }

  predicate Fits(c: Content, counter: string -> int, maxTokens: int) { Count(c, counter) <= maxTokens }

  function Min(a: int, b: int): int { if a < b then a else b }

  /** Python's `text[:n]`. */
  function Head(text: string, n: nat): string { text[..Min(n, |text|)] }

  /** The hard trim: cut the goal, then keep what is left of the last dialogue line. */
  function HardTrim(c: Content, maxTokens: nat): Content {
    var goal := Head(c.goal, maxTokens * 4);
    var remaining := maxTokens * 4 - |goal| - 1;
    c.(goal := goal,
       dialogue := if c.dialogue != [] && remaining > 0 then [Head(c.dialogue[|c.dialogue| - 1], remaining)] else [])
  }

  // ---------- lengths ----------

  function TextLength(parts: seq<string>): nat {
    if parts == [] then 0
    else if parts[0] == "" then TextLength(parts[1..])
    else |parts[0]| + (if TextLength(parts[1..]) == 0 then 0 else 1 + TextLength(parts[1..]))
  }

  lemma {:induction false} LinesLength(parts: seq<string>)
    ensures |Lines(NonEmpty(parts))| == TextLength(parts)
    ensures NonEmpty(parts) == [] <==> TextLength(parts) == 0
  {
    if parts != [] {
      LinesLength(parts[1..]);
      var rest := NonEmpty(parts[1..]);
      assert NonEmpty(parts) == if parts[0] == "" then rest else [parts[0]] + rest;
      assert ([parts[0]] + rest)[1..] == rest;
      assert rest == [] ==> [parts[0]] + rest == [parts[0]];
    }
  }

  /** The characters the data-pointer notes take. */
  function NotesLength(c: Content): nat { TextLength(c.notes) }

  function WithSeparator(a: nat, b: nat): nat { if a == 0 then b else if b == 0 then a else a + 1 + b }

  lemma {:induction false} TextLengthSplit(a: seq<string>, b: seq<string>)
    ensures TextLength(a + b) == WithSeparator(TextLength(a), TextLength(b))
  {
    if a == [] {
      assert a + b == b;
    } else {
      assert (a + b)[1..] == a[1..] + b;
      TextLengthSplit(a[1..], b);
    }
  }

  lemma CoreLength(c: Content)
    requires c.memories == [] && |c.dialogue| <= 1
    ensures |EnvelopeText(c)|
          == WithSeparator(WithSeparator(|c.goal|, if c.dialogue == [] then 0 else |c.dialogue[0]|), NotesLength(c))
  {
    var core := [c.goal] + c.dialogue;
    LinesLength(core + c.notes);
    assert [c.goal] + c.dialogue + c.memories + c.notes == core + c.notes;
    TextLengthSplit(core, c.notes);
    TextLengthSplit([c.goal], c.dialogue);
  }

  /** The characters of these texts, each with the line break after it; empty ones have none. */
  function WithBreaks(parts: seq<string>): nat {
    if parts == [] then 0 else (if parts[0] == "" then 0 else |parts[0]| + 1) + WithBreaks(parts[1..])
  }

  lemma {:induction false} TextIsWithBreaks(parts: seq<string>)
    ensures TextLength(parts) == if WithBreaks(parts) == 0 then 0 else WithBreaks(parts) - 1
    ensures WithBreaks(parts) != 1
  {
    if parts != [] { TextIsWithBreaks(parts[1..]); }
  }

  lemma {:induction false} BreaksSplit(a: seq<string>, b: seq<string>)
    ensures WithBreaks(a + b) == WithBreaks(a) + WithBreaks(b)
  {
    if a == [] {
      assert a + b == b;
    } else {
      assert (a + b)[1..] == a[1..] + b;
      BreaksSplit(a[1..], b);
    }
  }

  /** What is counted are all the texts of the envelope: goal, dialogue, memories and notes, one to
      a line. */
  lemma EverythingCounts(c: Content)
    ensures var all := WithBreaks([c.goal]) + WithBreaks(c.dialogue) + WithBreaks(c.memories) + WithBreaks(c.notes);
      EstimateTokens(EnvelopeText(c)) == (if all == 0 then 0 else all - 1) / 4
  {
    var parts := [c.goal] + c.dialogue + c.memories + c.notes;
    LinesLength(parts);
    TextIsWithBreaks(parts);
    BreaksSplit([c.goal] + c.dialogue + c.memories, c.notes);
    BreaksSplit([c.goal] + c.dialogue, c.memories);
    BreaksSplit([c.goal], c.dialogue);
  }

  // ---------- fitting ----------

  /** The envelope with the longest prefix of its memories, from `n` down, that fits. */
  function DropMemories(c: Content, counter: string -> int, maxTokens: int): (r: Content)
    decreases |c.memories|
  {
    if !Fits(c, counter, maxTokens) && c.memories != [] then
      DropMemories(c.(memories := c.memories[..|c.memories| - 1]), counter, maxTokens)
    else c
  }

  function DropDialogue(c: Content, counter: string -> int, maxTokens: int): (r: Content)
    decreases |c.dialogue|
  {
    if !Fits(c, counter, maxTokens) && |c.dialogue| > 1 then
      DropDialogue(c.(dialogue := c.dialogue[1..]), counter, maxTokens)
    else c
  }

  /** `fit_envelope`. */
  function Fitted(c: Content, counter: string -> int, maxTokens: nat): Content {
    var trimmed := DropDialogue(DropMemories(c, counter, maxTokens), counter, maxTokens);
    if Fits(trimmed, counter, maxTokens) then trimmed else HardTrim(trimmed, maxTokens)
  }

  /** With any counter: the kept memories are the longest prefix that fits, or none. */
  lemma {:induction false} MemoriesAreLongestFittingPrefix(c: Content, counter: string -> int, maxTokens: int)
    ensures var r := DropMemories(c, counter, maxTokens);
      && r == c.(memories := r.memories) && r.memories <= c.memories
      && (Fits(r, counter, maxTokens) || r.memories == [])
      && (forall n | |r.memories| < n <= |c.memories| :: !Fits(c.(memories := c.memories[..n]), counter, maxTokens))
    decreases |c.memories|
  {
    assert c.memories[..|c.memories|] == c.memories;
    if !Fits(c, counter, maxTokens) && c.memories != [] {
      var shorter := c.(memories := c.memories[..|c.memories| - 1]);
      MemoriesAreLongestFittingPrefix(shorter, counter, maxTokens);
      assert forall n | 0 <= n < |c.memories| :: shorter.memories[..n] == c.memories[..n];
      assert forall n | 0 <= n < |c.memories| ::
        shorter.(memories := shorter.memories[..n]) == c.(memories := c.memories[..n]);
    }
  }

  /** With any counter: the kept dialogue is the longest suffix that fits, or the last line. */
  lemma {:induction false} DialogueIsLongestFittingSuffix(c: Content, counter: string -> int, maxTokens: int)
    ensures var r := DropDialogue(c, counter, maxTokens);
      && r == c.(dialogue := r.dialogue) && |r.dialogue| <= |c.dialogue|
      && r.dialogue == c.dialogue[|c.dialogue| - |r.dialogue|..]
      && (Fits(r, counter, maxTokens) || |r.dialogue| <= 1)
      && (|c.dialogue| > 0 ==> |r.dialogue| > 0)
      && (forall n | 0 <= n < |c.dialogue| - |r.dialogue| :: !Fits(c.(dialogue := c.dialogue[n..]), counter, maxTokens))
    decreases |c.dialogue|
  {
    assert c.dialogue[0..] == c.dialogue;
    if !Fits(c, counter, maxTokens) && |c.dialogue| > 1 {
      var shorter := c.(dialogue := c.dialogue[1..]);
      DialogueIsLongestFittingSuffix(shorter, counter, maxTokens);
      assert forall n | 0 < n <= |c.dialogue| :: shorter.dialogue[n - 1..] == c.dialogue[n..];
      forall n | 0 < n < |c.dialogue|
        ensures shorter.(dialogue := shorter.dialogue[n - 1..]) == c.(dialogue := c.dialogue[n..])
      { assert shorter.dialogue[n - 1..] == c.dialogue[n..]; }
    }
  }

  // ---------- the promise of the budget ----------

  /** The length of the least the loops can leave: goal, last dialogue line, notes. */
  function BareLength(c: Content): nat {
    var last := if c.dialogue == [] then 0 else |c.dialogue[|c.dialogue| - 1]|;
    WithSeparator(WithSeparator(|c.goal|, last), NotesLength(c))
  }

  lemma {:induction false} LastLineCounts(lines: seq<string>)
    requires lines != []
    ensures |lines[|lines| - 1]| <= TextLength(lines)
  {
    if |lines| > 1 { LastLineCounts(lines[1..]); }
  }

  lemma BareIsLeast(c: Content)
    ensures BareLength(c) <= |EnvelopeText(c)|
  {
    var parts := [c.goal] + c.dialogue + c.memories + c.notes;
    LinesLength(parts);
    TextLengthSplit([c.goal] + c.dialogue + c.memories, c.notes);
    TextLengthSplit([c.goal] + c.dialogue, c.memories);
    TextLengthSplit([c.goal], c.dialogue);
    if c.dialogue != [] { LastLineCounts(c.dialogue); }
  }

  /** Exactly when the hard trim reaches the budget: the notes are never trimmed, and the
      rounding of the counter leaves room for two or, in three odd cases, three characters. */
  lemma HardTrimFitsExactly(c: Content, maxTokens: nat)
    requires c.memories == [] && |c.dialogue| <= 1
    requires EstimateTokens(EnvelopeText(c)) > maxTokens
    ensures EstimateTokens(EnvelopeText(HardTrim(c, maxTokens))) <= maxTokens <==>
      NotesLength(c) <= 2 ||
      (NotesLength(c) == 3 && (maxTokens == 0 || c.goal == "" || |c.goal| == 4 * maxTokens - 1))
  {
    CoreLength(c);
    CoreLength(HardTrim(c, maxTokens));
  }

  /** The budget is kept if and only if the notes are next to nothing, or the goal, the last
      dialogue line and the notes already fit together. */
  lemma BudgetIsKeptExactly(c: Content, maxTokens: nat)
    ensures Fits(Fitted(c, EstimateTokens, maxTokens), EstimateTokens, maxTokens) <==>
      BareLength(c) / 4 <= maxTokens || NotesLength(c) <= 2 ||
      (NotesLength(c) == 3 && (maxTokens == 0 || c.goal == "" || |c.goal| == 4 * maxTokens - 1))
  {
    var m := DropMemories(c, EstimateTokens, maxTokens);
    var t := DropDialogue(m, EstimateTokens, maxTokens);
    MemoriesAreLongestFittingPrefix(c, EstimateTokens, maxTokens);
    DialogueIsLongestFittingSuffix(m, EstimateTokens, maxTokens);
    assert BareLength(t) == BareLength(c);
    BareIsLeast(t);
    assert Count(t, EstimateTokens) == EstimateTokens(EnvelopeText(t));
    assert Fits(m, EstimateTokens, maxTokens) ==> t == m;
    if !Fits(t, EstimateTokens, maxTokens) {
      CoreLength(t);
      HardTrimFitsExactly(t, maxTokens);
    }
  }

  /** Without notes the budget is always kept. */
  lemma NoNotesAlwaysFits(c: Content, maxTokens: nat)
    requires forall i | 0 <= i < |c.notes| :: c.notes[i] == ""
    ensures Fits(Fitted(c, EstimateTokens, maxTokens), EstimateTokens, maxTokens)
  {
    EmptyTexts(c.notes);
    BudgetIsKeptExactly(c, maxTokens);
  }

  lemma {:induction false} EmptyTexts(parts: seq<string>)
    requires forall i | 0 <= i < |parts| :: parts[i] == ""
    ensures TextLength(parts) == 0
  {
    if parts != [] { EmptyTexts(parts[1..]); }
  }

  // ---------- what is left of the envelope ----------

  function LastOf(lines: seq<string>): string {
    if lines == [] then "" else lines[|lines| - 1]
  }

  predicate IsSuffixOf(part: seq<string>, whole: seq<string>) {
    |part| <= |whole| && part == whole[|whole| - |part|..]
  }

  /** Dropped from `c`: memories from the end, and dialogue from the beginning, but only when no
      memory is left, and never the last line. Goal and notes stay. */
  ghost predicate IsDropped(c: Content, t: Content) {
    && t.goal == c.goal && t.notes == c.notes
    && t.memories <= c.memories && IsSuffixOf(t.dialogue, c.dialogue)
    && (t.memories != [] ==> t.dialogue == c.dialogue) && (c.dialogue != [] ==> t.dialogue != [])
  }

  /** Cut from `t`: the goal at its end, to four characters a token, and the last line at its end,
      to what the goal leaves of that, less one. */
  ghost predicate IsCutFrom(t: Content, maxTokens: nat, r: Content) {
    && r.notes == t.notes && r.memories == t.memories
    && r.goal <= t.goal && |r.goal| == Min(|t.goal|, maxTokens * 4)
    && (|r.dialogue| == if t.dialogue != [] && maxTokens * 4 - |r.goal| > 1 then 1 else 0)
    && (r.dialogue != [] ==>
          && r.dialogue[0] <= LastOf(t.dialogue)
          && |r.dialogue[0]| == Min(|LastOf(t.dialogue)|, maxTokens * 4 - |r.goal| - 1))
  }

  /** What fitting keeps, with any counter: an envelope that fits is left alone; otherwise memories
      and then dialogue are dropped, until it fits or goal, last line and notes alone do not; only
      then goal and last line are cut. */
  lemma FittedKeeps(c: Content, counter: string -> int, maxTokens: nat)
    ensures var r := Fitted(c, counter, maxTokens);
      && (Fits(c, counter, maxTokens) ==> r == c)
      && exists t :: IsDropped(c, t)
           && if Fits(t, counter, maxTokens) then r == t
              else t.memories == [] && |t.dialogue| <= 1 && IsCutFrom(t, maxTokens, r)
  {
    var m := DropMemories(c, counter, maxTokens);
    var t := DropDialogue(m, counter, maxTokens);
    MemoriesAreLongestFittingPrefix(c, counter, maxTokens);
    DialogueIsLongestFittingSuffix(m, counter, maxTokens);
    if Fits(m, counter, maxTokens) { assert t == m; }
    assert IsDropped(c, t);
    HardTrimCuts(t, maxTokens);
  }

  lemma HardTrimCuts(t: Content, maxTokens: nat)
    ensures IsCutFrom(t, maxTokens, HardTrim(t, maxTokens))
  {
  }

  // ---------- the envelope object ----------

  class ContextEnvelope {
    var goal: string
    var dialogue: seq<string>
    var memories: seq<string>
    const notes: seq<string>

    constructor (c: Content)
      ensures Snapshot() == c
    {
      goal, dialogue, memories, notes := c.goal, c.dialogue, c.memories, c.notes;
    }

    function Snapshot(): Content
      reads this
    {
      Content(goal, dialogue, memories, notes)
    }

    /** `fit_envelope`: pop memories from the end, then dialogue from the front, then cut. */
    method FitEnvelope(counter: string -> int, maxTokens: nat)
      modifies this
      ensures Snapshot() == Fitted(old(Snapshot()), counter, maxTokens)
    {
      while Count(Snapshot(), counter) > maxTokens && memories != []
        invariant DropMemories(old(Snapshot()), counter, maxTokens) == DropMemories(Snapshot(), counter, maxTokens)
        decreases |memories|
      {
        memories := memories[..|memories| - 1];
      }
      ghost var m := Snapshot();
      while Count(Snapshot(), counter) > maxTokens && |dialogue| > 1
        invariant DropDialogue(m, counter, maxTokens) == DropDialogue(Snapshot(), counter, maxTokens)
        decreases |dialogue|
      {
        dialogue := dialogue[1..];
      }
      if Count(Snapshot(), counter) > maxTokens {
        var allowed := maxTokens * 4;
        goal := Head(goal, allowed);
        var remaining := allowed - |goal| - 1;
        dialogue := if dialogue != [] && remaining > 0 then [Head(dialogue[|dialogue| - 1], remaining)] else [];
      }
    }
  }
}
