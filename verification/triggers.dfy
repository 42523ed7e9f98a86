/** `extractConflictTriggers` of app/api/analyze/route.ts: four independent
    substring conditions, each contributing one phrase, and a normalisation of
    the collected phrases to exactly two. */
module ConflictTriggers {
  import opened Text

  const AbsolutePhrase := "Use of absolute language (never/always)"
  const PunctuationPhrase := "Strong punctuation indicating emotional intensity"
  const ErrorsPhrase := "Focus on errors or problems"
  const ClarificationPhrase := "Request for clarification or explanation"

  /** The fixed pair returned when no condition holds. */
  const ProfessionalPhrase := "Professional tone detected"
  const ClearPhrase := "Clear communication observed"

  /** The filler appended after a single matched phrase. */
  const NeutralFiller := "Neutral sentiment with measured response"

  /** A condition: a group of markers (any one suffices) and its phrase. */
  datatype Condition = Condition(markers: seq<string>, phrase: string)

  /** The four conditions in the order the source evaluates them. */
  const Conditions: seq<Condition> := [
    Condition(["never", "always"], AbsolutePhrase),
    Condition(["!", "?"], PunctuationPhrase),
    Condition(["wrong", "mistake", "error"], ErrorsPhrase),
    Condition(["understand", "clarify", "explain"], ClarificationPhrase)
  ]

  /** Every phrase the extractor can return. */
  const Vocabulary: set<string> := {
    AbsolutePhrase, PunctuationPhrase, ErrorsPhrase, ClarificationPhrase,
    ProfessionalPhrase, ClearPhrase, NeutralFiller
  }

  /** Condition `i` holds of the lower-cased text. */
  predicate Holds(i: int, text: string)
    requires 0 <= i < |Conditions|
  {
    ContainsAny(text, Conditions[i].markers)
  }

  /** Position of a condition phrase in the evaluation order; -1 for any other string. */
  function PhraseIndex(p: string): int
  {
    if p == AbsolutePhrase then 0
    else if p == PunctuationPhrase then 1
    else if p == ErrorsPhrase then 2
    else if p == ClarificationPhrase then 3
    else -1
  }

  /** The collected phrases are condition phrases in strictly increasing
      evaluation order. */
  predicate Ordered(m: seq<string>)
  {
    && (forall k :: 0 <= k < |m| ==> 0 <= PhraseIndex(m[k]) < 4)
    && (forall k, l :: 0 <= k < l < |m| ==> PhraseIndex(m[k]) < PhraseIndex(m[l]))
  }

  /** Each condition's phrase sits at that condition's position. */
  lemma PhraseIndices()
    ensures forall i :: 0 <= i < |Conditions| ==> PhraseIndex(Conditions[i].phrase) == i
    ensures PhraseIndex(ProfessionalPhrase) == -1 && PhraseIndex(ClearPhrase) == -1
    ensures PhraseIndex(NeutralFiller) == -1
  {
  }

  /** `m` is what the first `upto` `if` blocks have pushed: ordered, each
      phrase backed by its condition, and every holding condition among the
      first `upto` represented. */
  predicate CollectsUpTo(m: seq<string>, text: string, upto: nat)
    requires upto <= |Conditions|
  {
    && Ordered(m)
    && (forall k :: 0 <= k < |m| ==> PhraseIndex(m[k]) < upto && Holds(PhraseIndex(m[k]), text))
    && (forall i :: 0 <= i < upto && Holds(i, text) ==> Conditions[i].phrase in m)
  }

  /** One `if` block: push the phrase of condition `i` when it holds. */
  function Push(m: seq<string>, text: string, i: nat): seq<string>
    requires i < |Conditions|
  {
    if Holds(i, text) then m + [Conditions[i].phrase] else m
  }

  /** Each block keeps the collection ordered, backed and complete. */
  lemma PushCollects(m: seq<string>, text: string, i: nat)
    requires i < |Conditions|
    requires CollectsUpTo(m, text, i)
    ensures CollectsUpTo(Push(m, text, i), text, i + 1)
  {
    PhraseIndices();
  }

  /** The `triggers` array after the four `if` blocks (lines 82-104): the
      phrases of the conditions that hold, in evaluation order, each once. */
  function Collected(text: string): (m: seq<string>)
    ensures |m| <= 4
    ensures Ordered(m)
    ensures forall k :: 0 <= k < |m| ==> Holds(PhraseIndex(m[k]), text)
    ensures forall i :: 0 <= i < |Conditions| && Holds(i, text) ==> Conditions[i].phrase in m
  {
    var m0 := Push([], text, 0);
    PushCollects([], text, 0);
    var m1 := Push(m0, text, 1);
    PushCollects(m0, text, 1);
    var m2 := Push(m1, text, 2);
    PushCollects(m1, text, 2);
    PushCollects(m2, text, 3);
    Push(m2, text, 3)
  }

  /** Reference reading of the four `if` blocks: filter the condition table. */
  function Filter(conditions: seq<Condition>, text: string): seq<string>
  {
    if conditions == [] then []
    else (if ContainsAny(text, conditions[0].markers) then [conditions[0].phrase] else [])
         + Filter(conditions[1..], text)
  }

  /** What block `i` contributes. */
  function Piece(i: nat, text: string): seq<string>
    requires i < |Conditions|
  {
    if Holds(i, text) then [Conditions[i].phrase] else []
  }

  lemma CollectedAsPieces(text: string)
    ensures Collected(text) == Piece(0, text) + Piece(1, text) + Piece(2, text) + Piece(3, text)
  {
    var m0 := Push([], text, 0);
    var m1 := Push(m0, text, 1);
    var m2 := Push(m1, text, 2);
    assert m0 == Piece(0, text);
    assert m1 == m0 + Piece(1, text);
    assert m2 == m1 + Piece(2, text);
  }

  lemma FilterAsPieces(text: string)
    ensures Filter(Conditions, text) == Piece(0, text) + (Piece(1, text) + (Piece(2, text) + Piece(3, text)))
  {
    var c := Conditions;
    assert c[3..][1..] == [];
    assert Filter(c[3..], text) == Piece(3, text);
    assert c[2..][1..] == c[3..];
    assert Filter(c[2..], text) == Piece(2, text) + Piece(3, text);
    assert c[1..][1..] == c[2..];
  }

  /** The four `if` blocks are the filter over the condition table. */
  lemma CollectedIsFilter(text: string)
    ensures Collected(text) == Filter(Conditions, text)
  {
    CollectedAsPieces(text);
    FilterAsPieces(text);
    AppendAssociative(Piece(0, text), Piece(1, text), Piece(2, text), Piece(3, text));
  }

  lemma AppendAssociative(a0: seq<string>, a1: seq<string>, a2: seq<string>, a3: seq<string>)
    ensures a0 + (a1 + (a2 + a3)) == a0 + a1 + a2 + a3
  {
  }

  /** The normalisation at lines 107-116: fill an empty list with the fixed
      pair, pad a single phrase with the filler, keep the first two otherwise;
      `slice(0, 2)` then changes nothing. */
  function Normalize(triggers: seq<string>): seq<string>
  {
    var padded :=
      if |triggers| == 0 then [ProfessionalPhrase, ClearPhrase]
      else if |triggers| == 1 then triggers + [NeutralFiller]
      else triggers[..2];
    padded[..if |padded| < 2 then |padded| else 2]
  }

  /** Normalising ordered condition phrases gives two distinct vocabulary
      phrases, keeping the collected ones first and in order. */
  lemma NormalizeOrdered(m: seq<string>)
    requires Ordered(m)
    ensures var r := Normalize(m);
      && |r| == 2
      && r[0] != r[1]
      && r[0] in Vocabulary && r[1] in Vocabulary
      && (|m| == 0 ==> r == [ProfessionalPhrase, ClearPhrase])
      && (|m| == 1 ==> r == [m[0], NeutralFiller])
      && (|m| >= 2 ==> r == m[..2])
      && (forall k :: 0 <= k < 2 && 0 <= PhraseIndex(r[k]) ==> r[k] in m)
      && (0 <= PhraseIndex(r[0]) && 0 <= PhraseIndex(r[1]) ==> PhraseIndex(r[0]) < PhraseIndex(r[1]))
  {
    PhraseIndices();
    assert forall k :: 0 <= k < |m| ==> m[k] in Vocabulary;
  }

  /** `extractConflictTriggers(message)`: exactly two distinct phrases from the
      fixed vocabulary. With no condition holding they are the fixed pair; with
      one, its phrase and the filler; with more, the first two holding
      conditions' phrases in evaluation order. A condition phrase is returned
      only if its condition holds, and never after a later condition's phrase. */
  function ExtractConflictTriggers(message: string): (r: seq<string>)
    ensures |r| == 2
    ensures r[0] != r[1]
    ensures r[0] in Vocabulary && r[1] in Vocabulary
    ensures var m := Collected(Lower(message));
      && (|m| == 0 ==> r == [ProfessionalPhrase, ClearPhrase])
      && (|m| == 1 ==> r == [m[0], NeutralFiller])
      && (|m| >= 2 ==> r == m[..2])
    ensures forall k :: 0 <= k < 2 && 0 <= PhraseIndex(r[k]) < 4 ==> Holds(PhraseIndex(r[k]), Lower(message))
    ensures 0 <= PhraseIndex(r[0]) && 0 <= PhraseIndex(r[1]) ==> PhraseIndex(r[0]) < PhraseIndex(r[1])
  {
    var m := Collected(Lower(message));
    NormalizeOrdered(m);
    PhraseIndices();
    Normalize(m)
  }

  /** The phrase of the first holding condition always comes first. */
  lemma FirstHoldingConditionLeads(message: string, i: nat)
    requires i < |Conditions| && Holds(i, Lower(message))
    requires forall j :: 0 <= j < i ==> !Holds(j, Lower(message))
    ensures ExtractConflictTriggers(message)[0] == Conditions[i].phrase
  {
    var m := Collected(Lower(message));
    PhraseIndices();
    assert Conditions[i].phrase in m;
    assert m[0] == Conditions[PhraseIndex(m[0])].phrase;
  }
}
