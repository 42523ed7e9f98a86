/** `generateProfessionalReply` of app/api/analyze/route.ts: a fixed template
    per tone, a sentence appended per sentiment, and a global, case-insensitive
    replacement of three words by "firm". */
module ReplyGenerator {
  import opened Text
  import opened Optional
  import opened SentimentAnalysis

  // ---------------------------------------------------------------------------
  // The replacement `/aggressive|negative|hostile/gi` -> "firm"
  // ---------------------------------------------------------------------------

  /** The alternatives of the regular expression, in the order it tries them. */
  const Patterns: seq<string> := ["aggressive", "negative", "hostile"]

  /** The replacement text. */
  const Firm := "firm"

  /** No alternative occurs in `s`, in any letter case. */
  predicate Clean(s: string)
  {
    forall i :: 0 <= i < |Patterns| ==> !Contains(Lower(s), Patterns[i])
  }

  /** The alternative the regular expression matches at the start of `s`, if any. */
  function PatternAt(s: string): (r: Option<string>)
    ensures r.Some? ==> r.value in Patterns && IsPrefix(r.value, Lower(s))
    ensures r.None? <==> forall i :: 0 <= i < |Patterns| ==> !IsPrefix(Patterns[i], Lower(s))
  {
    if IsPrefix(Patterns[0], Lower(s)) then Some(Patterns[0])
    else if IsPrefix(Patterns[1], Lower(s)) then Some(Patterns[1])
    else if IsPrefix(Patterns[2], Lower(s)) then Some(Patterns[2])
    else None
  }

  /** `s.replace(/aggressive|negative|hostile/gi, 'firm')`: scan from the left;
      where an alternative matches, emit "firm" and resume after the match,
      otherwise copy one character. Every replacement shortens the text. */
  function Sanitize(s: string): (r: string)
    ensures |r| <= |s|
    decreases |s|
  {
    match PatternAt(s)
    case Some(p) => Firm + Sanitize(s[|p|..])
    case None => if s == [] then [] else [s[0]] + Sanitize(s[1..])
  }

  /** The empty text stays empty. */
  lemma SanitizeEmpty()
    ensures Sanitize([]) == []
  {
  }

  /** The alternatives begin with different letters, so at most one matches
      at a position: a matching alternative is the one reported. */
  lemma PatternAtIsTheMatch(s: string, p: string)
    requires p in Patterns && IsPrefix(p, Lower(s))
    ensures PatternAt(s) == Some(p)
  {
    assert Lower(s)[0] == p[0];
  }

  /** A match, in any letter case, becomes "firm" and the scan resumes right
      after it. */
  lemma SanitizeReplacesMatch(w: string, rest: string)
    requires Lower(w) in Patterns
    ensures Sanitize(w + rest) == Firm + Sanitize(rest)
  {
    var s := w + rest;
    LowerAppend(w, rest);
    assert Lower(s)[..|w|] == Lower(w);
    PatternAtIsTheMatch(s, Lower(w));
    assert s[|w|..] == rest;
  }

  /** A character at which no alternative starts is copied unchanged. */
  lemma SanitizeCopies(c: char, rest: string)
    requires forall i :: 0 <= i < |Patterns| ==> !IsPrefix(Patterns[i], Lower([c] + rest))
    ensures Sanitize([c] + rest) == [c] + Sanitize(rest)
  {
    assert ([c] + rest)[1..] == rest;
  }

  /** In particular a character that begins none of the alternatives, in any
      letter case, is always copied. */
  lemma SanitizeCopiesOtherLetter(c: char, rest: string)
    requires LowerChar(c) !in {'a', 'n', 'h'}
    ensures Sanitize([c] + rest) == [c] + Sanitize(rest)
  {
    assert Lower([c] + rest)[0] == LowerChar(c);
    SanitizeCopies(c, rest);
  }

  /** The replacement works below the word level: a capitalised match inside
      a longer word is replaced and the rest of the word kept. */
  lemma SanitizeInsideWord()
    ensures Sanitize("NEGATIVEly") == "firmly"
  {
    assert Lower("NEGATIVE") == Patterns[1];
    SanitizeReplacesMatch("NEGATIVE", "ly");
    assert "NEGATIVE" + "ly" == "NEGATIVEly";
    SanitizeCopiesOtherLetter('l', "y");
    SanitizeCopiesOtherLetter('y', "");
    assert "ly" == ['l'] + "y" && "y" == ['y'] + "";
  }

  /** Where an alternative matches, the sanitised text starts with "firm". */
  lemma SanitizeStartsFirm(x: string)
    ensures PatternAt(x).Some? ==> |Sanitize(x)| >= 4 && Lower(Sanitize(x))[0] == 'f'
  {
  }

  /** A tail of an alternative (none holds an 'f') that starts the sanitised
      text already started the original: "firm" cannot begin it. */
  lemma {:induction false} PrefixSurvives(q: string, x: string)
    requires 'f' !in q
    requires IsPrefix(q, Lower(Sanitize(x)))
    ensures IsPrefix(q, Lower(x))
    decreases |x|
  {
    if q != [] {
      SanitizeStartsFirm(x);
      match PatternAt(x)
      case Some(_) =>
      case None =>
        var y := Sanitize(x[1..]);
        assert Sanitize(x) == [x[0]] + y;
        LowerAppend([x[0]], y);
        assert q[1..] == Lower(y)[..|q| - 1];
        PrefixSurvives(q[1..], x[1..]);
        LowerAppend([x[0]], x[1..]);
        assert x == [x[0]] + x[1..];
    }
  }

  /** No tail of an alternative holds an 'f', and neither does "firm"'s start
      coincide with an alternative's. */
  lemma PatternFacts()
    ensures forall i :: 0 <= i < |Patterns| ==> |Patterns[i]| >= 3 && 'f' !in Patterns[i]
    ensures forall i :: 0 <= i < |Patterns| ==> forall k :: 0 <= k < |Firm| ==> LowerChar(Firm[k]) != Patterns[i][0]
  {
  }

  /** After the replacement no alternative is left, in any letter case: a
      "firm" cannot complete one, and a copied character that began one would
      have been replaced. */
  lemma {:induction false} SanitizeLeavesNoPattern(s: string)
    ensures Clean(Sanitize(s))
    decreases |s|
  {
    match PatternAt(s)
    case Some(p) =>
      SanitizeLeavesNoPattern(s[|p|..]);
      FirmKeepsClean(Sanitize(s[|p|..]));
    case None =>
      if s != [] {
        SanitizeLeavesNoPattern(s[1..]);
        CopyKeepsClean(s);
      }
  }

  /** "firm" in front of clean text leaves it clean. */
  lemma FirmKeepsClean(y: string)
    requires Clean(y)
    ensures Clean(Firm + y)
  {
    PatternFacts();
    LowerAppend(Firm, y);
    forall i | 0 <= i < |Patterns|
      ensures !Contains(Lower(Firm + y), Patterns[i])
    {
      if Contains(Lower(Firm) + Lower(y), Patterns[i]) {
        ContainsSkip(Lower(Firm), Lower(y), Patterns[i]);
      }
    }
  }

  /** Copying a first character at which no alternative matches, in front of
      the clean sanitised rest, leaves the result clean. */
  lemma CopyKeepsClean(s: string)
    requires s != [] && PatternAt(s).None?
    requires Clean(Sanitize(s[1..]))
    ensures Clean([s[0]] + Sanitize(s[1..]))
  {
    PatternFacts();
    var y := Sanitize(s[1..]);
    LowerAppend([s[0]], y);
    LowerAppend([s[0]], s[1..]);
    assert s == [s[0]] + s[1..];
    var ly := Lower([s[0]] + y);
    assert ly[1..] == Lower(y);
    forall i | 0 <= i < |Patterns|
      ensures !Contains(ly, Patterns[i])
    {
      var q := Patterns[i];
      if IsPrefix(q, ly) {
        assert q[1..] == Lower(y)[..|q| - 1];
        PrefixSurvives(q[1..], s[1..]);
      }
    }
  }

  /** Text without an alternative is left exactly as it is. */
  lemma {:induction false} SanitizeIdentity(s: string)
    requires Clean(s)
    ensures Sanitize(s) == s
    decreases |s|
  {
    if s != [] {
      LowerDrop(s, 1);
      forall i | 0 <= i < |Patterns|
        ensures !Contains(Lower(s[1..]), Patterns[i])
      {
        if Contains(Lower(s)[1..], Patterns[i]) {
          ContainsInSuffix(Lower(s), 1, Patterns[i]);
        }
      }
      SanitizeIdentity(s[1..]);
    }
  }

  /** The replacement changes nothing exactly when there is nothing to replace. */
  lemma SanitizeFixedIffClean(s: string)
    ensures Sanitize(s) == s <==> Clean(s)
  {
    if Clean(s) {
      SanitizeIdentity(s);
    } else {
      SanitizeLeavesNoPattern(s);
    }
  }

  /** Replacing twice is replacing once. */
  lemma SanitizeIdempotent(s: string)
    ensures Sanitize(Sanitize(s)) == Sanitize(s)
  {
    SanitizeLeavesNoPattern(s);
    SanitizeIdentity(Sanitize(s));
  }

  // ---------------------------------------------------------------------------
  // A certificate that a fixed text holds no alternative
  // ---------------------------------------------------------------------------

  /** No alternative's first three letters start at `i`. */
  predicate Harmless(s: string, i: int)
    requires 0 <= i < |s| - 2
  {
    && !TrigramAt(s, i, 'a', 'g', 'g')
    && !TrigramAt(s, i, 'n', 'e', 'g')
    && !TrigramAt(s, i, 'h', 'o', 's')
  }

  /** `s` avoids the first three letters of every alternative, in any case. */
  predicate Tame(s: string)
  {
    forall i :: 0 <= i < |s| - 2 ==> Harmless(s, i)
  }

  lemma TameClean(s: string)
    requires Tame(s)
    ensures Clean(s)
  {
    assert Avoids(s, 'a', 'g', 'g') && Avoids(s, 'n', 'e', 'g') && Avoids(s, 'h', 'o', 's') by {
      forall i | 0 <= i < |s| - 2
        ensures !TrigramAt(s, i, 'a', 'g', 'g') && !TrigramAt(s, i, 'n', 'e', 'g') && !TrigramAt(s, i, 'h', 'o', 's')
      {
        assert Harmless(s, i);
      }
    }
    AvoidsNotContains(s, Patterns[0]);
    AvoidsNotContains(s, Patterns[1]);
    AvoidsNotContains(s, Patterns[2]);
  }

  /** No alternative holds a space, so two tame texts joined by one stay tame. */
  lemma TameSpaced(a: string, b: string)
    requires Tame(a) && Tame(b)
    ensures Tame(a + " " + b)
  {
    var s := a + " " + b;
    forall i | 0 <= i < |s| - 2
      ensures Harmless(s, i)
    {
      if i + 2 < |a| {
        assert s[i] == a[i] && s[i + 1] == a[i + 1] && s[i + 2] == a[i + 2];
        assert Harmless(a, i);
      } else if i > |a| {
        var j := i - |a| - 1;
        assert s[i] == b[j] && s[i + 1] == b[j + 1] && s[i + 2] == b[j + 2];
        assert Harmless(b, j);
      } else {
        assert s[|a|] == ' ';
      }
    }
  }

  /** Words joined by single spaces: how the fixed texts below are written. */
  function Join(words: seq<string>): string
  {
    if |words| == 0 then []
    else if |words| == 1 then words[0]
    else words[0] + " " + Join(words[1..])
  }

  lemma {:induction false} JoinTame(words: seq<string>)
    requires forall k :: 0 <= k < |words| ==> Tame(words[k])
    ensures Tame(Join(words))
  {
    if |words| > 1 {
      JoinTame(words[1..]);
      TameSpaced(words[0], Join(words[1..]));
    }
  }

  // ---------------------------------------------------------------------------
  // Templates
  // ---------------------------------------------------------------------------

  /** `baseTemplate`, used when the tone has no entry. */
  const BaseTemplate := "Thank you for your message. I understand your concern. I appreciate your feedback and would like to address this matter professionally."

  const AngryWords := ["I", "understand", "this", "situation", "is", "frustrating.", "Let's", "work",
    "together", "to", "find", "a", "solution", "that", "addresses", "your", "concerns."]
  const ConfusedWords := ["I", "appreciate", "you", "reaching", "out.", "Let", "me", "clarify", "the",
    "situation", "and", "provide", "the", "information", "you", "need."]
  const RudeWords := ["I", "respect", "your", "perspective.", "I'm", "committed", "to", "having", "a",
    "productive", "conversation", "and", "finding", "common", "ground."]
  const CalmWords := ["Thank", "you", "for", "your", "thoughtful", "message.", "I", "agree", "with",
    "your", "approach", "and", "appreciate", "your", "professionalism."]
  const ProfessionalWords := ["I", "appreciate", "your", "input.", "This", "is", "valuable", "feedback",
    "that", "will", "help", "improve", "our", "working", "relationship."]
  const NegativeWordsOfSuffix := ["Let", "me", "propose", "next", "steps", "to", "address", "this", "issue."]
  const PositiveWordsOfSuffix := ["Thank", "you", "again", "for", "your", "positive", "feedback."]

  const AngryReply := Join(AngryWords)
  const ConfusedReply := Join(ConfusedWords)
  const RudeReply := Join(RudeWords)
  const CalmReply := Join(CalmWords)
  const ProfessionalReply := Join(ProfessionalWords)

  /** `toneReplies[tone]` (lines 123-130): the entry under an own key, nothing otherwise. */
  function ToneReplies(tone: string): Option<string>
  {
    if tone == "Angry" then Some(AngryReply)
    else if tone == "Confused" then Some(ConfusedReply)
    else if tone == "Rude" then Some(RudeReply)
    else if tone == "Calm" then Some(CalmReply)
    else if tone == "Professional" then Some(ProfessionalReply)
    else None
  }

  /** The sentences appended for a Negative and a Positive sentiment. */
  const NegativeSuffix := " " + Join(NegativeWordsOfSuffix)
  const PositiveSuffix := " " + Join(PositiveWordsOfSuffix)

  /** `toneReplies[tone] || baseTemplate`: a missing key or an empty entry falls back. */
  function TemplateLookup(tone: string): string
  {
    match ToneReplies(tone)
    case Some(entry) => if entry != [] then entry else BaseTemplate
    case None => BaseTemplate
  }

  /** The suffix chosen by the sentiment string (lines 134-138). */
  function SuffixLookup(sentiment: string): string
  {
    if sentiment == "Negative" then NegativeSuffix
    else if sentiment == "Positive" then PositiveSuffix
    else []
  }

  /** `generateProfessionalReply(sentiment, tone, message)`: template, suffix,
      then the replacement; whatever the arguments, the reply holds no
      alternative in any letter case. The message is not consulted. */
  function GenerateReply(sentiment: string, tone: string, message: string): (r: string)
    ensures Clean(r)
  {
    SanitizeLeavesNoPattern(TemplateLookup(tone) + SuffixLookup(sentiment));
    Sanitize(TemplateLookup(tone) + SuffixLookup(sentiment))
  }

  /** The template of a tone, read off the tone itself. */
  function TemplateFor(t: Tone): string
  {
    match t
    case Angry => AngryReply
    case Confused => ConfusedReply
    case Rude => RudeReply
    case Calm => CalmReply
    case Professional => ProfessionalReply
  }

  /** The suffix of a sentiment, read off the sentiment itself. */
  function SuffixFor(s: Sentiment): string
  {
    match s
    case Negative => NegativeSuffix
    case Positive => PositiveSuffix
    case Neutral => []
  }

  lemma AngryTame() ensures forall k :: 0 <= k < |AngryWords| ==> Tame(AngryWords[k]) {}
  lemma ConfusedTame() ensures forall k :: 0 <= k < |ConfusedWords| ==> Tame(ConfusedWords[k]) {}
  lemma RudeTame() ensures forall k :: 0 <= k < |RudeWords| ==> Tame(RudeWords[k]) {}
  lemma CalmTame() ensures forall k :: 0 <= k < |CalmWords| ==> Tame(CalmWords[k]) {}
  lemma ProfessionalTame() ensures forall k :: 0 <= k < |ProfessionalWords| ==> Tame(ProfessionalWords[k]) {}
  lemma SuffixesTame()
    ensures forall k :: 0 <= k < |NegativeWordsOfSuffix| ==> Tame(NegativeWordsOfSuffix[k])
    ensures forall k :: 0 <= k < |PositiveWordsOfSuffix| ==> Tame(PositiveWordsOfSuffix[k])
  {
  }

  lemma JoinNonEmpty(words: seq<string>)
    requires |words| > 0 && words[0] != []
    ensures Join(words) != []
  {
  }

  lemma TemplatesTame(t: Tone)
    ensures Tame(TemplateFor(t))
  {
    match t
    case Angry => AngryTame(); JoinTame(AngryWords);
    case Confused => ConfusedTame(); JoinTame(ConfusedWords);
    case Rude => RudeTame(); JoinTame(RudeWords);
    case Calm => CalmTame(); JoinTame(CalmWords);
    case Professional => ProfessionalTame(); JoinTame(ProfessionalWords);
  }

  /** Every tone the classifier produces has a non-empty entry in
      `toneReplies`, so `baseTemplate` is never used for them; and the
      sentiment names select the suffixes. */
  lemma BaseTemplateUnreachable(t: Tone, s: Sentiment)
    ensures ToneReplies(ToneName(t)).Some? && ToneReplies(ToneName(t)).value != []
    ensures TemplateLookup(ToneName(t)) == TemplateFor(t)
    ensures SuffixLookup(SentimentName(s)) == SuffixFor(s)
  {
    match t
    case Angry => JoinNonEmpty(AngryWords);
    case Confused => JoinNonEmpty(ConfusedWords);
    case Rude => JoinNonEmpty(RudeWords);
    case Calm => JoinNonEmpty(CalmWords);
    case Professional => JoinNonEmpty(ProfessionalWords);
  }

  lemma SuffixesJoinTame()
    ensures Tame(Join(NegativeWordsOfSuffix)) && Tame(Join(PositiveWordsOfSuffix))
  {
    SuffixesTame();
    JoinTame(NegativeWordsOfSuffix);
    JoinTame(PositiveWordsOfSuffix);
  }

  lemma TameBeforeSpaced(body: string, tail: string)
    requires Tame(body) && Tame(tail)
    ensures Tame(body + (" " + tail))
  {
    TameSpaced(body, tail);
    assert body + (" " + tail) == body + " " + tail;
  }

  /** A tame body followed by any suffix is tame. */
  lemma SuffixedTame(body: string, s: Sentiment)
    requires Tame(body)
    ensures Tame(body + SuffixFor(s))
  {
    SuffixesJoinTame();
    match s
    case Negative => TameBeforeSpaced(body, Join(NegativeWordsOfSuffix));
    case Positive => TameBeforeSpaced(body, Join(PositiveWordsOfSuffix));
    case Neutral => assert body + [] == body;
  }

  /** On every tone and sentiment the classifiers can produce, the reply is
      exactly the tone's template followed by the sentiment's suffix, whatever
      the message: the replacement finds nothing to replace. */
  lemma ReplyForTone(s: Sentiment, t: Tone, message: string)
    ensures GenerateReply(SentimentName(s), ToneName(t), message) == TemplateFor(t) + SuffixFor(s)
  {
    BaseTemplateUnreachable(t, s);
    TemplatesTame(t);
    SuffixedTame(TemplateFor(t), s);
    TameClean(TemplateFor(t) + SuffixFor(s));
    SanitizeIdentity(TemplateFor(t) + SuffixFor(s));
  }
}
