/** `analyzeSentiment` of app/api/analyze/route.ts: a keyword-count sentiment
    decision and a first-match tone classifier over fixed lexicons. Both work on
    the lower-cased message. */
module SentimentAnalysis {
  import opened Text

  datatype Sentiment = Positive | Negative | Neutral

  datatype Tone = Angry | Confused | Rude | Calm | Professional

  /** The label the route puts in the `sentiment` field. */
  function SentimentName(s: Sentiment): string
  {
    match s
    case Positive => "Positive"
    case Negative => "Negative"
    case Neutral => "Neutral"
  }

  /** The label the route puts in the `tone` field. */
  function ToneName(t: Tone): string
  {
    match t
    case Angry => "Angry"
    case Confused => "Confused"
    case Rude => "Rude"
    case Calm => "Calm"
    case Professional => "Professional"
  }

  // ---------------------------------------------------------------------------
  // Lexicons
  // ---------------------------------------------------------------------------

  const PositiveWords: seq<string> :=
    ["great", "excellent", "wonderful", "amazing", "fantastic",
     "love", "happy", "pleased", "satisfied", "perfect"]

  const NegativeWords: seq<string> :=
    ["terrible", "awful", "horrible", "angry", "frustrated",
     "disappointed", "hate", "worst", "bad", "useless"]

  /** The tone groups exactly as listed, duplicates included. */
  const AggressivePatterns: seq<string> := ["!!!", "!!!", "hate", "angry", "furious", "disgusting"]
  const ConfusedPatterns: seq<string> := ["?", "??", "???", "confused", "unclear", "what", "why"]
  const RudePatterns: seq<string> := ["rude", "disrespectful", "ignorant", "stupid", "dumb"]
  const CalmPatterns: seq<string> := ["please", "thank", "appreciate", "kindly", "would you"]

  /** No entry of `words` is listed twice. */
  predicate Distinct(words: seq<string>)
  {
    forall i, j :: 0 <= i < j < |words| ==> words[i] != words[j]
  }

  // ---------------------------------------------------------------------------
  // Sentiment
  // ---------------------------------------------------------------------------

  /** `words.filter((word) => text.includes(word)).length`. */
  function CountHits(words: seq<string>, text: string): (n: nat)
    ensures n <= |words|
  {
    if words == [] then 0
    else (if Contains(text, words[0]) then 1 else 0) + CountHits(words[1..], text)
  }

  /** The lexicon entries that occur in `text`. */
  function HitSet(words: seq<string>, text: string): set<string>
  {
    set w | w in words && Contains(text, w)
  }

  /** On a lexicon without duplicates the filter count is the number of
      distinct entries that occur, not the number of occurrences. */
  lemma {:induction false} CountHitsIsDistinctHits(words: seq<string>, text: string)
    requires Distinct(words)
    ensures CountHits(words, text) == |HitSet(words, text)|
    decreases |words|
  {
    if words != [] {
      var rest := words[1..];
      assert Distinct(rest) by {
        forall i, j | 0 <= i < j < |rest|
          ensures rest[i] != rest[j]
        {
          assert rest[i] == words[i + 1] && rest[j] == words[j + 1];
        }
      }
      CountHitsIsDistinctHits(rest, text);
      assert words[0] !in rest by {
        forall j | 0 <= j < |rest|
          ensures rest[j] != words[0]
        {
          assert rest[j] == words[j + 1];
        }
      }
      assert words == [words[0]] + rest;
      if Contains(text, words[0]) {
        assert HitSet(words, text) == {words[0]} + HitSet(rest, text);
      } else {
        assert HitSet(words, text) == HitSet(rest, text);
      }
    }
  }

  /** Both sentiment lexicons list each word once. */
  lemma LexiconsAreDistinct()
    ensures Distinct(PositiveWords) && Distinct(NegativeWords)
  {
  }

  datatype SentimentVerdict = SentimentVerdict(sentiment: Sentiment, confidence: int)

  /** The branch at lines 49-58: a strict comparison of the two counts; a tie,
      0-0 included, is Neutral. */
  function DecideSentiment(positiveCount: nat, negativeCount: nat): (v: SentimentVerdict)
    ensures v.sentiment == Positive <==> positiveCount > negativeCount
    ensures v.sentiment == Negative <==> negativeCount > positiveCount
    ensures v.sentiment == Neutral <==> positiveCount == negativeCount
    ensures v.confidence in {70, 80, 85}
  {
    if positiveCount > negativeCount then SentimentVerdict(Positive, 80)
    else if negativeCount > positiveCount then SentimentVerdict(Negative, 85)
    else SentimentVerdict(Neutral, 70)
  }

  /** The confidence and the sentiment determine each other: equal confidences
      come exactly from equal sentiments, whatever the counts were. */
  lemma ConfidenceTracksSentiment(p1: nat, n1: nat, p2: nat, n2: nat)
    ensures var v1, v2 := DecideSentiment(p1, n1), DecideSentiment(p2, n2);
      v1.confidence == v2.confidence <==> v1.sentiment == v2.sentiment
  {
  }

  // ---------------------------------------------------------------------------
  // Tone
  // ---------------------------------------------------------------------------

  /** The if / else-if chain at lines 61-71 on the lower-cased message. */
  function ClassifyTone(text: string): Tone
  {
    if ContainsAny(text, AggressivePatterns) then Angry
    else if ContainsAny(text, ConfusedPatterns) then Confused
    else if ContainsAny(text, RudePatterns) then Rude
    else if ContainsAny(text, CalmPatterns) then Calm
    else Professional
  }

  /** A tone rule: a pattern group and the tone it selects. */
  datatype ToneRule = ToneRule(patterns: seq<string>, tone: Tone)

  /** Reference reading of the classifier: scan an ordered rule table and take
      the first rule whose group matches; Professional when none does. */
  function FirstMatch(rules: seq<ToneRule>, text: string): Tone
    decreases |rules|
  {
    if rules == [] then Professional
    else if ContainsAny(text, rules[0].patterns) then rules[0].tone
    else FirstMatch(rules[1..], text)
  }

  const ToneRules: seq<ToneRule> := [
    ToneRule(AggressivePatterns, Angry),
    ToneRule(ConfusedPatterns, Confused),
    ToneRule(RudePatterns, Rude),
    ToneRule(CalmPatterns, Calm)
  ]

  /** The aggressive and confused groups with the duplicate `'!!!'` and the
      subsumed `'??'`, `'???'` removed. */
  const ReducedAggressivePatterns: seq<string> := ["!!!", "hate", "angry", "furious", "disgusting"]
  const ReducedConfusedPatterns: seq<string> := ["?", "confused", "unclear", "what", "why"]

  const ReducedToneRules: seq<ToneRule> := [
    ToneRule(ReducedAggressivePatterns, Angry),
    ToneRule(ReducedConfusedPatterns, Confused),
    ToneRule(RudePatterns, Rude),
    ToneRule(CalmPatterns, Calm)
  ]

  /** The if-chain is the first-match scan over the rule table. */
  lemma ClassifyToneIsFirstMatch(text: string)
    ensures ClassifyTone(text) == FirstMatch(ToneRules, text)
  {
    var r := ToneRules;
    assert r[1..][1..][1..][1..] == [];
    assert FirstMatch(r[1..][1..][1..], text) == (if ContainsAny(text, CalmPatterns) then Calm else Professional);
    assert FirstMatch(r[1..][1..], text)
        == (if ContainsAny(text, RudePatterns) then Rude else FirstMatch(r[1..][1..][1..], text));
    assert FirstMatch(r[1..], text)
        == (if ContainsAny(text, ConfusedPatterns) then Confused else FirstMatch(r[1..][1..], text));
  }

  /** First match wins: the rule at index `i` decides the tone when it matches
      and no earlier rule does, whatever later rules would say. */
  lemma {:induction false} FirstMatchPicksFirst(rules: seq<ToneRule>, text: string, i: nat)
    requires i < |rules|
    requires ContainsAny(text, rules[i].patterns)
    requires forall j :: 0 <= j < i ==> !ContainsAny(text, rules[j].patterns)
    ensures FirstMatch(rules, text) == rules[i].tone
    decreases i
  {
    if i > 0 {
      assert !ContainsAny(text, rules[0].patterns);
      FirstMatchPicksFirst(rules[1..], text, i - 1);
    }
  }

  /** The default applies exactly when no rule matches. */
  lemma {:induction false} FirstMatchDefault(rules: seq<ToneRule>, text: string)
    requires forall j :: 0 <= j < |rules| ==> rules[j].tone != Professional
    ensures FirstMatch(rules, text) == Professional
        <==> forall j :: 0 <= j < |rules| ==> !ContainsAny(text, rules[j].patterns)
    decreases |rules|
  {
    if rules != [] {
      FirstMatchDefault(rules[1..], text);
      assert forall j :: 1 <= j < |rules| ==> rules[j] == rules[1..][j - 1];
    }
  }

  /** Some pattern of `g` is a prefix of `p`. */
  predicate HasPrefixIn(p: string, g: seq<string>)
  {
    exists j :: 0 <= j < |g| && IsPrefix(g[j], p)
  }

  /** Every pattern of `g1` has a prefix among the patterns of `g2`. */
  predicate Covers(g1: seq<string>, g2: seq<string>)
  {
    forall i :: 0 <= i < |g1| ==> HasPrefixIn(g1[i], g2)
  }

  /** A group whose every pattern has a prefix in a second group can match
      only where the second group matches. */
  lemma CoveredGroupMatchesLess(text: string, g1: seq<string>, g2: seq<string>)
    requires Covers(g1, g2)
    requires ContainsAny(text, g1)
    ensures ContainsAny(text, g2)
  {
    var i :| 0 <= i < |g1| && Contains(text, g1[i]);
    var j :| 0 <= j < |g2| && IsPrefix(g2[j], g1[i]);
    ContainsPrefixOfPattern(text, g1[i], g2[j]);
  }

  /** Groups covering each other match the same messages. */
  lemma SameGroupByPrefixes(text: string, g1: seq<string>, g2: seq<string>)
    requires Covers(g1, g2) && Covers(g2, g1)
    ensures ContainsAny(text, g1) <==> ContainsAny(text, g2)
  {
    if ContainsAny(text, g1) {
      CoveredGroupMatchesLess(text, g1, g2);
    }
    if ContainsAny(text, g2) {
      CoveredGroupMatchesLess(text, g2, g1);
    }
  }

  /** The duplicate `'!!!'` does not change what the aggressive group matches. */
  lemma AggressiveDuplicateIsHarmless(text: string)
    ensures ContainsAny(text, AggressivePatterns) <==> ContainsAny(text, ReducedAggressivePatterns)
  {
    var full, reduced := AggressivePatterns, ReducedAggressivePatterns;
    forall i | 0 <= i < |full|
      ensures HasPrefixIn(full[i], reduced)
    {
      var j := if i == 0 then 0 else i - 1;
      assert reduced[j] == full[i];
    }
    forall j | 0 <= j < |reduced|
      ensures HasPrefixIn(reduced[j], full)
    {
      assert full[j + 1] == reduced[j];
    }
    SameGroupByPrefixes(text, full, reduced);
  }

  /** `'??'` and `'???'` can only occur where `'?'` does, so dropping them does
      not change what the confused group matches. */
  lemma ConfusedSubsumedAreHarmless(text: string)
    ensures ContainsAny(text, ConfusedPatterns) <==> ContainsAny(text, ReducedConfusedPatterns)
  {
    var full, reduced := ConfusedPatterns, ReducedConfusedPatterns;
    forall i | 0 <= i < |full|
      ensures HasPrefixIn(full[i], reduced)
    {
      if i < 3 {
        assert IsPrefix(reduced[0], full[i]);
      } else {
        assert reduced[i - 2] == full[i];
      }
    }
    forall j | 0 <= j < |reduced|
      ensures HasPrefixIn(reduced[j], full)
    {
      var i := if j == 0 then 0 else j + 2;
      assert full[i] == reduced[j];
    }
    SameGroupByPrefixes(text, full, reduced);
  }

  /** The redundant entries never change the tone. */
  lemma RedundantPatternsAreHarmless(text: string)
    ensures FirstMatch(ToneRules, text) == FirstMatch(ReducedToneRules, text)
  {
    AggressiveDuplicateIsHarmless(text);
    ConfusedSubsumedAreHarmless(text);
    var r, q := ToneRules, ReducedToneRules;
    assert r[1..][1..] == q[1..][1..];
    assert FirstMatch(r[1..], text)
        == (if ContainsAny(text, ConfusedPatterns) then Confused else FirstMatch(r[1..][1..], text));
    assert FirstMatch(q[1..], text)
        == (if ContainsAny(text, ReducedConfusedPatterns) then Confused else FirstMatch(q[1..][1..], text));
  }

  // ---------------------------------------------------------------------------
  // analyzeSentiment
  // ---------------------------------------------------------------------------

  datatype Assessment = Assessment(sentiment: Sentiment, tone: Tone, confidence: int)

  /** `analyzeSentiment(message)`: both classifiers see `message.toLowerCase()`. */
  function AnalyzeSentiment(message: string): Assessment
  {
    var lower := Lower(message);
    var verdict := DecideSentiment(CountHits(PositiveWords, lower), CountHits(NegativeWords, lower));
    Assessment(verdict.sentiment, ClassifyTone(lower), verdict.confidence)
  }

  /** The sentiment and its confidence follow from the two distinct-hit counts
      alone: Positive/80 when more positive words occur, Negative/85 when more
      negative ones do, Neutral/70 on any tie. The initial 75 of the source is
      never returned. */
  lemma SentimentFromHitCounts(message: string)
    ensures var a, lower := AnalyzeSentiment(message), Lower(message);
      var pos, neg := |HitSet(PositiveWords, lower)|, |HitSet(NegativeWords, lower)|;
      && (a.sentiment == Positive <==> pos > neg)
      && (a.sentiment == Negative <==> neg > pos)
      && (a.sentiment == Neutral <==> pos == neg)
      && (a.confidence == 80 <==> a.sentiment == Positive)
      && (a.confidence == 85 <==> a.sentiment == Negative)
      && (a.confidence == 70 <==> a.sentiment == Neutral)
      && a.confidence != 75
  {
    LexiconsAreDistinct();
    CountHitsIsDistinctHits(PositiveWords, Lower(message));
    CountHitsIsDistinctHits(NegativeWords, Lower(message));
  }

  /** Tone by priority: a message containing any aggressive marker is Angry,
      whatever else it contains ("hate" together with "please" included); the
      later groups decide only when every earlier group is absent; Professional
      exactly when no group matches. */
  lemma TonePriority(message: string)
    ensures var t, lower := AnalyzeSentiment(message).tone, Lower(message);
      && (ContainsAny(lower, AggressivePatterns) ==> t == Angry)
      && (!ContainsAny(lower, AggressivePatterns) && ContainsAny(lower, ConfusedPatterns) ==> t == Confused)
      && ((!ContainsAny(lower, AggressivePatterns) && !ContainsAny(lower, ConfusedPatterns)
           && ContainsAny(lower, RudePatterns)) ==> t == Rude)
      && ((!ContainsAny(lower, AggressivePatterns) && !ContainsAny(lower, ConfusedPatterns)
           && !ContainsAny(lower, RudePatterns) && ContainsAny(lower, CalmPatterns)) ==> t == Calm)
      && (t == Professional <==> forall j :: 0 <= j < |ToneRules| ==> !ContainsAny(lower, ToneRules[j].patterns))
  {
    var lower := Lower(message);
    ClassifyToneIsFirstMatch(lower);
    FirstMatchDefault(ToneRules, lower);
  }

  /** "hate" beats "please": the aggressive group is checked before the calm one. */
  lemma HateOutranksPlease(message: string)
    requires Contains(Lower(message), "hate")
    requires Contains(Lower(message), "please")
    ensures AnalyzeSentiment(message).tone == Angry
  {
    assert AggressivePatterns[2] == "hate";
  }

  /** Analysis ignores letter case: a message and its lower-cased form get the
      same assessment. */
  lemma AnalysisIgnoresCase(message: string)
    ensures AnalyzeSentiment(Lower(message)) == AnalyzeSentiment(message)
  {
    LowerIdempotent(message);
  }
}
