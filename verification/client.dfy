/** The pure steps of the home page, app/page.tsx: the input guard, the
    defaulting of the analyze response, the bounded history, the mock rewrite
    table and the sentiment emoji. State updates, storage, timers, the
    clipboard and navigation are left out; each step is a function of what it
    reads. */
module HomePage {
  import opened Text
  import opened Optional
  import opened SentimentAnalysis
  import RewriteRoute
  import AnalyzeRoute

  // ---------------------------------------------------------------------------
  // History
  // ---------------------------------------------------------------------------

  function Min(a: int, b: int): int
  {
    if a <= b then a else b
  }

  /** `[result, ...history.slice(0, 9)]` (line 43). */
  function SaveToHistory<T>(result: T, history: seq<T>): (h: seq<T>)
    ensures |h| == Min(10, |history| + 1)
    ensures h[0] == result
    ensures h[1..] == history[..Min(9, |history|)]
    ensures |history| <= 9 ==> h[1..] == history
  {
    [result] + history[..Min(9, |history|)]
  }

  /** Saves in order: `results[0]` first. */
  function SaveAll<T>(results: seq<T>, history: seq<T>): seq<T>
    decreases |results|
  {
    if results == [] then history else SaveAll(results[1..], SaveToHistory(results[0], history))
  }

  function Reverse<T>(s: seq<T>): (r: seq<T>)
    ensures |r| == |s|
    ensures forall i :: 0 <= i < |s| ==> r[i] == s[|s| - 1 - i]
  {
    if s == [] then [] else Reverse(s[1..]) + [s[0]]
  }

  /** Two prefixes of the same sequence agree up to the shorter one. */
  lemma PrefixesAgree<T>(a: seq<T>, h: seq<T>, j: nat, k: nat)
    requires j <= |h| && k <= |a| + j
    ensures (a + h[..j])[..k] == (a + h)[..k]
  {
  }

  /** However many results are saved, the history holds the ten most recent
      ones, newest first, followed by what was there before while room
      remains. A history read from storage may be longer than ten; one save
      already cuts it down. */
  lemma {:induction false} SaveAllKeepsTenNewest<T>(results: seq<T>, history: seq<T>)
    requires |results| > 0 || |history| <= 10
    ensures SaveAll(results, history) == (Reverse(results) + history)[..Min(10, |results| + |history|)]
    decreases |results|
  {
    if results == [] {
      assert Reverse(results) + history == history;
    } else {
      var h' := SaveToHistory(results[0], history);
      SaveAllKeepsTenNewest(results[1..], h');
      var a := Reverse(results[1..]) + [results[0]];
      assert Reverse(results) == a;
      assert Reverse(results[1..]) + h' == a + history[..Min(9, |history|)];
      PrefixesAgree(a, history, Min(9, |history|), Min(10, |results| + |history|));
    }
  }

  // ---------------------------------------------------------------------------
  // The analyze response and its defaults
  // ---------------------------------------------------------------------------

  /** The JSON the page reads back; a property may be absent. */
  datatype ServerData = ServerData(
    sentiment: Option<string>,
    sentimentScore: Option<real>,
    tone: Option<string>,
    toneBreakdown: Option<map<string, int>>,
    emotions: Option<map<string, int>>,
    language: Option<string>,
    confidenceScore: Option<int>,
    conflictTriggers: Option<seq<string>>,
    professionalReply: Option<string>)

  /** The `AnalysisResult` record the page stores: the spread properties stay
      possibly absent, the defaulted ones are always present. */
  datatype ClientResult = ClientResult(
    sentiment: Option<string>,
    sentimentScore: real,
    confidenceScore: Option<int>,
    tone: Option<string>,
    toneBreakdown: map<string, int>,
    emotions: map<string, int>,
    language: string,
    professionalReply: Option<string>,
    originalMessage: string,
    conflictTriggers: seq<string>)

  /** The score recomputed from the sentiment label (line 119). */
  function ScoreFromLabel(sentiment: Option<string>): real
  {
    if sentiment == Some("Positive") then 0.7
    else if sentiment == Some("Negative") then -0.7
    else 0.0
  }

  /** The `analysisResult` literal (lines 116-124). `x || d` keeps `x` unless
      it is absent or falsy: a score of 0 and an empty language string are
      falsy, a map or list never is. An absent tone makes the default
      breakdown's computed key the string "undefined". */
  function ApplyDefaults(data: ServerData, message: string): (c: ClientResult)
    ensures c.originalMessage == message
    ensures c.sentiment == data.sentiment && c.tone == data.tone
    ensures c.confidenceScore == data.confidenceScore && c.professionalReply == data.professionalReply
    ensures data.sentimentScore.Some? && data.sentimentScore.value != 0.0 ==> c.sentimentScore == data.sentimentScore.value
    ensures data.sentimentScore.None? || data.sentimentScore.value == 0.0 ==>
      (c.sentimentScore == 0.7 <==> data.sentiment == Some("Positive"))
      && (c.sentimentScore == -0.7 <==> data.sentiment == Some("Negative"))
      && (c.sentimentScore == 0.0 <==> data.sentiment != Some("Positive") && data.sentiment != Some("Negative"))
    ensures c.language != []
    ensures data.language.Some? && data.language.value != [] ==> c.language == data.language.value
    ensures data.language.None? || data.language.value == [] ==> c.language == "English"
    ensures data.toneBreakdown.Some? ==> c.toneBreakdown == data.toneBreakdown.value
    ensures data.toneBreakdown.None? ==>
      && c.toneBreakdown.Keys == {data.tone.GetOr("undefined"), "Neutral"}
      && c.toneBreakdown["Neutral"] == 15
      && (data.tone != Some("Neutral") ==> c.toneBreakdown[data.tone.GetOr("undefined")] == 85 && |c.toneBreakdown| == 2)
      && (data.tone == Some("Neutral") ==> |c.toneBreakdown| == 1)
    ensures data.emotions.Some? ==> c.emotions == data.emotions.value
    ensures data.emotions.None? ==>
      && c.emotions.Keys == {"Calm", "Confident", "Happy"}
      && c.emotions["Calm"] == 60 && c.emotions["Confident"] == 30 && c.emotions["Happy"] == 10
    ensures data.conflictTriggers.Some? ==> c.conflictTriggers == data.conflictTriggers.value
    ensures data.conflictTriggers.None? ==> c.conflictTriggers == []
  {
    ClientResult(
      data.sentiment,
      if data.sentimentScore.Some? && data.sentimentScore.value != 0.0 then data.sentimentScore.value
      else ScoreFromLabel(data.sentiment),
      data.confidenceScore,
      data.tone,
      if data.toneBreakdown.Some? then data.toneBreakdown.value
      else map[data.tone.GetOr("undefined") := 85]["Neutral" := 15],
      if data.emotions.Some? then data.emotions.value else map["Calm" := 60, "Confident" := 30, "Happy" := 10],
      if data.language.Some? && data.language.value != [] then data.language.value else "English",
      data.professionalReply,
      message,
      if data.conflictTriggers.Some? then data.conflictTriggers.value else [])
  }

  /** The JSON the analyze route sends for an analysis record. */
  function ServerDataOf(r: AnalyzeRoute.AnalysisResult): ServerData
  {
    ServerData(Some(r.sentiment), Some(r.sentimentScore), Some(r.tone), Some(r.toneBreakdown),
      Some(r.emotions), Some(r.language), Some(r.confidenceScore), Some(r.conflictTriggers),
      Some(r.professionalReply))
  }

  /** On anything the analyze route produces the defaults change nothing: a
      score of 0 comes only with Neutral, whose recomputed score is 0 too, and
      the language is never empty. Only `originalMessage` is added. */
  lemma DefaultsKeepServerFields(message: string, typed: string)
    ensures var r := AnalyzeRoute.Analyze(message);
      var c := ApplyDefaults(ServerDataOf(r), typed);
      && c.sentiment == Some(r.sentiment) && c.sentimentScore == r.sentimentScore
      && c.confidenceScore == Some(r.confidenceScore) && c.tone == Some(r.tone)
      && c.toneBreakdown == r.toneBreakdown && c.emotions == r.emotions
      && c.language == r.language && c.professionalReply == Some(r.professionalReply)
      && c.conflictTriggers == r.conflictTriggers && c.originalMessage == typed
  {
    var a := AnalyzeSentiment(message);
    assert AnalyzeRoute.SentimentScore(a.sentiment) == 0.0 ==> a.sentiment == Neutral;
  }

  // ---------------------------------------------------------------------------
  // handleAnalyze
  // ---------------------------------------------------------------------------

  const EmptyMessageError := "Please enter a message to analyze"
  const AnalysisFailedError := "Analysis failed"

  /** What `fetch('/api/analyze')` came back with. */
  datatype FetchResult = NotOk | Ok(data: ServerData)

  /** The outcome of pressing Analyze: stopped by the guard before any
      request, failed, or a stored result. */
  datatype Submission = Blocked(error: string) | Failed(error: string) | Loaded(result: ClientResult)

  /** `handleAnalyze` (lines 97-124) with the response as a parameter, read
      only when the guard lets the message through. */
  function Submit(message: string, response: FetchResult): (s: Submission)
    ensures s.Blocked? <==> IsBlank(message)
    ensures s.Blocked? ==> s.error == EmptyMessageError
    ensures s.Failed? <==> !IsBlank(message) && response.NotOk?
    ensures s.Failed? ==> s.error == AnalysisFailedError
    ensures s.Loaded? ==> s.result == ApplyDefaults(response.data, message)
  {
    if Trim(message) == [] then Blocked(EmptyMessageError)
    else match response
      case NotOk => Failed(AnalysisFailedError)
      case Ok(data) => Loaded(ApplyDefaults(data, message))
  }

  /** The analyze route answering the page's request `{ message }`. */
  function Fetch(message: string): FetchResult
  {
    match AnalyzeRoute.Post(AnalyzeRoute.Value(AnalyzeRoute.Str(message)))
    case Analysis(r) => Ok(ServerDataOf(r))
    case Failure(_, _) => NotOk
  }

  /** Page and route apply the same blank test, so a message the page sends is
      never refused: it is blocked exactly when blank and otherwise loads the
      route's analysis unchanged. */
  lemma SubmitAgainstRoute(message: string)
    ensures var s := Submit(message, Fetch(message));
      && (s.Blocked? <==> IsBlank(message))
      && (!s.Blocked? ==> s.Loaded?)
      && (s.Loaded? ==> s.result == ApplyDefaults(ServerDataOf(AnalyzeRoute.Analyze(message)), message))
  {
  }

  // ---------------------------------------------------------------------------
  // The mock rewrite
  // ---------------------------------------------------------------------------

  /** The strings of the page's own `rewrittenReplies` (lines 70-74). */
  const FormalMock := "I appreciate your message and would like to provide a formal response to address your concerns."
  const FriendlyMock := "Thanks for reaching out! I'd love to help you with this."
  const CalmMock := "I understand your perspective and would like to discuss this calmly."
  const AssertiveMock := "I want to be clear about my position on this matter."
  const ApologeticMock := "I sincerely apologize for any inconvenience this may have caused."

  function MockReply(m: RewriteRoute.Mode): string
  {
    match m
    case Formal => FormalMock
    case Friendly => FriendlyMock
    case Calm => CalmMock
    case Assertive => AssertiveMock
    case Apologetic => ApologeticMock
  }

  lemma MockReplyNonEmpty(m: RewriteRoute.Mode)
    ensures MockReply(m) != []
  {
    match m
    case Formal => assert |FormalMock| == 95;
    case Friendly => assert |FriendlyMock| == 56;
    case Calm => assert |CalmMock| == 68;
    case Assertive => assert |AssertiveMock| == 52;
    case Apologetic => assert |ApologeticMock| == 65;
  }

  /** What `rewriteReply(mode)` does to the editable reply. */
  datatype RewriteEffect = Unchanged | SetReply(reply: Option<string>)

  /** `rewriteReply(mode)` (lines 62-80): nothing without results; otherwise
      the mode's string, or the stored professional reply for any other mode. */
  function MockRewrite(results: Option<ClientResult>, mode: string): RewriteEffect
  {
    if results.None? then Unchanged
    else
      var found := RewriteRoute.ModeOf(mode);
      if found.Some? && MockReply(found.value) != [] then SetReply(Some(MockReply(found.value)))
      else SetReply(results.value.professionalReply)
  }

  /** Without results the mock rewrite does nothing; with results a known
      mode sets its own string, whatever the results hold, and any other mode
      restores the professional reply. */
  lemma MockRewriteCases(results: Option<ClientResult>, mode: string)
    ensures MockRewrite(results, mode).Unchanged? <==> results.None?
    ensures results.Some? && RewriteRoute.ModeOf(mode).Some? ==>
      MockRewrite(results, mode) == SetReply(Some(MockReply(RewriteRoute.ModeOf(mode).value)))
    ensures results.Some? && RewriteRoute.ModeOf(mode).None? ==>
      MockRewrite(results, mode) == SetReply(results.value.professionalReply)
  {
    if results.Some? && RewriteRoute.ModeOf(mode).Some? {
      MockReplyNonEmpty(RewriteRoute.ModeOf(mode).value);
    }
  }

  // ---------------------------------------------------------------------------
  // getSentimentEmoji
  // ---------------------------------------------------------------------------

  const Smile := "\U{1F60A}"
  const Pout := "\U{1F621}"
  const NeutralFace := "\U{1F610}"

  /** `getSentimentEmoji(sentiment)` (lines 48-54). */
  function SentimentEmoji(sentiment: string): string
  {
    var key := Lower(sentiment);
    if key == "positive" then Smile else if key == "negative" then Pout else NeutralFace
  }

  /** The emoji ignores letter case: "positive" and "negative" in any case get
      their own faces, every other string the neutral one, and each label the
      route produces gets its own face. */
  lemma SentimentEmojiCases(sentiment: string)
    ensures SentimentEmoji(Lower(sentiment)) == SentimentEmoji(sentiment)
    ensures SentimentEmoji(sentiment) == Smile <==> Lower(sentiment) == "positive"
    ensures SentimentEmoji(sentiment) == Pout <==> Lower(sentiment) == "negative"
    ensures SentimentEmoji(sentiment) == NeutralFace <==> Lower(sentiment) != "positive" && Lower(sentiment) != "negative"
    ensures SentimentEmoji(SentimentName(Positive)) == Smile
    ensures SentimentEmoji(SentimentName(Negative)) == Pout
    ensures SentimentEmoji(SentimentName(Neutral)) == NeutralFace
  {
    LowerIdempotent(sentiment);
    assert Lower("Positive") == "positive";
    assert Lower("Negative") == "negative";
    assert Lower("Neutral") != "positive" && Lower("Neutral") != "negative";
  }
}
