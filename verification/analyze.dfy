/** The `POST` handler of app/api/analyze/route.ts: validate the `message`
    field, run the classifiers, and assemble the result record. Parsing the
    body and writing the JSON reply are left to the framework; the request is
    what parsing produced and the response is a datatype. */
module AnalyzeRoute {
  import opened Text
  import opened SentimentAnalysis
  import opened ConflictTriggers
  import opened ReplyGenerator

  /** The `message` property of the parsed body. */
  datatype Field = Missing | NotAString | Str(text: string)

  /** What `request.json()` gave: a body that is not JSON, the JSON value
      `null` (destructuring it throws), or any other JSON value, with its
      `message` property (`Missing` for non-objects). */
  datatype Body = Unparsable | Null | Value(message: Field)

  /** The analysis record of lines 158-177. */
  datatype AnalysisResult = AnalysisResult(
    sentiment: string,
    sentimentScore: real,
    tone: string,
    toneBreakdown: map<string, int>,
    emotions: map<string, int>,
    language: string,
    confidenceScore: int,
    conflictTriggers: seq<string>,
    professionalReply: string)

  datatype Response =
    | Analysis(result: AnalysisResult)
    | Failure(status: int, error: string)

  const InvalidMessage := "Invalid message"
  const AnalysisFailed := "Failed to analyze message"

  /** The guard at line 150: a string that is not blank after `trim()`. The
      empty string is falsy and blank, so one test covers both. */
  predicate Acceptable(f: Field)
  {
    f.Str? && Trim(f.text) != []
  }

  /** `sentimentScore` (line 160). */
  function SentimentScore(s: Sentiment): (score: real)
    ensures score > 0.0 <==> s == Positive
    ensures score < 0.0 <==> s == Negative
    ensures score == 0.0 <==> s == Neutral
    ensures score == 0.7 || score == -0.7 || score == 0.0
  {
    match s
    case Positive => 0.7
    case Negative => -0.7
    case Neutral => 0.0
  }

  /** `toneBreakdown` (lines 162-166): the computed key first, then the two
      literal keys, a later key overwriting an earlier one of the same name. */
  function ToneBreakdown(t: Tone): map<string, int>
  {
    map[ToneName(t) := 75]["Professional" := (if t != Professional then 15 else 85)]["Neutral" := 10]
  }

  /** `emotions` (lines 167-172). */
  function Emotions(t: Tone, s: Sentiment): map<string, int>
  {
    map[
      "Calm" := (if t == Calm then 80 else 40),
      "Confident" := (if t == Professional then 70 else 30),
      "Happy" := (if s == Positive then 60 else 20),
      "Frustrated" := (if t == Angry then 70 else 10)
    ]
  }

  /** The record for an accepted message (lines 154-177). */
  function Analyze(message: string): AnalysisResult
  {
    var a := AnalyzeSentiment(message);
    AnalysisResult(
      SentimentName(a.sentiment),
      SentimentScore(a.sentiment),
      ToneName(a.tone),
      ToneBreakdown(a.tone),
      Emotions(a.tone, a.sentiment),
      "English",
      a.confidence,
      ExtractConflictTriggers(message),
      GenerateReply(SentimentName(a.sentiment), ToneName(a.tone), message))
  }

  /** `POST(request)`: 500 when the body cannot be read, 400 when the message
      is absent, not a string, or blank, the analysis record otherwise. */
  function Post(body: Body): (r: Response)
    ensures r.Failure? && r.status == 500 <==> body.Unparsable? || body.Null?
    ensures r.Failure? && r.status == 400 <==> body.Value? && !Acceptable(body.message)
    ensures r.Failure? ==> r.status in {400, 500}
    ensures r.Failure? && r.status == 400 ==> r.error == InvalidMessage
    ensures r.Failure? && r.status == 500 ==> r.error == AnalysisFailed
    ensures r.Analysis? <==> body.Value? && Acceptable(body.message)
    ensures r.Analysis? ==> r.result == Analyze(body.message.text)
  {
    match body
    case Unparsable => Failure(500, AnalysisFailed)
    case Null => Failure(500, AnalysisFailed)
    case Value(message) =>
      if !Acceptable(message) then Failure(400, InvalidMessage)
      else Analysis(Analyze(message.text))
  }

  /** A message is analysed exactly when it is a string with a non-whitespace
      character; absent, non-string and whitespace-only messages get 400. */
  lemma ValidationIffNotBlank(f: Field)
    ensures Post(Value(f)).Analysis? <==> f.Str? && !IsBlank(f.text)
    ensures Post(Value(f)) == Failure(400, InvalidMessage) <==> f.Missing? || f.NotAString? || (f.Str? && IsBlank(f.text))
  {
  }

  /** `toneBreakdown` has three keys when the tone is not Professional and two
      when it is: the literal "Professional" key then overwrites the computed
      one. */
  lemma ToneBreakdownKeys(t: Tone)
    ensures var b := ToneBreakdown(t);
      && (t != Professional ==> b.Keys == {ToneName(t), "Professional", "Neutral"} && |b.Keys| == 3)
      && (t != Professional ==> b[ToneName(t)] == 75 && b["Professional"] == 15 && b["Neutral"] == 10)
      && (t == Professional ==> b.Keys == {"Professional", "Neutral"} && |b.Keys| == 2)
      && (t == Professional ==> b["Professional"] == 85 && b["Neutral"] == 10)
  {
    if t != Professional {
      assert ToneName(t) != "Professional" && ToneName(t) != "Neutral";
    }
  }

  /** `emotions` always has the same four keys; each value is chosen by its
      own test on the tone or the sentiment. */
  lemma EmotionKeys(t: Tone, s: Sentiment)
    ensures var e := Emotions(t, s);
      && e.Keys == {"Calm", "Confident", "Happy", "Frustrated"} && |e.Keys| == 4
      && (e["Calm"] == 80 <==> t == Calm) && (e["Calm"] == 40 <==> t != Calm)
      && (e["Confident"] == 70 <==> t == Professional) && (e["Confident"] == 30 <==> t != Professional)
      && (e["Happy"] == 60 <==> s == Positive) && (e["Happy"] == 20 <==> s != Positive)
      && (e["Frustrated"] == 70 <==> t == Angry) && (e["Frustrated"] == 10 <==> t != Angry)
  {
  }

  /** Every analysis record agrees with the classifiers: English, a score
      fixed by the sentiment, two distinct triggers, and the reply made of the
      tone's template and the sentiment's suffix alone. */
  lemma AnalysisShape(message: string)
    ensures var r, a := Analyze(message), AnalyzeSentiment(message);
      && r.language == "English"
      && r.sentiment == SentimentName(a.sentiment) && r.tone == ToneName(a.tone)
      && r.sentimentScore == SentimentScore(a.sentiment)
      && r.confidenceScore in {70, 80, 85}
      && |r.conflictTriggers| == 2 && r.conflictTriggers[0] != r.conflictTriggers[1]
      && r.professionalReply == TemplateFor(a.tone) + SuffixFor(a.sentiment)
  {
    var a := AnalyzeSentiment(message);
    SentimentFromHitCounts(message);
    ReplyForTone(a.sentiment, a.tone, message);
  }
}
