# Sentiment and tone analyser — a Dafny model

This project models the deterministic core of a Next.js message analyser.
Its `/api/analyze` route lower-cases a message and does four things:

- counts lexicon hits to decide the sentiment and a confidence;
- picks a tone by the first pattern group that occurs;
- extracts exactly two "conflict trigger" phrases;
- composes a canned professional reply, then replaces the words
  "aggressive", "negative" and "hostile" with "firm".

Its `/api/rewrite` route maps one of five rewrite modes to a fixed paragraph.
Every other mode gets the caller's current reply back. The home page adds
several pure steps:

- a guard against blank input;
- defaults for the analyze response;
- a history of the ten most recent results;
- its own mock rewrite table;
- a sentiment emoji.

Modules, one per file:

- `Text` (text.dfy): ASCII lower-casing, `trim` with the JavaScript whitespace
  set, substring containment as a recursive scan proved equal to the
  index-based reading, and a trigram certificate for absence.
- `SentimentAnalysis` (sentiment.dfy): `analyzeSentiment`, the lexicons, the
  count decision, and the tone chain, which is shown equal to a first-match
  scan over a rule table.
- `ConflictTriggers` (triggers.dfy): `extractConflictTriggers`, shown equal to
  a filter of the condition table, followed by the normalisation to two.
- `ReplyGenerator` (reply.dfy): `generateProfessionalReply`, with the
  `/aggressive|negative|hostile/gi` replacement as a left-to-right scan.
- `AnalyzeRoute` (analyze.dfy): validation and the response record of `POST`.
- `RewriteRoute` (rewrite.dfy): the rewrite table and its `|| currentReply`
  fallback.
- `HomePage` (client.dfy): the pure steps of app/page.tsx.
- `Optional` (optional.dfy): the `Option` type.

The model follows the code where the code and its description differ:

- `toneBreakdown` has only two keys when the tone is Professional. The literal
  `'Professional'` key then overwrites the computed one.
- The two triggers come from a vocabulary of seven phrases: the four condition
  phrases, the fixed pair and the filler.

## Model

| member | source | states |
|---|---|---|
| Text.Lower | app/api/analyze/route.ts:6 | `toLowerCase` keeps the length and folds each character on its own (ASCII letters only) |
| Text.Trim | app/api/analyze/route.ts:150 | `trim()` is empty exactly when the text is all whitespace; otherwise the result is the slice starting after the leading whitespace, its ends are not whitespace, and only whitespace lies around it |
| Text.ContainsIffOccurs | app/api/analyze/route.ts:46 | `includes` as a scan holds exactly when the pattern occurs at some index |
| Text.ContainsPrefixOfPattern | app/api/analyze/route.ts:41 | text that contains a pattern also contains every prefix of it |
| SentimentAnalysis.CountHits | app/api/analyze/route.ts:46-47 | the filter count never exceeds the lexicon size |
| SentimentAnalysis.CountHitsIsDistinctHits | app/api/analyze/route.ts:46-47 | on a duplicate-free lexicon the count is the number of distinct words that occur, not the number of occurrences |
| SentimentAnalysis.LexiconsAreDistinct | app/api/analyze/route.ts:14-37 | both sentiment lexicons list each word once |
| SentimentAnalysis.DecideSentiment | app/api/analyze/route.ts:49-58 | Positive exactly when pos > neg, Negative exactly when neg > pos, Neutral exactly on a tie (0-0 included); confidence in {70, 80, 85} |
| SentimentAnalysis.ConfidenceTracksSentiment | app/api/analyze/route.ts:49-58 | equal confidences come exactly from equal sentiments |
| SentimentAnalysis.SentimentFromHitCounts | app/api/analyze/route.ts:46-58 | sentiment is decided by the distinct-hit counts alone; confidence is 80/85/70 exactly for Positive/Negative/Neutral and never the initial 75 |
| SentimentAnalysis.ClassifyToneIsFirstMatch | app/api/analyze/route.ts:61-71 | the if / else-if chain is the first-match scan over the four ordered rules |
| SentimentAnalysis.FirstMatchPicksFirst | app/api/analyze/route.ts:61-71 | a matching rule decides the tone when no earlier rule matches, whatever later rules say |
| SentimentAnalysis.FirstMatchDefault | app/api/analyze/route.ts:69-71 | Professional exactly when no rule matches |
| SentimentAnalysis.TonePriority | app/api/analyze/route.ts:61-71 | Aggressive > Confused > Rude > Calm on the lower-cased message; Professional exactly when no group occurs |
| SentimentAnalysis.HateOutranksPlease | app/api/analyze/route.ts:40-43 | a message containing both "hate" and "please" is Angry |
| SentimentAnalysis.AggressiveDuplicateIsHarmless | app/api/analyze/route.ts:40 | the second `'!!!'` does not change what the aggressive group matches |
| SentimentAnalysis.ConfusedSubsumedAreHarmless | app/api/analyze/route.ts:41 | `'??'` and `'???'` do not change what the confused group matches |
| SentimentAnalysis.RedundantPatternsAreHarmless | app/api/analyze/route.ts:40-71 | the tone is the same with the redundant entries removed |
| SentimentAnalysis.AnalysisIgnoresCase | app/api/analyze/route.ts:6 | a message and its lower-cased form get the same assessment |
| ConflictTriggers.PushCollects | app/api/analyze/route.ts:82-104 | each `if` block keeps the collected phrases ordered, each backed by its condition, and complete for the blocks so far |
| ConflictTriggers.Collected | app/api/analyze/route.ts:82-104 | at most four phrases, in condition order, exactly those of the conditions that hold |
| ConflictTriggers.CollectedIsFilter | app/api/analyze/route.ts:82-104 | the four blocks equal a filter over the condition table |
| ConflictTriggers.NormalizeOrdered | app/api/analyze/route.ts:107-116 | normalising gives two distinct vocabulary phrases: the fixed pair for none, phrase plus filler for one, the first two otherwise |
| ConflictTriggers.ExtractConflictTriggers | app/api/analyze/route.ts:76-117 | always two distinct phrases from the seven; the 0/1/2+ cases; a condition phrase only when its condition holds; never one after a later condition's phrase |
| ConflictTriggers.FirstHoldingConditionLeads | app/api/analyze/route.ts:82-116 | the first holding condition's phrase is always the first trigger |
| ReplyGenerator.PatternAt | app/api/analyze/route.ts:141 | the alternative matched at the scan position, tried in order; none exactly when no alternative starts there, in any case |
| ReplyGenerator.Sanitize | app/api/analyze/route.ts:141 | the global replacement never lengthens the text |
| ReplyGenerator.SanitizeEmpty | app/api/analyze/route.ts:141 | the empty text is left empty |
| ReplyGenerator.PatternAtIsTheMatch | app/api/analyze/route.ts:141 | the alternatives begin with different letters, so a matching alternative is the one the scan reports |
| ReplyGenerator.SanitizeReplacesMatch | app/api/analyze/route.ts:141 | a match in any letter case becomes "firm", and the scan resumes right after it |
| ReplyGenerator.SanitizeCopies | app/api/analyze/route.ts:141 | a character where no alternative starts is kept as it is, and the scan moves on by one |
| ReplyGenerator.SanitizeCopiesOtherLetter | app/api/analyze/route.ts:141 | a character that starts none of the alternatives, in any case, is always kept |
| ReplyGenerator.SanitizeInsideWord | app/api/analyze/route.ts:141 | the replacement works inside words: "NEGATIVEly" becomes "firmly" |
| ReplyGenerator.SanitizeLeavesNoPattern | app/api/analyze/route.ts:141 | after the replacement no alternative occurs, in any letter case |
| ReplyGenerator.SanitizeIdentity | app/api/analyze/route.ts:141 | text holding no alternative is returned unchanged |
| ReplyGenerator.SanitizeFixedIffClean | app/api/analyze/route.ts:141 | the replacement changes nothing exactly when there is nothing to replace |
| ReplyGenerator.SanitizeIdempotent | app/api/analyze/route.ts:141 | replacing twice is replacing once |
| ReplyGenerator.GenerateReply | app/api/analyze/route.ts:119-144 | for any sentiment, tone and message the reply holds none of the three words |
| ReplyGenerator.TemplatesTame | app/api/analyze/route.ts:123-130 | no tone template holds the start of an alternative |
| ReplyGenerator.SuffixedTame | app/api/analyze/route.ts:134-138 | neither sentiment suffix brings in the start of an alternative |
| ReplyGenerator.BaseTemplateUnreachable | app/api/analyze/route.ts:120-138 | every tone the classifier yields has a non-empty entry, so `baseTemplate` is never used; the sentiment names select the suffixes |
| ReplyGenerator.ReplyForTone | app/api/analyze/route.ts:119-141 | for every sentiment and tone the reply is the tone's template plus the sentiment's suffix (nothing for Neutral), whatever the message; the replacement is a no-op there |
| AnalyzeRoute.SentimentScore | app/api/analyze/route.ts:160 | 0.7, -0.7 or 0, its sign telling the sentiment |
| AnalyzeRoute.Post | app/api/analyze/route.ts:146-185 | 500 "Failed to analyze message" exactly for an unreadable or `null` body; 400 "Invalid message" exactly for an absent, non-string or blank message; the analysis record otherwise |
| AnalyzeRoute.ValidationIffNotBlank | app/api/analyze/route.ts:150-152 | a message is analysed exactly when it is a string with a non-whitespace character |
| AnalyzeRoute.ToneBreakdownKeys | app/api/analyze/route.ts:162-166 | three keys {tone: 75, Professional: 15, Neutral: 10} unless the tone is Professional; then two, {Professional: 85, Neutral: 10} |
| AnalyzeRoute.EmotionKeys | app/api/analyze/route.ts:167-172 | exactly the keys Calm, Confident, Happy and Frustrated, each value fixed by its own tone or sentiment test |
| AnalyzeRoute.AnalysisShape | app/api/analyze/route.ts:154-177 | language "English", the score fixed by the sentiment, confidence in {70, 80, 85}, two distinct triggers, the reply made of template and suffix |
| RewriteRoute.ModeOf | app/api/rewrite/route.ts:16 | lookup by exact key: a found mode has that key, and no mode has the key when nothing is found |
| RewriteRoute.ModeKeyRoundTrip | app/api/rewrite/route.ts:8-16 | keys and modes correspond one to one |
| RewriteRoute.Post | app/api/rewrite/route.ts:3-26 | 500 "Failed to rewrite reply" exactly for an unreadable or `null` body; otherwise the table choice |
| RewriteRoute.ParagraphHasLength | app/api/rewrite/route.ts:9-13 | each paragraph has its own length |
| RewriteRoute.ParagraphsDistinct | app/api/rewrite/route.ts:8-16 | the five paragraphs are non-empty and pairwise distinct |
| RewriteRoute.RecognisedModeIsFixed | app/api/rewrite/route.ts:5-16 | a recognised mode yields its paragraph, whatever `originalMessage` and `currentReply` are |
| RewriteRoute.OtherModePassesThrough | app/api/rewrite/route.ts:16 | an absent or unknown mode returns `currentReply` verbatim |
| RewriteRoute.CapitalisedModeIsUnknown | app/api/rewrite/route.ts:16 | matching is case-sensitive: "Formal" is not a mode |
| HomePage.SaveToHistory | app/page.tsx:43 | the new result first, then the first min(9, n) old entries in order; never more than ten entries; nothing dropped from at most nine |
| HomePage.SaveAllKeepsTenNewest | app/page.tsx:42-46 | after any sequence of saves the history is the ten most recent results, newest first, then the older entries while room remains |
| HomePage.ApplyDefaults | app/page.tsx:116-124 | sets `originalMessage` to the typed text and copies the spread fields. It keeps a non-zero score, a non-empty language and any breakdown, emotions or triggers that are present. Otherwise: the score is 0.7 for "Positive", -0.7 for "Negative" and 0 for any other label; the language is "English"; the breakdown maps the tone (or "undefined") to 85 and "Neutral" to 15, leaving the single key "Neutral" when the tone is "Neutral"; the emotions are Calm 60, Confident 30, Happy 10; the triggers are empty |
| HomePage.DefaultsKeepServerFields | app/page.tsx:116-124 | on any analyze-route record the defaults change no field, a zero score coming only with Neutral |
| HomePage.Submit | app/page.tsx:97-124 | blocked with "Please enter a message to analyze" exactly for blank input, before any response is read; "Analysis failed" for a non-ok response |
| HomePage.SubmitAgainstRoute | app/page.tsx:98-124 | against the analyze route, a message the page sends is never refused and loads the route's record |
| HomePage.MockReplyNonEmpty | app/page.tsx:69-75 | no mock rewrite string is empty |
| HomePage.MockRewriteCases | app/page.tsx:62-80 | nothing happens without results; a known mode sets its string whatever the results hold; any other mode restores `professionalReply` |
| HomePage.SentimentEmojiCases | app/page.tsx:48-54 | the emoji ignores letter case. It is 😊 exactly for "positive" and 😡 exactly for "negative", in any case, and 😐 for every other string. Positive, Negative and Neutral each get their own face |

## Left out

- Rendering, routing, the theme toggle, the key handler, and the
  loading and copied flags are left out. app/results/page.tsx and
  components/AnalysisResults.tsx are not part of this model: they only
  display the record.
- Browser and framework effects become parameters or are omitted: `fetch`,
  `request.json()`, `NextResponse`, `localStorage`, `setTimeout`, the
  clipboard and navigation.
  - A parsed request body is a datatype.
  - The stored history is just the history argument.
  - The one-second delay of the mock rewrite is not modelled.
  - The `console.error` logging is omitted. It occurs in the analyze route's
    catch block, in the rewrite route's catch block and in the page's analyze
    handler.
- `response.json()` failing on the page, and so the runtime's own error text,
  is not modelled. Neither is a thrown value that is not an `Error`.
- A `fetch` that rejects (a network failure) is not modelled. The page would
  show the runtime's own message instead of "Analysis failed", and
  `FetchResult` only tells an ok response from a non-ok one.
- Lower-casing is ASCII-only. JavaScript also folds non-ASCII capitals. The
  Kelvin sign, for one, lower-cases to `k`, which matters for "kindly". The
  emoji keys "positive" and "negative" hold no letter that a non-ASCII
  capital folds to.
- The replacement's `i` flag without `u` compares upper-cased characters. It
  never equates a non-ASCII character with an ASCII one, so for these ASCII
  words it coincides with the ASCII folding used here. The regular-expression
  engine itself is modelled as a left-to-right, non-overlapping scan.
- Property lookups see only own keys. A mode or tone such as "toString" hits
  an inherited property in JavaScript. This affects the rewrite table, the
  page's mock table and `toneReplies`.
- Non-string JSON values of `mode` and `currentReply` are left out. So is the
  conversion of a mode to a property key.
- Numbers are exact `real` literals, not floating point. So a NaN score is
  not modelled.
- Maps are unordered, so the key order of the JSON objects is not modelled.
