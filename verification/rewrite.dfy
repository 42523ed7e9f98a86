/** The `POST` handler of app/api/rewrite/route.ts: a fixed paragraph per
    rewrite mode, and the caller's current reply for any other mode. */
module RewriteRoute {
  import opened Optional

  /** The five own keys of `rewrittenReplies`. */
  datatype Mode = Formal | Friendly | Calm | Assertive | Apologetic

  /** The key a mode is looked up under. */
  function ModeKey(m: Mode): string
  {
    match m
    case Formal => "formal"
    case Friendly => "friendly"
    case Calm => "calm"
    case Assertive => "assertive"
    case Apologetic => "apologetic"
  }

  /** Property lookup by an exact, case-sensitive key: the mode whose key is
      `key`, if any. */
  function ModeOf(key: string): (r: Option<Mode>)
    ensures r.Some? ==> ModeKey(r.value) == key
    ensures r.None? ==> forall m: Mode :: ModeKey(m) != key
  {
    if key == "formal" then Some(Formal)
    else if key == "friendly" then Some(Friendly)
    else if key == "calm" then Some(Calm)
    else if key == "assertive" then Some(Assertive)
    else if key == "apologetic" then Some(Apologetic)
    else None
  }

  /** The paragraphs stored under the five keys (lines 9-13). */
  const FormalParagraph := "I appreciate your message and would like to provide a formal response. After careful consideration of your points, I believe we can address this matter professionally and efficiently."
  const FriendlyParagraph := "Thanks for reaching out! I really appreciate you taking the time to share your thoughts. I'd love to help you with this and find a great solution together."
  const CalmParagraph := "I understand your perspective and would like to discuss this calmly. Let's work together to find a peaceful resolution that works for everyone involved."
  const AssertiveParagraph := "I want to be clear about my position on this matter. While I respect your viewpoint, I believe it's important to establish clear boundaries and expectations moving forward."
  const ApologeticParagraph := "I sincerely apologize for any inconvenience this may have caused. I take full responsibility and want to make things right. Please let me know how I can better address your concerns."

  function Paragraph(m: Mode): string
  {
    match m
    case Formal => FormalParagraph
    case Friendly => FriendlyParagraph
    case Calm => CalmParagraph
    case Assertive => AssertiveParagraph
    case Apologetic => ApologeticParagraph
  }

  /** What `request.json()` gave: not JSON, the value `null` (destructuring it
      throws), or a value with its three string properties, each possibly
      absent. */
  datatype Body =
    | Unparsable
    | Null
    | Value(originalMessage: Option<string>, mode: Option<string>, currentReply: Option<string>)

  /** `{ rewrittenReply }`, where an absent value leaves the key out of the
      JSON, or the 500 error. */
  datatype Response = Rewritten(rewrittenReply: Option<string>) | Failure(status: int, error: string)

  const RewriteFailed := "Failed to rewrite reply"

  /** `rewrittenReplies[mode] || currentReply`: a found paragraph unless it is
      empty, the current reply otherwise. */
  function Choose(mode: Option<string>, currentReply: Option<string>): Option<string>
  {
    var found := if mode.Some? then ModeOf(mode.value) else None;
    if found.Some? && Paragraph(found.value) != [] then Some(Paragraph(found.value))
    else currentReply
  }

  /** `POST(request)`. */
  function Post(body: Body): (r: Response)
    ensures r.Failure? <==> body.Unparsable? || body.Null?
    ensures r.Failure? ==> r.status == 500 && r.error == RewriteFailed
    ensures r.Rewritten? ==> r.rewrittenReply == Choose(body.mode, body.currentReply)
  {
    match body
    case Unparsable => Failure(500, RewriteFailed)
    case Null => Failure(500, RewriteFailed)
    case Value(_, mode, currentReply) => Rewritten(Choose(mode, currentReply))
  }

  /** Keys and modes correspond one to one. */
  lemma ModeKeyRoundTrip(m: Mode, key: string)
    ensures ModeOf(ModeKey(m)) == Some(m)
    ensures ModeOf(key) == Some(m) <==> key == ModeKey(m)
  {
  }

  /** The paragraphs' lengths, all different. */
  function ParagraphLength(m: Mode): nat
  {
    match m
    case Formal => 183
    case Friendly => 155
    case Calm => 152
    case Assertive => 172
    case Apologetic => 182
  }

  lemma ParagraphHasLength(m: Mode)
    ensures |Paragraph(m)| == ParagraphLength(m)
  {
    match m
    case Formal => assert |FormalParagraph| == 183;
    case Friendly => assert |FriendlyParagraph| == 155;
    case Calm => assert |CalmParagraph| == 152;
    case Assertive => assert |AssertiveParagraph| == 172;
    case Apologetic => assert |ApologeticParagraph| == 182;
  }

  /** The five paragraphs are non-empty and pairwise distinct, so the `||`
      fallback never fires for a recognised mode and no two modes agree. */
  lemma ParagraphsDistinct(m1: Mode, m2: Mode)
    ensures Paragraph(m1) != []
    ensures Paragraph(m1) == Paragraph(m2) <==> m1 == m2
  {
    ParagraphHasLength(m1);
    ParagraphHasLength(m2);
  }

  /** A recognised mode yields its paragraph, whatever the original message
      and the current reply are. */
  lemma RecognisedModeIsFixed(m: Mode, originalMessage: Option<string>, currentReply: Option<string>)
    ensures Post(Value(originalMessage, Some(ModeKey(m)), currentReply)) == Rewritten(Some(Paragraph(m)))
  {
    ModeKeyRoundTrip(m, ModeKey(m));
    ParagraphsDistinct(m, m);
  }

  /** Any other mode, an absent one or a differently cased one such as
      "Formal" included, returns the current reply verbatim. */
  lemma OtherModePassesThrough(body: Body)
    requires body.Value?
    requires body.mode.None? || ModeOf(body.mode.value).None?
    ensures Post(body) == Rewritten(body.currentReply)
  {
  }

  lemma CapitalisedModeIsUnknown()
    ensures ModeOf("Formal").None?
  {
  }
}
