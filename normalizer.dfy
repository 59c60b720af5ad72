/**
 * The response normaliser of the consultation route: strip a ```json fence
 * from the model's text, parse it, and fall back to the cleaned text and the
 * matched topic's citations when parsing fails.
 */
module Normalizer {
  import opened Wrappers
  import opened Strings
  import opened Catalog

  const OpeningFence: string := "```json"
  const ClosingFence: string := "```"

  /** The citation list used on a parse failure when no topic matched. */
  const FallbackCitation: string := "Indian Law"

  /** The disclaimer used on a parse failure. */
  const FallbackDisclaimer: string := "Disclaimer: AI generated advice. Consult a lawyer."

  /**
   * `.replace(/^```json\n?/, '')`: a leading ```json and the one newline right
   * after it, if any, are removed; only a prefix is ever removed.
   */
  function StripOpeningFence(s: string): (r: string)
    ensures |r| <= |s| && r == s[|s| - |r|..]
    ensures StartsWith(s, OpeningFence) ==> |r| <= |s| - |OpeningFence|
    ensures !StartsWith(s, OpeningFence) ==> r == s
  {
    if StartsWith(s, OpeningFence) then
      var rest := s[|OpeningFence|..];
      if rest != [] && rest[0] == '\n' then rest[1..] else rest
    else s
  }

  /**
   * `.replace(/\n?```$/, '')`: a trailing ``` and the one newline right before
   * it, if any, are removed (the leftmost match of the pattern starts at that
   * newline); only a suffix is ever removed.
   */
  function StripClosingFence(s: string): (r: string)
    ensures |r| <= |s| && r == s[..|r|]
    ensures EndsWith(s, ClosingFence) ==> |r| <= |s| - |ClosingFence|
    ensures !EndsWith(s, ClosingFence) ==> r == s
  {
    if EndsWith(s, ClosingFence) then
      var body := s[..|s| - |ClosingFence|];
      if body != [] && body[|body| - 1] == '\n' then body[..|body| - 1] else body
    else s
  }

  /** The cleaning step of line 538: both fence removals, then `trim`. */
  function StripFences(raw: string): string
  {
    Trim(StripClosingFence(StripOpeningFence(raw)))
  }

  /** Text without fences is only trimmed. */
  lemma UnfencedIsOnlyTrimmed(raw: string)
    requires !StartsWith(raw, OpeningFence) && !EndsWith(raw, ClosingFence)
    ensures StripFences(raw) == Trim(raw)
  {
  }

  /** What the opening-fence removal leaves of a fenced reply. */
  lemma OpeningFenceOfFenced(body: string)
    ensures StripOpeningFence(OpeningFence + body + ClosingFence)
      == (if body != [] && body[0] == '\n' then body[1..] else body) + ClosingFence
  {
    var raw := OpeningFence + body + ClosingFence;
    assert raw[..|OpeningFence|] == OpeningFence;
    var rest := raw[|OpeningFence|..];
    assert rest == body + ClosingFence;
    if body != [] {
      assert rest[0] == body[0];
      assert rest[1..] == body[1..] + ClosingFence;
    }
  }

  /** What the closing-fence removal leaves of text ending in a fence. */
  lemma ClosingFenceOfFenced(inner: string)
    ensures StripClosingFence(inner + ClosingFence)
      == if inner != [] && inner[|inner| - 1] == '\n' then inner[..|inner| - 1] else inner
  {
    var a := inner + ClosingFence;
    assert a[|a| - |ClosingFence|..] == ClosingFence;
    assert a[..|a| - |ClosingFence|] == inner;
  }

  /** A fenced reply cleans to its trimmed inside, whatever newlines surround it. */
  lemma FencedCleansToInside(body: string)
    ensures StripFences(OpeningFence + body + ClosingFence) == Trim(body)
  {
    OpeningFenceOfFenced(body);
    var inner := if body != [] && body[0] == '\n' then body[1..] else body;
    ClosingFenceOfFenced(inner);
    var cut := if inner != [] && inner[|inner| - 1] == '\n' then inner[..|inner| - 1] else inner;
    assert StripFences(OpeningFence + body + ClosingFence) == Trim(cut);
    TrimDropsNewlines(body, inner, cut);
  }

  /** Dropping one newline at either end does not change what a string trims to. */
  lemma TrimDropsNewlines(body: string, inner: string, cut: string)
    requires inner == if body != [] && body[0] == '\n' then body[1..] else body
    requires cut == if inner != [] && inner[|inner| - 1] == '\n' then inner[..|inner| - 1] else inner
    ensures Trim(cut) == Trim(body)
  {
    if inner != [] && inner[|inner| - 1] == '\n' {
      assert inner == cut + ['\n'];
      TrimSpaceSuffix(cut, '\n');
    }
    if body != [] && body[0] == '\n' {
      assert body == ['\n'] + inner;
      TrimSpacePrefix('\n', inner);
    }
  }

  /** A piece of a suffix of a prefix of `s` is a piece of `s`. */
  lemma SliceOfSlices(s: string, a: string, b: string, t: string, st: nat)
    requires |a| <= |s| && a == s[|s| - |a|..]
    requires |b| <= |a| && b == a[..|b|]
    requires st + |t| <= |b| && t == b[st..st + |t|]
    ensures OccursAt(s, t, |s| - |a| + st)
  {
    var off := |s| - |a|;
    forall k | 0 <= k < |t|
      ensures t[k] == s[off + st + k]
    {
      assert t[k] == b[st + k];
      assert b[st + k] == a[st + k];
      assert a[st + k] == s[off + st + k];
    }
    assert s[off + st..off + st + |t|] == t;
  }

  /** The cleaned text is a contiguous piece of the model's raw text. */
  lemma CleanedOccursInRaw(raw: string)
    ensures Contains(raw, StripFences(raw))
  {
    var a := StripOpeningFence(raw);
    var b := StripClosingFence(a);
    var st := TrimmedOffset(b);
    SliceOfSlices(raw, a, b, Trim(b), st);
    ContainsIffOccurs(raw, Trim(b));
  }

  /** Where the trimmed text starts inside `b`. */
  lemma TrimmedOffset(b: string) returns (st: nat)
    ensures st + |Trim(b)| <= |b| && Trim(b) == b[st..st + |Trim(b)|]
  {
    TrimIsCore(b);
    st := |b| - |TrimStart(b)|;
  }

  /** The fields of `JSON.parse`'s result that the route reads; each may be missing. */
  datatype ParsedReply = ParsedReply(response: Option<string>, citations: Option<seq<string>>, disclaimer: Option<string>)

  /**
   * The triple the route answers with; `response` and `disclaimer` are missing
   * when the model's JSON lacks them.
   */
  datatype Answer = Answer(response: Option<string>, citations: seq<string>, disclaimer: Option<string>)

  /** `context ? context.citations : ['Indian Law']`. */
  function FallbackCitations(context: Option<Topic>): seq<string>
  {
    if context.Some? then context.value.citations else [FallbackCitation]
  }

  /**
   * Lines 538-552: clean the raw text, then take the parsed fields (a missing
   * `citations` becomes `[]`) or, when `parse` fails, the cleaned text with the
   * fallback citations and disclaimer. `parse` stands for `JSON.parse`
   * followed by the property reads, None when either throws.
   */
  function Normalize(raw: string, parse: string -> Option<ParsedReply>, context: Option<Topic>): Answer
  {
    var cleaned := StripFences(raw);
    match parse(cleaned)
    case Some(p) => Answer(p.response, p.citations.GetOr([]), p.disclaimer)
    case None => Answer(Some(cleaned), FallbackCitations(context), Some(FallbackDisclaimer))
  }

  /**
   * A fenced JSON reply reaches the parser without its fences, and a parsed
   * reply is passed through with `citations` defaulting to `[]`.
   */
  lemma FencedReplyIsParsedInside(body: string, parse: string -> Option<ParsedReply>, context: Option<Topic>)
    requires parse(Trim(body)).Some?
    ensures var p := parse(Trim(body)).value;
      Normalize(OpeningFence + "\n" + body + "\n" + ClosingFence, parse, context)
        == Answer(p.response, p.citations.GetOr([]), p.disclaimer)
  {
    NewlineFencedCleansToInside(body);
  }

  /** The model's usual form, ```json, newline, body, newline, ```, cleans to the trimmed body. */
  lemma NewlineFencedCleansToInside(body: string)
    ensures StripFences(OpeningFence + "\n" + body + "\n" + ClosingFence) == Trim(body)
  {
    Regroup(body);
    NewlinesTrimAway(body);
    FencedCleansToInside("\n" + body + "\n");
  }

  lemma Regroup(body: string)
    ensures OpeningFence + "\n" + body + "\n" + ClosingFence == OpeningFence + ("\n" + body + "\n") + ClosingFence
  {
  }

  lemma NewlinesTrimAway(body: string)
    ensures Trim("\n" + body + "\n") == Trim(body)
  {
    assert "\n" + body + "\n" == ['\n'] + (body + "\n");
    TrimSpacePrefix('\n', body + "\n");
    TrimSpaceSuffix(body, '\n');
  }

  /**
   * Graceful degradation: when parsing fails the answer is the cleaned text,
   * which occurs in the raw text, with a non-empty citation list (the matched
   * topic's when there is one) and the fixed disclaimer.
   */
  lemma FallbackIsUsable(raw: string, parse: string -> Option<ParsedReply>, context: Option<Topic>)
    requires parse(StripFences(raw)).None?
    requires context.Some? ==> WellFormedTopic(context.value)
    ensures var a := Normalize(raw, parse, context);
      && a.response == Some(StripFences(raw))
      && Contains(raw, a.response.value)
      && |a.citations| > 0
      && (context.Some? ==> a.citations == context.value.citations)
      && (context.None? ==> a.citations == ["Indian Law"])
      && a.disclaimer == Some("Disclaimer: AI generated advice. Consult a lawyer.")
  {
    CleanedOccursInRaw(raw);
  }

  /**
   * The fallback does not guarantee a non-empty response: an empty fenced
   * reply that fails to parse is answered with the empty string.
   */
  lemma EmptyFallbackResponse(parse: string -> Option<ParsedReply>, context: Option<Topic>)
    requires parse("").None?
    ensures Normalize("```json\n```", parse, context).response == Some("")
  {
    assert "```json\n```" == OpeningFence + "\n" + ClosingFence;
    FencedCleansToInside("\n");
    assert Trim("\n") == "";
  }
}
