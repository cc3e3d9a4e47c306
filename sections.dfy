/**
 * The section extraction shared by the two interpretation routes
 * (`parseAIResponse` in app/api/fortune/tarot/interpretation/route.ts and
 * app/api/fortune/liuyao/interpretation/route.ts): three bracketed headings, each section
 * running from its heading to the first later heading or the end of the reply.
 *
 * A pattern `/M\s*([\s\S]*?)(?=S1|S2|$)/` is modelled by what it matches: the first
 * occurrence of the heading `M`, then all white space after it, then the shortest run of
 * characters ending where one of the stop headings begins or at the end of the text.
 * The `i` flag, which only the English patterns carry, compares ASCII letters without case;
 * the headings being ASCII apart from the brackets, this is the whole of its effect.
 */
module Sections {
  import opened Wrappers
  import opened Text

  /** The three parts every interpretation has. */
  datatype Interpretation = Interpretation(summary: string, detailed: string, advice: string)

  /** The headings of one language, and whether its patterns ignore case. */
  datatype Headings = Headings(summary: string, detailed: string, advice: string, ignoreCase: bool)

  /** The error body both routes send with a 4xx or 5xx status. */
  datatype ApiError = ApiError(code: string, message: string, status: int)

  const InvalidInput := "INVALID_INPUT"

  const ZhHeadings := Headings("【摘要】", "【详细解读】", "【建议】", false)
  const EnHeadings := Headings("【Summary】", "【Detailed Interpretation】", "【Advice】", true)

  /** English headings (matched without case) iff the locale is exactly `en`. */
  function HeadingsFor(locale: string): (h: Headings)
    ensures h.ignoreCase <==> locale == "en"
    ensures h == (if locale == "en" then EnHeadings else ZhHeadings)
  {
    if locale == "en" then EnHeadings else ZhHeadings
  }

  /**
   * Where the lazy group that starts at `from` stops: the first position at or after `from`
   * where one of `stops` occurs, or the end of the text.
   */
  function SectionEnd(s: string, stops: seq<string>, from: nat, ci: bool): (e: nat)
    requires from <= |s|
    ensures from <= e <= |s|
    ensures forall p, j :: from <= p < e && 0 <= j < |stops| ==> !MatchesAt(s, p, stops[j], ci)
    ensures e < |s| ==> exists j :: 0 <= j < |stops| && MatchesAt(s, e, stops[j], ci)
    decreases |stops|
  {
    if stops == [] then |s|
    else
      var rest := SectionEnd(s, stops[1..], from, ci);
      assert forall j :: 1 <= j < |stops| ==> stops[j] == stops[1..][j - 1];
      match Find(s, stops[0], from, ci)
      case Some(p) => if p < rest then p else rest
      case None => rest
  }

  /** `s.match(/M\s*([\s\S]*?)(?=stops|$)/)?.[1]`: the captured group, if the heading occurs. */
  function Capture(s: string, heading: string, stops: seq<string>, ci: bool): Option<string> {
    match Find(s, heading, 0, ci)
    case None => None
    case Some(i) =>
      var q := SkipSpaces(s, i + |heading|);
      Some(s[q..SectionEnd(s, stops, q, ci)])
  }

  /**
   * `r` is what the pattern captures: `i` is the first occurrence of the heading, the white
   * space after it is skipped, and the group runs on to the first stop heading or the end.
   */
  ghost predicate IsCapture(s: string, heading: string, stops: seq<string>, ci: bool, r: string) {
    exists i: nat, q: nat, e: nat ::
      && i + |heading| <= q <= e <= |s|
      && MatchesAt(s, i, heading, ci)
      && (forall k :: 0 <= k < i ==> !MatchesAt(s, k, heading, ci))
      && (forall k :: i + |heading| <= k < q ==> IsSpace(s[k]))
      && (q < |s| ==> !IsSpace(s[q]))
      && (forall p, j :: q <= p < e && 0 <= j < |stops| ==> !MatchesAt(s, p, stops[j], ci))
      && (e < |s| ==> exists j :: 0 <= j < |stops| && MatchesAt(s, e, stops[j], ci))
      && r == s[q..e]
  }

  /** The pattern matches iff the heading occurs anywhere, and then captures as described. */
  lemma CaptureFacts(s: string, heading: string, stops: seq<string>, ci: bool)
    ensures Capture(s, heading, stops, ci).Some? <==> exists k :: 0 <= k && MatchesAt(s, k, heading, ci)
    ensures Capture(s, heading, stops, ci).Some? ==> IsCapture(s, heading, stops, ci, Capture(s, heading, stops, ci).value)
  {
    match Find(s, heading, 0, ci)
    case None =>
    case Some(i) =>
      var q := SkipSpaces(s, i + |heading|);
      var e := SectionEnd(s, stops, q, ci);
      assert IsCapture(s, heading, stops, ci, s[q..e]);
  }

  /** `question ? ... : ...`: a question counts as given iff it is present and not empty. */
  predicate Given(question: Option<string>) { question.Some? && question.value != "" }

  function QuestionLabel(en: bool): string { if en then "User's question" else "用户的问题" }

  function QuestionPart(question: Option<string>, en: bool): string {
    if Given(question) then "\n\n" + QuestionLabel(en) + ": " + question.value else ""
  }

  /** A given question appears in its part after its label. */
  lemma QuestionPartShowsQuestion(question: Option<string>, en: bool)
    requires Given(question)
    ensures Contains(QuestionPart(question, en), QuestionLabel(en) + ": " + question.value)
  {
    var part := QuestionPart(question, en);
    assert part[2..] == QuestionLabel(en) + ": " + question.value;
    ContainsTail(part, 2);
  }

  /**
   * The fixed wording of a prompt: the text before the variable part, and the text around
   * the three headings of the answer format that follows it.
   */
  datatype Template = Template(head: string, beforeSummary: string, beforeDetailed: string,
                               beforeAdvice: string, closing: string)

  /** The prompt a template makes around the variable part `body`, with the headings `h`. */
  function Framed(t: Template, h: Headings, body: string): string {
    t.head + body + t.beforeSummary + h.summary + t.beforeDetailed + h.detailed + t.beforeAdvice + h.advice + t.closing
  }

  /** A framed prompt names each of the three headings it asks the reply to use. */
  lemma FramedNamesHeadings(t: Template, h: Headings, body: string)
    ensures Contains(Framed(t, h, body), h.summary)
    ensures Contains(Framed(t, h, body), h.detailed)
    ensures Contains(Framed(t, h, body), h.advice)
  {
    var p1 := t.head + body + t.beforeSummary;
    var p2 := p1 + h.summary + t.beforeDetailed;
    var p3 := p2 + h.detailed + t.beforeAdvice;
    ContainsSelf(h.summary);
    ContainsSelf(h.detailed);
    ContainsSelf(h.advice);
    ContainsRight(p1, h.summary, h.summary);
    ContainsLeft(p1 + h.summary, t.beforeDetailed, h.summary);
    ContainsLeft(p2, h.detailed, h.summary);
    ContainsRight(p2, h.detailed, h.detailed);
    ContainsLeft(p2 + h.detailed, t.beforeAdvice, h.summary);
    ContainsLeft(p2 + h.detailed, t.beforeAdvice, h.detailed);
    ContainsLeft(p3, h.advice, h.summary);
    ContainsLeft(p3, h.advice, h.detailed);
    ContainsRight(p3, h.advice, h.advice);
    ContainsLeft(p3 + h.advice, t.closing, h.summary);
    ContainsLeft(p3 + h.advice, t.closing, h.detailed);
    ContainsLeft(p3 + h.advice, t.closing, h.advice);
  }

  /** Whatever the variable part contains, the framed prompt contains too. */
  lemma FramedKeepsBody(t: Template, h: Headings, body: string, pat: string)
    requires Contains(body, pat)
    ensures Contains(Framed(t, h, body), pat)
  {
    var p := t.head + body;
    ContainsRight(t.head, body, pat);
    ContainsLeft(p, t.beforeSummary, pat);
    ContainsLeft(p + t.beforeSummary, h.summary, pat);
    ContainsLeft(p + t.beforeSummary + h.summary, t.beforeDetailed, pat);
    ContainsLeft(p + t.beforeSummary + h.summary + t.beforeDetailed, h.detailed, pat);
    ContainsLeft(p + t.beforeSummary + h.summary + t.beforeDetailed + h.detailed, t.beforeAdvice, pat);
    ContainsLeft(p + t.beforeSummary + h.summary + t.beforeDetailed + h.detailed + t.beforeAdvice, h.advice, pat);
    ContainsLeft(p + t.beforeSummary + h.summary + t.beforeDetailed + h.detailed + t.beforeAdvice + h.advice, t.closing, pat);
  }

  /** The last section runs to the end of the reply. */
  lemma LastSectionRunsToEnd(s: string, heading: string, ci: bool)
    requires Capture(s, heading, [], ci).Some?
    ensures EndsWith(s, Capture(s, heading, [], ci).value)
  {
  }

  /** The three captures with the stops of the three patterns. */
  function SummaryPart(ai: string, h: Headings): Option<string> {
    Capture(ai, h.summary, [h.detailed, h.advice], h.ignoreCase)
  }

  function DetailedPart(ai: string, h: Headings): Option<string> {
    Capture(ai, h.detailed, [h.advice], h.ignoreCase)
  }

  function AdvicePart(ai: string, h: Headings): Option<string> {
    Capture(ai, h.advice, [], h.ignoreCase)
  }

  /** The structured content of the reply, when all three patterns match. */
  function ParseSections(ai: string, h: Headings): Option<Interpretation> {
    match (SummaryPart(ai, h), DetailedPart(ai, h), AdvicePart(ai, h))
    case (Some(a), Some(b), Some(c)) => Some(Interpretation(Trim(a), Trim(b), Trim(c)))
    case _ => None
  }

  /** Whether the heading occurs in the reply. */
  ghost predicate Occurs(ai: string, heading: string, ci: bool) {
    exists k :: 0 <= k && MatchesAt(ai, k, heading, ci)
  }

  /**
   * `parseAIResponse`: the reply's own sections, trimmed, when all three headings occur, and
   * otherwise the locally generated interpretation.
   */
  function ParseAIResponse(ai: string, locale: string, fallback: Interpretation): Interpretation {
    match ParseSections(ai, HeadingsFor(locale))
    case Some(r) => r
    case None => fallback
  }

  /**
   * The reply is used iff each of the three headings of the locale occurs in it; each part
   * is then the trimmed capture of its pattern.
   */
  lemma ParseUsesReplyIffAllHeadings(ai: string, locale: string, fallback: Interpretation)
    ensures var h := HeadingsFor(locale);
      ParseSections(ai, h).Some? <==>
        Occurs(ai, h.summary, h.ignoreCase) && Occurs(ai, h.detailed, h.ignoreCase) && Occurs(ai, h.advice, h.ignoreCase)
    ensures var h := HeadingsFor(locale);
      ParseSections(ai, h).Some? ==>
        && ParseAIResponse(ai, locale, fallback) == ParseSections(ai, h).value
        && IsCapture(ai, h.summary, [h.detailed, h.advice], h.ignoreCase, SummaryPart(ai, h).value)
        && IsCapture(ai, h.detailed, [h.advice], h.ignoreCase, DetailedPart(ai, h).value)
        && IsCapture(ai, h.advice, [], h.ignoreCase, AdvicePart(ai, h).value)
        && ParseAIResponse(ai, locale, fallback).summary == Trim(SummaryPart(ai, h).value)
        && ParseAIResponse(ai, locale, fallback).detailed == Trim(DetailedPart(ai, h).value)
        && ParseAIResponse(ai, locale, fallback).advice == Trim(AdvicePart(ai, h).value)
    ensures ParseSections(ai, HeadingsFor(locale)).None? ==> ParseAIResponse(ai, locale, fallback) == fallback
  {
    var h := HeadingsFor(locale);
    CaptureFacts(ai, h.summary, [h.detailed, h.advice], h.ignoreCase);
    CaptureFacts(ai, h.detailed, [h.advice], h.ignoreCase);
    CaptureFacts(ai, h.advice, [], h.ignoreCase);
  }
}
