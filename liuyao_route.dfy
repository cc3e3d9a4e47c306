/**
 * The text side of the six-line (liu yao) interpretation endpoint
 * (app/api/fortune/liuyao/interpretation/route.ts): the input check at the top of `POST`,
 * the prompt sent to the language model, the section parse of its reply and the locally
 * generated interpretation used when the reply lacks the expected headings.
 */
module LiuYaoRoute {
  import opened Wrappers
  import opened Text
  import LiuYao
  import Hexagrams
  import Sections

  type Yao = LiuYao.Yao
  type Hexagram = Hexagrams.Hexagram

  /** `body.locale || 'zh'`: an absent or empty locale reads as `zh`. */
  function RequestLocale(locale: Option<string>): (l: string)
    ensures l != ""
    ensures locale.Some? && locale.value != "" ==> l == locale.value
    ensures locale.None? || locale.value == "" ==> l == "zh"
  {
    if locale.Some? && locale.value != "" then locale.value else "zh"
  }

  const MissingHexagramEn := "Please provide hexagram information"
  const MissingHexagramZh := "请提供卦象信息"

  /**
   * The check at the top of `POST`: missing or empty `yaos`, or a missing `benGua`, is
   * refused with `INVALID_INPUT` and status 400, the message in English iff the locale is `en`.
   */
  function CheckInput(yaos: Option<seq<Yao>>, benGua: Option<Hexagram>, locale: string): (r: Result<(seq<Yao>, Hexagram), Sections.ApiError>)
    ensures r.Success? <==> yaos.Some? && |yaos.value| > 0 && benGua.Some?
    ensures r.Success? ==> r.value == (yaos.value, benGua.value)
    ensures r.Failure? ==> r.error.code == Sections.InvalidInput && r.error.status == 400
    ensures r.Failure? ==> (r.error.message == MissingHexagramEn <==> locale == "en")
    ensures r.Failure? ==> (r.error.message == MissingHexagramZh <==> locale != "en")
  {
    if yaos.None? || |yaos.value| == 0 || benGua.None? then
      assert MissingHexagramEn[0] != MissingHexagramZh[0];
      Failure(Sections.ApiError(Sections.InvalidInput, if locale == "en" then MissingHexagramEn else MissingHexagramZh, 400))
    else Success((yaos.value, benGua.value))
  }

  // ---------------------------------------------------------------------------------------
  // The prompt (`buildLiuYaoPrompt`)

  /** `Line ${p}` or `第${p}爻`: how a line position is named. */
  function LineLabel(p: int, en: bool): string {
    if en then "Line " + IntToString(p) else "第" + IntToString(p) + "爻"
  }

  function TypeLabel(kind: LiuYao.LineType, en: bool): string {
    if kind == LiuYao.Yang then (if en then "Yang" else "阳爻") else (if en then "Yin" else "阴爻")
  }

  /** The value label: 9, 8 and 7 have their own, and every other value reads as old yin (6). */
  function ValueLabel(value: int, en: bool): (r: string)
    ensures |r| >= 3
    ensures 7 <= value <= 9 ==> EndsWith(r, "(" + [Digit(value)] + ")")
    ensures !(7 <= value <= 9) ==> EndsWith(r, "(6)") && r == (if en then "Old Yin (6)" else "老阴(6)")
  {
    if value == 9 then (if en then "Old Yang (9)" else "老阳(9)")
    else if value == 8 then (if en then "Young Yin (8)" else "少阴(8)")
    else if value == 7 then (if en then "Young Yang (7)" else "少阳(7)")
    else if en then "Old Yin (6)" else "老阴(6)"
  }

  function ChangeMark(en: bool): string { if en then " (Changing)" else "（变爻）" }

  /** The line's text up to its change mark. */
  function LineHead(y: Yao, index: nat, en: bool): string {
    LineLabel(index + 1, en) + ": " + TypeLabel(y.kind, en) + ", " + ValueLabel(y.value, en)
  }

  /** `${label}: ${yaoType}, ${yaoValue}${changeMark}` for the line at `index`. */
  function YaoLine(y: Yao, index: nat, en: bool): string {
    LineHead(y, index, en) + (if y.changing then ChangeMark(en) else "")
  }

  /** The lines of `yaoDescriptions`, one per line of the hexagram, bottom up. */
  function YaoLines(yaos: seq<Yao>, en: bool): (r: seq<string>)
    ensures |r| == |yaos|
    ensures forall i :: 0 <= i < |yaos| ==> r[i] == YaoLine(yaos[i], i, en)
  {
    seq(|yaos|, i requires 0 <= i < |yaos| => YaoLine(yaos[i], i, en))
  }

  function YaoDescriptions(yaos: seq<Yao>, en: bool): string {
    Join(YaoLines(yaos, en), "\n")
  }

  /**
   * Each line is named by its 1-based position, and carries the change mark at its end
   * iff it is changing.
   */
  lemma LineFacts(y: Yao, index: nat, en: bool)
    ensures StartsWith(YaoLine(y, index, en), LineLabel(index + 1, en) + ": " + TypeLabel(y.kind, en))
    ensures EndsWith(YaoLine(y, index, en), ChangeMark(en)) <==> y.changing
  {
    var a := LineLabel(index + 1, en) + ": " + TypeLabel(y.kind, en);
    StartsWithLeft(a, ", ");
    StartsWithExtended(a + ", ", a, ValueLabel(y.value, en));
    StartsWithExtended(LineHead(y, index, en), a, if y.changing then ChangeMark(en) else "");
    if y.changing {
      EndsWithRight(LineHead(y, index, en), ChangeMark(en));
    } else {
      var k := if en then 1 else 0;
      var w := ValueLabel(y.value, en);
      assert w[|w| - 1 - k] != ChangeMark(en)[|ChangeMark(en)| - 1 - k];
      assert YaoLine(y, index, en) == a + ", " + w;
      EndsDiffer(a + ", ", w, ChangeMark(en), k);
    }
  }

  /** For a line as tossed, the label ends with the line's own value in parentheses. */
  lemma ValueLabelShowsValue(value: int, en: bool)
    requires 6 <= value <= 9
    ensures EndsWith(ValueLabel(value, en), "(" + IntToString(value) + ")")
  {
    var w := ValueLabel(value, en);
    assert IntToString(value) == [Digit(value)];
    assert w[|w| - 3..] == "(" + IntToString(value) + ")";
  }

  /** For a line as tossed, the prompt marks it changing iff it is an old line (6 or 9). */
  lemma TossedLineMarkedIffOld(y: Yao, index: nat, en: bool)
    requires LiuYao.WellFormed(y)
    ensures EndsWith(YaoLine(y, index, en), ChangeMark(en)) <==> y.value == 6 || y.value == 9
  {
    LineFacts(y, index, en);
  }

  /** The original hexagram's block: both names, the judgement and the meaning. */
  function BenGuaInfo(b: Hexagram, en: bool): string {
    if en then "Original Hexagram: " + b.nameZh + " (" + b.nameEn + ")\nHexagram Text: " + b.guaCi + "\nMeaning: " + b.meaning
    else "本卦：" + b.nameZh + " (" + b.nameEn + ")\n卦辞：" + b.guaCi + "\n含义：" + b.meaning
  }

  /** `${pos}` for each changing position. */
  function PositionNumerals(ps: seq<int>): (r: seq<string>)
    ensures |r| == |ps| && forall i :: 0 <= i < |ps| ==> r[i] == IntToString(ps[i])
  {
    if ps == [] then [] else [IntToString(ps[0])] + PositionNumerals(ps[1..])
  }

  /** `benGua.yaoCi[pos - 1]` inside a template literal: the text, or "undefined" outside the list. */
  function YaoCiAt(yaoCi: seq<string>, i: int): (r: string)
    ensures 0 <= i < |yaoCi| ==> r == yaoCi[i]
    ensures !(0 <= i < |yaoCi|) ==> r == "undefined"
  {
    if 0 <= i < |yaoCi| then yaoCi[i] else "undefined"
  }

  /** The line text shown for the changing position `pos`. */
  function ChangingLineText(yaoCi: seq<string>, pos: int, en: bool): string {
    LineLabel(pos, en) + ": " + YaoCiAt(yaoCi, pos - 1)
  }

  function ChangingLineTexts(yaoCi: seq<string>, ps: seq<int>, en: bool): (r: seq<string>)
    ensures |r| == |ps| && forall i :: 0 <= i < |ps| ==> r[i] == ChangingLineText(yaoCi, ps[i], en)
  {
    if ps == [] then [] else [ChangingLineText(yaoCi, ps[0], en)] + ChangingLineTexts(yaoCi, ps[1..], en)
  }

  /** The changed hexagram's block, ending with the list of changing positions. */
  function ChangedHexagram(c: Hexagram, ps: seq<int>, en: bool): string {
    if en then
      "\n\nChanged Hexagram: " + c.nameZh + " (" + c.nameEn + ")\nHexagram Text: " + c.guaCi + "\nMeaning: " + c.meaning
      + "\n\nChanging Lines: " + Join(PositionNumerals(ps), ", ")
    else
      "\n\n变卦：" + c.nameZh + " (" + c.nameEn + ")\n变卦卦辞：" + c.guaCi + "\n变卦含义：" + c.meaning
      + "\n\n变爻位置：第" + Join(PositionNumerals(ps), "、") + "爻"
  }

  function LineTextsHeading(en: bool): string { if en then "\n\nChanging Line Texts:\n" else "\n\n变爻爻辞:\n" }

  /**
   * `bianGuaInfo`: present only when there is a changed hexagram and at least one changing
   * position, and then followed by the original hexagram's text of each changing line.
   */
  function BianGuaInfo(b: Hexagram, bianGua: Option<Hexagram>, ps: seq<int>, en: bool): string {
    if bianGua.Some? && |ps| > 0 then
      ChangedHexagram(bianGua.value, ps, en) + LineTextsHeading(en) + Join(ChangingLineTexts(b.yaoCi, ps, en), "\n")
    else ""
  }

  /** The variable part of the prompt. */
  function PromptBody(yaos: seq<Yao>, b: Hexagram, bianGua: Option<Hexagram>, ps: seq<int>, question: Option<string>, en: bool): string {
    YaoDescriptions(yaos, en) + "\n\n" + BenGuaInfo(b, en) + BianGuaInfo(b, bianGua, ps, en) + Sections.QuestionPart(question, en)
  }

  /** The fixed wording of the English and of the Chinese prompt. */
  const EnTemplate := Sections.Template(
    "You are an experienced I Ching (Liu " +
      "Yao) divination master. You MUST " +
      "respond entirely in English.\n\nCRITICAL " +
      "REQUIREMENT: All your response must be " +
      "in English only. Do not use any Chinese " +
      "characters.\n\nHexagram Information:\n",
    "\n\nYou MUST provide the interpretation " +
      "in the following format (all content " +
      "must be in English):\n\n",
    "\nBriefly summarize the core information " +
      "of this divination in English (50-100 " +
      "words). Use English only.\n\n",
    "\nProvide an in-depth analysis in " +
      "English of the hexagram meaning, the " +
      "relationship between the original and " +
      "changed hexagrams (if any), and the " +
      "significance of changing lines (200-400 " +
      "words). Translate any Chinese concepts " +
      "into English.\n\n",
    "\nBased on the hexagram meanings and the " +
      "user's question (if any), provide " +
      "specific action suggestions and " +
      "guidance in English (100-200 words). " +
      "Use English only.\n\nREMEMBER: Your " +
      "entire response must be in English. Do " +
      "not use Chinese characters at all.")
  const ZhTemplate := Sections.Template(
    "你是一位资深的六爻占卜大师，请根据以下卦象为用户提供专业的解读。\n\n卦象信息：\n",
    "\n\n请按照以下格式提供解读：\n\n",
    "\n简要总结这次占卜的核心信息（50-100字）\n\n",
    "\n" +
      "深入分析本卦和变卦的含义，解读变爻的意义，并结合整体卦象进行综合分析（200-4" +
      "00字）\n\n",
    "\n" +
      "根据卦象含义和用户的问题（如有），提供具体的行动建议和指引（100-200字）\n" +
      "\n请用专业、温和、富有启发性的语言进行解读，帮助用户理解卦象并获得指引。")

  function TemplateFor(en: bool): Sections.Template { if en then EnTemplate else ZhTemplate }

  /** `buildLiuYaoPrompt(yaos, benGua, bianGua, changingYaos, question, locale)`. */
  function BuildLiuYaoPrompt(yaos: seq<Yao>, b: Hexagram, bianGua: Option<Hexagram>, ps: seq<int>, question: Option<string>, locale: string): string {
    var en := locale == "en";
    Sections.Framed(TemplateFor(en), Sections.HeadingsFor(locale), PromptBody(yaos, b, bianGua, ps, question, en))
  }

  /** Whatever the body contains, the prompt contains. */
  lemma PromptKeepsBody(yaos: seq<Yao>, b: Hexagram, bianGua: Option<Hexagram>, ps: seq<int>, question: Option<string>, locale: string, pat: string)
    requires Contains(PromptBody(yaos, b, bianGua, ps, question, locale == "en"), pat)
    ensures Contains(BuildLiuYaoPrompt(yaos, b, bianGua, ps, question, locale), pat)
  {
    var en := locale == "en";
    Sections.FramedKeepsBody(TemplateFor(en), Sections.HeadingsFor(locale), PromptBody(yaos, b, bianGua, ps, question, en), pat);
  }

  /** Every line of the hexagram appears in the prompt, named by its position. */
  lemma PromptListsEveryLine(yaos: seq<Yao>, b: Hexagram, bianGua: Option<Hexagram>, ps: seq<int>, question: Option<string>, locale: string, i: nat)
    requires i < |yaos|
    ensures Contains(BuildLiuYaoPrompt(yaos, b, bianGua, ps, question, locale), YaoLine(yaos[i], i, locale == "en"))
  {
    var en := locale == "en";
    var d := YaoDescriptions(yaos, en);
    var pat := YaoLines(yaos, en)[i];
    JoinContains(YaoLines(yaos, en), "\n", i);
    ContainsLeft(d, "\n\n", pat);
    ContainsLeft(d + "\n\n", BenGuaInfo(b, en), pat);
    ContainsLeft(d + "\n\n" + BenGuaInfo(b, en), BianGuaInfo(b, bianGua, ps, en), pat);
    ContainsLeft(d + "\n\n" + BenGuaInfo(b, en) + BianGuaInfo(b, bianGua, ps, en), Sections.QuestionPart(question, en), pat);
    PromptKeepsBody(yaos, b, bianGua, ps, question, locale, pat);
  }

  /** The original hexagram's block appears in the prompt. */
  lemma PromptShowsOriginalHexagram(yaos: seq<Yao>, b: Hexagram, bianGua: Option<Hexagram>, ps: seq<int>, question: Option<string>, locale: string)
    ensures Contains(BuildLiuYaoPrompt(yaos, b, bianGua, ps, question, locale), BenGuaInfo(b, locale == "en"))
  {
    var en := locale == "en";
    var d := YaoDescriptions(yaos, en) + "\n\n";
    var pat := BenGuaInfo(b, en);
    ContainsSelf(pat);
    ContainsRight(d, pat, pat);
    ContainsLeft(d + pat, BianGuaInfo(b, bianGua, ps, en), pat);
    ContainsLeft(d + pat + BianGuaInfo(b, bianGua, ps, en), Sections.QuestionPart(question, en), pat);
    PromptKeepsBody(yaos, b, bianGua, ps, question, locale, pat);
  }

  /** The changed hexagram's block is there iff there is a changed hexagram and a changing position. */
  lemma BianGuaBlockIff(b: Hexagram, bianGua: Option<Hexagram>, ps: seq<int>, en: bool)
    ensures BianGuaInfo(b, bianGua, ps, en) != "" <==> bianGua.Some? && |ps| > 0
    ensures bianGua.Some? && |ps| > 0 ==> StartsWith(BianGuaInfo(b, bianGua, ps, en), ChangedHexagram(bianGua.value, ps, en))
  {
    if bianGua.Some? && |ps| > 0 {
      var c := ChangedHexagram(bianGua.value, ps, en);
      StartsWithLeft(c, LineTextsHeading(en));
      StartsWithExtended(c + LineTextsHeading(en), c, Join(ChangingLineTexts(b.yaoCi, ps, en), "\n"));
    }
  }

  /**
   * With the changing positions the lines give, the changed hexagram's block is there iff
   * there is a changed hexagram and some line changes.
   */
  lemma BlockIffSomeLineChanges(yaos: seq<Yao>, b: Hexagram, bianGua: Option<Hexagram>, en: bool)
    ensures BianGuaInfo(b, bianGua, LiuYao.ChangingPositions(yaos), en) != "" <==> bianGua.Some? && !LiuYao.NoChanging(yaos)
  {
    LiuYao.ChangingPositionsFacts(yaos);
    BianGuaBlockIff(b, bianGua, LiuYao.ChangingPositions(yaos), en);
  }

  /** Without the block the prompt shows the lines, the original hexagram and the question only. */
  lemma PromptWithoutChange(yaos: seq<Yao>, b: Hexagram, bianGua: Option<Hexagram>, ps: seq<int>, question: Option<string>, locale: string)
    requires bianGua.None? || ps == []
    ensures var en := locale == "en";
      BuildLiuYaoPrompt(yaos, b, bianGua, ps, question, locale)
      == Sections.Framed(TemplateFor(en), Sections.HeadingsFor(locale),
                         YaoDescriptions(yaos, en) + "\n\n" + BenGuaInfo(b, en) + Sections.QuestionPart(question, en))
  {
    var en := locale == "en";
    assert BianGuaInfo(b, bianGua, ps, en) == "";
    EmptyBetween(YaoDescriptions(yaos, en) + "\n\n" + BenGuaInfo(b, en), Sections.QuestionPart(question, en));
  }

  /**
   * With the block, the prompt shows, for every changing position, the original
   * hexagram's text of that line (`yaoCi[pos - 1]`, or "undefined" for a position outside it).
   */
  lemma PromptListsChangingLineTexts(yaos: seq<Yao>, b: Hexagram, bianGua: Option<Hexagram>, ps: seq<int>, question: Option<string>, locale: string, j: nat)
    requires bianGua.Some? && j < |ps|
    ensures Contains(BuildLiuYaoPrompt(yaos, b, bianGua, ps, question, locale), ChangingLineText(b.yaoCi, ps[j], locale == "en"))
  {
    var en := locale == "en";
    var texts := ChangingLineTexts(b.yaoCi, ps, en);
    var pat := texts[j];
    var head := ChangedHexagram(bianGua.value, ps, en) + LineTextsHeading(en);
    var d := YaoDescriptions(yaos, en) + "\n\n" + BenGuaInfo(b, en);
    JoinContains(texts, "\n", j);
    ContainsRight(head, Join(texts, "\n"), pat);
    ContainsRight(d, BianGuaInfo(b, bianGua, ps, en), pat);
    ContainsLeft(d + BianGuaInfo(b, bianGua, ps, en), Sections.QuestionPart(question, en), pat);
    PromptKeepsBody(yaos, b, bianGua, ps, question, locale, pat);
  }

  /** A given question appears in the prompt after its label. */
  lemma PromptQuotesQuestion(yaos: seq<Yao>, b: Hexagram, bianGua: Option<Hexagram>, ps: seq<int>, question: Option<string>, locale: string)
    requires Sections.Given(question)
    ensures Contains(BuildLiuYaoPrompt(yaos, b, bianGua, ps, question, locale), Sections.QuestionLabel(locale == "en") + ": " + question.value)
  {
    var en := locale == "en";
    var d := YaoDescriptions(yaos, en) + "\n\n" + BenGuaInfo(b, en) + BianGuaInfo(b, bianGua, ps, en);
    var pat := Sections.QuestionLabel(en) + ": " + question.value;
    var part := Sections.QuestionPart(question, en);
    Sections.QuestionPartShowsQuestion(question, en);
    ContainsRight(d, part, pat);
    PromptKeepsBody(yaos, b, bianGua, ps, question, locale, pat);
  }

  /** The prompt asks for exactly the three headings the parse of the reply looks for. */
  lemma PromptNamesTheHeadings(yaos: seq<Yao>, b: Hexagram, bianGua: Option<Hexagram>, ps: seq<int>, question: Option<string>, locale: string)
    ensures var h := Sections.HeadingsFor(locale);
      && Contains(BuildLiuYaoPrompt(yaos, b, bianGua, ps, question, locale), h.summary)
      && Contains(BuildLiuYaoPrompt(yaos, b, bianGua, ps, question, locale), h.detailed)
      && Contains(BuildLiuYaoPrompt(yaos, b, bianGua, ps, question, locale), h.advice)
  {
    var en := locale == "en";
    Sections.FramedNamesHeadings(TemplateFor(en), Sections.HeadingsFor(locale), PromptBody(yaos, b, bianGua, ps, question, en));
  }

  // ---------------------------------------------------------------------------------------
  // The local interpretation (`generateInterpretation`)

  function SummaryLead(b: Hexagram, en: bool): string {
    if en then "The hexagram " + b.nameZh + " (" + b.nameEn + ") represents the current situation. "
    else "本卦" + b.nameZh + "卦象显示当前的情况。"
  }

  /** The summary's ending with a changed hexagram, naming the number of changing positions. */
  function Evolution(c: Hexagram, n: nat, en: bool): string {
    if en then "With " + NatToString(n) + EvolutionMiddleEn + c.nameZh + " (" + c.nameEn + ")."
    else "由于有" + NatToString(n) + "个变爻，事情将会发生变化，变卦" + c.nameZh + "预示着未来的发展趋势。"
  }

  const EvolutionMiddleEn: string :=
    " changing line(s), the situation will " +
      "evolve into "

  const StableEn: string :=
    "The situation is relatively stable with " +
      "no changing lines."

  /** The summary's ending without a changed hexagram. */
  function Stable(en: bool): string {
    if en then StableEn else "由于没有变爻，当前情况相对稳定。"
  }

  function DetailLead(b: Hexagram, en: bool): string {
    if en then "The original hexagram " + b.nameZh + " indicates: " + b.meaning + ". "
    else "本卦" + b.nameZh + "的含义是：" + b.meaning + "。卦辞\"" + b.guaCi + "\"提供了重要的指引。"
  }

  const DevelopmentEn: string :=
    " suggests future development: "
  const DevelopmentPositionsEn: string :=
    ". The changing lines at positions "
  const DevelopmentEndEn: string :=
    " are key points of transformation."
  const DevelopmentEndZh: string :=
    "爻为变爻，这些爻的爻辞特别重要，它们指出了变化的关键点。"

  /** The details' ending with a changed hexagram, listing the changing positions. */
  function Development(c: Hexagram, ps: seq<int>, en: bool): string {
    if en then "The changed hexagram " + c.nameZh + DevelopmentEn + c.meaning + DevelopmentPositionsEn
               + Join(PositionNumerals(ps), ", ") + DevelopmentEndEn
    else "变卦" + c.nameZh + "的含义是：" + c.meaning + "。变卦卦辞\"" + c.guaCi + "\"揭示了变化的方向。第"
         + Join(PositionNumerals(ps), "、") + DevelopmentEndZh
  }

  const StableDetailEn: string :=
    "With no changing lines, the current " +
      "situation is stable and can be " +
      "maintained."

  /** The details' ending without a changed hexagram. */
  function StableDetail(en: bool): string {
    if en then StableDetailEn else "由于没有变爻，可以按照本卦的指导行事，保持现状。"
  }

  const AdviceBaseEn: string :=
    "Based on the hexagram guidance, " +
      "maintain inner peace, assess the " +
      "situation carefully, and make wise " +
      "decisions. "
  const AdviceBaseZh: string :=
    "根据卦象的指导，保持内心的平静，审时度势，做出明智的决策。"

  function AdviceBase(en: bool): string { if en then AdviceBaseEn else AdviceBaseZh }

  /** The opening of the advice on a given question. */
  function QuoteOpening(en: bool): string { if en then "Regarding your question about \"" else "关于您的问题\"" }

  /** The question in quotes, as the advice on it begins. */
  function QuotedQuestion(q: string, en: bool): string { QuoteOpening(en) + q + "\"" }

  const QuestionAdviceEn: string :=
    ", consider the hexagram's guidance and " +
      "act accordingly."

  function QuestionAdvice(q: string, en: bool): string {
    QuotedQuestion(q, en) + (if en then QuestionAdviceEn else "，建议结合卦象的指引，谨慎行事，顺应时势。")
  }

  /** The advice's ending without a question: nothing in English, patience in Chinese. */
  function UngivenAdvice(en: bool): string {
    if en then "" else "保持耐心，等待合适的时机，相信一切都会有最好的安排。"
  }

  /**
   * `generateInterpretation(yaos, benGua, bianGua, changingYaos, question, locale)`: English
   * iff the locale is `en`; the summary and details branch on whether there is a changed
   * hexagram, and the advice on whether there is a question.
   */
  function GenerateInterpretation(yaos: seq<Yao>, b: Hexagram, bianGua: Option<Hexagram>, ps: seq<int>, question: Option<string>, locale: string): Sections.Interpretation {
    var en := locale == "en";
    Sections.Interpretation(
      SummaryLead(b, en) + (if bianGua.Some? then Evolution(bianGua.value, |ps|, en) else Stable(en)),
      DetailLead(b, en) + (if bianGua.Some? then Development(bianGua.value, ps, en) else StableDetail(en)),
      AdviceBase(en) + (if Sections.Given(question) then QuestionAdvice(question.value, en) else UngivenAdvice(en)))
  }

  /** The summary ends with the stable text iff there is no changed hexagram, and otherwise with the evolution. */
  lemma SummaryBranchesOnBianGua(b: Hexagram, bianGua: Option<Hexagram>, n: nat, en: bool)
    ensures var s := SummaryLead(b, en) + (if bianGua.Some? then Evolution(bianGua.value, n, en) else Stable(en));
      && (EndsWith(s, Stable(en)) <==> bianGua.None?)
      && (bianGua.Some? ==> EndsWith(s, Evolution(bianGua.value, n, en)))
  {
    if bianGua.Some? {
      var e := Evolution(bianGua.value, n, en);
      EndsWithRight(SummaryLead(b, en), e);
      assert e[|e| - 2] != Stable(en)[|Stable(en)| - 2];
      EndsDiffer(SummaryLead(b, en), e, Stable(en), 1);
    } else {
      EndsWithRight(SummaryLead(b, en), Stable(en));
    }
  }

  /** The details end with the stable text iff there is no changed hexagram, and otherwise with the development. */
  lemma DetailBranchesOnBianGua(b: Hexagram, bianGua: Option<Hexagram>, ps: seq<int>, en: bool)
    ensures var s := DetailLead(b, en) + (if bianGua.Some? then Development(bianGua.value, ps, en) else StableDetail(en));
      && (EndsWith(s, StableDetail(en)) <==> bianGua.None?)
      && (bianGua.Some? ==> EndsWith(s, Development(bianGua.value, ps, en)))
  {
    if bianGua.Some? {
      var d := Development(bianGua.value, ps, en);
      EndsWithRight(DetailLead(b, en), d);
      assert d[|d| - 2] != StableDetail(en)[|StableDetail(en)| - 2];
      EndsDiffer(DetailLead(b, en), d, StableDetail(en), 1);
    } else {
      EndsWithRight(DetailLead(b, en), StableDetail(en));
    }
  }

  /**
   * The summary and details end with the stable texts iff there is no changed hexagram,
   * and otherwise with the evolution and development texts, whatever the changing positions.
   */
  lemma FallbackBranchesOnBianGua(yaos: seq<Yao>, b: Hexagram, bianGua: Option<Hexagram>, ps: seq<int>, question: Option<string>, locale: string)
    ensures var r := GenerateInterpretation(yaos, b, bianGua, ps, question, locale); var en := locale == "en";
      && (EndsWith(r.summary, Stable(en)) <==> bianGua.None?)
      && (EndsWith(r.detailed, StableDetail(en)) <==> bianGua.None?)
      && (bianGua.Some? ==> EndsWith(r.summary, Evolution(bianGua.value, |ps|, en))
                            && EndsWith(r.detailed, Development(bianGua.value, ps, en)))
  {
    SummaryBranchesOnBianGua(b, bianGua, |ps|, locale == "en");
    DetailBranchesOnBianGua(b, bianGua, ps, locale == "en");
  }

  /**
   * The reading ignores the lines themselves, and without a changed hexagram the changing
   * positions too.
   */
  lemma FallbackIgnoresLines(yaos: seq<Yao>, others: seq<Yao>, b: Hexagram, bianGua: Option<Hexagram>, ps: seq<int>, qs: seq<int>, question: Option<string>, locale: string)
    ensures GenerateInterpretation(yaos, b, bianGua, ps, question, locale) == GenerateInterpretation(others, b, bianGua, ps, question, locale)
    ensures bianGua.None? ==> GenerateInterpretation(yaos, b, bianGua, ps, question, locale) == GenerateInterpretation(others, b, bianGua, qs, question, locale)
  {
  }

  /**
   * A changed hexagram with no changing position drops out of the prompt but still shapes
   * the reading, which then speaks of 0 changing lines.
   */
  lemma ChangeWithoutChangingPositions(yaos: seq<Yao>, b: Hexagram, c: Hexagram, question: Option<string>, locale: string)
    ensures BianGuaInfo(b, Some(c), [], locale == "en") == ""
    ensures EndsWith(GenerateInterpretation(yaos, b, Some(c), [], question, locale).summary, Evolution(c, 0, locale == "en"))
  {
    FallbackBranchesOnBianGua(yaos, b, Some(c), [], question, locale);
  }

  /** The advice goes on to the quoted question iff one is given. */
  lemma AdviceQuotesIffGiven(yaos: seq<Yao>, b: Hexagram, bianGua: Option<Hexagram>, ps: seq<int>, question: Option<string>, locale: string)
    ensures var a := GenerateInterpretation(yaos, b, bianGua, ps, question, locale).advice; var en := locale == "en";
      && StartsWith(a, AdviceBase(en))
      && (StartsWith(a, AdviceBase(en) + QuoteOpening(en)) <==> Sections.Given(question))
      && (Sections.Given(question) ==> StartsWith(a, AdviceBase(en) + QuotedQuestion(question.value, en)))
  {
    var en := locale == "en";
    var base := AdviceBase(en);
    var a := GenerateInterpretation(yaos, b, bianGua, ps, question, locale).advice;
    if Sections.Given(question) {
      var x := QuotedQuestion(question.value, en);
      StartsWithPrefixes(base, x, if en then QuestionAdviceEn else "，建议结合卦象的指引，谨慎行事，顺应时势。");
      StartsWithInner(a, base, QuoteOpening(en) + question.value, "\"");
      StartsWithInner(a, base, QuoteOpening(en), question.value);
      StartsWithShorter(a, base, QuoteOpening(en));
    } else if en {
      assert a == base + "";
    } else {
      assert a[|base|] != (base + QuoteOpening(en))[|base|];
      StartsWithLeft(base, UngivenAdvice(en));
    }
  }

  /** Only `en` selects English: every other locale, whatever it is, reads as Chinese. */
  lemma OtherLocalesAreChinese(yaos: seq<Yao>, b: Hexagram, bianGua: Option<Hexagram>, ps: seq<int>, question: Option<string>, locale: string)
    requires locale != "en"
    ensures GenerateInterpretation(yaos, b, bianGua, ps, question, locale) == GenerateInterpretation(yaos, b, bianGua, ps, question, "zh")
    ensures BuildLiuYaoPrompt(yaos, b, bianGua, ps, question, locale) == BuildLiuYaoPrompt(yaos, b, bianGua, ps, question, "zh")
  {
  }

  // ---------------------------------------------------------------------------------------
  // The reply (`parseAIResponse`)

  /** `parseAIResponse(aiContent, yaos, benGua, bianGua, changingYaos, question, locale)`. */
  function ParseAIResponse(ai: string, yaos: seq<Yao>, b: Hexagram, bianGua: Option<Hexagram>, ps: seq<int>, question: Option<string>, locale: string): Sections.Interpretation {
    Sections.ParseAIResponse(ai, locale, GenerateInterpretation(yaos, b, bianGua, ps, question, locale))
  }

  /** The reply's sections are used iff all three headings of the locale occur in it; otherwise the local reading. */
  lemma ReplyOrLocalReading(ai: string, yaos: seq<Yao>, b: Hexagram, bianGua: Option<Hexagram>, ps: seq<int>, question: Option<string>, locale: string)
    ensures var h := Sections.HeadingsFor(locale);
      var all := Sections.Occurs(ai, h.summary, h.ignoreCase) && Sections.Occurs(ai, h.detailed, h.ignoreCase)
                 && Sections.Occurs(ai, h.advice, h.ignoreCase);
      && (all ==> ParseAIResponse(ai, yaos, b, bianGua, ps, question, locale) == Sections.ParseSections(ai, h).value)
      && (!all ==> ParseAIResponse(ai, yaos, b, bianGua, ps, question, locale) == GenerateInterpretation(yaos, b, bianGua, ps, question, locale))
  {
    Sections.ParseUsesReplyIffAllHeadings(ai, locale, GenerateInterpretation(yaos, b, bianGua, ps, question, locale));
  }
}
