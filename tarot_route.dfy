/**
 * The text side of the tarot interpretation endpoint
 * (app/api/fortune/tarot/interpretation/route.ts): the input check at the top of `POST`,
 * the prompt sent to the language model, the section parse of its reply and the locally
 * generated interpretation used when the reply lacks the expected headings.
 */
module TarotRoute {
  import opened Wrappers
  import opened Text
  import Tarot
  import Sections

  type TarotCard = Tarot.TarotCard

  /** The `locale` of the request, `'zh'` when it is absent (the destructuring default). */
  function RequestLocale(locale: Option<string>): (l: string)
    ensures locale.Some? ==> l == locale.value
    ensures locale.None? ==> l == "zh"
    ensures l == "zh" <==> locale.None? || locale == Some("zh")
    ensures l == "" <==> locale == Some("")
  {
    if locale.Some? then locale.value else "zh"
  }

  const MissingCardsEn := "Please provide tarot card information"
  const MissingCardsZh := "请提供塔罗牌信息"

  /**
   * The check at the top of `POST`: a missing or empty `cards` is refused with
   * `INVALID_INPUT` and status 400, the message in English iff the locale is `en`.
   */
  function CheckInput(cards: Option<seq<TarotCard>>, locale: string): (r: Result<seq<TarotCard>, Sections.ApiError>)
    ensures r.Success? <==> cards.Some? && |cards.value| > 0
    ensures r.Success? ==> r.value == cards.value
    ensures r.Failure? ==> r.error.code == Sections.InvalidInput && r.error.status == 400
    ensures r.Failure? ==> (r.error.message == MissingCardsEn <==> locale == "en")
    ensures r.Failure? ==> (r.error.message == MissingCardsZh <==> locale != "en")
  {
    if cards.None? || |cards.value| == 0 then
      assert MissingCardsEn[0] != MissingCardsZh[0];
      Failure(Sections.ApiError(Sections.InvalidInput, if locale == "en" then MissingCardsEn else MissingCardsZh, 400))
    else Success(cards.value)
  }

  // ---------------------------------------------------------------------------------------
  // The prompt (`buildTarotPrompt`)

  /** One language's entry of `positionLabels`. */
  datatype Labels = Labels(single: string, three: seq<string>, five: seq<string>, reversed: string, upright: string)

  const ZhLabels := Labels("单张牌", ["过去", "现在", "未来"], ["现状", "挑战", "过去", "未来", "建议"], "（逆位）", "（正位）")
  const EnLabels := Labels("Single Card", ["Past", "Present", "Future"],
                           ["Situation", "Challenge", "Past", "Future", "Advice"], " (Reversed)", " (Upright)")

  function LabelsFor(en: bool): Labels { if en then EnLabels else ZhLabels }

  /** `list[i]` inside a template literal: the entry, or the text "undefined" past the end. */
  function LabelAt(list: seq<string>, i: nat): (r: string)
    ensures i < |list| ==> r == list[i]
    ensures i >= |list| ==> r == "undefined"
  {
    if i < |list| then list[i] else "undefined"
  }

  /**
   * The request's `spread` as the model reads it: one of the three spreads, or `None` for
   * any other value (or none at all).
   */
  function SpreadOf(name: Option<string>): (r: Option<Tarot.Spread>)
    ensures r == Some(Tarot.Single) <==> name == Some("single")
    ensures r == Some(Tarot.Three) <==> name == Some("three")
    ensures r == Some(Tarot.Five) <==> name == Some("five")
  {
    if name == Some("single") then Some(Tarot.Single)
    else if name == Some("three") then Some(Tarot.Three)
    else if name == Some("five") then Some(Tarot.Five)
    else None
  }

  /** The position label of the card at `index`: every spread other than single and three uses the five labels. */
  function Position(spread: Option<Tarot.Spread>, l: Labels, index: nat): string {
    if spread == Some(Tarot.Single) then l.single
    else if spread == Some(Tarot.Three) then LabelAt(l.three, index)
    else LabelAt(l.five, index)
  }

  function CardName(c: TarotCard, en: bool): string { if en then c.card.nameEn else c.card.nameZh }

  /** The meaning the card's orientation selects. */
  function Meaning(c: TarotCard): string { if c.reversed then c.card.reversedMeaning else c.card.meaning }

  /** `${position}: ${cardName}${cardStatus} - ${cardMeaning}`. */
  function CardLine(c: TarotCard, position: string, en: bool): string {
    var l := LabelsFor(en);
    position + ": " + CardName(c, en) + (if c.reversed then l.reversed else l.upright) + " - " + Meaning(c)
  }

  /** The lines of `cardDescriptions`, one per card, in order. */
  function CardLines(cards: seq<TarotCard>, spread: Option<Tarot.Spread>, en: bool): (r: seq<string>)
    ensures |r| == |cards|
    ensures forall i :: 0 <= i < |cards| ==> r[i] == CardLine(cards[i], Position(spread, LabelsFor(en), i), en)
  {
    CardLinesFrom(cards, spread, en, 0)
  }

  /** The lines of the cards from index `k` on. */
  function CardLinesFrom(cards: seq<TarotCard>, spread: Option<Tarot.Spread>, en: bool, k: nat): (r: seq<string>)
    requires k <= |cards|
    ensures |r| == |cards| - k
    ensures forall i :: k <= i < |cards| ==> r[i - k] == CardLine(cards[i], Position(spread, LabelsFor(en), i), en)
    decreases |cards| - k
  {
    if k == |cards| then []
    else [CardLine(cards[k], Position(spread, LabelsFor(en), k), en)] + CardLinesFrom(cards, spread, en, k + 1)
  }

  function CardDescriptions(cards: seq<TarotCard>, spread: Option<Tarot.Spread>, en: bool): string {
    Join(CardLines(cards, spread, en), "\n")
  }

  /** The fixed wording of the English and of the Chinese prompt. */
  const EnTemplate := Sections.Template(
    "You are an experienced tarot card " +
      "reader. You MUST respond entirely in " +
      "English. \n\nCRITICAL REQUIREMENT: All " +
      "your response must be in English only. " +
      "Do not use any Chinese characters.\n\nThe " +
      "card meanings below are provided in " +
      "Chinese, but you must translate and " +
      "interpret them into English.\n\n",
    "\n\nYou MUST provide the interpretation " +
      "in the following format (all content " +
      "must be in English):\n\n",
    "\nBriefly summarize the core information " +
      "of this divination in English (50-100 " +
      "words). Use English only.\n\n",
    "\nProvide an in-depth analysis in " +
      "English of the meaning of each card, " +
      "combined with the overall meaning of " +
      "the spread (200-400 words). Translate " +
      "the Chinese card meanings into " +
      "English.\n\n",
    "\nBased on the card meanings and the " +
      "user's question (if any), provide " +
      "specific action suggestions and " +
      "guidance in English (100-200 words). " +
      "Use English only.\n\nREMEMBER: Your " +
      "entire response must be in English. Do " +
      "not use Chinese characters at all.")
  const ZhTemplate := Sections.Template(
    "你是一位资深的塔罗牌占卜师，请根据以下抽到的塔罗牌为用户提供专业的解读。\n\n",
    "\n\n请按照以下格式提供解读：\n\n",
    "\n简要总结这次占卜的核心信息（50-100字）\n\n",
    "\n深入分析每张牌的含义，并结合牌阵的整体意义进行解读（200-400字）\n\n",
    "\n根据牌意和用户的问题（如有），提供具体的行动建议和指引（100-200字）\n\n" +
      "请用专业、温和、富有启发性的语言进行解读，帮助用户理解牌意并获得指引。")

  function TemplateFor(en: bool): Sections.Template { if en then EnTemplate else ZhTemplate }

  /** `buildTarotPrompt(cards, question, spread, locale)`: the card lines and the question inside the template. */
  function BuildTarotPrompt(cards: seq<TarotCard>, question: Option<string>, spread: Option<Tarot.Spread>, locale: string): string {
    var en := locale == "en";
    Sections.Framed(TemplateFor(en), Sections.HeadingsFor(locale), CardDescriptions(cards, spread, en) + Sections.QuestionPart(question, en))
  }

  /** Every card appears in the prompt on its own line, with its position label, orientation and chosen meaning. */
  lemma PromptListsEveryCard(cards: seq<TarotCard>, question: Option<string>, spread: Option<Tarot.Spread>, locale: string, i: nat)
    requires i < |cards|
    ensures Contains(BuildTarotPrompt(cards, question, spread, locale),
                     CardLine(cards[i], Position(spread, LabelsFor(locale == "en"), i), locale == "en"))
  {
    var en := locale == "en";
    var d := CardDescriptions(cards, spread, en);
    JoinContains(CardLines(cards, spread, en), "\n", i);
    ContainsLeft(d, Sections.QuestionPart(question, en), CardLines(cards, spread, en)[i]);
    Sections.FramedKeepsBody(TemplateFor(en), Sections.HeadingsFor(locale), d + Sections.QuestionPart(question, en), CardLines(cards, spread, en)[i]);
  }

  /**
   * Position labels: the single label for the single spread; for three (and, otherwise,
   * five) the label of the index, and "undefined" for a card past the end of the list.
   */
  lemma PositionFacts(spread: Option<Tarot.Spread>, en: bool, i: nat)
    ensures spread == Some(Tarot.Single) ==> Position(spread, LabelsFor(en), i) == LabelsFor(en).single
    ensures spread == Some(Tarot.Three) && i < 3 ==> Position(spread, LabelsFor(en), i) == LabelsFor(en).three[i]
    ensures spread != Some(Tarot.Single) && spread != Some(Tarot.Three) && i < 5 ==> Position(spread, LabelsFor(en), i) == LabelsFor(en).five[i]
    ensures (spread == Some(Tarot.Three) && i >= 3) || (spread != Some(Tarot.Single) && i >= 5) ==> Position(spread, LabelsFor(en), i) == "undefined"
  {
  }

  /** A given question appears in the prompt after its label. */
  lemma PromptQuotesQuestion(cards: seq<TarotCard>, question: Option<string>, spread: Option<Tarot.Spread>, locale: string)
    requires Sections.Given(question)
    ensures Contains(BuildTarotPrompt(cards, question, spread, locale), Sections.QuestionLabel(locale == "en") + ": " + question.value)
  {
    var en := locale == "en";
    var d := CardDescriptions(cards, spread, en);
    var pat := Sections.QuestionLabel(en) + ": " + question.value;
    var part := Sections.QuestionPart(question, en);
    Sections.QuestionPartShowsQuestion(question, en);
    ContainsRight(d, part, pat);
    Sections.FramedKeepsBody(TemplateFor(en), Sections.HeadingsFor(locale), d + part, pat);
  }

  /** Without a question the prompt is the template around the card descriptions alone. */
  lemma PromptWithoutQuestion(cards: seq<TarotCard>, question: Option<string>, spread: Option<Tarot.Spread>, locale: string)
    requires !Sections.Given(question)
    ensures BuildTarotPrompt(cards, question, spread, locale)
         == Sections.Framed(TemplateFor(locale == "en"), Sections.HeadingsFor(locale), CardDescriptions(cards, spread, locale == "en"))
  {
    var d := CardDescriptions(cards, spread, locale == "en");
    assert d + Sections.QuestionPart(question, locale == "en") == d;
  }

  /** The prompt asks for exactly the three headings the parse of the reply looks for. */
  lemma PromptNamesTheHeadings(cards: seq<TarotCard>, question: Option<string>, spread: Option<Tarot.Spread>, locale: string)
    ensures var h := Sections.HeadingsFor(locale);
      && Contains(BuildTarotPrompt(cards, question, spread, locale), h.summary)
      && Contains(BuildTarotPrompt(cards, question, spread, locale), h.detailed)
      && Contains(BuildTarotPrompt(cards, question, spread, locale), h.advice)
  {
    var en := locale == "en";
    Sections.FramedNamesHeadings(TemplateFor(en), Sections.HeadingsFor(locale), CardDescriptions(cards, spread, en) + Sections.QuestionPart(question, en));
  }

  // ---------------------------------------------------------------------------------------
  // The local interpretation (`generateInterpretation`)

  /** One language's entry of `texts`, apart from the advice. */
  datatype Texts = Texts(singleCard: string, threeCards: string, fiveCards: string, reversed: string,
                         upright: string, three: seq<string>, five: seq<string>)

  const ZhTexts := Texts("您抽到的牌是", "您抽到的三张牌分别是：", "您抽到的五张牌分别是：", "（逆位）", "（正位）",
                         ["过去", "现在", "未来"], ["现状", "挑战", "过去", "未来", "建议"])
  const EnTexts := Texts("You drew", "You drew three cards:", "You drew five cards:", " (Reversed)", " (Upright)",
                         ["Past", "Present", "Future"], ["Situation", "Challenge", "Past", "Future", "Advice"])

  function TextsFor(en: bool): Texts { if en then EnTexts else ZhTexts }

  /** `${cardName}${cardStatus}` with the statuses of `texts`. */
  function NameStatus(c: TarotCard, en: bool): string {
    CardName(c, en) + (if c.reversed then TextsFor(en).reversed else TextsFor(en).upright)
  }

  function NameStatuses(cards: seq<TarotCard>, en: bool): (r: seq<string>)
    ensures |r| == |cards| && forall i :: 0 <= i < |cards| ==> r[i] == NameStatus(cards[i], en)
  {
    if cards == [] then [] else [NameStatus(cards[0], en)] + NameStatuses(cards[1..], en)
  }

  /** The detail lines of the three- and five-card readings, labelled from `texts.positions`. */
  function DetailLines(cards: seq<TarotCard>, positions: seq<string>, en: bool): (r: seq<string>)
    ensures |r| == |cards|
    ensures forall i :: 0 <= i < |cards| ==> r[i] == LabelAt(positions, i) + ": " + NameStatus(cards[i], en) + " - " + Meaning(cards[i])
  {
    DetailLinesFrom(cards, positions, en, 0)
  }

  function DetailLinesFrom(cards: seq<TarotCard>, positions: seq<string>, en: bool, k: nat): (r: seq<string>)
    requires k <= |cards|
    ensures |r| == |cards| - k
    ensures forall i :: k <= i < |cards| ==> r[i - k] == LabelAt(positions, i) + ": " + NameStatus(cards[i], en) + " - " + Meaning(cards[i])
    decreases |cards| - k
  {
    if k == |cards| then []
    else [LabelAt(positions, k) + ": " + NameStatus(cards[k], en) + " - " + Meaning(cards[k])] + DetailLinesFrom(cards, positions, en, k + 1)
  }

  /** The opening of every advice that quotes the question. */
  function QuoteOpening(en: bool): string { if en then "Regarding your question \"" else "针对您的问题\"" }

  /** The question in quotes, as each quoting advice begins. */
  function QuotedQuestion(q: string, en: bool): string { QuoteOpening(en) + q + "\"" }

  /** The single-card advice with a question, up to its attitude word. */
  function SingleAdviceHead(q: string, en: bool): string {
    QuotedQuestion(q, en) + (if en then ", this card suggests you need to " else "，这张牌提示您需要")
  }

  function AvoidWord(en: bool): string { if en then "avoid" else "注意避免" }
  function FaceWord(en: bool): string { if en then "actively face" else "积极面对" }

  const SingleUngivenEn: string :=
    "Please reflect calmly and understand " +
    "the card meaning in the context of your " +
    "current situation."
  const ThreeGivenEn: string :=
    ", these three cards show the " +
    "development of things. It is suggested " +
    "that you review the past, grasp the " +
    "present, and look forward to the future."
  const ThreeUngivenEn: string :=
    "It is suggested that you combine the " +
    "meanings of the three cards to " +
    "understand the overall development " +
    "trend."
  const FiveGivenEn: string :=
    ", these five cards provide " +
    "comprehensive guidance. It is suggested " +
    "that you focus on the current " +
    "situation, face challenges, learn from " +
    "the past, and prepare for the future."
  const FiveUngivenEn: string :=
    "It is suggested that you " +
    "comprehensively analyze the meanings of " +
    "these five cards, which provide " +
    "multi-angle guidance."
  const ThreeGivenZh := "，这三张牌展现了事情的发展脉络。建议您回顾过去，把握现在，展望未来。"
  const FiveGivenZh: string :=
    "，这五张牌提供了全面的指引。建议您关注现状，面对挑战，从过去中学习，为未来做准备" +
    "。"

  /** `t.advice.single(question, reversed)`. */
  function SingleAdvice(question: Option<string>, reversed: bool, en: bool): string {
    if Sections.Given(question) then
      SingleAdviceHead(question.value, en) + (if reversed then AvoidWord(en) else FaceWord(en))
      + (if en then " related situations." else "相关的情况。")
    else if en then SingleUngivenEn
    else "建议您静心思考，结合当前情况理解牌意。"
  }

  /** `t.advice.three(question)`. */
  function ThreeAdvice(question: Option<string>, en: bool): string {
    if Sections.Given(question) then QuotedQuestion(question.value, en) + (if en then ThreeGivenEn else ThreeGivenZh)
    else if en then ThreeUngivenEn
    else "建议您结合三张牌的含义，理解事情的整体发展趋势。"
  }

  /** `t.advice.five(question)`. */
  function FiveAdvice(question: Option<string>, en: bool): string {
    if Sections.Given(question) then QuotedQuestion(question.value, en) + (if en then FiveGivenEn else FiveGivenZh)
    else if en then FiveUngivenEn
    else "建议您全面分析这五张牌的含义，它们为您提供了多角度的指引。"
  }

  /** The single-card reading of `generateInterpretation`. */
  function SingleReading(c: TarotCard, question: Option<string>, en: bool): Sections.Interpretation {
    var summary := TextsFor(en).singleCard + " " + NameStatus(c, en) + ".";
    Sections.Interpretation(summary, summary + " " + Meaning(c), SingleAdvice(question, c.reversed, en))
  }

  /** The three-card (`three`) or five-card reading of `generateInterpretation`. */
  function ListReading(cards: seq<TarotCard>, question: Option<string>, three: bool, en: bool): Sections.Interpretation {
    var t := TextsFor(en);
    var summary := (if three then t.threeCards else t.fiveCards) + " " + Join(NameStatuses(cards, en), ", ") + ".";
    Sections.Interpretation(summary, summary + "\n\n" + Join(DetailLines(cards, if three then t.three else t.five, en), "\n"),
                            if three then ThreeAdvice(question, en) else FiveAdvice(question, en))
  }

  /**
   * `generateInterpretation(cards, question, spread, locale)`. The single spread reads
   * `cards[0]`, which the input check guarantees; an unknown spread leaves all three empty.
   */
  function GenerateInterpretation(cards: seq<TarotCard>, question: Option<string>, spread: Option<Tarot.Spread>, locale: string): Sections.Interpretation
    requires spread == Some(Tarot.Single) ==> |cards| > 0
  {
    if spread == Some(Tarot.Single) then SingleReading(cards[0], question, locale == "en")
    else if spread == Some(Tarot.Three) then ListReading(cards, question, true, locale == "en")
    else if spread == Some(Tarot.Five) then ListReading(cards, question, false, locale == "en")
    else Sections.Interpretation("", "", "")
  }

  /**
   * The single-card reading depends on the first card only: the summary names it with its
   * orientation, and the details repeat the summary followed by the chosen meaning.
   */
  lemma SingleUsesFirstCard(cards: seq<TarotCard>, question: Option<string>, locale: string)
    requires |cards| > 0
    ensures GenerateInterpretation(cards, question, Some(Tarot.Single), locale) == GenerateInterpretation([cards[0]], question, Some(Tarot.Single), locale)
    ensures var r := GenerateInterpretation(cards, question, Some(Tarot.Single), locale); var en := locale == "en";
      && r.summary == TextsFor(en).singleCard + " " + NameStatus(cards[0], en) + "."
      && r.detailed == r.summary + " " + Meaning(cards[0])
  {
  }

  /** The position and status labels of `texts` are those of `positionLabels`. */
  lemma TablesAgree(en: bool)
    ensures TextsFor(en).three == LabelsFor(en).three && TextsFor(en).five == LabelsFor(en).five
    ensures TextsFor(en).reversed == LabelsFor(en).reversed && TextsFor(en).upright == LabelsFor(en).upright
  {
  }

  lemma LineRegrouped(position: string, name: string, status: string, meaning: string)
    ensures position + ": " + (name + status) + " - " + meaning == position + ": " + name + status + " - " + meaning
  {
  }

  /** The fallback's detail lines are the prompt's card lines. */
  lemma DetailLinesArePromptLines(cards: seq<TarotCard>, spread: Option<Tarot.Spread>, en: bool)
    requires spread == Some(Tarot.Three) || spread == Some(Tarot.Five)
    ensures DetailLines(cards, if spread == Some(Tarot.Three) then TextsFor(en).three else TextsFor(en).five, en) == CardLines(cards, spread, en)
  {
    TablesAgree(en);
    var positions := if spread == Some(Tarot.Three) then TextsFor(en).three else TextsFor(en).five;
    forall i | 0 <= i < |cards|
      ensures DetailLines(cards, positions, en)[i] == CardLines(cards, spread, en)[i]
    {
      var status := if cards[i].reversed then LabelsFor(en).reversed else LabelsFor(en).upright;
      LineRegrouped(LabelAt(positions, i), CardName(cards[i], en), status, Meaning(cards[i]));
    }
  }

  /** The three- and five-card details repeat the summary and then list exactly the prompt's card lines. */
  lemma ListedSpreadsRepeatPromptLines(cards: seq<TarotCard>, question: Option<string>, spread: Option<Tarot.Spread>, locale: string)
    requires spread == Some(Tarot.Three) || spread == Some(Tarot.Five)
    ensures var r := GenerateInterpretation(cards, question, spread, locale);
      r.detailed == r.summary + "\n\n" + CardDescriptions(cards, spread, locale == "en")
  {
    DetailLinesArePromptLines(cards, spread, locale == "en");
  }

  /** The summary of a three- or five-card reading names every card with its orientation. */
  lemma ListedSpreadsNameEveryCard(cards: seq<TarotCard>, question: Option<string>, spread: Option<Tarot.Spread>, locale: string, i: nat)
    requires spread == Some(Tarot.Three) || spread == Some(Tarot.Five)
    requires i < |cards|
    ensures Contains(GenerateInterpretation(cards, question, spread, locale).summary, NameStatus(cards[i], locale == "en"))
  {
    var en := locale == "en";
    var t := TextsFor(en);
    var names := Join(NameStatuses(cards, en), ", ");
    JoinContains(NameStatuses(cards, en), ", ", i);
    ContainsExtended((if spread == Some(Tarot.Three) then t.threeCards else t.fiveCards) + " ", names, ".", NameStatus(cards[i], en));
  }

  /** A spread that is none of the three gives an empty interpretation. */
  lemma OtherSpreadIsEmpty(cards: seq<TarotCard>, question: Option<string>, spread: Option<Tarot.Spread>, locale: string)
    requires spread != Some(Tarot.Single) && spread != Some(Tarot.Three) && spread != Some(Tarot.Five)
    ensures GenerateInterpretation(cards, question, spread, locale) == Sections.Interpretation("", "", "")
  {
  }

  /** A text that starts with the quoted question starts with the quote opening. */
  lemma QuotedStartsWithOpening(a: string, q: string, en: bool)
    requires StartsWith(a, QuotedQuestion(q, en))
    ensures StartsWith(a, QuoteOpening(en))
  {
    StartsWithShorter(a, QuoteOpening(en) + q, "\"");
    StartsWithShorter(a, QuoteOpening(en), q);
  }

  /** None of the advice texts without a question begins like a quoting one. */
  lemma SingleUngivenDoesNotQuote(question: Option<string>, reversed: bool, en: bool)
    requires !Sections.Given(question)
    ensures !StartsWith(SingleAdvice(question, reversed, en), QuoteOpening(en))
  {
    assert SingleAdvice(question, reversed, en)[0] != QuoteOpening(en)[0];
  }

  lemma ThreeUngivenDoesNotQuote(question: Option<string>, en: bool)
    requires !Sections.Given(question)
    ensures !StartsWith(ThreeAdvice(question, en), QuoteOpening(en))
  {
    assert ThreeAdvice(question, en)[0] != QuoteOpening(en)[0];
  }

  lemma FiveUngivenDoesNotQuote(question: Option<string>, en: bool)
    requires !Sections.Given(question)
    ensures !StartsWith(FiveAdvice(question, en), QuoteOpening(en))
  {
    assert FiveAdvice(question, en)[0] != QuoteOpening(en)[0];
  }

  /** Each advice function quotes the question iff one is given. */
  lemma AdviceFunctionsQuoteIffGiven(question: Option<string>, reversed: bool, en: bool)
    ensures StartsWith(SingleAdvice(question, reversed, en), QuoteOpening(en)) <==> Sections.Given(question)
    ensures StartsWith(ThreeAdvice(question, en), QuoteOpening(en)) <==> Sections.Given(question)
    ensures StartsWith(FiveAdvice(question, en), QuoteOpening(en)) <==> Sections.Given(question)
    ensures Sections.Given(question) ==>
      && StartsWith(SingleAdvice(question, reversed, en), QuotedQuestion(question.value, en))
      && StartsWith(ThreeAdvice(question, en), QuotedQuestion(question.value, en))
      && StartsWith(FiveAdvice(question, en), QuotedQuestion(question.value, en))
  {
    if Sections.Given(question) {
      var x := QuotedQuestion(question.value, en);
      var h := SingleAdviceHead(question.value, en);
      StartsWithLeft(x, if en then ", this card suggests you need to " else "，这张牌提示您需要");
      StartsWithExtended(h, x, if reversed then AvoidWord(en) else FaceWord(en));
      StartsWithExtended(h + (if reversed then AvoidWord(en) else FaceWord(en)), x, if en then " related situations." else "相关的情况。");
      StartsWithLeft(x, if en then ThreeGivenEn else ThreeGivenZh);
      StartsWithLeft(x, if en then FiveGivenEn else FiveGivenZh);
      QuotedStartsWithOpening(SingleAdvice(question, reversed, en), question.value, en);
      QuotedStartsWithOpening(ThreeAdvice(question, en), question.value, en);
      QuotedStartsWithOpening(FiveAdvice(question, en), question.value, en);
    } else {
      SingleUngivenDoesNotQuote(question, reversed, en);
      ThreeUngivenDoesNotQuote(question, en);
      FiveUngivenDoesNotQuote(question, en);
    }
  }

  /** The single-card advice quotes the question iff one is given. */
  lemma SingleAdviceQuotesIffGiven(cards: seq<TarotCard>, question: Option<string>, locale: string)
    requires |cards| > 0
    ensures var a := GenerateInterpretation(cards, question, Some(Tarot.Single), locale).advice;
      && (StartsWith(a, QuoteOpening(locale == "en")) <==> Sections.Given(question))
      && (Sections.Given(question) ==> StartsWith(a, QuotedQuestion(question.value, locale == "en")))
  {
    AdviceFunctionsQuoteIffGiven(question, cards[0].reversed, locale == "en");
  }

  /** The three- and five-card advice quotes the question iff one is given. */
  lemma ListedAdviceQuotesIffGiven(cards: seq<TarotCard>, question: Option<string>, spread: Option<Tarot.Spread>, locale: string)
    requires spread == Some(Tarot.Three) || spread == Some(Tarot.Five)
    ensures var a := GenerateInterpretation(cards, question, spread, locale).advice;
      && (StartsWith(a, QuoteOpening(locale == "en")) <==> Sections.Given(question))
      && (Sections.Given(question) ==> StartsWith(a, QuotedQuestion(question.value, locale == "en")))
  {
    AdviceFunctionsQuoteIffGiven(question, false, locale == "en");
  }

  /** With a question, the single-card advice says "avoid" iff the card is reversed, and otherwise "actively face". */
  lemma SingleAdviceAvoidIffReversed(cards: seq<TarotCard>, question: Option<string>, locale: string)
    requires |cards| > 0 && Sections.Given(question)
    ensures var a := GenerateInterpretation(cards, question, Some(Tarot.Single), locale).advice;
      var h := SingleAdviceHead(question.value, locale == "en");
      && (StartsWith(a, h + AvoidWord(locale == "en")) <==> cards[0].reversed)
      && (StartsWith(a, h + FaceWord(locale == "en")) <==> !cards[0].reversed)
  {
    var en := locale == "en";
    var h := SingleAdviceHead(question.value, en);
    var e := if en then " related situations." else "相关的情况。";
    var k := if en then 1 else 0;
    assert AvoidWord(en)[k] != FaceWord(en)[k];
    if cards[0].reversed {
      ChoiceShows(h, AvoidWord(en), e, FaceWord(en), k);
    } else {
      ChoiceShows(h, FaceWord(en), e, AvoidWord(en), k);
    }
  }

  /** Without a question the single-card advice does not depend on the card at all. */
  lemma SingleAdviceWithoutQuestion(cards: seq<TarotCard>, others: seq<TarotCard>, question: Option<string>, locale: string)
    requires |cards| > 0 && |others| > 0 && !Sections.Given(question)
    ensures GenerateInterpretation(cards, question, Some(Tarot.Single), locale).advice
         == GenerateInterpretation(others, question, Some(Tarot.Single), locale).advice
  {
  }

  /** Only `en` selects English: every other locale, whatever it is, reads as Chinese. */
  lemma OtherLocalesAreChinese(cards: seq<TarotCard>, question: Option<string>, spread: Option<Tarot.Spread>, locale: string)
    requires spread == Some(Tarot.Single) ==> |cards| > 0
    requires locale != "en"
    ensures GenerateInterpretation(cards, question, spread, locale) == GenerateInterpretation(cards, question, spread, "zh")
    ensures BuildTarotPrompt(cards, question, spread, locale) == BuildTarotPrompt(cards, question, spread, "zh")
  {
  }

  // ---------------------------------------------------------------------------------------
  // The reply (`parseAIResponse`)

  /** `parseAIResponse(aiContent, cards, question, spread, locale)`. */
  function ParseAIResponse(ai: string, cards: seq<TarotCard>, question: Option<string>, spread: Option<Tarot.Spread>, locale: string): Sections.Interpretation
    requires spread == Some(Tarot.Single) ==> |cards| > 0
  {
    Sections.ParseAIResponse(ai, locale, GenerateInterpretation(cards, question, spread, locale))
  }

  /** The reply's sections are used iff all three headings of the locale occur in it; otherwise the local reading. */
  lemma ReplyOrLocalReading(ai: string, cards: seq<TarotCard>, question: Option<string>, spread: Option<Tarot.Spread>, locale: string)
    requires spread == Some(Tarot.Single) ==> |cards| > 0
    ensures var h := Sections.HeadingsFor(locale);
      var all := Sections.Occurs(ai, h.summary, h.ignoreCase) && Sections.Occurs(ai, h.detailed, h.ignoreCase)
                 && Sections.Occurs(ai, h.advice, h.ignoreCase);
      && (all ==> ParseAIResponse(ai, cards, question, spread, locale) == Sections.ParseSections(ai, h).value)
      && (!all ==> ParseAIResponse(ai, cards, question, spread, locale) == GenerateInterpretation(cards, question, spread, locale))
  {
    Sections.ParseUsesReplyIffAllHeadings(ai, locale, GenerateInterpretation(cards, question, spread, locale));
  }
}
