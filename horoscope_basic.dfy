/**
 * The daily horoscope of lib/horoscope-content.ts: five scores, three lucky numbers and
 * two lucky colours drawn from a generator seeded by the date and the sign id, and the
 * threshold texts that describe the scores. The seed arithmetic and the draws are shared
 * with the enhanced generator.
 */
module HoroscopeBasic {
  import opened Text
  import opened Seeded
  import opened Dates

  /** `date.getTime() + signId.charCodeAt(0)`. */
  function Seed(signId: string, date: DateTime): int
    requires ValidDateTime(date) && |signId| > 0
  {
    Timestamp(date) + signId[0] as int
  }

  /** `Math.floor(random(seed * k) * 3) + 3`. */
  function Score(rng: Rng, seed: int, k: int): (r: int)
    ensures 3 <= r <= 5
  {
    Pick(rng(seed * k), 3) + 3
  }

  /** `Math.floor(random(seed * k) * 50) + 1`. */
  function LuckyNumber(rng: Rng, seed: int, k: int): (r: int)
    ensures 1 <= r <= 50
  {
    Pick(rng(seed * k), 50) + 1
  }

  /** `colors[Math.floor(random(seed * k) * colors.length)]`. */
  function LuckyColor(rng: Rng, seed: int, k: int, colors: seq<string>): (c: string)
    requires |colors| > 0
    ensures c in colors
  {
    colors[Pick(rng(seed * k), |colors|)]
  }

  const ColorsZh: seq<string> := ["红色", "橙色", "黄色", "绿色", "蓝色", "紫色", "粉色", "金色"]
  const ColorsEn: seq<string> := ["Red", "Orange", "Yellow", "Green", "Blue", "Purple", "Pink", "Gold"]

  /** `locale === 'zh' ? colorsZh : colorsEn`. */
  function Palette(locale: string): (p: seq<string>)
    ensures |p| == 8
  {
    if locale == "zh" then ColorsZh else ColorsEn
  }

  /** The palette is the Chinese one exactly for the `zh` locale. */
  lemma PaletteByLocale(locale: string)
    ensures Palette(locale) == ColorsZh <==> locale == "zh"
  {
    if locale != "zh" {
      assert Palette(locale)[0] == "Red" && ColorsZh[0] == "红色";
      assert "Red"[0] != "红色"[0];
    }
  }

  // The pieces of the overall text: `今天是${word}顺利的一天，` + tips, and its English twin.
  const ZhOpening := "今天是"
  const ZhVery := "非常"
  const ZhQuite := "比较"
  const ZhMiddle := "顺利的一天，"
  const ZhGoodTip := "保持积极心态，抓住机会。"
  const ZhPlainTip := "保持耐心，稳步前进。"
  const EnOpening := "Today is a "
  const EnVery := "very"
  const EnQuite := "quite"
  const EnMiddle := " smooth day, "
  const EnGoodTip := "stay positive and seize opportunities."
  const EnPlainTip := "stay patient and move forward steadily."

  /** `getOverallDescription(score, signId, locale)`; the sign id is not used. */
  function OverallDescription(score: int, locale: string): string {
    if locale == "zh" then
      var base := ZhOpening + (if score == 5 then ZhVery else if score == 4 then ZhQuite else "") + ZhMiddle;
      var tips := if score >= 4 then ZhGoodTip else ZhPlainTip;
      base + tips
    else
      var base := EnOpening + (if score == 5 then EnVery else if score == 4 then EnQuite else "") + EnMiddle;
      var tips := if score >= 4 then EnGoodTip else EnPlainTip;
      base + tips
  }

  function Opening(zh: bool): string { if zh then ZhOpening else EnOpening }
  function Very(zh: bool): string { if zh then ZhVery else EnVery }
  function Quite(zh: bool): string { if zh then ZhQuite else EnQuite }
  function GoodTip(zh: bool): string { if zh then ZhGoodTip else EnGoodTip }

  lemma StartsWithPrefix(a: string, b: string, c: string)
    ensures StartsWith(a + b + c, a + b)
  {
    assert (a + b + c)[..|a + b|] == a + b;
  }

  lemma EndsWithSuffix(a: string, b: string)
    ensures EndsWith(a + b, b)
  {
    assert (a + b)[|a|..] == b;
  }

  /**
   * The overall text says "非常" / "very" right after its opening exactly when the score
   * is 5, and "比较" / "quite" exactly when it is 4 (a score of 3 gets no word).
   */
  lemma OverallWord(score: int, locale: string)
    ensures StartsWith(OverallDescription(score, locale), Opening(locale == "zh") + Very(locale == "zh")) <==> score == 5
    ensures StartsWith(OverallDescription(score, locale), Opening(locale == "zh") + Quite(locale == "zh")) <==> score == 4
  {
    var zh := locale == "zh";
    var r := OverallDescription(score, locale);
    var o, v, q := Opening(zh), Very(zh), Quite(zh);
    var m := if zh then ZhMiddle else EnMiddle;
    var t := if score >= 4 then GoodTip(zh) else (if zh then ZhPlainTip else EnPlainTip);
    var w := if score == 5 then v else if score == 4 then q else "";
    assert r == o + w + m + t;
    assert r == (o + w) + (m + t);
    StartsWithPrefix(o, w, m + t);
    assert v[0] != q[0] && v[0] != m[0] && q[0] != m[0];
    var next := if score == 5 then v[0] else if score == 4 then q[0] else m[0];
    assert r[|o|] == next;
    assert (o + v)[|o|] == v[0] && (o + q)[|o|] == q[0];
  }

  /** The closing tip is the encouraging one exactly when the score is at least 4. */
  lemma OverallTip(score: int, locale: string)
    ensures EndsWith(OverallDescription(score, locale), GoodTip(locale == "zh")) <==> score >= 4
  {
    var zh := locale == "zh";
    var r := OverallDescription(score, locale);
    var g, p := GoodTip(zh), if zh then ZhPlainTip else EnPlainTip;
    var base := r[..|r| - |if score >= 4 then g else p|];
    assert r == base + (if score >= 4 then g else p);
    EndsWithSuffix(base, if score >= 4 then g else p);
    assert g[|g| - 2] != p[|p| - 2];
  }

  /** The four aspects that get a two-way text. */
  datatype Aspect = Love | Career | Wealth | Health

  const ZhLoveGood := "感情运势不错，适合表达心意或增进感情。"
  const ZhLoveBad := "感情方面需要更多沟通和理解。"
  const EnLoveGood := "Love fortune is good, " + "suitable for expressing feelings or strengthening relationships."
  const EnLoveBad := "More communication " + "and understanding are needed in relationships."
  const ZhCareerGood := "工作运势良好，可能会有新的机会或突破。"
  const ZhCareerBad := "工作方面需要更加努力和专注。"
  const EnCareerGood := "Career fortune is good, " + "there may be new opportunities or breakthroughs."
  const EnCareerBad := "More effort and focus are needed at work."
  const ZhWealthGood := "财运不错，但要注意理性消费。"
  const ZhWealthBad := "财运一般，建议谨慎理财。"
  const EnWealthGood := "Wealth fortune is good, " + "but be mindful of rational spending."
  const EnWealthBad := "Wealth fortune is average, " + "suggest careful financial management."
  const ZhHealthGood := "健康状况良好，保持规律作息。"
  const ZhHealthBad := "注意休息，适当运动，保持身心健康。"
  const EnHealthGood := "Health condition is good, " + "maintain regular routine."
  const EnHealthBad := "Pay attention to rest, " + "exercise appropriately, maintain physical and mental health."

  /** The favourable or the unfavourable text of an aspect, in Chinese or English. */
  function AspectText(a: Aspect, zh: bool, favourable: bool): string {
    match a
    case Love => if zh then (if favourable then ZhLoveGood else ZhLoveBad) else (if favourable then EnLoveGood else EnLoveBad)
    case Career => if zh then (if favourable then ZhCareerGood else ZhCareerBad) else (if favourable then EnCareerGood else EnCareerBad)
    case Wealth => if zh then (if favourable then ZhWealthGood else ZhWealthBad) else (if favourable then EnWealthGood else EnWealthBad)
    case Health => if zh then (if favourable then ZhHealthGood else ZhHealthBad) else (if favourable then EnHealthGood else EnHealthBad)
  }

  /** `getLoveDescription`, `getCareerDescription`, `getWealthDescription`, `getHealthDescription`. */
  function AspectDescription(a: Aspect, score: int, locale: string): string {
    if locale == "zh" then
      if score >= 4 then AspectText(a, true, true) else AspectText(a, true, false)
    else
      if score >= 4 then AspectText(a, false, true) else AspectText(a, false, false)
  }

  /** The two texts of each aspect differ (at the position given here). */
  lemma AspectTextsDiffer(a: Aspect, zh: bool)
    ensures AspectText(a, zh, true) != AspectText(a, zh, false)
  {
    var k := if zh && a != Health then 2 else if !zh && a == Wealth then 18 else 0;
    assert AspectText(a, zh, true)[k] != AspectText(a, zh, false)[k];
  }

  /** Each aspect's description is its favourable text exactly when the score is at least 4. */
  lemma AspectChoice(a: Aspect, score: int, locale: string)
    ensures AspectDescription(a, score, locale) == AspectText(a, locale == "zh", true) <==> score >= 4
    ensures AspectDescription(a, score, locale) == AspectText(a, locale == "zh", false) <==> score < 4
  {
    AspectTextsDiffer(a, locale == "zh");
  }

  datatype Descriptions = Descriptions(overall: string, love: string, career: string,
                                       wealth: string, health: string)

  datatype HoroscopeContent = HoroscopeContent(overall: int, love: int, career: int, wealth: int,
                                               health: int, luckyNumber: seq<int>,
                                               luckyColor: seq<string>, description: Descriptions)

  /** `generateDailyHoroscope(signId, date, locale)` with the seeded generator `rng`. */
  function GenerateDailyHoroscope(signId: string, date: DateTime, locale: string, rng: Rng): HoroscopeContent
    requires ValidDateTime(date) && |signId| > 0
  {
    var seed := Seed(signId, date);
    var overall := Score(rng, seed, 1);
    var love := Score(rng, seed, 2);
    var career := Score(rng, seed, 3);
    var wealth := Score(rng, seed, 4);
    var health := Score(rng, seed, 5);
    var numbers := [LuckyNumber(rng, seed, 6), LuckyNumber(rng, seed, 7), LuckyNumber(rng, seed, 8)];
    var colors := Palette(locale);
    var luckyColors := [LuckyColor(rng, seed, 9, colors), LuckyColor(rng, seed, 10, colors)];
    HoroscopeContent(overall, love, career, wealth, health, numbers, luckyColors,
                     Descriptions(OverallDescription(overall, locale), AspectDescription(Love, love, locale),
                                  AspectDescription(Career, career, locale), AspectDescription(Wealth, wealth, locale),
                                  AspectDescription(Health, health, locale)))
  }

  /**
   * The ranges of a daily horoscope: scores in 3..5, three lucky numbers in 1..50, two
   * colours from the locale's palette; each description is the one for its own score.
   */
  lemma DailyFacts(signId: string, date: DateTime, locale: string, rng: Rng)
    requires ValidDateTime(date) && |signId| > 0
    ensures var h := GenerateDailyHoroscope(signId, date, locale, rng);
      && 3 <= h.overall <= 5 && 3 <= h.love <= 5 && 3 <= h.career <= 5
      && 3 <= h.wealth <= 5 && 3 <= h.health <= 5
      && |h.luckyNumber| == 3 && (forall k :: 0 <= k < 3 ==> 1 <= h.luckyNumber[k] <= 50)
      && |h.luckyColor| == 2 && (forall k :: 0 <= k < 2 ==> h.luckyColor[k] in Palette(locale))
      && h.description.overall == OverallDescription(h.overall, locale)
      && h.description.love == AspectDescription(Love, h.love, locale)
      && h.description.career == AspectDescription(Career, h.career, locale)
      && h.description.wealth == AspectDescription(Wealth, h.wealth, locale)
      && h.description.health == AspectDescription(Health, h.health, locale)
  {
  }

  /**
   * Only the first character of the sign id enters the seed, and the texts ignore the
   * sign, so signs sharing an initial (aries and aquarius, cancer and capricorn, leo and
   * libra, scorpio and sagittarius) always get the same horoscope.
   */
  lemma SameInitialSameHoroscope(a: string, b: string, date: DateTime, locale: string, rng: Rng)
    requires ValidDateTime(date) && |a| > 0 && |b| > 0 && a[0] == b[0]
    ensures GenerateDailyHoroscope(a, date, locale, rng) == GenerateDailyHoroscope(b, date, locale, rng)
  {
  }

  /** `generateWeeklyHoroscope(signId, weekStart, locale)`. */
  function GenerateWeeklyHoroscope(signId: string, weekStart: DateTime, locale: string, rng: Rng): HoroscopeContent
    requires ValidDateTime(weekStart) && |signId| > 0
  {
    GenerateDailyHoroscope(signId, weekStart, locale, rng)
  }

  /** `generateMonthlyHoroscope(signId, monthStart, locale)`. */
  function GenerateMonthlyHoroscope(signId: string, monthStart: DateTime, locale: string, rng: Rng): HoroscopeContent
    requires ValidDateTime(monthStart) && |signId| > 0
  {
    GenerateDailyHoroscope(signId, monthStart, locale, rng)
  }

  /** The weekly and monthly horoscopes are the daily one at the period's first day. */
  lemma PeriodsAreDaily(signId: string, start: DateTime, locale: string, rng: Rng)
    requires ValidDateTime(start) && |signId| > 0
    ensures GenerateWeeklyHoroscope(signId, start, locale, rng) == GenerateDailyHoroscope(signId, start, locale, rng)
    ensures GenerateMonthlyHoroscope(signId, start, locale, rng) == GenerateDailyHoroscope(signId, start, locale, rng)
  {
  }
}
