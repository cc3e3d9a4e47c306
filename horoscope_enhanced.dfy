/**
 * The enhanced daily horoscope of lib/horoscope-content-enhanced.ts. Scores, lucky
 * numbers and colours come from the same seeded draws as the basic generator (with a
 * ten-colour palette); each description joins a score word, one of the sign's templates
 * picked with the unseeded `Math.random()`, and an action phrase; the advice is a
 * template picked by the seeded generator.
 *
 * The template table is a parameter: a map from sign id to the Chinese and English
 * template lists. The table in the source has every list non-empty and an entry for
 * "aries", which is what `ValidTable` asks of it.
 */
module HoroscopeEnhanced {
  import opened Wrappers
  import opened Seeded
  import opened Dates
  import Basic = HoroscopeBasic

  datatype Templates = Templates(overall: seq<string>, love: seq<string>, career: seq<string>,
                                 wealth: seq<string>, health: seq<string>, advice: seq<string>)

  /** One sign's entry of `signTemplates`. */
  datatype SignTemplates = SignTemplates(zh: Templates, en: Templates)

  predicate NonEmpty(t: Templates) {
    |t.overall| > 0 && |t.love| > 0 && |t.career| > 0 && |t.wealth| > 0 && |t.health| > 0 && |t.advice| > 0
  }

  predicate ValidTable(table: map<string, SignTemplates>) {
    && "aries" in table
    && forall id :: id in table ==> NonEmpty(table[id].zh) && NonEmpty(table[id].en)
  }

  /**
   * `signTemplates[signId]?.[locale] || signTemplates.aries[locale]`: nothing when the
   * locale is neither `zh` nor `en`, the aries templates for an unknown sign.
   */
  function SelectTemplates(table: map<string, SignTemplates>, signId: string, locale: string): (r: Option<Templates>)
    requires ValidTable(table)
    ensures r.Some? ==> NonEmpty(r.value)
  {
    if locale != "zh" && locale != "en" then None
    else
      var entry := if signId in table then table[signId] else table["aries"];
      Some(if locale == "zh" then entry.zh else entry.en)
  }

  /** The score word: `非常` / `very` from 5, `比较` / `quite` from 4, `一般` / `average` from 3, else `需要` / `need to`. */
  function ScoreText(score: int, zh: bool): string {
    if zh then (if score >= 5 then "非常" else if score >= 4 then "比较" else if score >= 3 then "一般" else "需要")
    else (if score >= 5 then "very" else if score >= 4 then "quite" else if score >= 3 then "average" else "need to")
  }

  function NeedWord(zh: bool): string { if zh then "需要" else "need to" }

  /** The action phrase: urging action from a score of 4, caution below. */
  function ActionText(score: int, zh: bool): string {
    if zh then (if score >= 4 then "，建议积极行动。" else "，建议保持谨慎。")
    else (if score >= 4 then ", suggest taking action." else ", suggest being cautious.")
  }

  /** `getEnhancedDescription(type, score, templates, locale)`, `u` standing for its `Math.random()`. */
  function EnhancedDescription(score: int, templates: seq<string>, locale: string, u: Unit): string
    requires |templates| > 0
  {
    var template := templates[Pick(u, |templates|)];
    ScoreText(score, locale == "zh") + template + ActionText(score, locale == "zh")
  }

  /** Whatever the random draw, a description is the score word, one of the templates, and the action phrase. */
  lemma DescriptionUsesTemplate(score: int, templates: seq<string>, locale: string, u: Unit)
    requires |templates| > 0
    ensures exists k :: 0 <= k < |templates|
              && EnhancedDescription(score, templates, locale, u)
                 == ScoreText(score, locale == "zh") + templates[k] + ActionText(score, locale == "zh")
  {
    var k := Pick(u, |templates|);
    assert EnhancedDescription(score, templates, locale, u)
           == ScoreText(score, locale == "zh") + templates[k] + ActionText(score, locale == "zh");
  }

  /** Scores are never below 3, so the `需要` / `need to` word is never used. */
  lemma NeedWordUnreachable(score: int, zh: bool)
    requires score >= 3
    ensures ScoreText(score, zh) != NeedWord(zh)
  {
    assert ScoreText(score, zh)[0] != NeedWord(zh)[0] || |ScoreText(score, zh)| != |NeedWord(zh)|;
  }

  const ColorsZh: seq<string> := ["红色", "橙色", "黄色", "绿色", "蓝色", "紫色", "粉色", "金色", "银色", "白色"]
  const ColorsEn: seq<string> := ["Red", "Orange", "Yellow", "Green", "Blue", "Purple", "Pink", "Gold", "Silver", "White"]

  /** `locale === 'zh' ? colorsZh : colorsEn`. */
  function Palette(locale: string): (p: seq<string>)
    ensures |p| == 10
  {
    if locale == "zh" then ColorsZh else ColorsEn
  }

  datatype Descriptions = Descriptions(overall: string, love: string, career: string,
                                       wealth: string, health: string, advice: string)

  datatype HoroscopeContent = HoroscopeContent(overall: int, love: int, career: int, wealth: int,
                                               health: int, luckyNumber: seq<int>,
                                               luckyColor: seq<string>, description: Descriptions)

  /** What reading a field of the undefined templates throws. */
  const UndefinedTemplates := "Cannot read properties of undefined (reading 'overall')"

  /**
   * `generateDailyHoroscope(signId, date, locale)` with the seeded generator `rng` and the
   * five `Math.random()` values `us` of the descriptions, in the order overall, love,
   * career, wealth, health.
   */
  function GenerateDailyHoroscope(table: map<string, SignTemplates>, signId: string, date: DateTime,
                                  locale: string, rng: Rng, us: seq<Unit>): Result<HoroscopeContent, string>
    requires ValidTable(table) && ValidDateTime(date) && |signId| > 0 && |us| == 5
  {
    var seed := Basic.Seed(signId, date);
    var overall := Basic.Score(rng, seed, 1);
    var love := Basic.Score(rng, seed, 2);
    var career := Basic.Score(rng, seed, 3);
    var wealth := Basic.Score(rng, seed, 4);
    var health := Basic.Score(rng, seed, 5);
    var numbers := [Basic.LuckyNumber(rng, seed, 6), Basic.LuckyNumber(rng, seed, 7), Basic.LuckyNumber(rng, seed, 8)];
    var colors := Palette(locale);
    var luckyColors := [Basic.LuckyColor(rng, seed, 9, colors), Basic.LuckyColor(rng, seed, 10, colors)];
    match SelectTemplates(table, signId, locale)
    case None => Failure(UndefinedTemplates)
    case Some(t) =>
      Success(HoroscopeContent(overall, love, career, wealth, health, numbers, luckyColors,
                               Descriptions(EnhancedDescription(overall, t.overall, locale, us[0]),
                                            EnhancedDescription(love, t.love, locale, us[1]),
                                            EnhancedDescription(career, t.career, locale, us[2]),
                                            EnhancedDescription(wealth, t.wealth, locale, us[3]),
                                            EnhancedDescription(health, t.health, locale, us[4]),
                                            Basic.LuckyColor(rng, seed, 11, t.advice))))
  }

  /** A horoscope is produced exactly for the `zh` and `en` locales. */
  lemma FailsOnlyForOtherLocales(table: map<string, SignTemplates>, signId: string, date: DateTime,
                                 locale: string, rng: Rng, us: seq<Unit>)
    requires ValidTable(table) && ValidDateTime(date) && |signId| > 0 && |us| == 5
    ensures GenerateDailyHoroscope(table, signId, date, locale, rng, us).Success? <==> locale == "zh" || locale == "en"
  {
  }

  /**
   * The ranges of an enhanced horoscope, which shares its scores and lucky numbers with
   * the basic generator; the colours come from the ten-colour palette of the locale, and
   * every description and the advice come from the templates of the sign (of aries when
   * the sign has none).
   */
  lemma DailyFacts(table: map<string, SignTemplates>, signId: string, date: DateTime,
                   locale: string, rng: Rng, us: seq<Unit>)
    requires ValidTable(table) && ValidDateTime(date) && |signId| > 0 && |us| == 5
    requires locale == "zh" || locale == "en"
    ensures var r := GenerateDailyHoroscope(table, signId, date, locale, rng, us);
      var b := Basic.GenerateDailyHoroscope(signId, date, locale, rng);
      var entry := if signId in table then table[signId] else table["aries"];
      var t := if locale == "zh" then entry.zh else entry.en;
      var zh := locale == "zh";
      && r.Success?
      && r.value.overall == b.overall && r.value.love == b.love && r.value.career == b.career
      && r.value.wealth == b.wealth && r.value.health == b.health && r.value.luckyNumber == b.luckyNumber
      && 3 <= r.value.overall <= 5 && 3 <= r.value.love <= 5 && 3 <= r.value.career <= 5
      && 3 <= r.value.wealth <= 5 && 3 <= r.value.health <= 5
      && |r.value.luckyNumber| == 3 && (forall k :: 0 <= k < 3 ==> 1 <= r.value.luckyNumber[k] <= 50)
      && |r.value.luckyColor| == 2 && (forall k :: 0 <= k < 2 ==> r.value.luckyColor[k] in Palette(locale))
      && (exists k :: 0 <= k < |t.overall| && r.value.description.overall
            == ScoreText(r.value.overall, zh) + t.overall[k] + ActionText(r.value.overall, zh))
      && (exists k :: 0 <= k < |t.love| && r.value.description.love
            == ScoreText(r.value.love, zh) + t.love[k] + ActionText(r.value.love, zh))
      && (exists k :: 0 <= k < |t.career| && r.value.description.career
            == ScoreText(r.value.career, zh) + t.career[k] + ActionText(r.value.career, zh))
      && (exists k :: 0 <= k < |t.wealth| && r.value.description.wealth
            == ScoreText(r.value.wealth, zh) + t.wealth[k] + ActionText(r.value.wealth, zh))
      && (exists k :: 0 <= k < |t.health| && r.value.description.health
            == ScoreText(r.value.health, zh) + t.health[k] + ActionText(r.value.health, zh))
      && r.value.description.advice in t.advice
  {
    var r := GenerateDailyHoroscope(table, signId, date, locale, rng, us);
    var entry := if signId in table then table[signId] else table["aries"];
    var t := if locale == "zh" then entry.zh else entry.en;
    assert SelectTemplates(table, signId, locale) == Some(t);
    DescriptionUsesTemplate(r.value.overall, t.overall, locale, us[0]);
    DescriptionUsesTemplate(r.value.love, t.love, locale, us[1]);
    DescriptionUsesTemplate(r.value.career, t.career, locale, us[2]);
    DescriptionUsesTemplate(r.value.wealth, t.wealth, locale, us[3]);
    DescriptionUsesTemplate(r.value.health, t.health, locale, us[4]);
  }

  /**
   * The unseeded draws change only the five descriptions: scores, numbers, colours and
   * the advice are fixed by the sign, the date and the locale.
   */
  lemma DrawsOnlyChangeDescriptions(table: map<string, SignTemplates>, signId: string, date: DateTime,
                                    locale: string, rng: Rng, us: seq<Unit>, vs: seq<Unit>)
    requires ValidTable(table) && ValidDateTime(date) && |signId| > 0 && |us| == 5 && |vs| == 5
    ensures var a := GenerateDailyHoroscope(table, signId, date, locale, rng, us);
      var b := GenerateDailyHoroscope(table, signId, date, locale, rng, vs);
      && a.Success? == b.Success?
      && (a.Success? ==>
            && a.value.overall == b.value.overall && a.value.love == b.value.love
            && a.value.career == b.value.career && a.value.wealth == b.value.wealth
            && a.value.health == b.value.health && a.value.luckyNumber == b.value.luckyNumber
            && a.value.luckyColor == b.value.luckyColor
            && a.value.description.advice == b.value.description.advice)
      && (us == vs ==> a == b)
  {
  }

  /** `generateWeeklyHoroscope(signId, weekStart, locale)`. */
  function GenerateWeeklyHoroscope(table: map<string, SignTemplates>, signId: string, weekStart: DateTime,
                                   locale: string, rng: Rng, us: seq<Unit>): Result<HoroscopeContent, string>
    requires ValidTable(table) && ValidDateTime(weekStart) && |signId| > 0 && |us| == 5
  {
    GenerateDailyHoroscope(table, signId, weekStart, locale, rng, us)
  }

  /** `generateMonthlyHoroscope(signId, monthStart, locale)`. */
  function GenerateMonthlyHoroscope(table: map<string, SignTemplates>, signId: string, monthStart: DateTime,
                                    locale: string, rng: Rng, us: seq<Unit>): Result<HoroscopeContent, string>
    requires ValidTable(table) && ValidDateTime(monthStart) && |signId| > 0 && |us| == 5
  {
    GenerateDailyHoroscope(table, signId, monthStart, locale, rng, us)
  }

  /** The weekly and monthly horoscopes are the daily one at the period's first day. */
  lemma PeriodsAreDaily(table: map<string, SignTemplates>, signId: string, start: DateTime,
                        locale: string, rng: Rng, us: seq<Unit>)
    requires ValidTable(table) && ValidDateTime(start) && |signId| > 0 && |us| == 5
    ensures GenerateWeeklyHoroscope(table, signId, start, locale, rng, us)
            == GenerateDailyHoroscope(table, signId, start, locale, rng, us)
    ensures GenerateMonthlyHoroscope(table, signId, start, locale, rng, us)
            == GenerateDailyHoroscope(table, signId, start, locale, rng, us)
  {
  }
}
