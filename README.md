# Divination engine of balabalastar, modelled in Dafny

balabalastar is a Next.js site: Chinese almanac, BaZi (four pillars), Liu Yao (six-line
hexagrams), tarot and western horoscopes. Its logic is a set of small deterministic
computations. This project models them and proves what they promise:

- the sexagenary arithmetic of year, month, day and hour pillars, and the five-element
  histogram of a BaZi chart with the analysis branch it selects;
- the almanac's seeded choice of suitable and avoided activities and of lucky hours, on
  the newer calendar (in-place Fisher–Yates shuffles) and the older one (rejection
  sampling with a used-set, which can loop forever);
- casting a Liu Yao reading from coin tosses: line values, the hexagram number, the
  transformed hexagram, the changing positions and the reading text;
- building the 78-card tarot deck, drawing cards without replacement, card meanings,
  spread positions and card images;
- the daily horoscope generators, sign lookup by id and by date, and the compatibility
  matrix;
- the two interpretation routes, for tarot and for Liu Yao: the input check, the prompt
  sent to the language model, the parse of its reply into three sections, and the local
  reading used when the reply lacks them.

Randomness and time are parameters.

- The seeded generator `x = Math.sin(seed) * 10000; x - Math.floor(x)` is the function
  parameter `rng: int -> Unit`, with `Unit` the reals in [0, 1).
  - Seeds are timestamps in milliseconds times small integers. They are exact in doubles,
    so the seed arithmetic is modelled on `int`.
  - `Math.floor(u * k)` is `Seeded.Pick`.
- Unseeded `Math.random()` calls are input sequences of `Unit` values: coin tosses, card
  draws and template choices.
- A `Date` is a proleptic Gregorian date plus the milliseconds into the day.
  - Days are counted from 1900-01-01 (`Dates.DayNumber`).
  - `getTime()` is UTC milliseconds since 1970.

JavaScript semantics that matter are written out:

- a template literal prints an index past the end of an array as `undefined`;
- `question ? … : …` treats a missing question and an empty one alike;
- `body.locale || 'zh'` replaces an empty locale, while a destructuring default does not;
- the `i` flag of the English reply patterns compares ASCII letters without case.

Where the Liu Yao route's prompt and its local reading disagree, the model keeps both
behaviours. The prompt drops the changed hexagram when `changingYaos` is empty. The
local reading branches on `bianGua` alone, so it then speaks of "0 changing line(s)"
(`LiuYaoRoute.ChangeWithoutChangingPositions`).

Modules, in dependency order: `Wrappers`, `Text`, `Seeded`, `Dates`, `Sexagenary`,
`Bazi`, `CalendarEnhanced`, `CalendarBasic`, `Hexagrams`, `LiuYao`, `Tarot`,
`TarotImages`, `HoroscopeSigns`, `Compatibility`, `HoroscopeBasic`,
`HoroscopeEnhanced`, `Sections`, `TarotRoute`, `LiuYaoRoute`.

## Model

| member | source | states |
|---|---|---|
| Text.Trim | app/api/fortune/tarot/interpretation/route.ts:237-239 | `trim()`: the result is a slice of the input with no white space at either end, and only white space was dropped |
| Text.Find | app/api/fortune/tarot/interpretation/route.ts:230-232 | the first position at or after `from` where the pattern matches (ASCII case folding when asked), or none when it matches nowhere |
| Text.NatToString | app/api/fortune/liuyao/interpretation/route.ts:155 | a number prints as decimal digits with no leading zero that read back as that number |
| Text.IntToStringValue | app/api/fortune/liuyao/interpretation/route.ts:155 | an integer prints with a minus sign exactly when negative, then digits that read back as its magnitude |
| Seeded.Pick | lib/calendar-data-enhanced.ts:155 | `Math.floor(u * k)` is the index `j < k` with `j <= u*k < j+1` |
| Seeded.Swap | lib/calendar-data-enhanced.ts:156 | the destructuring swap exchanges the two entries and keeps every other one |
| Seeded.SwapIndex | lib/calendar-data-enhanced.ts:155 | the partner drawn at step `i` is at most `i` |
| Seeded.SwapPermutes | lib/calendar-data-enhanced.ts:156 | a swap keeps the multiset of entries |
| Seeded.ShuffleFromPermutes | lib/calendar-data-enhanced.ts:154-157 | the steps `i` down to 1 keep the length and the multiset |
| Seeded.FisherYatesPermutes | lib/calendar-data-enhanced.ts:154-157 | a whole shuffle pass is a permutation of its input |
| Seeded.SwapKeepsDistinct | lib/calendar-data-enhanced.ts:156 | swapping keeps a repeat-free sequence repeat-free |
| Seeded.ShuffleFromKeepsDistinct | lib/calendar-data-enhanced.ts:154-157 | the steps of the pass keep a repeat-free sequence repeat-free |
| Seeded.ShuffledRangeIsPermutation | lib/calendar-data-enhanced.ts:152-157 | shuffling `0..n-1` gives length `n`, no repeats, every index below `n` exactly once |
| Seeded.ShuffleInPlace | lib/calendar-data-enhanced.ts:154-157 | the in-place loop leaves the array equal to the shuffle pass applied to its old contents |
| Dates.DayNumber | lib/bazi-calculator.ts:50-53 | days from 1900-01-01: one more for the next calendar day (`NextDayNumber`), `n` more after `setDate(getDate() + n)` (`AddDaysNumber`), and what `Math.floor((t - epoch) / 86400000)` computes (`DiffDaysIsDayNumber`) |
| Dates.AddDays | lib/calendar-data-enhanced.ts:270-271 | `setDate(getDate() + n)` normalises to a valid date, never in an earlier year |
| Dates.NextDayNumber | lib/calendar-data-enhanced.ts:271 | the next calendar day is one day further from 1900-01-01 |
| Dates.AddDaysNumber | lib/calendar-data-enhanced.ts:271 | shifting a date by `n` days moves its day number by exactly `n` |
| Dates.Hour | lib/calendar-data-enhanced.ts:232 | `getHours()` lies in 0..23 |
| Dates.DiffDaysIsDayNumber | lib/bazi-calculator.ts:50-53 | `Math.floor((t - epoch) / 86400000)` is the date's day number: the time of day does not enter it |
| Dates.AddDaysTime | lib/calendar-data-enhanced.ts:269-272 | the day `n` days later keeps the time of day and stays a valid moment |
| Dates.AddDaysTimestamp | lib/calendar-data-enhanced.ts:269-272 | shifting by `n` days adds `n` whole days to `getTime()` |
| Sexagenary.YearPillar | lib/bazi-calculator.ts:31-35 | stem `(year-4) % 10`, branch `(year-4) % 12`, a valid pair of the sixty cycle (equal parity) |
| Sexagenary.YearPillarCycle | lib/bazi-calculator.ts:31-35 | the year pillar repeats every sixty years |
| Sexagenary.Zodiac | lib/bazi-calculator.ts:241-244 | `getZodiac` is the animal of the year pillar's branch |
| Sexagenary.DayPillarOf | lib/bazi-calculator.ts:53-55 | stem `(diffDays+6) % 10`, branch `(diffDays+6) % 12`, a valid pair of the cycle |
| Sexagenary.DayPillar | lib/bazi-calculator.ts:50-56 | `getDayGanZhi` is the cycle pair of the date's day number, valid and in the cycle |
| Sexagenary.DayPillarEpoch | lib/bazi-calculator.ts:50-56 | 1900-01-01 at any time of day is stem 6, branch 6, written 庚午 |
| Sexagenary.DayPillarIgnoresTime | lib/bazi-calculator.ts:50-56 | two moments of the same date have the same day pillar |
| Sexagenary.StemIndexOf | lib/bazi-calculator.ts:60 | `gan.indexOf(c)`: an index holding `c`, or none when no stem glyph is `c` |
| Sexagenary.HourBranch | lib/bazi-calculator.ts:61 | the branch index of an hour, `Math.floor((hour+1)/2) % 12`, is one of the twelve |
| Sexagenary.HourBranchSlots | lib/bazi-calculator.ts:61 | 23:00 and 00:00 both give 子 (0); hours 0..22 give `(hour+1)/2` |
| Sexagenary.HourPillar | lib/bazi-calculator.ts:59-64 | branch from the hour, stem `(dayStemIndex*2 + branch) % 10`; always a valid pair of the cycle |
| Sexagenary.GanWuxing | lib/bazi-calculator.ts:15-21 | a glyph has a stem element iff it is a stem glyph |
| Sexagenary.ZhiWuxing | lib/bazi-calculator.ts:24-28 | a glyph has a branch element iff it is a branch glyph |
| Sexagenary.LabelElements | lib/bazi-calculator.ts:15-28 | both glyphs of a valid pillar have an element |
| Bazi.MonthPillar | lib/bazi-calculator.ts:38-47 | branch `(month+1) % 12`, stem `(yearStem*2 + month) % 10`; the pair is valid but never in the sixty cycle (opposite parity) |
| Bazi.LabelElements | lib/bazi-calculator.ts:83-93 | a label contributes at most two elements |
| Bazi.CountsAddUp | lib/bazi-calculator.ts:83-93 | in any sequence of elements the five counts add up to its length |
| Bazi.CalculateWuxing | lib/bazi-calculator.ts:67-102 | the counter record after the loop holds, for every element, how many of the glyphs have that element |
| Bazi.LabelCounts | lib/bazi-calculator.ts:84-92 | one iteration (stem glyph then branch glyph) adds exactly the label's elements to the counts |
| Bazi.Bump | lib/bazi-calculator.ts:87 | `wuxing[e]++` adds one to `e` and leaves every other count |
| Bazi.ValidLabelElements | lib/bazi-calculator.ts:83-93 | a valid pillar label contributes exactly two elements |
| Bazi.HistogramTotal | lib/bazi-calculator.ts:67-102 | for four valid pillars the counts add up to 8 |
| Bazi.Values | lib/bazi-calculator.ts:116-122 | the counts listed in the order Metal, Wood, Water, Fire, Earth |
| Bazi.FirstMax | lib/bazi-calculator.ts:124-126 | the head of the stable descending sort: a maximal count, and every earlier one is smaller |
| Bazi.LastMin | lib/bazi-calculator.ts:124-126 | the tail of the stable descending sort: a minimal count, and every later one is larger |
| Bazi.FirstMaxUnique | lib/bazi-calculator.ts:124-126 | only one index has the properties of the sort's head |
| Bazi.LastMinUnique | lib/bazi-calculator.ts:124-126 | only one index has the properties of the sort's tail |
| Bazi.Classify | lib/bazi-calculator.ts:139-151 | "strong" iff some count is ≥ 3, then a maximal element; "missing" iff none is ≥ 3 and some is 0, then a zero element; otherwise balanced |
| Bazi.IndexOf | lib/bazi-calculator.ts:116-122 | each element's position in the declaration order |
| Bazi.ClassifyTies | lib/bazi-calculator.ts:124-126 | ties go to the first-declared element for the strongest and the last-declared for the missing one |
| Bazi.SupportedInChinese | lib/bazi-calculator.ts:139-145 | in Chinese the strong element is "supported" iff it is the day stem's element |
| Bazi.NeverSupportedOutsideChinese | lib/bazi-calculator.ts:117-121 | in any other locale the English name is compared with a glyph, so "supported" never happens |
| Bazi.MaxAtLeastTwo | lib/bazi-calculator.ts:67-102 | with eight glyphs some element has at least two |
| Bazi.BalancedExactly | lib/bazi-calculator.ts:139-151 | for eight glyphs the balanced branch happens iff the five counts are 2, 2, 2, 1, 1 in some order |
| Bazi.OneOrTwo | lib/bazi-calculator.ts:139-151 | counts forming {2,2,2,1,1} are each 1 or 2 |
| Bazi.BalancedCounts | lib/bazi-calculator.ts:139-151 | five counts of 1 or 2 summing to 8 form {2,2,2,1,1} |
| Bazi.GenerateAnalysis | lib/bazi-calculator.ts:105-211 | the text accumulated with `+=` is the opening lines, the paragraph of the `Classify` branch and the traits |
| Bazi.CalculateBazi | lib/bazi-calculator.ts:214-238 | the four labels are the year, month, day and hour pillars of the birth; the counts are the histogram of their eight glyphs and add up to 8; the analysis is the text of that chart |
| Bazi.StemsDistinct | lib/bazi-calculator.ts:6 | the ten stem glyphs are distinct, so `indexOf` gives back the stem |
| Bazi.HourStemFromDay | lib/bazi-calculator.ts:59-64 | the hour stem counts from the day pillar's own stem: `(dayStem*2 + branch) % 10` |
| Bazi.DayLabelStem | lib/bazi-calculator.ts:60 | the first glyph of a day label gives back its stem |
| Bazi.ZodiacMatchesYear | lib/bazi-calculator.ts:241-244 | `getZodiac` is the animal of the year branch, which the year label writes second |
| CalendarEnhanced.MonthPillar | lib/calendar-data-enhanced.ts:77-83 | stem `(((year-4) % 5)*2 + month - 1) % 10`, branch `(month+1) % 12`, always a pair of the sixty cycle |
| CalendarEnhanced.GetWuxing | lib/calendar-data-enhanced.ts:110-120 | always an element glyph, and the first glyph's stem element whenever it has one |
| CalendarEnhanced.WuxingIgnoresDraw | lib/calendar-data-enhanced.ts:110-120 | for a valid day label the random fallback is never used: the result is the day stem's element |
| CalendarEnhanced.ChooseFromCategory | lib/calendar-data-enhanced.ts:150-162 | one `forEach` callback contributes what `Chosen` specifies for that category |
| CalendarEnhanced.ShuffledItems | lib/calendar-data-enhanced.ts:152-157 | a fresh array holding the category's shuffled indices |
| CalendarEnhanced.PushItems | lib/calendar-data-enhanced.ts:159-161 | the activities at the first `count` shuffled indices, tagged with the category |
| CalendarEnhanced.ChoosePerCategory | lib/calendar-data-enhanced.ts:150-162 | the pushes of all categories, in declaration order |
| CalendarEnhanced.GenerateSuitableAndAvoid | lib/calendar-data-enhanced.ts:136-180 | suitable and avoided lists are the selections with the source's count and shuffle seeds |
| CalendarEnhanced.ChosenFacts | lib/calendar-data-enhanced.ts:151-161 | a category contributes one or two of its own activities (never more than it has), from distinct positions |
| CalendarEnhanced.SelectionOrder | lib/calendar-data-enhanced.ts:150-177 | every selected activity belongs to its category and is tagged with it, and categories follow declaration order |
| CalendarEnhanced.ChosenMembers | lib/calendar-data-enhanced.ts:159-161 | every activity a category contributes is one of its items, tagged with its key |
| CalendarEnhanced.SelectionSize | lib/calendar-data-enhanced.ts:151 | with no empty category, `n` categories add between `n` and `2n` activities |
| CalendarEnhanced.SelectionTotals | lib/calendar-data-enhanced.ts:150-177 | 8 to 16 suitable and 6 to 12 avoided activities for every seed and generator |
| CalendarEnhanced.SuitableAndAvoidedAtOnce | lib/calendar-data-enhanced.ts:33 | the tables overlap: with a generator that is always 0, 订婚 is both suitable and avoided |
| CalendarEnhanced.ZeroStep | lib/calendar-data-enhanced.ts:155-156 | under the zero generator every step swaps with index 0 |
| CalendarEnhanced.ZeroOrders | lib/calendar-data-enhanced.ts:154-157 | under the zero generator the marriage lists shuffle to `[1,…,6,0]` and `[1,2,0]` |
| CalendarEnhanced.SelectionPrefix | lib/calendar-data-enhanced.ts:150-162 | what the first `m` categories add opens what the first `n` add |
| CalendarEnhanced.ShuffledHours | lib/calendar-data-enhanced.ts:198-204 | a fresh array of the twelve slot indices, shuffled with seeds `seed*(i+1)` |
| CalendarEnhanced.PushLucky | lib/calendar-data-enhanced.ts:207-214 | the slots at the first `count` shuffled indices |
| CalendarEnhanced.PushUnlucky | lib/calendar-data-enhanced.ts:217-223 | time and name of the slots at the remaining indices, in order |
| CalendarEnhanced.GenerateLuckyHours | lib/calendar-data-enhanced.ts:183-226 | lucky and unlucky lists are the prefix and the rest of the shuffled slots |
| CalendarEnhanced.LuckyPartition | lib/calendar-data-enhanced.ts:197-223 | 4 to 6 lucky hours and `12 - luckyCount` unlucky ones; the lucky then the unlucky slots visit all twelve exactly once |
| CalendarEnhanced.StemsOfLabels | lib/calendar-data-enhanced.ts:97 | the first glyph of a valid label gives back its stem |
| CalendarEnhanced.CalendarDayOf | lib/calendar-data-enhanced.ts:229-262 | the record `getCalendarDay` builds; `GetCalendarDay` computes it and states its zodiac, day label, activity and hour counts and element |
| CalendarEnhanced.GetCalendarDay | lib/calendar-data-enhanced.ts:229-262 | the day record; its zodiac is the year branch's animal, its day label the day pillar, 8–16 suitable and 6–12 avoided activities, 4–6 lucky hours of twelve, and the day stem's element |
| CalendarEnhanced.ShiftInRange | lib/calendar-data-enhanced.ts:270-271 | shifting an in-range moment forward keeps it in range and adds whole days to its timestamp |
| CalendarEnhanced.DayRecordShift | lib/calendar-data-enhanced.ts:269-273 | the `n`-th record is the calendar day of the moment `n` days after the start |
| CalendarEnhanced.DayAfter | lib/calendar-data-enhanced.ts:270-272 | one step of the loop yields the record `n` days on |
| CalendarEnhanced.Days | lib/calendar-data-enhanced.ts:265-276 | the list of the first `n` days has `n` entries |
| CalendarEnhanced.GetCalendarDays | lib/calendar-data-enhanced.ts:265-276 | the loop returns `Days` for `max(days, 0)`: that many records, the `i`-th being `DayRecord(start, i)`, which `DayRecordShift` equates with the start shifted by `i` days |
| CalendarBasic.GanZhiOf | lib/calendar-data.ts:68-74 | two glyphs: stem `(year-4) % 10`, branch `(year-4) % 12` |
| CalendarBasic.ZodiacAligned | lib/calendar-data.ts:68-81 | the label's branch and `getZodiac` read the same index; both repeat every sixty years |
| CalendarBasic.Draw | lib/calendar-data.ts:99 | a draw is an index below the table size |
| CalendarBasic.Draws | lib/calendar-data.ts:96-103 | the first draws of all picks, each below the table size |
| CalendarBasic.Sampled | lib/calendar-data.ts:96-103 | a finished pick has `count` indices below the table size |
| CalendarBasic.DrawsPrefix | lib/calendar-data.ts:96-103 | the draws of the first `i` picks open the draws of all picks |
| CalendarBasic.PickDistinct | lib/calendar-data.ts:96-103 | the loop with its used-set returns what `Sampled` specifies, or `Hangs` where a repeated draw loops forever |
| CalendarBasic.Collision | lib/calendar-data.ts:97-100 | two equal early draws leave a repeat in the draws |
| CalendarBasic.SampledFacts | lib/calendar-data.ts:96-103 | the loop finishes iff the first draws of its steps are pairwise distinct; then it yields exactly those draws, distinct and in range |
| CalendarBasic.TooManyPicksHang | lib/calendar-data.ts:96-103 | more picks than values always hang |
| CalendarBasic.SuitableCount | lib/calendar-data.ts:92 | between 3 and 5 suitable activities |
| CalendarBasic.AvoidCount | lib/calendar-data.ts:106 | between 2 and 4 avoided activities |
| CalendarBasic.PickItems | lib/calendar-data.ts:96-103 | one picking loop pushes the activities at the sampled indices, or hangs |
| CalendarBasic.GenerateSuitableAndAvoid | lib/calendar-data.ts:84-120 | the suitable picks, then (if those finish) the avoided picks, with the source's seeds |
| CalendarBasic.SuitableAndAvoidSizes | lib/calendar-data.ts:92-117 | a finished day has 3–5 distinct suitable and 2–4 distinct avoided activities |
| CalendarBasic.ItemsDistinct | lib/calendar-data.ts:22-26 | the 24 activities are pairwise different |
| CalendarBasic.SuitableAndAvoidedAtOnce | lib/calendar-data.ts:22-33 | the two tables are the same: on a stepped generator 订婚 is both suitable and avoided |
| CalendarBasic.SteppedDraws | lib/calendar-data.ts:92-117 | the counts and draws of that generator on seed 1 |
| CalendarBasic.ConstantGeneratorHangs | lib/calendar-data.ts:97-100 | with a constant generator the second draw repeats the first and the day never finishes |
| CalendarBasic.LuckyCount | lib/calendar-data.ts:130 | between 3 and 6 lucky hours |
| CalendarBasic.Remaining | lib/calendar-data.ts:146-150 | every hour left is below the bound |
| CalendarBasic.RemainingHours | lib/calendar-data.ts:146-150 | the scan in table order pushes the hours the used-set leaves |
| CalendarBasic.RemainingMembers | lib/calendar-data.ts:146-150 | an hour is left iff it is below the bound and not used |
| CalendarBasic.RemainingSorted | lib/calendar-data.ts:146-150 | the hours left keep table order |
| CalendarBasic.RemainingCount | lib/calendar-data.ts:146-150 | hours left plus hours used below the bound make the bound |
| CalendarBasic.GenerateLuckyHours | lib/calendar-data.ts:123-153 | hangs iff the lucky pick hangs; otherwise `luckyCount` hours in range and the rest in table order |
| CalendarBasic.LuckyPartition | lib/calendar-data.ts:130-150 | lucky and unlucky hours of a finished day split the twelve: disjoint, covering, unlucky in table order |
| CalendarBasic.Complement | lib/calendar-data.ts:145-150 | distinct hours and the hours they leave partition the twelve |
| CalendarBasic.ComplementMembers | lib/calendar-data.ts:145-150 | no hour is in both, every hour is in one |
| CalendarBasic.ComplementSize | lib/calendar-data.ts:145-150 | the two lists together have twelve hours |
| CalendarBasic.GetCalendarDay | lib/calendar-data.ts:156-174 | the record of the date's year label, animal, activity and hour lists |
| CalendarBasic.WalkShift | lib/calendar-data.ts:180-183 | stepping single days `n` times reaches the day `n` days later |
| CalendarBasic.DayRecordIs | lib/calendar-data.ts:180-183 | the `n`-th record is that of the date `n` days after the start |
| CalendarBasic.DaysFacts | lib/calendar-data.ts:176-187 | the list finishes iff every day's record does; then it has one entry per day, entry `i` for the start shifted by `i` days |
| CalendarBasic.DaysHang | lib/calendar-data.ts:176-187 | once a prefix hangs, every longer list hangs |
| CalendarBasic.AppendDay | lib/calendar-data.ts:180-184 | one iteration appends the next record or stops at a hang |
| CalendarBasic.GetCalendarDays | lib/calendar-data.ts:176-187 | the loop returns the first `max(days, 0)` records |
| Hexagrams.HexagramAt | lib/liuyao-calculator.ts:33-96 | table entry `i` has id `i + 1` and six line texts |
| Hexagrams.YaoCi | lib/liuyao-calculator.ts:33-96 | every entry has six line texts |
| LiuYao.HeadsCount | lib/liuyao-calculator.ts:131-135 | three tosses give at most three heads |
| LiuYao.GenerateYao | lib/liuyao-calculator.ts:128-150 | the line of three tosses: value six plus the heads, changing iff 6 or 9, yang iff odd (`YaoOfHeadsFacts`) |
| LiuYao.YaoOfHeadsFacts | lib/liuyao-calculator.ts:137-149 | the line value is six plus the heads, and the line changes iff its value is 6 or 9 and is yang iff it is odd |
| LiuYao.LineNumber | lib/liuyao-calculator.ts:104-108 | the lines read as binary (yang = 1, bottom line least significant) are below `2^len` |
| LiuYao.HexagramId | lib/liuyao-calculator.ts:100-110 | the string loop and `parseInt(…, 2) + 1` give the line number plus one |
| LiuYao.ParseDigit | lib/liuyao-calculator.ts:108 | appending a binary digit doubles the value and adds the digit |
| LiuYao.NumberFrom | lib/liuyao-calculator.ts:104-106 | the lines from `i` up are line `i` plus twice the lines above |
| LiuYao.HexagramIdRange | lib/liuyao-calculator.ts:100-110 | the id of six lines is in 1..64 |
| LiuYao.LineNumberInjective | lib/liuyao-calculator.ts:100-110 | equal numbers mean equal line types |
| LiuYao.Pattern | lib/liuyao-calculator.ts:100-110 | a line set of the requested length |
| LiuYao.PatternNumber | lib/liuyao-calculator.ts:100-110 | every number below `2^len` is the number of a line set; with injectivity, a bijection |
| LiuYao.AllYinNumber | lib/liuyao-calculator.ts:104-108 | six yin lines number 0 |
| LiuYao.AllYangNumber | lib/liuyao-calculator.ts:104-108 | six yang lines number `2^6 - 1` |
| LiuYao.TableEnds | lib/liuyao-calculator.ts:33-96 | the first entry is 乾 and the last 未济 |
| LiuYao.PureHexagrams | lib/liuyao-calculator.ts:104-108 | six yin lines give hexagram 1 (乾), six yang lines hexagram 64 (未济) |
| LiuYao.Flip | lib/liuyao-calculator.ts:115-123 | a changing line flips type and becomes unchanging, 6 if it was yang and 9 if yin; any other line is kept (`BianGuaFacts`) |
| LiuYao.BianGuaFacts | lib/liuyao-calculator.ts:113-125 | a changing line flips type and gets 6 if it was yang, 9 if yin; the result has no changing line, so applying it twice is applying it once; a set with no changing line is left as it is |
| LiuYao.BianGuaDiffers | lib/liuyao-calculator.ts:263-268 | with a changing line the transformed lines have another number |
| LiuYao.ChangingPositions | lib/liuyao-calculator.ts:255-260 | every position is in 1..len |
| LiuYao.CollectChanging | lib/liuyao-calculator.ts:255-260 | the `forEach` pushes exactly the changing positions |
| LiuYao.ChangingPositionsFacts | lib/liuyao-calculator.ts:255-260 | strictly increasing; a position is listed iff its line changes; empty iff no line changes |
| LiuYao.AppendChangingLines | lib/liuyao-calculator.ts:171-174 | the loop appends `yaoCi[p-1] + "\n"` for each position in turn |
| LiuYao.GenerateInterpretation | lib/liuyao-calculator.ts:153-240 | the text accumulated with `+=` is the reading specified piece by piece, Chinese iff the locale is `zh` |
| LiuYao.LineTextsAppended | lib/liuyao-calculator.ts:171-174 | the appended text is exactly the line texts of the positions in order |
| LiuYao.AppendLineTextsExtends | lib/liuyao-calculator.ts:171-174 | appending keeps the text written so far |
| LiuYao.DistinctOpenings | lib/liuyao-calculator.ts:168-183 | the changing-lines block and the no-change sentence begin differently |
| LiuYao.NoChangeSentenceWith | lib/liuyao-calculator.ts:168-183 | with such openings the no-change sentence follows iff there is no changing position |
| LiuYao.NoChangeSentence | lib/liuyao-calculator.ts:168-183 | in either language the reading says "no changing lines" iff none changes |
| LiuYao.CastLines | lib/liuyao-calculator.ts:245-248 | one line per three tosses, bottom up |
| LiuYao.LookUp | lib/liuyao-calculator.ts:251-252 | `hexagrams[getHexagramId(yaos) - 1]` is inside the table and is the entry of the line number |
| LiuYao.GenerateLiuYao | lib/liuyao-calculator.ts:243-280 | the lines of the tosses, the primary hexagram of their number, the changing positions, a transformed hexagram iff some position changes, and the reading |
| LiuYao.ReadingFacts | lib/liuyao-calculator.ts:243-280 | the primary id is in 1..64; the positions are empty iff no line changes; a transformed hexagram has another id |
| Tarot.MajorCard | lib/tarot-cards-complete.ts:15-38 | the major card `i` has id `i`, no suit and no number |
| Tarot.NumberCardAt | lib/tarot-cards-complete.ts:77-89 | number card `num` of suit `s` is pushed at index `14s + num - 1` with id `22 + index` |
| Tarot.CourtCardAt | lib/tarot-cards-complete.ts:91-100 | court card `c` of suit `s` is pushed at index `14s + 10 + c` with id `22 + index` |
| Tarot.GenerateMinorArcana | lib/tarot-cards-complete.ts:71-104 | 56 cards, the card at index `k` being the minor card of that position |
| Tarot.PushSuit | lib/tarot-cards-complete.ts:76-101 | one suit adds its fourteen cards and advances the id counter past them |
| Tarot.PushNumbers | lib/tarot-cards-complete.ts:77-89 | the suit's ten number cards, the counter advanced by ten |
| Tarot.PushCourts | lib/tarot-cards-complete.ts:91-100 | the suit's four court cards, the counter advanced by four |
| Tarot.MinorCard | lib/tarot-cards-complete.ts:71-104 | minor card `k` of `generateMinorArcana`: id `22 + k`, ten numbered cards then four court cards per suit (`MinorArcanaFacts`) |
| Tarot.MinorArcanaFacts | lib/tarot-cards-complete.ts:71-104 | ids 22..77 in order; per suit ten number cards numbered 1..10 named suit + number, then four court cards with no number |
| Tarot.DeckCard | lib/tarot-cards-complete.ts:107-110 | the deck card `i` has id `i` |
| Tarot.AllTarotCards | lib/tarot-cards-complete.ts:107-110 | 78 cards, card `i` at index `i` with id `i` |
| Tarot.BuildDeck | lib/tarot-cards-complete.ts:107-110 | the spread of the majors and the generated minors is the deck |
| Tarot.IndexOfId | lib/tarot-cards-complete.ts:114 | `find`: the first card with that id, or none when no card has it |
| Tarot.GetTarotCardById | lib/tarot-cards-complete.ts:113-119 | the deck card of `id` with the requested orientation iff `0 <= id < 78`, else the not-found error (`GetTarotCardByIdFacts`) |
| Tarot.GetTarotCardByIdFacts | lib/tarot-cards-complete.ts:113-119 | succeeds iff `0 <= id < 78`, with that deck card and the requested flag; otherwise the error `Tarot card with id … not found` |
| Tarot.DrawTarotCards | lib/tarot-cards-complete.ts:122-143 | a completed draw has `count` cards, pairwise distinct ids, each its deck entry; a count above 78 never completes |
| Tarot.Draw | lib/tarot-cards-complete.ts:126-140 | the loop yields the draw `DrawFrom` specifies |
| Tarot.DrawIndex | lib/tarot-cards-complete.ts:128-130 | the do-while consumes values until an untaken index, or runs out |
| Tarot.IndicesBound | lib/tarot-cards-complete.ts:124-131 | a set of indices below `n` has at most `n` elements |
| Tarot.DrawFrom | lib/tarot-cards-complete.ts:122-143 | the rejection-sampling draw: each card the deck card of its id, none taken twice (`DrawFacts`), never completing when more are asked than remain (`DrawTooMany`) |
| Tarot.DrawFacts | lib/tarot-cards-complete.ts:122-143 | each card drawn is the deck card of its id, none taken before, ids pairwise distinct |
| Tarot.DrawTooMany | lib/tarot-cards-complete.ts:126-131 | more cards than untaken ones never complete, whatever the values |
| Tarot.GetCardMeaning | lib/tarot-cards-complete.ts:146-153 | the reversed meaning iff the card is reversed |
| Tarot.MeaningIgnoresLocale | lib/tarot-cards-complete.ts:146-153 | the meaning is the same for every locale |
| Tarot.SpreadPositions | lib/tarot-cards-complete.ts:159-175 | single, three and five have 1, 3 and 5 positions |
| TarotImages.ImageFile | lib/tarot-image-map.ts:7-91 | exactly ids 0..77 have a file (`ImageKeys`), named after that deck card (`ImageNamesFollowDeck`) |
| TarotImages.ImageKeys | lib/tarot-image-map.ts:7-91 | the map holds exactly the ids 0..77 |
| TarotImages.FallbackIsFool | lib/tarot-image-map.ts:100-103 | the fallback is the Fool's image |
| TarotImages.ImageNamesFollowDeck | lib/tarot-image-map.ts:7-91 | the file of card `id` is its two-digit id, a dash, that deck card's Chinese name and `.webp` |
| TarotImages.ImagePathFacts | lib/tarot-image-map.ts:98-105 | ids 0..77 get `/images/tarot/` + the file named after that card, every other id the Fool's image |
| HoroscopeSigns.IndexOfId | lib/horoscope-data.ts:20 | `find`: the first sign with that id, or none when no sign has it |
| HoroscopeSigns.IdsDistinct | lib/horoscope-data.ts:2-15 | the twelve ids are pairwise distinct |
| HoroscopeSigns.GetZodiacSignById | lib/horoscope-data.ts:19-21 | `find` by id: the sign with that id, or none when no sign has it (`GetZodiacSignByIdFacts`) |
| HoroscopeSigns.GetZodiacSignByIdFacts | lib/horoscope-data.ts:19-21 | a sign is found iff some sign has the id, and it is that sign |
| HoroscopeSigns.GetZodiacSignByDate | lib/horoscope-data.ts:23-41 | the sign whose range holds the date, which is unique (`ByDateIsUniqueRange`); never undefined (`ByDateTotal`); the cusp days (`ByDateBoundaries`) |
| HoroscopeSigns.ByDateIsUniqueRange | lib/horoscope-data.ts:23-41 | every date code lies in exactly one sign's range, and the chain returns that sign |
| HoroscopeSigns.ByDateTotal | lib/horoscope-data.ts:23-41 | the final `return undefined` is never reached |
| HoroscopeSigns.ByDateBoundaries | lib/horoscope-data.ts:27-38 | 3/21 Aries, 3/20 Pisces, 12/22 and 1/19 Capricorn, 1/20 Aquarius, 12/21 Sagittarius |
| HoroscopeSigns.DigitsPrint | lib/horoscope-data.ts:3-14 | the rendering used for the range texts is how a number prints |
| HoroscopeSigns.DateRangesAgree | lib/horoscope-data.ts:3-14 | every `dateRange` text names exactly the bounds the date chain compares with for that sign |
| HoroscopeSigns.AriesRange | lib/horoscope-data.ts:3 | Aries' `dateRange` names the bounds the date chain compares with |
| HoroscopeSigns.TaurusRange | lib/horoscope-data.ts:4 | Taurus' `dateRange` names the bounds the date chain compares with |
| HoroscopeSigns.GeminiRange | lib/horoscope-data.ts:5 | Gemini's `dateRange` names the bounds the date chain compares with |
| HoroscopeSigns.CancerRange | lib/horoscope-data.ts:6 | Cancer's `dateRange` names the bounds the date chain compares with |
| HoroscopeSigns.LeoRange | lib/horoscope-data.ts:7 | Leo's `dateRange` names the bounds the date chain compares with |
| HoroscopeSigns.VirgoRange | lib/horoscope-data.ts:8 | Virgo's `dateRange` names the bounds the date chain compares with |
| HoroscopeSigns.LibraRange | lib/horoscope-data.ts:9 | Libra's `dateRange` names the bounds the date chain compares with |
| HoroscopeSigns.ScorpioRange | lib/horoscope-data.ts:10 | Scorpio's `dateRange` names the bounds the date chain compares with |
| HoroscopeSigns.SagittariusRange | lib/horoscope-data.ts:11 | Sagittarius' `dateRange` names the bounds the date chain compares with |
| HoroscopeSigns.CapricornRange | lib/horoscope-data.ts:12 | Capricorn's `dateRange` names its bounds across the new year |
| HoroscopeSigns.AquariusRange | lib/horoscope-data.ts:13 | Aquarius' `dateRange` names the bounds the date chain compares with |
| HoroscopeSigns.PiscesRange | lib/horoscope-data.ts:14 | Pisces' `dateRange` names the bounds the date chain compares with |
| Compatibility.SignIndex | lib/compatibility.ts:59 | the matrix row of a sign id: the position of the sign with that id, or none for an unknown id |
| Compatibility.EntriesInRange | lib/compatibility.ts:4-53 | every matrix entry lies in 50..90 |
| Compatibility.EntriesSymmetric | lib/compatibility.ts:4-53 | the matrix as written is symmetric |
| Compatibility.GetCompatibilityScore | lib/compatibility.ts:55-60 | the matrix entry of two known signs, 50 otherwise, always in 50..90 (`ScoreFacts`), symmetric (`ScoreSymmetric`) |
| Compatibility.ScoreFacts | lib/compatibility.ts:55-60 | known signs score their matrix entry, an unknown one scores 50; always in 50..90 |
| Compatibility.IndexIsUnique | lib/compatibility.ts:59 | a known id resolves to its own position |
| Compatibility.ScoreSymmetric | lib/compatibility.ts:55-60 | swapping the two signs never changes the score |
| Compatibility.Band | lib/compatibility.ts:62-79 | the five disjoint bands ≥85, 75..84, 65..74, 55..64 and <55 |
| Compatibility.BandMonotone | lib/compatibility.ts:62-79 | a higher score never falls in a lower band |
| Compatibility.GetCompatibilityDescription | lib/compatibility.ts:62-79 | the text of the score's band in the locale's language (`DescriptionIsBandText`), bands ordered by score (`BandMonotone`) |
| Compatibility.DescriptionIsBandText | lib/compatibility.ts:62-79 | the description is the band's text, Chinese iff the locale is `zh` |
| HoroscopeBasic.Seed | lib/horoscope-content.ts:30 | `date.getTime() + signId.charCodeAt(0)`: only the first character of the id enters (`SameInitialSameHoroscope`) |
| HoroscopeBasic.Score | lib/horoscope-content.ts:36-40 | every score lies in 3..5 |
| HoroscopeBasic.LuckyNumber | lib/horoscope-content.ts:42-46 | every lucky number lies in 1..50 |
| HoroscopeBasic.LuckyColor | lib/horoscope-content.ts:52-55 | a lucky colour is one of the palette |
| HoroscopeBasic.Palette | lib/horoscope-content.ts:48-50 | the palette has eight colours |
| HoroscopeBasic.PaletteByLocale | lib/horoscope-content.ts:50 | the palette is the Chinese one iff the locale is `zh` |
| HoroscopeBasic.OverallWord | lib/horoscope-content.ts:77-87 | the overall text says 非常/very iff the score is 5 and 比较/quite iff it is 4 |
| HoroscopeBasic.OverallTip | lib/horoscope-content.ts:77-87 | the closing tip is the encouraging one iff the score is at least 4 |
| HoroscopeBasic.AspectTextsDiffer | lib/horoscope-content.ts:89-135 | the two texts of each aspect differ |
| HoroscopeBasic.AspectChoice | lib/horoscope-content.ts:89-135 | love, career, wealth and health give the favourable text iff the score is at least 4 |
| HoroscopeBasic.GenerateDailyHoroscope | lib/horoscope-content.ts:24-75 | the daily horoscope: scores, lucky numbers, colours and descriptions as `DailyFacts` states; sign ids sharing an initial agree (`SameInitialSameHoroscope`) |
| HoroscopeBasic.DailyFacts | lib/horoscope-content.ts:24-75 | five scores in 3..5, three lucky numbers in 1..50, two colours of the locale's palette, each description the one for its score |
| HoroscopeBasic.SameInitialSameHoroscope | lib/horoscope-content.ts:30 | only the sign id's first character enters the seed, so signs sharing an initial get the same horoscope |
| HoroscopeBasic.PeriodsAreDaily | lib/horoscope-content.ts:138-153 | weekly and monthly are the daily horoscope of the period's first day |
| HoroscopeEnhanced.SelectTemplates | lib/horoscope-content-enhanced.ts:294 | every template list found (the sign's, or aries' for an unknown sign) is non-empty |
| HoroscopeEnhanced.EnhancedDescription | lib/horoscope-content-enhanced.ts:317-333 | score word, one of the templates, action phrase (`DescriptionUsesTemplate`); 需要/need to never chosen for scores of 3 or more (`NeedWordUnreachable`) |
| HoroscopeEnhanced.DescriptionUsesTemplate | lib/horoscope-content-enhanced.ts:317-333 | whatever the draw, a description is the score word, one of the templates and the action phrase |
| HoroscopeEnhanced.NeedWordUnreachable | lib/horoscope-content-enhanced.ts:323-325 | scores of 3 or more never get 需要/need to |
| HoroscopeEnhanced.Palette | lib/horoscope-content-enhanced.ts:285-287 | the palette has ten colours |
| HoroscopeEnhanced.FailsOnlyForOtherLocales | lib/horoscope-content-enhanced.ts:294-303 | a horoscope is produced iff the locale is `zh` or `en` |
| HoroscopeEnhanced.GenerateDailyHoroscope | lib/horoscope-content-enhanced.ts:262-315 | succeeds iff the locale is `zh` or `en` (`FailsOnlyForOtherLocales`), agrees with the basic generator on scores and numbers (`DailyFacts`), draws change only descriptions (`DrawsOnlyChangeDescriptions`) |
| HoroscopeEnhanced.DailyFacts | lib/horoscope-content-enhanced.ts:262-315 | scores and lucky numbers equal the basic generator's; colours from the ten of the locale; each description uses a template of the sign (aries for an unknown sign); the advice is one of the sign's |
| HoroscopeEnhanced.DrawsOnlyChangeDescriptions | lib/horoscope-content-enhanced.ts:294-303 | the unseeded draws change only the five descriptions: scores, numbers, colours and advice are fixed by sign, date and locale |
| HoroscopeEnhanced.PeriodsAreDaily | lib/horoscope-content-enhanced.ts:336-351 | weekly and monthly are the daily horoscope of the period's first day |
| Sections.HeadingsFor | app/api/fortune/tarot/interpretation/route.ts:214-227 | English headings, matched without case, iff the locale is `en` |
| Sections.SectionEnd | app/api/fortune/tarot/interpretation/route.ts:218 | the lazy group stops at the first stop heading at or after its start, or at the end |
| Sections.Capture | app/api/fortune/tarot/interpretation/route.ts:217-232 | a section pattern: matches iff the heading occurs, and the capture is the text after it up to the next stop heading (`CaptureFacts`) |
| Sections.CaptureFacts | app/api/fortune/tarot/interpretation/route.ts:217-232 | a pattern matches iff its heading occurs; the capture starts after the first occurrence and its white space and runs to the first stop heading or the end |
| Sections.QuestionPartShowsQuestion | app/api/fortune/tarot/interpretation/route.ts:156-157 | a given question appears in the question part after its label |
| Sections.FramedNamesHeadings | app/api/fortune/tarot/interpretation/route.ts:159-195 | a prompt template names each of the three headings |
| Sections.FramedKeepsBody | app/api/fortune/tarot/interpretation/route.ts:166 | whatever the variable part contains, the prompt contains |
| Sections.LastSectionRunsToEnd | app/api/fortune/tarot/interpretation/route.ts:226 | the advice capture runs to the end of the reply |
| Sections.ParseAIResponse | app/api/fortune/tarot/interpretation/route.ts:203-245 | the reply's trimmed sections iff all three headings occur, otherwise the fallback (`ParseUsesReplyIffAllHeadings`) |
| Sections.ParseUsesReplyIffAllHeadings | app/api/fortune/tarot/interpretation/route.ts:229-244 | the reply is used iff all three headings occur, each part its trimmed capture; otherwise the fallback |
| TarotRoute.RequestLocale | app/api/fortune/tarot/interpretation/route.ts:22 | the given locale, or `zh` when absent; the result is `zh` only for an absent or `zh` locale, and an empty locale stays empty, unlike the Liu Yao route |
| TarotRoute.CheckInput | app/api/fortune/tarot/interpretation/route.ts:24-32 | accepted iff `cards` is present and non-empty; otherwise `INVALID_INPUT`, 400, the English message iff the locale is `en` |
| TarotRoute.SpreadOf | app/api/fortune/tarot/interpretation/route.ts:142-146 | the spread read iff the string is `single`, `three` or `five` |
| TarotRoute.CardLines | app/api/fortune/tarot/interpretation/route.ts:141-154 | one line per card, in order, `position: name status - meaning` |
| TarotRoute.BuildTarotPrompt | app/api/fortune/tarot/interpretation/route.ts:113-198 | every card's line (`PromptListsEveryCard`), a given question after its label (`PromptQuotesQuestion`), the bare template otherwise (`PromptWithoutQuestion`), the three headings (`PromptNamesTheHeadings`) |
| TarotRoute.PromptListsEveryCard | app/api/fortune/tarot/interpretation/route.ts:141-166 | every card's line appears in the prompt |
| TarotRoute.PositionFacts | app/api/fortune/tarot/interpretation/route.ts:142-146 | the single label, the three or five labels by index, "undefined" past their end |
| TarotRoute.PromptQuotesQuestion | app/api/fortune/tarot/interpretation/route.ts:156-166 | a given question appears after its label |
| TarotRoute.PromptWithoutQuestion | app/api/fortune/tarot/interpretation/route.ts:156-197 | without a question the prompt is the template around the card lines alone |
| TarotRoute.PromptNamesTheHeadings | app/api/fortune/tarot/interpretation/route.ts:159-197 | the prompt names the three headings the parse looks for |
| TarotRoute.NameStatuses | app/api/fortune/tarot/interpretation/route.ts:324-328 | name and status of each card, in order |
| TarotRoute.DetailLines | app/api/fortune/tarot/interpretation/route.ts:330-334 | one labelled detail line per card, in order |
| TarotRoute.GenerateInterpretation | app/api/fortune/tarot/interpretation/route.ts:250-356 | single spread from the first card only (`SingleUsesFirstCard`); three and five repeat the prompt's card lines (`ListedSpreadsRepeatPromptLines`); any other spread empty (`OtherSpreadIsEmpty`); advice quotes a given question |
| TarotRoute.SingleUsesFirstCard | app/api/fortune/tarot/interpretation/route.ts:316-322 | the single reading depends on `cards[0]` only: summary `prefix name status.`, details the summary then the chosen meaning |
| TarotRoute.TablesAgree | app/api/fortune/tarot/interpretation/route.ts:122-137 | the fallback's position and status labels are the prompt's |
| TarotRoute.DetailLinesArePromptLines | app/api/fortune/tarot/interpretation/route.ts:330-347 | the fallback's detail lines are the prompt's card lines |
| TarotRoute.ListedSpreadsRepeatPromptLines | app/api/fortune/tarot/interpretation/route.ts:323-348 | three and five: details are the summary, a blank line, then the prompt's card lines |
| TarotRoute.ListedSpreadsNameEveryCard | app/api/fortune/tarot/interpretation/route.ts:324-342 | three and five: the summary names every card with its orientation |
| TarotRoute.OtherSpreadIsEmpty | app/api/fortune/tarot/interpretation/route.ts:312-355 | any other spread gives three empty strings |
| TarotRoute.QuotedStartsWithOpening | app/api/fortune/tarot/interpretation/route.ts:275-305 | a quoting advice begins with the quote opening |
| TarotRoute.SingleUngivenDoesNotQuote | app/api/fortune/tarot/interpretation/route.ts:275-277 | without a question the single advice does not begin like a quoting one |
| TarotRoute.ThreeUngivenDoesNotQuote | app/api/fortune/tarot/interpretation/route.ts:278-280 | likewise the three-card advice |
| TarotRoute.FiveUngivenDoesNotQuote | app/api/fortune/tarot/interpretation/route.ts:281-283 | likewise the five-card advice |
| TarotRoute.AdviceFunctionsQuoteIffGiven | app/api/fortune/tarot/interpretation/route.ts:275-305 | each advice function quotes the question iff one is given, and then begins with it |
| TarotRoute.SingleAdviceQuotesIffGiven | app/api/fortune/tarot/interpretation/route.ts:322 | the single advice quotes the question iff one is given |
| TarotRoute.ListedAdviceQuotesIffGiven | app/api/fortune/tarot/interpretation/route.ts:335-348 | the three and five advice quotes the question iff one is given |
| TarotRoute.SingleAdviceAvoidIffReversed | app/api/fortune/tarot/interpretation/route.ts:276 | with a question the single advice says 注意避免/avoid iff the card is reversed, 积极面对/actively face otherwise |
| TarotRoute.SingleAdviceWithoutQuestion | app/api/fortune/tarot/interpretation/route.ts:277 | without a question the single advice ignores the card |
| TarotRoute.OtherLocalesAreChinese | app/api/fortune/tarot/interpretation/route.ts:119 | every locale but `en` gives the Chinese prompt and reading |
| TarotRoute.ParseAIResponse | app/api/fortune/tarot/interpretation/route.ts:203-245 | the reply's sections iff all three headings occur, otherwise the local reading (`ReplyOrLocalReading`) |
| TarotRoute.ReplyOrLocalReading | app/api/fortune/tarot/interpretation/route.ts:203-245 | the reply's sections iff all three headings occur, otherwise the local reading |
| LiuYaoRoute.RequestLocale | app/api/fortune/liuyao/interpretation/route.ts:42 | a non-empty locale as given; an absent or empty one is `zh` |
| LiuYaoRoute.CheckInput | app/api/fortune/liuyao/interpretation/route.ts:45-53 | accepted iff `yaos` is present and non-empty and `benGua` present; otherwise `INVALID_INPUT`, 400, English iff `en` |
| LiuYaoRoute.ValueLabel | app/api/fortune/liuyao/interpretation/route.ts:148-151 | values 7, 8 and 9 end with their own value in parentheses; every other value gets the old-yin label ending in `(6)` |
| LiuYaoRoute.LineFacts | app/api/fortune/liuyao/interpretation/route.ts:146-155 | line `i` starts with the label of position `i + 1` and its type, and ends with the change mark iff it changes |
| LiuYaoRoute.ValueLabelShowsValue | app/api/fortune/liuyao/interpretation/route.ts:148-151 | for values 6..9 the label ends with the value in parentheses |
| LiuYaoRoute.TossedLineMarkedIffOld | app/api/fortune/liuyao/interpretation/route.ts:152-153 | a tossed line is marked changing iff its value is 6 or 9 |
| LiuYaoRoute.PositionNumerals | app/api/fortune/liuyao/interpretation/route.ts:165-166 | each changing position as its decimal text |
| LiuYaoRoute.ChangingLineTexts | app/api/fortune/liuyao/interpretation/route.ts:169-172 | one text per changing position, in order |
| LiuYaoRoute.BuildLiuYaoPrompt | app/api/fortune/liuyao/interpretation/route.ts:134-222 | every line (`PromptListsEveryLine`), the original hexagram (`PromptShowsOriginalHexagram`), the changed block iff `bianGua` and positions (`BianGuaBlockIff`), the headings (`PromptNamesTheHeadings`) |
| LiuYaoRoute.PromptKeepsBody | app/api/fortune/liuyao/interpretation/route.ts:179-219 | whatever the variable part contains, the prompt contains |
| LiuYaoRoute.PromptListsEveryLine | app/api/fortune/liuyao/interpretation/route.ts:145-156 | every line of the hexagram appears in the prompt |
| LiuYaoRoute.PromptShowsOriginalHexagram | app/api/fortune/liuyao/interpretation/route.ts:158-160 | the original hexagram's block appears in the prompt |
| LiuYaoRoute.BianGuaBlockIff | app/api/fortune/liuyao/interpretation/route.ts:162-174 | the changed hexagram's block is there iff `bianGua` is given and `changingYaos` is non-empty |
| LiuYaoRoute.BlockIffSomeLineChanges | app/api/fortune/liuyao/interpretation/route.ts:162-174 | with the positions the lines give, the block is there iff `bianGua` is given and some line changes |
| LiuYaoRoute.PromptWithoutChange | app/api/fortune/liuyao/interpretation/route.ts:162-219 | without the block the prompt holds the lines, the original hexagram and the question only |
| LiuYaoRoute.PromptListsChangingLineTexts | app/api/fortune/liuyao/interpretation/route.ts:169-173 | with the block, each changing position's text `yaoCi[pos-1]` appears |
| LiuYaoRoute.PromptQuotesQuestion | app/api/fortune/liuyao/interpretation/route.ts:176-177 | a given question appears after its label |
| LiuYaoRoute.PromptNamesTheHeadings | app/api/fortune/liuyao/interpretation/route.ts:179-219 | the prompt names the three headings the parse looks for |
| LiuYaoRoute.GenerateInterpretation | app/api/fortune/liuyao/interpretation/route.ts:276-303 | branches on `bianGua` alone (`FallbackBranchesOnBianGua`), ignores the lines (`FallbackIgnoresLines`), advice quotes a given question (`AdviceQuotesIffGiven`) |
| LiuYaoRoute.SummaryBranchesOnBianGua | app/api/fortune/liuyao/interpretation/route.ts:292 | the summary ends with the stable text iff there is no `bianGua`, otherwise with the evolution |
| LiuYaoRoute.DetailBranchesOnBianGua | app/api/fortune/liuyao/interpretation/route.ts:293 | the details end with the stable text iff there is no `bianGua`, otherwise with the development |
| LiuYaoRoute.FallbackBranchesOnBianGua | app/api/fortune/liuyao/interpretation/route.ts:288-302 | the local reading branches on `bianGua`, whatever `changingYaos` holds |
| LiuYaoRoute.FallbackIgnoresLines | app/api/fortune/liuyao/interpretation/route.ts:276-303 | the reading ignores `yaos`, and without `bianGua` also `changingYaos` |
| LiuYaoRoute.ChangeWithoutChangingPositions | app/api/fortune/liuyao/interpretation/route.ts:163 | `bianGua` with no position drops out of the prompt but the reading still speaks of 0 changing lines |
| LiuYaoRoute.AdviceQuotesIffGiven | app/api/fortune/liuyao/interpretation/route.ts:294 | the advice starts with its base and goes on to the quoted question iff one is given |
| LiuYaoRoute.OtherLocalesAreChinese | app/api/fortune/liuyao/interpretation/route.ts:142 | every locale but `en` gives the Chinese prompt and reading |
| LiuYaoRoute.ParseAIResponse | app/api/fortune/liuyao/interpretation/route.ts:227-271 | the reply's sections iff all three headings occur, otherwise the local reading (`ReplyOrLocalReading`) |
| LiuYaoRoute.ReplyOrLocalReading | app/api/fortune/liuyao/interpretation/route.ts:227-271 | the reply's sections iff all three headings occur, otherwise the local reading |

## Left out

- Sexagenary.YearPillar, Sexagenary.DayPillarOf, Bazi.MonthPillar, CalendarEnhanced.MonthPillar, CalendarBasic.GanZhiOf: these require year ≥ 4, and the day pillar a day index `diffDays + 6` ≥ 0 (dates from 1899-12-26 on). So do the members built on them: `Sexagenary.DayPillar`, `Bazi.CalculateBazi` and the calendar's `InRange` dates. Inside those domains JavaScript's `%` and Dafny's agree. Outside them the source takes a negative remainder, indexes a glyph array with it and prints `undefined`; the model does not cover those years and dates.
- The sin-based generator and the float products `seed * k` are a parameter `rng` with values in [0, 1). What the generator actually returns for a seed is not modelled.
- `Math.random` is input: coin tosses, card draws, orientations and template choices are sequences of values in [0, 1).
- Time zones and daylight saving are not modelled. A date is a calendar date plus milliseconds into the day, and `getTime()` is read as UTC.
- `getLunarDate`, in both calendar files, only formats the Gregorian date. It is not modelled.
- The sort in `generateAnalysis` is modelled by its first and last entries (`Bazi.FirstMax`, `Bazi.LastMin`), which are all the source reads of it. The sorted array itself is not built.
- The long texts are data, not modelled wording:
  - the sixty-four hexagrams, the tarot meanings, the horoscope templates and the Liu Yao reading phrases;
  - the prompt templates, which are represented only by the text around their headings.
- JSON values outside the typed shapes are not modelled:
  - a `spread` string is one of the three spreads or `None`;
  - `changingYaos` holds integers, not arbitrary numbers;
  - a `yaos` entry's `type` and `change` strings are the line kind and changing flag of `LiuYao.Yao`.
- `Compatibility.SignIndex`: only the twelve sign ids are matrix keys. Prototype keys such as `constructor` are not modelled.
- Compatibility band texts are not proved distinct.
- `HoroscopeBasic.Seed` reads `charCodeAt(0)` as the code of the first character. Characters outside the Basic Multilingual Plane are not modelled.
- `HoroscopeEnhanced.GenerateDailyHoroscope`: a locale outside zh/en makes the source throw on `undefined.overall`. The model returns a failure value instead.
- Route I/O is not modelled: `fetch` to the model API, the API key, logging, JSON responses, and the 500 `SERVER_ERROR` path.
- Regular expressions are modelled by what the three patterns match. The `i` flag is ASCII case folding, and `trim()` drops ASCII and common Unicode white space.
- `LiuYao.GenerateInterpretation` requires every changing position to name a line text. Positions come from six lines, so this holds for every reading `generateLiuYao` makes.
