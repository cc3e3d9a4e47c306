/**
 * The stem/branch (gan/zhi) arithmetic that lib/bazi-calculator.ts and
 * lib/calendar-data-enhanced.ts both carry, with the glyph and element tables they share.
 * The year, day and hour formulas and the zodiac animal are the same in both files;
 * the month formulas differ and live with each file's own module.
 */
module Sexagenary {
  import opened Wrappers
  import opened Dates

  /** The ten Heavenly Stems 甲 ... 癸. */
  const Gan: string := "甲乙丙丁戊己庚辛壬癸"
  /** The twelve Earthly Branches 子 ... 亥. */
  const Zhi: string := "子丑寅卯辰巳午未申酉戌亥"
  /** The twelve zodiac animals, aligned with the branches: `zodiacs[b]`. */
  function ZodiacAnimal(b: nat): string
    requires b < 12
  {
    match b
    case 0 => "鼠"
    case 1 => "牛"
    case 2 => "虎"
    case 3 => "兔"
    case 4 => "龙"
    case 5 => "蛇"
    case 6 => "马"
    case 7 => "羊"
    case 8 => "猴"
    case 9 => "鸡"
    case 10 => "狗"
    case _ => "猪"
  }

  datatype Element = Metal | Wood | Water | Fire | Earth

  /** `wuxingList`, in its declaration order 金 木 水 火 土. */
  const Elements: seq<Element> := [Metal, Wood, Water, Fire, Earth]

  function ElementGlyph(e: Element): string {
    match e
    case Metal => "金"
    case Wood => "木"
    case Water => "水"
    case Fire => "火"
    case Earth => "土"
  }

  /** A stem index and a branch index. */
  datatype Pillar = Pillar(stem: nat, branch: nat)

  predicate ValidPillar(p: Pillar) {
    p.stem < 10 && p.branch < 12
  }

  /** A traditional sexagenary pair: stem and branch have the same parity. */
  predicate InCycle(p: Pillar) {
    p.stem % 2 == p.branch % 2
  }

  /** The two-glyph rendering `${gan[stem]}${zhi[branch]}`. */
  function Label(p: Pillar): (s: string)
    requires ValidPillar(p)
    ensures |s| == 2 && s[0] == Gan[p.stem] && s[1] == Zhi[p.branch]
  {
    [Gan[p.stem], Zhi[p.branch]]
  }

  /** `getYearGanZhi`: stem `(year - 4) % 10`, branch `(year - 4) % 12`. */
  function YearPillar(year: int): (p: Pillar)
    requires year >= 4
    ensures ValidPillar(p) && InCycle(p)
    ensures p.stem == (year - 4) % 10 && p.branch == (year - 4) % 12
  {
    Pillar((year - 4) % 10, (year - 4) % 12)
  }

  /** The year pillar repeats every sixty years. */
  lemma YearPillarCycle(year: int)
    requires year >= 4
    ensures YearPillar(year + 60) == YearPillar(year)
  {
    var x := year - 4;
    assert x + 60 == (x / 10 + 6) * 10 + x % 10;
    assert x + 60 == (x / 12 + 5) * 12 + x % 12;
  }

  /** `getZodiac`: the animal at `(year - 4) % 12`. */
  function Zodiac(year: int): (z: string)
    requires year >= 4
    ensures z == ZodiacAnimal(YearPillar(year).branch)
  {
    ZodiacAnimal((year - 4) % 12)
  }

  /** The stem and branch index of a day counted from 1900-01-01. */
  function DayPillarOf(diffDays: int): (p: Pillar)
    requires diffDays + 6 >= 0
    ensures ValidPillar(p) && InCycle(p)
    ensures p.stem == (diffDays + 6) % 10 && p.branch == (diffDays + 6) % 12
  {
    Pillar((diffDays + 6) % 10, (diffDays + 6) % 12)
  }

  /** `getDayGanZhi`: the day pillar from the timestamp difference to 1900-01-01. */
  function DayPillar(t: DateTime): (p: Pillar)
    requires ValidDateTime(t) && DayNumber(t.date) + 6 >= 0
    ensures ValidPillar(p) && InCycle(p)
    ensures p == DayPillarOf(DayNumber(t.date))
  {
    DiffDaysIsDayNumber(t);
    DayPillarOf(DiffDays(t))
  }

  /** The epoch 1900-01-01 is the day 庚午 (stem 6, branch 6), at any time of that day. */
  lemma DayPillarEpoch(ms: int)
    requires 0 <= ms < MsPerDay
    ensures DayPillar(DateTime(Date(1900, 1, 1), ms)) == Pillar(6, 6)
    ensures Label(Pillar(6, 6)) == "庚午"
  {
    assert DayNumber(Date(1900, 1, 1)) == 0;
  }

  /** The time of day does not change the day pillar. */
  lemma DayPillarIgnoresTime(t1: DateTime, t2: DateTime)
    requires ValidDateTime(t1) && ValidDateTime(t2) && t1.date == t2.date
    requires DayNumber(t1.date) + 6 >= 0
    ensures DayPillar(t1) == DayPillar(t2)
  {
  }

  /** `gan.indexOf(c)`, when `c` is a stem glyph. */
  function StemIndexOf(c: char): (r: Option<nat>)
    ensures r.Some? ==> r.value < 10 && Gan[r.value] == c
    ensures r.None? ==> forall i :: 0 <= i < 10 ==> Gan[i] != c
  {
    if c == '甲' then Some(0) else if c == '乙' then Some(1)
    else if c == '丙' then Some(2) else if c == '丁' then Some(3)
    else if c == '戊' then Some(4) else if c == '己' then Some(5)
    else if c == '庚' then Some(6) else if c == '辛' then Some(7)
    else if c == '壬' then Some(8) else if c == '癸' then Some(9)
    else None
  }

  /** The branch index of the two-hour slot holding `hour`: `Math.floor((hour + 1) / 2) % 12`. */
  function HourBranch(hour: int): (b: nat)
    requires hour >= 0
    ensures b < 12
  {
    ((hour + 1) / 2) % 12
  }

  /** 23:00 and 00:00 both fall in the 子 slot; each later pair of hours moves one branch on. */
  lemma HourBranchSlots(hour: int)
    requires 0 <= hour <= 22
    ensures HourBranch(23) == HourBranch(0) == 0
    ensures HourBranch(hour) == (hour + 1) / 2
  {
  }

  /**
   * `getHourGanZhi(dayGan, hour)`: branch from the hour, stem `(ganIndex * 2 + branch) % 10`
   * where `ganIndex` is the index of the first glyph of the day label.
   */
  function HourPillar(dayGan: string, hour: int): (p: Pillar)
    requires hour >= 0 && |dayGan| > 0 && StemIndexOf(dayGan[0]).Some?
    ensures ValidPillar(p) && InCycle(p)
    ensures p.branch == HourBranch(hour)
    ensures p.stem == (StemIndexOf(dayGan[0]).value * 2 + p.branch) % 10
  {
    var g := StemIndexOf(dayGan[0]).value;
    var b := HourBranch(hour);
    Pillar((g * 2 + b) % 10, b)
  }

  /** `ganWuxing`: the element of each stem glyph (undefined for any other character). */
  function GanWuxing(c: char): (r: Option<Element>)
    ensures r.Some? <==> StemIndexOf(c).Some?
  {
    if c == '甲' || c == '乙' then Some(Wood)
    else if c == '丙' || c == '丁' then Some(Fire)
    else if c == '戊' || c == '己' then Some(Earth)
    else if c == '庚' || c == '辛' then Some(Metal)
    else if c == '壬' || c == '癸' then Some(Water)
    else None
  }

  /** `zhiWuxing`: the element of each branch glyph (undefined for any other character). */
  function ZhiWuxing(c: char): (r: Option<Element>)
    ensures r.Some? <==> exists j :: 0 <= j < 12 && Zhi[j] == c
  {
    var r :=
      if c == '子' || c == '亥' then Some(Water)
      else if c == '丑' || c == '辰' || c == '未' || c == '戌' then Some(Earth)
      else if c == '寅' || c == '卯' then Some(Wood)
      else if c == '巳' || c == '午' then Some(Fire)
      else if c == '申' || c == '酉' then Some(Metal)
      else None;
    assert r.Some? ==> exists j :: 0 <= j < 12 && Zhi[j] == c by {
      if r.Some? {
        var j := if c == '子' then 0 else if c == '丑' then 1 else if c == '寅' then 2
          else if c == '卯' then 3 else if c == '辰' then 4 else if c == '巳' then 5
          else if c == '午' then 6 else if c == '未' then 7 else if c == '申' then 8
          else if c == '酉' then 9 else if c == '戌' then 10 else 11;
        assert Zhi[j] == c;
      }
    }
    r
  }

  /** Every glyph of a valid pillar has an element: the stem's and the branch's. */
  lemma LabelElements(p: Pillar)
    requires ValidPillar(p)
    ensures GanWuxing(Label(p)[0]).Some? && ZhiWuxing(Label(p)[1]).Some?
  {
    assert Zhi[p.branch] == Label(p)[1];
  }
}
