/**
 * The first almanac generator, lib/calendar-data.ts: a year-only stem/branch label, the
 * zodiac animal, and seeded picks of activities and hours drawn by rejection sampling.
 *
 * Each pick runs `do { index = floor(rng(seed * (i + k)) * n) } while (used.has(index))`.
 * The seed of the retry does not change, so a retry draws the same index again: a pick
 * either succeeds with its first draw or the loop never ends. The model states that
 * outcome directly as `Hangs`.
 */
module CalendarBasic {
  import opened Seeded
  import opened Dates
  import opened Sexagenary

  /** The result of a generator that may loop forever. */
  datatype Outcome<+T> = Done(value: T) | Hangs

  /** `suitableItems` and `avoidItems`: the two lists of lib/calendar-data.ts are the same 24 entries. */
  const ItemCount: nat := 24

  function Item(i: nat): string
    requires i < ItemCount
  {
    match i
    case 0 => "结婚"
    case 1 => "订婚"
    case 2 => "出行"
    case 3 => "搬家"
    case 4 => "开业"
    case 5 => "装修"
    case 6 => "动土"
    case 7 => "安葬"
    case 8 => "祭祀"
    case 9 => "祈福"
    case 10 => "求嗣"
    case 11 => "开光"
    case 12 => "入学"
    case 13 => "考试"
    case 14 => "签约"
    case 15 => "交易"
    case 16 => "纳财"
    case 17 => "置产"
    case 18 => "栽种"
    case 19 => "破土"
    case 20 => "上梁"
    case 21 => "入宅"
    case 22 => "安床"
    case _ => "拆卸"
  }

  /** `hours[i].name`. */
  const HourCount: nat := 12

  function HourName(i: nat): string
    requires i < HourCount
  {
    match i
    case 0 => "子时"
    case 1 => "丑时"
    case 2 => "寅时"
    case 3 => "卯时"
    case 4 => "辰时"
    case 5 => "巳时"
    case 6 => "午时"
    case 7 => "未时"
    case 8 => "申时"
    case 9 => "酉时"
    case 10 => "戌时"
    case _ => "亥时"
  }

  // ---------------------------------------------------------------- labels

  /** `getGanZhi(date)`: the year pillar only, `${gan[(year - 4) % 10]}${zhi[(year - 4) % 12]}`. */
  function GanZhiOf(year: int): (s: string)
    requires year >= 4
    ensures |s| == 2 && s[0] == Gan[(year - 4) % 10] && s[1] == Zhi[(year - 4) % 12]
  {
    Label(YearPillar(year))
  }

  /** The label's branch and `getZodiac` read the same index: the animal is the label's year animal. */
  lemma ZodiacAligned(year: int)
    requires year >= 4
    ensures GanZhiOf(year)[1] == Zhi[YearPillar(year).branch]
    ensures Zodiac(year) == ZodiacAnimal(YearPillar(year).branch)
    ensures GanZhiOf(year + 60) == GanZhiOf(year) && Zodiac(year + 60) == Zodiac(year)
  {
    YearPillarCycle(year);
  }

  // ---------------------------------------------------------------- rejection sampling

  /** Draw number `i`: `Math.floor(rng(seed * (i + offset)) * n)`. */
  function Draw(rng: Rng, seed: int, offset: int, i: nat, n: nat): (j: nat)
    requires n > 0
    ensures j < n
  {
    Pick(rng(seed * (i + offset)), n)
  }

  /** The first draws of the `count` picks, before any repeat is rejected. */
  function Draws(rng: Rng, seed: int, offset: int, count: nat, n: nat): (r: seq<nat>)
    requires n > 0
    ensures |r| == count && forall k :: 0 <= k < count ==> r[k] < n
    decreases count
  {
    if count == 0 then [] else Draws(rng, seed, offset, count - 1, n) + [Draw(rng, seed, offset, count - 1, n)]
  }

  predicate AllDistinct(s: seq<nat>) {
    forall i, j :: 0 <= i < j < |s| ==> s[i] != s[j]
  }

  /** The values a list holds, as the `used` set collects them. */
  function Members(s: seq<nat>): set<nat> {
    set x | x in s
  }

  /** What the picking loop yields: the draws when no two collide; otherwise it never ends. */
  function Sampled(rng: Rng, seed: int, offset: int, count: nat, n: nat): (r: Outcome<seq<nat>>)
    requires n > 0
    ensures r.Done? ==> |r.value| == count && forall k :: 0 <= k < count ==> r.value[k] < n
  {
    var d := Draws(rng, seed, offset, count, n);
    if AllDistinct(d) then Done(d) else Hangs
  }

  lemma {:induction false} DrawsPrefix(rng: Rng, seed: int, offset: int, i: nat, count: nat, n: nat)
    requires n > 0 && i <= count
    ensures Draws(rng, seed, offset, count, n)[..i] == Draws(rng, seed, offset, i, n)
    decreases count
  {
    if i < count {
      DrawsPrefix(rng, seed, offset, i, count - 1, n);
      var d := Draws(rng, seed, offset, count, n);
      assert d[..count - 1] == Draws(rng, seed, offset, count - 1, n);
      assert d[..i] == d[..count - 1][..i];
    }
  }

  lemma DrawsAt(rng: Rng, seed: int, offset: int, i: nat, count: nat, n: nat)
    requires n > 0 && i < count
    ensures Draws(rng, seed, offset, count, n)[i] == Draw(rng, seed, offset, i, n)
  {
    DrawsPrefix(rng, seed, offset, i + 1, count, n);
    assert Draws(rng, seed, offset, count, n)[..i + 1][i] == Draws(rng, seed, offset, i + 1, n)[i];
  }

  /**
   * The `for` loop of picks with its `used` set. A draw found in `used` would be redrawn from
   * the same seed forever; the method returns `Hangs` there.
   */
  method PickDistinct(rng: Rng, seed: int, offset: int, count: nat, n: nat) returns (out: Outcome<seq<nat>>)
    requires n > 0
    ensures out == Sampled(rng, seed, offset, count, n)
  {
    var used: set<nat> := {};
    var chosen: seq<nat> := [];
    var i := 0;
    while i < count
      invariant 0 <= i <= count
      invariant chosen == Draws(rng, seed, offset, i, n) && AllDistinct(chosen)
      invariant used == Members(chosen)
    {
      var index := Pick(rng(seed * (i + offset)), n);
      if index in used {
        assert index in chosen;
        var k :| 0 <= k < i && chosen[k] == index;
        Collision(rng, seed, offset, k, i, count, n);
        return Hangs;
      }
      used := used + {index};
      chosen := chosen + [index];
      assert used == Members(chosen);
      i := i + 1;
    }
    return Done(chosen);
  }

  /** Two equal early draws leave the full list of draws with a repeat. */
  lemma Collision(rng: Rng, seed: int, offset: int, k: nat, i: nat, count: nat, n: nat)
    requires n > 0 && k < i < count
    requires Draws(rng, seed, offset, i, n)[k] == Draw(rng, seed, offset, i, n)
    ensures !AllDistinct(Draws(rng, seed, offset, count, n))
  {
    DrawsAt(rng, seed, offset, k, count, n);
    DrawsAt(rng, seed, offset, k, i, n);
    DrawsAt(rng, seed, offset, i, count, n);
  }

  /**
   * A finished pick holds `count` pairwise different indices below `n`, the first draw of each
   * step; the loop finishes exactly when those first draws are pairwise different.
   */
  lemma SampledFacts(rng: Rng, seed: int, offset: int, count: nat, n: nat)
    requires n > 0
    ensures Sampled(rng, seed, offset, count, n).Done? <==>
      forall i, j :: 0 <= i < j < count ==> Draw(rng, seed, offset, i, n) != Draw(rng, seed, offset, j, n)
    ensures Sampled(rng, seed, offset, count, n).Done? ==>
      var r := Sampled(rng, seed, offset, count, n).value;
      |r| == count && AllDistinct(r) && forall k :: 0 <= k < count ==> r[k] < n && r[k] == Draw(rng, seed, offset, k, n)
  {
    forall k | 0 <= k < count
      ensures Draws(rng, seed, offset, count, n)[k] == Draw(rng, seed, offset, k, n)
    {
      DrawsAt(rng, seed, offset, k, count, n);
    }
  }

  /** More picks than values always collide, so such a loop never ends. */
  lemma {:induction false} TooManyPicksHang(rng: Rng, seed: int, offset: int, count: nat, n: nat)
    requires 0 < n < count
    ensures Sampled(rng, seed, offset, count, n) == Hangs
  {
    var d := Draws(rng, seed, offset, count, n);
    if AllDistinct(d) {
      DistinctCard(d);
      BoundedCard(Members(d), n);
      assert false;
    }
  }

  lemma {:induction false} DistinctCard(d: seq<nat>)
    requires AllDistinct(d)
    ensures |Members(d)| == |d|
    decreases |d|
  {
    if |d| > 0 {
      var p := d[..|d| - 1];
      assert d == p + [d[|d| - 1]];
      assert AllDistinct(p);
      DistinctCard(p);
      assert Members(d) == Members(p) + {d[|d| - 1]};
      assert d[|d| - 1] !in Members(p);
    }
  }

  lemma {:induction false} BoundedCard(s: set<nat>, n: nat)
    requires forall x :: x in s ==> x < n
    ensures |s| <= n
    decreases n
  {
    if n > 0 {
      BoundedCard(s - {n - 1}, n - 1);
    } else {
      assert s == {};
    }
  }

  // ---------------------------------------------------------------- suitable and avoided

  /** `Math.floor(random(seed) * 3) + 3`. */
  function SuitableCount(rng: Rng, seed: int): (c: nat)
    ensures 3 <= c <= 5
  {
    Pick(rng(seed), 3) + 3
  }

  /** `Math.floor(random(seed * 100) * 3) + 2`. */
  function AvoidCount(rng: Rng, seed: int): (c: nat)
    ensures 2 <= c <= 4
  {
    Pick(rng(seed * 100), 3) + 2
  }

  function Items(idx: seq<nat>): (r: seq<string>)
    requires forall k :: 0 <= k < |idx| ==> idx[k] < ItemCount
    ensures |r| == |idx| && forall k :: 0 <= k < |idx| ==> r[k] == Item(idx[k])
  {
    seq(|idx|, k requires 0 <= k < |idx| => Item(idx[k]))
  }

  /** The activities at the picked indices, or `Hangs` when the pick never ends. */
  function Chosen(o: Outcome<seq<nat>>): Outcome<seq<string>>
    requires o.Done? ==> forall k :: 0 <= k < |o.value| ==> o.value[k] < ItemCount
  {
    match o
    case Done(idx) => Done(Items(idx))
    case Hangs => Hangs
  }

  function SuitableOf(rng: Rng, seed: int): Outcome<seq<string>> {
    Chosen(Sampled(rng, seed, 1, SuitableCount(rng, seed), ItemCount))
  }

  function AvoidOf(rng: Rng, seed: int): Outcome<seq<string>> {
    Chosen(Sampled(rng, seed, 200, AvoidCount(rng, seed), ItemCount))
  }

  /** One picking loop over the activity table, pushing `items[index]` for each pick. */
  method PickItems(rng: Rng, seed: int, offset: int, count: nat) returns (out: Outcome<seq<string>>)
    ensures out == Chosen(Sampled(rng, seed, offset, count, ItemCount))
  {
    var picked := PickDistinct(rng, seed, offset, count, ItemCount);
    if picked.Hangs? {
      return Hangs;
    }
    out := Done(Items(picked.value));
  }

  /**
   * `generateSuitableAndAvoid(date)`: three to five suitable activities with draw seeds
   * `seed * (i + 1)`, then two to four avoided ones with `seed * (i + 200)`.
   */
  method GenerateSuitableAndAvoid(date: DateTime, rng: Rng) returns (suitable: Outcome<seq<string>>, avoid: Outcome<seq<string>>)
    requires ValidDateTime(date)
    ensures suitable == SuitableOf(rng, Timestamp(date))
    ensures avoid == (if suitable.Hangs? then Hangs else AvoidOf(rng, Timestamp(date)))
  {
    var seed := Timestamp(date);
    var suitableCount := Pick(rng(seed), 3) + 3;
    suitable := PickItems(rng, seed, 1, suitableCount);
    if suitable.Hangs? {
      return suitable, Hangs;
    }
    var avoidCount := Pick(rng(seed * 100), 3) + 2;
    avoid := PickItems(rng, seed, 200, avoidCount);
  }

  /** Finished lists hold three to five and two to four different activities. */
  lemma SuitableAndAvoidSizes(rng: Rng, seed: int)
    ensures SuitableOf(rng, seed).Done? ==>
      var s := SuitableOf(rng, seed).value;
      3 <= |s| <= 5 && forall i, j :: 0 <= i < j < |s| ==> s[i] != s[j]
    ensures AvoidOf(rng, seed).Done? ==>
      var a := AvoidOf(rng, seed).value;
      2 <= |a| <= 4 && forall i, j :: 0 <= i < j < |a| ==> a[i] != a[j]
  {
    SampledFacts(rng, seed, 1, SuitableCount(rng, seed), ItemCount);
    SampledFacts(rng, seed, 200, AvoidCount(rng, seed), ItemCount);
    ItemsDistinct();
  }

  /** The 24 activities are pairwise different, so different indices give different activities. */
  lemma ItemsDistinct()
    ensures forall i, j :: 0 <= i < j < ItemCount ==> Item(i) != Item(j)
  {
  }

  /** A generator whose value follows the seed modulo 200, then 24 (used to exhibit a day). */
  function SteppedRng(): Rng {
    s => ((s % 200) % 24) as real / 24.0
  }

  /** Both lists draw from the same table: on seed 1 with `SteppedRng`, 订婚 is suitable and avoided. */
  lemma SuitableAndAvoidedAtOnce()
    ensures SuitableOf(SteppedRng(), 1) == Done(["订婚", "出行", "搬家"])
    ensures AvoidOf(SteppedRng(), 1) == Done(["结婚", "订婚"])
  {
    SteppedDraws();
    assert Items([1, 2, 3]) == ["订婚", "出行", "搬家"];
    assert Items([0, 1]) == ["结婚", "订婚"];
  }

  lemma SteppedDraws()
    ensures SuitableCount(SteppedRng(), 1) == 3 && AvoidCount(SteppedRng(), 1) == 2
    ensures Draws(SteppedRng(), 1, 1, 3, ItemCount) == [1, 2, 3]
    ensures Draws(SteppedRng(), 1, 200, 2, ItemCount) == [0, 1]
  {
    var rng := SteppedRng();
    assert Pick(rng(1), 3) == 0;
    assert Pick(rng(100), 3) == 0;
    assert Draw(rng, 1, 1, 0, ItemCount) == 1;
    assert Draw(rng, 1, 1, 1, ItemCount) == 2;
    assert Draw(rng, 1, 1, 2, ItemCount) == 3;
    assert Draw(rng, 1, 200, 0, ItemCount) == 0;
    assert Draw(rng, 1, 200, 1, ItemCount) == 1;
    assert Draws(rng, 1, 1, 1, ItemCount) == [1];
    assert Draws(rng, 1, 1, 2, ItemCount) == [1, 2];
    assert Draws(rng, 1, 200, 1, ItemCount) == [0];
  }

  /** With a constant generator the second draw repeats the first: the day is never finished. */
  lemma ConstantGeneratorHangs(seed: int)
    ensures SuitableOf(_ => 0.0, seed) == Hangs
  {
    var rng: Rng := _ => 0.0;
    var c := SuitableCount(rng, seed);
    DrawsAt(rng, seed, 1, 0, c, ItemCount);
    DrawsAt(rng, seed, 1, 1, c, ItemCount);
  }

  // ---------------------------------------------------------------- lucky and unlucky hours

  /** `Math.floor(random(seed) * 4) + 3`. */
  function LuckyCount(rng: Rng, seed: int): (c: nat)
    ensures 3 <= c <= 6
  {
    Pick(rng(seed), 4) + 3
  }

  /** The hour indices below `k` that are not in `used`, in increasing order. */
  function Remaining(used: set<nat>, k: nat): (r: seq<nat>)
    ensures forall i :: 0 <= i < |r| ==> r[i] < k
    decreases k
  {
    if k == 0 then [] else Remaining(used, k - 1) + (if k - 1 in used then [] else [k - 1])
  }

  /** The second loop: scan `hours` in table order and push what the lucky picks left. */
  method RemainingHours(used: set<nat>) returns (unlucky: seq<nat>)
    ensures unlucky == Remaining(used, HourCount)
  {
    unlucky := [];
    var i := 0;
    while i < HourCount
      invariant 0 <= i <= HourCount && unlucky == Remaining(used, i)
    {
      if i !in used {
        unlucky := unlucky + [i];
      }
      i := i + 1;
    }
  }

  /** Exactly the hours below `k` outside `used` are left. */
  lemma {:induction false} RemainingMembers(used: set<nat>, k: nat)
    ensures forall x: nat :: x in Remaining(used, k) <==> x < k && x !in used
    decreases k
  {
    if k > 0 {
      RemainingMembers(used, k - 1);
      var prev := Remaining(used, k - 1);
      var r := Remaining(used, k);
      assert r == prev + (if k - 1 in used then [] else [k - 1]);
      forall x: nat
        ensures x in r <==> x < k && x !in used
      {
        assert x in prev <==> x < k - 1 && x !in used;
      }
    }
  }

  /** The hours left keep table order. */
  lemma {:induction false} RemainingSorted(used: set<nat>, k: nat)
    ensures forall i, j :: 0 <= i < j < |Remaining(used, k)| ==> Remaining(used, k)[i] < Remaining(used, k)[j]
    decreases k
  {
    if k > 0 {
      RemainingSorted(used, k - 1);
    }
  }

  /** As many hours are left as `used` leaves free below `k`. */
  lemma {:induction false} RemainingCount(used: set<nat>, k: nat)
    ensures |Remaining(used, k)| + |set x | x in used && x < k| == k
    decreases k
  {
    if k > 0 {
      RemainingCount(used, k - 1);
      var below := set x | x in used && x < k - 1;
      var below' := set x | x in used && x < k;
      if k - 1 in used {
        assert below' == below + {k - 1};
      } else {
        assert below' == below;
      }
    }
  }

  function HourNames(idx: seq<nat>): (r: seq<string>)
    requires forall k :: 0 <= k < |idx| ==> idx[k] < HourCount
    ensures |r| == |idx| && forall k :: 0 <= k < |idx| ==> r[k] == HourName(idx[k])
  {
    seq(|idx|, k requires 0 <= k < |idx| => HourName(idx[k]))
  }

  /** The lucky hour indices, or `Hangs`. */
  function LuckyIndices(rng: Rng, seed: int): Outcome<seq<nat>> {
    Sampled(rng, seed, 1, LuckyCount(rng, seed), HourCount)
  }

  /** The unlucky indices of a finished lucky pick: the other hours in table order. */
  function UnluckyIndices(lucky: seq<nat>): seq<nat> {
    Remaining(Members(lucky), HourCount)
  }

  /** `generateLuckyHours(date)`: three to six picked hours, and the rest in table order. */
  method GenerateLuckyHours(date: DateTime, rng: Rng) returns (out: Outcome<(seq<string>, seq<string>)>)
    requires ValidDateTime(date)
    ensures LuckyIndices(rng, Timestamp(date)).Hangs? <==> out.Hangs?
    ensures out.Done? ==>
      var lucky := LuckyIndices(rng, Timestamp(date)).value;
      |lucky| == LuckyCount(rng, Timestamp(date)) && (forall k :: 0 <= k < |lucky| ==> lucky[k] < HourCount)
      && out.value.0 == HourNames(lucky) && out.value.1 == HourNames(UnluckyIndices(lucky))
  {
    var seed := Timestamp(date);
    var luckyCount := Pick(rng(seed), 4) + 3;
    var picked := PickDistinct(rng, seed, 1, luckyCount, HourCount);
    SampledFacts(rng, seed, 1, luckyCount, HourCount);
    if picked.Hangs? {
      return Hangs;
    }
    var lucky := picked.value;
    var used := Members(lucky);
    var unlucky := RemainingHours(used);
    out := Done((HourNames(lucky), HourNames(unlucky)));
  }

  /**
   * A finished lucky pick and its unlucky rest split the twelve hours: no hour is in both,
   * every hour is in one, and the unlucky hours keep table order.
   */
  lemma LuckyPartition(rng: Rng, seed: int)
    requires LuckyIndices(rng, seed).Done?
    ensures var lucky := LuckyIndices(rng, seed).value;
      var unlucky := UnluckyIndices(lucky);
      && 3 <= |lucky| <= 6 && |lucky| + |unlucky| == HourCount
      && (forall x :: x in lucky ==> x !in unlucky)
      && (forall x: nat :: x < HourCount ==> x in lucky || x in unlucky)
      && (forall i, j :: 0 <= i < j < |unlucky| ==> unlucky[i] < unlucky[j])
  {
    SampledFacts(rng, seed, 1, LuckyCount(rng, seed), HourCount);
    Complement(LuckyIndices(rng, seed).value);
  }

  /** Pairwise different hours and the hours they leave form a partition of the twelve. */
  lemma Complement(lucky: seq<nat>)
    requires AllDistinct(lucky) && forall k :: 0 <= k < |lucky| ==> lucky[k] < HourCount
    ensures var unlucky := UnluckyIndices(lucky);
      && |lucky| + |unlucky| == HourCount
      && (forall x :: x in lucky ==> x !in unlucky)
      && (forall x: nat :: x < HourCount ==> x in lucky || x in unlucky)
      && (forall i, j :: 0 <= i < j < |unlucky| ==> unlucky[i] < unlucky[j])
  {
    ComplementMembers(lucky);
    RemainingSorted(Members(lucky), HourCount);
    ComplementSize(lucky);
  }

  lemma ComplementMembers(lucky: seq<nat>)
    ensures forall x :: x in lucky ==> x !in UnluckyIndices(lucky)
    ensures forall x: nat :: x < HourCount ==> x in lucky || x in UnluckyIndices(lucky)
  {
    var used := Members(lucky);
    var unlucky := Remaining(used, HourCount);
    RemainingMembers(used, HourCount);
    forall x | x in lucky
      ensures x !in unlucky
    {
      assert x in used;
    }
    forall x: nat | x < HourCount
      ensures x in lucky || x in unlucky
    {
      assert x in used <==> x in lucky;
    }
  }

  lemma ComplementSize(lucky: seq<nat>)
    requires AllDistinct(lucky) && forall k :: 0 <= k < |lucky| ==> lucky[k] < HourCount
    ensures |lucky| + |UnluckyIndices(lucky)| == HourCount
  {
    var used := Members(lucky);
    RemainingCount(used, HourCount);
    DistinctCard(lucky);
    assert (set x | x in used && x < HourCount) == used by {
      forall x | x in used
        ensures x < HourCount
      {
        var k :| 0 <= k < |lucky| && lucky[k] == x;
      }
    }
  }

  // ---------------------------------------------------------------- the day record

  /** `CalendarDay` of lib/calendar-data.ts without the lunar date string. */
  datatype BasicDay = BasicDay(
    date: DateTime, ganZhi: string, zodiac: string,
    suitable: seq<string>, avoid: seq<string>, luckyHours: seq<string>, unluckyHours: seq<string>)

  predicate InRange(t: DateTime) {
    ValidDateTime(t) && t.date.year >= 4
  }

  /** What `getCalendarDay` returns, when its picking loops finish. */
  function BasicDayOf(t: DateTime, rng: Rng): Outcome<BasicDay>
    requires InRange(t)
  {
    var seed := Timestamp(t);
    var s := SuitableOf(rng, seed);
    var a := AvoidOf(rng, seed);
    var l := LuckyIndices(rng, seed);
    if s.Hangs? || a.Hangs? || l.Hangs? then Hangs
    else Done(BasicDay(t, GanZhiOf(t.date.year), Zodiac(t.date.year), s.value, a.value,
                       HourNames(l.value), HourNames(UnluckyIndices(l.value))))
  }

  /** `getCalendarDay(date)`. */
  method GetCalendarDay(t: DateTime, rng: Rng) returns (day: Outcome<BasicDay>)
    requires InRange(t)
    ensures day == BasicDayOf(t, rng)
  {
    var suitable, avoid := GenerateSuitableAndAvoid(t, rng);
    var hours := GenerateLuckyHours(t, rng);
    if suitable.Hangs? || avoid.Hangs? || hours.Hangs? {
      return Hangs;
    }
    day := Done(BasicDay(t, GanZhiOf(t.date.year), Zodiac(t.date.year), suitable.value, avoid.value,
                         hours.value.0, hours.value.1));
  }

  /** `f` of the day `n` days after `start`, reached one `setDate(getDate() + 1)` at a time. */
  function Walk<T>(f: DateTime -> T, start: DateTime, n: nat): T
    requires ValidDateTime(start)
    decreases n
  {
    if n == 0 then f(start) else Walk(f, AddDaysTime(start, 1), n - 1)
  }

  /** Walking `n` single days gets to the day `n` days later. */
  lemma {:induction false} WalkShift<T>(f: DateTime -> T, start: DateTime, n: nat)
    requires ValidDateTime(start)
    ensures Walk(f, start, n) == f(AddDaysTime(start, n))
    decreases n
  {
    if n > 0 {
      AddDaysTimeStep(start, n);
      WalkShift(f, AddDaysTime(start, 1), n - 1);
    }
  }

  /** The day record as a function of the date; no day before year 4 is asked for. */
  function DayOf(rng: Rng): DateTime -> Outcome<BasicDay> {
    t => if InRange(t) then BasicDayOf(t, rng) else Hangs
  }

  /** The record `getCalendarDays` lists `n` days after `start`. */
  function DayRecord(start: DateTime, n: nat, rng: Rng): Outcome<BasicDay>
    requires InRange(start)
  {
    Walk(DayOf(rng), start, n)
  }

  /** It is the record of the date `n` days after `start`. */
  lemma DayRecordIs(start: DateTime, n: nat, rng: Rng)
    requires InRange(start)
    ensures InRange(AddDaysTime(start, n)) && DayRecord(start, n, rng) == BasicDayOf(AddDaysTime(start, n), rng)
  {
    WalkShift(DayOf(rng), start, n);
  }

  /** The records of the first `n` days from `start`, or `Hangs` if one of them hangs. */
  function Days(start: DateTime, n: nat, rng: Rng): Outcome<seq<BasicDay>>
    requires InRange(start)
    decreases n
  {
    if n == 0 then Done([])
    else
      var prev := Days(start, n - 1, rng);
      var day := DayRecord(start, n - 1, rng);
      if prev.Hangs? || day.Hangs? then Hangs else Done(prev.value + [day.value])
  }

  /**
   * The list finishes exactly when every day's record does; then it has one entry per day,
   * entry `i` being the record of `start` shifted by `i` days.
   */
  lemma {:induction false} DaysFacts(start: DateTime, n: nat, rng: Rng)
    requires InRange(start)
    ensures Days(start, n, rng).Done? <==> forall i: nat :: i < n ==> DayRecord(start, i, rng).Done?
    ensures Days(start, n, rng).Done? ==>
      |Days(start, n, rng).value| == n && forall i: nat :: i < n ==> Done(Days(start, n, rng).value[i]) == DayRecord(start, i, rng)
    decreases n
  {
    if n > 0 {
      DaysFacts(start, n - 1, rng);
    }
  }

  /** Once the list of the first `m` days hangs, every longer list hangs too. */
  lemma {:induction false} DaysHang(start: DateTime, m: nat, n: nat, rng: Rng)
    requires InRange(start) && m <= n && Days(start, m, rng).Hangs?
    ensures Days(start, n, rng).Hangs?
    decreases n - m
  {
    if m < n {
      DaysHang(start, m + 1, n, rng);
    }
  }

  /** One iteration of `getCalendarDays`: append the record of day `i`, or stop if it hangs. */
  method AppendDay(start: DateTime, i: nat, r: seq<BasicDay>, rng: Rng) returns (next: Outcome<seq<BasicDay>>)
    requires InRange(start) && Days(start, i, rng) == Done(r)
    ensures next == Days(start, i + 1, rng)
  {
    DayRecordIs(start, i, rng);
    var day := GetCalendarDay(AddDaysTime(start, i), rng);
    if day.Hangs? {
      return Hangs;
    }
    return Done(r + [day.value]);
  }

  /** `getCalendarDays(start, days)`. */
  method GetCalendarDays(start: DateTime, days: int, rng: Rng) returns (result: Outcome<seq<BasicDay>>)
    requires InRange(start)
    ensures result == Days(start, if days > 0 then days else 0, rng)
  {
    var n: nat := if days > 0 then days else 0;
    var r: seq<BasicDay> := [];
    var i := 0;
    while i < n
      invariant i <= n && Days(start, i, rng) == Done(r)
    {
      var next := AppendDay(start, i, r, rng);
      if next.Hangs? {
        DaysHang(start, i + 1, n, rng);
        return Hangs;
      }
      r := next.value;
      i := i + 1;
    }
    return Done(r);
  }
}
