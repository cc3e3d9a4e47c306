/**
 * The almanac generator of lib/calendar-data-enhanced.ts: its month pillar, the day's
 * element, the per-category choice of suitable and avoided activities by an in-place
 * Fisher-Yates pass, the split of the twelve double hours into lucky and unlucky ones,
 * and the day and multi-day records.
 */
module CalendarEnhanced {
  import opened Wrappers
  import opened Seeded
  import opened Dates
  import opened Sexagenary

  /** One entry of `suitableItems` or `avoidItems`: the key and its activities. */
  datatype Category = Category(name: string, items: seq<string>)

  /** An activity as the result lists hold it: its name and its category key. */
  datatype Activity = Activity(name: string, category: string)

  /** One of the twelve double hours. */
  datatype HourSlot = HourSlot(time: string, name: string, description: string)

  /** An unlucky hour keeps only the time and the name. */
  datatype UnluckyHour = UnluckyHour(time: string, name: string)

  const SuitableItems: seq<Category> := [
    Category("marriage", ["结婚", "订婚", "纳采", "问名", "纳征", "请期", "亲迎"]),
    Category("travel", ["出行", "旅游", "搬家", "迁居", "入宅"]),
    Category("business", ["开业", "开张", "交易", "签约", "纳财", "置产", "投资"]),
    Category("construction", ["动土", "装修", "上梁", "安床", "拆卸", "破土", "修造"]),
    Category("spiritual", ["祭祀", "祈福", "求嗣", "开光", "还愿", "拜神"]),
    Category("education", ["入学", "考试", "拜师", "学习"]),
    Category("health", ["求医", "治病", "养生"]),
    Category("other", ["栽种", "纳畜", "捕捉", "畋猎"])
  ]

  const AvoidItems: seq<Category> := [
    Category("marriage", ["结婚", "订婚", "纳采"]),
    Category("travel", ["出行", "远行", "搬家"]),
    Category("business", ["开业", "开张", "交易"]),
    Category("construction", ["动土", "装修", "破土"]),
    Category("spiritual", ["祭祀", "祈福"]),
    Category("other", ["安葬", "入殓", "移柩", "开仓", "出货"])
  ]

  /** The number of double hours, `hours.length`. */
  const HourCount: nat := 12

  /** Entry `i` of `hours`. */
  function HourAt(i: nat): HourSlot
    requires i < HourCount
  {
    match i
    case 0 => HourSlot("23:00-01:00", "子时", "夜深人静，适合休息")
    case 1 => HourSlot("01:00-03:00", "丑时", "深夜时分，宜静不宜动")
    case 2 => HourSlot("03:00-05:00", "寅时", "黎明前，新的一天开始")
    case 3 => HourSlot("05:00-07:00", "卯时", "日出时分，充满活力")
    case 4 => HourSlot("07:00-09:00", "辰时", "早晨时光，适合开始工作")
    case 5 => HourSlot("09:00-11:00", "巳时", "上午时光，精力充沛")
    case 6 => HourSlot("11:00-13:00", "午时", "正午时分，阳气最盛")
    case 7 => HourSlot("13:00-15:00", "未时", "午后时光，适合小憩")
    case 8 => HourSlot("15:00-17:00", "申时", "下午时光，适合社交")
    case 9 => HourSlot("17:00-19:00", "酉时", "傍晚时分，适合总结")
    case 10 => HourSlot("19:00-21:00", "戌时", "夜晚开始，适合学习")
    case _ => HourSlot("21:00-23:00", "亥时", "深夜前，适合放松")
  }

  function Min(a: int, b: int): int { if a <= b then a else b }

  // ---------------------------------------------------------------- month pillar and element

  /**
   * `getMonthGanZhi` of this file: stem `(((year - 4) % 5) * 2 + month - 1) % 10`, branch
   * `(month + 1) % 12`. Unlike the BaZi formula, stem and branch parity always agree.
   */
  function MonthPillar(year: int, month: int): (p: Pillar)
    requires year >= 4 && 1 <= month <= 12
    ensures ValidPillar(p) && InCycle(p)
    ensures p.stem == (((year - 4) % 5) * 2 + month - 1) % 10 && p.branch == (month + 1) % 12
  {
    var base := (year - 4) % 5;
    var s := (base * 2 + month - 1) % 10;
    var b := (month + 1) % 12;
    assert base * 2 + month - 1 == (base * 2 + month - 1) / 10 * 10 + s;
    assert s % 2 == (month - 1) % 2;
    assert b % 2 == (month - 1) % 2 by {
      if month == 11 { assert b == 0; } else if month == 12 { assert b == 1; } else { assert b == month + 1; }
    }
    Pillar(s, b)
  }

  /**
   * `getWuxing(ganZhi)`: the element glyph of the first glyph as a stem; failing that, the
   * element `wuxingList[Math.floor(u * 5)]` for a `Math.random()` draw `u`.
   */
  function GetWuxing(ganZhi: string, u: Unit): (g: string)
    ensures exists e :: g == ElementGlyph(e)
    ensures |ganZhi| > 0 && GanWuxing(ganZhi[0]).Some? ==> g == ElementGlyph(GanWuxing(ganZhi[0]).value)
  {
    if |ganZhi| > 0 && GanWuxing(ganZhi[0]).Some? then ElementGlyph(GanWuxing(ganZhi[0]).value)
    else ElementGlyph(Elements[Pick(u, 5)])
  }

  /** For a valid day label the random fallback is never reached: the draw does not matter. */
  lemma WuxingIgnoresDraw(p: Pillar, u1: Unit, u2: Unit)
    requires ValidPillar(p)
    ensures GetWuxing(Label(p), u1) == GetWuxing(Label(p), u2)
    ensures GanWuxing(Label(p)[0]).Some? && GetWuxing(Label(p), u1) == ElementGlyph(GanWuxing(Gan[p.stem]).value)
  {
    Sexagenary.LabelElements(p);
  }

  // ---------------------------------------------------------------- suitable and avoid

  /**
   * How many activities category number `c` contributes:
   * `Math.min(Math.floor(rng(seed * (c + countOffset)) * 2) + 1, items.length)`.
   */
  function ItemCount(cat: Category, c: nat, rng: Rng, seed: int, countOffset: int): nat {
    Min(Pick(rng(seed * (c + countOffset)), 2) + 1, |cat.items|)
  }

  /** The shuffled `availableIndices` of category number `c`, whose pass uses seeds `seed * (c * 100 + baseOffset + i)`. */
  function ItemOrder(cat: Category, c: nat, rng: Rng, seed: int, baseOffset: int): seq<int> {
    FisherYates(Range(|cat.items|), rng, seed, c * 100 + baseOffset)
  }

  /** The first `count` activities in the order `order`, tagged with the category key. */
  function Take(cat: Category, order: seq<int>, count: nat): seq<Activity>
    requires count <= |order| && forall k :: 0 <= k < |order| ==> 0 <= order[k] < |cat.items|
  {
    seq(count, k requires 0 <= k < count => Activity(cat.items[order[k]], cat.name))
  }

  /** What category number `c` contributes. */
  function Chosen(cat: Category, c: nat, rng: Rng, seed: int, countOffset: int, baseOffset: int): seq<Activity> {
    var order := ItemOrder(cat, c, rng, seed, baseOffset);
    ShuffledRangeIsPermutation(|cat.items|, rng, seed, c * 100 + baseOffset);
    Take(cat, order, ItemCount(cat, c, rng, seed, countOffset))
  }

  /** The activities the first `n` categories contribute, category by category. */
  function Selection(cats: seq<Category>, n: nat, rng: Rng, seed: int, countOffset: int, baseOffset: int): seq<Activity>
    requires n <= |cats|
  {
    if n == 0 then []
    else Selection(cats, n - 1, rng, seed, countOffset, baseOffset) + Chosen(cats[n - 1], n - 1, rng, seed, countOffset, baseOffset)
  }

  /**
   * The body of the `forEach` callback for category number `c`: shuffle `availableIndices` in
   * place and take the activities at its first `maxCount` positions.
   */
  method ChooseFromCategory(cat: Category, c: nat, rng: Rng, seed: int, countOffset: int, baseOffset: int)
    returns (part: seq<Activity>)
    ensures part == Chosen(cat, c, rng, seed, countOffset, baseOffset)
  {
    var maxCount := Min(Pick(rng(seed * (c + countOffset)), 2) + 1, |cat.items|);
    var available := ShuffledItems(cat, c, rng, seed, baseOffset);
    ShuffledRangeIsPermutation(|cat.items|, rng, seed, c * 100 + baseOffset);
    part := PushItems(cat, available, maxCount);
    assert part == Take(cat, available[..], maxCount);
  }

  /** `availableIndices` of category number `c` after its in-place shuffle. */
  method ShuffledItems(cat: Category, c: nat, rng: Rng, seed: int, baseOffset: int) returns (available: array<int>)
    ensures fresh(available) && available[..] == ItemOrder(cat, c, rng, seed, baseOffset)
  {
    available := new int[|cat.items|](i => i);
    assert available[..] == Range(|cat.items|);
    ShuffleInPlace(available, rng, seed, c * 100 + baseOffset);
  }

  /** The `push` loop: the activities at the first `count` shuffled indices, tagged with the category key. */
  method PushItems(cat: Category, available: array<int>, count: nat) returns (part: seq<Activity>)
    requires count <= available.Length
    requires forall k :: 0 <= k < available.Length ==> 0 <= available[k] < |cat.items|
    ensures |part| == count
    ensures forall k :: 0 <= k < count ==> part[k] == Activity(cat.items[available[k]], cat.name)
  {
    part := [];
    var i := 0;
    while i < count
      invariant 0 <= i <= count && |part| == i
      invariant forall k :: 0 <= k < i ==> part[k] == Activity(cat.items[available[k]], cat.name)
    {
      part := part + [Activity(cat.items[available[i]], cat.name)];
      i := i + 1;
    }
  }

  /** One `forEach` over the categories, pushing what each contributes. */
  method ChoosePerCategory(cats: seq<Category>, rng: Rng, seed: int, countOffset: int, baseOffset: int)
    returns (chosen: seq<Activity>)
    ensures chosen == Selection(cats, |cats|, rng, seed, countOffset, baseOffset)
  {
    chosen := [];
    var c := 0;
    while c < |cats|
      invariant 0 <= c <= |cats|
      invariant chosen == Selection(cats, c, rng, seed, countOffset, baseOffset)
    {
      var part := ChooseFromCategory(cats[c], c, rng, seed, countOffset, baseOffset);
      chosen := chosen + part;
      c := c + 1;
    }
  }

  /**
   * `generateSuitableAndAvoid(date)`: with `seed = date.getTime()`, suitable activities use count
   * seeds `seed * (c + 1)` and shuffle seeds `seed * (c * 100 + i)`; avoided ones use
   * `seed * (c + 100)` and `seed * (c * 100 + i + 200)`.
   */
  method GenerateSuitableAndAvoid(date: DateTime, rng: Rng) returns (suitable: seq<Activity>, avoid: seq<Activity>)
    requires ValidDateTime(date)
    ensures suitable == Selection(SuitableItems, 8, rng, Timestamp(date), 1, 0)
    ensures avoid == Selection(AvoidItems, 6, rng, Timestamp(date), 100, 200)
  {
    var seed := Timestamp(date);
    suitable := ChoosePerCategory(SuitableItems, rng, seed, 1, 0);
    avoid := ChoosePerCategory(AvoidItems, rng, seed, 100, 200);
  }

  /**
   * A category with at least one activity contributes one or two of its own activities,
   * at distinct positions of its list, and nothing else.
   */
  lemma ChosenFacts(cat: Category, c: nat, rng: Rng, seed: int, countOffset: int, baseOffset: int)
    requires |cat.items| >= 1
    ensures var r := Chosen(cat, c, rng, seed, countOffset, baseOffset);
      var order := ItemOrder(cat, c, rng, seed, baseOffset);
      && |order| == |cat.items| && 1 <= |r| <= 2 && |r| <= |cat.items|
      && (forall k :: 0 <= k < |r| ==> 0 <= order[k] < |cat.items| && r[k] == Activity(cat.items[order[k]], cat.name))
      && (forall k1, k2 :: 0 <= k1 < k2 < |r| ==> order[k1] != order[k2])
  {
    ShuffledRangeIsPermutation(|cat.items|, rng, seed, c * 100 + baseOffset);
  }

  /** The category number each selected activity came from. */
  function Origins(cats: seq<Category>, n: nat, rng: Rng, seed: int, countOffset: int, baseOffset: int): seq<nat>
    requires n <= |cats|
  {
    if n == 0 then []
    else
      var prev := Origins(cats, n - 1, rng, seed, countOffset, baseOffset);
      prev + seq(|Chosen(cats[n - 1], n - 1, rng, seed, countOffset, baseOffset)|, _ => n - 1)
  }

  /**
   * Every selected activity is an activity of its category, tagged with that category's key,
   * and the categories follow their declaration order.
   */
  lemma {:induction false} SelectionOrder(cats: seq<Category>, n: nat, rng: Rng, seed: int, countOffset: int, baseOffset: int)
    requires n <= |cats|
    ensures var s := Selection(cats, n, rng, seed, countOffset, baseOffset);
      var o := Origins(cats, n, rng, seed, countOffset, baseOffset);
      && |o| == |s|
      && (forall k :: 0 <= k < |s| ==> o[k] < n && s[k].category == cats[o[k]].name && s[k].name in cats[o[k]].items)
      && (forall k1, k2 :: 0 <= k1 < k2 < |s| ==> o[k1] <= o[k2])
  {
    if n > 0 {
      SelectionOrder(cats, n - 1, rng, seed, countOffset, baseOffset);
      var part := Chosen(cats[n - 1], n - 1, rng, seed, countOffset, baseOffset);
      ChosenMembers(cats[n - 1], n - 1, rng, seed, countOffset, baseOffset);
      var s1 := Selection(cats, n - 1, rng, seed, countOffset, baseOffset);
      var o1 := Origins(cats, n - 1, rng, seed, countOffset, baseOffset);
      var s := Selection(cats, n, rng, seed, countOffset, baseOffset);
      var o := Origins(cats, n, rng, seed, countOffset, baseOffset);
      assert s == s1 + part && o == o1 + seq(|part|, _ => n - 1);
      forall k | |s1| <= k < |s|
        ensures o[k] == n - 1 && s[k] == part[k - |s1|]
      {
      }
    }
  }

  /** Every activity a category contributes is one of its own, tagged with its key. */
  lemma ChosenMembers(cat: Category, c: nat, rng: Rng, seed: int, countOffset: int, baseOffset: int)
    ensures var r := Chosen(cat, c, rng, seed, countOffset, baseOffset);
      forall k :: 0 <= k < |r| ==> r[k].category == cat.name && r[k].name in cat.items
  {
    ShuffledRangeIsPermutation(|cat.items|, rng, seed, c * 100 + baseOffset);
  }

  /** With no empty category, each of the first `n` categories adds one or two activities. */
  lemma {:induction false} SelectionSize(cats: seq<Category>, n: nat, rng: Rng, seed: int, countOffset: int, baseOffset: int)
    requires n <= |cats| && forall c :: 0 <= c < |cats| ==> |cats[c].items| >= 1
    ensures n <= |Selection(cats, n, rng, seed, countOffset, baseOffset)| <= 2 * n
  {
    if n > 0 {
      SelectionSize(cats, n - 1, rng, seed, countOffset, baseOffset);
      ChosenFacts(cats[n - 1], n - 1, rng, seed, countOffset, baseOffset);
    }
  }

  /** Between 8 and 16 suitable activities and between 6 and 12 avoided ones, for every seed. */
  lemma SelectionTotals(rng: Rng, seed: int)
    ensures 8 <= |Selection(SuitableItems, 8, rng, seed, 1, 0)| <= 16
    ensures 6 <= |Selection(AvoidItems, 6, rng, seed, 100, 200)| <= 12
  {
    SelectionSize(SuitableItems, 8, rng, seed, 1, 0);
    SelectionSize(AvoidItems, 6, rng, seed, 100, 200);
  }

  /** A generator that always returns 0. */
  function ZeroRng(): Rng { _ => 0.0 }

  /**
   * The two tables share activities and are drawn independently, so one activity can be both
   * suitable and avoided: with a generator that always returns 0, 订婚 is both for any seed.
   */
  lemma SuitableAndAvoidedAtOnce(seed: int)
    ensures Activity("订婚", "marriage") in Selection(SuitableItems, 8, ZeroRng(), seed, 1, 0)
    ensures Activity("订婚", "marriage") in Selection(AvoidItems, 6, ZeroRng(), seed, 100, 200)
  {
    var z := ZeroRng();
    ZeroOrders(seed);
    ChosenFacts(SuitableItems[0], 0, z, seed, 1, 0);
    ChosenFacts(AvoidItems[0], 0, z, seed, 100, 200);
    SelectionPrefix(SuitableItems, 1, 8, z, seed, 1, 0);
    SelectionPrefix(AvoidItems, 1, 6, z, seed, 100, 200);
    assert Selection(SuitableItems, 1, z, seed, 1, 0)[0] == Activity("订婚", "marriage");
    assert Selection(AvoidItems, 1, z, seed, 100, 200)[0] == Activity("订婚", "marriage");
  }

  /** The zero generator always swaps with index 0. */
  lemma ZeroStep(s: seq<int>, i: nat, seed: int, base: int)
    requires 0 < i < |s|
    ensures ShuffleFrom(s, i, ZeroRng(), seed, base) == ShuffleFrom(Swap(s, i, 0), i - 1, ZeroRng(), seed, base)
  {
    assert SwapIndex(ZeroRng(), seed, base, i) == 0;
  }

  /** Under the zero generator the first shuffled index of both marriage lists is 1. */
  lemma ZeroOrders(seed: int)
    ensures ItemOrder(SuitableItems[0], 0, ZeroRng(), seed, 0) == [1, 2, 3, 4, 5, 6, 0]
    ensures ItemOrder(AvoidItems[0], 0, ZeroRng(), seed, 200) == [1, 2, 0]
  {
    var z := ZeroRng();
    assert |SuitableItems[0].items| == 7 && |AvoidItems[0].items| == 3;
    var s := Range(7);
    assert s == [0, 1, 2, 3, 4, 5, 6];
    ZeroStep(s, 6, seed, 0);
    assert Swap(s, 6, 0) == [6, 1, 2, 3, 4, 5, 0];
    ZeroStep([6, 1, 2, 3, 4, 5, 0], 5, seed, 0);
    assert Swap([6, 1, 2, 3, 4, 5, 0], 5, 0) == [5, 1, 2, 3, 4, 6, 0];
    ZeroStep([5, 1, 2, 3, 4, 6, 0], 4, seed, 0);
    assert Swap([5, 1, 2, 3, 4, 6, 0], 4, 0) == [4, 1, 2, 3, 5, 6, 0];
    ZeroStep([4, 1, 2, 3, 5, 6, 0], 3, seed, 0);
    assert Swap([4, 1, 2, 3, 5, 6, 0], 3, 0) == [3, 1, 2, 4, 5, 6, 0];
    ZeroStep([3, 1, 2, 4, 5, 6, 0], 2, seed, 0);
    assert Swap([3, 1, 2, 4, 5, 6, 0], 2, 0) == [2, 1, 3, 4, 5, 6, 0];
    ZeroStep([2, 1, 3, 4, 5, 6, 0], 1, seed, 0);
    assert Swap([2, 1, 3, 4, 5, 6, 0], 1, 0) == [1, 2, 3, 4, 5, 6, 0];
    var t := Range(3);
    assert t == [0, 1, 2];
    ZeroStep(t, 2, seed, 200);
    assert Swap(t, 2, 0) == [2, 1, 0];
    ZeroStep([2, 1, 0], 1, seed, 200);
    assert Swap([2, 1, 0], 1, 0) == [1, 2, 0];
  }

  /** The activities of the first `m` categories open the list of the first `n`. */
  lemma {:induction false} SelectionPrefix(cats: seq<Category>, m: nat, n: nat, rng: Rng, seed: int, countOffset: int, baseOffset: int)
    requires m <= n <= |cats|
    ensures var s := Selection(cats, n, rng, seed, countOffset, baseOffset);
      var t := Selection(cats, m, rng, seed, countOffset, baseOffset);
      |t| <= |s| && s[..|t|] == t
    decreases n - m
  {
    if m < n {
      SelectionPrefix(cats, m, n - 1, rng, seed, countOffset, baseOffset);
      var s := Selection(cats, n, rng, seed, countOffset, baseOffset);
      var s1 := Selection(cats, n - 1, rng, seed, countOffset, baseOffset);
      var t := Selection(cats, m, rng, seed, countOffset, baseOffset);
      assert s[..|s1|] == s1;
      assert s[..|t|] == s1[..|t|];
    }
  }

  // ---------------------------------------------------------------- lucky hours

  /** `Math.min(Math.floor(rng(seed) * 3) + 4, hours.length)`. */
  function LuckyCount(rng: Rng, seed: int): nat {
    Min(Pick(rng(seed), 3) + 4, HourCount)
  }

  /** The shuffled slot indices, the pass using seeds `seed * (i + 1)`. */
  function HourOrder(rng: Rng, seed: int): seq<int> {
    FisherYates(Range(12), rng, seed, 1)
  }

  function Unlucky(h: HourSlot): UnluckyHour {
    UnluckyHour(h.time, h.name)
  }

  /** The lucky hours: the slots at the first `LuckyCount` shuffled positions. */
  function LuckyHours(rng: Rng, seed: int): seq<HourSlot> {
    ShuffledRangeIsPermutation(12, rng, seed, 1);
    var p := HourOrder(rng, seed);
    seq(LuckyCount(rng, seed), k requires 0 <= k < LuckyCount(rng, seed) => HourAt(p[k]))
  }

  /** The unlucky hours: the slots at the remaining shuffled positions. */
  function UnluckyHours(rng: Rng, seed: int): seq<UnluckyHour> {
    ShuffledRangeIsPermutation(12, rng, seed, 1);
    var p := HourOrder(rng, seed);
    var c := LuckyCount(rng, seed);
    seq(12 - c, k requires 0 <= k < 12 - c => Unlucky(HourAt(p[c + k])))
  }

  /** The twelve slot indices `0..11`, shuffled in place with seeds `seed * (i + 1)`. */
  method ShuffledHours(rng: Rng, seed: int) returns (available: array<int>)
    ensures fresh(available) && available[..] == HourOrder(rng, seed)
  {
    available := new int[HourCount](i => i);
    assert available[..] == Range(12);
    ShuffleInPlace(available, rng, seed, 1);
  }

  /** The first loop of `generateLuckyHours`: the slots at the first `count` shuffled indices. */
  method PushLucky(available: array<int>, count: nat) returns (lucky: seq<HourSlot>)
    requires count <= available.Length
    requires forall k :: 0 <= k < available.Length ==> 0 <= available[k] < HourCount
    ensures |lucky| == count && forall k :: 0 <= k < count ==> lucky[k] == HourAt(available[k])
  {
    lucky := [];
    var i := 0;
    while i < count
      invariant 0 <= i <= count && |lucky| == i
      invariant forall k :: 0 <= k < i ==> lucky[k] == HourAt(available[k])
    {
      var index := available[i];
      lucky := lucky + [HourAt(index)];
      i := i + 1;
    }
  }

  /** The second loop of `generateLuckyHours`: time and name of the slots at the remaining indices. */
  method PushUnlucky(available: array<int>, from: nat) returns (unlucky: seq<UnluckyHour>)
    requires from <= available.Length
    requires forall k :: 0 <= k < available.Length ==> 0 <= available[k] < HourCount
    ensures |unlucky| == available.Length - from
    ensures forall k :: 0 <= k < |unlucky| ==> unlucky[k] == Unlucky(HourAt(available[from + k]))
  {
    unlucky := [];
    var i := from;
    while i < available.Length
      invariant from <= i <= available.Length && |unlucky| == i - from
      invariant forall k :: 0 <= k < i - from ==> unlucky[k] == Unlucky(HourAt(available[from + k]))
    {
      var index := available[i];
      unlucky := unlucky + [Unlucky(HourAt(index))];
      i := i + 1;
    }
  }

  /** `generateLuckyHours(date)`: shuffle the twelve indices in place, then push lucky and unlucky slots. */
  method GenerateLuckyHours(date: DateTime, rng: Rng) returns (lucky: seq<HourSlot>, unlucky: seq<UnluckyHour>)
    requires ValidDateTime(date)
    ensures lucky == LuckyHours(rng, Timestamp(date))
    ensures unlucky == UnluckyHours(rng, Timestamp(date))
  {
    var seed := Timestamp(date);
    var luckyCount := Min(Pick(rng(seed), 3) + 4, HourCount);
    var available := ShuffledHours(rng, seed);
    LuckyPartition(rng, seed);
    lucky := PushLucky(available, luckyCount);
    unlucky := PushUnlucky(available, luckyCount);
  }

  /**
   * Four to six lucky hours; the lucky slots followed by the unlucky ones run through every one
   * of the twelve slots exactly once.
   */
  lemma LuckyPartition(rng: Rng, seed: int)
    ensures var lucky := LuckyHours(rng, seed);
      var unlucky := UnluckyHours(rng, seed);
      var p := HourOrder(rng, seed);
      && 4 <= |lucky| <= 6 && |unlucky| == 12 - |lucky|
      && |p| == 12 && Distinct(p)
      && (forall v :: 0 <= v < 12 ==> v in p)
      && (forall k :: 0 <= k < 12 ==> 0 <= p[k] < 12)
      && (forall k :: 0 <= k < |lucky| ==> lucky[k] == HourAt(p[k]))
      && (forall k :: 0 <= k < |unlucky| ==> unlucky[k] == Unlucky(HourAt(p[|lucky| + k])))
  {
    ShuffledRangeIsPermutation(12, rng, seed, 1);
  }

  // ---------------------------------------------------------------- the day record

  /** The four pillar labels of a day. */
  datatype GanZhi = GanZhi(year: string, month: string, day: string, hour: string)

  /** `CalendarDay` without the lunar date string. */
  datatype CalendarDay = CalendarDay(
    date: DateTime, ganZhi: GanZhi, zodiac: string,
    suitable: seq<Activity>, avoid: seq<Activity>,
    luckyHours: seq<HourSlot>, unluckyHours: seq<UnluckyHour>,
    wuxing: string, festivals: seq<string>)

  /** The dates the day-pillar formulas accept: year 4 onwards, not before 1899-12-26. */
  predicate InRange(t: DateTime) {
    ValidDateTime(t) && t.date.year >= 4 && DayNumber(t.date) + 6 >= 0
  }

  /** What `getCalendarDay` returns for a moment `t`, generator `rng` and fallback draw `u`. */
  function CalendarDayOf(t: DateTime, rng: Rng, u: Unit): CalendarDay
    requires InRange(t)
  {
    var d := DayPillar(t);
    var dayLabel := Label(d);
    StemsOfLabels(d);
    var seed := Timestamp(t);
    CalendarDay(
      t,
      GanZhi(Label(YearPillar(t.date.year)), Label(MonthPillar(t.date.year, t.date.month)), dayLabel,
             Label(HourPillar(dayLabel, Hour(t)))),
      Zodiac(t.date.year),
      Selection(SuitableItems, 8, rng, seed, 1, 0), Selection(AvoidItems, 6, rng, seed, 100, 200),
      LuckyHours(rng, seed), UnluckyHours(rng, seed),
      GetWuxing(dayLabel, u), [])
  }

  lemma StemsOfLabels(p: Pillar)
    requires ValidPillar(p)
    ensures StemIndexOf(Label(p)[0]) == Some(p.stem)
  {
  }

  /**
   * `getCalendarDay(date)`: pillars of the year, month, day and of the hour `date.getHours()`,
   * the zodiac animal, the day's element, and the seeded activity and hour lists.
   */
  method GetCalendarDay(t: DateTime, rng: Rng, u: Unit) returns (day: CalendarDay)
    requires InRange(t)
    ensures day == CalendarDayOf(t, rng, u)
    ensures day.zodiac == ZodiacAnimal(YearPillar(t.date.year).branch)
    ensures day.ganZhi.day == Label(DayPillar(t))
    ensures 8 <= |day.suitable| <= 16 && 6 <= |day.avoid| <= 12
    ensures 4 <= |day.luckyHours| <= 6 && |day.luckyHours| + |day.unluckyHours| == 12
    ensures day.wuxing == ElementGlyph(GanWuxing(Gan[DayPillar(t).stem]).value)
  {
    var year := t.date.year;
    var month := t.date.month;
    var hour := Hour(t);
    var yearGanZhi := Label(YearPillar(year));
    var monthGanZhi := Label(MonthPillar(year, month));
    var d := DayPillar(t);
    var dayGanZhi := Label(d);
    StemsOfLabels(d);
    var hourGanZhi := Label(HourPillar(dayGanZhi, hour));
    var zodiac := Zodiac(year);
    var wuxing := GetWuxing(dayGanZhi, u);
    WuxingIgnoresDraw(d, u, u);
    var suitable, avoid := GenerateSuitableAndAvoid(t, rng);
    var lucky, unlucky := GenerateLuckyHours(t, rng);
    SelectionTotals(rng, Timestamp(t));
    LuckyPartition(rng, Timestamp(t));
    day := CalendarDay(t, GanZhi(yearGanZhi, monthGanZhi, dayGanZhi, hourGanZhi), zodiac,
                       suitable, avoid, lucky, unlucky, wuxing, []);
  }

  /** Shifting an in-range moment forward keeps it in range. */
  lemma ShiftInRange(t: DateTime, n: nat)
    requires InRange(t)
    ensures InRange(AddDaysTime(t, n))
    ensures Timestamp(AddDaysTime(t, n)) == Timestamp(t) + n * MsPerDay
  {
    AddDaysNumber(t.date, n);
    AddDaysTimestamp(t, n);
  }

  /** The record `getCalendarDays` lists `n` days after `start`. */
  function DayRecord(start: DateTime, n: nat, rng: Rng, u: Unit): CalendarDay
    requires InRange(start)
    decreases n
  {
    if n == 0 then CalendarDayOf(start, rng, u)
    else
      ShiftInRange(start, 1);
      DayRecord(AddDaysTime(start, 1), n - 1, rng, u)
  }

  /** The `n`-th record is the day record of the moment `n` whole days after `start`. */
  lemma {:induction false} DayRecordShift(start: DateTime, n: nat, rng: Rng, u: Unit)
    requires InRange(start)
    ensures InRange(AddDaysTime(start, n))
    ensures DayRecord(start, n, rng, u) == CalendarDayOf(AddDaysTime(start, n), rng, u)
    decreases n
  {
    ShiftInRange(start, n);
    if n > 0 {
      var next := AddDaysTime(start, 1);
      ShiftInRange(start, 1);
      DayRecordShift(next, n - 1, rng, u);
      assert AddDaysTime(next, n - 1) == AddDaysTime(start, n);
    }
  }

  /** One step of `getCalendarDays`: the record of the day `n` days after `start`. */
  method DayAfter(start: DateTime, n: nat, rng: Rng, u: Unit) returns (day: CalendarDay)
    requires InRange(start)
    ensures day == DayRecord(start, n, rng, u)
  {
    DayRecordShift(start, n, rng, u);
    day := GetCalendarDay(AddDaysTime(start, n), rng, u);
  }

  /** The records of the first `n` days from `start`. */
  function Days(start: DateTime, n: nat, rng: Rng, u: Unit): (r: seq<CalendarDay>)
    requires InRange(start)
    ensures |r| == n
  {
    if n == 0 then [] else Days(start, n - 1, rng, u) + [DayRecord(start, n - 1, rng, u)]
  }

  /** `getCalendarDays(start, days)`: one record per day, the `i`-th for `start` shifted by `i` days. */
  method GetCalendarDays(start: DateTime, days: int, rng: Rng, u: Unit) returns (result: seq<CalendarDay>)
    requires InRange(start)
    ensures result == Days(start, if days > 0 then days else 0, rng, u)
  {
    result := [];
    var i := 0;
    while i < days
      invariant 0 <= i && (days > 0 ==> i <= days) && (days <= 0 ==> i == 0)
      invariant result == Days(start, i, rng, u)
    {
      var day := DayAfter(start, i, rng, u);
      result := result + [day];
      i := i + 1;
    }
  }
}
