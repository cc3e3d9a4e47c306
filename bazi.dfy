/**
 * The BaZi (four pillars) calculator of lib/bazi-calculator.ts: the month pillar of this
 * file, the five-element histogram of the eight glyphs, the choice of the analysis branch
 * and the assembled result.
 */
module Bazi {
  import opened Wrappers
  import opened Text
  import opened Dates
  import opened Sexagenary

  /**
   * `getMonthGanZhi(year, month)`: branch `(month + 1) % 12`, stem `(yearStem * 2 + month) % 10`.
   * Its stem and branch always have opposite parity, so it is never a pair of the sixty cycle.
   */
  function MonthPillar(year: int, month: int): (p: Pillar)
    requires year >= 4 && 1 <= month <= 12
    ensures ValidPillar(p) && !InCycle(p)
    ensures p.branch == (month + 1) % 12
    ensures p.stem == (YearPillar(year).stem * 2 + month) % 10
  {
    var ys := (year - 4) % 10;
    var s := (ys * 2 + month) % 10;
    var b := (month + 1) % 12;
    assert ys * 2 + month == (ys * 2 + month) / 10 * 10 + s;
    assert s % 2 == month % 2;
    assert b % 2 != month % 2 by {
      if month == 11 { assert b == 0; } else if month == 12 { assert b == 1; } else { assert b == month + 1; }
    }
    Pillar(s, b)
  }

  /** The counts of `calculateWuxing`, one per element. */
  datatype Wuxing = Wuxing(metal: nat, wood: nat, water: nat, fire: nat, earth: nat)

  function Count(w: Wuxing, e: Element): nat {
    match e
    case Metal => w.metal
    case Wood => w.wood
    case Water => w.water
    case Fire => w.fire
    case Earth => w.earth
  }

  function Total(w: Wuxing): nat {
    w.metal + w.wood + w.water + w.fire + w.earth
  }

  /** The elements a label contributes: its first glyph as a stem, its second as a branch, when they are. */
  function LabelElements(gz: string): (r: seq<Element>)
    ensures |r| <= 2
  {
    (if |gz| > 0 && GanWuxing(gz[0]).Some? then [GanWuxing(gz[0]).value] else [])
    + (if |gz| > 1 && ZhiWuxing(gz[1]).Some? then [ZhiWuxing(gz[1]).value] else [])
  }

  /** The elements of all labels, in order. */
  function GlyphElements(labels: seq<string>): seq<Element> {
    if labels == [] then []
    else GlyphElements(labels[..|labels| - 1]) + LabelElements(labels[|labels| - 1])
  }

  /** In any sequence of elements the five counts add up to its length. */
  lemma {:induction false} CountsAddUp(s: seq<Element>)
    ensures var m := multiset(s); m[Metal] + m[Wood] + m[Water] + m[Fire] + m[Earth] == |s|
  {
    if s != [] {
      var t := s[..|s| - 1];
      CountsAddUp(t);
      assert s == t + [s[|s| - 1]];
      var x := s[|s| - 1];
      assert multiset(s) == multiset(t) + multiset{x};
      assert multiset(s)[x] == multiset(t)[x] + 1;
      assert forall y :: y != x ==> multiset(s)[y] == multiset(t)[y];
    }
  }

  /**
   * `calculateWuxing`: for each of the four labels, add one to the element of its stem glyph and
   * one to the element of its branch glyph, skipping a glyph that has none.
   */
  method CalculateWuxing(yearGanZhi: string, monthGanZhi: string, dayGanZhi: string, hourGanZhi: string)
    returns (w: Wuxing)
    ensures forall e :: Count(w, e) == multiset(GlyphElements([yearGanZhi, monthGanZhi, dayGanZhi, hourGanZhi]))[e]
  {
    var labels := [yearGanZhi, monthGanZhi, dayGanZhi, hourGanZhi];
    w := Wuxing(0, 0, 0, 0, 0);
    var i := 0;
    assert labels[..0] == [] && GlyphElements(labels[..0]) == [];
    while i < |labels|
      invariant 0 <= i <= |labels|
      invariant forall e :: Count(w, e) == multiset(GlyphElements(labels[..i]))[e]
    {
      var gz := labels[i];
      GlyphElementsStep(labels, i);
      ghost var before := w;
      if |gz| > 0 && GanWuxing(gz[0]).Some? {
        w := Bump(w, GanWuxing(gz[0]).value);
      }
      if |gz| > 1 && ZhiWuxing(gz[1]).Some? {
        w := Bump(w, ZhiWuxing(gz[1]).value);
      }
      LabelCounts(before, w, gz);
      i := i + 1;
    }
    assert labels[..4] == labels;
  }

  lemma GlyphElementsStep(labels: seq<string>, i: nat)
    requires i < |labels|
    ensures GlyphElements(labels[..i + 1]) == GlyphElements(labels[..i]) + LabelElements(labels[i])
  {
    assert labels[..i + 1][..i] == labels[..i];
  }

  /** Bumping the stem's element and then the branch's adds the label's elements to the counts. */
  lemma LabelCounts(before: Wuxing, after: Wuxing, gz: string)
    requires after == (
      var w1 := if |gz| > 0 && GanWuxing(gz[0]).Some? then Bump(before, GanWuxing(gz[0]).value) else before;
      if |gz| > 1 && ZhiWuxing(gz[1]).Some? then Bump(w1, ZhiWuxing(gz[1]).value) else w1)
    ensures forall e :: Count(after, e) == Count(before, e) + multiset(LabelElements(gz))[e]
  {
  }

  /** `wuxing[e]++`: one more glyph of element `e`. */
  function Bump(w: Wuxing, e: Element): (r: Wuxing)
    ensures forall x :: Count(r, x) == Count(w, x) + (if x == e then 1 else 0)
  {
    match e
    case Metal => w.(metal := w.metal + 1)
    case Wood => w.(wood := w.wood + 1)
    case Water => w.(water := w.water + 1)
    case Fire => w.(fire := w.fire + 1)
    case Earth => w.(earth := w.earth + 1)
  }

  /** Each valid pillar label contributes exactly two elements. */
  lemma ValidLabelElements(p: Pillar)
    requires ValidPillar(p)
    ensures |LabelElements(Label(p))| == 2
  {
    Sexagenary.LabelElements(p);
  }

  /** The elements of four labels are those of each label in turn. */
  lemma GlyphElementsOfFour(a: string, b: string, c: string, d: string)
    ensures GlyphElements([a, b, c, d]) == LabelElements(a) + LabelElements(b) + LabelElements(c) + LabelElements(d)
  {
    var ls := [a, b, c, d];
    assert ls[..1][..0] == [] && ls[..2][..1] == ls[..1] && ls[..3][..2] == ls[..2] && ls[..4][..3] == ls[..3];
    assert ls[..1] == [a] && ls[..2] == [a, b] && ls[..3] == [a, b, c];
    assert GlyphElements([a]) == LabelElements(a);
    assert GlyphElements([a, b]) == LabelElements(a) + LabelElements(b);
    assert GlyphElements([a, b, c]) == LabelElements(a) + LabelElements(b) + LabelElements(c);
  }

  /** For four valid pillars the histogram counts all eight glyphs. */
  lemma HistogramTotal(w: Wuxing, y: Pillar, m: Pillar, d: Pillar, h: Pillar)
    requires ValidPillar(y) && ValidPillar(m) && ValidPillar(d) && ValidPillar(h)
    requires forall e :: Count(w, e) == multiset(GlyphElements([Label(y), Label(m), Label(d), Label(h)]))[e]
    ensures Total(w) == 8
  {
    var s := GlyphElements([Label(y), Label(m), Label(d), Label(h)]);
    GlyphElementsOfFour(Label(y), Label(m), Label(d), Label(h));
    ValidLabelElements(y); ValidLabelElements(m); ValidLabelElements(d); ValidLabelElements(h);
    assert |s| == 8;
    CountsAddUp(s);
    assert Count(w, Metal) + Count(w, Wood) + Count(w, Water) + Count(w, Fire) + Count(w, Earth) == 8;
  }

  /** The counts in the declaration order Metal, Wood, Water, Fire, Earth. */
  function Values(w: Wuxing): (v: seq<nat>)
    ensures |v| == 5 && forall i :: 0 <= i < 5 ==> v[i] == Count(w, Elements[i])
  {
    [w.metal, w.wood, w.water, w.fire, w.earth]
  }

  /**
   * The first element of a stable sort by descending count: the first index holding the maximum.
   */
  function FirstMax(v: seq<nat>): (i: nat)
    requires |v| > 0
    ensures i < |v|
    ensures forall j :: 0 <= j < |v| ==> v[j] <= v[i]
    ensures forall j :: 0 <= j < i ==> v[j] < v[i]
  {
    if |v| == 1 then 0
    else
      var k := FirstMax(v[..|v| - 1]);
      if v[|v| - 1] > v[k] then |v| - 1 else k
  }

  /**
   * The last element of a stable sort by descending count: the last index holding the minimum.
   */
  function LastMin(v: seq<nat>): (i: nat)
    requires |v| > 0
    ensures i < |v|
    ensures forall j :: 0 <= j < |v| ==> v[i] <= v[j]
    ensures forall j :: i < j < |v| ==> v[i] < v[j]
  {
    if |v| == 1 then 0
    else
      var k := LastMin(v[..|v| - 1]);
      if v[|v| - 1] <= v[k] then |v| - 1 else k
  }

  /** The element name of `wuxingArray`: the glyph for 'zh', the English word otherwise. */
  function ElementName(e: Element, isZh: bool): string {
    if isZh then ElementGlyph(e)
    else match e
      case Metal => "Metal"
      case Wood => "Wood"
      case Water => "Water"
      case Fire => "Fire"
      case Earth => "Earth"
  }

  /** Which of the three paragraphs `generateAnalysis` writes about the elements. */
  datatype Reading = Strong(strongest: Element, supported: bool) | Missing(weakest: Element) | Balanced

  /**
   * The branch selection of `generateAnalysis`: the strongest element at three or more glyphs,
   * else a missing element, else balance. "Supported" compares the localized name of the
   * strongest element with the glyph of the day stem's element.
   */
  function Classify(w: Wuxing, isZh: bool, dayElement: Option<Element>): (r: Reading)
    ensures r.Strong? <==> exists e :: Count(w, e) >= 3
    ensures r.Missing? <==> (forall e :: Count(w, e) < 3) && (exists e :: Count(w, e) == 0)
    ensures r.Strong? ==> forall e :: Count(w, e) <= Count(w, r.strongest)
    ensures r.Missing? ==> Count(w, r.weakest) == 0
  {
    var v := Values(w);
    var hi := FirstMax(v);
    var lo := LastMin(v);
    assert forall e :: Count(w, e) == v[IndexOf(e)];
    if v[hi] >= 3 then
      Strong(Elements[hi], dayElement.Some? && ElementName(Elements[hi], isZh) == ElementGlyph(dayElement.value))
    else if v[lo] == 0 then Missing(Elements[lo])
    else Balanced
  }

  function IndexOf(e: Element): (i: nat)
    ensures i < 5 && Elements[i] == e
  {
    match e
    case Metal => 0
    case Wood => 1
    case Water => 2
    case Fire => 3
    case Earth => 4
  }

  /** Ties go to the element declared first for the strongest, and last for the missing one. */
  lemma ClassifyTies(w: Wuxing, isZh: bool, dayElement: Option<Element>)
    ensures var r := Classify(w, isZh, dayElement);
      && (r.Strong? ==> forall e :: IndexOf(e) < IndexOf(r.strongest) ==> Count(w, e) < Count(w, r.strongest))
      && (r.Missing? ==> forall e :: IndexOf(e) > IndexOf(r.weakest) ==> Count(w, e) > 0)
  {
    var v := Values(w);
    assert forall e :: Count(w, e) == v[IndexOf(e)];
    assert forall i :: 0 <= i < 5 ==> IndexOf(Elements[i]) == i;
  }

  /** In Chinese the strong element is "supported" exactly when it is the day stem's element. */
  lemma SupportedInChinese(w: Wuxing, dayElement: Option<Element>)
    requires Classify(w, true, dayElement).Strong?
    ensures Classify(w, true, dayElement).supported <==> dayElement == Some(Classify(w, true, dayElement).strongest)
  {
    var e := Classify(w, true, dayElement).strongest;
    if dayElement.Some? && ElementGlyph(e) == ElementGlyph(dayElement.value) {
      assert ElementGlyph(e)[0] == ElementGlyph(dayElement.value)[0];
    }
  }

  /** In any other locale the English name never equals a glyph, so "supported" cannot happen. */
  lemma NeverSupportedOutsideChinese(w: Wuxing, dayElement: Option<Element>)
    ensures var r := Classify(w, false, dayElement); r.Strong? ==> !r.supported
  {
    var r := Classify(w, false, dayElement);
    if r.Strong? && dayElement.Some? {
      assert |ElementName(r.strongest, false)| >= 4 > |ElementGlyph(dayElement.value)|;
    }
  }

  /** With eight glyphs counted, some element has at least two of them. */
  lemma MaxAtLeastTwo(w: Wuxing)
    requires Total(w) == 8
    ensures exists e :: Count(w, e) >= 2
  {
    if w.metal < 2 && w.wood < 2 && w.water < 2 && w.fire < 2 {
      assert Count(w, Earth) >= 2;
    } else if w.metal >= 2 {
      assert Count(w, Metal) >= 2;
    } else if w.wood >= 2 {
      assert Count(w, Wood) >= 2;
    } else if w.water >= 2 {
      assert Count(w, Water) >= 2;
    } else {
      assert Count(w, Fire) >= 2;
    }
  }

  /** With eight glyphs counted, balance means three elements at two and two at one. */
  lemma BalancedExactly(w: Wuxing, isZh: bool, dayElement: Option<Element>)
    requires Total(w) == 8
    ensures Classify(w, isZh, dayElement).Balanced? <==>
      multiset{w.metal, w.wood, w.water, w.fire, w.earth} == multiset{2, 2, 2, 1, 1}
  {
    var r := Classify(w, isZh, dayElement);
    var m := multiset{w.metal, w.wood, w.water, w.fire, w.earth};
    if r.Balanced? {
      assert !r.Strong? && !r.Missing?;
      assert forall e :: Count(w, e) < 3;
      assert forall e :: Count(w, e) != 0;
      assert Count(w, Metal) != 0 && Count(w, Wood) != 0 && Count(w, Water) != 0 && Count(w, Fire) != 0 && Count(w, Earth) != 0;
      assert Count(w, Metal) < 3 && Count(w, Wood) < 3 && Count(w, Water) < 3 && Count(w, Fire) < 3 && Count(w, Earth) < 3;
      BalancedCounts(w.metal, w.wood, w.water, w.fire, w.earth);
    }
    if m == multiset{2, 2, 2, 1, 1} {
      OneOrTwo(w);
    }
  }

  lemma OneOrTwo(w: Wuxing)
    requires multiset{w.metal, w.wood, w.water, w.fire, w.earth} == multiset{2, 2, 2, 1, 1}
    ensures forall e :: 1 <= Count(w, e) <= 2
  {
    var m := multiset{w.metal, w.wood, w.water, w.fire, w.earth};
    OneOrTwoMember(w.metal, m);
    OneOrTwoMember(w.wood, m);
    OneOrTwoMember(w.water, m);
    OneOrTwoMember(w.fire, m);
    OneOrTwoMember(w.earth, m);
    forall e ensures 1 <= Count(w, e) <= 2 {
      match e
      case Metal =>
      case Wood =>
      case Water =>
      case Fire =>
      case Earth =>
    }
  }

  lemma OneOrTwoMember(x: nat, m: multiset<nat>)
    requires m == multiset{2, 2, 2, 1, 1} && x in m
    ensures 1 <= x <= 2
  {
    assert m == multiset{2, 2, 2} + multiset{1, 1};
  }

  /** Five counts of one or two summing to eight are three twos and two ones. */
  lemma BalancedCounts(a: nat, b: nat, c: nat, d: nat, e: nat)
    requires 1 <= a <= 2 && 1 <= b <= 2 && 1 <= c <= 2 && 1 <= d <= 2 && 1 <= e <= 2
    requires a + b + c + d + e == 8
    ensures multiset{a, b, c, d, e} == multiset{2, 2, 2, 1, 1}
  {
    if a == 1 && b == 1 { assert c == 2 && d == 2 && e == 2; }
    else if a == 1 && c == 1 { assert b == 2 && d == 2 && e == 2; }
    else if a == 1 && d == 1 { assert b == 2 && c == 2 && e == 2; }
    else if a == 1 && e == 1 { assert b == 2 && c == 2 && d == 2; }
    else if b == 1 && c == 1 { assert a == 2 && d == 2 && e == 2; }
    else if b == 1 && d == 1 { assert a == 2 && c == 2 && e == 2; }
    else if b == 1 && e == 1 { assert a == 2 && c == 2 && d == 2; }
    else if c == 1 && d == 1 { assert a == 2 && b == 2 && e == 2; }
    else if c == 1 && e == 1 { assert a == 2 && b == 2 && d == 2; }
    else { assert a == 2 && b == 2 && c == 2 && d == 1 && e == 1; }
  }

  /** `personalityTraits[dayGan]`, falling back to the generic sentence for anything but a stem. */
  function Trait(dayGan: Option<char>, isZh: bool): (t: string)
    ensures (dayGan.None? || StemIndexOf(dayGan.value).None?) ==> t == TraitFallback(isZh)
    ensures dayGan.Some? && StemIndexOf(dayGan.value).Some? ==> t == TraitOfStem(StemIndexOf(dayGan.value).value, isZh)
  {
    match dayGan
    case None => TraitFallback(isZh)
    case Some(c) => if StemIndexOf(c).Some? then TraitOfStem(StemIndexOf(c).value, isZh) else TraitFallback(isZh)
  }

  function TraitFallback(isZh: bool): string {
    if isZh then "性格特点需要结合整体八字分析。"
    else "Personality traits need to be analyzed in combination with the overall Bazi."
  }

  function TraitOfStem(i: nat, isZh: bool): string
    requires i < 10
  {
    match i
    case 0 => if isZh then "性格直率，有领导力，做事果断。"
      else "Straightforward character, leadership ability, decisive."
    case 1 => if isZh then "性格温和，善于沟通，适应能力强。"
      else "Gentle character, good communication skills, adaptable."
    case 2 => if isZh then "性格热情，积极向上，有创造力。"
      else "Enthusiastic character, positive attitude, creative."
    case 3 => if isZh then "性格细腻，注重细节，有艺术天赋。"
      else "Detail-oriented character, artistic talent."
    case 4 => if isZh then "性格稳重，踏实可靠，有责任感。"
      else "Stable character, reliable, responsible."
    case 5 => if isZh then "性格包容，善于协调，人际关系好。"
      else "Tolerant character, good at coordination, good interpersonal relationships."
    case 6 => if isZh then "性格刚强，意志坚定，有执行力。"
      else "Strong character, determined, executive ability."
    case 7 => if isZh then "性格敏锐，善于分析，追求完美。"
      else "Sharp character, analytical, perfectionist."
    case 8 => if isZh then "性格灵活，适应力强，有智慧。"
      else "Flexible character, adaptable, wise."
    case _ => if isZh then "性格温和，善于思考，有洞察力。"
      else "Gentle character, thoughtful, insightful."
  }

  /** The paragraph written for the selected branch. */
  function ReadingText(r: Reading, isZh: bool): string {
    match r
    case Strong(e, supported) =>
      if isZh then ElementName(e, true) + "元素较旺，" + (if supported then "日主得助，性格较为强势，有领导才能。" else "可能对日主形成压力，需要注意平衡。")
      else ElementName(e, false) + " element is strong. " + (if supported then "Day Master is supported, indicating strong character and leadership ability." else "May create pressure on Day Master, balance is needed.")
    case Missing(e) =>
      if isZh then ElementName(e, true) + "元素缺失，" + "建议在生活中多接触相关元素，以平衡五行。"
      else ElementName(e, false) + " element is missing. " + "Suggest incorporating related elements in life to balance the Five Elements."
    case Balanced =>
      if isZh then "五行分布相对均衡，性格较为平和，适应能力强。"
      else "Five Elements are relatively balanced, indicating peaceful character and strong adaptability."
  }

  /** A JavaScript string index: the character, or `undefined` past the end. */
  function CharAt(s: string, i: nat): Option<char> {
    if i < |s| then Some(s[i]) else None
  }

  /** How `${x}` renders a possibly undefined glyph or element. */
  function ShowChar(c: Option<char>): string {
    if c.Some? then [c.value] else "undefined"
  }

  function ShowElement(e: Option<Element>): string {
    if e.Some? then ElementGlyph(e.value) else "undefined"
  }

  /** The whole analysis text: the opening lines, the paragraph of the branch `Classify` selects, the traits. */
  function AnalysisText(yearGanZhi: string, monthGanZhi: string, dayGanZhi: string, hourGanZhi: string,
                        w: Wuxing, locale: string): (s: string)
  {
    var isZh := locale == "zh";
    var dayGan := CharAt(dayGanZhi, 0);
    var dayElement := if dayGan.Some? then GanWuxing(dayGan.value) else None;
    var head := AnalysisHead(yearGanZhi, monthGanZhi, dayGanZhi, hourGanZhi, dayElement, w, isZh);
    head + ReadingText(Classify(w, isZh, dayElement), isZh) + "\n\n" + AnalysisTail(dayGan, isZh)
  }

  /**
   * `generateAnalysis`: one pass over the five counts in declaration order finds the first and
   * the last entries of their stable descending sort, then the text is accumulated piece by piece.
   */
  method GenerateAnalysis(yearGanZhi: string, monthGanZhi: string, dayGanZhi: string, hourGanZhi: string,
                          w: Wuxing, locale: string) returns (analysis: string)
    ensures analysis == AnalysisText(yearGanZhi, monthGanZhi, dayGanZhi, hourGanZhi, w, locale)
  {
    var isZh := locale == "zh";
    var v := Values(w);
    var hi, lo := 0, 0;
    var i := 1;
    while i < 5
      invariant 1 <= i <= 5 && hi < i && lo < i
      invariant forall j :: 0 <= j < i ==> v[j] <= v[hi] && v[lo] <= v[j]
      invariant forall j :: 0 <= j < hi ==> v[j] < v[hi]
      invariant forall j :: lo < j < i ==> v[lo] < v[j]
    {
      if v[i] > v[hi] { hi := i; }
      if v[i] <= v[lo] { lo := i; }
      i := i + 1;
    }
    FirstMaxUnique(v, hi);
    LastMinUnique(v, lo);
    var dayGan := CharAt(dayGanZhi, 0);
    var dayElement := if dayGan.Some? then GanWuxing(dayGan.value) else None;
    var reading: Reading;
    if v[hi] >= 3 {
      reading := Strong(Elements[hi], dayElement.Some? && ElementName(Elements[hi], isZh) == ElementGlyph(dayElement.value));
    } else if v[lo] == 0 {
      reading := Missing(Elements[lo]);
    } else {
      reading := Balanced;
    }
    assert reading == Classify(w, isZh, dayElement);
    analysis := AnalysisHead(yearGanZhi, monthGanZhi, dayGanZhi, hourGanZhi, dayElement, w, isZh);
    analysis := analysis + ReadingText(reading, isZh);
    analysis := analysis + "\n\n";
    analysis := analysis + AnalysisTail(dayGan, isZh);
  }

  /** Only one index is the first maximum. */
  lemma FirstMaxUnique(v: seq<nat>, k: nat)
    requires k < |v|
    requires forall j :: 0 <= j < |v| ==> v[j] <= v[k]
    requires forall j :: 0 <= j < k ==> v[j] < v[k]
    ensures k == FirstMax(v)
  {
  }

  /** Only one index is the last minimum. */
  lemma LastMinUnique(v: seq<nat>, k: nat)
    requires k < |v|
    requires forall j :: 0 <= j < |v| ==> v[k] <= v[j]
    requires forall j :: k < j < |v| ==> v[k] < v[j]
    ensures k == LastMin(v)
  {
  }

  /** The opening lines: the four pillars, the day stem with its element and the five counts. */
  function AnalysisHead(yearGanZhi: string, monthGanZhi: string, dayGanZhi: string, hourGanZhi: string,
                        dayElement: Option<Element>, w: Wuxing, isZh: bool): string
  {
    var dayGan := CharAt(dayGanZhi, 0);
    if isZh then
      "您的八字为：" + yearGanZhi + " " + monthGanZhi + " " + dayGanZhi + " " + hourGanZhi + "。\n\n"
      + "日主为" + ShowChar(dayGan) + "（" + ShowElement(dayElement) + "），五行分布：金" + NatToString(w.metal)
      + "、木" + NatToString(w.wood) + "、水" + NatToString(w.water) + "、火" + NatToString(w.fire)
      + "、土" + NatToString(w.earth) + "。\n\n"
    else
      "Your Bazi is: " + yearGanZhi + " " + monthGanZhi + " " + dayGanZhi + " " + hourGanZhi + ".\n\n"
      + "Day Master is " + ShowChar(dayGan) + " (" + ShowElement(dayElement) + "), Five Elements distribution: Metal "
      + NatToString(w.metal) + ", Wood " + NatToString(w.wood) + ", Water " + NatToString(w.water) + ", Fire "
      + NatToString(w.fire) + ", Earth " + NatToString(w.earth) + ".\n\n"
  }

  /** The personality paragraph and the closing note. */
  function AnalysisTail(dayGan: Option<char>, isZh: bool): string {
    if isZh then
      "性格特点：" + Trait(dayGan, true) + "\n\n"
      + "建议：八字仅供参考，人生的成功更多取决于后天的努力和选择。保持积极的心态，发挥自己的优势，克服不足，才能创造美好的未来。"
    else
      "Personality traits: " + Trait(dayGan, false) + "\n\n"
      + "Note: Bazi is for reference only. Success in life depends more on hard work and choices. Maintain a positive attitude, leverage your strengths, and overcome weaknesses to create a better future."
  }

  datatype BaziResult = BaziResult(yearGanZhi: string, monthGanZhi: string, dayGanZhi: string,
                                   hourGanZhi: string, wuxing: Wuxing, analysis: string)

  /**
   * `calculateBazi`: the four pillars of the birth moment and hour, their histogram and the analysis.
   * The year must be at least 4 and the date not before 1899-12-26, where the source's formulas
   * would index with a negative remainder.
   */
  method CalculateBazi(birth: DateTime, birthHour: int, locale: string) returns (r: BaziResult)
    requires ValidDateTime(birth) && birth.date.year >= 4 && DayNumber(birth.date) + 6 >= 0 && birthHour >= 0
    ensures r.yearGanZhi == Label(YearPillar(birth.date.year))
    ensures r.monthGanZhi == Label(MonthPillar(birth.date.year, birth.date.month))
    ensures r.dayGanZhi == Label(DayPillar(birth))
    ensures r.hourGanZhi == Label(HourPillar(r.dayGanZhi, birthHour))
    ensures Total(r.wuxing) == 8
    ensures forall e :: Count(r.wuxing, e) == multiset(GlyphElements([r.yearGanZhi, r.monthGanZhi, r.dayGanZhi, r.hourGanZhi]))[e]
    ensures r.analysis == AnalysisText(r.yearGanZhi, r.monthGanZhi, r.dayGanZhi, r.hourGanZhi, r.wuxing, locale)
  {
    var y := YearPillar(birth.date.year);
    var m := MonthPillar(birth.date.year, birth.date.month);
    var d := DayPillar(birth);
    var dayLabel := Label(d);
    DayLabelStem(d);
    var h := HourPillar(dayLabel, birthHour);
    HourStemFromDay(d, birthHour);
    var yearGanZhi, monthGanZhi, hourGanZhi := Label(y), Label(m), Label(h);
    var w := CalculateWuxing(yearGanZhi, monthGanZhi, dayLabel, hourGanZhi);
    HistogramTotal(w, y, m, d, h);
    var analysis := GenerateAnalysis(yearGanZhi, monthGanZhi, dayLabel, hourGanZhi, w, locale);
    r := BaziResult(yearGanZhi, monthGanZhi, dayLabel, hourGanZhi, w, analysis);
  }

  /** The ten stem glyphs are distinct, so a label's first glyph gives back its stem. */
  lemma StemsDistinct(i: nat)
    requires i < 10
    ensures StemIndexOf(Gan[i]) == Some(i)
  {
  }

  /** The hour stem counts from the day stem itself. */
  lemma HourStemFromDay(d: Pillar, hour: int)
    requires ValidPillar(d) && hour >= 0
    ensures StemIndexOf(Label(d)[0]).Some?
    ensures HourPillar(Label(d), hour).stem == (d.stem * 2 + HourBranch(hour)) % 10
  {
    DayLabelStem(d);
  }

  lemma DayLabelStem(d: Pillar)
    requires ValidPillar(d)
    ensures StemIndexOf(Label(d)[0]) == Some(d.stem)
  {
    StemsDistinct(d.stem);
  }

  /** `getZodiac` of this file is the animal of the year branch. */
  lemma ZodiacMatchesYear(year: int)
    requires year >= 4
    ensures Zodiac(year) == ZodiacAnimal(YearPillar(year).branch)
    ensures Label(YearPillar(year))[1] == Zhi[(year - 4) % 12]
  {
  }
}
