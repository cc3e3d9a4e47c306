/**
 * The Liu Yao (six lines) engine of lib/liuyao-calculator.ts.
 *
 * A line comes from three coin tosses; six lines, read bottom up, are a six-bit number
 * whose least significant bit is the bottom line, and that number plus one is the id of
 * the primary hexagram. Changing lines flip to give the transformed hexagram, and a
 * template text is assembled from both. The coin tosses (`Math.random() < 0.5`) are
 * inputs: three values in [0, 1) per line.
 */
module LiuYao {
  import opened Wrappers
  import opened Text
  import opened Seeded
  import opened Hexagrams

  datatype LineType = Yang | Yin

  /** A line: its type, whether it changes (`'change'` rather than `'none'`), and its value 6..9. */
  datatype Yao = Yao(kind: LineType, changing: bool, value: int)

  // ---------------------------------------------------------------- one line

  /** `Math.random() < 0.5 ? 'heads' : 'tails'`, as a count. */
  function Heads(u: Unit): nat {
    if u < 0.5 then 1 else 0
  }

  /** The number of heads among three tosses. */
  function HeadsCount(c: (Unit, Unit, Unit)): (n: nat)
    ensures n <= 3
  {
    Heads(c.0) + Heads(c.1) + Heads(c.2)
  }

  /** The line for a heads count: old yang 9, young yin 8, young yang 7, old yin 6. */
  function YaoOfHeads(heads: nat): (y: Yao)
    requires heads <= 3
  {
    if heads == 3 then Yao(Yang, true, 9)
    else if heads == 2 then Yao(Yin, false, 8)
    else if heads == 1 then Yao(Yang, false, 7)
    else Yao(Yin, true, 6)
  }

  /** `generateYao()`, given its three tosses. */
  function GenerateYao(c: (Unit, Unit, Unit)): Yao {
    YaoOfHeads(HeadsCount(c))
  }

  /** A line generated from tosses is well formed: it changes iff its value is 6 or 9, and it is yang iff its value is odd. */
  predicate WellFormed(y: Yao) {
    6 <= y.value <= 9 && (y.changing <==> y.value == 6 || y.value == 9) && (y.kind == Yang <==> y.value % 2 == 1)
  }

  /**
   * The value of the line is six plus the number of heads, so the four counts give four
   * different lines, each well formed.
   */
  lemma YaoOfHeadsFacts(heads: nat)
    requires heads <= 3
    ensures YaoOfHeads(heads).value == 6 + heads
    ensures WellFormed(YaoOfHeads(heads))
  {
  }

  // ---------------------------------------------------------------- hexagram ids

  function Pow2(n: nat): (p: nat)
    ensures p >= 1
  {
    if n == 0 then 1 else 2 * Pow2(n - 1)
  }

  function Bit(y: Yao): nat {
    if y.kind == Yang then 1 else 0
  }

  /** The lines as a binary number, yang = 1, the first (bottom) line the least significant bit. */
  function LineNumber(ys: seq<Yao>): (n: nat)
    ensures n < Pow2(|ys|)
  {
    if ys == [] then 0 else Bit(ys[0]) + 2 * LineNumber(ys[1..])
  }

  predicate IsBinary(s: string) {
    forall k :: 0 <= k < |s| ==> s[k] == '0' || s[k] == '1'
  }

  /** `parseInt(s, 2)` on a string of binary digits, the last digit the least significant. */
  function ParseBinary(s: string): nat
    requires IsBinary(s)
  {
    if s == [] then 0 else 2 * ParseBinary(s[..|s| - 1]) + (if s[|s| - 1] == '1' then 1 else 0)
  }

  /**
   * `getHexagramId(yaos)`: the digits of lines 5 down to 0 as a binary string, parsed,
   * plus one.
   */
  method HexagramId(yaos: seq<Yao>) returns (id: int)
    requires |yaos| == 6
    ensures id == LineNumber(yaos) + 1
  {
    var binary := "";
    var i := |yaos| - 1;  // 5, the top line
    while i >= 0
      invariant -1 <= i < |yaos| && IsBinary(binary)
      invariant ParseBinary(binary) == LineNumber(yaos[i + 1..])
    {
      var digit := if yaos[i].kind == Yang then '1' else '0';
      ParseDigit(binary, digit);
      NumberFrom(yaos, i);
      binary := binary + [digit];
      i := i - 1;
    }
    var value := ParseBinary(binary);
    assert value == LineNumber(yaos[0..]);
    WholeSlice(yaos);
    id := value + 1;
  }

  lemma WholeSlice(ys: seq<Yao>)
    ensures LineNumber(ys[0..]) == LineNumber(ys)
  {
    assert ys[0..] == ys;
  }

  /** Appending a digit doubles the value read so far and adds the digit. */
  lemma ParseDigit(s: string, d: char)
    requires IsBinary(s) && (d == '0' || d == '1')
    ensures IsBinary(s + [d]) && ParseBinary(s + [d]) == 2 * ParseBinary(s) + (if d == '1' then 1 else 0)
  {
    assert (s + [d])[..|s|] == s;
  }

  /** The lines from `i` up are line `i` followed by the lines from `i + 1` up. */
  lemma NumberFrom(ys: seq<Yao>, i: nat)
    requires i < |ys|
    ensures LineNumber(ys[i..]) == Bit(ys[i]) + 2 * LineNumber(ys[i + 1..])
  {
    assert ys[i..][1..] == ys[i + 1..];
  }

  /** The id lies in [1, 64], so it always names an entry of the table. */
  lemma HexagramIdRange(ys: seq<Yao>)
    requires |ys| == 6
    ensures 1 <= LineNumber(ys) + 1 <= HexagramCount
  {
    assert Pow2(6) == 64;
  }

  /** Two line sets of equal length with the same number have the same line types. */
  lemma {:induction false} LineNumberInjective(a: seq<Yao>, b: seq<Yao>)
    requires |a| == |b| && LineNumber(a) == LineNumber(b)
    ensures forall k :: 0 <= k < |a| ==> a[k].kind == b[k].kind
    decreases |a|
  {
    if a != [] {
      assert Bit(a[0]) == Bit(b[0]);
      LineNumberInjective(a[1..], b[1..]);
      forall k | 0 <= k < |a|
        ensures a[k].kind == b[k].kind
      {
        if k > 0 {
          assert a[k] == a[1..][k - 1] && b[k] == b[1..][k - 1];
        }
      }
    }
  }

  /** The unchanging lines whose types spell `n` in binary, bottom line first. */
  function Pattern(n: nat, len: nat): (ys: seq<Yao>)
    ensures |ys| == len
  {
    if len == 0 then []
    else [if n % 2 == 1 then Yao(Yang, false, 7) else Yao(Yin, false, 8)] + Pattern(n / 2, len - 1)
  }

  /** Every number below `2^len` is the number of some line set: with injectivity, a bijection. */
  lemma {:induction false} PatternNumber(n: nat, len: nat)
    requires n < Pow2(len)
    ensures LineNumber(Pattern(n, len)) == n
    decreases len
  {
    if len > 0 {
      PatternNumber(n / 2, len - 1);
      assert Pattern(n, len)[1..] == Pattern(n / 2, len - 1);
    }
  }

  predicate AllOfKind(ys: seq<Yao>, kind: LineType) {
    forall k :: 0 <= k < |ys| ==> ys[k].kind == kind
  }

  lemma {:induction false} AllYinNumber(ys: seq<Yao>)
    requires AllOfKind(ys, Yin)
    ensures LineNumber(ys) == 0
    decreases |ys|
  {
    if ys != [] {
      AllYinNumber(ys[1..]);
    }
  }

  lemma {:induction false} AllYangNumber(ys: seq<Yao>)
    requires AllOfKind(ys, Yang)
    ensures LineNumber(ys) == Pow2(|ys|) - 1
    decreases |ys|
  {
    if ys != [] {
      AllYangNumber(ys[1..]);
    }
  }

  /** The first and the last entry of the table. */
  lemma TableEnds()
    ensures HexagramAt(0).nameZh == "乾" && HexagramAt(63).nameZh == "未济"
  {
  }

  /** Six yin lines give hexagram 1, 乾; six yang lines give hexagram 64, 未济. */
  lemma PureHexagrams(ys: seq<Yao>)
    requires |ys| == 6
    ensures AllOfKind(ys, Yin) ==> HexagramAt(LineNumber(ys)).id == 1 && HexagramAt(LineNumber(ys)).nameZh == "乾"
    ensures AllOfKind(ys, Yang) ==> HexagramAt(LineNumber(ys)).id == 64 && HexagramAt(LineNumber(ys)).nameZh == "未济"
  {
    TableEnds();
    if AllOfKind(ys, Yin) {
      AllYinNumber(ys);
    }
    if AllOfKind(ys, Yang) {
      AllYangNumber(ys);
      assert Pow2(6) == 64;
    }
  }

  // ---------------------------------------------------------------- the transformed hexagram

  /** One line of `getBianGua`: a changing line flips type and stops changing, any other stays. */
  function Flip(y: Yao): Yao {
    if y.changing then Yao(if y.kind == Yang then Yin else Yang, false, if y.kind == Yang then 6 else 9)
    else y
  }

  /** `getBianGua(yaos)`: every line mapped by `Flip`. */
  function BianGua(ys: seq<Yao>): (r: seq<Yao>)
    ensures |r| == |ys| && forall k :: 0 <= k < |ys| ==> r[k] == Flip(ys[k])
  {
    seq(|ys|, k requires 0 <= k < |ys| => Flip(ys[k]))
  }

  predicate NoChanging(ys: seq<Yao>) {
    forall k :: 0 <= k < |ys| ==> !ys[k].changing
  }

  /**
   * A changing line flips its type and the value becomes 6 for a former yang line, 9 for a
   * former yin line; the transformed lines never change, so transforming twice is
   * transforming once, and lines that do not change are left as they are.
   */
  lemma BianGuaFacts(ys: seq<Yao>)
    ensures NoChanging(BianGua(ys))
    ensures BianGua(BianGua(ys)) == BianGua(ys)
    ensures NoChanging(ys) ==> BianGua(ys) == ys
    ensures forall k :: 0 <= k < |ys| && ys[k].changing ==>
      BianGua(ys)[k].kind != ys[k].kind && BianGua(ys)[k].value == (if ys[k].kind == Yang then 6 else 9)
  {
    assert forall k :: 0 <= k < |ys| ==> BianGua(BianGua(ys))[k] == BianGua(ys)[k];
  }

  /** With a changing line, the transformed hexagram has another number, hence another id. */
  lemma BianGuaDiffers(ys: seq<Yao>)
    requires !NoChanging(ys)
    ensures LineNumber(BianGua(ys)) != LineNumber(ys)
  {
    var k :| 0 <= k < |ys| && ys[k].changing;
    assert BianGua(ys)[k].kind != ys[k].kind;
    if LineNumber(BianGua(ys)) == LineNumber(ys) {
      LineNumberInjective(BianGua(ys), ys);
      assert false;
    }
  }

  // ---------------------------------------------------------------- changing positions

  /** The 1-based positions of the changing lines, bottom up. */
  function ChangingPositions(ys: seq<Yao>): (ps: seq<nat>)
    ensures forall k :: 0 <= k < |ps| ==> 1 <= ps[k] <= |ys|
    decreases |ys|
  {
    if ys == [] then []
    else ChangingPositions(ys[..|ys| - 1]) + (if ys[|ys| - 1].changing then [|ys|] else [])
  }

  /** The `forEach` that pushes `index + 1` for every changing line. */
  method CollectChanging(yaos: seq<Yao>) returns (changing: seq<nat>)
    ensures changing == ChangingPositions(yaos)
  {
    changing := [];
    for index := 0 to |yaos|
      invariant changing == ChangingPositions(yaos[..index])
    {
      assert yaos[..index + 1][..index] == yaos[..index];
      if yaos[index].changing {
        changing := changing + [index + 1];
      }
    }
    assert yaos[..|yaos|] == yaos;
  }

  /**
   * The positions are strictly increasing, and a position is listed iff its line changes;
   * in particular the list is empty iff no line changes.
   */
  lemma {:induction false} ChangingPositionsFacts(ys: seq<Yao>)
    ensures forall i, j :: 0 <= i < j < |ChangingPositions(ys)| ==> ChangingPositions(ys)[i] < ChangingPositions(ys)[j]
    ensures forall p: nat :: p in ChangingPositions(ys) <==> 1 <= p <= |ys| && ys[p - 1].changing
    ensures ChangingPositions(ys) == [] <==> NoChanging(ys)
    decreases |ys|
  {
    if ys != [] {
      var init := ys[..|ys| - 1];
      ChangingPositionsFacts(init);
      forall p: nat
        ensures p in ChangingPositions(ys) <==> 1 <= p <= |ys| && ys[p - 1].changing
      {
        if 1 <= p < |ys| {
          assert init[p - 1] == ys[p - 1];
        }
      }
      if ChangingPositions(ys) == [] {
        forall k | 0 <= k < |ys|
          ensures !ys[k].changing
        {
          assert k + 1 !in ChangingPositions(ys);
        }
      }
    }
  }

  // ---------------------------------------------------------------- the interpretation text

  /** The fixed phrases of one language of `generateInterpretation`. */
  datatype Phrases = Phrases(
    primary: string, open: string, close: string, judgement: string, image: string,
    changingHead: string, changingSep: string, changingTail: string, lineTexts: string,
    changed: string, changedJudgement: string, changedImage: string, noChange: string,
    reading: string, current: string, currentTail: string, countHead: string, countTail: string,
    future: string, futureTail: string, attention: string, stable: string, advice: string)

  const ZhPhrases := Phrases(
    "本卦：", "（", "）\n\n", "卦辞：", "含义：",
    "变爻：第", "、", "爻\n\n", "变爻爻辞：\n",
    "变卦：", "变卦卦辞：", "变卦含义：", "无变爻，以本卦卦辞和爻辞为主。\n\n",
    "解读：\n", "本卦", "卦象显示当前的情况。", "由于有", "个变爻，事情将会发生变化。",
    "变卦", "预示着未来的发展趋势。", "需要特别关注变爻的爻辞，它们指出了变化的关键点。",
    "由于没有变爻，当前情况相对稳定，可以按照本卦的指导行事。",
    "\n\n建议：根据卦象的指导，保持内心的平静，审时度势，做出明智的决策。")

  const EnPhrases := Phrases(
    "Original Hexagram: ", " (", ")\n\n", "Hexagram Text: ", "Meaning: ",
    "Changing Lines: ", ", ", "\n\n", "Changing Line Texts:\n",
    "Changed Hexagram: ", "Changed Hexagram Text: ", "Changed Hexagram Meaning: ",
    "No changing lines, " + "focus on the original hexagram.\n\n",
    "Interpretation:\n", "The hexagram ", " shows the current situation.", " With ",
    " changing line(s), change is coming.",
    " The changed hexagram ", " indicates future development.",
    " Pay special attention to the changing line texts, as they point to key points of change.",
    " With no changing lines, the situation is relatively stable.",
    "\n\nAdvice: Follow the guidance of the hexagram, maintain inner peace, assess the situation, and make wise decisions.")

  /** `locale === 'zh'` selects Chinese; every other locale gets English. */
  function PhrasesFor(locale: string): Phrases {
    if locale == "zh" then ZhPhrases else EnPhrases
  }

  /** Every position names one of the hexagram's line texts. */
  predicate ValidPositions(yaoCi: seq<string>, ps: seq<nat>) {
    forall k :: 0 <= k < |ps| ==> 1 <= ps[k] <= |yaoCi|
  }

  /** The positions as the template literal prints them. */
  function Numerals(ps: seq<nat>): seq<string> {
    seq(|ps|, k requires 0 <= k < |ps| => NatToString(ps[k]))
  }

  /** `s` followed by `yaoCi[p - 1] + "\n"` for each position `p`, in order. */
  function AppendLineTexts(s: string, yaoCi: seq<string>, ps: seq<nat>): string
    requires ValidPositions(yaoCi, ps)
    decreases |ps|
  {
    if ps == [] then s else AppendLineTexts(s, yaoCi, ps[..|ps| - 1]) + (yaoCi[ps[|ps| - 1] - 1] + "\n")
  }

  /** The primary hexagram's name, judgement and image. */
  function Header(p: Phrases, ben: Hexagram): string {
    "" + (p.primary + ben.nameZh + p.open + ben.nameEn + p.close) + (p.judgement + ben.guaCi + "\n\n")
    + (p.image + ben.meaning + "\n\n")
  }

  /** The block on the changing lines after `s`, or the sentence saying there are none. */
  function Changes(p: Phrases, s: string, ben: Hexagram, bian: Option<Hexagram>, ps: seq<nat>): string
    requires ValidPositions(ben.yaoCi, ps)
  {
    if |ps| > 0 then
      var listed := s + (p.changingHead + Join(Numerals(ps), p.changingSep) + p.changingTail) + p.lineTexts;
      var texts := AppendLineTexts(listed, ben.yaoCi, ps) + "\n";
      if bian.Some? then
        texts + (p.changed + bian.value.nameZh + p.open + bian.value.nameEn + p.close)
        + (p.changedJudgement + bian.value.guaCi + "\n\n") + (p.changedImage + bian.value.meaning + "\n\n")
      else texts
    else s + p.noChange
  }

  /** The reading and the advice after `s`. */
  function Reading(p: Phrases, s: string, ben: Hexagram, bian: Option<Hexagram>, ps: seq<nat>): string {
    var opening := s + p.reading + (p.current + ben.nameZh + p.currentTail);
    var body :=
      if |ps| > 0 then
        var counted := opening + (p.countHead + NatToString(|ps|) + p.countTail);
        var future := if bian.Some? then counted + (p.future + bian.value.nameZh + p.futureTail) else counted;
        future + p.attention
      else opening + p.stable;
    body + p.advice
  }

  /** `generateInterpretation(benGua, bianGua, changingYaos, locale)`. */
  function Interpretation(ben: Hexagram, bian: Option<Hexagram>, ps: seq<nat>, locale: string): string
    requires ValidPositions(ben.yaoCi, ps)
  {
    var p := PhrasesFor(locale);
    Reading(p, Changes(p, Header(p, ben), ben, bian, ps), ben, bian, ps)
  }

  /** The `forEach` that appends the line text of every changing position. */
  method AppendChangingLines(text: string, yaoCi: seq<string>, ps: seq<nat>) returns (r: string)
    requires ValidPositions(yaoCi, ps)
    ensures r == AppendLineTexts(text, yaoCi, ps)
  {
    r := text;
    for i := 0 to |ps|
      invariant r == AppendLineTexts(text, yaoCi, ps[..i])
    {
      assert ps[..i + 1][..i] == ps[..i];
      var yaoIndex := ps[i] - 1;
      r := r + (yaoCi[yaoIndex] + "\n");
    }
    assert ps[..|ps|] == ps;
  }

  /** `generateInterpretation`: the text accumulated with `+=` in the order of the source. */
  method GenerateInterpretation(ben: Hexagram, bian: Option<Hexagram>, ps: seq<nat>, locale: string)
    returns (text: string)
    requires ValidPositions(ben.yaoCi, ps)
    ensures text == Interpretation(ben, bian, ps, locale)
  {
    var p := PhrasesFor(locale);
    text := "";
    text := text + (p.primary + ben.nameZh + p.open + ben.nameEn + p.close);
    text := text + (p.judgement + ben.guaCi + "\n\n");
    text := text + (p.image + ben.meaning + "\n\n");
    if |ps| > 0 {
      text := text + (p.changingHead + Join(Numerals(ps), p.changingSep) + p.changingTail);
      text := text + p.lineTexts;
      text := AppendChangingLines(text, ben.yaoCi, ps);
      text := text + "\n";
      if bian.Some? {
        text := text + (p.changed + bian.value.nameZh + p.open + bian.value.nameEn + p.close);
        text := text + (p.changedJudgement + bian.value.guaCi + "\n\n");
        text := text + (p.changedImage + bian.value.meaning + "\n\n");
      }
    } else {
      text := text + p.noChange;
    }
    text := text + p.reading;
    text := text + (p.current + ben.nameZh + p.currentTail);
    if |ps| > 0 {
      text := text + (p.countHead + NatToString(|ps|) + p.countTail);
      if bian.Some? {
        text := text + (p.future + bian.value.nameZh + p.futureTail);
      }
      text := text + p.attention;
    } else {
      text := text + p.stable;
    }
    text := text + p.advice;
  }

  /** The line texts appended for the changing positions, one per position, in order. */
  function LineTexts(yaoCi: seq<string>, ps: seq<nat>): (r: seq<string>)
    requires ValidPositions(yaoCi, ps)
    ensures |r| == |ps| && forall k :: 0 <= k < |ps| ==> r[k] == yaoCi[ps[k] - 1] + "\n"
  {
    seq(|ps|, k requires 0 <= k < |ps| => yaoCi[ps[k] - 1] + "\n")
  }

  lemma {:induction false} ConcatSnoc(parts: seq<string>, last: string)
    ensures Concat(parts + [last]) == Concat(parts) + last
    decreases |parts|
  {
    if parts != [] {
      assert (parts + [last])[1..] == parts[1..] + [last];
      ConcatSnoc(parts[1..], last);
    }
  }

  /** The changing lines' texts are exactly `yaoCi[p - 1]` for each changing position `p`, in order. */
  lemma {:induction false} LineTextsAppended(s: string, yaoCi: seq<string>, ps: seq<nat>)
    requires ValidPositions(yaoCi, ps)
    ensures AppendLineTexts(s, yaoCi, ps) == s + Concat(LineTexts(yaoCi, ps))
    decreases |ps|
  {
    if ps != [] {
      var init, last := ps[..|ps| - 1], yaoCi[ps[|ps| - 1] - 1] + "\n";
      assert ValidPositions(yaoCi, init);
      var texts := LineTexts(yaoCi, init);
      LineTextsAppended(s, yaoCi, init);
      assert LineTexts(yaoCi, ps) == texts + [last];
      ConcatSnoc(texts, last);
      assert AppendLineTexts(s, yaoCi, ps) == (s + Concat(texts)) + last;
    }
  }

  lemma {:induction false} AppendLineTextsExtends(s: string, yaoCi: seq<string>, ps: seq<nat>)
    requires ValidPositions(yaoCi, ps)
    ensures StartsWith(AppendLineTexts(s, yaoCi, ps), s)
    decreases |ps|
  {
    if ps != [] {
      AppendLineTextsExtends(s, yaoCi, ps[..|ps| - 1]);
    }
  }

  /** The changing-lines block and the "no changing lines" sentence begin differently. */
  lemma DistinctOpenings(locale: string)
    ensures |PhrasesFor(locale).changingHead| > 0 && |PhrasesFor(locale).noChange| > 0
    ensures PhrasesFor(locale).changingHead[0] != PhrasesFor(locale).noChange[0]
  {
    if locale == "zh" {
      assert ZhPhrases.changingHead[0] == '变' && ZhPhrases.noChange[0] == '无';
    } else {
      assert EnPhrases.changingHead[0] == 'C' && EnPhrases.noChange[0] == 'N';
    }
  }

  /** With openings that differ in their first character, the none-sentence follows `s` exactly when no line changes. */
  lemma NoChangeSentenceWith(p: Phrases, s: string, ben: Hexagram, bian: Option<Hexagram>, ps: seq<nat>)
    requires ValidPositions(ben.yaoCi, ps)
    requires |p.changingHead| > 0 && |p.noChange| > 0 && p.changingHead[0] != p.noChange[0]
    ensures StartsWith(Changes(p, s, ben, bian, ps), s + p.noChange) <==> ps == []
  {
    if ps != [] {
      var c := Changes(p, s, ben, bian, ps);
      var head := p.changingHead + Join(Numerals(ps), p.changingSep) + p.changingTail;
      var listed := s + head + p.lineTexts;
      var texts := AppendLineTexts(listed, ben.yaoCi, ps) + "\n";
      AppendLineTextsExtends(listed, ben.yaoCi, ps);
      assert c[..|texts|] == texts;
      assert texts[..|listed|] == listed;
      assert c[|s|] == listed[|s|] == head[0] == p.changingHead[0];
      assert (s + p.noChange)[|s|] == p.noChange[0];
    }
  }

  /** In either language the reading says "no changing lines" exactly when none changes. */
  lemma NoChangeSentence(locale: string, s: string, ben: Hexagram, bian: Option<Hexagram>, ps: seq<nat>)
    requires ValidPositions(ben.yaoCi, ps)
    ensures var p := PhrasesFor(locale);
      StartsWith(Changes(p, s, ben, bian, ps), s + p.noChange) <==> ps == []
  {
    DistinctOpenings(locale);
    NoChangeSentenceWith(PhrasesFor(locale), s, ben, bian, ps);
  }

  // ---------------------------------------------------------------- a whole reading

  datatype LiuYaoResult = LiuYaoResult(yaos: seq<Yao>, benGua: Hexagram, bianGua: Option<Hexagram>,
                                        changingYaos: seq<nat>, interpretation: string)

  /** The first loop of `generateLiuYao`: one line per three tosses, pushed bottom up. */
  method CastLines(tosses: seq<(Unit, Unit, Unit)>) returns (yaos: seq<Yao>)
    ensures |yaos| == |tosses| && forall k :: 0 <= k < |tosses| ==> yaos[k] == GenerateYao(tosses[k])
  {
    yaos := [];
    for i := 0 to |tosses|
      invariant |yaos| == i && forall k :: 0 <= k < i ==> yaos[k] == GenerateYao(tosses[k])
    {
      yaos := yaos + [GenerateYao(tosses[i])];
    }
  }

  /** `hexagrams[getHexagramId(yaos) - 1]`. */
  method LookUp(yaos: seq<Yao>) returns (h: Hexagram)
    requires |yaos| == 6
    ensures LineNumber(yaos) < HexagramCount && h == HexagramAt(LineNumber(yaos))
  {
    var id := HexagramId(yaos);
    HexagramIdRange(yaos);
    h := HexagramAt(id - 1);
  }

  /** `generateLiuYao(locale)`, given the three tosses of each of the six lines, bottom up. */
  method GenerateLiuYao(tosses: seq<(Unit, Unit, Unit)>, locale: string) returns (r: LiuYaoResult)
    requires |tosses| == 6
    ensures |r.yaos| == |tosses| && forall k :: 0 <= k < |tosses| ==> r.yaos[k] == GenerateYao(tosses[k])
    ensures LineNumber(r.yaos) < HexagramCount && r.benGua == HexagramAt(LineNumber(r.yaos))
    ensures r.changingYaos == ChangingPositions(r.yaos)
    ensures LineNumber(BianGua(r.yaos)) < HexagramCount
    ensures r.bianGua == if r.changingYaos == [] then None else Some(HexagramAt(LineNumber(BianGua(r.yaos))))
    ensures ValidPositions(r.benGua.yaoCi, r.changingYaos)
    ensures r.interpretation == Interpretation(r.benGua, r.bianGua, r.changingYaos, locale)
  {
    var yaos := CastLines(tosses);
    var benGua := LookUp(yaos);
    var changingYaos := CollectChanging(yaos);
    HexagramIdRange(BianGua(yaos));
    var bianGua: Option<Hexagram> := None;
    if |changingYaos| > 0 {
      var bianYaos := BianGua(yaos);
      var changed := LookUp(bianYaos);
      bianGua := Some(changed);
    }
    var interpretation := GenerateInterpretation(benGua, bianGua, changingYaos, locale);
    r := LiuYaoResult(yaos, benGua, bianGua, changingYaos, interpretation);
  }

  /**
   * Of a reading's six lines: both hexagrams lie in the table, there is a transformed
   * hexagram iff some line changes, and then its id differs from the primary one's.
   */
  lemma ReadingFacts(ys: seq<Yao>)
    requires |ys| == 6
    ensures 1 <= HexagramAt(LineNumber(ys)).id <= 64
    ensures ChangingPositions(ys) == [] <==> NoChanging(ys)
    ensures !NoChanging(ys) ==> HexagramAt(LineNumber(BianGua(ys))).id != HexagramAt(LineNumber(ys)).id
  {
    HexagramIdRange(ys);
    HexagramIdRange(BianGua(ys));
    ChangingPositionsFacts(ys);
    if !NoChanging(ys) {
      BianGuaDiffers(ys);
    }
  }
}
