/**
 * The tarot deck of lib/tarot-cards-complete.ts: 22 major arcana with ids 0..21, then
 * 56 minor arcana built suit by suit (ten number cards, then four court cards) with ids
 * counted up from 22; lookup by id, a draw without replacement, the meaning that the
 * orientation selects, and the position labels of the three spreads.
 *
 * `Math.random()` is an input: the sequence of values in [0, 1) that the draw consumes.
 */
module Tarot {
  import opened Wrappers
  import opened Text
  import opened Seeded

  /** A card of the deck, without its orientation; `suit` and `number` are optional. */
  datatype Card = Card(id: int, nameZh: string, nameEn: string, suit: Option<string>,
                       number: Option<int>, meaning: string, reversedMeaning: string)

  /** A card as drawn or looked up: a deck card and whether it lies reversed. */
  datatype TarotCard = TarotCard(card: Card, reversed: bool)

  const MajorCount: nat := 22
  const SuitCount: nat := 4
  /** Ten number cards and four court cards per suit. */
  const SuitSize: nat := 14
  const MinorCount: nat := 56
  const DeckSize: nat := 78

  // ---------------------------------------------------------------- major arcana

  /** The major arcana's Chinese names, by id. */
  function MajorNameZh(i: nat): string {
    match i
    case 0 => "愚者"
    case 1 => "魔术师"
    case 2 => "女祭司"
    case 3 => "皇后"
    case 4 => "皇帝"
    case 5 => "教皇"
    case 6 => "恋人"
    case 7 => "战车"
    case 8 => "力量"
    case 9 => "隐者"
    case 10 => "命运之轮"
    case 11 => "正义"
    case 12 => "倒吊人"
    case 13 => "死神"
    case 14 => "节制"
    case 15 => "恶魔"
    case 16 => "塔"
    case 17 => "星星"
    case 18 => "月亮"
    case 19 => "太阳"
    case 20 => "审判"
    case _ => "世界"
  }

  /** The major arcana's English names, by id. */
  function MajorNameEn(i: nat): string {
    match i
    case 0 => "The Fool"
    case 1 => "The Magician"
    case 2 => "The High Priestess"
    case 3 => "The Empress"
    case 4 => "The Emperor"
    case 5 => "The Hierophant"
    case 6 => "The Lovers"
    case 7 => "The Chariot"
    case 8 => "Strength"
    case 9 => "The Hermit"
    case 10 => "Wheel of Fortune"
    case 11 => "Justice"
    case 12 => "The Hanged Man"
    case 13 => "Death"
    case 14 => "Temperance"
    case 15 => "The Devil"
    case 16 => "The Tower"
    case 17 => "The Star"
    case 18 => "The Moon"
    case 19 => "The Sun"
    case 20 => "Judgement"
    case _ => "The World"
  }

  /** The major arcana's upright meanings, by id. */
  function MajorMeaning(i: nat): string {
    match i
    case 0 => "新的开始、冒险精神、纯真"
    case 1 => "创造力、行动力、自信"
    case 2 => "直觉、神秘、内在智慧"
    case 3 => "丰盛、母性、创造力"
    case 4 => "权威、稳定、领导力"
    case 5 => "传统、指导、精神追求"
    case 6 => "爱情、选择、和谐"
    case 7 => "胜利、控制、决心"
    case 8 => "内在力量、耐心、勇气"
    case 9 => "内省、寻求真理、指导"
    case 10 => "变化、循环、命运"
    case 11 => "平衡、公正、责任"
    case 12 => "牺牲、等待、新视角"
    case 13 => "结束、转变、重生"
    case 14 => "平衡、调和、耐心"
    case 15 => "束缚、欲望、物质主义"
    case 16 => "破坏、启示、突然变化"
    case 17 => "希望、灵感、精神指引"
    case 18 => "恐惧、幻觉、潜意识"
    case 19 => "快乐、成功、活力"
    case 20 => "重生、觉醒、宽恕"
    case _ => "完成、成就、圆满"
  }

  /** The major arcana's reversed meanings, by id. */
  function MajorReversedMeaning(i: nat): string {
    match i
    case 0 => "鲁莽、缺乏计划、不成熟"
    case 1 => "缺乏行动、欺骗、滥用权力"
    case 2 => "缺乏直觉、秘密、压抑"
    case 3 => "依赖、缺乏成长、过度保护"
    case 4 => "专制、缺乏纪律、滥用权力"
    case 5 => "反传统、缺乏指导、个人信仰"
    case 6 => "不和谐、错误选择、缺乏沟通"
    case 7 => "缺乏控制、失败、缺乏方向"
    case 8 => "软弱、缺乏耐心、自我怀疑"
    case 9 => "孤立、缺乏指导、迷失方向"
    case 10 => "坏运气、缺乏控制、抗拒变化"
    case 11 => "不公正、缺乏责任、不平衡"
    case 12 => "拖延、不必要的牺牲、抗拒"
    case 13 => "抗拒变化、停滞、无法前进"
    case 14 => "不平衡、缺乏调和、急躁"
    case 15 => "解脱、克服束缚、精神自由"
    case 16 => "避免灾难、内在变化、抗拒变化"
    case 17 => "缺乏希望、绝望、失去信心"
    case 18 => "克服恐惧、清晰、内在平静"
    case 19 => "过度自信、缺乏活力、暂时困难"
    case 20 => "缺乏自我反省、无法前进、自我怀疑"
    case _ => "未完成、缺乏成就感、延迟"
  }

  /** The major arcana card with id `i`. */
  function MajorCard(i: nat): (c: Card)
    requires i < MajorCount
    ensures c.id == i && c.suit == None && c.number == None
  {
    Card(i, MajorNameZh(i), MajorNameEn(i), None, None, MajorMeaning(i), MajorReversedMeaning(i))
  }

  /** The `majorArcana` array: the card with id `i` at index `i`. */
  function MajorArcana(): (r: seq<Card>)
    ensures |r| == MajorCount && forall i :: 0 <= i < MajorCount ==> r[i] == MajorCard(i)
  {
    seq(MajorCount, i requires 0 <= i < MajorCount => MajorCard(i))
  }

  // ---------------------------------------------------------------- minor arcana

  /** The `suits` array: Chinese and English suit names. */
  function SuitZh(s: nat): string {
    match s
    case 0 => "权杖"
    case 1 => "圣杯"
    case 2 => "宝剑"
    case _ => "星币"
  }

  function SuitEn(s: nat): string {
    match s
    case 0 => "Wands"
    case 1 => "Cups"
    case 2 => "Swords"
    case _ => "Pentacles"
  }

  /** `numberMeanings[num].zh`. */
  function NumberMeaning(num: nat): string {
    match num
    case 1 => "开始、新机会"
    case 2 => "平衡、合作"
    case 3 => "创造力、表达"
    case 4 => "稳定、基础"
    case 5 => "冲突、变化"
    case 6 => "和谐、平衡"
    case 7 => "挑战、测试"
    case 8 => "行动、进展"
    case 9 => "接近完成"
    case _ => "完成、圆满"
  }

  /** `numberMeanings[num].reversedZh`. */
  function NumberReversedMeaning(num: nat): string {
    match num
    case 1 => "虚假开始、错失机会"
    case 2 => "不平衡、缺乏合作"
    case 3 => "缺乏创造力、沟通困难"
    case 4 => "不稳定、缺乏基础"
    case 5 => "解决冲突、接受变化"
    case 6 => "不和谐、不平衡"
    case 7 => "克服挑战、通过测试"
    case 8 => "缺乏行动、停滞"
    case 9 => "延迟、未完成"
    case _ => "未完成、缺乏满足"
  }

  /** The `courtCards` array: page, knight, queen, king. */
  function CourtZh(c: nat): string {
    match c
    case 0 => "侍从"
    case 1 => "骑士"
    case 2 => "皇后"
    case _ => "国王"
  }

  function CourtEn(c: nat): string {
    match c
    case 0 => "Page"
    case 1 => "Knight"
    case 2 => "Queen"
    case _ => "King"
  }

  function CourtMeaning(c: nat): string {
    match c
    case 0 => "学习、新开始"
    case 1 => "行动、冒险"
    case 2 => "成熟、滋养"
    case _ => "权威、领导"
  }

  function CourtReversedMeaning(c: nat): string {
    match c
    case 0 => "缺乏经验、不成熟"
    case 1 => "冲动、缺乏方向"
    case 2 => "过度保护、缺乏边界"
    case _ => "专制、缺乏同情心"
  }

  /** The number card `num` of suit `s`, as pushed with id `id`. */
  function NumberCard(s: nat, num: nat, id: int): Card {
    Card(id, SuitZh(s) + NatToString(num), SuitEn(s) + " " + NatToString(num), Some(SuitZh(s)),
         Some(num), NumberMeaning(num), NumberReversedMeaning(num))
  }

  /** The court card `c` of suit `s`, as pushed with id `id`: it has no number. */
  function CourtCard(s: nat, c: nat, id: int): Card {
    Card(id, SuitZh(s) + CourtZh(c), SuitEn(s) + " " + CourtEn(c), Some(SuitZh(s)),
         None, CourtMeaning(c), CourtReversedMeaning(c))
  }

  /**
   * The minor card at index `k` of the generated list, read off its position: suit
   * `k / 14`, then within the suit ten number cards and four court cards; id `22 + k`.
   * (Only `k < 56` is a card of the deck.)
   */
  function MinorCard(k: nat): Card {
    var s, r := k / SuitSize, k % SuitSize;
    if r < 10 then NumberCard(s, r + 1, MajorCount + k) else CourtCard(s, r - 10, MajorCount + k)
  }

  lemma DivModSuit(s: nat, r: nat)
    requires r < SuitSize
    ensures (SuitSize * s + r) / SuitSize == s && (SuitSize * s + r) % SuitSize == r
  {
  }

  /** `[f(0), ..., f(n - 1)]`. */
  function Tabulate<T>(f: nat -> T, n: nat): (r: seq<T>)
    ensures |r| == n
  {
    if n == 0 then [] else Tabulate(f, n - 1) + [f(n - 1)]
  }

  lemma {:induction false} TabulateIndex<T>(f: nat -> T, n: nat, k: nat)
    requires k < n
    ensures Tabulate(f, n)[k] == f(k)
  {
    if k < n - 1 {
      TabulateIndex(f, n - 1, k);
    }
  }

  lemma TabulateSnoc<T>(f: nat -> T, cards: seq<T>, n: nat, x: T)
    requires cards == Tabulate(f, n) && x == f(n)
    ensures cards + [x] == Tabulate(f, n + 1)
  {
  }

  /** The card pushed at index `k` as number card `num` of suit `s` is the minor card there. */
  lemma NumberCardAt(k: nat, s: nat, num: nat, id: int)
    requires 1 <= num <= 10 && k == SuitSize * s + num - 1 && id == MajorCount + k
    ensures MinorCard(k) == NumberCard(s, num, id)
  {
    DivModSuit(s, num - 1);
  }

  /** The card pushed at index `k` as court card `c` of suit `s` is the minor card there. */
  lemma CourtCardAt(k: nat, s: nat, c: nat, id: int)
    requires c < 4 && k == SuitSize * s + 10 + c && id == MajorCount + k
    ensures MinorCard(k) == CourtCard(s, c, id)
  {
    DivModSuit(s, 10 + c);
  }

  /**
   * `generateMinorArcana()`: for each suit, the number cards 1..10 and then the court
   * cards, each pushed with the next id of a counter that starts at 22.
   */
  method GenerateMinorArcana() returns (cards: seq<Card>)
    ensures |cards| == MinorCount && forall k :: 0 <= k < MinorCount ==> cards[k] == MinorCard(k)
  {
    cards := [];
    var id := MajorCount;
    for s := 0 to SuitCount
      invariant |cards| == SuitSize * s && id == MajorCount + |cards| && cards == Tabulate(MinorCard, |cards|)
    {
      cards, id := PushSuit(cards, s, id);
    }
    forall k | 0 <= k < MinorCount
      ensures cards[k] == MinorCard(k)
    {
      TabulateIndex(MinorCard, MinorCount, k);
    }
  }

  /** One turn of `suits.forEach`: the suit's ten number cards, then its four court cards. */
  method PushSuit(cards: seq<Card>, s: nat, id: int) returns (next: seq<Card>, nextId: int)
    requires s < SuitCount && |cards| == SuitSize * s && id == MajorCount + |cards|
    requires cards == Tabulate(MinorCard, |cards|)
    ensures |next| == SuitSize * (s + 1) && nextId == MajorCount + |next| && next == Tabulate(MinorCard, |next|)
  {
    next, nextId := PushNumbers(cards, s, id);
    next, nextId := PushCourts(next, s, nextId);
  }

  /** The number cards 1..10 of suit `s`. */
  method PushNumbers(cards: seq<Card>, s: nat, id: int) returns (next: seq<Card>, nextId: int)
    requires s < SuitCount && |cards| == SuitSize * s && id == MajorCount + |cards|
    requires cards == Tabulate(MinorCard, |cards|)
    ensures |next| == SuitSize * s + 10 && nextId == MajorCount + |next| && next == Tabulate(MinorCard, |next|)
  {
    next, nextId := cards, id;
    for num := 1 to 11
      invariant |next| == SuitSize * s + num - 1 && nextId == MajorCount + |next| && next == Tabulate(MinorCard, |next|)
    {
      ghost var n := |next|;
      var card := NumberCard(s, num, nextId);
      NumberCardAt(n, s, num, nextId);
      TabulateSnoc(MinorCard, next, n, card);
      next := next + [card];
      nextId := nextId + 1;
      assert |next| == n + 1;
      assert next == Tabulate(MinorCard, n + 1);
    }
  }

  /** The court cards of suit `s`: page, knight, queen and king. */
  method PushCourts(cards: seq<Card>, s: nat, id: int) returns (next: seq<Card>, nextId: int)
    requires s < SuitCount && |cards| == SuitSize * s + 10 && id == MajorCount + |cards|
    requires cards == Tabulate(MinorCard, |cards|)
    ensures |next| == SuitSize * (s + 1) && nextId == MajorCount + |next| && next == Tabulate(MinorCard, |next|)
  {
    next, nextId := cards, id;
    for c := 0 to 4
      invariant |next| == SuitSize * s + 10 + c && nextId == MajorCount + |next| && next == Tabulate(MinorCard, |next|)
    {
      ghost var n := |next|;
      var card := CourtCard(s, c, nextId);
      CourtCardAt(n, s, c, nextId);
      TabulateSnoc(MinorCard, next, n, card);
      next := next + [card];
      nextId := nextId + 1;
      assert |next| == n + 1;
      assert next == Tabulate(MinorCard, n + 1);
    }
  }

  /**
   * What the generated minor arcana are: ids 22..77 in order; per suit ten number cards
   * numbered 1..10 whose Chinese name is the suit followed by the number, then four
   * court cards without a number.
   */
  lemma MinorArcanaFacts(k: nat)
    requires k < MinorCount
    ensures MinorCard(k).id == MajorCount + k
    ensures MinorCard(k).suit == Some(SuitZh(k / SuitSize))
    ensures MinorCard(k).number.Some? <==> k % SuitSize < 10
    ensures MinorCard(k).number.Some? ==>
      MinorCard(k).number.value == k % SuitSize + 1 &&
      MinorCard(k).nameZh == SuitZh(k / SuitSize) + NatToString(k % SuitSize + 1)
  {
  }

  // ---------------------------------------------------------------- the whole deck

  /** The deck card with id `i`: a major card below 22, a minor card above. */
  function DeckCard(i: nat): (c: Card)
    requires i < DeckSize
    ensures c.id == i
  {
    if i < MajorCount then MajorCard(i) else MinorCard(i - MajorCount)
  }

  /** `allTarotCards`: the major arcana followed by the generated minor arcana. */
  function AllTarotCards(): (d: seq<Card>)
    ensures |d| == DeckSize && forall i :: 0 <= i < DeckSize ==> d[i] == DeckCard(i) && d[i].id == i
  {
    seq(DeckSize, i requires 0 <= i < DeckSize => DeckCard(i))
  }

  /** `[...majorArcana, ...generateMinorArcana()]`, which is the deck. */
  method BuildDeck() returns (deck: seq<Card>)
    ensures deck == AllTarotCards()
  {
    var minor := GenerateMinorArcana();
    deck := MajorArcana() + minor;
    assert forall i :: 0 <= i < DeckSize ==> deck[i] == AllTarotCards()[i];
  }

  // ---------------------------------------------------------------- lookup

  /** `cards.findIndex(c => c.id === id)`: the first index holding that id. */
  function IndexOfId(cards: seq<Card>, id: int): (r: Option<nat>)
    ensures r.Some? ==>
      r.value < |cards| && cards[r.value].id == id && forall j :: 0 <= j < r.value ==> cards[j].id != id
    ensures r.None? ==> forall j :: 0 <= j < |cards| ==> cards[j].id != id
  {
    if cards == [] then None
    else if cards[0].id == id then Some(0)
    else match IndexOfId(cards[1..], id)
      case None => None
      case Some(j) => Some(j + 1)
  }

  /** `getTarotCardById(id, reversed)`: the card, or the error it throws. */
  function GetTarotCardById(id: int, reversed: bool): Result<TarotCard, string> {
    var deck := AllTarotCards();
    match IndexOfId(deck, id)
    case None => Failure("Tarot card with id " + IntToString(id) + " not found")
    case Some(i) => Success(TarotCard(deck[i], reversed))
  }

  /** The lookup succeeds exactly for the ids 0..77, and then yields that deck card with the flag asked for. */
  lemma GetTarotCardByIdFacts(id: int, reversed: bool)
    ensures GetTarotCardById(id, reversed).Success? <==> 0 <= id < DeckSize
    ensures GetTarotCardById(id, reversed).Success? ==>
      GetTarotCardById(id, reversed).value == TarotCard(DeckCard(id), reversed)
    ensures GetTarotCardById(id, reversed).Failure? ==>
      GetTarotCardById(id, reversed).error == "Tarot card with id " + IntToString(id) + " not found"
  {
    var deck := AllTarotCards();
    if 0 <= id < DeckSize {
      assert deck[id].id == id;
    }
  }

  // ---------------------------------------------------------------- drawing

  /** Prefixes `drawn` to a draw that may have failed. */
  function Prepend(drawn: seq<TarotCard>, rest: Option<seq<TarotCard>>): Option<seq<TarotCard>> {
    match rest
    case None => None
    case Some(cs) => Some(drawn + cs)
  }

  /**
   * Drawing `count` cards from `deck` with the random values `us`, the indices in `used`
   * being taken already: a value whose index `floor(u * |deck|)` is taken is drawn again
   * (the do-while); an untaken index is taken, and the next value decides the orientation
   * (`> 0.5` is reversed). `None`: the values ran out before `count` cards were drawn.
   */
  function DrawFrom(deck: seq<Card>, count: nat, us: seq<Unit>, used: set<int>): Option<seq<TarotCard>>
    requires |deck| > 0
    decreases |us|
  {
    if count == 0 then Some([])
    else if |us| == 0 then None
    else
      var index := Pick(us[0], |deck|);
      if index in used then DrawFrom(deck, count, us[1..], used)
      else if |us| == 1 then None
      else Prepend([TarotCard(deck[index], us[1] > 0.5)], DrawFrom(deck, count - 1, us[2..], used + {index}))
  }

  lemma PrependEnds(drawn: seq<TarotCard>, rest: Option<seq<TarotCard>>)
    ensures Prepend([], rest) == rest
    ensures Prepend(drawn, Some([])) == Some(drawn)
  {
    if rest.Some? {
      assert [] + rest.value == rest.value;
    }
    assert drawn + [] == drawn;
  }

  lemma PrependAppend(drawn: seq<TarotCard>, card: TarotCard, rest: Option<seq<TarotCard>>)
    ensures Prepend(drawn, Prepend([card], rest)) == Prepend(drawn + [card], rest)
  {
    if rest.Some? {
      assert drawn + ([card] + rest.value) == (drawn + [card]) + rest.value;
    }
  }

  /**
   * `drawTarotCards(count)`, with the random values it consumes as `us`. `None` means
   * that `us` ran out: always so for a count above 78; otherwise the cards drawn are
   * `count` distinct deck cards.
   */
  method DrawTarotCards(count: int, us: seq<Unit>) returns (r: Option<seq<TarotCard>>)
    ensures r == DrawFrom(AllTarotCards(), if count > 0 then count else 0, us, {})
    ensures count > DeckSize ==> r == None
    ensures r.Some? ==>
      |r.value| == (if count > 0 then count else 0) &&
      (forall k :: 0 <= k < |r.value| ==>
        0 <= r.value[k].card.id < DeckSize && r.value[k].card == AllTarotCards()[r.value[k].card.id]) &&
      (forall j, k :: 0 <= j < k < |r.value| ==> r.value[j].card.id != r.value[k].card.id)
  {
    var n: nat := if count > 0 then count else 0;
    var deck := AllTarotCards();
    DrawFacts(deck, n, us, {});
    if n > DeckSize {
      DrawTooMany(deck, n, us, {});
    }
    r := Draw(deck, n, us);
  }

  /** The loop of `drawTarotCards` over a deck. */
  method Draw(deck: seq<Card>, n: nat, us: seq<Unit>) returns (r: Option<seq<TarotCard>>)
    requires |deck| > 0
    ensures r == DrawFrom(deck, n, us, {})
  {
    var drawn: seq<TarotCard> := [];
    var used: set<int> := {};
    var pos := 0;
    var i := 0;
    assert us[pos..] == us;
    PrependEnds(drawn, DrawFrom(deck, n, us, {}));
    while i < n
      invariant 0 <= i <= n && pos <= |us|
      invariant DrawFrom(deck, n, us, {}) == Prepend(drawn, DrawFrom(deck, n - i, us[pos..], used))
      decreases n - i
    {
      if pos == |us| {
        return None;
      }
      var cardIndex;
      cardIndex, pos := DrawIndex(deck, n - i, us, pos, used);
      if pos == |us| {
        return None;
      }
      assert us[pos - 1..][2..] == us[pos + 1..];
      PrependAppend(drawn, TarotCard(deck[cardIndex], us[pos] > 0.5),
                    DrawFrom(deck, n - i - 1, us[pos + 1..], used + {cardIndex}));
      used := used + {cardIndex};
      var card := TarotCard(deck[cardIndex], us[pos] > 0.5);
      pos := pos + 1;
      drawn := drawn + [card];
      i := i + 1;
    }
    PrependEnds(drawn, None);
    r := Some(drawn);
  }

  /**
   * The do-while of `drawTarotCards`: draws indices until one is untaken. Stops at the
   * end of `us` when every remaining value gives a taken index.
   */
  method DrawIndex(deck: seq<Card>, count: nat, us: seq<Unit>, pos: nat, used: set<int>)
      returns (cardIndex: nat, next: nat)
    requires |deck| > 0 && count > 0 && pos < |us|
    ensures pos < next <= |us| && cardIndex < |deck|
    ensures next < |us| ==> cardIndex !in used && cardIndex == Pick(us[next - 1], |deck|)
    ensures DrawFrom(deck, count, us[pos..], used) == DrawFrom(deck, count, us[next - 1..], used)
    ensures next == |us| ==> DrawFrom(deck, count, us[pos..], used) == None
  {
    cardIndex := Pick(us[pos], |deck|);
    next := pos + 1;
    while cardIndex in used && next < |us|
      invariant pos < next <= |us| && cardIndex == Pick(us[next - 1], |deck|)
      invariant DrawFrom(deck, count, us[pos..], used) == DrawFrom(deck, count, us[next - 1..], used)
      decreases |us| - next
    {
      assert us[next - 1..][1..] == us[next..];
      cardIndex := Pick(us[next], |deck|);
      next := next + 1;
    }
  }

  /** A set of indices below `n` has at most `n` elements. */
  lemma {:induction false} IndicesBound(used: set<int>, n: nat)
    requires forall x :: x in used ==> 0 <= x < n
    ensures |used| <= n
  {
    if n > 0 {
      IndicesBound(used - {n - 1}, n - 1);
    } else {
      assert forall x :: x !in used;
      assert used == {};
    }
  }

  /**
   * On a deck whose ids are its indices, a completed draw has `count` cards, each the
   * deck card of its id, with ids pairwise distinct and none among the indices taken.
   */
  lemma {:induction false} DrawFacts(deck: seq<Card>, count: nat, us: seq<Unit>, used: set<int>)
    requires |deck| > 0 && forall i :: 0 <= i < |deck| ==> deck[i].id == i
    ensures DrawFrom(deck, count, us, used).Some? ==>
      var cs := DrawFrom(deck, count, us, used).value;
      |cs| == count &&
      (forall k :: 0 <= k < |cs| ==>
        0 <= cs[k].card.id < |deck| && cs[k].card == deck[cs[k].card.id] && cs[k].card.id !in used) &&
      (forall j, k :: 0 <= j < k < |cs| ==> cs[j].card.id != cs[k].card.id)
    decreases |us|
  {
    if count > 0 && |us| > 0 {
      var index := Pick(us[0], |deck|);
      if index in used {
        DrawFacts(deck, count, us[1..], used);
      } else if |us| > 1 {
        DrawFacts(deck, count - 1, us[2..], used + {index});
        var rest := DrawFrom(deck, count - 1, us[2..], used + {index});
        if rest.Some? {
          var cs := DrawFrom(deck, count, us, used).value;
          assert cs == [TarotCard(deck[index], us[1] > 0.5)] + rest.value;
          forall j, k | 0 <= j < k < |cs|
            ensures cs[j].card.id != cs[k].card.id
          {
            if j == 0 {
              assert cs[k] == rest.value[k - 1];
            } else {
              assert cs[j] == rest.value[j - 1] && cs[k] == rest.value[k - 1];
            }
          }
        }
      }
    }
  }

  /**
   * A draw of more cards than remain untaken never completes: with a count over 78,
   * `drawTarotCards` loops forever whatever the random values are.
   */
  lemma {:induction false} DrawTooMany(deck: seq<Card>, count: nat, us: seq<Unit>, used: set<int>)
    requires |deck| > 0 && forall x :: x in used ==> 0 <= x < |deck|
    requires |used| + count > |deck|
    ensures DrawFrom(deck, count, us, used) == None
    decreases |us|
  {
    IndicesBound(used, |deck|);
    if |us| > 0 {
      var index := Pick(us[0], |deck|);
      if index in used {
        DrawTooMany(deck, count, us[1..], used);
      } else if |us| > 1 {
        DrawTooMany(deck, count - 1, us[2..], used + {index});
      }
    }
  }

  // ---------------------------------------------------------------- meaning and spreads

  /**
   * `getCardMeaning(card, locale)`: the reversed meaning exactly when the card lies
   * reversed; both locale branches return the same text.
   */
  function GetCardMeaning(card: TarotCard, locale: string): (m: string)
    ensures card.reversed ==> m == card.card.reversedMeaning
    ensures !card.reversed ==> m == card.card.meaning
  {
    if locale == "en" then
      (if card.reversed then card.card.reversedMeaning else card.card.meaning)
    else
      (if card.reversed then card.card.reversedMeaning else card.card.meaning)
  }

  /** The meaning does not depend on the locale. */
  lemma MeaningIgnoresLocale(card: TarotCard, a: string, b: string)
    ensures GetCardMeaning(card, a) == GetCardMeaning(card, b)
  {
  }

  datatype Spread = Single | Three | Five

  /** A position label in both languages. */
  datatype Label = Label(zh: string, en: string)

  /** `spreadPositions[spread]`, its keys 0..n-1 read as sequence indices. */
  function SpreadPositions(spread: Spread): (r: seq<Label>)
    ensures spread == Single ==> |r| == 1
    ensures spread == Three ==> |r| == 3
    ensures spread == Five ==> |r| == 5
  {
    match spread
    case Single => [Label("牌意", "Meaning")]
    case Three => [Label("过去", "Past"), Label("现在", "Present"), Label("未来", "Future")]
    case Five => [Label("现状", "Situation"), Label("挑战", "Challenge"), Label("过去", "Past"),
                  Label("未来", "Future"), Label("建议", "Advice")]
  }
}
