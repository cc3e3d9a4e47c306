/**
 * The twelve zodiac signs of lib/horoscope-data.ts: the sign table, lookup by id, and
 * the classification of a calendar date (as the code `month * 100 + day`) into a sign.
 */
module HoroscopeSigns {
  import opened Wrappers
  import opened Text

  datatype Sign = Sign(id: string, nameZh: string, nameEn: string, dateRange: string,
                       element: string, emoji: string)

  const SignCount: nat := 12
  /** The position of Capricorn, the one sign whose range wraps past the end of the year. */
  const Capricorn: nat := 9

  /** Row `i` of `zodiacSigns`. */
  function SignAt(i: nat): Sign
    requires i < SignCount
  {
    match i
    case 0 => Sign("aries", "白羊座", "Aries", "3/21-4/19", "fire", "♈")
    case 1 => Sign("taurus", "金牛座", "Taurus", "4/20-5/20", "earth", "♉")
    case 2 => Sign("gemini", "双子座", "Gemini", "5/21-6/21", "air", "♊")
    case 3 => Sign("cancer", "巨蟹座", "Cancer", "6/22-7/22", "water", "♋")
    case 4 => Sign("leo", "狮子座", "Leo", "7/23-8/22", "fire", "♌")
    case 5 => Sign("virgo", "处女座", "Virgo", "8/23-9/22", "earth", "♍")
    case 6 => Sign("libra", "天秤座", "Libra", "9/23-10/23", "air", "♎")
    case 7 => Sign("scorpio", "天蝎座", "Scorpio", "10/24-11/22", "water", "♏")
    case 8 => Sign("sagittarius", "射手座", "Sagittarius", "11/23-12/21", "fire", "♐")
    case 9 => Sign("capricorn", "摩羯座", "Capricorn", "12/22-1/19", "earth", "♑")
    case 10 => Sign("aquarius", "水瓶座", "Aquarius", "1/20-2/18", "air", "♒")
    case 11 => Sign("pisces", "双鱼座", "Pisces", "2/19-3/20", "water", "♓")
  }

  /** `zodiacSigns`. */
  function ZodiacSigns(): (r: seq<Sign>)
    ensures |r| == SignCount
    ensures forall i :: 0 <= i < SignCount ==> r[i] == SignAt(i)
  {
    seq(SignCount, i requires 0 <= i < SignCount => SignAt(i))
  }

  /** The first position at or after `from` whose sign has the given id. */
  function IndexOfId(signs: seq<Sign>, id: string, from: nat): (r: Option<nat>)
    requires from <= |signs|
    ensures r.Some? ==> from <= r.value < |signs| && signs[r.value].id == id
    ensures r.Some? ==> forall k :: from <= k < r.value ==> signs[k].id != id
    ensures r.None? <==> forall k :: from <= k < |signs| ==> signs[k].id != id
    decreases |signs| - from
  {
    if from == |signs| then None
    else if signs[from].id == id then Some(from)
    else IndexOfId(signs, id, from + 1)
  }

  /** `getZodiacSignById(id)`: `zodiacSigns.find(sign => sign.id === id)`. */
  function GetZodiacSignById(id: string): Option<Sign> {
    var signs := ZodiacSigns();
    match IndexOfId(signs, id, 0)
    case Some(i) => Some(signs[i])
    case None => None
  }

  /** The twelve ids are pairwise distinct. */
  lemma IdsDistinct(i: nat, j: nat)
    requires i < SignCount && j < SignCount && i != j
    ensures SignAt(i).id != SignAt(j).id
  {
  }

  /** A lookup by id yields the one sign carrying that id, or nothing when no sign does. */
  lemma GetZodiacSignByIdFacts(id: string)
    ensures GetZodiacSignById(id).Some? <==> exists i :: 0 <= i < SignCount && SignAt(i).id == id
    ensures forall i :: 0 <= i < SignCount && SignAt(i).id == id ==> GetZodiacSignById(id) == Some(SignAt(i))
  {
    var signs := ZodiacSigns();
    forall i | 0 <= i < SignCount && SignAt(i).id == id
      ensures GetZodiacSignById(id) == Some(SignAt(i))
    {
      assert signs[i].id == id;
      var r := IndexOfId(signs, id, 0);
      if r.value != i {
        IdsDistinct(r.value, i);
      }
    }
  }

  /** The date code formed in `getZodiacSignByDate`. */
  function DateCode(month: int, day: int): int {
    month * 100 + day
  }

  /** `getZodiacSignByDate(month, day)`: the chain of range comparisons, in source order. */
  function GetZodiacSignByDate(month: int, day: int): Option<Sign> {
    var date := DateCode(month, day);
    if date >= 321 && date <= 419 then Some(SignAt(0))
    else if date >= 420 && date <= 520 then Some(SignAt(1))
    else if date >= 521 && date <= 621 then Some(SignAt(2))
    else if date >= 622 && date <= 722 then Some(SignAt(3))
    else if date >= 723 && date <= 822 then Some(SignAt(4))
    else if date >= 823 && date <= 922 then Some(SignAt(5))
    else if date >= 923 && date <= 1023 then Some(SignAt(6))
    else if date >= 1024 && date <= 1122 then Some(SignAt(7))
    else if date >= 1123 && date <= 1221 then Some(SignAt(8))
    else if date >= 1222 || date <= 119 then Some(SignAt(9))
    else if date >= 120 && date <= 218 then Some(SignAt(10))
    else if date >= 219 && date <= 320 then Some(SignAt(11))
    else None
  }

  /** The first date code of sign `i`'s range (for Capricorn, the start in December). */
  function Lower(i: nat): nat
    requires i < SignCount
  {
    match i
    case 0 => 321 case 1 => 420 case 2 => 521 case 3 => 622 case 4 => 723 case 5 => 823
    case 6 => 923 case 7 => 1024 case 8 => 1123 case 9 => 1222 case 10 => 120 case 11 => 219
  }

  /** The last date code of sign `i`'s range (for Capricorn, the end in January). */
  function Upper(i: nat): nat
    requires i < SignCount
  {
    match i
    case 0 => 419 case 1 => 520 case 2 => 621 case 3 => 722 case 4 => 822 case 5 => 922
    case 6 => 1023 case 7 => 1122 case 8 => 1221 case 9 => 119 case 10 => 218 case 11 => 320
  }

  /** Whether date code `code` lies in sign `i`'s range, Capricorn's wrapping round the new year. */
  predicate InRange(i: nat, code: int)
    requires i < SignCount
  {
    if i == Capricorn then code >= Lower(i) || code <= Upper(i)
    else Lower(i) <= code <= Upper(i)
  }

  /**
   * Every integer code lies in exactly one sign's range, and the chain of comparisons returns
   * that sign: the final `return undefined` can never be reached.
   */
  lemma ByDateIsUniqueRange(month: int, day: int)
    ensures exists i :: 0 <= i < SignCount && InRange(i, DateCode(month, day))
    ensures forall i, j ::
              0 <= i < SignCount && 0 <= j < SignCount && InRange(i, DateCode(month, day)) && InRange(j, DateCode(month, day))
              ==> i == j
    ensures forall i :: 0 <= i < SignCount && InRange(i, DateCode(month, day)) ==>
                          GetZodiacSignByDate(month, day) == Some(SignAt(i))
  {
    var c := DateCode(month, day);
    var i: nat :=
      if 321 <= c <= 419 then 0 else if 420 <= c <= 520 then 1 else if 521 <= c <= 621 then 2
      else if 622 <= c <= 722 then 3 else if 723 <= c <= 822 then 4 else if 823 <= c <= 922 then 5
      else if 923 <= c <= 1023 then 6 else if 1024 <= c <= 1122 then 7 else if 1123 <= c <= 1221 then 8
      else if c >= 1222 || c <= 119 then 9 else if 120 <= c <= 218 then 10 else 11;
    assert InRange(i, c);
    forall j | 0 <= j < SignCount && InRange(j, c)
      ensures j == i
    {
    }
  }

  /** Hence a date never fails to classify. */
  lemma ByDateTotal(month: int, day: int)
    ensures GetZodiacSignByDate(month, day).Some?
  {
    ByDateIsUniqueRange(month, day);
  }

  /** The bounds are inclusive at both ends of each range. */
  lemma ByDateBoundaries()
    ensures GetZodiacSignByDate(3, 21) == Some(SignAt(0))
    ensures GetZodiacSignByDate(3, 20) == Some(SignAt(11))
    ensures GetZodiacSignByDate(12, 22) == Some(SignAt(Capricorn))
    ensures GetZodiacSignByDate(1, 19) == Some(SignAt(Capricorn))
    ensures GetZodiacSignByDate(1, 20) == Some(SignAt(10))
    ensures GetZodiacSignByDate(12, 21) == Some(SignAt(8))
  {
  }

  /** The two-digit-or-less rendering the `dateRange` strings use for months and days. */
  function Digits(n: nat): string
    requires n < 100
  {
    if n < 10 then [(48 + n) as char] else [(48 + n / 10) as char, (48 + n % 10) as char]
  }

  /** That rendering is how the number prints in a template literal. */
  lemma DigitsPrint(n: nat)
    requires n < 100
    ensures Digits(n) == NatToString(n)
  {
    DigitCode(n % 10);
    DigitCode(n / 10);
  }

  lemma DigitCode(d: nat)
    requires d < 10
    ensures Digit(d) == (48 + d) as char
  {
  }

  /** A date code `M * 100 + D` written as the `dateRange` strings write an end: `M/D`. */
  function CodeText(code: nat): string
    requires code < 10000
  {
    Digits(code / 100) + "/" + Digits(code % 100)
  }

  /** The `dateRange` text that the bounds of sign `i` call for. */
  function RangeText(i: nat): string
    requires i < SignCount
  {
    CodeText(Lower(i)) + "-" + CodeText(Upper(i))
  }

  /** Each sign's `dateRange` string names exactly the bounds the date chain compares with for it. */
  lemma DateRangesAgree(i: nat)
    requires i < SignCount
    ensures SignAt(i).dateRange == RangeText(i)
  {
    match i
    case 0 => AriesRange();
    case 1 => TaurusRange();
    case 2 => GeminiRange();
    case 3 => CancerRange();
    case 4 => LeoRange();
    case 5 => VirgoRange();
    case 6 => LibraRange();
    case 7 => ScorpioRange();
    case 8 => SagittariusRange();
    case 9 => CapricornRange();
    case 10 => AquariusRange();
    case 11 => PiscesRange();
  }

  lemma AriesRange()
    ensures SignAt(0).dateRange == RangeText(0)
  {
    assert CodeText(321) == "3/21";
    assert CodeText(419) == "4/19";
  }

  lemma TaurusRange()
    ensures SignAt(1).dateRange == RangeText(1)
  {
    assert CodeText(420) == "4/20";
    assert CodeText(520) == "5/20";
  }

  lemma GeminiRange()
    ensures SignAt(2).dateRange == RangeText(2)
  {
    assert CodeText(521) == "5/21";
    assert CodeText(621) == "6/21";
  }

  lemma CancerRange()
    ensures SignAt(3).dateRange == RangeText(3)
  {
    assert CodeText(622) == "6/22";
    assert CodeText(722) == "7/22";
  }

  lemma LeoRange()
    ensures SignAt(4).dateRange == RangeText(4)
  {
    assert CodeText(723) == "7/23";
    assert CodeText(822) == "8/22";
  }

  lemma VirgoRange()
    ensures SignAt(5).dateRange == RangeText(5)
  {
    assert CodeText(823) == "8/23";
    assert CodeText(922) == "9/22";
  }

  lemma LibraRange()
    ensures SignAt(6).dateRange == RangeText(6)
  {
    assert CodeText(923) == "9/23";
    assert CodeText(1023) == "10/23";
  }

  lemma ScorpioRange()
    ensures SignAt(7).dateRange == RangeText(7)
  {
    assert CodeText(1024) == "10/24";
    assert CodeText(1122) == "11/22";
  }

  lemma SagittariusRange()
    ensures SignAt(8).dateRange == RangeText(8)
  {
    assert CodeText(1123) == "11/23";
    assert CodeText(1221) == "12/21";
  }

  lemma CapricornRange()
    ensures SignAt(9).dateRange == RangeText(9)
  {
    assert CodeText(1222) == "12/22";
    assert CodeText(119) == "1/19";
  }

  lemma AquariusRange()
    ensures SignAt(10).dateRange == RangeText(10)
  {
    assert CodeText(120) == "1/20";
    assert CodeText(218) == "2/18";
  }

  lemma PiscesRange()
    ensures SignAt(11).dateRange == RangeText(11)
  {
    assert CodeText(219) == "2/19";
    assert CodeText(320) == "3/20";
  }
}
