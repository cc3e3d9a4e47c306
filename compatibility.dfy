/**
 * Sign-pair compatibility of lib/compatibility.ts: the 12 x 12 score matrix, the lookup
 * with its default of 50, and the five description bands.
 */
module Compatibility {
  import opened Wrappers
  import HoroscopeSigns

  /**
   * `compatibilityMatrix[a][b]` for the signs at positions `i` and `j` of `zodiacSigns`
   * (rows and columns in the order aries, taurus, ..., pisces).
   */
  function Entry(i: nat, j: nat): int
    requires i < HoroscopeSigns.SignCount && j < HoroscopeSigns.SignCount
  {
    match i
    case 0 => (match j case 0 => 70 case 1 => 60 case 2 => 80 case 3 => 50 case 4 => 90 case 5 => 55 case 6 => 75 case 7 => 65 case 8 => 85 case 9 => 50 case 10 => 80 case _ => 55)
    case 1 => (match j case 0 => 60 case 1 => 75 case 2 => 55 case 3 => 80 case 4 => 65 case 5 => 85 case 6 => 70 case 7 => 75 case 8 => 55 case 9 => 90 case 10 => 60 case _ => 80)
    case 2 => (match j case 0 => 80 case 1 => 55 case 2 => 75 case 3 => 60 case 4 => 70 case 5 => 65 case 6 => 85 case 7 => 60 case 8 => 80 case 9 => 55 case 10 => 90 case _ => 60)
    case 3 => (match j case 0 => 50 case 1 => 80 case 2 => 60 case 3 => 80 case 4 => 55 case 5 => 75 case 6 => 65 case 7 => 85 case 8 => 50 case 9 => 70 case 10 => 55 case _ => 90)
    case 4 => (match j case 0 => 90 case 1 => 65 case 2 => 70 case 3 => 55 case 4 => 85 case 5 => 60 case 6 => 80 case 7 => 70 case 8 => 85 case 9 => 60 case 10 => 75 case _ => 60)
    case 5 => (match j case 0 => 55 case 1 => 85 case 2 => 65 case 3 => 75 case 4 => 60 case 5 => 80 case 6 => 70 case 7 => 80 case 8 => 60 case 9 => 85 case 10 => 65 case _ => 75)
    case 6 => (match j case 0 => 75 case 1 => 70 case 2 => 85 case 3 => 65 case 4 => 80 case 5 => 70 case 6 => 80 case 7 => 70 case 8 => 75 case 9 => 65 case 10 => 85 case _ => 70)
    case 7 => (match j case 0 => 65 case 1 => 75 case 2 => 60 case 3 => 85 case 4 => 70 case 5 => 80 case 6 => 70 case 7 => 85 case 8 => 65 case 9 => 75 case 10 => 60 case _ => 90)
    case 8 => (match j case 0 => 85 case 1 => 55 case 2 => 80 case 3 => 50 case 4 => 85 case 5 => 60 case 6 => 75 case 7 => 65 case 8 => 80 case 9 => 55 case 10 => 85 case _ => 60)
    case 9 => (match j case 0 => 50 case 1 => 90 case 2 => 55 case 3 => 70 case 4 => 60 case 5 => 85 case 6 => 65 case 7 => 75 case 8 => 55 case 9 => 85 case 10 => 60 case _ => 75)
    case 10 => (match j case 0 => 80 case 1 => 60 case 2 => 90 case 3 => 55 case 4 => 75 case 5 => 65 case 6 => 85 case 7 => 60 case 8 => 85 case 9 => 60 case 10 => 80 case _ => 65)
    case _ => (match j case 0 => 55 case 1 => 80 case 2 => 60 case 3 => 90 case 4 => 60 case 5 => 75 case 6 => 70 case 7 => 90 case 8 => 60 case 9 => 75 case 10 => 65 case _ => 85)
  }

  /** The matrix key a sign id names: its position in `zodiacSigns`, if it is one of the twelve. */
  function SignIndex(id: string): (r: Option<nat>)
    ensures r.Some? ==> r.value < HoroscopeSigns.SignCount && HoroscopeSigns.SignAt(r.value).id == id
    ensures r.None? ==> forall i :: 0 <= i < HoroscopeSigns.SignCount ==> HoroscopeSigns.SignAt(i).id != id
  {
    HoroscopeSigns.IndexOfId(HoroscopeSigns.ZodiacSigns(), id, 0)
  }

  /** `getCompatibilityScore(sign1, sign2)`: `compatibilityMatrix[sign1]?.[sign2] || 50`. */
  function GetCompatibilityScore(sign1: string, sign2: string): int {
    match (SignIndex(sign1), SignIndex(sign2))
    case (Some(i), Some(j)) => if Entry(i, j) != 0 then Entry(i, j) else 50
    case _ => 50
  }

  /** Every entry of the matrix lies between 50 and 90. */
  lemma EntriesInRange(i: nat, j: nat)
    requires i < HoroscopeSigns.SignCount && j < HoroscopeSigns.SignCount
    ensures 50 <= Entry(i, j) <= 90
  {
  }

  /** The matrix as written is symmetric. */
  lemma EntriesSymmetric(i: nat, j: nat)
    requires i < HoroscopeSigns.SignCount && j < HoroscopeSigns.SignCount
    ensures Entry(i, j) == Entry(j, i)
  {
  }

  /**
   * A pair of known signs scores its matrix entry (the `|| 50` never fires, no entry being
   * 0); a pair with an unknown sign scores 50.
   */
  lemma ScoreFacts(sign1: string, sign2: string)
    ensures forall i, j ::
              0 <= i < HoroscopeSigns.SignCount && 0 <= j < HoroscopeSigns.SignCount
              && HoroscopeSigns.SignAt(i).id == sign1 && HoroscopeSigns.SignAt(j).id == sign2
              ==> GetCompatibilityScore(sign1, sign2) == Entry(i, j)
    ensures SignIndex(sign1).None? || SignIndex(sign2).None? ==> GetCompatibilityScore(sign1, sign2) == 50
    ensures 50 <= GetCompatibilityScore(sign1, sign2) <= 90
  {
    forall i, j |
      0 <= i < HoroscopeSigns.SignCount && 0 <= j < HoroscopeSigns.SignCount
      && HoroscopeSigns.SignAt(i).id == sign1 && HoroscopeSigns.SignAt(j).id == sign2
      ensures GetCompatibilityScore(sign1, sign2) == Entry(i, j)
    {
      IndexIsUnique(sign1, i);
      IndexIsUnique(sign2, j);
      EntriesInRange(i, j);
    }
    if SignIndex(sign1).Some? && SignIndex(sign2).Some? {
      EntriesInRange(SignIndex(sign1).value, SignIndex(sign2).value);
    }
  }

  /** The index a known id resolves to is its own position. */
  lemma IndexIsUnique(id: string, i: nat)
    requires i < HoroscopeSigns.SignCount && HoroscopeSigns.SignAt(i).id == id
    ensures SignIndex(id) == Some(i)
  {
    var r := SignIndex(id);
    if r.value != i {
      HoroscopeSigns.IdsDistinct(r.value, i);
    }
  }

  /** Swapping the two signs never changes the score, whatever strings they are. */
  lemma ScoreSymmetric(sign1: string, sign2: string)
    ensures GetCompatibilityScore(sign1, sign2) == GetCompatibilityScore(sign2, sign1)
  {
    if SignIndex(sign1).Some? && SignIndex(sign2).Some? {
      EntriesSymmetric(SignIndex(sign1).value, SignIndex(sign2).value);
    }
  }

  /** The band of a score, from 0 (below 55) up to 4 (85 and above). */
  function Band(score: int): (b: nat)
    ensures b <= 4
    ensures b == 4 <==> score >= 85
    ensures b == 3 <==> 75 <= score < 85
    ensures b == 2 <==> 65 <= score < 75
    ensures b == 1 <==> 55 <= score < 65
    ensures b == 0 <==> score < 55
  {
    if score >= 85 then 4 else if score >= 75 then 3 else if score >= 65 then 2
    else if score >= 55 then 1 else 0
  }

  /** A higher score never falls in a lower band. */
  lemma BandMonotone(a: int, b: int)
    requires a <= b
    ensures Band(a) <= Band(b)
  {
  }

  function ZhText(band: nat): string {
    match band
    case 4 => "非常匹配！你们是天作之合，相互理解，关系和谐。"
    case 3 => "很匹配！你们有很多共同点，相处愉快。"
    case 2 => "比较匹配。虽然有些差异，但可以通过沟通解决。"
    case 1 => "一般匹配。需要更多努力来维持关系。"
    case _ => "不太匹配。可能需要更多耐心和理解。"
  }

  function EnText(band: nat): string {
    match band
    case 4 => "Excellent match! You are a perfect pair with mutual understanding and harmony."
    case 3 => "Great match! You have many things in common and get along well."
    case 2 => "Good match. Although there are some differences, they can be resolved through communication."
    case 1 => "Average match. More effort is needed to maintain the relationship."
    case _ => "Low match. More patience and understanding may be needed."
  }

  /** `getCompatibilityDescription(score, locale)`. */
  function GetCompatibilityDescription(score: int, locale: string): string {
    if locale == "zh" then
      if score >= 85 then ZhText(4) else if score >= 75 then ZhText(3) else if score >= 65 then ZhText(2)
      else if score >= 55 then ZhText(1) else ZhText(0)
    else
      if score >= 85 then EnText(4) else if score >= 75 then EnText(3) else if score >= 65 then EnText(2)
      else if score >= 55 then EnText(1) else EnText(0)
  }

  /** The description is the text of the score's band, in Chinese iff the locale is `zh`. */
  lemma DescriptionIsBandText(score: int, locale: string)
    ensures locale == "zh" ==> GetCompatibilityDescription(score, locale) == ZhText(Band(score))
    ensures locale != "zh" ==> GetCompatibilityDescription(score, locale) == EnText(Band(score))
  {
  }
}
