/**
 * The card image table of lib/tarot-image-map.ts: one file name per card id 0..77, and
 * the image path of an id, with the Fool's image for an id the table does not hold.
 */
module TarotImages {
  import opened Wrappers
  import opened Text
  import opened Tarot

  /** `tarotImageMap[id]`: the image file name of card `id`, if the table holds one. */
  function ImageFile(id: int): Option<string> {
    match id
    case 0 => Some("00-愚者.webp")
    case 1 => Some("01-魔术师.webp")
    case 2 => Some("02-女祭司.webp")
    case 3 => Some("03-皇后.webp")
    case 4 => Some("04-皇帝.webp")
    case 5 => Some("05-教皇.webp")
    case 6 => Some("06-恋人.webp")
    case 7 => Some("07-战车.webp")
    case 8 => Some("08-力量.webp")
    case 9 => Some("09-隐者.webp")
    case 10 => Some("10-命运之轮.webp")
    case 11 => Some("11-正义.webp")
    case 12 => Some("12-倒吊人.webp")
    case 13 => Some("13-死神.webp")
    case 14 => Some("14-节制.webp")
    case 15 => Some("15-恶魔.webp")
    case 16 => Some("16-塔.webp")
    case 17 => Some("17-星星.webp")
    case 18 => Some("18-月亮.webp")
    case 19 => Some("19-太阳.webp")
    case 20 => Some("20-审判.webp")
    case 21 => Some("21-世界.webp")
    case 22 => Some("22-权杖1.webp")
    case 23 => Some("23-权杖2.webp")
    case 24 => Some("24-权杖3.webp")
    case 25 => Some("25-权杖4.webp")
    case 26 => Some("26-权杖5.webp")
    case 27 => Some("27-权杖6.webp")
    case 28 => Some("28-权杖7.webp")
    case 29 => Some("29-权杖8.webp")
    case 30 => Some("30-权杖9.webp")
    case 31 => Some("31-权杖10.webp")
    case 32 => Some("32-权杖侍从.webp")
    case 33 => Some("33-权杖骑士.webp")
    case 34 => Some("34-权杖皇后.webp")
    case 35 => Some("35-权杖国王.webp")
    case 36 => Some("36-圣杯1.webp")
    case 37 => Some("37-圣杯2.webp")
    case 38 => Some("38-圣杯3.webp")
    case 39 => Some("39-圣杯4.webp")
    case 40 => Some("40-圣杯5.webp")
    case 41 => Some("41-圣杯6.webp")
    case 42 => Some("42-圣杯7.webp")
    case 43 => Some("43-圣杯8.webp")
    case 44 => Some("44-圣杯9.webp")
    case 45 => Some("45-圣杯10.webp")
    case 46 => Some("46-圣杯侍从.webp")
    case 47 => Some("47-圣杯骑士.webp")
    case 48 => Some("48-圣杯皇后.webp")
    case 49 => Some("49-圣杯国王.webp")
    case 50 => Some("50-宝剑1.webp")
    case 51 => Some("51-宝剑2.webp")
    case 52 => Some("52-宝剑3.webp")
    case 53 => Some("53-宝剑4.webp")
    case 54 => Some("54-宝剑5.webp")
    case 55 => Some("55-宝剑6.webp")
    case 56 => Some("56-宝剑7.webp")
    case 57 => Some("57-宝剑8.webp")
    case 58 => Some("58-宝剑9.webp")
    case 59 => Some("59-宝剑10.webp")
    case 60 => Some("60-宝剑侍从.webp")
    case 61 => Some("61-宝剑骑士.webp")
    case 62 => Some("62-宝剑皇后.webp")
    case 63 => Some("63-宝剑国王.webp")
    case 64 => Some("64-星币1.webp")
    case 65 => Some("65-星币2.webp")
    case 66 => Some("66-星币3.webp")
    case 67 => Some("67-星币4.webp")
    case 68 => Some("68-星币5.webp")
    case 69 => Some("69-星币6.webp")
    case 70 => Some("70-星币7.webp")
    case 71 => Some("71-星币8.webp")
    case 72 => Some("72-星币9.webp")
    case 73 => Some("73-星币10.webp")
    case 74 => Some("74-星币侍从.webp")
    case 75 => Some("75-星币骑士.webp")
    case 76 => Some("76-星币皇后.webp")
    case 77 => Some("77-星币国王.webp")
    case _ => None
  }

  const ImageDir: string := "/images/tarot/"
  const FallbackImage: string := "/images/tarot/00-愚者.webp"

  /** `getTarotImagePath(cardId)`. */
  function GetTarotImagePath(cardId: int): (path: string)
    ensures ImageFile(cardId).Some? ==> path == ImageDir + ImageFile(cardId).value
    ensures ImageFile(cardId).None? ==> path == FallbackImage
  {
    match ImageFile(cardId)
    case None => FallbackImage
    case Some(filename) => ImageDir + filename
  }

  /** The table holds exactly the ids 0..77. */
  lemma ImageKeys(id: int)
    ensures ImageFile(id).Some? <==> 0 <= id < DeckSize
  {
  }

  /** The Fool's image is what an unmapped id falls back to. */
  lemma FallbackIsFool()
    ensures ImageFile(0) == Some("00-愚者.webp") && FallbackImage == ImageDir + ImageFile(0).value
  {
  }

  /** The zero-padded two-digit rendering of an id below 100 that opens every file name. */
  function TwoDigits(n: nat): (s: string)
    requires n < 100
    ensures |s| == 2 && '0' <= s[0] <= '9' && '0' <= s[1] <= '9'
    ensures DecimalValue(s) == n
  {
    var s := [Digit(n / 10), Digit(n % 10)];
    assert s[..1] == [Digit(n / 10)] && s[..1][..0] == [];
    assert "0123456789"[n / 10] as int - '0' as int == n / 10;
    assert "0123456789"[n % 10] as int - '0' as int == n % 10;
    assert DecimalValue(s[..1]) == n / 10;
    s
  }

  /** The Chinese rank of minor card `r` of a suit: 1..10, then the four court titles. */
  function RankZh(r: nat): string
    requires r < SuitSize
  {
    if r < 10 then NatToString(r + 1) else CourtZh(r - 10)
  }

  /** The Chinese name `DeckCard(id)` carries, read off the deck's layout without building the card. */
  function LaidOutNameZh(id: nat): string
    requires id < DeckSize
  {
    if id < MajorCount then MajorNameZh(id)
    else SuitZh((id - MajorCount) / SuitSize) + RankZh((id - MajorCount) % SuitSize)
  }

  lemma LaidOutNameIsDeckName(id: nat)
    requires id < DeckSize
    ensures DeckCard(id).nameZh == LaidOutNameZh(id)
  {
  }

  /** The file name of a major card assembled from its parts. */
  lemma MajorImageNameParts(id: nat, prefix: string, name: string, file: string)
    requires id < MajorCount
    requires ImageFile(id) == Some(file) && TwoDigits(id) == prefix && MajorNameZh(id) == name
    requires prefix + "-" + name + ".webp" == file
    ensures ImageFile(id) == Some(TwoDigits(id) + "-" + LaidOutNameZh(id) + ".webp")
  {
  }

  /** The file name of rank `r` of suit `s` assembled from its parts. */
  lemma MinorImageNameParts(id: nat, s: nat, r: nat, prefix: string, name: string, file: string)
    requires s < 4 && r < SuitSize && id == MajorCount + SuitSize * s + r
    requires ImageFile(id) == Some(file) && TwoDigits(id) == prefix && SuitZh(s) + RankZh(r) == name
    requires prefix + "-" + name + ".webp" == file
    ensures ImageFile(id) == Some(TwoDigits(id) + "-" + LaidOutNameZh(id) + ".webp")
  {
    assert (id - MajorCount) / SuitSize == s && (id - MajorCount) % SuitSize == r;
  }

  // One lemma per entry of the table: the file of card `id` is named after that card.

  lemma ImageName0()
    ensures ImageFile(0) == Some(TwoDigits(0) + "-" + LaidOutNameZh(0) + ".webp")
  {
    MajorImageNameParts(0, "00", "愚者", "00-愚者.webp");
  }

  lemma ImageName1()
    ensures ImageFile(1) == Some(TwoDigits(1) + "-" + LaidOutNameZh(1) + ".webp")
  {
    MajorImageNameParts(1, "01", "魔术师", "01-魔术师.webp");
  }

  lemma ImageName2()
    ensures ImageFile(2) == Some(TwoDigits(2) + "-" + LaidOutNameZh(2) + ".webp")
  {
    MajorImageNameParts(2, "02", "女祭司", "02-女祭司.webp");
  }

  lemma ImageName3()
    ensures ImageFile(3) == Some(TwoDigits(3) + "-" + LaidOutNameZh(3) + ".webp")
  {
    MajorImageNameParts(3, "03", "皇后", "03-皇后.webp");
  }

  lemma ImageName4()
    ensures ImageFile(4) == Some(TwoDigits(4) + "-" + LaidOutNameZh(4) + ".webp")
  {
    MajorImageNameParts(4, "04", "皇帝", "04-皇帝.webp");
  }

  lemma ImageName5()
    ensures ImageFile(5) == Some(TwoDigits(5) + "-" + LaidOutNameZh(5) + ".webp")
  {
    MajorImageNameParts(5, "05", "教皇", "05-教皇.webp");
  }

  lemma ImageName6()
    ensures ImageFile(6) == Some(TwoDigits(6) + "-" + LaidOutNameZh(6) + ".webp")
  {
    MajorImageNameParts(6, "06", "恋人", "06-恋人.webp");
  }

  lemma ImageName7()
    ensures ImageFile(7) == Some(TwoDigits(7) + "-" + LaidOutNameZh(7) + ".webp")
  {
    MajorImageNameParts(7, "07", "战车", "07-战车.webp");
  }

  lemma ImageName8()
    ensures ImageFile(8) == Some(TwoDigits(8) + "-" + LaidOutNameZh(8) + ".webp")
  {
    MajorImageNameParts(8, "08", "力量", "08-力量.webp");
  }

  lemma ImageName9()
    ensures ImageFile(9) == Some(TwoDigits(9) + "-" + LaidOutNameZh(9) + ".webp")
  {
    MajorImageNameParts(9, "09", "隐者", "09-隐者.webp");
  }

  lemma ImageName10()
    ensures ImageFile(10) == Some(TwoDigits(10) + "-" + LaidOutNameZh(10) + ".webp")
  {
    MajorImageNameParts(10, "10", "命运之轮", "10-命运之轮.webp");
  }

  lemma ImageName11()
    ensures ImageFile(11) == Some(TwoDigits(11) + "-" + LaidOutNameZh(11) + ".webp")
  {
    MajorImageNameParts(11, "11", "正义", "11-正义.webp");
  }

  lemma ImageName12()
    ensures ImageFile(12) == Some(TwoDigits(12) + "-" + LaidOutNameZh(12) + ".webp")
  {
    MajorImageNameParts(12, "12", "倒吊人", "12-倒吊人.webp");
  }

  lemma ImageName13()
    ensures ImageFile(13) == Some(TwoDigits(13) + "-" + LaidOutNameZh(13) + ".webp")
  {
    MajorImageNameParts(13, "13", "死神", "13-死神.webp");
  }

  lemma ImageName14()
    ensures ImageFile(14) == Some(TwoDigits(14) + "-" + LaidOutNameZh(14) + ".webp")
  {
    MajorImageNameParts(14, "14", "节制", "14-节制.webp");
  }

  lemma ImageName15()
    ensures ImageFile(15) == Some(TwoDigits(15) + "-" + LaidOutNameZh(15) + ".webp")
  {
    MajorImageNameParts(15, "15", "恶魔", "15-恶魔.webp");
  }

  lemma ImageName16()
    ensures ImageFile(16) == Some(TwoDigits(16) + "-" + LaidOutNameZh(16) + ".webp")
  {
    MajorImageNameParts(16, "16", "塔", "16-塔.webp");
  }

  lemma ImageName17()
    ensures ImageFile(17) == Some(TwoDigits(17) + "-" + LaidOutNameZh(17) + ".webp")
  {
    MajorImageNameParts(17, "17", "星星", "17-星星.webp");
  }

  lemma ImageName18()
    ensures ImageFile(18) == Some(TwoDigits(18) + "-" + LaidOutNameZh(18) + ".webp")
  {
    MajorImageNameParts(18, "18", "月亮", "18-月亮.webp");
  }

  lemma ImageName19()
    ensures ImageFile(19) == Some(TwoDigits(19) + "-" + LaidOutNameZh(19) + ".webp")
  {
    MajorImageNameParts(19, "19", "太阳", "19-太阳.webp");
  }

  lemma ImageName20()
    ensures ImageFile(20) == Some(TwoDigits(20) + "-" + LaidOutNameZh(20) + ".webp")
  {
    MajorImageNameParts(20, "20", "审判", "20-审判.webp");
  }

  lemma ImageName21()
    ensures ImageFile(21) == Some(TwoDigits(21) + "-" + LaidOutNameZh(21) + ".webp")
  {
    MajorImageNameParts(21, "21", "世界", "21-世界.webp");
  }

  lemma ImageName22()
    ensures ImageFile(22) == Some(TwoDigits(22) + "-" + LaidOutNameZh(22) + ".webp")
  {
    MinorImageNameParts(22, 0, 0, "22", "权杖1", "22-权杖1.webp");
  }

  lemma ImageName23()
    ensures ImageFile(23) == Some(TwoDigits(23) + "-" + LaidOutNameZh(23) + ".webp")
  {
    MinorImageNameParts(23, 0, 1, "23", "权杖2", "23-权杖2.webp");
  }

  lemma ImageName24()
    ensures ImageFile(24) == Some(TwoDigits(24) + "-" + LaidOutNameZh(24) + ".webp")
  {
    MinorImageNameParts(24, 0, 2, "24", "权杖3", "24-权杖3.webp");
  }

  lemma ImageName25()
    ensures ImageFile(25) == Some(TwoDigits(25) + "-" + LaidOutNameZh(25) + ".webp")
  {
    MinorImageNameParts(25, 0, 3, "25", "权杖4", "25-权杖4.webp");
  }

  lemma ImageName26()
    ensures ImageFile(26) == Some(TwoDigits(26) + "-" + LaidOutNameZh(26) + ".webp")
  {
    MinorImageNameParts(26, 0, 4, "26", "权杖5", "26-权杖5.webp");
  }

  lemma ImageName27()
    ensures ImageFile(27) == Some(TwoDigits(27) + "-" + LaidOutNameZh(27) + ".webp")
  {
    MinorImageNameParts(27, 0, 5, "27", "权杖6", "27-权杖6.webp");
  }

  lemma ImageName28()
    ensures ImageFile(28) == Some(TwoDigits(28) + "-" + LaidOutNameZh(28) + ".webp")
  {
    MinorImageNameParts(28, 0, 6, "28", "权杖7", "28-权杖7.webp");
  }

  lemma ImageName29()
    ensures ImageFile(29) == Some(TwoDigits(29) + "-" + LaidOutNameZh(29) + ".webp")
  {
    MinorImageNameParts(29, 0, 7, "29", "权杖8", "29-权杖8.webp");
  }

  lemma ImageName30()
    ensures ImageFile(30) == Some(TwoDigits(30) + "-" + LaidOutNameZh(30) + ".webp")
  {
    MinorImageNameParts(30, 0, 8, "30", "权杖9", "30-权杖9.webp");
  }

  lemma ImageName31()
    ensures ImageFile(31) == Some(TwoDigits(31) + "-" + LaidOutNameZh(31) + ".webp")
  {
    MinorImageNameParts(31, 0, 9, "31", "权杖10", "31-权杖10.webp");
  }

  lemma ImageName32()
    ensures ImageFile(32) == Some(TwoDigits(32) + "-" + LaidOutNameZh(32) + ".webp")
  {
    MinorImageNameParts(32, 0, 10, "32", "权杖侍从", "32-权杖侍从.webp");
  }

  lemma ImageName33()
    ensures ImageFile(33) == Some(TwoDigits(33) + "-" + LaidOutNameZh(33) + ".webp")
  {
    MinorImageNameParts(33, 0, 11, "33", "权杖骑士", "33-权杖骑士.webp");
  }

  lemma ImageName34()
    ensures ImageFile(34) == Some(TwoDigits(34) + "-" + LaidOutNameZh(34) + ".webp")
  {
    MinorImageNameParts(34, 0, 12, "34", "权杖皇后", "34-权杖皇后.webp");
  }

  lemma ImageName35()
    ensures ImageFile(35) == Some(TwoDigits(35) + "-" + LaidOutNameZh(35) + ".webp")
  {
    MinorImageNameParts(35, 0, 13, "35", "权杖国王", "35-权杖国王.webp");
  }

  lemma ImageName36()
    ensures ImageFile(36) == Some(TwoDigits(36) + "-" + LaidOutNameZh(36) + ".webp")
  {
    MinorImageNameParts(36, 1, 0, "36", "圣杯1", "36-圣杯1.webp");
  }

  lemma ImageName37()
    ensures ImageFile(37) == Some(TwoDigits(37) + "-" + LaidOutNameZh(37) + ".webp")
  {
    MinorImageNameParts(37, 1, 1, "37", "圣杯2", "37-圣杯2.webp");
  }

  lemma ImageName38()
    ensures ImageFile(38) == Some(TwoDigits(38) + "-" + LaidOutNameZh(38) + ".webp")
  {
    MinorImageNameParts(38, 1, 2, "38", "圣杯3", "38-圣杯3.webp");
  }

  lemma ImageName39()
    ensures ImageFile(39) == Some(TwoDigits(39) + "-" + LaidOutNameZh(39) + ".webp")
  {
    MinorImageNameParts(39, 1, 3, "39", "圣杯4", "39-圣杯4.webp");
  }

  lemma ImageName40()
    ensures ImageFile(40) == Some(TwoDigits(40) + "-" + LaidOutNameZh(40) + ".webp")
  {
    MinorImageNameParts(40, 1, 4, "40", "圣杯5", "40-圣杯5.webp");
  }

  lemma ImageName41()
    ensures ImageFile(41) == Some(TwoDigits(41) + "-" + LaidOutNameZh(41) + ".webp")
  {
    MinorImageNameParts(41, 1, 5, "41", "圣杯6", "41-圣杯6.webp");
  }

  lemma ImageName42()
    ensures ImageFile(42) == Some(TwoDigits(42) + "-" + LaidOutNameZh(42) + ".webp")
  {
    MinorImageNameParts(42, 1, 6, "42", "圣杯7", "42-圣杯7.webp");
  }

  lemma ImageName43()
    ensures ImageFile(43) == Some(TwoDigits(43) + "-" + LaidOutNameZh(43) + ".webp")
  {
    MinorImageNameParts(43, 1, 7, "43", "圣杯8", "43-圣杯8.webp");
  }

  lemma ImageName44()
    ensures ImageFile(44) == Some(TwoDigits(44) + "-" + LaidOutNameZh(44) + ".webp")
  {
    MinorImageNameParts(44, 1, 8, "44", "圣杯9", "44-圣杯9.webp");
  }

  lemma ImageName45()
    ensures ImageFile(45) == Some(TwoDigits(45) + "-" + LaidOutNameZh(45) + ".webp")
  {
    MinorImageNameParts(45, 1, 9, "45", "圣杯10", "45-圣杯10.webp");
  }

  lemma ImageName46()
    ensures ImageFile(46) == Some(TwoDigits(46) + "-" + LaidOutNameZh(46) + ".webp")
  {
    MinorImageNameParts(46, 1, 10, "46", "圣杯侍从", "46-圣杯侍从.webp");
  }

  lemma ImageName47()
    ensures ImageFile(47) == Some(TwoDigits(47) + "-" + LaidOutNameZh(47) + ".webp")
  {
    MinorImageNameParts(47, 1, 11, "47", "圣杯骑士", "47-圣杯骑士.webp");
  }

  lemma ImageName48()
    ensures ImageFile(48) == Some(TwoDigits(48) + "-" + LaidOutNameZh(48) + ".webp")
  {
    MinorImageNameParts(48, 1, 12, "48", "圣杯皇后", "48-圣杯皇后.webp");
  }

  lemma ImageName49()
    ensures ImageFile(49) == Some(TwoDigits(49) + "-" + LaidOutNameZh(49) + ".webp")
  {
    MinorImageNameParts(49, 1, 13, "49", "圣杯国王", "49-圣杯国王.webp");
  }

  lemma ImageName50()
    ensures ImageFile(50) == Some(TwoDigits(50) + "-" + LaidOutNameZh(50) + ".webp")
  {
    MinorImageNameParts(50, 2, 0, "50", "宝剑1", "50-宝剑1.webp");
  }

  lemma ImageName51()
    ensures ImageFile(51) == Some(TwoDigits(51) + "-" + LaidOutNameZh(51) + ".webp")
  {
    MinorImageNameParts(51, 2, 1, "51", "宝剑2", "51-宝剑2.webp");
  }

  lemma ImageName52()
    ensures ImageFile(52) == Some(TwoDigits(52) + "-" + LaidOutNameZh(52) + ".webp")
  {
    MinorImageNameParts(52, 2, 2, "52", "宝剑3", "52-宝剑3.webp");
  }

  lemma ImageName53()
    ensures ImageFile(53) == Some(TwoDigits(53) + "-" + LaidOutNameZh(53) + ".webp")
  {
    MinorImageNameParts(53, 2, 3, "53", "宝剑4", "53-宝剑4.webp");
  }

  lemma ImageName54()
    ensures ImageFile(54) == Some(TwoDigits(54) + "-" + LaidOutNameZh(54) + ".webp")
  {
    MinorImageNameParts(54, 2, 4, "54", "宝剑5", "54-宝剑5.webp");
  }

  lemma ImageName55()
    ensures ImageFile(55) == Some(TwoDigits(55) + "-" + LaidOutNameZh(55) + ".webp")
  {
    MinorImageNameParts(55, 2, 5, "55", "宝剑6", "55-宝剑6.webp");
  }

  lemma ImageName56()
    ensures ImageFile(56) == Some(TwoDigits(56) + "-" + LaidOutNameZh(56) + ".webp")
  {
    MinorImageNameParts(56, 2, 6, "56", "宝剑7", "56-宝剑7.webp");
  }

  lemma ImageName57()
    ensures ImageFile(57) == Some(TwoDigits(57) + "-" + LaidOutNameZh(57) + ".webp")
  {
    MinorImageNameParts(57, 2, 7, "57", "宝剑8", "57-宝剑8.webp");
  }

  lemma ImageName58()
    ensures ImageFile(58) == Some(TwoDigits(58) + "-" + LaidOutNameZh(58) + ".webp")
  {
    MinorImageNameParts(58, 2, 8, "58", "宝剑9", "58-宝剑9.webp");
  }

  lemma ImageName59()
    ensures ImageFile(59) == Some(TwoDigits(59) + "-" + LaidOutNameZh(59) + ".webp")
  {
    MinorImageNameParts(59, 2, 9, "59", "宝剑10", "59-宝剑10.webp");
  }

  lemma ImageName60()
    ensures ImageFile(60) == Some(TwoDigits(60) + "-" + LaidOutNameZh(60) + ".webp")
  {
    MinorImageNameParts(60, 2, 10, "60", "宝剑侍从", "60-宝剑侍从.webp");
  }

  lemma ImageName61()
    ensures ImageFile(61) == Some(TwoDigits(61) + "-" + LaidOutNameZh(61) + ".webp")
  {
    MinorImageNameParts(61, 2, 11, "61", "宝剑骑士", "61-宝剑骑士.webp");
  }

  lemma ImageName62()
    ensures ImageFile(62) == Some(TwoDigits(62) + "-" + LaidOutNameZh(62) + ".webp")
  {
    MinorImageNameParts(62, 2, 12, "62", "宝剑皇后", "62-宝剑皇后.webp");
  }

  lemma ImageName63()
    ensures ImageFile(63) == Some(TwoDigits(63) + "-" + LaidOutNameZh(63) + ".webp")
  {
    MinorImageNameParts(63, 2, 13, "63", "宝剑国王", "63-宝剑国王.webp");
  }

  lemma ImageName64()
    ensures ImageFile(64) == Some(TwoDigits(64) + "-" + LaidOutNameZh(64) + ".webp")
  {
    MinorImageNameParts(64, 3, 0, "64", "星币1", "64-星币1.webp");
  }

  lemma ImageName65()
    ensures ImageFile(65) == Some(TwoDigits(65) + "-" + LaidOutNameZh(65) + ".webp")
  {
    MinorImageNameParts(65, 3, 1, "65", "星币2", "65-星币2.webp");
  }

  lemma ImageName66()
    ensures ImageFile(66) == Some(TwoDigits(66) + "-" + LaidOutNameZh(66) + ".webp")
  {
    MinorImageNameParts(66, 3, 2, "66", "星币3", "66-星币3.webp");
  }

  lemma ImageName67()
    ensures ImageFile(67) == Some(TwoDigits(67) + "-" + LaidOutNameZh(67) + ".webp")
  {
    MinorImageNameParts(67, 3, 3, "67", "星币4", "67-星币4.webp");
  }

  lemma ImageName68()
    ensures ImageFile(68) == Some(TwoDigits(68) + "-" + LaidOutNameZh(68) + ".webp")
  {
    MinorImageNameParts(68, 3, 4, "68", "星币5", "68-星币5.webp");
  }

  lemma ImageName69()
    ensures ImageFile(69) == Some(TwoDigits(69) + "-" + LaidOutNameZh(69) + ".webp")
  {
    MinorImageNameParts(69, 3, 5, "69", "星币6", "69-星币6.webp");
  }

  lemma ImageName70()
    ensures ImageFile(70) == Some(TwoDigits(70) + "-" + LaidOutNameZh(70) + ".webp")
  {
    MinorImageNameParts(70, 3, 6, "70", "星币7", "70-星币7.webp");
  }

  lemma ImageName71()
    ensures ImageFile(71) == Some(TwoDigits(71) + "-" + LaidOutNameZh(71) + ".webp")
  {
    MinorImageNameParts(71, 3, 7, "71", "星币8", "71-星币8.webp");
  }

  lemma ImageName72()
    ensures ImageFile(72) == Some(TwoDigits(72) + "-" + LaidOutNameZh(72) + ".webp")
  {
    MinorImageNameParts(72, 3, 8, "72", "星币9", "72-星币9.webp");
  }

  lemma ImageName73()
    ensures ImageFile(73) == Some(TwoDigits(73) + "-" + LaidOutNameZh(73) + ".webp")
  {
    MinorImageNameParts(73, 3, 9, "73", "星币10", "73-星币10.webp");
  }

  lemma ImageName74()
    ensures ImageFile(74) == Some(TwoDigits(74) + "-" + LaidOutNameZh(74) + ".webp")
  {
    MinorImageNameParts(74, 3, 10, "74", "星币侍从", "74-星币侍从.webp");
  }

  lemma ImageName75()
    ensures ImageFile(75) == Some(TwoDigits(75) + "-" + LaidOutNameZh(75) + ".webp")
  {
    MinorImageNameParts(75, 3, 11, "75", "星币骑士", "75-星币骑士.webp");
  }

  lemma ImageName76()
    ensures ImageFile(76) == Some(TwoDigits(76) + "-" + LaidOutNameZh(76) + ".webp")
  {
    MinorImageNameParts(76, 3, 12, "76", "星币皇后", "76-星币皇后.webp");
  }

  lemma ImageName77()
    ensures ImageFile(77) == Some(TwoDigits(77) + "-" + LaidOutNameZh(77) + ".webp")
  {
    MinorImageNameParts(77, 3, 13, "77", "星币国王", "77-星币国王.webp");
  }

  /** The file name of card `id` is its two-digit id, a dash, the deck's Chinese card name and `.webp`. */
  lemma {:induction false} ImageNamesFollowDeck(id: int)
    requires 0 <= id < DeckSize
    ensures ImageFile(id) == Some(TwoDigits(id) + "-" + DeckCard(id).nameZh + ".webp")
  {
    LaidOutNameIsDeckName(id);
    match id
    case 0 => ImageName0();
    case 1 => ImageName1();
    case 2 => ImageName2();
    case 3 => ImageName3();
    case 4 => ImageName4();
    case 5 => ImageName5();
    case 6 => ImageName6();
    case 7 => ImageName7();
    case 8 => ImageName8();
    case 9 => ImageName9();
    case 10 => ImageName10();
    case 11 => ImageName11();
    case 12 => ImageName12();
    case 13 => ImageName13();
    case 14 => ImageName14();
    case 15 => ImageName15();
    case 16 => ImageName16();
    case 17 => ImageName17();
    case 18 => ImageName18();
    case 19 => ImageName19();
    case 20 => ImageName20();
    case 21 => ImageName21();
    case 22 => ImageName22();
    case 23 => ImageName23();
    case 24 => ImageName24();
    case 25 => ImageName25();
    case 26 => ImageName26();
    case 27 => ImageName27();
    case 28 => ImageName28();
    case 29 => ImageName29();
    case 30 => ImageName30();
    case 31 => ImageName31();
    case 32 => ImageName32();
    case 33 => ImageName33();
    case 34 => ImageName34();
    case 35 => ImageName35();
    case 36 => ImageName36();
    case 37 => ImageName37();
    case 38 => ImageName38();
    case 39 => ImageName39();
    case 40 => ImageName40();
    case 41 => ImageName41();
    case 42 => ImageName42();
    case 43 => ImageName43();
    case 44 => ImageName44();
    case 45 => ImageName45();
    case 46 => ImageName46();
    case 47 => ImageName47();
    case 48 => ImageName48();
    case 49 => ImageName49();
    case 50 => ImageName50();
    case 51 => ImageName51();
    case 52 => ImageName52();
    case 53 => ImageName53();
    case 54 => ImageName54();
    case 55 => ImageName55();
    case 56 => ImageName56();
    case 57 => ImageName57();
    case 58 => ImageName58();
    case 59 => ImageName59();
    case 60 => ImageName60();
    case 61 => ImageName61();
    case 62 => ImageName62();
    case 63 => ImageName63();
    case 64 => ImageName64();
    case 65 => ImageName65();
    case 66 => ImageName66();
    case 67 => ImageName67();
    case 68 => ImageName68();
    case 69 => ImageName69();
    case 70 => ImageName70();
    case 71 => ImageName71();
    case 72 => ImageName72();
    case 73 => ImageName73();
    case 74 => ImageName74();
    case 75 => ImageName75();
    case 76 => ImageName76();
    case 77 => ImageName77();
  }

  /** Exactly the card ids 0..77 have an image of their own, named after that card; any other id gets the Fool's. */
  lemma ImagePathFacts(id: int)
    ensures 0 <= id < DeckSize ==> GetTarotImagePath(id) == ImageDir + TwoDigits(id) + "-" + DeckCard(id).nameZh + ".webp"
    ensures !(0 <= id < DeckSize) ==> GetTarotImagePath(id) == FallbackImage
  {
    ImageKeys(id);
    if 0 <= id < DeckSize {
      ImageNamesFollowDeck(id);
    }
  }
}
