/**
 * The table of the sixty-four hexagrams in lib/liuyao-calculator.ts. Entry `i` is the
 * hexagram the code looks up for the binary line number `i`; its id is `i + 1` and it
 * carries six line texts, from the bottom line up. The table is kept column by column
 * (names, judgement, line texts, image) and assembled into records by `HexagramAt`.
 */
module Hexagrams {

  datatype Hexagram = Hexagram(id: int, nameZh: string, nameEn: string, guaCi: string,
                               yaoCi: seq<string>, meaning: string)

  const HexagramCount: nat := 64

  /** `hexagrams[i]`. */
  function HexagramAt(i: nat): (h: Hexagram)
    requires i < HexagramCount
    ensures h.id == i + 1 && |h.yaoCi| == 6
  {
    Hexagram(i + 1, NameZh(i), NameEn(i), GuaCi(i), YaoCi(i), Meaning(i))
  }

  /** The six line texts of entry `i`, bottom line first. */
  function YaoCi(i: nat): (r: seq<string>)
    requires i < HexagramCount
    ensures |r| == 6
  {
    var t := Lines(i);
    [t.0, t.1, t.2, t.3, t.4, t.5]
  }

  /** The Chinese name of entry `i`. */
  function NameZh(i: nat): string
    requires i < HexagramCount
  {
    match i
    case 0 => "乾"
    case 1 => "坤"
    case 2 => "屯"
    case 3 => "蒙"
    case 4 => "需"
    case 5 => "讼"
    case 6 => "师"
    case 7 => "比"
    case 8 => "小畜"
    case 9 => "履"
    case 10 => "泰"
    case 11 => "否"
    case 12 => "同人"
    case 13 => "大有"
    case 14 => "谦"
    case 15 => "豫"
    case 16 => "随"
    case 17 => "蛊"
    case 18 => "临"
    case 19 => "观"
    case 20 => "噬嗑"
    case 21 => "贲"
    case 22 => "剥"
    case 23 => "复"
    case 24 => "无妄"
    case 25 => "大畜"
    case 26 => "颐"
    case 27 => "大过"
    case 28 => "坎"
    case 29 => "离"
    case 30 => "咸"
    case 31 => "恒"
    case 32 => "遁"
    case 33 => "大壮"
    case 34 => "晋"
    case 35 => "明夷"
    case 36 => "家人"
    case 37 => "睽"
    case 38 => "蹇"
    case 39 => "解"
    case 40 => "损"
    case 41 => "益"
    case 42 => "夬"
    case 43 => "姤"
    case 44 => "萃"
    case 45 => "升"
    case 46 => "困"
    case 47 => "井"
    case 48 => "革"
    case 49 => "鼎"
    case 50 => "震"
    case 51 => "艮"
    case 52 => "渐"
    case 53 => "归妹"
    case 54 => "丰"
    case 55 => "旅"
    case 56 => "巽"
    case 57 => "兑"
    case 58 => "涣"
    case 59 => "节"
    case 60 => "中孚"
    case 61 => "小过"
    case 62 => "既济"
    case _ => "未济"
  }

  /** The English name of entry `i`. */
  function NameEn(i: nat): string
    requires i < HexagramCount
  {
    match i
    case 0 => "Qian (Heaven)"
    case 1 => "Kun (Earth)"
    case 2 => "Zhun (Difficulty)"
    case 3 => "Meng (Youthful Folly)"
    case 4 => "Xu (Waiting)"
    case 5 => "Song (Conflict)"
    case 6 => "Shi (Army)"
    case 7 => "Bi (Union)"
    case 8 => "Xiao Xu (Small Accumulation)"
    case 9 => "Lu (Treading)"
    case 10 => "Tai (Peace)"
    case 11 => "Pi (Stagnation)"
    case 12 => "Tong Ren (Fellowship)"
    case 13 => "Da You (Great Possession)"
    case 14 => "Qian (Modesty)"
    case 15 => "Yu (Enthusiasm)"
    case 16 => "Sui (Following)"
    case 17 => "Gu (Decay)"
    case 18 => "Lin (Approach)"
    case 19 => "Guan (Contemplation)"
    case 20 => "Shi Ke (Biting Through)"
    case 21 => "Bi (Grace)"
    case 22 => "Bo (Splitting Apart)"
    case 23 => "Fu (Return)"
    case 24 => "Wu Wang (Innocence)"
    case 25 => "Da Xu (Great Accumulation)"
    case 26 => "Yi (Nourishment)"
    case 27 => "Da Guo (Great Exceeding)"
    case 28 => "Kan (Water)"
    case 29 => "Li (Fire)"
    case 30 => "Xian (Influence)"
    case 31 => "Heng (Duration)"
    case 32 => "Dun (Retreat)"
    case 33 => "Da Zhuang (Great Power)"
    case 34 => "Jin (Progress)"
    case 35 => "Ming Yi (Darkening of the Light)"
    case 36 => "Jia Ren (Family)"
    case 37 => "Kui (Opposition)"
    case 38 => "Jian (Obstruction)"
    case 39 => "Jie (Deliverance)"
    case 40 => "Sun (Decrease)"
    case 41 => "Yi (Increase)"
    case 42 => "Guai (Breakthrough)"
    case 43 => "Gou (Coming to Meet)"
    case 44 => "Cui (Gathering)"
    case 45 => "Sheng (Rising)"
    case 46 => "Kun (Oppression)"
    case 47 => "Jing (Well)"
    case 48 => "Ge (Revolution)"
    case 49 => "Ding (Cauldron)"
    case 50 => "Zhen (Thunder)"
    case 51 => "Gen (Mountain)"
    case 52 => "Jian (Gradual Progress)"
    case 53 => "Gui Mei (Marrying Maiden)"
    case 54 => "Feng (Abundance)"
    case 55 => "Lü (Travel)"
    case 56 => "Xun (Wind)"
    case 57 => "Dui (Lake)"
    case 58 => "Huan (Dispersion)"
    case 59 => "Jie (Limitation)"
    case 60 => "Zhong Fu (Inner Truth)"
    case 61 => "Xiao Guo (Small Exceeding)"
    case 62 => "Ji Ji (After Completion)"
    case _ => "Wei Ji (Before Completion)"
  }

  /** The judgement text of entry `i`. */
  function GuaCi(i: nat): string
    requires i < HexagramCount
  {
    match i
    case 0 => "元亨利贞"
    case 1 => "元亨，利牝马之贞"
    case 2 => "元亨利贞"
    case 3 => "亨"
    case 4 => "有孚，光亨"
    case 5 => "有孚，窒惕"
    case 6 => "贞，丈人吉"
    case 7 => "吉"
    case 8 => "亨"
    case 9 => "履虎尾，不咥人"
    case 10 => "小往大来，吉亨"
    case 11 => "否之匪人"
    case 12 => "同人于野，亨"
    case 13 => "元亨"
    case 14 => "亨，君子有终"
    case 15 => "利建侯行师"
    case 16 => "元亨利贞"
    case 17 => "元亨"
    case 18 => "元亨利贞"
    case 19 => "盥而不荐"
    case 20 => "亨"
    case 21 => "亨"
    case 22 => "不利有攸往"
    case 23 => "亨"
    case 24 => "元亨利贞"
    case 25 => "利贞"
    case 26 => "贞吉"
    case 27 => "栋桡"
    case 28 => "有孚"
    case 29 => "利贞，亨"
    case 30 => "亨，利贞"
    case 31 => "亨，无咎"
    case 32 => "亨"
    case 33 => "利贞"
    case 34 => "康侯用锡马"
    case 35 => "利艰贞"
    case 36 => "利女贞"
    case 37 => "小事吉"
    case 38 => "利西南"
    case 39 => "利西南"
    case 40 => "有孚"
    case 41 => "利有攸往"
    case 42 => "扬于王庭"
    case 43 => "女壮"
    case 44 => "亨"
    case 45 => "元亨"
    case 46 => "亨"
    case 47 => "改邑不改井"
    case 48 => "己日乃孚"
    case 49 => "元吉，亨"
    case 50 => "亨"
    case 51 => "艮其背"
    case 52 => "女归吉"
    case 53 => "征凶"
    case 54 => "亨"
    case 55 => "小亨"
    case 56 => "小亨"
    case 57 => "亨"
    case 58 => "亨"
    case 59 => "亨"
    case 60 => "豚鱼吉"
    case 61 => "亨"
    case 62 => "亨"
    case _ => "亨"
  }

  /** The line texts of entry `i`. */
  function Lines(i: nat): (string, string, string, string, string, string)
    requires i < HexagramCount
  {
    match i
    case 0 => ("初九：潜龙勿用", "九二：见龙在田", "九三：君子终日乾乾", "九四：或跃在渊", "九五：飞龙在天", "上九：亢龙有悔")
    case 1 => ("初六：履霜坚冰至", "六二：直方大", "六三：含章可贞", "六四：括囊", "六五：黄裳元吉", "上六：龙战于野")
    case 2 => ("初九：磐桓", "六二：屯如邅如", "六三：即鹿无虞", "六四：乘马班如", "九五：屯其膏", "上六：泣血涟如")
    case 3 => ("初六：发蒙", "九二：包蒙", "六三：勿用取女", "六四：困蒙", "六五：童蒙", "上九：击蒙")
    case 4 => ("初九：需于郊", "九二：需于沙", "九三：需于泥", "六四：需于血", "九五：需于酒食", "上六：入于穴")
    case 5 => ("初六：不永所事", "九二：不克讼", "六三：食旧德", "九四：不克讼", "九五：讼元吉", "上九：或锡之鞶带")
    case 6 => ("初六：师出以律", "九二：在师中", "六三：师或舆尸", "六四：师左次", "六五：田有禽", "上六：大君有命")
    case 7 => ("初六：有孚比之", "六二：比之自内", "六三：比之匪人", "六四：外比之", "九五：显比", "上六：比之无首")
    case 8 => ("初九：复自道", "九二：牵复", "九三：舆说辐", "六四：有孚", "九五：有孚挛如", "上九：既雨既处")
    case 9 => ("初九：素履", "九二：履道坦坦", "六三：眇能视", "九四：履虎尾", "九五：夬履", "上九：视履考祥")
    case 10 => ("初九：拔茅茹", "九二：包荒", "九三：无平不陂", "六四：翩翩", "六五：帝乙归妹", "上六：城复于隍")
    case 11 => ("初六：拔茅茹", "六二：包承", "六三：包羞", "九四：有命", "九五：休否", "上九：倾否")
    case 12 => ("初九：同人于门", "六二：同人于宗", "九三：伏戎于莽", "九四：乘其墉", "九五：同人先号咷", "上九：同人于郊")
    case 13 => ("初九：无交害", "九二：大车以载", "九三：公用亨于天子", "九四：匪其彭", "六五：厥孚交如", "上九：自天祐之")
    case 14 => ("初六：谦谦君子", "六二：鸣谦", "九三：劳谦", "六四：无不利", "六五：不富以其邻", "上六：鸣谦")
    case 15 => ("初六：鸣豫", "六二：介于石", "六三：盱豫", "九四：由豫", "六五：贞疾", "上六：冥豫")
    case 16 => ("初九：官有渝", "六二：系小子", "六三：系丈夫", "九四：随有获", "九五：孚于嘉", "上六：拘系之")
    case 17 => ("初六：干父之蛊", "九二：干母之蛊", "九三：干父之蛊", "六四：裕父之蛊", "六五：干父之蛊", "上九：不事王侯")
    case 18 => ("初九：咸临", "九二：咸临", "六三：甘临", "六四：至临", "六五：知临", "上六：敦临")
    case 19 => ("初六：童观", "六二：窥观", "六三：观我生", "六四：观国之光", "九五：观我生", "上九：观其生")
    case 20 => ("初九：屦校灭趾", "六二：噬肤灭鼻", "六三：噬腊肉", "九四：噬干胏", "六五：噬干肉", "上九：何校灭耳")
    case 21 => ("初九：贲其趾", "六二：贲其须", "九三：贲如濡如", "六四：贲如皤如", "六五：贲于丘园", "上九：白贲")
    case 22 => ("初六：剥床以足", "六二：剥床以辨", "六三：剥之无咎", "六四：剥床以肤", "六五：贯鱼", "上九：硕果不食")
    case 23 => ("初九：不远复", "六二：休复", "六三：频复", "六四：中行独复", "六五：敦复", "上六：迷复")
    case 24 => ("初九：无妄", "六二：不耕获", "六三：无妄之灾", "九四：可贞", "九五：无妄之疾", "上九：无妄行")
    case 25 => ("初九：有厉", "九二：舆说辐", "九三：良马逐", "六四：童牛之牿", "六五：豮豕之牙", "上九：何天之衢")
    case 26 => ("初九：舍尔灵龟", "六二：颠颐", "六三：拂颐", "六四：颠颐", "六五：拂经", "上九：由颐")
    case 27 => ("初六：藉用白茅", "九二：枯杨生稊", "九三：栋桡", "九四：栋隆", "九五：枯杨生华", "上六：过涉灭顶")
    case 28 => ("初六：习坎", "九二：坎有险", "六三：来之坎坎", "六四：樽酒", "九五：坎不盈", "上六：系用徽纆")
    case 29 => ("初九：履错然", "六二：黄离", "九三：日昃之离", "九四：突如其来如", "六五：出涕沱若", "上九：王用出征")
    case 30 => ("初六：咸其拇", "六二：咸其腓", "九三：咸其股", "九四：贞吉", "九五：咸其脢", "上六：咸其辅颊舌")
    case 31 => ("初六：浚恒", "九二：悔亡", "九三：不恒其德", "九四：田无禽", "六五：恒其德", "上六：振恒")
    case 32 => ("初六：遁尾", "六二：执之用黄牛之革", "九三：系遁", "九四：好遁", "九五：嘉遁", "上九：肥遁")
    case 33 => ("初九：壮于趾", "九二：贞吉", "九三：小人用壮", "九四：贞吉", "六五：丧羊于易", "上六：羝羊触藩")
    case 34 => ("初六：晋如摧如", "六二：晋如愁如", "六三：众允", "九四：晋如鼫鼠", "六五：悔亡", "上九：晋其角")
    case 35 => ("初九：明夷于飞", "六二：明夷", "九三：明夷于南狩", "六四：入于左腹", "六五：箕子之明夷", "上六：不明晦")
    case 36 => ("初九：闲有家", "六二：无攸遂", "九三：家人嗃嗃", "六四：富家", "九五：王假有家", "上九：有孚威如")
    case 37 => ("初九：悔亡", "九二：遇主于巷", "六三：见舆曳", "九四：睽孤", "六五：悔亡", "上九：睽孤")
    case 38 => ("初六：往蹇来誉", "六二：王臣蹇蹇", "九三：往蹇来反", "六四：往蹇来连", "九五：大蹇朋来", "上六：往蹇来硕")
    case 39 => ("初六：无咎", "九二：田获三狐", "六三：负且乘", "九四：解而拇", "六五：君子维有解", "上九：公用射隼")
    case 40 => ("初九：已事遄往", "九二：利贞", "六三：三人行", "六四：损其疾", "六五：或益之", "上九：弗损益之")
    case 41 => ("初九：利用为大作", "六二：或益之", "六三：益之用凶事", "六四：中行告公", "九五：有孚惠心", "上九：莫益之")
    case 42 => ("初九：壮于前趾", "九二：惕号", "九三：壮于頄", "九四：臀无肤", "九五：苋陆夬夬", "上六：无号")
    case 43 => ("初六：系于金柅", "九二：包有鱼", "九三：臀无肤", "九四：包无鱼", "九五：以杞包瓜", "上九：姤其角")
    case 44 => ("初六：有孚不终", "六二：引吉", "六三：萃如嗟如", "九四：大吉", "九五：萃有位", "上六：齎咨涕洟")
    case 45 => ("初六：允升", "九二：孚乃利用禴", "九三：升虚邑", "六四：王用亨于岐山", "六五：贞吉", "上六：冥升")
    case 46 => ("初六：臀困于株木", "九二：困于酒食", "六三：困于石", "九四：来徐徐", "九五：劓刖", "上六：困于葛藟")
    case 47 => ("初六：井泥不食", "九二：井谷射鲋", "九三：井渫不食", "六四：井甃", "九五：井冽寒泉", "上六：井收勿幕")
    case 48 => ("初九：巩用黄牛之革", "六二：己日乃革之", "九三：征凶", "九四：悔亡", "九五：大人虎变", "上六：君子豹变")
    case 49 => ("初六：鼎颠趾", "九二：鼎有实", "九三：鼎耳革", "九四：鼎折足", "六五：鼎黄耳", "上九：鼎玉铉")
    case 50 => ("初九：震来虩虩", "六二：震来厉", "六三：震苏苏", "九四：震遂泥", "六五：震往来厉", "上六：震索索")
    case 51 => ("初六：艮其趾", "六二：艮其腓", "九三：艮其限", "六四：艮其身", "六五：艮其辅", "上九：敦艮")
    case 52 => ("初六：鸿渐于干", "六二：鸿渐于磐", "九三：鸿渐于陆", "六四：鸿渐于木", "九五：鸿渐于陵", "上九：鸿渐于陆")
    case 53 => ("初九：归妹以娣", "九二：眇能视", "六三：归妹以须", "九四：归妹愆期", "六五：帝乙归妹", "上六：女承筐无实")
    case 54 => ("初九：遇其配主", "六二：丰其蔀", "九三：丰其沛", "九四：丰其蔀", "六五：来章", "上六：丰其屋")
    case 55 => ("初六：旅琐琐", "六二：旅即次", "九三：旅焚其次", "九四：旅于处", "六五：射雉一矢亡", "上九：鸟焚其巢")
    case 56 => ("初九：进退", "九二：巽在床下", "九三：频巽", "六四：悔亡", "九五：贞吉", "上九：巽在床下")
    case 57 => ("初九：和兑", "九二：孚兑", "六三：来兑", "九四：商兑", "九五：孚于剥", "上六：引兑")
    case 58 => ("初六：用拯马壮", "九二：涣奔其机", "六三：涣其躬", "六四：涣其群", "九五：涣汗其大号", "上九：涣其血")
    case 59 => ("初九：不出户庭", "九二：不出门庭", "六三：不节若", "六四：安节", "九五：甘节", "上六：苦节")
    case 60 => ("初九：虞吉", "九二：鸣鹤在阴", "六三：得敌", "六四：月几望", "九五：有孚挛如", "上九：翰音登于天")
    case 61 => ("初六：飞鸟以凶", "六二：过其祖", "九三：弗过防之", "九四：无咎", "六五：密云不雨", "上六：弗遇过之")
    case 62 => ("初九：曳其轮", "六二：妇丧其茀", "九三：高宗伐鬼方", "六四：繻有衣袽", "九五：东邻杀牛", "上六：濡其首")
    case _ => ("初六：濡其尾", "九二：曳其轮", "六三：未济征凶", "九四：贞吉", "六五：贞吉", "上九：有孚于饮酒")
  }

  /** The image text of entry `i`. */
  function Meaning(i: nat): string
    requires i < HexagramCount
  {
    match i
    case 0 => "天行健，君子以自强不息"
    case 1 => "地势坤，君子以厚德载物"
    case 2 => "云雷屯，君子以经纶"
    case 3 => "山下出泉，蒙，君子以果行育德"
    case 4 => "云上于天，需，君子以饮食宴乐"
    case 5 => "天与水违行，讼，君子以作事谋始"
    case 6 => "地中有水，师，君子以容民畜众"
    case 7 => "水在地上，比，先王以建万国，亲诸侯"
    case 8 => "风行天上，小畜，君子以懿文德"
    case 9 => "天泽履，君子以辨上下，定民志"
    case 10 => "天地交，泰，后以财成天地之道"
    case 11 => "天地不交，否，君子以俭德辟难"
    case 12 => "天与火，同人，君子以类族辨物"
    case 13 => "火在天上，大有，君子以遏恶扬善"
    case 14 => "地中有山，谦，君子以裒多益寡"
    case 15 => "雷出地奋，豫，先王以作乐崇德"
    case 16 => "泽中有雷，随，君子以向晦入宴息"
    case 17 => "山下有风，蛊，君子以振民育德"
    case 18 => "泽上有地，临，君子以教思无穷"
    case 19 => "风行地上，观，先王以省方观民设教"
    case 20 => "雷电，噬嗑，先王以明罚敕法"
    case 21 => "山下有火，贲，君子以明庶政"
    case 22 => "山附于地，剥，上以厚下安宅"
    case 23 => "雷在地中，复，先王以至日闭关"
    case 24 => "天下雷行，无妄，先王以茂对时育万物"
    case 25 => "天在山中，大畜，君子以多识前言往行"
    case 26 => "山下有雷，颐，君子以慎言语"
    case 27 => "泽灭木，大过，君子以独立不惧"
    case 28 => "水洊至，习坎，君子以常德行"
    case 29 => "明两作，离，大人以继明照于四方"
    case 30 => "山上有泽，咸，君子以虚受人"
    case 31 => "雷风恒，君子以立不易方"
    case 32 => "天下有山，遁，君子以远小人"
    case 33 => "雷在天上，大壮，君子以非礼弗履"
    case 34 => "明出地上，晋，君子以自昭明德"
    case 35 => "明入地中，明夷，君子以莅众用晦而明"
    case 36 => "风自火出，家人，君子以言有物而行有恒"
    case 37 => "上火下泽，睽，君子以同而异"
    case 38 => "山上有水，蹇，君子以反身修德"
    case 39 => "雷雨作，解，君子以赦过宥罪"
    case 40 => "山下有泽，损，君子以惩忿窒欲"
    case 41 => "风雷益，君子以见善则迁"
    case 42 => "泽上于天，夬，君子以施禄及下"
    case 43 => "天下有风，姤，后以施命诰四方"
    case 44 => "泽上于地，萃，君子以除戎器"
    case 45 => "地中生木，升，君子以顺德"
    case 46 => "泽无水，困，君子以致命遂志"
    case 47 => "木上有水，井，君子以劳民劝相"
    case 48 => "泽中有火，革，君子以治历明时"
    case 49 => "木上有火，鼎，君子以正位凝命"
    case 50 => "洊雷，震，君子以恐惧修省"
    case 51 => "兼山，艮，君子以思不出其位"
    case 52 => "山上有木，渐，君子以居贤德善俗"
    case 53 => "雷上有泽，归妹，君子以永终知敝"
    case 54 => "雷电皆至，丰，君子以折狱致刑"
    case 55 => "山上有火，旅，君子以明慎用刑"
    case 56 => "随风，巽，君子以申命行事"
    case 57 => "丽泽，兑，君子以朋友讲习"
    case 58 => "风行水上，涣，先王以享于帝立庙"
    case 59 => "泽上有水，节，君子以制数度"
    case 60 => "泽上有风，中孚，君子以议狱缓死"
    case 61 => "山上有雷，小过，君子以行过乎恭"
    case 62 => "水在火上，既济，君子以思患而豫防之"
    case _ => "火在水上，未济，君子以慎辨物居方"
  }
}
