/**
 * The novel-settings record edited by the settings form: its enumerations, its entities and the
 * constructors of default and empty values. Identifiers, which the application draws at random,
 * are parameters of the constructors.
 */
module SettingsTypes {

  const AllNovelGenres: seq<string> := [
    "玄幻", "仙侠", "奇幻", "武侠", "都市", "言情", "科幻", "系统文", "后宫", "无限流",
    "悬疑", "历史", "军事", "游戏", "末世", "穿越", "重生", "网游", "竞技", "机甲",
    "星际", "灵异", "恐怖", "宫斗", "种田", "娱乐圈", "盗墓", "洪荒"]

  const RelationshipTypes: seq<string> := [
    "盟友", "恋人", "导师", "死敌", "家人", "竞争者", "炮灰", "同门", "队友", "上司", "下属", "其他"]

  const CharacterArcs: seq<string> := ["成长", "黑化", "救赎", "牺牲", "退场", "保持不变", "其他"]

  const EndingTypes: seq<string> := ["HE", "BE", "开放", "大团圆", "虐", "爽", "开放式"]

  const NarrationTypes: seq<string> := ["第一人称", "第三人称有限", "全知视角"]

  const ToneTypes: seq<string> := ["热血", "黑暗", "轻松", "细腻", "幽默", "压抑", "爽快", "文艺", "写实"]

  const CheatLevels: seq<string> := ["无敌流", "稳步成长", "真实吃力", "反转流", "废柴逆袭"]

  const FocusAreas: seq<string> := ["战斗", "感情", "智斗", "日常", "装逼", "后宫", "权谋", "经营"]

  const Genders: seq<string> := ["男", "女", "其他"]

  datatype MainCharacter = MainCharacter(name: string, gender: string, age: string, personality: string)

  /** The fields every side character and antagonist has. */
  datatype Character = Character(
    id: string, name: string, nickname: string, gender: string, age: string,
    relationship: string, relationshipCustom: string, personalityTags: seq<string>,
    background: string, abilities: string, role: string, arc: string, arcCustom: string)

  /** An antagonist is a character with a motive and a fate. */
  datatype Antagonist = Antagonist(base: Character, motive: string, fate: string)

  datatype WorldDetails = WorldDetails(
    powerSystem: string, factions: string, historyEvents: string,
    importantLocations: string, cultureAndTaboos: string)

  datatype PlotBeat = PlotBeat(id: string, title: string, detail: string)

  /** `temperature` is the slider's number, carried without arithmetic. */
  datatype WritingStyle = WritingStyle(
    narration: string, tones: seq<string>, cheatLevel: string, focusAreas: seq<string>,
    wordsPerChapter: int, temperature: real)

  datatype TabooRule = TabooRule(id: string, content: string)

  datatype ReferenceWork = ReferenceWork(id: string, title: string, inspiration: string)

  datatype NovelSettings = NovelSettings(
    genres: seq<string>, oneLinePitch: string,
    mainCharacter: MainCharacter,
    sideCharacters: seq<Character>, antagonists: seq<Antagonist>,
    worldSummary: string, conflictTheme: string, worldDetails: WorldDetails,
    opening: string, middleBeats: seq<PlotBeat>, endingType: string, subplots: seq<PlotBeat>,
    writingStyle: WritingStyle,
    totalWords: int, chapterWords: int, nsfw: bool, systemNovel: bool, harem: bool,
    taboos: seq<TabooRule>, references: seq<ReferenceWork>)

  /** `createEmptySideCharacter`: a blank character, male by default, with no relation or arc chosen. */
  function EmptySideCharacter(id: string): (c: Character)
    ensures c.id == id && c.gender == "男" && c.gender in Genders
    ensures c.name == "" && c.nickname == "" && c.age == "" && c.relationshipCustom == ""
    ensures c.background == "" && c.abilities == "" && c.role == "" && c.arcCustom == ""
    ensures c.personalityTags == [] && c.relationship == "" && c.arc == ""
  {
    Character(id, "", "", "男", "", "", "", [], "", "", "", "", "")
  }

  /** `createEmptyAntagonist`: the blank character fields under a fresh id, no motive and no fate. */
  function EmptyAntagonist(id: string): (a: Antagonist)
    ensures a.base == EmptySideCharacter(id)
    ensures a.motive == "" && a.fate == ""
  {
    Antagonist(EmptySideCharacter(id).(id := id), "", "")
  }

  function EmptyPlotBeat(id: string): (b: PlotBeat)
    ensures b.id == id && b.title == "" && b.detail == ""
  {
    PlotBeat(id, "", "")
  }

  function EmptyTaboo(id: string): (t: TabooRule)
    ensures t.id == id && t.content == ""
  {
    TabooRule(id, "")
  }

  function EmptyReferenceWork(id: string): (w: ReferenceWork)
    ensures w.id == id && w.title == "" && w.inspiration == ""
  {
    ReferenceWork(id, "", "")
  }

  /** `createDefaultNovelSettings`: the state of a fresh form. */
  function DefaultNovelSettings(): (s: NovelSettings)
    ensures s.genres == [] && s.sideCharacters == [] && s.antagonists == [] && s.middleBeats == []
    ensures s.subplots == [] && s.taboos == [] && s.references == []
    ensures s.writingStyle.tones == [] && s.writingStyle.focusAreas == []
    ensures s.oneLinePitch == "" && s.worldSummary == "" && s.conflictTheme == "" && s.opening == ""
    ensures s.endingType == ""
    ensures s.mainCharacter == MainCharacter("", "男", "", "")
    ensures s.worldDetails == WorldDetails("", "", "", "", "")
    ensures s.chapterWords == 3000 && s.writingStyle.wordsPerChapter == 3000 && s.totalWords == 100000
    ensures s.writingStyle.temperature == 0.7
    ensures !s.nsfw && !s.systemNovel && !s.harem
    ensures s.writingStyle.narration == "第三人称有限" && s.writingStyle.narration in NarrationTypes
    ensures s.writingStyle.cheatLevel == "稳步成长" && s.writingStyle.cheatLevel in CheatLevels
    ensures s.mainCharacter.gender in Genders
  {
    NovelSettings(
      [], "",
      MainCharacter("", "男", "", ""),
      [], [],
      "", "", WorldDetails("", "", "", "", ""),
      "", [], "", [],
      WritingStyle("第三人称有限", [], "稳步成长", [], 3000, 0.7),
      100000, 3000, false, false, false,
      [], [])
  }
}
