/**
 * The settings form's logic: reordering with `moveItem`, the toggles and field setters that
 * build a new settings value, list editing by id, the restore/import merge, the personality-tag
 * input, the prompt text `buildPrompt` assembles, and the normalisation done on "generate".
 */
module SettingsForm {
  import opened Wrappers
  import opened Text
  import opened Lists
  import opened SettingsTypes

  // ---------------------------------------------------------------- moveItem

  predicate IsMove(n: int, from: int, to: int) {
    from != to && 0 <= from < n && 0 <= to < n
  }

  /** What `moveItem` returns: the list itself for a no-op or out-of-range move, otherwise the
      list with the item at `from` taken out and inserted again at `to`. */
  function Moved<T>(xs: seq<T>, from: int, to: int): seq<T> {
    if !IsMove(|xs|, from, to) then xs
    else
      var rest := xs[..from] + xs[from + 1..];
      rest[..to] + [xs[from]] + rest[to..]
  }

  /** `xs` without its element at `k`. */
  function RemoveAt<T>(xs: seq<T>, k: nat): seq<T>
    requires k < |xs|
  {
    xs[..k] + xs[k + 1..]
  }

  /** Position by position: the moved item lands at `to`, the items between shift one place back. */
  lemma MovedAt<T>(xs: seq<T>, from: int, to: int, k: int)
    requires IsMove(|xs|, from, to) && 0 <= k < |xs|
    ensures |Moved(xs, from, to)| == |xs|
    ensures Moved(xs, from, to)[k] ==
      if k == to then xs[from]
      else if from < to && from <= k < to then xs[k + 1]
      else if to < from && to < k <= from then xs[k - 1]
      else xs[k]
  {
    var rest := xs[..from] + xs[from + 1..];
    assert |rest| == |xs| - 1;
    assert forall j :: 0 <= j < |rest| ==> rest[j] == if j < from then xs[j] else xs[j + 1];
    var r := rest[..to] + [xs[from]] + rest[to..];
    assert forall j :: 0 <= j < |r| ==> r[j] == if j < to then rest[j] else if j == to then xs[from] else rest[j - 1];
  }

  /** A valid move is a permutation: same length, same multiset of items. */
  lemma MovedIsPermutation<T>(xs: seq<T>, from: int, to: int)
    ensures |Moved(xs, from, to)| == |xs|
    ensures multiset(Moved(xs, from, to)) == multiset(xs)
  {
    if IsMove(|xs|, from, to) {
      var rest := xs[..from] + xs[from + 1..];
      assert xs == xs[..from] + [xs[from]] + xs[from + 1..];
      assert multiset(xs) == multiset(rest) + multiset{xs[from]};
      assert rest == rest[..to] + rest[to..];
      assert multiset(rest) == multiset(rest[..to]) + multiset(rest[to..]);
      var r := rest[..to] + [xs[from]] + rest[to..];
      assert multiset(r) == multiset(rest[..to]) + multiset{xs[from]} + multiset(rest[to..]);
    }
  }

  /** The other items keep their relative order: taking the moved item back out gives the same list. */
  lemma MovedKeepsOthersInOrder<T>(xs: seq<T>, from: int, to: int)
    requires IsMove(|xs|, from, to)
    ensures |Moved(xs, from, to)| == |xs|
    ensures Moved(xs, from, to)[to] == xs[from]
    ensures RemoveAt(Moved(xs, from, to), to) == RemoveAt(xs, from)
  {
    var rest := xs[..from] + xs[from + 1..];
    var r := rest[..to] + [xs[from]] + rest[to..];
    assert r[..to] == rest[..to];
    assert r[to + 1..] == rest[to..];
    assert rest[..to] + rest[to..] == rest;
  }

  /** `moveItem(arr, from, to)`: the array is cloned and the two splices (remove at `from`,
      insert at `to`) are carried out in place on the clone. */
  method MoveItem<T>(arr: seq<T>, from: int, to: int) returns (r: seq<T>)
    ensures r == Moved(arr, from, to)
  {
    if from == to || from < 0 || to < 0 || from >= |arr| || to >= |arr| {
      return arr;
    }
    var clone := new T[|arr|](i requires 0 <= i < |arr| => arr[i]);
    var item := clone[from];
    if from < to {
      var i := from;
      while i < to
        invariant from <= i <= to
        invariant forall k :: 0 <= k < from ==> clone[k] == arr[k]
        invariant forall k :: from <= k < i ==> clone[k] == arr[k + 1]
        invariant forall k :: i <= k < clone.Length ==> clone[k] == arr[k]
      {
        clone[i] := clone[i + 1];
        i := i + 1;
      }
    } else {
      var i := from;
      while i > to
        invariant to <= i <= from
        invariant forall k :: 0 <= k <= i ==> clone[k] == arr[k]
        invariant forall k :: i < k <= from ==> clone[k] == arr[k - 1]
        invariant forall k :: from < k < clone.Length ==> clone[k] == arr[k]
      {
        clone[i] := clone[i - 1];
        i := i - 1;
      }
    }
    clone[to] := item;
    r := clone[..];
    forall k | 0 <= k < |arr| ensures r[k] == Moved(arr, from, to)[k] {
      MovedAt(arr, from, to, k);
    }
    MovedAt(arr, from, to, 0);
  }

  // ---------------------------------------------------------------- toggles

  function ToggleGenre(s: NovelSettings, g: string): (r: NovelSettings)
    ensures g in r.genres <==> g !in s.genres
    ensures r.genres == Toggle(s.genres, g)
    ensures r.(genres := s.genres) == s
  {
    s.(genres := Toggle(s.genres, g))
  }

  function ToggleTone(s: NovelSettings, tone: string): (r: NovelSettings)
    ensures tone in r.writingStyle.tones <==> tone !in s.writingStyle.tones
    ensures r.writingStyle == s.writingStyle.(tones := Toggle(s.writingStyle.tones, tone))
    ensures r.(writingStyle := s.writingStyle) == s
  {
    s.(writingStyle := s.writingStyle.(tones := Toggle(s.writingStyle.tones, tone)))
  }

  function ToggleFocusArea(s: NovelSettings, area: string): (r: NovelSettings)
    ensures area in r.writingStyle.focusAreas <==> area !in s.writingStyle.focusAreas
    ensures r.writingStyle == s.writingStyle.(focusAreas := Toggle(s.writingStyle.focusAreas, area))
    ensures r.(writingStyle := s.writingStyle) == s
  {
    s.(writingStyle := s.writingStyle.(focusAreas := Toggle(s.writingStyle.focusAreas, area)))
  }

  /** Toggling an absent genre twice gives back the settings. */
  lemma ToggleGenreTwice(s: NovelSettings, g: string)
    requires g !in s.genres
    ensures ToggleGenre(ToggleGenre(s, g), g) == s
  {
    ToggleTwiceAbsent(s.genres, g);
  }

  // ---------------------------------------------------------------- field setters

  datatype MainField = MainName | MainGender | MainAge | MainPersonality

  function MainValue(m: MainCharacter, f: MainField): string {
    match f
    case MainName => m.name
    case MainGender => m.gender
    case MainAge => m.age
    case MainPersonality => m.personality
  }

  /** `handleChangeMain`: one protagonist field set, nothing else touched. */
  function ChangeMain(s: NovelSettings, f: MainField, v: string): (r: NovelSettings)
    ensures MainValue(r.mainCharacter, f) == v
    ensures forall g: MainField :: g != f ==> MainValue(r.mainCharacter, g) == MainValue(s.mainCharacter, g)
    ensures r.(mainCharacter := s.mainCharacter) == s
  {
    var m := s.mainCharacter;
    s.(mainCharacter := match f
      case MainName => m.(name := v)
      case MainGender => m.(gender := v)
      case MainAge => m.(age := v)
      case MainPersonality => m.(personality := v))
  }

  /** The top-level free-text fields the form edits directly. */
  datatype TextField = OneLinePitch | WorldSummary | ConflictTheme | Opening | Ending

  function TextValue(s: NovelSettings, f: TextField): string {
    match f
    case OneLinePitch => s.oneLinePitch
    case WorldSummary => s.worldSummary
    case ConflictTheme => s.conflictTheme
    case Opening => s.opening
    case Ending => s.endingType
  }

  function ClearTexts(s: NovelSettings): NovelSettings {
    s.(oneLinePitch := "", worldSummary := "", conflictTheme := "", opening := "", endingType := "")
  }

  /** `handleChangeWorld` and the inline setters of the pitch, the opening and the ending type. */
  function ChangeText(s: NovelSettings, f: TextField, v: string): (r: NovelSettings)
    ensures TextValue(r, f) == v
    ensures forall g: TextField :: g != f ==> TextValue(r, g) == TextValue(s, g)
    ensures ClearTexts(r) == ClearTexts(s)
  {
    match f
    case OneLinePitch => s.(oneLinePitch := v)
    case WorldSummary => s.(worldSummary := v)
    case ConflictTheme => s.(conflictTheme := v)
    case Opening => s.(opening := v)
    case Ending => s.(endingType := v)
  }

  datatype WorldField = PowerSystem | Factions | HistoryEvents | ImportantLocations | CultureAndTaboos

  function WorldValue(w: WorldDetails, f: WorldField): string {
    match f
    case PowerSystem => w.powerSystem
    case Factions => w.factions
    case HistoryEvents => w.historyEvents
    case ImportantLocations => w.importantLocations
    case CultureAndTaboos => w.cultureAndTaboos
  }

  /** `handleChangeWorldDetail`: one world-detail field set, nothing else touched. */
  function ChangeWorldDetail(s: NovelSettings, f: WorldField, v: string): (r: NovelSettings)
    ensures WorldValue(r.worldDetails, f) == v
    ensures forall g: WorldField :: g != f ==> WorldValue(r.worldDetails, g) == WorldValue(s.worldDetails, g)
    ensures r.(worldDetails := s.worldDetails) == s
  {
    var w := s.worldDetails;
    s.(worldDetails := match f
      case PowerSystem => w.(powerSystem := v)
      case Factions => w.(factions := v)
      case HistoryEvents => w.(historyEvents := v)
      case ImportantLocations => w.(importantLocations := v)
      case CultureAndTaboos => w.(cultureAndTaboos := v))
  }

  /** The writing-style fields set through `handleChangeWritingStyle`, each with its value. */
  datatype StyleEdit = SetNarration(narration: string) | SetCheatLevel(cheatLevel: string)
                     | SetWordsPerChapter(words: int) | SetTemperature(temperature: real)

  /** `handleChangeWritingStyle`: one writing-style field set; tones and focus areas untouched. */
  function ChangeWritingStyle(s: NovelSettings, e: StyleEdit): (r: NovelSettings)
    ensures r.(writingStyle := s.writingStyle) == s
    ensures r.writingStyle.tones == s.writingStyle.tones && r.writingStyle.focusAreas == s.writingStyle.focusAreas
    ensures e.SetNarration? ==> r.writingStyle == s.writingStyle.(narration := e.narration)
    ensures e.SetCheatLevel? ==> r.writingStyle == s.writingStyle.(cheatLevel := e.cheatLevel)
    ensures e.SetWordsPerChapter? ==> r.writingStyle == s.writingStyle.(wordsPerChapter := e.words)
    ensures e.SetTemperature? ==> r.writingStyle == s.writingStyle.(temperature := e.temperature)
  {
    var w := s.writingStyle;
    s.(writingStyle := match e
      case SetNarration(v) => w.(narration := v)
      case SetCheatLevel(v) => w.(cheatLevel := v)
      case SetWordsPerChapter(v) => w.(wordsPerChapter := v)
      case SetTemperature(v) => w.(temperature := v))
  }

  /** The total-words input. */
  function ChangeTotalWords(s: NovelSettings, n: int): (r: NovelSettings)
    ensures r.totalWords == n && r.(totalWords := s.totalWords) == s
  {
    s.(totalWords := n)
  }

  datatype Flag = Nsfw | SystemNovel | Harem

  function FlagValue(s: NovelSettings, f: Flag): bool {
    match f
    case Nsfw => s.nsfw
    case SystemNovel => s.systemNovel
    case Harem => s.harem
  }

  /** `handleToggleFlag`: one switch set to the checkbox state. */
  function SetFlag(s: NovelSettings, f: Flag, v: bool): (r: NovelSettings)
    ensures FlagValue(r, f) == v
    ensures forall g: Flag :: g != f ==> FlagValue(r, g) == FlagValue(s, g)
    ensures r.(nsfw := s.nsfw, systemNovel := s.systemNovel, harem := s.harem) == s
  {
    match f
    case Nsfw => s.(nsfw := v)
    case SystemNovel => s.(systemNovel := v)
    case Harem => s.(harem := v)
  }

  // ---------------------------------------------------------------- list items by id

  /** The ids of `xs`, in order. */
  function Ids<T>(xs: seq<T>, idOf: T -> string): (r: seq<string>)
    ensures |r| == |xs|
    ensures forall i :: 0 <= i < |xs| ==> r[i] == idOf(xs[i])
    decreases |xs|
  {
    if xs == [] then [] else [idOf(xs[0])] + Ids(xs[1..], idOf)
  }

  lemma {:induction false} IdsAppend<T>(xs: seq<T>, x: T, idOf: T -> string)
    ensures Ids(xs + [x], idOf) == Ids(xs, idOf) + [idOf(x)]
  {
    var l := Ids(xs + [x], idOf);
    assert |l| == |xs| + 1;
    assert forall i :: 0 <= i < |xs| ==> l[i] == idOf(xs[i]);
    assert l[|xs|] == idOf(x);
  }

  /** `xs.filter(x => x.id !== id)`: the ids left are those of `xs` with `id` removed. */
  function DeleteById<T(==)>(xs: seq<T>, id: string, idOf: T -> string): (r: seq<T>)
    ensures forall i :: 0 <= i < |r| ==> idOf(r[i]) != id && r[i] in xs
    ensures Ids(r, idOf) == RemoveAll(Ids(xs, idOf), id)
    decreases |xs|
  {
    if xs == [] then []
    else
      var tail := DeleteById(xs[1..], id, idOf);
      assert Ids(xs, idOf) == [idOf(xs[0])] + Ids(xs[1..], idOf);
      if idOf(xs[0]) == id then tail
      else
        assert xs == [xs[0]] + xs[1..];
        assert Ids([xs[0]] + tail, idOf) == [idOf(xs[0])] + Ids(tail, idOf);
        [xs[0]] + tail
  }

  /** `xs.map(x => x.id === id ? edit(x) : x)`. */
  function UpdateById<T>(xs: seq<T>, id: string, idOf: T -> string, edit: T -> T): (r: seq<T>)
    ensures |r| == |xs|
    ensures forall i :: 0 <= i < |xs| ==> r[i] == if idOf(xs[i]) == id then edit(xs[i]) else xs[i]
  {
    seq(|xs|, i requires 0 <= i < |xs| => if idOf(xs[i]) == id then edit(xs[i]) else xs[i])
  }

  function CharacterId(c: Character): string { c.id }
  function AntagonistId(a: Antagonist): string { a.base.id }
  function BeatId(b: PlotBeat): string { b.id }
  function TabooId(t: TabooRule): string { t.id }
  function ReferenceId(w: ReferenceWork): string { w.id }

  /** The lists of the form whose items are added, deleted and reordered. */
  datatype ListKind = SideCharacters | Antagonists | MiddleBeats | Subplots | Taboos | References

  function ItemIds(s: NovelSettings, k: ListKind): seq<string> {
    match k
    case SideCharacters => Ids(s.sideCharacters, CharacterId)
    case Antagonists => Ids(s.antagonists, AntagonistId)
    case MiddleBeats => Ids(s.middleBeats, BeatId)
    case Subplots => Ids(s.subplots, BeatId)
    case Taboos => Ids(s.taboos, TabooId)
    case References => Ids(s.references, ReferenceId)
  }

  /** The settings with list `k` emptied: what must not change when only list `k` is edited. */
  function WithoutList(s: NovelSettings, k: ListKind): NovelSettings {
    match k
    case SideCharacters => s.(sideCharacters := [])
    case Antagonists => s.(antagonists := [])
    case MiddleBeats => s.(middleBeats := [])
    case Subplots => s.(subplots := [])
    case Taboos => s.(taboos := [])
    case References => s.(references := [])
  }

  /** The "add" buttons: an empty item with a new id appended to list `k`. */
  function AddItem(s: NovelSettings, k: ListKind, id: string): (r: NovelSettings)
    ensures ItemIds(r, k) == ItemIds(s, k) + [id]
    ensures WithoutList(r, k) == WithoutList(s, k)
    ensures k == SideCharacters ==> r.sideCharacters == s.sideCharacters + [EmptySideCharacter(id)]
    ensures k == Antagonists ==> r.antagonists == s.antagonists + [EmptyAntagonist(id)]
    ensures k == MiddleBeats ==> r.middleBeats == s.middleBeats + [EmptyPlotBeat(id)]
    ensures k == Subplots ==> r.subplots == s.subplots + [EmptyPlotBeat(id)]
    ensures k == Taboos ==> r.taboos == s.taboos + [EmptyTaboo(id)]
    ensures k == References ==> r.references == s.references + [EmptyReferenceWork(id)]
  {
    match k
    case SideCharacters =>
      IdsAppend(s.sideCharacters, EmptySideCharacter(id), CharacterId);
      s.(sideCharacters := s.sideCharacters + [EmptySideCharacter(id)])
    case Antagonists =>
      IdsAppend(s.antagonists, EmptyAntagonist(id), AntagonistId);
      s.(antagonists := s.antagonists + [EmptyAntagonist(id)])
    case MiddleBeats =>
      IdsAppend(s.middleBeats, EmptyPlotBeat(id), BeatId);
      s.(middleBeats := s.middleBeats + [EmptyPlotBeat(id)])
    case Subplots =>
      IdsAppend(s.subplots, EmptyPlotBeat(id), BeatId);
      s.(subplots := s.subplots + [EmptyPlotBeat(id)])
    case Taboos =>
      IdsAppend(s.taboos, EmptyTaboo(id), TabooId);
      s.(taboos := s.taboos + [EmptyTaboo(id)])
    case References =>
      IdsAppend(s.references, EmptyReferenceWork(id), ReferenceId);
      s.(references := s.references + [EmptyReferenceWork(id)])
  }

  /** The delete buttons: every item of list `k` carrying `id` removed, every other item kept in order. */
  function DeleteItem(s: NovelSettings, k: ListKind, id: string): (r: NovelSettings)
    ensures ItemIds(r, k) == RemoveAll(ItemIds(s, k), id)
    ensures id !in ItemIds(r, k)
    ensures WithoutList(r, k) == WithoutList(s, k)
    ensures k == SideCharacters ==> r.sideCharacters == DeleteById(s.sideCharacters, id, CharacterId)
    ensures k == Antagonists ==> r.antagonists == DeleteById(s.antagonists, id, AntagonistId)
    ensures k == MiddleBeats ==> r.middleBeats == DeleteById(s.middleBeats, id, BeatId)
    ensures k == Subplots ==> r.subplots == DeleteById(s.subplots, id, BeatId)
    ensures k == Taboos ==> r.taboos == DeleteById(s.taboos, id, TabooId)
    ensures k == References ==> r.references == DeleteById(s.references, id, ReferenceId)
  {
    match k
    case SideCharacters => s.(sideCharacters := DeleteById(s.sideCharacters, id, CharacterId))
    case Antagonists => s.(antagonists := DeleteById(s.antagonists, id, AntagonistId))
    case MiddleBeats => s.(middleBeats := DeleteById(s.middleBeats, id, BeatId))
    case Subplots => s.(subplots := DeleteById(s.subplots, id, BeatId))
    case Taboos => s.(taboos := DeleteById(s.taboos, id, TabooId))
    case References => s.(references := DeleteById(s.references, id, ReferenceId))
  }

  /** Deleting the item just added gives back the settings, when its id was new. */
  lemma DeleteAdded(s: NovelSettings, k: ListKind, id: string)
    requires id !in ItemIds(s, k)
    ensures ItemIds(DeleteItem(AddItem(s, k, id), k, id), k) == ItemIds(s, k)
    ensures WithoutList(DeleteItem(AddItem(s, k, id), k, id), k) == WithoutList(s, k)
  {
    RemoveAllAppended(ItemIds(s, k), id);
  }

  /** The lists the form shows up and down arrows for. */
  predicate Movable(k: ListKind) {
    k == SideCharacters || k == Antagonists || k == MiddleBeats || k == Subplots
  }

  /** The up and down arrows of list `k`: `moveItem` applied to that list. */
  function MoveListItem(s: NovelSettings, k: ListKind, from: int, to: int): (r: NovelSettings)
    requires Movable(k)
    ensures WithoutList(r, k) == WithoutList(s, k)
    ensures ItemIds(r, k) == Moved(ItemIds(s, k), from, to)
    ensures k == SideCharacters ==> r.sideCharacters == Moved(s.sideCharacters, from, to)
    ensures k == Antagonists ==> r.antagonists == Moved(s.antagonists, from, to)
    ensures k == MiddleBeats ==> r.middleBeats == Moved(s.middleBeats, from, to)
    ensures k == Subplots ==> r.subplots == Moved(s.subplots, from, to)
  {
    match k
    case SideCharacters => MovedIds(s.sideCharacters, from, to, CharacterId); s.(sideCharacters := Moved(s.sideCharacters, from, to))
    case Antagonists => MovedIds(s.antagonists, from, to, AntagonistId); s.(antagonists := Moved(s.antagonists, from, to))
    case MiddleBeats => MovedIds(s.middleBeats, from, to, BeatId); s.(middleBeats := Moved(s.middleBeats, from, to))
    case Subplots => MovedIds(s.subplots, from, to, BeatId); s.(subplots := Moved(s.subplots, from, to))
  }

  /** Moving items moves their ids the same way. */
  lemma MovedIds<T>(xs: seq<T>, from: int, to: int, idOf: T -> string)
    ensures Ids(Moved(xs, from, to), idOf) == Moved(Ids(xs, idOf), from, to)
  {
    if IsMove(|xs|, from, to) {
      var a := Ids(Moved(xs, from, to), idOf);
      var b := Moved(Ids(xs, idOf), from, to);
      MovedAt(xs, from, to, 0);
      MovedAt(Ids(xs, idOf), from, to, 0);
      forall k | 0 <= k < |xs| ensures a[k] == b[k] {
        MovedAt(xs, from, to, k);
        MovedAt(Ids(xs, idOf), from, to, k);
      }
    }
  }

  /** The side-character fields the form edits. */
  datatype CharacterField = CharName | CharGender | CharAge | Relationship | RelationshipCustom
                          | Background | Abilities | Role | Arc | ArcCustom

  function CharacterValue(c: Character, f: CharacterField): string {
    match f
    case CharName => c.name
    case CharGender => c.gender
    case CharAge => c.age
    case Relationship => c.relationship
    case RelationshipCustom => c.relationshipCustom
    case Background => c.background
    case Abilities => c.abilities
    case Role => c.role
    case Arc => c.arc
    case ArcCustom => c.arcCustom
  }

  /** The relation and arc selects store "" for their "自定义" entry, whose value is 其他. */
  function SelectValue(f: CharacterField, v: string): string {
    if (f == Relationship || f == Arc) && v == "其他" then "" else v
  }

  function SetCharacterField(c: Character, f: CharacterField, v: string): (r: Character)
    ensures CharacterValue(r, f) == SelectValue(f, v)
    ensures forall g: CharacterField :: g != f ==> CharacterValue(r, g) == CharacterValue(c, g)
    ensures r.id == c.id && r.nickname == c.nickname && r.personalityTags == c.personalityTags
  {
    var x := SelectValue(f, v);
    match f
    case CharName => c.(name := x)
    case CharGender => c.(gender := x)
    case CharAge => c.(age := x)
    case Relationship => c.(relationship := x)
    case RelationshipCustom => c.(relationshipCustom := x)
    case Background => c.(background := x)
    case Abilities => c.(abilities := x)
    case Role => c.(role := x)
    case Arc => c.(arc := x)
    case ArcCustom => c.(arcCustom := x)
  }

  /** A side-character input: the field of the character(s) with that id set, all else unchanged. */
  function EditSideCharacter(s: NovelSettings, id: string, f: CharacterField, v: string): (r: NovelSettings)
    ensures r.(sideCharacters := s.sideCharacters) == s
    ensures |r.sideCharacters| == |s.sideCharacters|
    ensures forall i :: 0 <= i < |s.sideCharacters| ==>
      r.sideCharacters[i] == if s.sideCharacters[i].id == id then SetCharacterField(s.sideCharacters[i], f, v)
                             else s.sideCharacters[i]
  {
    s.(sideCharacters := UpdateById(s.sideCharacters, id, CharacterId, c => SetCharacterField(c, f, v)))
  }

  /** The antagonist fields the form edits. */
  datatype AntagonistField = FoeName | FoeGender | FoeAge | Motive | Fate | FoeAbilities

  function SetAntagonistField(a: Antagonist, f: AntagonistField, v: string): (r: Antagonist)
    ensures f == FoeName ==> r == a.(base := a.base.(name := v))
    ensures f == FoeGender ==> r == a.(base := a.base.(gender := v))
    ensures f == FoeAge ==> r == a.(base := a.base.(age := v))
    ensures f == FoeAbilities ==> r == a.(base := a.base.(abilities := v))
    ensures f == Motive ==> r == a.(motive := v)
    ensures f == Fate ==> r == a.(fate := v)
    ensures f != Motive && f != Fate ==> r.motive == a.motive && r.fate == a.fate && r.base.id == a.base.id
  {
    match f
    case FoeName => a.(base := a.base.(name := v))
    case FoeGender => a.(base := a.base.(gender := v))
    case FoeAge => a.(base := a.base.(age := v))
    case Motive => a.(motive := v)
    case Fate => a.(fate := v)
    case FoeAbilities => a.(base := a.base.(abilities := v))
  }

  function EditAntagonist(s: NovelSettings, id: string, f: AntagonistField, v: string): (r: NovelSettings)
    ensures r.(antagonists := s.antagonists) == s
    ensures |r.antagonists| == |s.antagonists|
    ensures forall i :: 0 <= i < |s.antagonists| ==>
      r.antagonists[i] == if s.antagonists[i].base.id == id then SetAntagonistField(s.antagonists[i], f, v)
                          else s.antagonists[i]
  {
    s.(antagonists := UpdateById(s.antagonists, id, AntagonistId, a => SetAntagonistField(a, f, v)))
  }

  /** The title and detail inputs of a middle beat. */
  function EditMiddleBeat(s: NovelSettings, id: string, title: Option<string>, detail: Option<string>): (r: NovelSettings)
    ensures r.(middleBeats := s.middleBeats) == s && |r.middleBeats| == |s.middleBeats|
    ensures forall i :: 0 <= i < |s.middleBeats| ==>
      r.middleBeats[i] == if s.middleBeats[i].id == id then SetBeat(s.middleBeats[i], title, detail) else s.middleBeats[i]
  {
    s.(middleBeats := UpdateById(s.middleBeats, id, BeatId, (b: PlotBeat) => SetBeat(b, title, detail)))
  }

  /** The title and detail inputs of a subplot. */
  function EditSubplot(s: NovelSettings, id: string, title: Option<string>, detail: Option<string>): (r: NovelSettings)
    ensures r.(subplots := s.subplots) == s && |r.subplots| == |s.subplots|
    ensures forall i :: 0 <= i < |s.subplots| ==>
      r.subplots[i] == if s.subplots[i].id == id then SetBeat(s.subplots[i], title, detail) else s.subplots[i]
  {
    s.(subplots := UpdateById(s.subplots, id, BeatId, (b: PlotBeat) => SetBeat(b, title, detail)))
  }

  function SetBeat(b: PlotBeat, title: Option<string>, detail: Option<string>): PlotBeat {
    b.(title := title.GetOr(b.title), detail := detail.GetOr(b.detail))
  }

  /** A taboo's text area. */
  function EditTaboo(s: NovelSettings, id: string, content: string): (r: NovelSettings)
    ensures r.(taboos := s.taboos) == s && |r.taboos| == |s.taboos|
    ensures forall i :: 0 <= i < |s.taboos| ==>
      r.taboos[i] == if s.taboos[i].id == id then s.taboos[i].(content := content) else s.taboos[i]
  {
    s.(taboos := UpdateById(s.taboos, id, TabooId, (t: TabooRule) => t.(content := content)))
  }

  /** A reference work's title and inspiration inputs. */
  function EditReference(s: NovelSettings, id: string, title: Option<string>, inspiration: Option<string>): (r: NovelSettings)
    ensures r.(references := s.references) == s && |r.references| == |s.references|
    ensures forall i :: 0 <= i < |s.references| ==>
      r.references[i] == if s.references[i].id == id
                         then s.references[i].(title := title.GetOr(s.references[i].title),
                                               inspiration := inspiration.GetOr(s.references[i].inspiration))
                         else s.references[i]
  {
    s.(references := UpdateById(s.references, id, ReferenceId,
      (w: ReferenceWork) => w.(title := title.GetOr(w.title), inspiration := inspiration.GetOr(w.inspiration))))
  }

  // ---------------------------------------------------------------- personality tags

  /** The tag input's separators: ASCII and full-width commas, the ideographic comma, white space. */
  predicate IsTagSeparator(c: char) {
    c == ',' || c == '，' || c == '、' || IsWhitespace(c)
  }

  predicate NoSeparator(t: string) {
    NoSep(t, IsTagSeparator)
  }

  predicate IsTag(t: string) {
    t != "" && NoSeparator(t)
  }

  /** `.map(t => t.trim())`. */
  function TrimEach(pieces: seq<string>): (r: seq<string>)
    ensures |r| == |pieces|
    ensures forall i :: 0 <= i < |r| ==> r[i] == Trim(pieces[i])
  {
    seq(|pieces|, i requires 0 <= i < |pieces| => Trim(pieces[i]))
  }

  /** A piece without separators has no white space for `trim` to remove. */
  lemma TrimPiece(t: string)
    requires NoSeparator(t)
    ensures Trim(t) == t
  {
    assert forall i :: 0 <= i < |t| ==> !IsTagSeparator(t[i]);
    TrimNoWhitespace(t);
  }

  lemma TrimEachPieces(pieces: seq<string>)
    requires forall i :: 0 <= i < |pieces| ==> NoSeparator(pieces[i])
    ensures TrimEach(pieces) == pieces
  {
    forall i | 0 <= i < |pieces| ensures Trim(pieces[i]) == pieces[i] {
      TrimPiece(pieces[i]);
    }
  }

  /** The personality-tag input: the text split on runs of separators, each piece trimmed, empty
      pieces dropped (`.filter(Boolean)`). Splitting at every separator character and dropping the
      empty pieces gives the same list as splitting on runs of them. */
  function SplitTags(value: string): (tags: seq<string>)
    ensures forall i :: 0 <= i < |tags| ==> IsTag(tags[i])
  {
    var pieces := SplitBy(value, IsTagSeparator);
    TrimEachPieces(pieces);
    RemoveAll(TrimEach(pieces), "")
  }

  /** Joining tags with 、 and splitting at every separator gives the tags back. */
  lemma {:induction false} SplitJoinedTags(tags: seq<string>)
    requires |tags| >= 1 && forall i :: 0 <= i < |tags| ==> NoSeparator(tags[i])
    ensures SplitBy(Join(tags, "、"), IsTagSeparator) == tags
    decreases |tags|
  {
    if |tags| == 1 {
      SplitByNoSep(tags[0], IsTagSeparator);
    } else {
      var rest := Join(tags[1..], "、");
      assert Join(tags, "、") == tags[0] + "、" + rest;
      assert tags[0] + "、" + rest == tags[0] + ['、'] + rest;
      SplitByAfterWord(tags[0], '、', rest, IsTagSeparator);
      SplitJoinedTags(tags[1..]);
      assert tags == [tags[0]] + tags[1..];
    }
  }

  /** The input shows `tags.join("、")`; typing that text back gives the same tags. */
  lemma SplitTagsOfJoin(tags: seq<string>)
    requires forall i :: 0 <= i < |tags| ==> IsTag(tags[i])
    ensures SplitTags(Join(tags, "、")) == tags
  {
    if tags != [] {
      SplitJoinedTags(tags);
      TrimEachPieces(tags);
      assert "" !in tags;
    }
  }

  /** The tag input of one side character. */
  function SetPersonalityTags(s: NovelSettings, id: string, value: string): (r: NovelSettings)
    ensures r.(sideCharacters := s.sideCharacters) == s && |r.sideCharacters| == |s.sideCharacters|
    ensures forall i :: 0 <= i < |s.sideCharacters| ==>
      r.sideCharacters[i] == if s.sideCharacters[i].id == id
                             then s.sideCharacters[i].(personalityTags := SplitTags(value))
                             else s.sideCharacters[i]
  {
    s.(sideCharacters := UpdateById(s.sideCharacters, id, CharacterId, (c: Character) => c.(personalityTags := SplitTags(value))))
  }

  // ---------------------------------------------------------------- restore / import merge

  datatype PartialMain = PartialMain(name: Option<string>, gender: Option<string>, age: Option<string>, personality: Option<string>)

  datatype PartialWorld = PartialWorld(
    powerSystem: Option<string>, factions: Option<string>, historyEvents: Option<string>,
    importantLocations: Option<string>, cultureAndTaboos: Option<string>)

  datatype PartialStyle = PartialStyle(
    narration: Option<string>, tones: Option<seq<string>>, cheatLevel: Option<string>,
    focusAreas: Option<seq<string>>, wordsPerChapter: Option<int>, temperature: Option<real>)

  /** A parsed settings object: each field present (`Some`) or absent (`None`). */
  datatype PartialSettings = PartialSettings(
    genres: Option<seq<string>>, oneLinePitch: Option<string>,
    mainCharacter: Option<PartialMain>,
    sideCharacters: Option<seq<Character>>, antagonists: Option<seq<Antagonist>>,
    worldSummary: Option<string>, conflictTheme: Option<string>, worldDetails: Option<PartialWorld>,
    opening: Option<string>, middleBeats: Option<seq<PlotBeat>>, endingType: Option<string>,
    subplots: Option<seq<PlotBeat>>,
    writingStyle: Option<PartialStyle>,
    totalWords: Option<int>, chapterWords: Option<int>,
    nsfw: Option<bool>, systemNovel: Option<bool>, harem: Option<bool>,
    taboos: Option<seq<TabooRule>>, references: Option<seq<ReferenceWork>>)

  const NoFields: PartialSettings := PartialSettings(
    None, None, None, None, None, None, None, None, None, None,
    None, None, None, None, None, None, None, None, None, None)

  /** The object `JSON.stringify(s)` describes, every field present. */
  function Exported(s: NovelSettings): PartialSettings {
    var m := s.mainCharacter;
    var w := s.worldDetails;
    var y := s.writingStyle;
    PartialSettings(
      Some(s.genres), Some(s.oneLinePitch),
      Some(PartialMain(Some(m.name), Some(m.gender), Some(m.age), Some(m.personality))),
      Some(s.sideCharacters), Some(s.antagonists),
      Some(s.worldSummary), Some(s.conflictTheme),
      Some(PartialWorld(Some(w.powerSystem), Some(w.factions), Some(w.historyEvents),
                        Some(w.importantLocations), Some(w.cultureAndTaboos))),
      Some(s.opening), Some(s.middleBeats), Some(s.endingType), Some(s.subplots),
      Some(PartialStyle(Some(y.narration), Some(y.tones), Some(y.cheatLevel), Some(y.focusAreas),
                        Some(y.wordsPerChapter), Some(y.temperature))),
      Some(s.totalWords), Some(s.chapterWords), Some(s.nsfw), Some(s.systemNovel), Some(s.harem),
      Some(s.taboos), Some(s.references))
  }

  /** The merge rule of one field: a present value wins, an absent one keeps the previous value. */
  predicate Merged<T(==)>(field: Option<T>, prev: T, now: T) {
    (field.Some? ==> now == field.value) && (field.None? ==> now == prev)
  }

  function MergeMain(prev: MainCharacter, p: Option<PartialMain>): (r: MainCharacter)
    ensures p.None? ==> r == prev
    ensures p.Some? ==> Merged(p.value.name, prev.name, r.name) && Merged(p.value.gender, prev.gender, r.gender)
                        && Merged(p.value.age, prev.age, r.age)
                        && Merged(p.value.personality, prev.personality, r.personality)
  {
    match p
    case None => prev
    case Some(q) =>
      MainCharacter(q.name.GetOr(prev.name), q.gender.GetOr(prev.gender),
                    q.age.GetOr(prev.age), q.personality.GetOr(prev.personality))
  }

  function MergeWorld(prev: WorldDetails, p: Option<PartialWorld>): (r: WorldDetails)
    ensures p.None? ==> r == prev
    ensures p.Some? ==> Merged(p.value.powerSystem, prev.powerSystem, r.powerSystem)
                        && Merged(p.value.factions, prev.factions, r.factions)
                        && Merged(p.value.historyEvents, prev.historyEvents, r.historyEvents)
                        && Merged(p.value.importantLocations, prev.importantLocations, r.importantLocations)
                        && Merged(p.value.cultureAndTaboos, prev.cultureAndTaboos, r.cultureAndTaboos)
  {
    match p
    case None => prev
    case Some(q) =>
      WorldDetails(q.powerSystem.GetOr(prev.powerSystem), q.factions.GetOr(prev.factions),
                   q.historyEvents.GetOr(prev.historyEvents),
                   q.importantLocations.GetOr(prev.importantLocations),
                   q.cultureAndTaboos.GetOr(prev.cultureAndTaboos))
  }

  function MergeStyle(prev: WritingStyle, p: Option<PartialStyle>): (r: WritingStyle)
    ensures p.None? ==> r == prev
    ensures p.Some? ==> Merged(p.value.narration, prev.narration, r.narration)
                        && Merged(p.value.tones, prev.tones, r.tones)
                        && Merged(p.value.cheatLevel, prev.cheatLevel, r.cheatLevel)
                        && Merged(p.value.focusAreas, prev.focusAreas, r.focusAreas)
                        && Merged(p.value.wordsPerChapter, prev.wordsPerChapter, r.wordsPerChapter)
                        && Merged(p.value.temperature, prev.temperature, r.temperature)
  {
    match p
    case None => prev
    case Some(q) =>
      WritingStyle(q.narration.GetOr(prev.narration), q.tones.GetOr(prev.tones),
                   q.cheatLevel.GetOr(prev.cheatLevel), q.focusAreas.GetOr(prev.focusAreas),
                   q.wordsPerChapter.GetOr(prev.wordsPerChapter), q.temperature.GetOr(prev.temperature))
  }

  /** The restore and import merge `{...prev, ...parsed}` with the three nested objects merged
      field by field: a present field wins, an absent one keeps the previous value. */
  function MergeSettings(prev: NovelSettings, p: PartialSettings): (r: NovelSettings)
    ensures p == NoFields ==> r == prev
    ensures Merged(p.genres, prev.genres, r.genres) && Merged(p.oneLinePitch, prev.oneLinePitch, r.oneLinePitch)
    ensures r.mainCharacter == MergeMain(prev.mainCharacter, p.mainCharacter)
    ensures Merged(p.sideCharacters, prev.sideCharacters, r.sideCharacters)
            && Merged(p.antagonists, prev.antagonists, r.antagonists)
    ensures Merged(p.worldSummary, prev.worldSummary, r.worldSummary)
            && Merged(p.conflictTheme, prev.conflictTheme, r.conflictTheme)
    ensures r.worldDetails == MergeWorld(prev.worldDetails, p.worldDetails)
    ensures Merged(p.opening, prev.opening, r.opening) && Merged(p.middleBeats, prev.middleBeats, r.middleBeats)
            && Merged(p.endingType, prev.endingType, r.endingType) && Merged(p.subplots, prev.subplots, r.subplots)
    ensures r.writingStyle == MergeStyle(prev.writingStyle, p.writingStyle)
    ensures Merged(p.totalWords, prev.totalWords, r.totalWords) && Merged(p.chapterWords, prev.chapterWords, r.chapterWords)
    ensures Merged(p.nsfw, prev.nsfw, r.nsfw) && Merged(p.systemNovel, prev.systemNovel, r.systemNovel)
            && Merged(p.harem, prev.harem, r.harem)
    ensures Merged(p.taboos, prev.taboos, r.taboos) && Merged(p.references, prev.references, r.references)
  {
    NovelSettings(
      p.genres.GetOr(prev.genres), p.oneLinePitch.GetOr(prev.oneLinePitch),
      MergeMain(prev.mainCharacter, p.mainCharacter),
      p.sideCharacters.GetOr(prev.sideCharacters), p.antagonists.GetOr(prev.antagonists),
      p.worldSummary.GetOr(prev.worldSummary), p.conflictTheme.GetOr(prev.conflictTheme),
      MergeWorld(prev.worldDetails, p.worldDetails),
      p.opening.GetOr(prev.opening), p.middleBeats.GetOr(prev.middleBeats),
      p.endingType.GetOr(prev.endingType), p.subplots.GetOr(prev.subplots),
      MergeStyle(prev.writingStyle, p.writingStyle),
      p.totalWords.GetOr(prev.totalWords), p.chapterWords.GetOr(prev.chapterWords),
      p.nsfw.GetOr(prev.nsfw), p.systemNovel.GetOr(prev.systemNovel), p.harem.GetOr(prev.harem),
      p.taboos.GetOr(prev.taboos), p.references.GetOr(prev.references))
  }

  /** Restoring an exported settings object gives it back, whatever was there before. */
  lemma MergeExported(prev: NovelSettings, s: NovelSettings)
    ensures MergeSettings(prev, Exported(s)) == s
  {
  }

  // ---------------------------------------------------------------- buildPrompt

  /** JavaScript's `a || b` on strings: the empty string is falsy. */
  function Or(a: string, b: string): string {
    if a != "" then a else b
  }

  /** The `${idx + 1}. ` prefix of a numbered item. */
  function Num(idx: nat): string {
    NatToString(idx + 1) + ". "
  }

  /** The relation shown for a character: the custom text first, then the chosen one. */
  function RelationText(c: Character): (r: string)
    ensures c.relationshipCustom != "" ==> r == c.relationshipCustom
    ensures c.relationshipCustom == "" && c.relationship != "" ==> r == c.relationship
    ensures c.relationshipCustom == "" && c.relationship == "" ==> r == "未填写关系"
  {
    Or(c.relationshipCustom, Or(c.relationship, "未填写关系"))
  }

  /** The arc shown for a character: the custom text first, then the chosen one. */
  function ArcText(c: Character): (r: string)
    ensures c.arcCustom != "" ==> r == c.arcCustom
    ensures c.arcCustom == "" && c.arc != "" ==> r == c.arc
    ensures c.arcCustom == "" && c.arc == "" ==> r == "未填写"
  {
    Or(c.arcCustom, Or(c.arc, "未填写"))
  }

  function TagsText(c: Character): string {
    Or(Join(c.personalityTags, "、"), "未填写性格")
  }

  function CharacterLine(idx: nat, c: Character): string {
    Num(idx) + CharacterText(c)
  }

  function CharacterText(c: Character): string {
    Or(c.name, "未命名") + "（" + RelationText(c) + "）：性格【" + TagsText(c) + "】，背景【"
    + Or(c.background, "未填写") + "】，能力/弱点【" + Or(c.abilities, "未填写") + "】，故事作用【"
    + Or(c.role, "未填写") + "】，人物弧光【" + ArcText(c) + "】"
  }

  function AntagonistLine(idx: nat, a: Antagonist): string {
    Num(idx) + AntagonistText(a)
  }

  function AntagonistText(a: Antagonist): string {
    var c := a.base;
    Or(c.name, "未命名") + "（" + RelationText(c) + "）：性格【" + TagsText(c) + "】，背景【"
    + Or(c.background, "未填写") + "】，能力/弱点【" + Or(c.abilities, "未填写") + "】，动机【"
    + Or(a.motive, "未填写") + "】，最终下场【" + Or(a.fate, "未填写") + "】，人物弧光【" + ArcText(c) + "】"
  }

  function MiddleBeatLine(idx: nat, b: PlotBeat): string {
    Num(idx) + Or(b.title, "未命名节点") + "：" + Or(b.detail, "未填写")
  }

  function SubplotLine(idx: nat, b: PlotBeat): string {
    Num(idx) + Or(b.title, "未命名副线") + "：" + Or(b.detail, "未填写")
  }

  function ReferenceLine(idx: nat, w: ReferenceWork): string {
    Num(idx) + ReferenceText(w)
  }

  function ReferenceText(w: ReferenceWork): string {
    "《" + Or(w.title, "未命名") + "》：" + Or(w.inspiration, "未填写借鉴点")
  }

  /** `xs.forEach((x, idx) => lines.push(render(idx, x)))`: one line per item, numbered by position. */
  function Numbered<T>(xs: seq<T>, render: (nat, T) -> string): (r: seq<string>)
    ensures |r| == |xs|
    ensures forall i :: 0 <= i < |xs| ==> r[i] == render(i, xs[i])
  {
    seq(|xs|, i requires 0 <= i < |xs| => render(i, xs[i]))
  }

  /** The taboo lines: a blank taboo is skipped, but the others keep their position as number. */
  function TabooLines(ts: seq<TabooRule>): seq<string>
    decreases |ts|
  {
    if ts == [] then []
    else
      var n := |ts| - 1;
      var body := Trim(ts[n].content);
      TabooLines(ts[..n]) + (if body != "" then [Num(n) + body] else [])
  }

  const PromptIntro := "你现在是一名经验丰富的中文网络小说作者，请严格按照以下设定创作："
  const PromptClosing := "请在创作过程中严格遵守以上所有设定，保证人物行为、世界观规则和情节发展前后一致。"

  function HeaderLines(s: NovelSettings): seq<string> {
    var m := s.mainCharacter;
    [PromptIntro, "", "【作品信息】",
     "题材：" + Or(Join(s.genres, "、"), "未指定"),
     "一句话简介：" + Or(s.oneLinePitch, "未填写"),
     "", "【主角设定】",
     "姓名：" + Or(m.name, "未命名") + "，性别：" + m.gender + "，年龄：" + Or(m.age, "未知")
     + "，性格：" + Or(m.personality, "未填写"),
     ""]
  }

  function SideSection(s: NovelSettings): seq<string> {
    if s.sideCharacters == [] then [] else ["【配角设定】"] + Numbered(s.sideCharacters, CharacterLine) + [""]
  }

  function AntagonistSection(s: NovelSettings): seq<string> {
    if s.antagonists == [] then [] else ["【反派 / 敌人】"] + Numbered(s.antagonists, AntagonistLine) + [""]
  }

  function WorldLines(s: NovelSettings): seq<string> {
    var w := s.worldDetails;
    ["【世界观与规则】",
     "整体背景：" + Or(s.worldSummary, "未填写"),
     "核心冲突 / 主题：" + Or(s.conflictTheme, "未填写"),
     "力量 / 科技 / 修炼体系：" + Or(w.powerSystem, "未填写"),
     "社会结构与势力：" + Or(w.factions, "未填写"),
     "历史重大事件：" + Or(w.historyEvents, "未填写"),
     "重要地点：" + Or(w.importantLocations, "未填写"),
     "文化习俗与禁忌：" + Or(w.cultureAndTaboos, "未填写"),
     ""]
  }

  function MiddleBeatSection(s: NovelSettings): seq<string> {
    if s.middleBeats == [] then [] else ["中段高潮与关键转折："] + Numbered(s.middleBeats, MiddleBeatLine)
  }

  function SubplotSection(s: NovelSettings): seq<string> {
    if s.subplots == [] then [] else ["主要副线："] + Numbered(s.subplots, SubplotLine)
  }

  function PlotLines(s: NovelSettings): seq<string> {
    ["【情节大纲】", "开头（前 30%）：" + Or(s.opening, "未填写")]
    + MiddleBeatSection(s) + SubplotSection(s)
    + ["结局类型：" + Or(s.endingType, "未指定"), ""]
  }

  /** The words budget line; `showReal` is how JavaScript prints the temperature. */
  function BudgetLine(s: NovelSettings, showReal: real -> string): string {
    "建议篇幅：全书约 " + IntToString(s.totalWords) + " 字，每章约 " + IntToString(s.writingStyle.wordsPerChapter)
    + " 字，temperature≈" + showReal(s.writingStyle.temperature)
  }

  function FlagLines(s: NovelSettings): seq<string> {
    (if s.nsfw then ["允许适度 NSFW 内容。"] else [])
    + (if s.systemNovel then ["这是系统文，主角拥有类似面板/系统等金手指。"] else [])
    + (if s.harem then ["允许存在后宫元素。"] else [])
  }

  function StyleLines(s: NovelSettings, showReal: real -> string): seq<string> {
    var y := s.writingStyle;
    ["【写作风格与重点】",
     "叙述视角：" + y.narration,
     "整体语气：" + Or(Join(y.tones, "、"), "未指定"),
     "金手指程度：" + y.cheatLevel,
     "重点描写内容：" + Or(Join(y.focusAreas, "、"), "未指定"),
     BudgetLine(s, showReal)]
    + FlagLines(s) + [""]
  }

  function TabooSection(s: NovelSettings): seq<string> {
    if s.taboos == [] then [] else ["【写作禁忌】"] + TabooLines(s.taboos) + [""]
  }

  function ReferenceSection(s: NovelSettings): seq<string> {
    if s.references == [] then [] else ["【参考作品与借鉴点】"] + Numbered(s.references, ReferenceLine) + [""]
  }

  /** The lines of the prompt `buildPrompt` copies to the clipboard, section by section. */
  function PromptLines(s: NovelSettings, showReal: real -> string): seq<string> {
    HeaderLines(s) + SideSection(s) + AntagonistSection(s) + WorldLines(s) + PlotLines(s)
    + StyleLines(s, showReal) + TabooSection(s) + ReferenceSection(s) + [PromptClosing]
  }

  /** One `forEach` of `buildPrompt`: a numbered line pushed per item. */
  method PushNumbered<T>(lines: seq<string>, xs: seq<T>, render: (nat, T) -> string) returns (out: seq<string>)
    ensures out == lines + Numbered(xs, render)
  {
    out := lines;
    var i := 0;
    while i < |xs|
      invariant 0 <= i <= |xs|
      invariant out == lines + Numbered(xs[..i], render)
    {
      assert Numbered(xs[..i + 1], render) == Numbered(xs[..i], render) + [render(i, xs[i])];
      out := out + [render(i, xs[i])];
      i := i + 1;
    }
    assert xs[..|xs|] == xs;
  }

  /** The last taboo's contribution, peeled off the prefix. */
  lemma TabooLinesSnoc(ts: seq<TabooRule>, i: nat)
    requires i < |ts|
    ensures TabooLines(ts[..i + 1]) == TabooLines(ts[..i])
      + (if Trim(ts[i].content) != "" then [Num(i) + Trim(ts[i].content)] else [])
  {
    assert ts[..i + 1][..i] == ts[..i];
    assert ts[..i + 1][i] == ts[i];
  }

  /** The taboo loop of `buildPrompt`: a line is pushed only for a taboo whose trimmed text is non-empty. */
  method PushTaboos(lines: seq<string>, ts: seq<TabooRule>) returns (out: seq<string>)
    ensures out == lines + TabooLines(ts)
  {
    out := lines;
    var i := 0;
    while i < |ts|
      invariant 0 <= i <= |ts|
      invariant out == lines + TabooLines(ts[..i])
    {
      var body := Trim(ts[i].content);
      TabooLinesSnoc(ts, i);
      if body != "" {
        out := out + [Num(i) + body];
      }
      i := i + 1;
    }
    assert ts[..|ts|] == ts;
  }

  method PushSideSection(lines: seq<string>, s: NovelSettings) returns (out: seq<string>)
    ensures out == lines + SideSection(s)
  {
    out := lines;
    if |s.sideCharacters| > 0 {
      out := out + ["【配角设定】"];
      out := PushNumbered(out, s.sideCharacters, CharacterLine);
      out := out + [""];
    }
  }

  method PushAntagonistSection(lines: seq<string>, s: NovelSettings) returns (out: seq<string>)
    ensures out == lines + AntagonistSection(s)
  {
    out := lines;
    if |s.antagonists| > 0 {
      out := out + ["【反派 / 敌人】"];
      out := PushNumbered(out, s.antagonists, AntagonistLine);
      out := out + [""];
    }
  }

  method PushMiddleBeatSection(lines: seq<string>, s: NovelSettings) returns (out: seq<string>)
    ensures out == lines + MiddleBeatSection(s)
  {
    out := lines;
    if |s.middleBeats| > 0 {
      out := out + ["中段高潮与关键转折："];
      out := PushNumbered(out, s.middleBeats, MiddleBeatLine);
    }
  }

  method PushSubplotSection(lines: seq<string>, s: NovelSettings) returns (out: seq<string>)
    ensures out == lines + SubplotSection(s)
  {
    out := lines;
    if |s.subplots| > 0 {
      out := out + ["主要副线："];
      out := PushNumbered(out, s.subplots, SubplotLine);
    }
  }

  method PushPlotLines(lines: seq<string>, s: NovelSettings) returns (out: seq<string>)
    ensures out == lines + PlotLines(s)
  {
    var head := ["【情节大纲】", "开头（前 30%）：" + Or(s.opening, "未填写")];
    var tail := ["结局类型：" + Or(s.endingType, "未指定"), ""];
    out := lines + head;
    out := PushMiddleBeatSection(out, s);
    out := PushSubplotSection(out, s);
    out := out + tail;
    Regroup(lines, head, MiddleBeatSection(s), SubplotSection(s), tail);
  }

  lemma Regroup<T>(a: seq<T>, b: seq<T>, c: seq<T>, d: seq<T>, e: seq<T>)
    ensures a + b + c + d + e == a + (b + c + d + e)
  {
  }

  method PushStyleLines(lines: seq<string>, s: NovelSettings, showReal: real -> string) returns (out: seq<string>)
    ensures out == lines + StyleLines(s, showReal)
  {
    var y := s.writingStyle;
    out := lines + ["【写作风格与重点】", "叙述视角：" + y.narration,
                    "整体语气：" + Or(Join(y.tones, "、"), "未指定"), "金手指程度：" + y.cheatLevel,
                    "重点描写内容：" + Or(Join(y.focusAreas, "、"), "未指定"), BudgetLine(s, showReal)];
    if s.nsfw { out := out + ["允许适度 NSFW 内容。"]; }
    if s.systemNovel { out := out + ["这是系统文，主角拥有类似面板/系统等金手指。"]; }
    if s.harem { out := out + ["允许存在后宫元素。"]; }
    out := out + [""];
  }

  method PushTabooSection(lines: seq<string>, s: NovelSettings) returns (out: seq<string>)
    ensures out == lines + TabooSection(s)
  {
    out := lines;
    if |s.taboos| > 0 {
      out := out + ["【写作禁忌】"];
      out := PushTaboos(out, s.taboos);
      out := out + [""];
    }
  }

  method PushReferenceSection(lines: seq<string>, s: NovelSettings) returns (out: seq<string>)
    ensures out == lines + ReferenceSection(s)
  {
    out := lines;
    if |s.references| > 0 {
      out := out + ["【参考作品与借鉴点】"];
      out := PushNumbered(out, s.references, ReferenceLine);
      out := out + [""];
    }
  }

  /** `buildPrompt`: the lines pushed section after section and joined with line feeds. */
  method BuildPrompt(s: NovelSettings, showReal: real -> string) returns (text: string)
    ensures text == Join(PromptLines(s, showReal), "\n")
  {
    var lines: seq<string> := HeaderLines(s);
    lines := PushSideSection(lines, s);
    lines := PushAntagonistSection(lines, s);
    lines := lines + WorldLines(s);
    lines := PushPlotLines(lines, s);
    lines := PushStyleLines(lines, s, showReal);
    lines := PushTabooSection(lines, s);
    lines := PushReferenceSection(lines, s);
    lines := lines + [PromptClosing];
    text := Join(lines, "\n");
  }

  /** The taboo lines as the source's loop reads: each taboo mapped by its index to its numbered
      trimmed text, or to nothing when blank, and the nothings dropped. */
  function TabooLineOrSkip(idx: nat, t: TabooRule): string {
    var body := Trim(t.content);
    if body == "" then "" else Num(idx) + body
  }

  lemma {:induction false} TabooLinesFilter(ts: seq<TabooRule>)
    ensures TabooLines(ts) == RemoveAll(Numbered(ts, TabooLineOrSkip), "")
    decreases |ts|
  {
    if ts != [] {
      var n := |ts| - 1;
      var last := TabooLineOrSkip(n, ts[n]);
      TabooLinesFilter(ts[..n]);
      NumberedSnoc(ts, TabooLineOrSkip);
      RemoveAllSnoc(Numbered(ts[..n], TabooLineOrSkip), last, "");
      assert (if last == "" then [] else [last]) == (if Trim(ts[n].content) != "" then [Num(n) + Trim(ts[n].content)] else []) by {
        assert |Num(n)| > 0;
      }
    }
  }

  lemma NumberedSnoc<T>(xs: seq<T>, render: (nat, T) -> string)
    requires xs != []
    ensures Numbered(xs, render) == Numbered(xs[..|xs| - 1], render) + [render(|xs| - 1, xs[|xs| - 1])]
  {
    var n := |xs| - 1;
    assert forall i :: 0 <= i < n ==> xs[..n][i] == xs[i];
  }

  /** A blank taboo between two others: no line for it, and the third taboo keeps number 3. */
  lemma TabooNumberingSkips(a: string, b: string)
    requires a != "" && b != "" && NoSeparator(a) && NoSeparator(b)
    ensures TabooLines([TabooRule("1", a), TabooRule("2", " "), TabooRule("3", b)]) == ["1. " + a, "3. " + b]
  {
    var ts := [TabooRule("1", a), TabooRule("2", " "), TabooRule("3", b)];
    TrimPiece(a);
    TrimPiece(b);
    TrimEmptyIff(" ");
    assert NatToString(1) == "1" && NatToString(3) == "3";
    assert ts[..1][..0] == [] && ts[..1][0].content == a;
    assert Num(0) + a == "1. " + a;
    assert TabooLines(ts[..1]) == ["1. " + a];
    assert ts[..2][..1] == ts[..1] && ts[..2][1].content == " ";
    assert TabooLines(ts[..2]) == ["1. " + a];
    assert Num(2) + b == "3. " + b;
    assert TabooLines(ts) == TabooLines(ts[..2]) + [Num(2) + b];
  }

  /** The optional sections: each is present exactly when its list is non-empty, and then holds a
      heading and one line per item, the item at position k numbered k + 1. */
  lemma OptionalSections(s: NovelSettings)
    ensures SideSection(s) == [] <==> s.sideCharacters == []
    ensures AntagonistSection(s) == [] <==> s.antagonists == []
    ensures MiddleBeatSection(s) == [] <==> s.middleBeats == []
    ensures SubplotSection(s) == [] <==> s.subplots == []
    ensures TabooSection(s) == [] <==> s.taboos == []
    ensures ReferenceSection(s) == [] <==> s.references == []
    ensures s.sideCharacters != [] ==>
      |SideSection(s)| == |s.sideCharacters| + 2 && SideSection(s)[0] == "【配角设定】" &&
      forall k :: 0 <= k < |s.sideCharacters| ==>
        SideSection(s)[k + 1] == NatToString(k + 1) + ". " + CharacterText(s.sideCharacters[k])
    ensures s.antagonists != [] ==>
      |AntagonistSection(s)| == |s.antagonists| + 2 && AntagonistSection(s)[0] == "【反派 / 敌人】" &&
      forall k :: 0 <= k < |s.antagonists| ==>
        AntagonistSection(s)[k + 1] == NatToString(k + 1) + ". " + AntagonistText(s.antagonists[k])
    ensures s.references != [] ==>
      |ReferenceSection(s)| == |s.references| + 2 && ReferenceSection(s)[0] == "【参考作品与借鉴点】" &&
      forall k :: 0 <= k < |s.references| ==>
        ReferenceSection(s)[k + 1] == NatToString(k + 1) + ". " + ReferenceText(s.references[k])
  {
    SideSectionShape(s);
    AntagonistSectionShape(s);
    ReferenceSectionShape(s);
  }

  lemma SideSectionShape(s: NovelSettings)
    ensures s.sideCharacters != [] ==>
      |SideSection(s)| == |s.sideCharacters| + 2 && SideSection(s)[0] == "【配角设定】" &&
      forall k :: 0 <= k < |s.sideCharacters| ==>
        SideSection(s)[k + 1] == NatToString(k + 1) + ". " + CharacterText(s.sideCharacters[k])
  {
  }

  lemma AntagonistSectionShape(s: NovelSettings)
    ensures s.antagonists != [] ==>
      |AntagonistSection(s)| == |s.antagonists| + 2 && AntagonistSection(s)[0] == "【反派 / 敌人】" &&
      forall k :: 0 <= k < |s.antagonists| ==>
        AntagonistSection(s)[k + 1] == NatToString(k + 1) + ". " + AntagonistText(s.antagonists[k])
  {
  }

  lemma ReferenceSectionShape(s: NovelSettings)
    ensures s.references != [] ==>
      |ReferenceSection(s)| == |s.references| + 2 && ReferenceSection(s)[0] == "【参考作品与借鉴点】" &&
      forall k :: 0 <= k < |s.references| ==>
        ReferenceSection(s)[k + 1] == NatToString(k + 1) + ". " + ReferenceText(s.references[k])
  {
  }

  lemma DefaultNumbers()
    ensures NatToString(100000) == "100000" && NatToString(3000) == "3000"
  {
    assert NatToString(10) == "10";
    assert NatToString(100) == "100";
    assert NatToString(1000) == "1000";
    assert NatToString(10000) == "10000";
    assert NatToString(30) == "30";
    assert NatToString(300) == "300";
  }

  lemma DefaultHeader()
    ensures HeaderLines(DefaultNovelSettings()) ==
      [PromptIntro, "", "【作品信息】", "题材：未指定", "一句话简介：未填写", "", "【主角设定】",
       "姓名：未命名，性别：男，年龄：未知，性格：未填写", ""]
  {
    assert "题材：" + Or(Join([], "、"), "未指定") == "题材：未指定";
    assert "一句话简介：" + Or("", "未填写") == "一句话简介：未填写";
    assert "姓名：" + Or("", "未命名") + "，性别：" + "男" + "，年龄：" + Or("", "未知") + "，性格：" + Or("", "未填写")
      == "姓名：未命名，性别：男，年龄：未知，性格：未填写";
  }

  lemma DefaultWorld()
    ensures WorldLines(DefaultNovelSettings()) ==
      ["【世界观与规则】", "整体背景：未填写", "核心冲突 / 主题：未填写", "力量 / 科技 / 修炼体系：未填写",
       "社会结构与势力：未填写", "历史重大事件：未填写", "重要地点：未填写", "文化习俗与禁忌：未填写", ""]
  {
    assert "整体背景：" + Or("", "未填写") == "整体背景：未填写";
    assert "核心冲突 / 主题：" + Or("", "未填写") == "核心冲突 / 主题：未填写";
    assert "力量 / 科技 / 修炼体系：" + Or("", "未填写") == "力量 / 科技 / 修炼体系：未填写";
    assert "社会结构与势力：" + Or("", "未填写") == "社会结构与势力：未填写";
    assert "历史重大事件：" + Or("", "未填写") == "历史重大事件：未填写";
    assert "重要地点：" + Or("", "未填写") == "重要地点：未填写";
    assert "文化习俗与禁忌：" + Or("", "未填写") == "文化习俗与禁忌：未填写";
  }

  lemma DefaultPlot()
    ensures PlotLines(DefaultNovelSettings()) == ["【情节大纲】", "开头（前 30%）：未填写", "结局类型：未指定", ""]
  {
    var d := DefaultNovelSettings();
    assert MiddleBeatSection(d) == [] && SubplotSection(d) == [];
    assert "开头（前 30%）：" + Or("", "未填写") == "开头（前 30%）：未填写";
    assert "结局类型：" + Or("", "未指定") == "结局类型：未指定";
  }

  /** The literal pieces of the budget line of the default settings, joined. */
  lemma BudgetText()
    ensures "建议篇幅：全书约 " + "100000" + " 字，每章约 " + "3000" + " 字，temperature≈"
      == "建议篇幅：全书约 100000 字，每章约 3000 字，temperature≈"
  {
    var w := "建议篇幅：全书约 " + "100000";
    assert w == "建议篇幅：全书约 100000";
    var x := w + " 字，每章约 ";
    assert x == "建议篇幅：全书约 100000 字，每章约 ";
    var y := x + "3000";
    assert y == "建议篇幅：全书约 100000 字，每章约 3000";
  }

  lemma DefaultBudget(showReal: real -> string)
    ensures BudgetLine(DefaultNovelSettings(), showReal) == "建议篇幅：全书约 100000 字，每章约 3000 字，temperature≈" + showReal(0.7)
  {
    DefaultNumbers();
    var d := DefaultNovelSettings();
    assert IntToString(d.totalWords) == "100000" && IntToString(d.writingStyle.wordsPerChapter) == "3000";
    BudgetText();
  }

  lemma DefaultStyle(showReal: real -> string)
    ensures StyleLines(DefaultNovelSettings(), showReal) ==
      ["【写作风格与重点】", "叙述视角：第三人称有限", "整体语气：未指定", "金手指程度：稳步成长", "重点描写内容：未指定",
       "建议篇幅：全书约 100000 字，每章约 3000 字，temperature≈" + showReal(0.7), ""]
  {
    var d := DefaultNovelSettings();
    var y := d.writingStyle;
    assert Join([], "、") == "";
    assert Or(Join(y.tones, "、"), "未指定") == "未指定";
    assert Or(Join(y.focusAreas, "、"), "未指定") == "未指定";
    assert "叙述视角：" + "第三人称有限" == "叙述视角：第三人称有限";
    assert "整体语气：" + "未指定" == "整体语气：未指定";
    assert "金手指程度：" + "稳步成长" == "金手指程度：稳步成长";
    assert "重点描写内容：" + "未指定" == "重点描写内容：未指定";
    assert FlagLines(d) == [];
    DefaultBudget(showReal);
  }

  /** The prompt of the default settings: none of the optional sections appears, and each of the four
      fixed sections reads as `DefaultHeader`, `DefaultWorld`, `DefaultPlot` and `DefaultStyle` give it. */
  lemma DefaultPrompt(showReal: real -> string)
    ensures PromptLines(DefaultNovelSettings(), showReal) ==
      HeaderLines(DefaultNovelSettings()) + WorldLines(DefaultNovelSettings()) + PlotLines(DefaultNovelSettings())
      + StyleLines(DefaultNovelSettings(), showReal) + [PromptClosing]
  {
    var d := DefaultNovelSettings();
    assert SideSection(d) == [] && AntagonistSection(d) == [] && TabooSection(d) == [] && ReferenceSection(d) == [];
    DropEmpty(HeaderLines(d), SideSection(d), AntagonistSection(d), WorldLines(d), PlotLines(d),
      StyleLines(d, showReal), TabooSection(d), ReferenceSection(d), [PromptClosing]);
  }

  lemma DropEmpty<T>(a: seq<T>, b: seq<T>, c: seq<T>, d: seq<T>, e: seq<T>, f: seq<T>, g: seq<T>, h: seq<T>, i: seq<T>)
    requires b == [] && c == [] && g == [] && h == []
    ensures a + b + c + d + e + f + g + h + i == a + d + e + f + i
  {
  }

  // ---------------------------------------------------------------- handleGenerateClick

  /** The settings handed to generation: `chapterWords` taken from the writing style, nothing else changed. */
  function ForGeneration(s: NovelSettings): (r: NovelSettings)
    ensures r.chapterWords == s.writingStyle.wordsPerChapter
    ensures r.(chapterWords := s.chapterWords) == s
  {
    s.(chapterWords := s.writingStyle.wordsPerChapter)
  }
}
