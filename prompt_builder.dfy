/**
 * The generation function's pure prompt assembly: `buildUserPrompt`, `truncateContext`,
 * `buildPreviousSummary` and the four system prompts.
 */
module PromptBuilder {
  import opened Wrappers
  import opened Text

  const SystemPrompt := "You are a top Chinese web novelist with 15 years experience. Write in beautiful, addictive simplified Chinese. Follow all user settings strictly. Every chapter must end with a hook. Never add author notes. Output ONLY the chapter title and pure text content."
  const OutlineSystemPrompt := "You are a top Chinese web novelist. Generate a detailed novel outline in simplified Chinese. Include: overall story arc, chapter breakdown with brief descriptions, major plot points, climax, and ending. Format as structured markdown. Output ONLY the outline content."
  const CharacterSystemPrompt := "You are a top Chinese web novelist. Generate detailed character cards in simplified Chinese as a JSON array. Each character should have: name, gender, age, personality, appearance, background, abilities, relationships, and role in the story. Output ONLY valid JSON."
  const RewriteSystemPrompt := "You are a top Chinese web novelist with 15 years experience. Rewrite the given chapter in simplified Chinese, improving quality, pacing, and engagement. Keep the core plot points but enhance the writing. Every chapter must end with a hook. Never add author notes. Output ONLY the chapter title and pure text content."

  /** Which of the four system prompts a request uses. */
  datatype SystemKind = ChapterWriter | OutlineWriter | CharacterWriter | Rewriter

  function SystemText(k: SystemKind): string {
    match k
    case ChapterWriter => SystemPrompt
    case OutlineWriter => OutlineSystemPrompt
    case CharacterWriter => CharacterSystemPrompt
    case Rewriter => RewriteSystemPrompt
  }

  /** A request value that arrives as a string, as a number, or not at all. */
  datatype Scalar = Missing | Str(s: string) | Num(n: int)

  /** JavaScript truthiness of such a value. */
  predicate Truthy(x: Scalar) {
    match x
    case Missing => false
    case Str(s) => s != ""
    case Num(n) => n != 0
  }

  /** How a template literal prints it. */
  function Show(x: Scalar): string {
    match x
    case Missing => "undefined"
    case Str(s) => s
    case Num(n) => IntToString(n)
  }

  datatype Protagonist = Protagonist(name: string, gender: string, age: string, personality: string)

  /** The `settings` object of a request, as far as `buildUserPrompt` reads it; a missing text
      field is "". */
  datatype RequestSettings = RequestSettings(
    genres: seq<string>, protagonist: Option<Protagonist>,
    worldSetting: string, conflict: string, synopsis: string, style: string, narration: string,
    chapterWords: Scalar, totalWords: Scalar,
    nsfw: bool, systemNovel: bool, harem: bool)

  /** A row of the `characters` table (`name`, `card_json`). */
  datatype CharacterRow = CharacterRow(name: string, cardJson: string)

  /** A row of the `chapters` table as the continue mode selects it; `content` may be null. */
  datatype ChapterRow = ChapterRow(chapterNumber: int, title: string, content: Option<string>)

  /** The `context` object; an absent field is "", [] or `Missing`. */
  datatype Context = Context(outline: string, characters: seq<CharacterRow>, previousSummary: string, chapterNumber: Scalar)

  const NoContext := Context("", [], "", Missing)

  function ProtagonistPart(p: Protagonist): string {
    "主角：" + ProtagonistText(p)
  }

  function ProtagonistText(p: Protagonist): string {
    p.name + "，" + p.gender + "，" + (if p.age != "" then p.age else "未知") + "岁，性格："
    + (if p.personality != "" then p.personality else "未设定")
  }

  /** A prompt line: never empty, since each starts with a fixed heading. */
  type Line = s: string | s != "" witness "-"

  /** The line `head + text`, pushed when `c` holds. */
  function When(c: bool, head: string, text: string): (r: Option<Line>)
    requires head != ""
    ensures r.Some? <==> c
    ensures r.Some? ==> r.value == head + text
  {
    if c then Some(head + text) else None
  }

  /** The pushed lines, in slot order. */
  function Present(slots: seq<Option<Line>>): (r: seq<Line>)
    ensures |r| <= |slots|
    decreases |slots|
  {
    if slots == [] then []
    else (if slots[0].Some? then [slots[0].value] else []) + Present(slots[1..])
  }

  /** Pushing two runs of candidates pushes the lines of the first run, then those of the second. */
  lemma {:induction false} PresentAppend(a: seq<Option<Line>>, b: seq<Option<Line>>)
    ensures Present(a + b) == Present(a) + Present(b)
    decreases |a|
  {
    if a == [] {
      assert a + b == b;
    } else {
      assert (a + b)[1..] == a[1..] + b;
      PresentAppend(a[1..], b);
    }
  }

  /** One candidate pushes its line when present and nothing when absent. */
  lemma PresentSingle(o: Option<Line>)
    ensures Present([o]) == (if o.Some? then [o.value] else [])
  {
    assert [o][1..] == [];
  }

  /** Every pushed line is the line of a present candidate: absent candidates push nothing. */
  lemma {:induction false} PresentOnlySet(slots: seq<Option<Line>>, x: Line)
    requires x in Present(slots)
    ensures exists i :: 0 <= i < |slots| && slots[i] == Some(x)
    decreases |slots|
  {
    if slots[0] != Some(x) {
      PresentOnlySet(slots[1..], x);
      var i :| 0 <= i < |slots[1..]| && slots[1..][i] == Some(x);
      assert slots[i + 1] == Some(x);
    }
  }

  /** Two present candidates push their lines in candidate order. */
  lemma PresentOrder(slots: seq<Option<Line>>, i: nat, j: nat)
    requires i < j < |slots| && slots[i].Some? && slots[j].Some?
    ensures exists a, b :: 0 <= a < b < |Present(slots)|
                           && Present(slots)[a] == slots[i].value && Present(slots)[b] == slots[j].value
  {
    var front, back := slots[..j], slots[j..];
    assert slots == front + back;
    PresentAppend(front, back);
    PresentHas(front, i);
    var a :| 0 <= a < |Present(front)| && Present(front)[a] == slots[i].value;
    assert back[0] == slots[j];
    assert Present(back)[0] == slots[j].value;
    assert Present(slots)[a] == slots[i].value;
    assert Present(slots)[|Present(front)|] == slots[j].value;
  }

  lemma {:induction false} PresentEmptyIff(slots: seq<Option<Line>>)
    ensures Present(slots) == [] <==> forall i :: 0 <= i < |slots| ==> slots[i].None?
    decreases |slots|
  {
    if slots != [] {
      PresentEmptyIff(slots[1..]);
      assert forall i :: 1 <= i < |slots| ==> slots[i] == slots[1..][i - 1];
    }
  }

  lemma {:induction false} PresentHas(slots: seq<Option<Line>>, i: nat)
    requires i < |slots| && slots[i].Some?
    ensures slots[i].value in Present(slots)
    decreases |slots|
  {
    if i > 0 {
      PresentHas(slots[1..], i - 1);
    }
  }

  /** The candidate lines of `buildUserPrompt` in push order: the settings lines, then the context
      lines; `stringify` is `JSON.stringify(_, null, 2)` on the character rows. */
  function Slots(s: RequestSettings, ctx: Context, stringify: seq<CharacterRow> -> string): seq<Option<Line>> {
    [When(|s.genres| > 0, "类型：", Join(s.genres, "、")),
     When(s.protagonist.Some? && s.protagonist.value.name != "", "主角：",
          if s.protagonist.Some? then ProtagonistText(s.protagonist.value) else ""),
     When(s.worldSetting != "", "世界观：", s.worldSetting),
     When(s.conflict != "", "核心冲突：", s.conflict),
     When(s.synopsis != "", "简介：", s.synopsis),
     When(s.style != "", "风格：", s.style),
     When(s.narration != "", "视角：", s.narration),
     When(Truthy(s.chapterWords), "本章字数要求：约", Show(s.chapterWords) + "字"),
     When(s.nsfw, "允许成人内容", ""),
     When(s.systemNovel, "这是一本系统文，主角拥有系统", ""),
     When(s.harem, "后宫元素", ""),
     When(ctx.outline != "", "\n【大纲】\n", ctx.outline),
     When(|ctx.characters| > 0, "\n【人物卡】\n", stringify(ctx.characters)),
     When(ctx.previousSummary != "", "\n【前文摘要（最近3章）】\n", ctx.previousSummary),
     When(Truthy(ctx.chapterNumber), "\n请生成第", Show(ctx.chapterNumber) + "章")]
  }

  /** Some field of the settings or of the context is truthy. */
  predicate AnyField(s: RequestSettings, ctx: Context) {
    |s.genres| > 0 || (s.protagonist.Some? && s.protagonist.value.name != "") || s.worldSetting != ""
    || s.conflict != "" || s.synopsis != "" || s.style != "" || s.narration != "" || Truthy(s.chapterWords)
    || s.nsfw || s.systemNovel || s.harem
    || ctx.outline != "" || |ctx.characters| > 0 || ctx.previousSummary != "" || Truthy(ctx.chapterNumber)
  }

  /** The lines `buildUserPrompt` pushes: none of them empty, and none at all exactly when no field
      is set. */
  function UserParts(s: RequestSettings, ctx: Context, stringify: seq<CharacterRow> -> string): (r: seq<string>)
    ensures r == Present(Slots(s, ctx, stringify))
    ensures forall i :: 0 <= i < |r| ==> r[i] != ""
    ensures r == [] <==> !AnyField(s, ctx)
  {
    var slots := Slots(s, ctx, stringify);
    PresentEmptyIff(slots);
    SlotsAnyField(s, ctx, stringify);
    Present(slots)
  }

  lemma SlotsAnyField(s: RequestSettings, ctx: Context, stringify: seq<CharacterRow> -> string)
    ensures AnyField(s, ctx) <==> !(forall i :: 0 <= i < |Slots(s, ctx, stringify)| ==> Slots(s, ctx, stringify)[i].None?)
  {
    var slots := Slots(s, ctx, stringify);
    assert |slots| == 15;
    assert AnyField(s, ctx) <==>
      slots[0].Some? || slots[1].Some? || slots[2].Some? || slots[3].Some? || slots[4].Some?
      || slots[5].Some? || slots[6].Some? || slots[7].Some? || slots[8].Some? || slots[9].Some?
      || slots[10].Some? || slots[11].Some? || slots[12].Some? || slots[13].Some? || slots[14].Some?;
  }

  /** `buildUserPrompt(settings, context)`: the present lines joined by line feeds; it is empty exactly
      when no field is set. */
  function BuildUserPrompt(s: RequestSettings, ctx: Context, stringify: seq<CharacterRow> -> string): (r: string)
    ensures r == Join(UserParts(s, ctx, stringify), "\n")
    ensures r == "" <==> !AnyField(s, ctx)
  {
    var parts := UserParts(s, ctx, stringify);
    JoinEmptyIff(parts, "\n");
    Join(parts, "\n")
  }

  /** A join of non-empty parts is empty exactly when there are no parts. */
  lemma JoinEmptyIff(parts: seq<string>, sep: string)
    requires forall i :: 0 <= i < |parts| ==> parts[i] != ""
    ensures Join(parts, sep) == "" <==> parts == []
  {
    if |parts| > 1 {
      assert |Join(parts, sep)| >= |parts[0]| > 0;
    }
  }

  /** Every part occurs in the join. */
  lemma {:induction false} JoinContainsPart(parts: seq<string>, sep: string, i: nat)
    requires i < |parts|
    ensures Contains(Join(parts, sep), parts[i])
    decreases |parts|
  {
    var j := Join(parts, sep);
    if |parts| == 1 || i == 0 {
      assert j[0..|parts[0]|] == parts[0];
      assert OccursAt(j, parts[0], 0);
    } else {
      var tail := Join(parts[1..], sep);
      JoinContainsPart(parts[1..], sep, i - 1);
      var k: nat :| k <= |tail| && OccursAt(tail, parts[i], k);
      var off := |parts[0]| + |sep|;
      assert j == parts[0] + sep + tail;
      assert j[off + k..off + k + |parts[i]|] == tail[k..k + |parts[i]|];
      assert OccursAt(j, parts[i], off + k);
    }
  }

  /** The join ends with the last part. */
  lemma {:induction false} JoinEndsWithLast(parts: seq<string>, sep: string)
    requires |parts| > 0
    ensures EndsWith(Join(parts, sep), parts[|parts| - 1])
    decreases |parts|
  {
    if |parts| > 1 {
      JoinEndsWithLast(parts[1..], sep);
      var tail := Join(parts[1..], sep);
      assert Join(parts, sep) == (parts[0] + sep) + tail;
    }
  }

  /** Each set field contributes its line to the prompt. */
  lemma SetFieldsAppear(s: RequestSettings, ctx: Context, stringify: seq<CharacterRow> -> string, i: nat)
    requires i < |Slots(s, ctx, stringify)| && Slots(s, ctx, stringify)[i].Some?
    ensures Contains(BuildUserPrompt(s, ctx, stringify), Slots(s, ctx, stringify)[i].value)
  {
    var slots := Slots(s, ctx, stringify);
    var parts := UserParts(s, ctx, stringify);
    PresentHas(slots, i);
    var j :| 0 <= j < |parts| && parts[j] == slots[i].value;
    JoinContainsPart(parts, "\n", j);
  }

  /** Every line of the prompt belongs to a set field: a falsy field contributes no line. */
  lemma OnlySetFieldsAppear(s: RequestSettings, ctx: Context, stringify: seq<CharacterRow> -> string, x: string)
    requires x in UserParts(s, ctx, stringify)
    ensures exists i :: 0 <= i < |Slots(s, ctx, stringify)| && Slots(s, ctx, stringify)[i] == Some(x)
  {
    PresentOnlySet(Slots(s, ctx, stringify), x);
  }

  /** The lines of two set fields appear in push order. */
  lemma SetFieldsInOrder(s: RequestSettings, ctx: Context, stringify: seq<CharacterRow> -> string, i: nat, j: nat)
    requires i < j < |Slots(s, ctx, stringify)|
    requires Slots(s, ctx, stringify)[i].Some? && Slots(s, ctx, stringify)[j].Some?
    ensures exists a, b :: 0 <= a < b < |UserParts(s, ctx, stringify)|
                           && UserParts(s, ctx, stringify)[a] == Slots(s, ctx, stringify)[i].value
                           && UserParts(s, ctx, stringify)[b] == Slots(s, ctx, stringify)[j].value
  {
    var slots := Slots(s, ctx, stringify);
    PresentOrder(slots, i, j);
    assert UserParts(s, ctx, stringify) == Present(slots);
  }

  /** In particular the protagonist line appears exactly when a name is set. */
  lemma ProtagonistAppears(s: RequestSettings, ctx: Context, stringify: seq<CharacterRow> -> string)
    requires s.protagonist.Some? && s.protagonist.value.name != ""
    ensures Contains(BuildUserPrompt(s, ctx, stringify), ProtagonistPart(s.protagonist.value))
  {
    SetFieldsAppear(s, ctx, stringify, 1);
  }

  /** The chapter request, when present, is the last line of the prompt. */
  lemma ChapterRequestLast(s: RequestSettings, ctx: Context, stringify: seq<CharacterRow> -> string)
    requires Truthy(ctx.chapterNumber)
    ensures EndsWith(BuildUserPrompt(s, ctx, stringify), "\n请生成第" + Show(ctx.chapterNumber) + "章")
  {
    var slots := Slots(s, ctx, stringify);
    var request := "\n请生成第" + Show(ctx.chapterNumber) + "章";
    assert slots[14] == Some(request) by {
      assert slots[14] == When(Truthy(ctx.chapterNumber), "\n请生成第", Show(ctx.chapterNumber) + "章");
      Assoc("\n请生成第", Show(ctx.chapterNumber), "章");
    }
    PresentLast(slots);
    var parts := UserParts(s, ctx, stringify);
    assert parts == Present(slots);
    JoinEndsWithLast(parts, "\n");
  }

  lemma {:induction false} PresentLast(slots: seq<Option<Line>>)
    requires |slots| > 0 && slots[|slots| - 1].Some?
    ensures |Present(slots)| > 0 && Present(slots)[|Present(slots)| - 1] == slots[|slots| - 1].value
    decreases |slots|
  {
    if |slots| > 1 {
      PresentLast(slots[1..]);
    }
  }

  /** Without a context only the settings lines are joined. */
  lemma NoContextPrompt(s: RequestSettings, stringify: seq<CharacterRow> -> string)
    ensures BuildUserPrompt(s, NoContext, stringify) == Join(Present(Slots(s, NoContext, stringify)[..11]), "\n")
  {
    var slots := Slots(s, NoContext, stringify);
    PresentNoneSuffix(slots[..11], slots[11..]);
    assert slots[..11] + slots[11..] == slots;
  }

  lemma {:induction false} PresentNoneSuffix(xs: seq<Option<Line>>, ys: seq<Option<Line>>)
    requires forall i :: 0 <= i < |ys| ==> ys[i].None?
    ensures Present(xs + ys) == Present(xs)
    decreases |xs|
  {
    if xs == [] {
      PresentEmptyIff(ys);
      assert xs + ys == ys;
    } else {
      assert (xs + ys)[1..] == xs[1..] + ys;
      PresentNoneSuffix(xs[1..], ys);
    }
  }

  /** `truncateContext(text, maxChars)`: the text itself when short enough, else its last `maxChars`
      characters; always a suffix of the text no longer than `maxChars`. */
  function TruncateContext(text: string, maxChars: nat): (r: string)
    ensures |r| <= maxChars && EndsWith(text, r)
    ensures |text| <= maxChars ==> r == text
    ensures |text| > maxChars ==> |r| == maxChars
  {
    if |text| <= maxChars then text else text[|text| - maxChars..]
  }

  /** Truncating twice to the same length changes nothing more. */
  lemma TruncateIdempotent(text: string, maxChars: nat)
    ensures TruncateContext(TruncateContext(text, maxChars), maxChars) == TruncateContext(text, maxChars)
  {
  }

  /** A chapter's summary: the content when at most 500 characters, else its first 500 and "...";
      null content counts as "". */
  function ChapterSummary(content: Option<string>): (r: string)
    ensures |r| <= 503
    ensures content.None? ==> r == ""
    ensures content.Some? && |content.value| <= 500 ==> r == content.value
    ensures content.Some? && |content.value| > 500 ==>
      |r| == 503 && StartsWith(content.value, r[..500]) && EndsWith(r, "...")
  {
    var c := content.GetOr("");
    if |c| > 500 then c[..500] + "..." else c
  }

  function SummaryEntry(ch: ChapterRow): string {
    "第" + IntToString(ch.chapterNumber) + "章 " + ch.title + "：" + ChapterSummary(ch.content)
  }

  /** `chapters.slice(-3)`. */
  function LastThree<T(==)>(xs: seq<T>): (r: seq<T>)
    ensures |r| == if |xs| < 3 then |xs| else 3
    ensures EndsWithSeq(xs, r)
  {
    if |xs| <= 3 then xs else xs[|xs| - 3..]
  }

  predicate EndsWithSeq<T(==)>(xs: seq<T>, suffix: seq<T>) {
    |suffix| <= |xs| && xs[|xs| - |suffix|..] == suffix
  }

  function Entries(chs: seq<ChapterRow>): (r: seq<string>)
    ensures |r| == |chs|
    ensures forall i :: 0 <= i < |chs| ==> r[i] == SummaryEntry(chs[i])
  {
    seq(|chs|, i requires 0 <= i < |chs| => SummaryEntry(chs[i]))
  }

  /** `buildPreviousSummary(chapters)`: "" for no chapters, else the entries of the last three joined
      by blank lines. */
  function BuildPreviousSummary(chapters: seq<ChapterRow>): (r: string)
    ensures chapters == [] ==> r == ""
    ensures chapters != [] ==> r != ""
  {
    if |chapters| == 0 then ""
    else
      var es := Entries(LastThree(chapters));
      assert |es[0]| > 0;
      Join(es, "\n\n")
  }

  /** Chapters before the last three do not influence the summary. */
  lemma SummaryIgnoresOlder(older: seq<ChapterRow>, recent: seq<ChapterRow>)
    requires |recent| == 3
    ensures BuildPreviousSummary(older + recent) == BuildPreviousSummary(recent)
  {
    assert (older + recent)[|older|..] == recent;
  }

  /** One chapter gives its entry alone. */
  lemma SummaryOfOne(a: ChapterRow)
    ensures BuildPreviousSummary([a]) == SummaryEntry(a)
  {
    assert Entries([a]) == [SummaryEntry(a)];
  }

  /** Two chapters give their entries in order, joined by a blank line. */
  lemma SummaryOfTwo(a: ChapterRow, b: ChapterRow)
    ensures BuildPreviousSummary([a, b]) == SummaryEntry(a) + "\n\n" + SummaryEntry(b)
  {
    var es := Entries([a, b]);
    assert es == [SummaryEntry(a), SummaryEntry(b)];
    assert es[1..] == [SummaryEntry(b)];
    assert Join(es, "\n\n") == SummaryEntry(a) + "\n\n" + Join(es[1..], "\n\n");
  }

  /** With three or more chapters the summary is the three entries in chapter order. */
  lemma SummaryOfThree(a: ChapterRow, b: ChapterRow, c: ChapterRow)
    ensures BuildPreviousSummary([a, b, c]) ==
      SummaryEntry(a) + "\n\n" + SummaryEntry(b) + "\n\n" + SummaryEntry(c)
  {
    var es := Entries([a, b, c]);
    assert es == [SummaryEntry(a), SummaryEntry(b), SummaryEntry(c)];
    assert es[1..] == [SummaryEntry(b), SummaryEntry(c)];
    assert es[1..][1..] == [SummaryEntry(c)];
    assert Join(es[1..], "\n\n") == SummaryEntry(b) + "\n\n" + SummaryEntry(c);
  }
}
