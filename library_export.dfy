/** The library page's export: the text and file name of a TXT or Markdown download. */
module LibraryExport {
  import opened Wrappers
  import opened Text
  import Library

  datatype Format = Txt | Md

  /** A chapter row of the export query; `content` may be null. */
  datatype Chapter = Chapter(number: int, title: string, content: Option<string>)

  datatype ExportFile = ExportFile(name: string, content: string)

  /** A template literal shows a null value as "null". */
  function ShowContent(c: Option<string>): string {
    match c
    case None => "null"
    case Some(s) => s
  }

  /** The heading mark: "## " in Markdown, nothing in plain text. */
  function Marker(format: Format): string {
    if format == Md then "## " else ""
  }

  /** A chapter's heading line without the mark: `第N章 title`. */
  function Label(ch: Chapter): string {
    "第" + IntToString(ch.number) + "章 " + ch.title
  }

  /** What follows the heading: a blank line, the content and a blank line. */
  function Body(ch: Chapter): string {
    "\n\n" + ShowContent(ch.content) + "\n\n"
  }

  /** One chapter of the export, `${mark}第${n}章 ${title}\n\n${content}\n\n`. */
  function Section(ch: Chapter, format: Format): string {
    Marker(format) + Label(ch) + Body(ch)
  }

  /** A section opens with its heading and ends with the content and a blank line; the Markdown
      section is the text section behind "## ". */
  lemma SectionShape(ch: Chapter)
    ensures StartsWith(Section(ch, Txt), Label(ch) + "\n\n")
    ensures EndsWith(Section(ch, Txt), ShowContent(ch.content) + "\n\n")
    ensures Section(ch, Md) == "## " + Section(ch, Txt)
  {
    var c := ShowContent(ch.content);
    assert Section(ch, Txt) == Label(ch) + Body(ch);
    assert Body(ch) == "\n\n" + (c + "\n\n");
    Assoc(Label(ch), "\n\n", c + "\n\n");
    StartsWithConcat(Label(ch) + "\n\n", c + "\n\n");
    EndsWithConcat(Label(ch) + "\n\n", c + "\n\n", c + "\n\n");
    Assoc("## ", Label(ch), Body(ch));
  }

  /** All chapters' sections in order. */
  function Sections(chapters: seq<Chapter>, format: Format): string
    decreases |chapters|
  {
    if chapters == [] then "" else Section(chapters[0], format) + Sections(chapters[1..], format)
  }

  lemma {:induction false} SectionsSnoc(chapters: seq<Chapter>, ch: Chapter, format: Format)
    ensures Sections(chapters + [ch], format) == Sections(chapters, format) + Section(ch, format)
    decreases |chapters|
  {
    if chapters != [] {
      assert (chapters + [ch])[1..] == chapters[1..] + [ch];
      SectionsSnoc(chapters[1..], ch, format);
    } else {
      assert [ch][1..] == [];
    }
  }

  /** Markdown only adds "## " in front of each chapter heading. */
  lemma {:induction false} MarkdownAddsHeadingMarks(chapters: seq<Chapter>)
    ensures |Sections(chapters, Md)| == |Sections(chapters, Txt)| + 3 * |chapters|
    decreases |chapters|
  {
    if chapters != [] {
      MarkdownAddsHeadingMarks(chapters[1..]);
    }
  }

  lemma TakeOneMore(chs: seq<Chapter>, i: nat)
    requires i < |chs|
    ensures chs[..i + 1] == chs[..i] + [chs[i]]
  {
  }

  /** The download name: the title with the format's extension. */
  function FileName(title: string, format: Format): (r: string)
    ensures StartsWith(r, title)
    ensures |r| == |title| + (if format == Md then 3 else 4)
    ensures format == Md ==> EndsWith(r, ".md")
    ensures format == Txt ==> EndsWith(r, ".txt")
  {
    title + (if format == Md then ".md" else ".txt")
  }

  /** The export text: the title and a blank line, then every chapter's section in order. */
  function ExportText(title: string, chapters: seq<Chapter>, format: Format): string
  {
    title + "\n\n" + Sections(chapters, format)
  }

  /** The text opens with the title and a blank line, and each further chapter adds its section at
      the end. */
  lemma ExportTextShape(title: string, chapters: seq<Chapter>, ch: Chapter, format: Format)
    ensures StartsWith(ExportText(title, chapters, format), title + "\n\n")
    ensures ExportText(title, chapters + [ch], format) == ExportText(title, chapters, format) + Section(ch, format)
  {
    StartsWithConcat(title + "\n\n", Sections(chapters, format));
    SectionsSnoc(chapters, ch, format);
    Assoc(title + "\n\n", Sections(chapters, format), Section(ch, format));
  }

  /** The `content +=` loop of `exportNovel`. */
  method BuildContent(title: string, chapters: seq<Chapter>, format: Format) returns (content: string)
    ensures content == ExportText(title, chapters, format)
  {
    content := title + "\n\n";
    ghost var head: string := content;
    var i := 0;
    while i < |chapters|
      invariant 0 <= i <= |chapters|
      invariant content == head + Sections(chapters[..i], format)
    {
      TakeOneMore(chapters, i);
      var section := Section(chapters[i], format);
      ghost var before := Sections(chapters[..i], format);
      SectionsSnoc(chapters[..i], chapters[i], format);
      Assoc(head, before, section);
      content := content + section;
      i := i + 1;
    }
    assert chapters[..i] == chapters;
  }

  /** `exportNovel`: no file for a missing or empty chapter list; otherwise the text built chapter
      by chapter and the file name. */
  method ExportNovel(novel: Library.Novel, format: Format, chapters: Option<seq<Chapter>>) returns (file: Option<ExportFile>)
    ensures (chapters.None? || chapters.value == []) <==> file.None?
    ensures file.Some? ==> file.value == ExportFile(FileName(novel.title, format), ExportText(novel.title, chapters.value, format))
  {
    if chapters.None? || |chapters.value| == 0 {
      return None;
    }
    var content := BuildContent(novel.title, chapters.value, format);
    file := Some(ExportFile(FileName(novel.title, format), content));
  }
}
