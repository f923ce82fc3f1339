/**
 * The generation page: its initial form state taken from the search parameters, and the genre
 * toggle.
 */
module GeneratePage {
  import opened Wrappers
  import opened Lists
  import opened QuickStart

  /** The page's form state; the temperature slider is not modelled. */
  datatype Form = Form(
    genres: seq<string>, protagonistName: string, protagonistGender: string, protagonistAge: string,
    protagonistPersonality: string, worldSetting: string, conflict: string, totalWords: string,
    chapterWords: string, style: string, narration: string, nsfw: bool, systemNovel: bool,
    harem: bool, synopsis: string)

  /** `searchParams.get(name) || ""`. */
  function ParamOr(params: seq<Param>, name: string): (r: string)
    ensures Get(params, name).Some? ==> r == Get(params, name).value
    ensures Get(params, name).None? ==> r == ""
  {
    match Get(params, name)
    case None => ""
    case Some(v) => v
  }

  /** The state the page starts from: the genre, protagonist name, style and synopsis come from the
      parameters, everything else has its fixed start value. */
  function InitialForm(params: seq<Param>): (r: Form)
    ensures r.genres == (if ParamOr(params, "genre") != "" then [ParamOr(params, "genre")] else [])
    ensures r.protagonistName == ParamOr(params, "protagonist")
    ensures r.style == ParamOr(params, "style") && r.synopsis == ParamOr(params, "synopsis")
    ensures r.protagonistGender == "男" && r.totalWords == "100000" && r.chapterWords == "3000"
    ensures r.narration == "第三人称" && !r.nsfw && !r.systemNovel && !r.harem
    ensures r.protagonistAge == "" && r.protagonistPersonality == "" && r.worldSetting == "" && r.conflict == ""
  {
    var genre := ParamOr(params, "genre");
    Form(
      if genre != "" then [genre] else [], ParamOr(params, "protagonist"), "男", "", "", "", "",
      "100000", "3000", ParamOr(params, "style"), "第三人称", false, false, false, ParamOr(params, "synopsis"))
  }

  /** `toggleGenre`: the genre list toggled, the rest of the form unchanged. */
  function ToggleGenre(f: Form, g: string): (r: Form)
    ensures g in r.genres <==> g !in f.genres
    ensures g !in f.genres ==> r.genres == f.genres + [g]
    ensures g in f.genres ==> r.genres == RemoveAll(f.genres, g)
    ensures r.(genres := f.genres) == f
  {
    f.(genres := Toggle(f.genres, g))
  }

  /** Toggling an absent genre twice restores the form. */
  lemma ToggleGenreTwice(f: Form, g: string)
    requires g !in f.genres
    ensures ToggleGenre(ToggleGenre(f, g), g) == f
  {
    ToggleTwiceAbsent(f.genres, g);
  }

  /** The quick start hands its fields to the generation page: a non-empty genre becomes the only
      selected genre, and the protagonist name, style and synopsis arrive verbatim. */
  lemma HandOff(genre: string, protagonist: string, style: string, synopsis: string)
    ensures InitialForm(QueryOf(genre, protagonist, style, synopsis)).genres == (if genre != "" then [genre] else [])
    ensures InitialForm(QueryOf(genre, protagonist, style, synopsis)).protagonistName == protagonist
    ensures InitialForm(QueryOf(genre, protagonist, style, synopsis)).style == style
    ensures InitialForm(QueryOf(genre, protagonist, style, synopsis)).synopsis == synopsis
  {
    QueryReadsBack(genre, protagonist, style, synopsis);
  }
}
