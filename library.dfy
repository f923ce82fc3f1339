/**
 * The library page: the search-and-genre filter over the user's novels, and the text and file name
 * of a TXT or Markdown export.
 */
module Library {
  import opened Wrappers
  import opened Text

  /** A novel row as the page lists it; `genre` may be null. */
  datatype Novel = Novel(id: string, title: string, genre: Option<seq<string>>, wordCount: int)

  /** The genre choice meaning "no constraint". */
  const AllGenres: string := "全部"

  /** `n.title.toLowerCase().includes(search.toLowerCase())`. */
  predicate MatchSearch(n: Novel, search: string) {
    Contains(ToLower(n.title), ToLower(search))
  }

  /** `filterGenre === "全部" || (n.genre && n.genre.includes(filterGenre))`. */
  predicate MatchGenre(n: Novel, filterGenre: string) {
    filterGenre == AllGenres || (n.genre.Some? && filterGenre in n.genre.value)
  }

  predicate Matches(n: Novel, search: string, filterGenre: string) {
    MatchSearch(n, search) && MatchGenre(n, filterGenre)
  }

  /** `xs` is `ys` with some elements left out, the others in their order. */
  predicate IsSubsequence(xs: seq<Novel>, ys: seq<Novel>)
    decreases |ys|
  {
    if xs == [] then true
    else if ys == [] then false
    else (xs[0] == ys[0] && IsSubsequence(xs[1..], ys[1..])) || IsSubsequence(xs, ys[1..])
  }

  /** `novels.filter(...)`: the novels that match both the search and the genre. */
  function Filtered(novels: seq<Novel>, search: string, filterGenre: string): (r: seq<Novel>)
    ensures |r| <= |novels|
    ensures forall i :: 0 <= i < |r| ==> r[i] in novels && Matches(r[i], search, filterGenre)
    ensures forall i :: 0 <= i < |novels| && Matches(novels[i], search, filterGenre) ==> novels[i] in r
    decreases |novels|
  {
    if novels == [] then []
    else
      var rest := Filtered(novels[1..], search, filterGenre);
      if Matches(novels[0], search, filterGenre) then [novels[0]] + rest else rest
  }

  /** The filter keeps the order of the list. */
  lemma {:induction false} FilteredIsSubsequence(novels: seq<Novel>, search: string, filterGenre: string)
    ensures IsSubsequence(Filtered(novels, search, filterGenre), novels)
    decreases |novels|
  {
    if novels != [] {
      FilteredIsSubsequence(novels[1..], search, filterGenre);
      var rest := Filtered(novels[1..], search, filterGenre);
      assert novels[1..] == novels[1..];
    }
  }

  /** A kept novel's lowercased title contains the lowercased search, and a genre other than
      "全部" is in its genre list. */
  lemma KeptNovelMatches(novels: seq<Novel>, search: string, filterGenre: string, i: nat)
    requires i < |Filtered(novels, search, filterGenre)|
    ensures Contains(ToLower(Filtered(novels, search, filterGenre)[i].title), ToLower(search))
    ensures filterGenre != AllGenres ==>
              Filtered(novels, search, filterGenre)[i].genre.Some? &&
              filterGenre in Filtered(novels, search, filterGenre)[i].genre.value
  {
  }

  /** With an empty search and "全部" every novel is listed. */
  lemma {:induction false} NoFilterKeepsAll(novels: seq<Novel>)
    ensures Filtered(novels, "", AllGenres) == novels
    decreases |novels|
  {
    if novels != [] {
      ContainsEmpty(ToLower(novels[0].title));
      NoFilterKeepsAll(novels[1..]);
    }
  }

  /** A novel with a null genre list is hidden by every genre but "全部". */
  lemma NullGenreHidden(n: Novel, search: string, filterGenre: string)
    requires n.genre.None? && filterGenre != AllGenres
    ensures Filtered([n], search, filterGenre) == []
  {
  }
}
