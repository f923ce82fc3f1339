/**
 * The home page's quick start: the search parameters `handleQuickStart` sets and the target it
 * navigates to, with `URLSearchParams` modelled as an ordered list of name/value pairs.
 */
module QuickStart {
  import opened Wrappers
  import opened Text

  type Param = (string, string)

  /** `params.get(name)`: the value of the first pair with that name. */
  function Get(params: seq<Param>, name: string): Option<string>
    decreases |params|
  {
    if params == [] then None
    else if params[0].0 == name then Some(params[0].1)
    else Get(params[1..], name)
  }

  /** The pairs whose name is not `name`, in order. */
  function Without(params: seq<Param>, name: string): (r: seq<Param>)
    ensures forall i :: 0 <= i < |r| ==> r[i].0 != name && r[i] in params
    decreases |params|
  {
    if params == [] then []
    else if params[0].0 == name then Without(params[1..], name)
    else [params[0]] + Without(params[1..], name)
  }

  /** `params.set(name, value)`: the first pair with that name takes the value and later ones are
      deleted; with no such pair, one is appended. */
  function Set(params: seq<Param>, name: string, value: string): seq<Param>
    decreases |params|
  {
    if params == [] then [(name, value)]
    else if params[0].0 == name then [(name, value)] + Without(params[1..], name)
    else [params[0]] + Set(params[1..], name, value)
  }

  /** `Without` leaves the other names' first values alone. */
  lemma {:induction false} GetWithout(params: seq<Param>, name: string, other: string)
    requires other != name
    ensures Get(Without(params, name), other) == Get(params, other)
    decreases |params|
  {
    if params != [] {
      GetWithout(params[1..], name, other);
    }
  }

  /** After `set`, the name reads back the value and every other name reads as before. */
  lemma {:induction false} GetAfterSet(params: seq<Param>, name: string, value: string, other: string)
    ensures Get(Set(params, name, value), name) == Some(value)
    ensures other != name ==> Get(Set(params, name, value), other) == Get(params, other)
    decreases |params|
  {
    if params != [] {
      if params[0].0 == name {
        if other != name {
          GetWithout(params[1..], name, other);
        }
      } else {
        GetAfterSet(params[1..], name, value, other);
      }
    }
  }

  /** Setting a name not yet present appends it. */
  lemma {:induction false} SetAbsentAppends(params: seq<Param>, name: string, value: string)
    requires Get(params, name).None?
    ensures Set(params, name, value) == params + [(name, value)]
    decreases |params|
  {
    if params != [] {
      SetAbsentAppends(params[1..], name, value);
      assert [params[0]] + (params[1..] + [(name, value)]) == params + [(name, value)];
    }
  }

  /** `params.toString()` without percent-encoding: `name=value` pairs joined by "&". */
  function Serialize(params: seq<Param>): string {
    Join(seq(|params|, i requires 0 <= i < |params| => params[i].0 + "=" + params[i].1), "&")
  }

  /** The first value in a concatenation comes from the front part when it has the name. */
  lemma {:induction false} GetAppend(a: seq<Param>, b: seq<Param>, name: string)
    ensures Get(a + b, name) == if Get(a, name).Some? then Get(a, name) else Get(b, name)
    decreases |a|
  {
    if a != [] {
      assert (a + b)[1..] == a[1..] + b;
      GetAppend(a[1..], b, name);
    } else {
      assert a + b == b;
    }
  }

  /** The pair one field contributes: none when the field is empty. */
  function Single(name: string, field: string): seq<Param> {
    if field != "" then [(name, field)] else []
  }

  /** The pairs the quick start sends: each non-empty field under its name, in the order genre,
      protagonist, style, synopsis. */
  function QueryOf(genre: string, protagonist: string, style: string, synopsis: string): seq<Param> {
    Single("genre", genre) + Single("protagonist", protagonist) + Single("style", style) + Single("synopsis", synopsis)
  }

  lemma GetSingle(name: string, field: string, other: string)
    ensures Get(Single(name, field), other) == if other == name && field != "" then Some(field) else None
  {
  }

  /** The query-string names of the quick-start fields differ. */
  lemma NamesDiffer()
    ensures "genre" != "protagonist" && "genre" != "style" && "genre" != "synopsis"
    ensures "protagonist" != "style" && "protagonist" != "synopsis" && "style" != "synopsis"
  {
    assert "genre"[0] != "protagonist"[0] && "genre"[0] != "style"[0] && "genre"[0] != "synopsis"[0];
    assert "protagonist"[0] != "style"[0] && "protagonist"[0] != "synopsis"[0] && |"style"| != |"synopsis"|;
  }

  /** `handleQuickStart`: one conditional `set` per field, then the navigation target. */
  method HandleQuickStart(genre: string, protagonist: string, style: string, synopsis: string)
    returns (params: seq<Param>, target: string)
    ensures params == QueryOf(genre, protagonist, style, synopsis)
    ensures target == "/generate?" + Serialize(params)
  {
    NamesDiffer();
    params := [];
    if genre != "" {
      params := Set(params, "genre", genre);
    }
    ghost var p1 := params;
    assert p1 == Single("genre", genre);
    if protagonist != "" {
      GetSingle("genre", genre, "protagonist");
      SetAbsentAppends(params, "protagonist", protagonist);
      params := Set(params, "protagonist", protagonist);
    }
    ghost var p2 := params;
    assert p2 == p1 + Single("protagonist", protagonist);
    if style != "" {
      GetAppend(p1, Single("protagonist", protagonist), "style");
      GetSingle("genre", genre, "style");
      GetSingle("protagonist", protagonist, "style");
      SetAbsentAppends(params, "style", style);
      params := Set(params, "style", style);
    }
    ghost var p3 := params;
    assert p3 == p2 + Single("style", style);
    if synopsis != "" {
      GetAppend(p2, Single("style", style), "synopsis");
      GetAppend(p1, Single("protagonist", protagonist), "synopsis");
      GetSingle("genre", genre, "synopsis");
      GetSingle("protagonist", protagonist, "synopsis");
      GetSingle("style", style, "synopsis");
      SetAbsentAppends(params, "synopsis", synopsis);
      params := Set(params, "synopsis", synopsis);
    }
    assert params == p3 + Single("synopsis", synopsis);
    target := "/generate?" + Serialize(params);
  }

  /** Four distinct names each read back their own field, or nothing when it is empty. */
  lemma ReadBack(a: string, fa: string, b: string, fb: string, c: string, fc: string, d: string, fd: string, n: string)
    requires n == a || n == b || n == c || n == d
    requires a != b && a != c && a != d && b != c && b != d && c != d
    ensures Get(Single(a, fa) + Single(b, fb) + Single(c, fc) + Single(d, fd), n) ==
            if n == a then (if fa != "" then Some(fa) else None)
            else if n == b then (if fb != "" then Some(fb) else None)
            else if n == c then (if fc != "" then Some(fc) else None)
            else (if fd != "" then Some(fd) else None)
  {
    GetAppend(Single(a, fa) + Single(b, fb) + Single(c, fc), Single(d, fd), n);
    GetAppend(Single(a, fa) + Single(b, fb), Single(c, fc), n);
    GetAppend(Single(a, fa), Single(b, fb), n);
    GetSingle(a, fa, n);
    GetSingle(b, fb, n);
    GetSingle(c, fc, n);
    GetSingle(d, fd, n);
  }

  /** A field's name is in the query exactly when the field is non-empty, with the field's text. */
  lemma QueryReadsBack(genre: string, protagonist: string, style: string, synopsis: string)
    ensures Get(QueryOf(genre, protagonist, style, synopsis), "genre") == (if genre != "" then Some(genre) else None)
    ensures Get(QueryOf(genre, protagonist, style, synopsis), "protagonist") == (if protagonist != "" then Some(protagonist) else None)
    ensures Get(QueryOf(genre, protagonist, style, synopsis), "style") == (if style != "" then Some(style) else None)
    ensures Get(QueryOf(genre, protagonist, style, synopsis), "synopsis") == (if synopsis != "" then Some(synopsis) else None)
  {
    NamesDiffer();
    ReadBack("genre", genre, "protagonist", protagonist, "style", style, "synopsis", synopsis, "genre");
    ReadBack("genre", genre, "protagonist", protagonist, "style", style, "synopsis", synopsis, "protagonist");
    ReadBack("genre", genre, "protagonist", protagonist, "style", style, "synopsis", synopsis, "style");
    ReadBack("genre", genre, "protagonist", protagonist, "style", style, "synopsis", synopsis, "synopsis");
  }

  /** With every field empty the target is "/generate?". */
  lemma EmptyQuickStart()
    ensures QueryOf("", "", "", "") == []
    ensures "/generate?" + Serialize(QueryOf("", "", "", "")) == "/generate?"
  {
  }
}
