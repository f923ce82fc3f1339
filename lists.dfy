/** List rules shared by the pages: `filter(x => x !== v)` and the toggle-membership idiom. */
module Lists {

  /** `xs.filter(y => y !== x)`: every occurrence of `x` removed, the rest kept in order. */
  function RemoveAll<T(==)>(xs: seq<T>, x: T): (r: seq<T>)
    ensures x !in r
    ensures forall i :: 0 <= i < |r| ==> r[i] in xs
    ensures forall i :: 0 <= i < |xs| && xs[i] != x ==> xs[i] in r
    ensures |r| <= |xs|
    ensures x !in xs ==> r == xs
    decreases |xs|
  {
    if xs == [] then []
    else
      var tail := RemoveAll(xs[1..], x);
      if xs[0] == x then tail
      else
        assert xs == [xs[0]] + xs[1..];
        [xs[0]] + tail
  }

  /** `xs.includes(x) ? xs.filter(y => y !== x) : [...xs, x]`. */
  function Toggle<T(==)>(xs: seq<T>, x: T): (r: seq<T>)
    ensures x in r <==> x !in xs
    ensures forall i :: 0 <= i < |r| && r[i] != x ==> r[i] in xs
    ensures forall i :: 0 <= i < |xs| && xs[i] != x ==> xs[i] in r
    ensures x !in xs ==> |r| == |xs| + 1 && r[..|xs|] == xs && r[|xs|] == x
  {
    if x in xs then RemoveAll(xs, x) else xs + [x]
  }

  /** Removing the element that was just appended gives back the list. */
  lemma {:induction false} RemoveAllAppended<T>(xs: seq<T>, x: T)
    requires x !in xs
    ensures RemoveAll(xs + [x], x) == xs
    decreases |xs|
  {
    if xs != [] {
      assert (xs + [x])[1..] == xs[1..] + [x];
      RemoveAllAppended(xs[1..], x);
      assert xs == [xs[0]] + xs[1..];
    }
  }

  /** Toggling an absent value twice restores the list. */
  lemma ToggleTwiceAbsent<T>(xs: seq<T>, x: T)
    requires x !in xs
    ensures Toggle(Toggle(xs, x), x) == xs
  {
    assert x in xs + [x];
    RemoveAllAppended(xs, x);
  }

  /** Toggling a present value twice moves a single copy of it to the end. */
  lemma ToggleTwicePresent<T>(xs: seq<T>, x: T)
    requires x in xs
    ensures Toggle(Toggle(xs, x), x) == RemoveAll(xs, x) + [x]
  {
  }

  /** Filtering distributes over appending one element. */
  lemma {:induction false} RemoveAllSnoc<T>(xs: seq<T>, y: T, x: T)
    ensures RemoveAll(xs + [y], x) == RemoveAll(xs, x) + (if y == x then [] else [y])
    decreases |xs|
  {
    if xs != [] {
      assert (xs + [y])[1..] == xs[1..] + [y];
      RemoveAllSnoc(xs[1..], y, x);
    }
  }
}
