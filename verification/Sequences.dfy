/** Nested loops that collect what every element contributes. */
module Sequences {
  /** The contributions of all elements, one after the other. */
  function FlatMap<A, B>(s: seq<A>, f: A -> seq<B>): seq<B>
  {
    if s == [] then [] else FlatMap(s[..|s| - 1], f) + f(s[|s| - 1])
  }

  lemma OneMore<A, B>(s: seq<A>, x: A, f: A -> seq<B>)
    ensures FlatMap(s + [x], f) == FlatMap(s, f) + f(x)
  {
    assert (s + [x])[..|s|] == s;
  }

  /** No element contributes nothing, and one element its own. */
  lemma FlatMapOfOne<A, B>(x: A, f: A -> seq<B>)
    ensures FlatMap([], f) == [] && FlatMap([x], f) == f(x)
  {
    assert [x][..0] == [];
  }

  /** Some elements and then others contribute what the first do, followed by what the others do. */
  lemma {:induction false} FlatMapConcatenates<A, B>(s: seq<A>, t: seq<A>, f: A -> seq<B>)
    ensures FlatMap(s + t, f) == FlatMap(s, f) + FlatMap(t, f)
    decreases |t|
  {
    if t == [] {
      assert s + t == s;
    } else {
      var init, last := t[..|t| - 1], t[|t| - 1];
      assert t == init + [last] && s + t == (s + init) + [last];
      FlatMapConcatenates(s, init, f);
      OneMore(s + init, last, f);
      OneMore(init, last, f);
    }
  }

  /** So the j-th thing element i contributes comes right behind all contributions of the earlier elements. */
  lemma {:induction false} FlatMapAt<A, B>(s: seq<A>, f: A -> seq<B>, i: nat, j: nat)
    requires i < |s| && j < |f(s[i])|
    ensures |FlatMap(s[..i], f)| + j < |FlatMap(s, f)|
    ensures FlatMap(s, f)[|FlatMap(s[..i], f)| + j] == f(s[i])[j]
  {
    var init, last := s[..|s| - 1], s[|s| - 1];
    assert s == init + [last];
    OneMore(init, last, f);
    if i == |s| - 1 {
    } else {
      FlatMapAt(init, f, i, j);
      assert init[..i] == s[..i];
    }
  }
}
