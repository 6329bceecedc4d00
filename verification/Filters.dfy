/** List comprehensions with a condition. */
module Filters {
  function Filter<T(!new)>(s: seq<T>, p: T -> bool): (r: seq<T>)
    ensures forall x :: x in r <==> x in s && p(x)
  {
    if s == [] then [] else (if p(s[0]) then [s[0]] else []) + Filter(s[1..], p)
  }

  lemma {:induction false} FilterTwice<T(!new)>(s: seq<T>, p: T -> bool, q: T -> bool, both: T -> bool)
    requires forall x | x in s :: both(x) <==> p(x) && q(x)
    ensures Filter(Filter(s, p), q) == Filter(s, both)
  {
    if s == [] {
    } else {
      assert s[0] in s;
      var rest := Filter(s[1..], p);
      FilterTwice(s[1..], p, q, both);
      if p(s[0]) {
        assert ([s[0]] + rest)[1..] == rest;
      } else {
        assert Filter(s, p) == rest;
      }
    }
  }

  lemma {:induction false} FilterSame<T(!new)>(s: seq<T>, p: T -> bool, q: T -> bool)
    requires forall x | x in s :: p(x) == q(x)
    ensures Filter(s, p) == Filter(s, q)
  {
    if s == [] {
    } else {
      assert s[0] in s;
      FilterSame(s[1..], p, q);
    }
  }

  lemma {:induction false} FilterAppend<T(!new)>(s: seq<T>, p: T -> bool, x: T)
    ensures Filter(s + [x], p) == Filter(s, p) + if p(x) then [x] else []
  {
    if s == [] {
      assert s + [x] == [x];
    } else {
      assert (s + [x])[1..] == s[1..] + [x];
      FilterAppend(s[1..], p, x);
    }
  }

  ghost predicate OnlyAt<T(!new)>(s: seq<T>, p: T -> bool, i: int)
  {
    0 <= i < |s| && p(s[i]) && forall j | 0 <= j < |s| && j != i :: !p(s[j])
  }

  lemma {:induction false} NothingLeft<T(!new)>(s: seq<T>, p: T -> bool)
    requires forall x | x in s :: !p(x)
    ensures Filter(s, p) == []
  {
    if s == [] {
    } else {
      NothingLeft(s[1..], p);
    }
  }

  lemma {:induction false} OnlyOneLeft<T(!new)>(s: seq<T>, p: T -> bool, i: int)
    requires OnlyAt(s, p, i)
    ensures Filter(s, p) == [s[i]]
  {
    if i == 0 {
      NothingLeft(s[1..], p);
    } else {
      assert OnlyAt(s[1..], p, i - 1);
      OnlyOneLeft(s[1..], p, i - 1);
    }
  }

  lemma {:induction false} PositionOf<T(!new)>(s: seq<T>, p: T -> bool) returns (i: int)
    requires |Filter(s, p)| == 1
    ensures OnlyAt(s, p, i)
  {
    if p(s[0]) {
      i := 0;
      assert Filter(s, p) == [s[0]] + Filter(s[1..], p);
      assert |Filter(s[1..], p)| == 0;
      forall j | 0 < j < |s|
        ensures !p(s[j])
      {
        assert s[j] in s[1..];
        assert s[j] !in Filter(s[1..], p);
      }
    } else {
      var k := PositionOf(s[1..], p);
      i := k + 1;
    }
  }

  /** A filter leaves one element exactly when one position passes it, and then leaves that element. */
  lemma {:induction false} FilterSingle<T(!new)>(s: seq<T>, p: T -> bool)
    ensures |Filter(s, p)| == 1 <==> exists i :: OnlyAt(s, p, i)
    ensures forall i | OnlyAt(s, p, i) :: Filter(s, p) == [s[i]]
  {
    forall i | OnlyAt(s, p, i)
      ensures Filter(s, p) == [s[i]]
    {
      OnlyOneLeft(s, p, i);
    }
    if |Filter(s, p)| == 1 {
      var i := PositionOf(s, p);
    }
  }

  /** More than one element left means that two positions pass. */
  lemma TwoPositions<T(!new)>(s: seq<T>, p: T -> bool) returns (i: nat, j: nat)
    requires |Filter(s, p)| > 1
    ensures i < |s| && j < |s| && i != j && p(s[i]) && p(s[j])
  {
    FilterSingle(s, p);
    assert Filter(s, p)[0] in Filter(s, p);
    i :| 0 <= i < |s| && p(s[i]);
    assert !OnlyAt(s, p, i);
    j :| 0 <= j < |s| && j != i && p(s[j]);
  }

  /** Filtering does not depend on the order, up to the order. */
  lemma {:induction false} FilterElements<T(!new)>(s: seq<T>, p: T -> bool, x: T)
    ensures multiset(Filter(s, p))[x] == if p(x) then multiset(s)[x] else 0
  {
    if s == [] {
    } else {
      FilterElements(s[1..], p, x);
      assert s == [s[0]] + s[1..];
    }
  }

  lemma FilterPermuted<T(!new)>(s: seq<T>, t: seq<T>, p: T -> bool)
    requires multiset(s) == multiset(t)
    ensures multiset(Filter(s, p)) == multiset(Filter(t, p))
  {
    forall x: T
      ensures multiset(Filter(s, p))[x] == multiset(Filter(t, p))[x]
    {
      FilterElements(s, p, x);
      FilterElements(t, p, x);
    }
  }

  /** The elements of a set, listed. */
  lemma {:induction false} Enumerated<T>(elements: set<T>) returns (order: seq<T>)
    ensures forall i, j | 0 <= i < j < |order| :: order[i] != order[j]
    ensures forall x :: x in order <==> x in elements
    decreases elements
  {
    if elements == {} {
      order := [];
    } else {
      var x :| x in elements;
      var rest := Enumerated(elements - {x});
      order := [x] + rest;
      forall i, j | 0 <= i < j < |order|
        ensures order[i] != order[j]
      {
        assert order[j] in rest;
      }
    }
  }
}
