/** Python's `sorted`: stable, by a key.  Also the order of strings it relies on. */
module Sorting {
  ghost predicate TotalPreorder<T(!new)>(le: (T, T) -> bool)
  {
    && (forall x, y :: le(x, y) || le(y, x))
    && (forall x, y, z :: le(x, y) && le(y, z) ==> le(x, z))
  }

  ghost predicate Sorted<T>(s: seq<T>, le: (T, T) -> bool)
  {
    forall i, j | 0 <= i < j < |s| :: le(s[i], s[j])
  }

  /** x goes behind everything that is not greater. */
  function Insert<T>(s: seq<T>, x: T, le: (T, T) -> bool): (r: seq<T>)
    ensures |r| == |s| + 1
  {
    if s == [] then [x]
    else if le(s[|s| - 1], x) then s + [x]
    else Insert(s[..|s| - 1], x, le) + [s[|s| - 1]]
  }

  function StableSort<T>(s: seq<T>, le: (T, T) -> bool): (r: seq<T>)
    ensures |r| == |s|
  {
    if s == [] then [] else Insert(StableSort(s[..|s| - 1], le), s[|s| - 1], le)
  }

  lemma {:induction false} InsertKeepsElements<T>(s: seq<T>, x: T, le: (T, T) -> bool)
    ensures multiset(Insert(s, x, le)) == multiset(s) + multiset{x}
  {
    if s == [] || le(s[|s| - 1], x) {
    } else {
      InsertKeepsElements(s[..|s| - 1], x, le);
      assert s == s[..|s| - 1] + [s[|s| - 1]];
    }
  }

  lemma {:induction false} InsertIsSorted<T(!new)>(s: seq<T>, x: T, le: (T, T) -> bool)
    requires TotalPreorder(le) && Sorted(s, le)
    ensures Sorted(Insert(s, x, le), le)
  {
    if s == [] {
    } else {
      var last := s[|s| - 1];
      if le(last, x) {
        forall i | 0 <= i < |s| ensures le(s[i], x) { assert le(s[i], last); }
      } else {
        var rest := Insert(s[..|s| - 1], x, le);
        InsertIsSorted(s[..|s| - 1], x, le);
        InsertKeepsElements(s[..|s| - 1], x, le);
        forall i | 0 <= i < |rest| ensures le(rest[i], last) {
          assert rest[i] in multiset(rest);
          assert rest[i] == x || rest[i] in s[..|s| - 1];
        }
      }
    }
  }

  /** The result is sorted and has exactly the elements of the input. */
  lemma {:induction false} SortsElements<T(!new)>(s: seq<T>, le: (T, T) -> bool)
    requires TotalPreorder(le)
    ensures Sorted(StableSort(s, le), le)
    ensures multiset(StableSort(s, le)) == multiset(s)
  {
    if s == [] {
    } else {
      SortsElements(s[..|s| - 1], le);
      InsertIsSorted(StableSort(s[..|s| - 1], le), s[|s| - 1], le);
      InsertKeepsElements(StableSort(s[..|s| - 1], le), s[|s| - 1], le);
      assert s == s[..|s| - 1] + [s[|s| - 1]];
    }
  }

  /** The elements of s that compare equal to k, in their order. */
  function Peers<T>(s: seq<T>, k: T, le: (T, T) -> bool): seq<T>
  {
    if s == [] then []
    else Peers(s[..|s| - 1], k, le) + if le(s[|s| - 1], k) && le(k, s[|s| - 1]) then [s[|s| - 1]] else []
  }

  lemma {:induction false} InsertIsStable<T(!new)>(s: seq<T>, x: T, k: T, le: (T, T) -> bool)
    requires TotalPreorder(le) && Sorted(s, le)
    ensures Peers(Insert(s, x, le), k, le) == Peers(s + [x], k, le)
  {
    assert (s + [x])[..|s|] == s;
    if s != [] && !le(s[|s| - 1], x) {
      var last, rest := s[|s| - 1], s[..|s| - 1];
      InsertIsStable(rest, x, k, le);
      var r := Insert(s, x, le);
      assert r[..|s|] == Insert(rest, x, le);
      assert (rest + [x])[..|rest|] == rest;
      // x and last differ, so at most one of them is a peer of k
    }
  }

  /** Elements that compare equal keep the order they had. */
  lemma {:induction false} KeepsOrderOfPeers<T(!new)>(s: seq<T>, k: T, le: (T, T) -> bool)
    requires TotalPreorder(le)
    ensures Peers(StableSort(s, le), k, le) == Peers(s, k, le)
  {
    if s == [] {
    } else {
      var rest, last := s[..|s| - 1], s[|s| - 1];
      KeepsOrderOfPeers(rest, k, le);
      SortsElements(rest, le);
      InsertIsStable(StableSort(rest, le), last, k, le);
      assert (StableSort(rest, le) + [last])[..|rest|] == StableSort(rest, le);
    }
  }

  lemma {:induction false} PeersAreMembers<T(!new)>(s: seq<T>, k: T, le: (T, T) -> bool)
    ensures forall x :: x in Peers(s, k, le) <==> x in s && le(x, k) && le(k, x)
  {
    if s == [] {
    } else {
      PeersAreMembers(s[..|s| - 1], k, le);
      assert s == s[..|s| - 1] + [s[|s| - 1]];
    }
  }

  /** The last of s is somewhere in t, so it is not greater than the last of t. */
  lemma LastNotGreater<T(!new)>(s: seq<T>, t: seq<T>, le: (T, T) -> bool)
    requires TotalPreorder(le) && Sorted(t, le) && s != []
    requires Peers(s, s[|s| - 1], le) == Peers(t, s[|s| - 1], le)
    ensures t != [] && le(s[|s| - 1], t[|t| - 1])
  {
    var x := s[|s| - 1];
    PeersAreMembers(s, x, le);
    PeersAreMembers(t, x, le);
    assert x in Peers(s, x, le);
  }

  /** The last element of s, when it is a peer of k, is the last of the peers. */
  lemma LastPeer<T>(s: seq<T>, k: T, le: (T, T) -> bool)
    requires s != [] && le(s[|s| - 1], k) && le(k, s[|s| - 1])
    ensures Peers(s, k, le) != [] && Peers(s, k, le)[|Peers(s, k, le)| - 1] == s[|s| - 1]
  {
  }

  lemma SameLast<T(!new)>(s: seq<T>, t: seq<T>, le: (T, T) -> bool)
    requires TotalPreorder(le) && Sorted(s, le) && Sorted(t, le) && s != []
    requires t != [] ==> Peers(s, t[|t| - 1], le) == Peers(t, t[|t| - 1], le)
    requires Peers(s, s[|s| - 1], le) == Peers(t, s[|s| - 1], le)
    ensures t != [] && s[|s| - 1] == t[|t| - 1]
  {
    var x := s[|s| - 1];
    LastNotGreater(s, t, le);
    LastNotGreater(t, s, le);
    LastPeer(s, x, le);
    LastPeer(t, x, le);
  }

  lemma WithoutLast<T(!new)>(s: seq<T>, t: seq<T>, k: T, le: (T, T) -> bool)
    requires s != [] && t != [] && s[|s| - 1] == t[|t| - 1] && Peers(s, k, le) == Peers(t, k, le)
    ensures Peers(s[..|s| - 1], k, le) == Peers(t[..|t| - 1], k, le)
  {
    var before, after := Peers(s[..|s| - 1], k, le), Peers(t[..|t| - 1], k, le);
    assert before == Peers(s, k, le)[..|before|];
    assert after == Peers(t, k, le)[..|after|];
  }

  /** Order and stability leave one arrangement only: a sorted list that keeps the order of equal
      elements of another is its stable sort. */
  lemma {:induction false} SortedAndStableIsUnique<T(!new)>(s: seq<T>, t: seq<T>, le: (T, T) -> bool)
    requires TotalPreorder(le) && Sorted(s, le) && Sorted(t, le)
    requires forall k :: Peers(s, k, le) == Peers(t, k, le)
    ensures s == t
  {
    if s == [] {
      if t != [] {
        SameLast(t, s, le);
      }
    } else {
      SameLast(s, t, le);
      var s', t' := s[..|s| - 1], t[..|t| - 1];
      forall k
        ensures Peers(s', k, le) == Peers(t', k, le)
      {
        assert Peers(s, k, le) == Peers(t, k, le);
        WithoutLast(s, t, k, le);
      }
      SortedAndStableIsUnique(s', t', le);
      assert s == s' + [s[|s| - 1]] && t == t' + [t[|t| - 1]];
    }
  }

  // ----- strings -----

  /** Lexicographic order by code point. */
  predicate StringLe(a: string, b: string)
  {
    a == [] || (b != [] && (a[0] < b[0] || (a[0] == b[0] && StringLe(a[1..], b[1..]))))
  }

  lemma {:induction false} StringLeTotal(a: string, b: string)
    ensures StringLe(a, b) || StringLe(b, a)
    ensures StringLe(a, b) && StringLe(b, a) ==> a == b
  {
    if a == [] || b == [] || a[0] != b[0] {
    } else {
      StringLeTotal(a[1..], b[1..]);
      assert a == [a[0]] + a[1..] && b == [b[0]] + b[1..];
    }
  }

  lemma {:induction false} StringLeTransitive(a: string, b: string, c: string)
    requires StringLe(a, b) && StringLe(b, c)
    ensures StringLe(a, c)
  {
    if a == [] || a[0] != b[0] || b[0] != c[0] {
    } else {
      StringLeTransitive(a[1..], b[1..], c[1..]);
    }
  }

  /** The first k characters agree and then a's is smaller. */
  ghost predicate SmallerAt(a: string, b: string, k: nat)
  {
    k < |a| && k < |b| && a[k] < b[k] && forall i | 0 <= i < k :: a[i] == b[i]
  }

  /** A string comes before another exactly when it is a prefix of it, or smaller where they first differ. */
  lemma {:induction false} StringLeIff(a: string, b: string)
    ensures StringLe(a, b) <==> a <= b || exists k: nat :: SmallerAt(a, b, k)
  {
    if a == [] || b == [] {
    } else if a[0] != b[0] {
      assert a[0] < b[0] ==> SmallerAt(a, b, 0);
    } else {
      StringLeIff(a[1..], b[1..]);
      assert a == [a[0]] + a[1..] && b == [b[0]] + b[1..];
      if k: nat :| SmallerAt(a[1..], b[1..], k) {
        assert SmallerAt(a, b, k + 1);
      }
      if k: nat :| SmallerAt(a, b, k) {
        assert SmallerAt(a[1..], b[1..], k - 1);
      }
    }
  }
}
