/**
  Python's `sorted(xs, key=..., reverse=...)` as a stable insertion sort under a
  comparator `le`, where `le(a, b)` says that `a` may stand before `b`. For the
  orders used by the bot `le` is a total preorder, and then the result is
  sorted, a permutation of the input, and keeps the input order of elements
  that compare equal — the three properties that determine Python's result.
 */
module Sorting {

  ghost predicate Total<T(!new)>(le: (T, T) -> bool) {
    forall a, b :: le(a, b) || le(b, a)
  }

  ghost predicate Transitive<T(!new)>(le: (T, T) -> bool) {
    forall a, b, c :: le(a, b) && le(b, c) ==> le(a, c)
  }

  ghost predicate TotalPreorder<T(!new)>(le: (T, T) -> bool) {
    Total(le) && Transitive(le)
  }

  predicate SortedBy<T>(s: seq<T>, le: (T, T) -> bool) {
    forall i, j :: 0 <= i < j < |s| ==> le(s[i], s[j])
  }

  /** Inserts `x` before the first element it may precede. */
  function Insert<T>(x: T, s: seq<T>, le: (T, T) -> bool): (r: seq<T>)
    ensures multiset(r) == multiset(s) + multiset{x}
    ensures |r| == |s| + 1
  {
    if |s| == 0 then [x]
    else if le(x, s[0]) then [x] + s
    else
      assert s == [s[0]] + s[1..];
      [s[0]] + Insert(x, s[1..], le)
  }

  /** The stable sort: the head of the input goes in front of its equals. */
  function SortBy<T>(s: seq<T>, le: (T, T) -> bool): (r: seq<T>)
    ensures |r| == |s|
  {
    if |s| == 0 then [] else Insert(s[0], SortBy(s[1..], le), le)
  }

  lemma {:induction false} SortByPermutation<T>(s: seq<T>, le: (T, T) -> bool)
    ensures multiset(SortBy(s, le)) == multiset(s)
    ensures |SortBy(s, le)| == |s|
  {
    if |s| > 0 {
      var t := SortBy(s[1..], le);
      assert multiset(t) == multiset(s[1..]) by {
        SortByPermutation(s[1..], le);
      }
      assert multiset(s) == multiset(s[1..]) + multiset{s[0]} by {
        assert s == [s[0]] + s[1..];
      }
      assert SortBy(s, le) == Insert(s[0], t, le);
    }
  }

  lemma {:induction false} InsertSorted<T(!new)>(x: T, s: seq<T>, le: (T, T) -> bool)
    requires TotalPreorder(le)
    requires SortedBy(s, le)
    ensures SortedBy(Insert(x, s, le), le)
  {
    if |s| > 0 && !le(x, s[0]) {
      assert le(s[0], x);
      InsertSorted(x, s[1..], le);
      var r := Insert(x, s[1..], le);
      assert forall k :: 0 <= k < |r| ==> le(s[0], r[k]) by {
        forall k | 0 <= k < |r| ensures le(s[0], r[k]) {
          assert r[k] in multiset(r);
          assert r[k] == x || r[k] in multiset(s[1..]);
          if r[k] != x {
            var m :| 0 <= m < |s[1..]| && s[1..][m] == r[k];
            assert s[1 + m] == r[k];
          }
        }
      }
      assert Insert(x, s, le) == [s[0]] + r;
    } else if |s| > 0 {
      forall j | 0 <= j < |s| ensures le(x, s[j]) {
        if j > 0 { assert le(s[0], s[j]); }
      }
    }
  }

  lemma {:induction false} SortBySorted<T(!new)>(s: seq<T>, le: (T, T) -> bool)
    requires TotalPreorder(le)
    ensures SortedBy(SortBy(s, le), le)
  {
    if |s| > 0 {
      SortBySorted(s[1..], le);
      InsertSorted(s[0], SortBy(s[1..], le), le);
    }
  }

  /** The elements of `s` that compare equal to `z`, in their order in `s`. */
  function Tied<T>(s: seq<T>, le: (T, T) -> bool, z: T): seq<T>
  {
    if |s| == 0 then []
    else (if le(s[0], z) && le(z, s[0]) then [s[0]] else []) + Tied(s[1..], le, z)
  }

  lemma {:induction false} TiedConcat<T>(a: seq<T>, b: seq<T>, le: (T, T) -> bool, z: T)
    ensures Tied(a + b, le, z) == Tied(a, le, z) + Tied(b, le, z)
  {
    if |a| > 0 {
      TiedConcat(a[1..], b, le, z);
      assert (a + b)[1..] == a[1..] + b;
    } else {
      assert a + b == b;
    }
  }

  lemma {:induction false} InsertTied<T(!new)>(x: T, s: seq<T>, le: (T, T) -> bool, z: T)
    requires TotalPreorder(le)
    ensures Tied(Insert(x, s, le), le, z) == Tied([x], le, z) + Tied(s, le, z)
  {
    if |s| == 0 {
    } else if le(x, s[0]) {
      TiedConcat([x], s, le, z);
    } else {
      var r := Insert(x, s[1..], le);
      assert Insert(x, s, le) == [s[0]] + r;
      InsertTied(x, s[1..], le, z);
      TiedConcat([s[0]], r, le, z);
      TiedConcat([s[0]], s[1..], le, z);
      assert [s[0]] + s[1..] == s;
      TiedOne(x, le, z);
      TiedOne(s[0], le, z);
      // s[0] and x cannot both be tied with z: that would give le(x, s[0])
      assert Tied([s[0]], le, z) == [] || Tied([x], le, z) == [];
    }
  }

  lemma TiedOne<T>(x: T, le: (T, T) -> bool, z: T)
    ensures Tied([x], le, z) == if le(x, z) && le(z, x) then [x] else []
  {
    assert [x][1..] == [];
  }

  /** Stability: equal elements come out in the order they went in. */
  lemma {:induction false} SortByStable<T(!new)>(s: seq<T>, le: (T, T) -> bool, z: T)
    requires TotalPreorder(le)
    ensures Tied(SortBy(s, le), le, z) == Tied(s, le, z)
  {
    if |s| > 0 {
      var rest := SortBy(s[1..], le);
      calc {
        Tied(SortBy(s, le), le, z);
        Tied(Insert(s[0], rest, le), le, z);
        { InsertTied(s[0], rest, le, z); }
        Tied([s[0]], le, z) + Tied(rest, le, z);
        { SortByStable(s[1..], le, z); }
        Tied([s[0]], le, z) + Tied(s[1..], le, z);
        { TiedConcat([s[0]], s[1..], le, z); }
        Tied([s[0]] + s[1..], le, z);
        { assert [s[0]] + s[1..] == s; }
        Tied(s, le, z);
      }
    }
  }

  /** Everything Python's stable `sorted` promises, for one comparator. */
  lemma SortByCorrect<T(!new)>(s: seq<T>, le: (T, T) -> bool)
    requires TotalPreorder(le)
    ensures SortedBy(SortBy(s, le), le)
    ensures multiset(SortBy(s, le)) == multiset(s)
    ensures forall z :: Tied(SortBy(s, le), le, z) == Tied(s, le, z)
  {
    SortBySorted(s, le);
    SortByPermutation(s, le);
    forall z ensures Tied(SortBy(s, le), le, z) == Tied(s, le, z) {
      SortByStable(s, le, z);
    }
  }

  /**
    The first element of `s` tied with `z` heads `Tied(s, le, z)`; it is found
    at the returned index.
   */
  lemma {:induction false} TiedFirst<T>(s: seq<T>, le: (T, T) -> bool, z: T) returns (i: int)
    requires exists k :: 0 <= k < |s| && le(s[k], z) && le(z, s[k])
    ensures 0 <= i < |s| && le(s[i], z) && le(z, s[i])
    ensures forall j :: 0 <= j < i ==> !(le(s[j], z) && le(z, s[j]))
    ensures |Tied(s, le, z)| > 0 && Tied(s, le, z)[0] == s[i]
  {
    if le(s[0], z) && le(z, s[0]) {
      i := 0;
    } else {
      var k :| 0 <= k < |s| && le(s[k], z) && le(z, s[k]);
      assert s[1..][k - 1] == s[k];
      var i' := TiedFirst(s[1..], le, z);
      i := i' + 1;
      assert forall j :: 1 <= j < i ==> s[j] == s[1..][j - 1];
    }
  }

  /**
    The head of a stable sort is the first element of the input that may
    precede every other: no earlier element ranks with it.
   */
  lemma SortedHeadFirst<T(!new)>(s: seq<T>, le: (T, T) -> bool) returns (i: int)
    requires TotalPreorder(le) && |s| > 0
    ensures 0 <= i < |s| && s[i] == SortBy(s, le)[0]
    ensures forall j :: 0 <= j < |s| ==> le(s[i], s[j])
    ensures forall j :: 0 <= j < i ==> !le(s[j], s[i])
  {
    var t := SortBy(s, le);
    SortByCorrect(s, le);
    assert t[0] in multiset(s) by { assert t[0] in multiset(t); }
    var k :| 0 <= k < |s| && s[k] == t[0];
    i := TiedFirst(s, le, t[0]);
    var i0 := TiedFirst(t, le, t[0]);
    assert i0 == 0;
    forall j | 0 <= j < |s| ensures le(s[i], s[j]) {
      assert s[j] in multiset(t) by { assert s[j] in multiset(s); }
      var m :| 0 <= m < |t| && t[m] == s[j];
      assert m == 0 || le(t[0], t[m]);
    }
  }

  lemma TwoOccurrences<T>(s: seq<T>, i: int, j: int)
    requires 0 <= i < j < |s| && s[i] == s[j]
    ensures multiset(s)[s[i]] >= 2
  {
    assert s == s[..j] + s[j..];
    assert s[i] == s[..j][i];
    assert s[j..][0] == s[j];
    assert multiset(s) == multiset(s[..j]) + multiset(s[j..]);
  }

  lemma {:induction false} DistinctMultiplicity<T>(s: seq<T>, x: T)
    requires forall i, j :: 0 <= i < j < |s| ==> s[i] != s[j]
    ensures multiset(s)[x] <= 1
  {
    if |s| > 0 {
      DistinctMultiplicity(s[1..], x);
      assert s == [s[0]] + s[1..];
      if s[0] == x {
        assert x !in s[1..];
      }
    }
  }
}
