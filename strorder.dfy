/**
  Python's ordering of strings (code point by code point, a proper prefix
  first) and `sorted()` of a set of strings.
 */
module StrOrder {
  import opened Sorting

  /** `a <= b` on Python strings. */
  predicate StrLe(a: string, b: string) {
    if |a| == 0 then true
    else if |b| == 0 then false
    else if a[0] != b[0] then a[0] < b[0]
    else StrLe(a[1..], b[1..])
  }

  lemma {:induction false} StrLeTotal(a: string, b: string)
    ensures StrLe(a, b) || StrLe(b, a)
  {
    if |a| > 0 && |b| > 0 && a[0] == b[0] {
      StrLeTotal(a[1..], b[1..]);
    }
  }

  lemma {:induction false} StrLeTransitive(a: string, b: string, c: string)
    requires StrLe(a, b) && StrLe(b, c)
    ensures StrLe(a, c)
  {
    if |a| > 0 && |b| > 0 && |c| > 0 && a[0] == b[0] && b[0] == c[0] {
      StrLeTransitive(a[1..], b[1..], c[1..]);
    }
  }

  lemma {:induction false} StrLeAntisymmetric(a: string, b: string)
    requires StrLe(a, b) && StrLe(b, a)
    ensures a == b
  {
    if |a| > 0 && |b| > 0 {
      StrLeAntisymmetric(a[1..], b[1..]);
      assert a == [a[0]] + a[1..] && b == [b[0]] + b[1..];
    }
  }

  lemma StrLeTotalPreorder()
    ensures TotalPreorder(StrLe)
  {
    forall a, b ensures StrLe(a, b) || StrLe(b, a) {
      StrLeTotal(a, b);
    }
    forall a, b, c | StrLe(a, b) && StrLe(b, c) ensures StrLe(a, c) {
      StrLeTransitive(a, b, c);
    }
  }

  /** Strictly increasing: sorted and without repetitions. */
  predicate Ascending(s: seq<string>) {
    forall i, j :: 0 <= i < j < |s| ==> StrLe(s[i], s[j]) && s[i] != s[j]
  }

  function Elems(s: seq<string>): set<string> {
    set x | x in s
  }

  /** The least element of a non-empty set of strings. */
  ghost function Minimum(s: set<string>): (m: string)
    requires s != {}
    ensures m in s && forall y :: y in s ==> StrLe(m, y)
    decreases |s|
  {
    var x :| x in s;
    if s - {x} == {} then
      assert s == {x};
      assert forall y :: y in s ==> y == x;
      StrLeTotal(x, x);
      x
    else
      var m := Minimum(s - {x});
      StrLeTotal(x, m);
      if StrLe(x, m) then
        assert forall y :: y in s ==> StrLe(x, y) by {
          forall y | y in s ensures StrLe(x, y) {
            if y != x { StrLeTransitive(x, m, y); } else { StrLeTotal(x, y); }
          }
        }
        x
      else
        m
  }

  /** Python's `sorted(s)` for a set of strings. */
  ghost function SortedSet(s: set<string>): (r: seq<string>)
    ensures Ascending(r) && Elems(r) == s && |r| == |s|
    decreases |s|
  {
    if s == {} then []
    else
      var m := Minimum(s);
      var rest := SortedSet(s - {m});
      AscendingCons(m, rest, s);
      [m] + rest
  }

  /** The least element of `s` in front of the rest of `s` in ascending order is `s` in ascending order. */
  lemma AscendingCons(m: string, rest: seq<string>, s: set<string>)
    requires m in s && forall y :: y in s ==> StrLe(m, y)
    requires Ascending(rest) && Elems(rest) == s - {m}
    ensures Ascending([m] + rest) && Elems([m] + rest) == s
  {
    var r := [m] + rest;
    forall i, j | 0 <= i < j < |r| ensures StrLe(r[i], r[j]) && r[i] != r[j] {
      assert r[j] == rest[j - 1] && rest[j - 1] in Elems(rest);
      if i > 0 {
        assert r[i] == rest[i - 1];
      }
    }
    assert forall x :: x in Elems(r) <==> x == m || x in Elems(rest);
  }

  lemma HeadInElems(b: seq<string>)
    requires |b| > 0
    ensures b[0] in Elems(b)
  {
  }

  /** An ascending sequence is determined by its elements. */
  lemma {:induction false} AscendingUnique(a: seq<string>, b: seq<string>)
    requires Ascending(a) && Ascending(b) && Elems(a) == Elems(b)
    ensures a == b
    decreases |a|
  {
    if |a| > 0 {
      assert b != [] by { assert a[0] in Elems(b); }
      assert a[0] in Elems(b) && b[0] in Elems(a);
      assert StrLe(a[0], b[0]) by {
        if a[0] != b[0] {
          var k :| 0 <= k < |a| && a[k] == b[0];
          assert 0 < k && StrLe(a[0], a[k]);
        } else {
          StrLeTotal(a[0], b[0]);
        }
      }
      assert StrLe(b[0], a[0]) by {
        if a[0] != b[0] {
          var k :| 0 <= k < |b| && b[k] == a[0];
          assert 0 < k && StrLe(b[0], b[k]);
        } else {
          StrLeTotal(a[0], b[0]);
        }
      }
      StrLeAntisymmetric(a[0], b[0]);
      assert Elems(a[1..]) == Elems(a) - {a[0]} by {
        assert a == [a[0]] + a[1..];
        assert a[0] !in a[1..];
      }
      assert Elems(b[1..]) == Elems(b) - {b[0]} by {
        assert b == [b[0]] + b[1..];
        assert b[0] !in b[1..];
      }
      AscendingUnique(a[1..], b[1..]);
      assert a == [a[0]] + a[1..] && b == [b[0]] + b[1..];
    } else if |b| > 0 {
      HeadInElems(b);
      assert false;
    }
  }

  /**
    `sorted(names)` for a set of names: the set is listed in some order and
    the list sorted; any order gives the same ascending list.
   */
  method SortNames(names: set<string>) returns (r: seq<string>)
    ensures r == SortedSet(names)
  {
    var listed: seq<string> := [];
    var rest := names;
    while rest != {}
      invariant rest !! Elems(listed) && rest + Elems(listed) == names
      invariant forall i, j :: 0 <= i < j < |listed| ==> listed[i] != listed[j]
      decreases |rest|
    {
      var x :| x in rest;
      listed := listed + [x];
      rest := rest - {x};
    }
    r := SortBy(listed, StrLe);
    SortDistinct(listed);
    AscendingUnique(r, SortedSet(names));
  }

  /** Sorting a list without repetitions gives an ascending list of the same names. */
  lemma SortDistinct(listed: seq<string>)
    requires forall i, j :: 0 <= i < j < |listed| ==> listed[i] != listed[j]
    ensures Ascending(SortBy(listed, StrLe)) && Elems(SortBy(listed, StrLe)) == Elems(listed)
  {
    var r := SortBy(listed, StrLe);
    StrLeTotalPreorder();
    SortBySorted(listed, StrLe);
    SortByPermutation(listed, StrLe);
    assert Elems(r) == Elems(listed) by {
      forall x ensures x in r <==> x in listed {
        assert x in multiset(r) <==> x in multiset(listed);
      }
    }
    forall i, j | 0 <= i < j < |r| ensures r[i] != r[j] {
      if r[i] == r[j] {
        TwoOccurrences(r, i, j);
        DistinctMultiplicity(listed, r[i]);
      }
    }
  }
}
