/**
  Table rows and the id counters of the migration tool: every `migrate_*` step
  appends rows whose ids are drawn from a counter (`next_id`, then
  `next_id += 1`), and the steps that register names also record each name's
  id in a dictionary. Everything here is generic in the row and key types.
 */
module Ids {
  import opened Wrappers
  import opened Dict

  /** A table row: the id drawn from a counter, then the row's other columns. */
  datatype Row<T> = Row(id: int, fields: T)

  /** The rows appended for `xs` when the counter stands at `first`: one id each, in order. */
  function Numbered<T>(xs: seq<T>, first: int): (r: seq<Row<T>>)
    ensures |r| == |xs|
  {
    if |xs| == 0 then [] else Numbered(xs[..|xs| - 1], first) + [Row(first + |xs| - 1, xs[|xs| - 1])]
  }

  /** The ids are consecutive from `first` and each row carries its own entry. */
  lemma {:induction false} NumberedAt<T>(xs: seq<T>, first: int)
    ensures forall i :: 0 <= i < |xs| ==> Numbered(xs, first)[i] == Row(first + i, xs[i])
  {
    if |xs| > 0 {
      NumberedAt(xs[..|xs| - 1], first);
    }
  }

  lemma NumberedSnoc<T>(xs: seq<T>, x: T, first: int)
    ensures Numbered(xs + [x], first) == Numbered(xs, first) + [Row(first + |xs|, x)]
  {
    assert (xs + [x])[..|xs|] == xs;
  }

  lemma NumberedOne<T>(x: T, first: int)
    ensures Numbered([x], first) == [Row(first, x)]
  {
    assert [x][..0] == [];
  }

  /** Rows appended in two runs are the rows of the runs' entries together. */
  lemma {:induction false} NumberedConcat<T>(xs: seq<T>, ys: seq<T>, first: int)
    ensures Numbered(xs + ys, first) == Numbered(xs, first) + Numbered(ys, first + |xs|)
    decreases |ys|
  {
    if |ys| > 0 {
      var n := |ys| - 1;
      assert (xs + ys)[..|xs| + n] == xs + ys[..n];
      NumberedConcat(xs, ys[..n], first);
    } else {
      assert xs + ys == xs;
    }
  }

  /** One more row, for the entry at position `i`. */
  lemma NumberedPrefix<T>(xs: seq<T>, i: int, first: int)
    requires 0 <= i < |xs|
    ensures Numbered(xs[..i + 1], first) == Numbered(xs[..i], first) + [Row(first + i, xs[i])]
  {
    assert xs[..i + 1][..i] == xs[..i];
  }

  lemma Whole<T>(xs: seq<T>)
    ensures xs[..|xs|] == xs
  {
  }

  // ---------------------------------------------------------------------------
  // Keys registered in a dictionary

  /** `m[k] = next; next += 1` for each key of `ks` in turn, the counter starting at `first`. */
  function AssignIds<K>(m: map<K, int>, ks: seq<K>, first: int): map<K, int>
  {
    if |ks| == 0 then m else AssignIds(m, ks[..|ks| - 1], first)[ks[|ks| - 1] := first + |ks| - 1]
  }

  lemma AssignIdsPrefix<K>(m: map<K, int>, ks: seq<K>, i: int, first: int)
    requires 0 <= i < |ks|
    ensures AssignIds(m, ks[..i + 1], first) == AssignIds(m, ks[..i], first)[ks[i] := first + i]
  {
    assert ks[..i + 1][..i] == ks[..i];
  }

  /**
    After the assignments a key is mapped when it was before or was assigned;
    an assigned key holds the id of its last assignment, any other key keeps
    its value.
   */
  lemma {:induction false} AssignIdsGet<K>(m: map<K, int>, ks: seq<K>, first: int, k: K)
    ensures k in AssignIds(m, ks, first) <==> k in m || k in ks
    ensures k in ks ==> exists i :: 0 <= i < |ks| && ks[i] == k && AssignIds(m, ks, first)[k] == first + i
                                    && forall j :: i < j < |ks| ==> ks[j] != k
    ensures k !in ks && k in m ==> AssignIds(m, ks, first)[k] == m[k]
  {
    if |ks| > 0 {
      var n := |ks| - 1;
      AssignIdsGet(m, ks[..n], first, k);
      assert ks == ks[..n] + [ks[n]];
      if k in ks && ks[n] != k {
        assert k in ks[..n];
        var i :| 0 <= i < n && ks[..n][i] == k && AssignIds(m, ks[..n], first)[k] == first + i
                 && forall j :: i < j < n ==> ks[..n][j] != k;
        assert ks[i] == k;
      }
    }
  }

  /** With keys that do not repeat, the key at position `i` gets id `first + i`. */
  lemma AssignIdsDistinct<K>(m: map<K, int>, ks: seq<K>, first: int)
    requires forall i, j :: 0 <= i < j < |ks| ==> ks[i] != ks[j]
    ensures forall i :: 0 <= i < |ks| ==> ks[i] in AssignIds(m, ks, first) && AssignIds(m, ks, first)[ks[i]] == first + i
  {
    forall i | 0 <= i < |ks| ensures ks[i] in AssignIds(m, ks, first) && AssignIds(m, ks, first)[ks[i]] == first + i {
      AssignIdsGet(m, ks, first, ks[i]);
      var i' :| 0 <= i' < |ks| && ks[i'] == ks[i] && AssignIds(m, ks, first)[ks[i]] == first + i'
                && forall j :: i' < j < |ks| ==> ks[j] != ks[i];
    }
  }

  /** `d[k] = next; next += 1` on an insertion-ordered dictionary, for each key of `ks` in turn. */
  function PutIds<K(==)>(d: seq<(K, int)>, ks: seq<K>, first: int): seq<(K, int)>
  {
    if |ks| == 0 then d else Put(PutIds(d, ks[..|ks| - 1], first), ks[|ks| - 1], first + |ks| - 1)
  }

  lemma PutIdsPrefix<K>(d: seq<(K, int)>, ks: seq<K>, i: int, first: int)
    requires 0 <= i < |ks|
    ensures PutIds(d, ks[..i + 1], first) == Put(PutIds(d, ks[..i], first), ks[i], first + i)
  {
    assert ks[..i + 1][..i] == ks[..i];
  }

  lemma {:induction false} PutIdsConcat<K>(d: seq<(K, int)>, ks: seq<K>, ls: seq<K>, first: int)
    ensures PutIds(d, ks + ls, first) == PutIds(PutIds(d, ks, first), ls, first + |ks|)
    decreases |ls|
  {
    if |ls| > 0 {
      var n := |ls| - 1;
      assert (ks + ls)[..|ks| + n] == ks + ls[..n];
      PutIdsConcat(d, ks, ls[..n], first);
    } else {
      assert ks + ls == ks;
    }
  }

  /**
    `d.get(k)` after the assignments: the id of the last assignment of `k`, or
    what `d` held for a key not assigned.
   */
  lemma {:induction false} PutIdsGet<K>(d: seq<(K, int)>, ks: seq<K>, first: int, k: K)
    ensures k !in ks ==> Get(PutIds(d, ks, first), k) == Get(d, k)
    ensures k in ks ==> exists i :: 0 <= i < |ks| && ks[i] == k && Get(PutIds(d, ks, first), k) == Some(first + i)
                                    && forall j :: i < j < |ks| ==> ks[j] != k
  {
    if |ks| > 0 {
      var n := |ks| - 1;
      PutIdsGet(d, ks[..n], first, k);
      GetPut(PutIds(d, ks[..n], first), ks[n], first + n, k);
      assert ks == ks[..n] + [ks[n]];
      if k in ks && ks[n] != k {
        assert k in ks[..n];
        var i :| 0 <= i < n && ks[..n][i] == k && Get(PutIds(d, ks[..n], first), k) == Some(first + i)
                 && forall j :: i < j < n ==> ks[..n][j] != k;
        assert ks[i] == k;
      }
    }
  }

  // ---------------------------------------------------------------------------
  // Lists built element by element

  /** `[f(x) for x in xs]`. */
  function Apply<A, B>(xs: seq<A>, f: A -> B): (r: seq<B>)
    ensures |r| == |xs|
  {
    if |xs| == 0 then [] else Apply(xs[..|xs| - 1], f) + [f(xs[|xs| - 1])]
  }

  lemma {:induction false} ApplyAt<A, B>(xs: seq<A>, f: A -> B)
    ensures forall i :: 0 <= i < |xs| ==> Apply(xs, f)[i] == f(xs[i])
  {
    if |xs| > 0 {
      var n := |xs| - 1;
      assert forall i :: 0 <= i < n ==> xs[..n][i] == xs[i];
      ApplyAt(xs[..n], f);
    }
  }

  lemma ApplyPrefix<A, B>(xs: seq<A>, i: int, f: A -> B)
    requires 0 <= i < |xs|
    ensures Apply(xs[..i + 1], f) == Apply(xs[..i], f) + [f(xs[i])]
  {
    assert xs[..i + 1][..i] == xs[..i];
  }

  function Same<T>(x: T): T { x }

  lemma {:induction false} ApplySame<T>(xs: seq<T>)
    ensures Apply(xs, Same) == xs
  {
    if |xs| > 0 {
      ApplySame(xs[..|xs| - 1]);
    }
  }

  /** `for x in xs: out.extend(f(x))`: the lists of the elements one after the other. */
  function Gather<A, B>(xs: seq<A>, f: A -> seq<B>): seq<B>
    decreases |xs|, 1
  {
    if |xs| == 0 then [] else GatherThrough(xs, f)
  }

  /**
    `Gather` of a non-empty list, through its last element. Each element's
    list is reached through this second function, so that a proof that only
    asks for the lists of the earlier elements unfolds no more than those.
   */
  function GatherThrough<A, B>(xs: seq<A>, f: A -> seq<B>): seq<B>
    requires |xs| > 0
    decreases |xs|, 0
  {
    Gather(xs[..|xs| - 1], f) + f(xs[|xs| - 1])
  }

  lemma GatherPrefix<A, B>(xs: seq<A>, i: int, f: A -> seq<B>)
    requires 0 <= i < |xs|
    ensures Gather(xs[..i + 1], f) == Gather(xs[..i], f) + f(xs[i])
  {
    assert xs[..i + 1][..i] == xs[..i];
  }

  /** The rows of one more item's entries, appended behind the rows of the items so far. */
  lemma GatherRows<A, B>(xs: seq<A>, i: int, f: A -> seq<B>, first: int)
    requires 0 <= i < |xs|
    ensures Numbered(Gather(xs[..i + 1], f), first) == Numbered(Gather(xs[..i], f), first) + Numbered(f(xs[i]), first + |Gather(xs[..i], f)|)
    ensures |Gather(xs[..i + 1], f)| == |Gather(xs[..i], f)| + |f(xs[i])|
  {
    GatherPrefix(xs, i, f);
    NumberedConcat(Gather(xs[..i], f), f(xs[i]), first);
  }

  /**
    One item of a loop over `xs` that registers the keys of each item in a
    dictionary and numbers them: the state after item `i` continues the state
    after the items before it.
   */
  lemma GatherIdsStep<A, K>(d0: seq<(K, int)>, xs: seq<A>, i: int, f: A -> seq<K>, first: int,
                            d: seq<(K, int)>, rows: seq<Row<K>>, next: int,
                            d': seq<(K, int)>, added: seq<Row<K>>, next': int)
    requires 0 <= i < |xs|
    requires d == PutIds(d0, Gather(xs[..i], f), first)
    requires rows == Numbered(Gather(xs[..i], f), first)
    requires next == first + |Gather(xs[..i], f)|
    requires d' == PutIds(d, f(xs[i]), next) && added == Numbered(f(xs[i]), next) && next' == next + |f(xs[i])|
    ensures d' == PutIds(d0, Gather(xs[..i + 1], f), first)
    ensures rows + added == Numbered(Gather(xs[..i + 1], f), first)
    ensures next' == first + |Gather(xs[..i + 1], f)|
  {
    GatherPrefix(xs, i, f);
    GatherRows(xs, i, f, first);
    PutIdsConcat(d0, Gather(xs[..i], f), f(xs[i]), first);
  }

  /** One item of a loop over `xs`: the rows `added` of item `i` go behind the rows so far. */
  method AppendGathered<A, B>(ghost xs: seq<A>, ghost i: int, ghost f: A -> seq<B>, rows: seq<Row<B>>, added: seq<Row<B>>,
                             ghost next: int, ghost first: int)
    returns (rows': seq<Row<B>>)
    requires 0 <= i < |xs|
    requires rows == Numbered(Gather(xs[..i], f), first) && next == first + |Gather(xs[..i], f)|
    requires added == Numbered(f(xs[i]), next)
    ensures rows' == Numbered(Gather(xs[..i + 1], f), first)
    ensures |Gather(xs[..i + 1], f)| == |Gather(xs[..i], f)| + |f(xs[i])|
  {
    GatherRows(xs, i, f, first);
    rows' := rows + added;
  }

  /** An entry of the gathered list comes from the list of some element, and every such entry is in it. */
  /** The entries of the first `j` items are the start of the entries of all items. */
  lemma {:induction false} GatherPrefixOf<A, B>(xs: seq<A>, j: int, f: A -> seq<B>)
    requires 0 <= j <= |xs|
    ensures Gather(xs[..j], f) <= Gather(xs, f)
    decreases |xs|
  {
    if j < |xs| {
      var n := |xs| - 1;
      assert xs[..n][..j] == xs[..j];
      GatherPrefixOf(xs[..n], j, f);
      assert Gather(xs, f) == Gather(xs[..n], f) + f(xs[n]);
    } else {
      assert xs[..j] == xs;
    }
  }

  /** The item whose entries hold the `i`-th gathered entry. */
  lemma GatheredFrom<A, B>(xs: seq<A>, f: A -> seq<B>, i: int) returns (j: int)
    requires 0 <= i < |Gather(xs, f)|
    ensures 0 <= j < |xs| && Gather(xs, f)[i] in f(xs[j])
  {
    GatherHas(xs, f, Gather(xs, f)[i]);
    j :| 0 <= j < |xs| && Gather(xs, f)[i] in f(xs[j]);
  }

  /** The rows of item `j`'s entries sit, in order, right after the rows of the items before it. */
  lemma GatheredRun<A, B>(xs: seq<A>, f: A -> seq<B>, j: int, first: int)
    requires 0 <= j < |xs|
    ensures var lo := |Gather(xs[..j], f)|;
            var rows := Numbered(Gather(xs, f), first);
            && lo + |f(xs[j])| <= |rows|
            && forall i :: 0 <= i < |f(xs[j])| ==> rows[lo + i] == Row(first + lo + i, f(xs[j])[i])
  {
    var ts := Gather(xs, f);
    var pre := Gather(xs[..j], f);
    var run := f(xs[j]);
    assert pre + run <= ts by {
      GatherPrefix(xs, j, f);
      GatherPrefixOf(xs, j + 1, f);
    }
    NumberedAt(ts, first);
    forall i | 0 <= i < |run| ensures Numbered(ts, first)[|pre| + i] == Row(first + |pre| + i, run[i]) {
      assert ts[|pre| + i] == (pre + run)[|pre| + i];
    }
  }

  lemma {:induction false} GatherHas<A, B>(xs: seq<A>, f: A -> seq<B>, y: B)
    ensures y in Gather(xs, f) <==> exists i :: 0 <= i < |xs| && y in f(xs[i])
  {
    if |xs| > 0 {
      var n := |xs| - 1;
      GatherHas(xs[..n], f, y);
      assert Gather(xs, f) == Gather(xs[..n], f) + f(xs[n]);
      if y in Gather(xs[..n], f) {
        var i :| 0 <= i < n && y in f(xs[..n][i]);
        assert xs[..n][i] == xs[i];
      } else if y in f(xs[n]) {
        assert y in f(xs[n]);
      }
      if exists i :: 0 <= i < |xs| && y in f(xs[i]) {
        var i :| 0 <= i < |xs| && y in f(xs[i]);
        if i < n {
          assert xs[..n][i] == xs[i];
        }
      }
    }
  }

  /** `for x in xs: out |= f(x)`: the union of the sets of the elements. */
  function Union<A, B>(xs: seq<A>, f: A -> set<B>): set<B>
  {
    if |xs| == 0 then {} else Union(xs[..|xs| - 1], f) + f(xs[|xs| - 1])
  }

  lemma UnionPrefix<A, B>(xs: seq<A>, i: int, f: A -> set<B>)
    requires 0 <= i < |xs|
    ensures Union(xs[..i + 1], f) == Union(xs[..i], f) + f(xs[i])
  {
    assert xs[..i + 1][..i] == xs[..i];
  }

  lemma {:induction false} UnionHas<A, B>(xs: seq<A>, f: A -> set<B>, y: B)
    ensures y in Union(xs, f) <==> exists i :: 0 <= i < |xs| && y in f(xs[i])
  {
    if |xs| > 0 {
      var n := |xs| - 1;
      UnionHas(xs[..n], f, y);
      if exists i :: 0 <= i < |xs| && y in f(xs[i]) {
        var i :| 0 <= i < |xs| && y in f(xs[i]);
        if i < n {
          assert xs[..n][i] == xs[i];
        }
      }
    }
  }

  /** The largest key of the elements that have one; None where none has. */
  function MaxKey<T>(xs: seq<T>, key: T -> Option<nat>): (r: Option<nat>)
    ensures r.None? <==> forall i :: 0 <= i < |xs| ==> key(xs[i]).None?
    ensures r.Some? ==> (forall i :: 0 <= i < |xs| && key(xs[i]).Some? ==> key(xs[i]).value <= r.value)
                        && exists i :: 0 <= i < |xs| && key(xs[i]) == r
  {
    if |xs| == 0 then None
    else
      var n := |xs| - 1;
      var rest := MaxKey(xs[..n], key);
      assert forall i :: 0 <= i < n ==> xs[..n][i] == xs[i];
      var k := key(xs[n]);
      if k.None? then rest
      else if rest.Some? && rest.value >= k.value then rest
      else k
  }

  /** The maximum depends only on which elements there are. */
  lemma MaxKeySameElements<T>(a: seq<T>, b: seq<T>, key: T -> Option<nat>)
    requires forall x :: x in a <==> x in b
    ensures MaxKey(a, key) == MaxKey(b, key)
  {
    var ra, rb := MaxKey(a, key), MaxKey(b, key);
    if ra.Some? {
      var i :| 0 <= i < |a| && key(a[i]) == ra;
      assert a[i] in b;
    }
    if rb.Some? {
      var j :| 0 <= j < |b| && key(b[j]) == rb;
      assert b[j] in a;
    }
  }

  /** Every element satisfies `p`, checked from the end so that it unfolds one element at a time. */
  predicate All<T>(xs: seq<T>, p: T -> bool) {
    |xs| == 0 || (All(xs[..|xs| - 1], p) && p(xs[|xs| - 1]))
  }

  lemma {:induction false} AllIff<T>(xs: seq<T>, p: T -> bool)
    ensures All(xs, p) <==> forall i :: 0 <= i < |xs| ==> p(xs[i])
  {
    if |xs| > 0 {
      var n := |xs| - 1;
      assert forall i :: 0 <= i < n ==> xs[..n][i] == xs[i];
      AllIff(xs[..n], p);
    }
  }

  /** Where every element of `ys` satisfies `p`, every element of `xs` drawn from `ys` satisfies what `p` implies. */
  lemma AllOfMembers<T>(xs: seq<T>, ys: seq<T>, p: T -> bool, q: T -> bool)
    requires All(ys, p)
    requires forall x :: x in xs ==> x in ys && (p(x) ==> q(x))
    ensures All(xs, q)
  {
    AllIff(ys, p);
    AllIff(xs, q);
    forall i | 0 <= i < |xs| ensures q(xs[i]) {
      assert xs[i] in ys;
    }
  }

  lemma AllAt<T>(xs: seq<T>, p: T -> bool, i: int)
    requires All(xs, p) && 0 <= i < |xs|
    ensures p(xs[i])
  {
    AllIff(xs, p);
  }

  // ---------------------------------------------------------------------------
  // Searching an insertion-ordered dictionary

  /** The value of the first entry from position `i` on whose key satisfies `p`. */
  function FirstFrom<K>(d: seq<(K, int)>, p: K -> bool, i: nat): Option<int>
    decreases |d| - i
  {
    if i >= |d| then None else if p(d[i].0) then Some(d[i].1) else FirstFrom(d, p, i + 1)
  }

  /**
    The search finds the value of the earliest entry whose key satisfies `p`,
    and nothing exactly when no entry from `i` on does.
   */
  lemma {:induction false} FirstFromIff<K>(d: seq<(K, int)>, p: K -> bool, i: nat)
    ensures FirstFrom(d, p, i).None? <==> forall j :: i <= j < |d| ==> !p(d[j].0)
    ensures FirstFrom(d, p, i).Some? ==>
              exists j :: i <= j < |d| && p(d[j].0) && FirstFrom(d, p, i) == Some(d[j].1)
                          && forall k :: i <= k < j ==> !p(d[k].0)
    decreases |d| - i
  {
    if i < |d| && !p(d[i].0) {
      FirstFromIff(d, p, i + 1);
    }
  }

  /** `for k, v in d.items(): if p(k): found = v; break`. */
  method FindFirst<K>(d: seq<(K, int)>, p: K -> bool) returns (found: Option<int>)
    ensures found == FirstFrom(d, p, 0)
  {
    found := None;
    var i := 0;
    while i < |d|
      invariant 0 <= i <= |d|
      invariant FirstFrom(d, p, 0) == FirstFrom(d, p, i)
    {
      if p(d[i].0) {
        found := Some(d[i].1);
        break;
      }
      i := i + 1;
    }
  }

  // ---------------------------------------------------------------------------
  // Ranges of rows

  /** `{f(k) for k in range(lo, hi) if f(k) is not None}`. */
  function RowSet<T>(f: int -> Option<T>, lo: int, hi: int): set<T>
    decreases hi - lo
  {
    if hi <= lo then {} else RowSet(f, lo, hi - 1) + (if f(hi - 1).Some? then {f(hi - 1).value} else {})
  }

  /** `for k in range(lo, hi): if f(k) is not None: acc.add(f(k))`. */
  method CollectRows<T>(f: int -> Option<T>, lo: int, hi: int, acc: set<T>) returns (r: set<T>)
    ensures r == acc + RowSet(f, lo, hi)
  {
    r := acc;
    var row := lo;
    while row < hi
      invariant lo <= row && (row <= hi || row == lo)
      invariant r == acc + RowSet(f, lo, row)
      decreases hi - row
    {
      var x := f(row);
      if x.Some? {
        r := r + {x.value};
      }
      row := row + 1;
    }
  }

  lemma {:induction false} RowSetIff<T>(f: int -> Option<T>, lo: int, hi: int, x: T)
    ensures x in RowSet(f, lo, hi) <==> exists k :: lo <= k < hi && f(k) == Some(x)
    decreases hi - lo
  {
    if hi > lo {
      RowSetIff(f, lo, hi - 1, x);
    }
  }

  /** The value of the nearest row at or above `row`, down to `lo`, where `f` has one. */
  function Nearest<T>(f: int -> Option<T>, lo: int, row: int): Option<T>
    decreases row - lo
  {
    if row < lo then None else if f(row).Some? then f(row) else Nearest(f, lo, row - 1)
  }

  lemma {:induction false} NearestIsNearest<T>(f: int -> Option<T>, lo: int, row: int)
    ensures Nearest(f, lo, row).Some? ==>
              exists k :: lo <= k <= row && f(k) == Nearest(f, lo, row) && forall j :: k < j <= row ==> f(j).None?
    ensures Nearest(f, lo, row).None? ==> forall k :: lo <= k <= row ==> f(k).None?
    decreases row - lo
  {
    if row >= lo && f(row).None? {
      NearestIsNearest(f, lo, row - 1);
    }
  }

  /** A value in force at a row below `hi` is one of the values of the rows below `hi`. */
  lemma NearestInRowSet<T>(f: int -> Option<T>, lo: int, row: int, hi: int)
    requires row < hi
    ensures Nearest(f, lo, row).Some? ==> Nearest(f, lo, row).value in RowSet(f, lo, hi)
  {
    NearestIsNearest(f, lo, row);
    if Nearest(f, lo, row).Some? {
      RowSetIff(f, lo, hi, Nearest(f, lo, row).value);
    }
  }

  /** `for k in range(lo, hi): out.extend(f(k))`. */
  function Span<T>(f: int -> seq<T>, lo: int, hi: int): seq<T>
    decreases hi - lo, 1
  {
    if hi <= lo then [] else SpanThrough(f, lo, hi - 1)
  }

  /** The entries of rows `lo` to `k`, row `k` included (the same device as `GatherThrough`). */
  function SpanThrough<T>(f: int -> seq<T>, lo: int, k: int): seq<T>
    requires lo <= k
    decreases k - lo + 1, 0
  {
    Span(f, lo, k) + f(k)
  }

  lemma SpanNext<T>(f: int -> seq<T>, lo: int, k: int)
    requires lo <= k
    ensures Span(f, lo, k + 1) == Span(f, lo, k) + f(k)
  {
  }

  /** An entry of the span comes from some row of the range, and every such entry is in it. */
  lemma {:induction false} SpanHas<T>(f: int -> seq<T>, lo: int, hi: int, y: T)
    ensures y in Span(f, lo, hi) <==> exists k :: lo <= k < hi && y in f(k)
    decreases hi - lo
  {
    if hi > lo {
      SpanHas(f, lo, hi - 1, y);
    }
  }

  // ---------------------------------------------------------------------------
  // Row loops that carry a state

  /**
    A row loop `for row in range(lo, hi)` that carries a state from row to
    row: `step(s, row)` is the state after the row and the entries the row
    appends. This is the state after rows `lo` to `hi - 1`, starting from
    `s0`, and the entries of those rows one after the other.
   */
  function Fold<S, T>(step: (S, int) -> (S, seq<T>), s0: S, lo: int, hi: int): (S, seq<T>)
    decreases hi - lo, 1
  {
    if hi <= lo then (s0, []) else FoldThrough(step, s0, lo, hi - 1)
  }

  /** The loop through row `k`, row `k` included. */
  function FoldThrough<S, T>(step: (S, int) -> (S, seq<T>), s0: S, lo: int, k: int): (S, seq<T>)
    requires lo <= k
    decreases k - lo + 1, 0
  {
    var before := Fold(step, s0, lo, k);
    var r := step(before.0, k);
    (r.0, before.1 + r.1)
  }

  /**
    A loop whose state after each row `k` is `g(k)`, and `g(lo - 1)` before
    the first row, appends the entries `h(k)` of row `k` in row order.
   */
  lemma {:induction false} FoldSpan<S, T>(step: (S, int) -> (S, seq<T>), g: int -> S, h: int -> seq<T>, lo: int, hi: int)
    requires forall k :: lo <= k < hi ==> step(g(k - 1), k) == (g(k), h(k))
    ensures Fold(step, g(lo - 1), lo, hi) == (if hi <= lo then g(lo - 1) else g(hi - 1), Span(h, lo, hi))
    decreases hi - lo
  {
    if hi > lo {
      FoldSpan(step, g, h, lo, hi - 1);
    }
  }

  /** The same loop appending to two tables, each with its own counter. */
  function Fold2<S, A, B>(step: (S, int) -> (S, seq<A>, seq<B>), s0: S, lo: int, hi: int): (S, seq<A>, seq<B>)
    decreases hi - lo, 1
  {
    if hi <= lo then (s0, [], []) else Fold2Through(step, s0, lo, hi - 1)
  }

  function Fold2Through<S, A, B>(step: (S, int) -> (S, seq<A>, seq<B>), s0: S, lo: int, k: int): (S, seq<A>, seq<B>)
    requires lo <= k
    decreases k - lo + 1, 0
  {
    var before := Fold2(step, s0, lo, k);
    var r := step(before.0, k);
    (r.0, before.1 + r.1, before.2 + r.2)
  }

  lemma {:induction false} Fold2Span<S, A, B>(step: (S, int) -> (S, seq<A>, seq<B>), g: int -> S,
                                               ha: int -> seq<A>, hb: int -> seq<B>, lo: int, hi: int)
    requires forall k :: lo <= k < hi ==> step(g(k - 1), k) == (g(k), ha(k), hb(k))
    ensures Fold2(step, g(lo - 1), lo, hi) == (if hi <= lo then g(lo - 1) else g(hi - 1), Span(ha, lo, hi), Span(hb, lo, hi))
    decreases hi - lo
  {
    if hi > lo {
      Fold2Span(step, g, ha, hb, lo, hi - 1);
    }
  }

  lemma Fold2Step<S, A, B>(step: (S, int) -> (S, seq<A>, seq<B>), s0: S, lo: int, row: int)
    requires lo <= row
    ensures Fold2(step, s0, lo, row + 1).0 == step(Fold2(step, s0, lo, row).0, row).0
    ensures Fold2(step, s0, lo, row + 1).1 == Fold2(step, s0, lo, row).1 + step(Fold2(step, s0, lo, row).0, row).1
    ensures Fold2(step, s0, lo, row + 1).2 == Fold2(step, s0, lo, row).2 + step(Fold2(step, s0, lo, row).0, row).2
  {
  }

  /** Rows appended behind the rows of `xs`, for the entries `ys`, from the counter where `xs` left it. */
  lemma NumberedAppend<T>(xs: seq<T>, ys: seq<T>, first: int, rows: seq<Row<T>>, added: seq<Row<T>>)
    requires rows == Numbered(xs, first)
    requires added == Numbered(Apply(ys, Same), first + |xs|)
    ensures rows + added == Numbered(xs + ys, first)
  {
    ApplySame(ys);
    NumberedConcat(xs, ys, first);
  }

  /** The rows of `ys` appended behind the rows of `xs`, numbered on from where `xs` left the counter. */
  method AppendNumbered<T>(ghost xs: seq<T>, ys: seq<T>, ghost first: int, rows: seq<Row<T>>, next: int)
    returns (rows': seq<Row<T>>, next': int)
    requires rows == Numbered(xs, first) && next == first + |xs|
    ensures rows' == Numbered(xs + ys, first) && next' == first + |xs + ys|
  {
    var added;
    added, next' := AppendRows(ys, Same, next);
    NumberedAppend(xs, ys, first, rows, added);
    rows' := rows + added;
  }

  /** One row of a row loop without state: the entries `found` of row `row` get the next ids. */
  method AppendSpanRow<T>(ghost f: int -> seq<T>, ghost lo: int, ghost row: int, found: seq<T>, rows: seq<Row<T>>, next: int, ghost first: int)
    returns (rows': seq<Row<T>>, next': int)
    requires lo <= row && found == f(row)
    requires rows == Numbered(Span(f, lo, row), first) && next == first + |Span(f, lo, row)|
    ensures rows' == Numbered(Span(f, lo, row + 1), first)
    ensures next' == first + |Span(f, lo, row + 1)|
  {
    var added;
    added, next' := AppendRows(found, Same, next);
    NumberedAppend(Span(f, lo, row), found, first, rows, added);
    rows' := rows + added;
  }

  /** The row loop itself: each entry a row yields is appended under the next id. */
  method FoldRows<S, T>(step: (S, int) -> (S, seq<T>), s0: S, lo: int, hi: int, first: int)
    returns (s: S, rows: seq<Row<T>>, next: int)
    ensures s == Fold(step, s0, lo, hi).0
    ensures rows == Numbered(Fold(step, s0, lo, hi).1, first)
    ensures next == first + |Fold(step, s0, lo, hi).1|
  {
    s, rows, next := s0, [], first;
    var row := lo;
    while row < hi
      invariant lo <= row && (row <= hi || row == lo)
      invariant s == Fold(step, s0, lo, row).0
      invariant rows == Numbered(Fold(step, s0, lo, row).1, first)
      invariant next == first + |Fold(step, s0, lo, row).1|
      decreases hi - row
    {
      var r := step(s, row);
      rows, next := AppendNumbered(Fold(step, s0, lo, row).1, r.1, first, rows, next);
      s := r.0;
      row := row + 1;
    }
  }

  method Fold2Rows<S, A, B>(step: (S, int) -> (S, seq<A>, seq<B>), s0: S, lo: int, hi: int, aFirst: int, bFirst: int)
    returns (s: S, aRows: seq<Row<A>>, aNext: int, bRows: seq<Row<B>>, bNext: int)
    ensures s == Fold2(step, s0, lo, hi).0
    ensures aRows == Numbered(Fold2(step, s0, lo, hi).1, aFirst)
    ensures aNext == aFirst + |Fold2(step, s0, lo, hi).1|
    ensures bRows == Numbered(Fold2(step, s0, lo, hi).2, bFirst)
    ensures bNext == bFirst + |Fold2(step, s0, lo, hi).2|
  {
    s, aRows, aNext, bRows, bNext := s0, [], aFirst, [], bFirst;
    var row := lo;
    while row < hi
      invariant lo <= row && (row <= hi || row == lo)
      invariant s == Fold2(step, s0, lo, row).0
      invariant aRows == Numbered(Fold2(step, s0, lo, row).1, aFirst)
      invariant aNext == aFirst + |Fold2(step, s0, lo, row).1|
      invariant bRows == Numbered(Fold2(step, s0, lo, row).2, bFirst)
      invariant bNext == bFirst + |Fold2(step, s0, lo, row).2|
      decreases hi - row
    {
      ghost var before := Fold2(step, s0, lo, row);
      var r := step(s, row);
      Fold2Step(step, s0, lo, row);
      aRows, aNext := AppendNumbered(before.1, r.1, aFirst, aRows, aNext);
      bRows, bNext := AppendNumbered(before.2, r.2, bFirst, bRows, bNext);
      s := r.0;
      row := row + 1;
    }
  }

  // ---------------------------------------------------------------------------
  // The appending loops

  /**
    The loop shared by the steps that register keys: each key of `xs` in turn
    is mapped to the counter in `m0` and gets the row `f(x)` under that id,
    and the counter moves on.
   */
  method NumberRows<A, B>(xs: seq<A>, f: A -> B, m0: map<A, int>, first: int)
    returns (m: map<A, int>, rows: seq<Row<B>>, next: int)
    ensures m == AssignIds(m0, xs, first)
    ensures rows == Numbered(Apply(xs, f), first)
    ensures next == first + |xs|
  {
    m, rows, next := m0, [], first;
    var i := 0;
    while i < |xs|
      invariant 0 <= i <= |xs|
      invariant m == AssignIds(m0, xs[..i], first)
      invariant rows == Numbered(Apply(xs[..i], f), first)
      invariant next == first + i
    {
      var x := xs[i];
      m := m[x := next];
      rows := rows + [Row(next, f(x))];
      next := next + 1;
      AssignIdsPrefix(m0, xs, i, first);
      ApplyPrefix(xs, i, f);
      NumberedSnoc(Apply(xs[..i], f), f(x), first);
      i := i + 1;
    }
    Whole(xs);
  }

  /** `table.append([next_id, *f(x)]); next_id += 1` for each `x` of `xs` in turn. */
  method AppendRows<A, B>(xs: seq<A>, f: A -> B, first: int)
    returns (rows: seq<Row<B>>, next: int)
    ensures rows == Numbered(Apply(xs, f), first)
    ensures next == first + |xs|
  {
    rows, next := [], first;
    var i := 0;
    while i < |xs|
      invariant 0 <= i <= |xs|
      invariant rows == Numbered(Apply(xs[..i], f), first)
      invariant next == first + i
    {
      var x := xs[i];
      rows := rows + [Row(next, f(x))];
      next := next + 1;
      ApplyPrefix(xs, i, f);
      NumberedSnoc(Apply(xs[..i], f), f(x), first);
      i := i + 1;
    }
    Whole(xs);
  }

  /**
    `d[k] = next_id; table.append([next_id, *k]); next_id += 1` for each key
    of `ks` in turn, on an insertion-ordered dictionary.
   */
  method RegisterKeys<K(==)>(ks: seq<K>, d0: seq<(K, int)>, first: int)
    returns (d: seq<(K, int)>, rows: seq<Row<K>>, next: int)
    ensures d == PutIds(d0, ks, first)
    ensures rows == Numbered(ks, first)
    ensures next == first + |ks|
  {
    d, rows, next := d0, [], first;
    var i := 0;
    while i < |ks|
      invariant 0 <= i <= |ks|
      invariant d == PutIds(d0, ks[..i], first)
      invariant rows == Numbered(ks[..i], first)
      invariant next == first + i
    {
      var k := ks[i];
      d := Put(d, k, next);
      rows := rows + [Row(next, k)];
      next := next + 1;
      PutIdsPrefix(d0, ks, i, first);
      NumberedPrefix(ks, i, first);
      i := i + 1;
    }
    Whole(ks);
  }
}
