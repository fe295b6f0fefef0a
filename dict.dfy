/**
  Python dictionaries that remember insertion order, as association lists:
  assigning to an existing key replaces its value in place, a new key goes
  at the end.
 */
module Dict {
  import opened Wrappers

  function Keys<K, V>(d: seq<(K, V)>): (ks: seq<K>)
    ensures |ks| == |d| && forall i :: 0 <= i < |d| ==> ks[i] == d[i].0
  {
    if |d| == 0 then [] else [d[0].0] + Keys(d[1..])
  }

  predicate DistinctKeys<K(==), V>(d: seq<(K, V)>) {
    forall i, j :: 0 <= i < j < |d| ==> d[i].0 != d[j].0
  }

  /** `d.get(k)`: the value of the first entry with key `k`. */
  function Get<K(==), V>(d: seq<(K, V)>, k: K): Option<V>
  {
    if |d| == 0 then None else if d[0].0 == k then Some(d[0].1) else Get(d[1..], k)
  }

  /** `d[k] = v`. */
  function Put<K(==), V>(d: seq<(K, V)>, k: K, v: V): (r: seq<(K, V)>)
  {
    if |d| == 0 then [(k, v)]
    else if d[0].0 == k then [(k, v)] + d[1..]
    else [d[0]] + Put(d[1..], k, v)
  }

  lemma {:induction false} GetIn<K, V>(d: seq<(K, V)>, k: K)
    ensures Get(d, k).Some? <==> k in Keys(d)
    ensures Get(d, k).Some? ==> exists i :: 0 <= i < |d| && d[i] == (k, Get(d, k).value)
  {
    if |d| > 0 && d[0].0 != k {
      GetIn(d[1..], k);
      assert Keys(d) == [d[0].0] + Keys(d[1..]);
      if Get(d, k).Some? {
        var i :| 0 <= i < |d[1..]| && d[1..][i] == (k, Get(d, k).value);
        assert d[i + 1] == (k, Get(d, k).value);
      }
    } else if |d| > 0 {
      assert d[0] == (k, Get(d, k).value);
    }
  }

  /** After `d[k] = v`, `k` maps to `v` and every other key keeps its value. */
  lemma {:induction false} GetPut<K, V>(d: seq<(K, V)>, k: K, v: V, k': K)
    ensures Get(Put(d, k, v), k') == if k' == k then Some(v) else Get(d, k')
  {
    if |d| > 0 && d[0].0 != k {
      GetPut(d[1..], k, v, k');
    }
  }

  lemma KeysCons<K, V>(e: (K, V), d: seq<(K, V)>)
    ensures Keys([e] + d) == [e.0] + Keys(d)
  {
  }

  /** `d[k] = v` keeps the order of the keys and appends only a new key. */
  lemma {:induction false} KeysPut<K, V>(d: seq<(K, V)>, k: K, v: V)
    ensures Keys(Put(d, k, v)) == if k in Keys(d) then Keys(d) else Keys(d) + [k]
  {
    if |d| > 0 {
      var rest := d[1..];
      assert d == [d[0]] + rest;
      KeysCons(d[0], rest);
      if d[0].0 != k {
        KeysPut(rest, k, v);
        KeysCons(d[0], Put(rest, k, v));
        assert k in Keys(d) <==> k in Keys(rest);
        if k !in Keys(rest) {
          assert [d[0].0] + (Keys(rest) + [k]) == ([d[0].0] + Keys(rest)) + [k];
        }
      } else {
        KeysCons((k, v), rest);
      }
    }
  }

  lemma KeysPutDistinct<K, V>(d: seq<(K, V)>, k: K, v: V)
    requires DistinctKeys(d)
    ensures DistinctKeys(Put(d, k, v))
  {
    KeysPut(d, k, v);
    var r := Put(d, k, v);
    assert forall i :: 0 <= i < |r| ==> r[i].0 == Keys(r)[i];
    assert forall i :: 0 <= i < |d| ==> d[i].0 == Keys(d)[i];
  }

  /** `dict(pairs)`: the pairs assigned in order, a later pair overriding an earlier one. */
  function FromList<K(==), V>(es: seq<(K, V)>): (d: seq<(K, V)>)
    ensures DistinctKeys(d)
  {
    if |es| == 0 then []
    else
      var d := FromList(es[..|es| - 1]);
      KeysPutDistinct(d, es[|es| - 1].0, es[|es| - 1].1);
      Put(d, es[|es| - 1].0, es[|es| - 1].1)
  }

  /**
    A key of `dict(pairs)` is a key of some pair, and its value is that of the
    last pair with the key.
   */
  lemma {:induction false} FromListGet<K, V>(es: seq<(K, V)>, k: K)
    ensures Get(FromList(es), k).Some? <==> k in Keys(es)
    ensures Get(FromList(es), k).Some? ==>
              exists i :: 0 <= i < |es| && es[i] == (k, Get(FromList(es), k).value)
                          && forall j :: i < j < |es| ==> es[j].0 != k
  {
    if |es| > 0 {
      var n := |es| - 1;
      var init := es[..n];
      FromListGet(init, k);
      GetPut(FromList(init), es[n].0, es[n].1, k);
      assert Keys(es) == Keys(init) + [es[n].0];
      var v := Get(FromList(es), k);
      if es[n].0 != k && v.Some? {
        var i :| 0 <= i < |init| && init[i] == (k, Get(FromList(init), k).value)
                 && forall j :: i < j < |init| ==> init[j].0 != k;
        assert es[i] == init[i];
        assert forall j :: i < j < |es| ==> es[j].0 != k by {
          forall j | i < j < |es| ensures es[j].0 != k {
            if j < n { assert es[j] == init[j]; }
          }
        }
        assert 0 <= i < |es| && es[i] == (k, v.value) && forall j :: i < j < |es| ==> es[j].0 != k;
      }
      if es[n].0 == k {
        assert es[n] == (k, v.value);
      }
    }
  }

  /** Assigning one more pair is one more `d[k] = v`. */
  lemma FromListSnoc<K, V>(es: seq<(K, V)>, k: K, v: V)
    ensures FromList(es + [(k, v)]) == Put(FromList(es), k, v)
  {
    assert (es + [(k, v)])[..|es|] == es;
  }
}
