/**
 * Python's insertion-ordered dictionaries (`dict`, `OrderedDict`) with
 * string keys, as a sequence of entries. `Put` is `d[k] = v`: an existing key
 * keeps its position and gets the new value, a new key goes at the end.
 * `UpdateAll` is `d.update(e)`.
 */
module OrderedDicts {
  import opened Wrappers

  type ODict<V> = seq<(string, V)>

  function Keys<V>(d: ODict<V>): (ks: seq<string>)
    ensures |ks| == |d|
    ensures forall i :: 0 <= i < |d| ==> ks[i] == d[i].0
  {
    seq(|d|, i requires 0 <= i < |d| => d[i].0)
  }

  predicate Distinct(ks: seq<string>)
  {
    forall i, j :: 0 <= i < j < |ks| ==> ks[i] != ks[j]
  }

  /** `d.get(k)`. */
  function Get<V>(d: ODict<V>, k: string): (r: Option<V>)
    ensures r.None? <==> k !in Keys(d)
  {
    if |d| == 0 then None
    else if d[0].0 == k then Some(d[0].1)
    else
      assert Keys(d) == [d[0].0] + Keys(d[1..]);
      Get(d[1..], k)
  }

  /** `d[k] = v`. */
  function Put<V>(d: ODict<V>, k: string, v: V): ODict<V>
  {
    if |d| == 0 then [(k, v)]
    else if d[0].0 == k then [(k, v)] + d[1..]
    else [d[0]] + Put(d[1..], k, v)
  }

  lemma KeysCons<V>(x: (string, V), d: ODict<V>)
    ensures Keys([x] + d) == [x.0] + Keys(d)
  {
  }

  /** After `d[k] = v`, `k` holds `v` and every other key what it held before. */
  lemma {:induction false} GetPut<V>(d: ODict<V>, k: string, v: V, k': string)
    ensures Get(Put(d, k, v), k') == if k' == k then Some(v) else Get(d, k')
  {
    if |d| > 0 && d[0].0 != k {
      assert ([d[0]] + Put(d[1..], k, v))[1..] == Put(d[1..], k, v);
      GetPut(d[1..], k, v, k');
    }
  }

  /** `d[k] = v` keeps an existing key in place and appends a new one. */
  lemma {:induction false} KeysPut<V>(d: ODict<V>, k: string, v: V)
    ensures Keys(Put(d, k, v)) == if k in Keys(d) then Keys(d) else Keys(d) + [k]
  {
    if |d| > 0 {
      KeysCons(d[0], d[1..]);
      assert [d[0]] + d[1..] == d;
      if d[0].0 == k {
        KeysCons((k, v), d[1..]);
      } else {
        KeysPut(d[1..], k, v);
        KeysCons(d[0], Put(d[1..], k, v));
      }
    }
  }

  /** `d.update(e)`: the entries of `e` put into `d` one by one, in order. */
  function UpdateAll<V>(d: ODict<V>, e: ODict<V>): ODict<V>
    decreases |e|
  {
    if |e| == 0 then d else UpdateAll(Put(d, e[0].0, e[0].1), e[1..])
  }

  /** Putting keeps keys distinct. */
  lemma PutDistinct<V>(d: ODict<V>, k: string, v: V)
    requires Distinct(Keys(d))
    ensures Distinct(Keys(Put(d, k, v)))
  {
    KeysPut(d, k, v);
  }

  /**
   * After `d.update(e)` a key holds `e`'s value when `e` has it and `d`'s
   * value otherwise.
   */
  lemma {:induction false} GetUpdateAll<V>(d: ODict<V>, e: ODict<V>, k: string)
    requires Distinct(Keys(e))
    ensures Get(UpdateAll(d, e), k) == if k in Keys(e) then Get(e, k) else Get(d, k)
    decreases |e|
  {
    if |e| > 0 {
      var d' := Put(d, e[0].0, e[0].1);
      assert Keys(e) == [e[0].0] + Keys(e[1..]);
      assert Distinct(Keys(e[1..])) by {
        forall i, j | 0 <= i < j < |e[1..]| ensures Keys(e[1..])[i] != Keys(e[1..])[j] {
          assert Keys(e)[i + 1] != Keys(e)[j + 1];
        }
      }
      GetUpdateAll(d', e[1..], k);
      GetPut(d, e[0].0, e[0].1, k);
      if k == e[0].0 {
        assert k !in Keys(e[1..]) by {
          forall j | 0 <= j < |e[1..]| ensures Keys(e[1..])[j] != k {
            assert Keys(e)[0] != Keys(e)[j + 1];
          }
        }
      }
    }
  }

  /** `d.update(e)` keeps the keys of `d` in their positions, at the front. */
  lemma {:induction false} UpdateAllPrefix<V>(d: ODict<V>, e: ODict<V>)
    ensures |d| <= |UpdateAll(d, e)| && Keys(UpdateAll(d, e))[..|d|] == Keys(d)
    decreases |e|
  {
    if |e| > 0 {
      var d' := Put(d, e[0].0, e[0].1);
      KeysPut(d, e[0].0, e[0].1);
      UpdateAllPrefix(d', e[1..]);
      var ku := Keys(UpdateAll(d', e[1..]));
      assert ku[..|d|] == ku[..|d'|][..|d|];
    }
  }

  /** The keys of `d.update(e)` are those of `d` and those of `e`. */
  lemma {:induction false} UpdateAllMembers<V>(d: ODict<V>, e: ODict<V>, k: string)
    ensures k in Keys(UpdateAll(d, e)) <==> k in Keys(d) || k in Keys(e)
    decreases |e|
  {
    if |e| > 0 {
      var d' := Put(d, e[0].0, e[0].1);
      KeysPut(d, e[0].0, e[0].1);
      UpdateAllMembers(d', e[1..], k);
      assert Keys(e) == [e[0].0] + Keys(e[1..]);
    }
  }

  /** `d.update(e)` keeps keys distinct. */
  lemma {:induction false} UpdateAllDistinct<V>(d: ODict<V>, e: ODict<V>)
    requires Distinct(Keys(d))
    ensures Distinct(Keys(UpdateAll(d, e)))
    decreases |e|
  {
    if |e| > 0 {
      PutDistinct(d, e[0].0, e[0].1);
      UpdateAllDistinct(Put(d, e[0].0, e[0].1), e[1..]);
    }
  }

  /**
   * `d.update(e)` keeps the keys of `d` in their positions and appends only
   * keys of `e`; it keeps keys distinct.
   */
  lemma KeysUpdateAll<V>(d: ODict<V>, e: ODict<V>)
    requires Distinct(Keys(d))
    ensures |Keys(d)| <= |Keys(UpdateAll(d, e))|
    ensures Keys(UpdateAll(d, e))[..|d|] == Keys(d)
    ensures forall k :: k in Keys(UpdateAll(d, e)) <==> k in Keys(d) || k in Keys(e)
    ensures Distinct(Keys(UpdateAll(d, e)))
  {
    UpdateAllPrefix(d, e);
    forall k
      ensures k in Keys(UpdateAll(d, e)) <==> k in Keys(d) || k in Keys(e)
    {
      UpdateAllMembers(d, e, k);
    }
    UpdateAllDistinct(d, e);
  }
}
