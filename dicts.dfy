/** Python dictionaries with string keys, as insertion-ordered sequences of
    (key, value) pairs.  Assigning to a present key keeps its position;
    assigning to a new key appends it. */
module Dicts {
  import opened Wrappers

  type Dict<V> = seq<(string, V)>

  function Keys<V>(d: Dict<V>): (ks: seq<string>)
    ensures |ks| == |d|
    ensures forall i :: 0 <= i < |d| ==> ks[i] == d[i].0
  {
    if d == [] then [] else [d[0].0] + Keys(d[1..])
  }

  /** Every Python dict has pairwise distinct keys. */
  predicate DistinctKeys<V>(d: Dict<V>) {
    forall i, j :: 0 <= i < j < |d| ==> d[i].0 != d[j].0
  }

  /** `d.get(k)`: the value stored under `k`, if any. */
  function Get<V>(d: Dict<V>, k: string): (r: Option<V>)
    ensures r.Some? <==> k in Keys(d)
  {
    if d == [] then None
    else if d[0].0 == k then Some(d[0].1)
    else Get(d[1..], k)
  }

  /** A value found under a key is stored under that key. */
  lemma {:induction false} GetStored<V>(d: Dict<V>, k: string)
    requires Get(d, k).Some?
    ensures (k, Get(d, k).value) in d
  {
    if d[0].0 != k {
      GetStored(d[1..], k);
    }
  }

  /** `d[k] = v`. */
  function Put<V>(d: Dict<V>, k: string, v: V): (r: Dict<V>)
    ensures k in Keys(d) ==> Keys(r) == Keys(d)
    ensures k !in Keys(d) ==> r == d + [(k, v)]
  {
    if d == [] then [(k, v)]
    else if d[0].0 == k then [(k, v)] + d[1..]
    else
      var r := [d[0]] + Put(d[1..], k, v);
      assert r[1..] == Put(d[1..], k, v);
      r
  }

  /** After `d[k] = v`, `k` holds `v` and every other key holds what it held. */
  lemma {:induction false} PutGet<V>(d: Dict<V>, k: string, v: V, j: string)
    ensures Get(Put(d, k, v), j) == if j == k then Some(v) else Get(d, j)
  {
    if d != [] && d[0].0 != k {
      PutGet(d[1..], k, v, j);
    }
  }

  lemma PutDistinct<V>(d: Dict<V>, k: string, v: V)
    requires DistinctKeys(d)
    ensures DistinctKeys(Put(d, k, v))
  {
    var r := Put(d, k, v);
    if k in Keys(d) {
      assert forall i :: 0 <= i < |r| ==> r[i].0 == Keys(r)[i];
    }
  }

  /** Assigning the pairs of `kvs` one after the other, in order. */
  function PutAll<V>(d: Dict<V>, kvs: seq<(string, V)>): Dict<V>
    decreases |kvs|
  {
    if kvs == [] then d else PutAll(Put(d, kvs[0].0, kvs[0].1), kvs[1..])
  }

  /** The value of the last pair of `kvs` whose key is `k`. */
  function LastValue<V>(kvs: seq<(string, V)>, k: string): V
    requires k in Keys(kvs)
  {
    if k in Keys(kvs[1..]) then LastValue(kvs[1..], k) else kvs[0].1
  }

  lemma {:induction false} PutAllAppend<V>(d: Dict<V>, a: seq<(string, V)>, b: seq<(string, V)>)
    ensures PutAll(d, a + b) == PutAll(PutAll(d, a), b)
    decreases |a|
  {
    if a != [] {
      assert (a + b)[1..] == a[1..] + b;
      PutAllAppend(Put(d, a[0].0, a[0].1), a[1..], b);
    } else {
      assert a + b == b;
    }
  }

  /** A later assignment to a key wins; keys never assigned keep their value. */
  lemma {:induction false} PutAllGet<V>(d: Dict<V>, kvs: seq<(string, V)>, k: string)
    ensures Get(PutAll(d, kvs), k) == if k in Keys(kvs) then Some(LastValue(kvs, k)) else Get(d, k)
    decreases |kvs|
  {
    if kvs != [] {
      PutAllGet(Put(d, kvs[0].0, kvs[0].1), kvs[1..], k);
      PutGet(d, kvs[0].0, kvs[0].1, k);
      assert Keys(kvs) == [kvs[0].0] + Keys(kvs[1..]);
    }
  }

  /** The keys of the result are the old keys and the assigned ones. */
  lemma PutAllKeys<V>(d: Dict<V>, kvs: seq<(string, V)>, k: string)
    ensures k in Keys(PutAll(d, kvs)) <==> k in Keys(d) || k in Keys(kvs)
  {
    PutAllGet(d, kvs, k);
  }

  lemma {:induction false} PutAllSize<V>(d: Dict<V>, kvs: seq<(string, V)>)
    ensures |PutAll(d, kvs)| <= |d| + |kvs|
    ensures DistinctKeys(d) ==> DistinctKeys(PutAll(d, kvs))
    decreases |kvs|
  {
    if kvs != [] {
      var d' := Put(d, kvs[0].0, kvs[0].1);
      assert |d'| <= |d| + 1 by {
        if kvs[0].0 in Keys(d) { assert |Keys(d')| == |Keys(d)|; }
      }
      PutAllSize(d', kvs[1..]);
    }
  }

  /** When no key repeats, assigning is appending. */
  lemma {:induction false} PutAllFresh<V>(d: Dict<V>, kvs: seq<(string, V)>)
    requires DistinctKeys(d + kvs)
    ensures PutAll(d, kvs) == d + kvs
    decreases |kvs|
  {
    if kvs == [] {
      assert d + kvs == d;
    } else {
      assert kvs[0].0 !in Keys(d) by {
        forall i | 0 <= i < |d| ensures Keys(d)[i] != kvs[0].0 {
          assert (d + kvs)[i] == d[i] && (d + kvs)[|d|] == kvs[0];
        }
      }
      assert Put(d, kvs[0].0, kvs[0].1) == d + [kvs[0]];
      assert (d + [kvs[0]]) + kvs[1..] == d + kvs;
      PutAllFresh(d + [kvs[0]], kvs[1..]);
    }
  }

  /** The last value of a key is the one of its last pair. */
  lemma {:induction false} LastValueAt<V>(kvs: seq<(string, V)>, k: string, j: nat)
    requires j < |kvs| && kvs[j].0 == k
    requires forall i :: j < i < |kvs| ==> kvs[i].0 != k
    ensures k in Keys(kvs) && LastValue(kvs, k) == kvs[j].1
  {
    assert Keys(kvs)[j] == k;
    if j > 0 {
      LastValueAt(kvs[1..], k, j - 1);
    } else {
      assert k !in Keys(kvs[1..]) by {
        forall i | 0 <= i < |kvs[1..]| ensures Keys(kvs[1..])[i] != k {
          assert kvs[1..][i] == kvs[i + 1];
        }
      }
    }
  }
}
