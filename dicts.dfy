/** Insertion-ordered dictionaries with string keys, the way a Python `dict`
    behaves: iteration follows insertion order, and assigning to a key that is
    already present replaces its value without moving it. */
module Dicts {

  datatype Option<T> = None | Some(value: T)

  /** A dictionary as its sequence of items, in iteration order. */
  type Dict<V> = seq<(string, V)>

  /** The keys, in iteration order (`list(d.keys())`). */
  function Keys<V>(d: Dict<V>): (ks: seq<string>)
    ensures |ks| == |d| && forall i :: 0 <= i < |d| ==> ks[i] == d[i].0
  {
    seq(|d|, i requires 0 <= i < |d| => d[i].0)
  }

  /** The set of keys. */
  function KeySet<V>(d: Dict<V>): set<string>
  {
    set i | 0 <= i < |d| :: d[i].0
  }

  /** Every key occurs once, as in any Python dict. */
  predicate DistinctKeys<V>(d: Dict<V>)
  {
    forall i, j :: 0 <= i < j < |d| ==> d[i].0 != d[j].0
  }

  /** Where `k` first occurs among the keys. */
  function IndexOf<V>(d: Dict<V>, k: string): (i: nat)
    requires k in Keys(d)
    ensures i < |d| && d[i].0 == k
    ensures forall j :: 0 <= j < i ==> d[j].0 != k
  {
    if d[0].0 == k then 0
    else
      assert k in Keys(d[1..]) by {
        var j :| 0 <= j < |d| && Keys(d)[j] == k;
        assert Keys(d[1..])[j - 1] == k;
      }
      1 + IndexOf(d[1..], k)
  }

  /** `d.get(k)`: the value stored under `k`, if any. */
  function Get<V>(d: Dict<V>, k: string): (r: Option<V>)
    ensures r.Some? <==> k in Keys(d)
    ensures r.Some? ==> exists i :: 0 <= i < |d| && d[i] == (k, r.value)
  {
    if k in Keys(d) then Some(d[IndexOf(d, k)].1) else None
  }

  /** `d.get(k, default)`. */
  function GetOr<V>(d: Dict<V>, k: string, default: V): V
  {
    match Get(d, k)
    case Some(v) => v
    case None => default
  }

  /** `d[k] = v`: replace in place when `k` is present, append otherwise. */
  function Put<V>(d: Dict<V>, k: string, v: V): (r: Dict<V>)
    ensures Keys(r) == if k in Keys(d) then Keys(d) else Keys(d) + [k]
    ensures k !in Keys(d) ==> r == d + [(k, v)]
    ensures Get(r, k) == Some(v)
    ensures forall k' :: k' != k ==> Get(r, k') == Get(d, k')
    ensures DistinctKeys(d) ==> DistinctKeys(r)
  {
    if k in Keys(d) then
      var r := d[IndexOf(d, k) := (k, v)];
      assert Keys(r) == Keys(d);
      r
    else
      var r := d + [(k, v)];
      assert Keys(r) == Keys(d) + [k];
      assert forall k' :: k' != k && k' in Keys(d) ==> IndexOf(r, k') == IndexOf(d, k') by {
        forall k' | k' != k && k' in Keys(d) ensures IndexOf(r, k') == IndexOf(d, k') {
          var b := IndexOf(d, k');
          assert r[b].0 == k';
        }
      }
      r
  }

  /** In a dictionary with distinct keys, looking up the key of an item finds
      that item's value. */
  lemma {:induction false} GetAt<V>(d: Dict<V>, i: nat)
    requires DistinctKeys(d) && i < |d|
    ensures Get(d, d[i].0) == Some(d[i].1)
  {
    if i > 0 {
      GetAt(d[1..], i - 1);
    }
  }

  /** The keys of a concatenation. */
  lemma KeysAppend<V>(a: Dict<V>, b: Dict<V>)
    ensures Keys(a + b) == Keys(a) + Keys(b)
  {
  }

  /** Appending an item with a new key adds exactly that key. */
  lemma GetSnoc<V>(d: Dict<V>, k: string, v: V, k': string)
    requires k !in Keys(d)
    ensures Get(d + [(k, v)], k') == if k' == k then Some(v) else Get(d, k')
  {
    assert d + [(k, v)] == Put(d, k, v);
  }

  /** A dictionary with distinct keys has as many items as keys. */
  lemma {:induction false} DistinctKeysCard<V>(d: Dict<V>)
    requires DistinctKeys(d)
    ensures |KeySet(d)| == |d|
  {
    if d != [] {
      var last := |d| - 1;
      var front := d[..last];
      DistinctKeysCard(front);
      assert KeySet(d) == KeySet(front) + {d[last].0} by {
        forall k | k in KeySet(d) ensures k in KeySet(front) + {d[last].0} {
          var i :| 0 <= i < |d| && d[i].0 == k;
          if i < last { assert front[i] == d[i]; }
        }
      }
      assert d[last].0 !in KeySet(front);
    }
  }

  /** A dictionary whose keys all occur in another has at most as many items. */
  lemma SubDictSize<V, W>(small: Dict<V>, large: Dict<W>)
    requires DistinctKeys(small) && DistinctKeys(large)
    requires forall k :: k in Keys(small) ==> k in Keys(large)
    ensures |small| <= |large|
  {
    DistinctKeysCard(small);
    DistinctKeysCard(large);
    assert KeySet(small) <= KeySet(large) by {
      forall k | k in KeySet(small) ensures k in KeySet(large) {
        var i :| 0 <= i < |small| && small[i].0 == k;
        assert Keys(small)[i] == k;
        assert k in Keys(small);
        var j :| 0 <= j < |large| && Keys(large)[j] == k;
        assert large[j].0 == k;
      }
    }
    assert |KeySet(small)| <= |KeySet(large)| by {
      SubsetCard(KeySet(small), KeySet(large));
    }
  }

  lemma SubsetCard<T>(a: set<T>, b: set<T>)
    requires a <= b
    ensures |a| <= |b|
  {
    assert b == a + (b - a);
  }
}
