/** Python dictionaries as insertion-ordered association lists.

    Python's `dict` remembers insertion order, and the modelled code depends on
    it (the member listing sent to the language model, the order in which
    errors surface).  `Put` replaces a present key in place and appends a new
    one at the end, as assignment `d[k] = v` does; `Remove` is `d.pop(k, None)`. */
module Dicts {
  import opened Wrappers

  datatype Pair<K, V> = Pair(key: K, value: V)

  type Dict<K, V> = seq<Pair<K, V>>

  function Keys<K, V>(d: Dict<K, V>): set<K>
  {
    if d == [] then {} else {d[0].key} + Keys(d[1..])
  }

  ghost predicate UniqueKeys<K, V>(d: Dict<K, V>)
  {
    forall i, j :: 0 <= i < j < |d| ==> d[i].key != d[j].key
  }

  /** `list(d.values())`. */
  function Values<K, V>(d: Dict<K, V>): (vs: seq<V>)
    ensures |vs| == |d|
    ensures forall i :: 0 <= i < |d| ==> vs[i] == d[i].value
  {
    seq(|d|, i requires 0 <= i < |d| => d[i].value)
  }

  lemma {:induction false} KeysIndex<K, V>(d: Dict<K, V>, k: K)
    ensures k in Keys(d) <==> exists i :: 0 <= i < |d| && d[i].key == k
    decreases |d|
  {
    if d != [] {
      KeysIndex(d[1..], k);
      if k in Keys(d[1..]) {
        var i :| 0 <= i < |d[1..]| && d[1..][i].key == k;
        assert d[i + 1].key == k;
      }
      if exists i :: 0 <= i < |d| && d[i].key == k {
        var i :| 0 <= i < |d| && d[i].key == k;
        if i > 0 {
          assert d[1..][i - 1].key == k;
        }
      }
    }
  }

  /** `d.get(k)`. */
  function Get<K(==), V>(d: Dict<K, V>, k: K): (r: Option<V>)
    ensures r.Some? <==> k in Keys(d)
  {
    if d == [] then None
    else if d[0].key == k then Some(d[0].value)
    else Get(d[1..], k)
  }

  /** `d.get(k, default)`. */
  function GetOr<K(==), V>(d: Dict<K, V>, k: K, default: V): V
  {
    Get(d, k).GetOr(default)
  }

  /** `d[k] = v`: the key takes the new value, keeping its position when
      present and going to the end otherwise; no other key changes. */
  function Put<K(==, !new), V>(d: Dict<K, V>, k: K, v: V): (r: Dict<K, V>)
    ensures Get(r, k) == Some(v)
    ensures forall k' :: k' != k ==> Get(r, k') == Get(d, k')
    ensures Keys(r) == Keys(d) + {k}
    ensures k in Keys(d) ==> |r| == |d|
    ensures k !in Keys(d) ==> r == d + [Pair(k, v)]
  {
    if d == [] then [Pair(k, v)]
    else if d[0].key == k then [Pair(k, v)] + d[1..]
    else [d[0]] + Put(d[1..], k, v)
  }

  lemma {:induction false} PutUnique<K(!new), V>(d: Dict<K, V>, k: K, v: V)
    requires UniqueKeys(d)
    ensures UniqueKeys(Put(d, k, v))
    decreases |d|
  {
    if d != [] && d[0].key != k {
      var tail := Put(d[1..], k, v);
      assert UniqueKeys(tail) by {
        PutUnique(d[1..], k, v);
      }
      assert d[0].key !in Keys(d[1..]) by {
        KeysIndex(d[1..], d[0].key);
      }
      assert d[0].key !in Keys(tail);
      KeysIndex(tail, d[0].key);
      assert Put(d, k, v) == [d[0]] + tail;
      ConsUnique(d[0], tail);
    }
  }

  /** An entry whose key the rest does not hold keeps the keys unique. */
  lemma ConsUnique<K, V>(p: Pair<K, V>, d: Dict<K, V>)
    requires UniqueKeys(d)
    requires forall i :: 0 <= i < |d| ==> d[i].key != p.key
    ensures UniqueKeys([p] + d)
  {
    var r := [p] + d;
    forall i, j | 0 <= i < j < |r|
      ensures r[i].key != r[j].key
    {
      assert r[j] == d[j - 1];
      if i > 0 {
        assert r[i] == d[i - 1];
      }
    }
  }

  /** `d.pop(k, None)`: the key disappears, every other key keeps its value. */
  function Remove<K(==, !new), V>(d: Dict<K, V>, k: K): (r: Dict<K, V>)
    ensures Get(r, k) == None
    ensures forall k' :: k' != k ==> Get(r, k') == Get(d, k')
    ensures Keys(r) == Keys(d) - {k}
    ensures k !in Keys(d) ==> r == d
    ensures |r| <= |d|
  {
    if d == [] then []
    else if d[0].key == k then Remove(d[1..], k)
    else [d[0]] + Remove(d[1..], k)
  }

  /** Removing a key held at position `i` deletes exactly that entry: the
      entries before and after it stay, in their original order. */
  lemma {:induction false} RemoveKeepsOrder<K(!new), V>(d: Dict<K, V>, k: K, i: nat)
    requires UniqueKeys(d) && i < |d| && d[i].key == k
    ensures Remove(d, k) == d[..i] + d[i + 1..]
    decreases |d|
  {
    if i == 0 {
      assert k !in Keys(d[1..]) by {
        KeysIndex(d[1..], k);
        forall j | 0 <= j < |d[1..]| ensures d[1..][j].key != k {
          assert d[1..][j] == d[j + 1];
        }
      }
    } else {
      assert UniqueKeys(d[1..]) by {
        forall a, b | 0 <= a < b < |d[1..]| ensures d[1..][a].key != d[1..][b].key {
          assert d[1..][a] == d[a + 1] && d[1..][b] == d[b + 1];
        }
      }
      assert d[1..][i - 1] == d[i];
      RemoveKeepsOrder(d[1..], k, i - 1);
      assert d[0].key != k;
      assert [d[0]] + (d[1..][..i - 1] + d[1..][i..]) == d[..i] + d[i + 1..];
    }
  }

  lemma {:induction false} RemoveUnique<K(!new), V>(d: Dict<K, V>, k: K)
    requires UniqueKeys(d)
    ensures UniqueKeys(Remove(d, k))
    ensures k in Keys(d) ==> |Remove(d, k)| == |d| - 1
    decreases |d|
  {
    if d != [] {
      RemoveUnique(d[1..], k);
      KeysIndex(d[1..], d[0].key);
      if d[0].key == k {
        assert Remove(d[1..], k) == d[1..];
      } else {
        KeysIndex(Remove(d[1..], k), d[0].key);
      }
    }
  }
}
