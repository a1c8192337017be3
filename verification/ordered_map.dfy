/** Python's `dict`: key/value pairs kept in insertion order, keys distinct.
    Assigning to an existing key keeps its position; deleting a key keeps the
    relative order of the others. */
module OrderedMap {
  import opened Outcomes

  predicate UniqueKeys<K(==), V>(d: seq<(K, V)>) {
    forall i, j :: 0 <= i < j < |d| ==> d[i].0 != d[j].0
  }

  type Dict<K(==), V> = d: seq<(K, V)> | UniqueKeys(d) witness []

  /** `list(d.keys())`. */
  function Keys<K, V>(d: seq<(K, V)>): seq<K> {
    seq(|d|, i requires 0 <= i < |d| => d[i].0)
  }

  /** Position of the first entry with key `k`, or `|d|` when there is none. */
  function IndexOf<K(==), V>(d: seq<(K, V)>, k: K): (i: nat)
    ensures i <= |d|
    ensures i < |d| ==> d[i].0 == k
    ensures forall j :: 0 <= j < i ==> d[j].0 != k
    ensures i == |d| <==> k !in Keys(d)
  {
    if |d| == 0 then 0
    else if d[0].0 == k then
      assert Keys(d)[0] == k;
      0
    else
      assert Keys(d) == [d[0].0] + Keys(d[1..]);
      1 + IndexOf(d[1..], k)
  }

  /** `d.get(k)`. */
  function Get<K(==), V>(d: seq<(K, V)>, k: K): (r: Option<V>)
    ensures r.None? <==> k !in Keys(d)
    ensures r.Some? ==> (k, r.value) in d
  {
    var i := IndexOf(d, k);
    if i < |d| then Some(d[i].1) else None
  }

  /** Entries with the same key sequence are searched alike. */
  lemma SameKeysSameIndex<K, V>(d: seq<(K, V)>, e: seq<(K, V)>, k: K)
    requires Keys(d) == Keys(e)
    ensures IndexOf(d, k) == IndexOf(e, k)
  {
    assert |d| == |Keys(d)| == |e|;
    assert forall j :: 0 <= j < |d| ==> d[j].0 == Keys(d)[j] == Keys(e)[j] == e[j].0;
  }

  /** `d[k] = v`: replaces the value in place when `k` is present, appends otherwise. */
  function Set<K(==,!new), V>(d: Dict<K, V>, k: K, v: V): (r: Dict<K, V>)
    ensures Get(r, k) == Some(v)
    ensures forall k' :: k' != k ==> Get(r, k') == Get(d, k')
    ensures k in Keys(d) ==> Keys(r) == Keys(d)
    ensures k !in Keys(d) ==> Keys(r) == Keys(d) + [k]
  {
    var i := IndexOf(d, k);
    if i < |d| then
      var r := d[i := (k, v)];
      assert Keys(r) == Keys(d);
      assert forall k' :: IndexOf(r, k') == IndexOf(d, k') by {
        forall k' ensures IndexOf(r, k') == IndexOf(d, k') {
          SameKeysSameIndex(r, d, k');
        }
      }
      r
    else
      var r := d + [(k, v)];
      assert Keys(r) == Keys(d) + [k];
      assert forall k' :: k' != k ==> Get(r, k') == Get(d, k') by {
        forall k' | k' != k ensures Get(r, k') == Get(d, k') {
          AppendOtherKey(d, k, v, k');
        }
      }
      r
  }

  lemma AppendOtherKey<K, V>(d: seq<(K, V)>, k: K, v: V, k': K)
    requires k' != k
    ensures IndexOf(d + [(k, v)], k') == (if k' in Keys(d) then IndexOf(d, k') else |d| + 1)
  {
    var r := d + [(k, v)];
    if |d| == 0 {
      assert r[0].0 == k;
    } else if d[0].0 != k' {
      assert r[0] == d[0];
      assert r[1..] == d[1..] + [(k, v)];
      assert Keys(d) == [d[0].0] + Keys(d[1..]);
      AppendOtherKey(d[1..], k, v, k');
    } else {
      assert r[0] == d[0];
      assert k' in Keys(d) by { assert Keys(d)[0] == k'; }
    }
  }

  lemma KeysAppend<K, V>(d: seq<(K, V)>, x: (K, V))
    ensures Keys(d + [x]) == Keys(d) + [x.0]
  {
  }

  /** Assigning to a key not yet present appends exactly one entry. */
  lemma SetNewKey<K(!new), V>(d: Dict<K, V>, k: K, v: V)
    requires k !in Keys(d)
    ensures Set(d, k, v) == d + [(k, v)]
  {
  }

  /** `del d[k]`: drops the one entry for `k`, keeping the others in order. */
  function Remove<K(==,!new), V>(d: Dict<K, V>, k: K): (r: Dict<K, V>)
    requires k in Keys(d)
    ensures k !in Keys(r)
    ensures forall k' :: k' != k ==> Get(r, k') == Get(d, k')
    ensures Keys(r) == Keys(d)[..IndexOf(d, k)] + Keys(d)[IndexOf(d, k) + 1..]
  {
    var i := IndexOf(d, k);
    var r := d[..i] + d[i + 1..];
    assert Keys(r) == Keys(d)[..i] + Keys(d)[i + 1..];
    assert forall k' :: k' != k ==> Get(r, k') == Get(d, k') by {
      forall k' | k' != k ensures Get(r, k') == Get(d, k') {
        RemoveOtherKey(d, i, k');
      }
    }
    r
  }

  lemma RemoveOtherKey<K, V>(d: Dict<K, V>, i: nat, k': K)
    requires i < |d| && d[i].0 != k'
    ensures Get(d[..i] + d[i + 1..], k') == Get(d, k')
  {
    var r := d[..i] + d[i + 1..];
    var a, b := IndexOf(r, k'), IndexOf(d, k');
    if b < |d| {
      assert b != i;
      if b < i {
        assert r[b] == d[b];
        assert a == b;
      } else {
        assert r[b - 1] == d[b];
        assert forall j :: 0 <= j < b - 1 ==> r[j] == (if j < i then d[j] else d[j + 1]);
        assert a == b - 1;
      }
    } else {
      assert forall j :: 0 <= j < |r| ==> r[j] == (if j < i then d[j] else d[j + 1]);
      assert a == |r|;
    }
  }

  /** In a dict, looking up the key of an entry finds that entry's value. */
  lemma GetAt<K, V>(d: Dict<K, V>, i: nat)
    requires i < |d|
    ensures Get(d, d[i].0) == Some(d[i].1)
  {
    assert Keys(d)[i] == d[i].0;
  }
}
