/** Python's `dict` as the controller uses it: entries kept in insertion
    order, assignment to a present key replacing its value in place,
    assignment to a new key appending, `del` removing the entry and closing
    the gap. Iteration (the buffered-amount poller) follows this order. */
module OrderedDict {
  import opened Values

  type Dict<K, V> = seq<(K, V)>

  /** No key occurs twice: the invariant every Python dict keeps. */
  predicate Keyed<K(==), V>(d: Dict<K, V>)
  {
    forall i, j | 0 <= i < j < |d| :: d[i].0 != d[j].0
  }

  function Keys<K(==), V>(d: Dict<K, V>): set<K>
  {
    set i | 0 <= i < |d| :: d[i].0
  }

  /** Position of the first entry with key `k`, if any. */
  function Find<K(==), V>(d: Dict<K, V>, k: K): (r: Option<nat>)
    ensures r.Some? ==> r.value < |d| && d[r.value].0 == k
    ensures r.Some? ==> forall j | 0 <= j < r.value :: d[j].0 != k
    ensures r.None? ==> forall j | 0 <= j < |d| :: d[j].0 != k
  {
    if d == [] then None
    else if d[0].0 == k then Some(0)
    else match Find(d[1..], k)
      case None => None
      case Some(i) => Some(i + 1)
  }

  /** `d.get(k)`, with `None` for an absent key. */
  function Lookup<K(==), V>(d: Dict<K, V>, k: K): (r: Option<V>)
    ensures r.Some? <==> k in Keys(d)
    ensures r.Some? ==> (k, r.value) in d
  {
    match Find(d, k)
    case None => None
    case Some(i) =>
      assert d[i].0 in Keys(d);
      assert d[i] == (k, d[i].1);
      Some(d[i].1)
  }

  /** `d[k] = v`. */
  function Store<K(==), V>(d: Dict<K, V>, k: K, v: V): (r: Dict<K, V>)
    ensures Keys(r) == Keys(d) + {k}
    ensures k in Keys(d) ==> |r| == |d|
    ensures k !in Keys(d) ==> r == d + [(k, v)]
    ensures Keyed(d) && k in Keys(d) ==> forall j | 0 <= j < |d| :: r[j] == if d[j].0 == k then (k, v) else d[j]
    ensures forall e | e in r :: e in d || e == (k, v)
  {
    match Find(d, k)
    case None =>
      var r := d + [(k, v)];
      assert forall j | 0 <= j < |d| :: r[j] == d[j];
      assert r[|d|].0 == k;
      assert Keys(r) == Keys(d) + {k} by {
        forall x | x in Keys(r) ensures x in Keys(d) + {k} {
          var j :| 0 <= j < |r| && r[j].0 == x;
          if j < |d| { assert d[j].0 == x; }
        }
      }
      r
    case Some(i) =>
      var r := d[i := (k, v)];
      assert forall j | 0 <= j < |r| :: r[j].0 == d[j].0;
      r
  }

  /** `del d[k]` when `k` is present; no change otherwise. */
  function Delete<K(==), V>(d: Dict<K, V>, k: K): (r: Dict<K, V>)
    ensures k !in Keys(d) ==> r == d
    ensures k in Keys(d) ==> |r| == |d| - 1
    ensures k in Keys(d) ==> exists i :: 0 <= i < |d| && d[i].0 == k && r == d[..i] + d[i + 1..]
    ensures forall e | e in r :: e in d
  {
    match Find(d, k)
    case None => d
    case Some(i) => d[..i] + d[i + 1..]
  }

  /** The first entry with key `k` is found where it is. */
  lemma FindAt<K, V>(d: Dict<K, V>, k: K, i: nat)
    requires i < |d| && d[i].0 == k
    requires forall j | 0 <= j < i :: d[j].0 != k
    ensures Find(d, k) == Some(i)
  {
  }

  /** In a keyed dictionary the entry at position `i` is what a lookup of its key returns. */
  lemma LookupAt<K, V>(d: Dict<K, V>, i: nat)
    requires Keyed(d) && i < |d|
    ensures Lookup(d, d[i].0) == Some(d[i].1)
  {
    FindAt(d, d[i].0, i);
  }

  /** Every key other than `k` reads the same in `d'` as in `d`. */
  ghost predicate SameOtherwise<K(!new), V>(d: Dict<K, V>, d': Dict<K, V>, k: K)
  {
    forall k' {:trigger Lookup(d', k')} | k' != k :: Lookup(d', k') == Lookup(d, k')
  }

  /** Reading back after `d[k] = v`: `v` under `k`, the old value under every other key. */
  lemma LookupStore<K(!new), V>(d: Dict<K, V>, k: K, v: V)
    ensures Lookup(Store(d, k, v), k) == Some(v)
    ensures SameOtherwise(d, Store(d, k, v), k)
  {
    var r := Store(d, k, v);
    forall k' ensures Lookup(r, k') == if k' == k then Some(v) else Lookup(d, k') {
      match Find(d, k)
      case None =>
        assert r == d + [(k, v)];
        if k' == k {
          FindAt(r, k, |d|);
        } else {
          match Find(d, k')
          case None =>
          case Some(j) => FindAt(r, k', j);
        }
      case Some(i) =>
        assert r == d[i := (k, v)];
        if k' == k {
          FindAt(r, k, i);
        } else {
          match Find(d, k')
          case None =>
            assert forall j | 0 <= j < |r| :: r[j].0 == d[j].0;
          case Some(j) =>
            FindAt(r, k', j);
        }
    }
  }

  /** Reading back after `del d[k]`: nothing under `k`, the old value under every other key. */
  lemma LookupDelete<K(!new), V>(d: Dict<K, V>, k: K)
    requires Keyed(d)
    ensures Lookup(Delete(d, k), k) == None
    ensures SameOtherwise(d, Delete(d, k), k)
  {
    var r := Delete(d, k);
    forall k' ensures Lookup(r, k') == if k' == k then None else Lookup(d, k') {
      match Find(d, k)
      case None =>
      case Some(i) =>
        assert r == d[..i] + d[i + 1..];
        assert forall j | 0 <= j < |r| :: r[j] == if j < i then d[j] else d[j + 1];
        if k' == k {
          assert forall j | 0 <= j < |r| :: r[j].0 != k;
        } else {
          match Find(d, k')
          case None =>
            assert forall j | 0 <= j < |r| :: r[j].0 != k';
          case Some(j) =>
            assert j != i;
            if j < i {
              FindAt(r, k', j);
            } else {
              FindAt(r, k', j - 1);
            }
        }
    }
  }

  /** Assignment keeps a dictionary keyed. */
  lemma StoreKeyed<K, V>(d: Dict<K, V>, k: K, v: V)
    requires Keyed(d)
    ensures Keyed(Store(d, k, v))
  {
    var r := Store(d, k, v);
    match Find(d, k)
    case None =>
      assert r == d + [(k, v)];
      assert forall j | 0 <= j < |d| :: r[j] == d[j] && d[j].0 != k;
    case Some(i) =>
      assert r == d[i := (k, v)];
      assert forall j | 0 <= j < |r| :: r[j].0 == d[j].0;
  }

  /** Deletion keeps a dictionary keyed and removes exactly the one key. */
  lemma DeleteKeyed<K, V>(d: Dict<K, V>, k: K)
    requires Keyed(d)
    ensures Keyed(Delete(d, k))
    ensures Keys(Delete(d, k)) == Keys(d) - {k}
  {
    match Find(d, k)
    case None =>
    case Some(i) => RemoveAt(d, i);
  }

  /** Closing the gap left by entry `i` drops exactly its key. */
  lemma RemoveAt<K, V>(d: Dict<K, V>, i: nat)
    requires Keyed(d) && i < |d|
    ensures Keyed(d[..i] + d[i + 1..])
    ensures Keys(d[..i] + d[i + 1..]) == Keys(d) - {d[i].0}
  {
    var r := d[..i] + d[i + 1..];
    assert forall j | 0 <= j < |r| :: r[j] == if j < i then d[j] else d[j + 1];
    forall x | x in Keys(r)
      ensures x in Keys(d) - {d[i].0}
    {
      var j :| 0 <= j < |r| && r[j].0 == x;
      if j < i { assert d[j].0 == x; } else { assert d[j + 1].0 == x; }
    }
    forall x | x in Keys(d) - {d[i].0}
      ensures x in Keys(r)
    {
      var j :| 0 <= j < |d| && d[j].0 == x;
      if j < i { assert r[j].0 == x; } else { assert r[j - 1].0 == x; }
    }
  }

  /** `del` of a key that is already gone changes nothing, so deleting twice is deleting once. */
  lemma DeleteIdempotent<K, V>(d: Dict<K, V>, k: K)
    requires Keyed(d)
    ensures Delete(Delete(d, k), k) == Delete(d, k)
  {
    DeleteKeyed(d, k);
  }
}
