/**
 * Python dictionaries as association lists. Insertion order is observable in the
 * modelled code (iteration over `values()` and `items()`), so a `map` is not enough.
 */
module PyDict {
  import opened Wrappers

  type Dict<K, V> = seq<(K, V)>

  predicate HasKey<K(==), V>(d: Dict<K, V>, k: K) {
    exists i :: 0 <= i < |d| && d[i].0 == k
  }

  /** No key occurs twice. */
  predicate UniqueKeys<K(==), V>(d: Dict<K, V>) {
    forall i, j :: 0 <= i < j < |d| ==> d[i].0 != d[j].0
  }

  /** `d.get(k)`: the value of the first entry with key `k`. */
  function Get<K(==), V>(d: Dict<K, V>, k: K): Option<V> {
    if d == [] then None
    else if d[0].0 == k then Some(d[0].1)
    else Get(d[1..], k)
  }

  /** `d.get(k)` finds a value iff the key is present, and the value is that of an entry with the key. */
  lemma {:induction false} GetFinds<K, V>(d: Dict<K, V>, k: K)
    ensures Get(d, k).Some? <==> HasKey(d, k)
    ensures Get(d, k).Some? ==> exists i :: 0 <= i < |d| && d[i] == (k, Get(d, k).value)
  {
    if d != [] && d[0].0 != k {
      GetFinds(d[1..], k);
      if HasKey(d, k) {
        var i :| 0 <= i < |d| && d[i].0 == k;
        assert d[1..][i - 1].0 == k;
      }
      if Get(d, k).Some? {
        var i :| 0 <= i < |d| - 1 && d[1..][i] == (k, Get(d, k).value);
        assert d[i + 1] == (k, Get(d, k).value);
      }
    }
  }

  /** `d.get(k, default)`. */
  function GetOr<K(==), V>(d: Dict<K, V>, k: K, default: V): V {
    Get(d, k).GetOr(default)
  }

  /** `d[k] = v`: replaces the value in place if `k` is present, otherwise appends. */
  function Insert<K(==), V>(d: Dict<K, V>, k: K, v: V): Dict<K, V> {
    if d == [] then [(k, v)]
    else if d[0].0 == k then [(k, v)] + d[1..]
    else [d[0]] + Insert(d[1..], k, v)
  }

  /** `d[k] = v` keeps every key in place, and appends `(k, v)` when `k` is new. */
  lemma {:induction false} InsertShape<K, V>(d: Dict<K, V>, k: K, v: V)
    ensures HasKey(d, k) ==> |Insert(d, k, v)| == |d|
    ensures !HasKey(d, k) ==> Insert(d, k, v) == d + [(k, v)]
    ensures forall i :: 0 <= i < |d| ==> Insert(d, k, v)[i].0 == d[i].0
  {
    if d != [] && d[0].0 != k {
      InsertShape(d[1..], k, v);
      var r := Insert(d, k, v);
      assert r == [d[0]] + Insert(d[1..], k, v);
      if HasKey(d, k) {
        var i :| 0 <= i < |d| && d[i].0 == k;
        assert d[1..][i - 1].0 == k;
      }
      if HasKey(d[1..], k) {
        var i :| 0 <= i < |d| - 1 && d[1..][i].0 == k;
        assert d[i + 1].0 == k;
      }
      forall i | 0 <= i < |d|
        ensures r[i].0 == d[i].0
      {
        if i > 0 {
          assert r[i] == Insert(d[1..], k, v)[i - 1];
        }
      }
    }
  }

  function Keys<K(==), V>(d: Dict<K, V>): (r: seq<K>)
    ensures |r| == |d| && forall i :: 0 <= i < |d| ==> r[i] == d[i].0
  {
    if d == [] then [] else [d[0].0] + Keys(d[1..])
  }

  function Values<K(==), V>(d: Dict<K, V>): (r: seq<V>)
    ensures |r| == |d| && forall i :: 0 <= i < |d| ==> r[i] == d[i].1
  {
    if d == [] then [] else [d[0].1] + Values(d[1..])
  }

  /** `{k: v for (k, v) in pairs}`: later pairs overwrite earlier ones with the same key. */
  function FromPairs<K(==), V>(pairs: seq<(K, V)>): Dict<K, V> {
    if pairs == [] then []
    else Insert(FromPairs(pairs[..|pairs| - 1]), pairs[|pairs| - 1].0, pairs[|pairs| - 1].1)
  }

  lemma {:induction false} GetInsertSame<K, V>(d: Dict<K, V>, k: K, v: V)
    ensures Get(Insert(d, k, v), k) == Some(v)
  {
    if d != [] && d[0].0 != k {
      GetInsertSame(d[1..], k, v);
    }
  }

  lemma {:induction false} GetInsertOther<K, V>(d: Dict<K, V>, k: K, v: V, k': K)
    requires k' != k
    ensures Get(Insert(d, k, v), k') == Get(d, k')
  {
    if d != [] && d[0].0 != k {
      GetInsertOther(d[1..], k, v, k');
    }
  }

  lemma {:induction false} InsertKeepsUnique<K, V>(d: Dict<K, V>, k: K, v: V)
    requires UniqueKeys(d)
    ensures UniqueKeys(Insert(d, k, v))
  {
    var r := Insert(d, k, v);
    InsertShape(d, k, v);
    if HasKey(d, k) {
      assert forall i :: 0 <= i < |d| ==> r[i].0 == d[i].0;
    } else {
      assert r == d + [(k, v)];
    }
  }

  lemma {:induction false} FromPairsUnique<K, V>(pairs: seq<(K, V)>)
    ensures UniqueKeys(FromPairs(pairs))
  {
    if pairs != [] {
      FromPairsUnique(pairs[..|pairs| - 1]);
      InsertKeepsUnique(FromPairs(pairs[..|pairs| - 1]), pairs[|pairs| - 1].0, pairs[|pairs| - 1].1);
    }
  }

  /** In a dict comprehension the last pair with a given key decides its value. */
  lemma {:induction false} FromPairsLastWins<K, V>(pairs: seq<(K, V)>, i: nat)
    requires i < |pairs|
    requires forall j :: i < j < |pairs| ==> pairs[j].0 != pairs[i].0
    ensures Get(FromPairs(pairs), pairs[i].0) == Some(pairs[i].1)
  {
    var n := |pairs| - 1;
    if i == n {
      GetInsertSame(FromPairs(pairs[..n]), pairs[n].0, pairs[n].1);
    } else {
      FromPairsLastWins(pairs[..n], i);
      GetInsertOther(FromPairs(pairs[..n]), pairs[n].0, pairs[n].1, pairs[i].0);
    }
  }

  /** A key no pair carries is absent from the comprehension's dict. */
  lemma {:induction false} FromPairsAbsent<K, V>(pairs: seq<(K, V)>, k: K)
    requires forall j :: 0 <= j < |pairs| ==> pairs[j].0 != k
    ensures Get(FromPairs(pairs), k) == None
  {
    if pairs != [] {
      var n := |pairs| - 1;
      FromPairsAbsent(pairs[..n], k);
      GetInsertOther(FromPairs(pairs[..n]), pairs[n].0, pairs[n].1, k);
    }
  }

  /** What the comprehension's dict holds under a key is the value of some pair with that key. */
  lemma {:induction false} FromPairsValue<K, V>(pairs: seq<(K, V)>, k: K)
    requires Get(FromPairs(pairs), k).Some?
    ensures exists j :: 0 <= j < |pairs| && pairs[j] == (k, Get(FromPairs(pairs), k).value)
  {
    var n := |pairs| - 1;
    if pairs[n].0 == k {
      GetInsertSame(FromPairs(pairs[..n]), k, pairs[n].1);
      assert pairs[n] == (k, Get(FromPairs(pairs), k).value);
    } else {
      GetInsertOther(FromPairs(pairs[..n]), pairs[n].0, pairs[n].1, k);
      FromPairsValue(pairs[..n], k);
      var j :| 0 <= j < n && pairs[..n][j] == (k, Get(FromPairs(pairs[..n]), k).value);
      assert pairs[j] == pairs[..n][j];
    }
  }

  /** With unique keys, the entry at `i` is the one `get` finds and the one `d[k] = v` replaces. */
  lemma {:induction false} InsertAt<K, V>(d: Dict<K, V>, k: K, v: V, i: nat)
    requires UniqueKeys(d) && i < |d| && d[i].0 == k
    ensures Get(d, k) == Some(d[i].1)
    ensures Insert(d, k, v) == d[i := (k, v)]
  {
    if i > 0 {
      assert d[0].0 != k;
      InsertAt(d[1..], k, v, i - 1);
      assert [d[0]] + d[1..][i - 1 := (k, v)] == d[i := (k, v)];
    }
  }

  /** With unique keys, looking up the key of entry `i` finds that entry's value. */
  lemma {:induction false} GetAt<K, V>(d: Dict<K, V>, i: nat)
    requires UniqueKeys(d) && i < |d|
    ensures Get(d, d[i].0) == Some(d[i].1)
  {
    InsertAt(d, d[i].0, d[i].1, i);
  }

  /** `d[k] = v` adds `k` at the end of the keys when it is new and keeps them otherwise. */
  lemma {:induction false} KeysInsert<K, V>(d: Dict<K, V>, k: K, v: V)
    ensures HasKey(d, k) <==> k in Keys(d)
    ensures Keys(Insert(d, k, v)) == if k in Keys(d) then Keys(d) else Keys(d) + [k]
  {
    var r := Insert(d, k, v);
    InsertShape(d, k, v);
    if HasKey(d, k) {
      var i :| 0 <= i < |d| && d[i].0 == k;
      assert Keys(d)[i] == k;
      assert forall j :: 0 <= j < |d| ==> Keys(r)[j] == Keys(d)[j];
    }
    if k in Keys(d) {
      var i :| 0 <= i < |d| && Keys(d)[i] == k;
      assert d[i].0 == k;
    }
    if !HasKey(d, k) {
      assert r == d + [(k, v)];
      assert Keys(r) == Keys(d) + [k];
    }
  }
}
