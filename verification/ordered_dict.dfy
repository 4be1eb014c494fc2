/** Dictionaries that remember insertion order, as lists of pairs with distinct keys. */
module OrderedDicts {

  type Dict<K, V> = seq<(K, V)>

  predicate Has<K(==), V>(d: Dict<K, V>, k: K)
  {
    exists i :: 0 <= i < |d| && d[i].0 == k
  }

  predicate Distinct<K(==), V>(d: Dict<K, V>)
  {
    forall i, j :: 0 <= i < j < |d| ==> d[i].0 != d[j].0
  }

  function Get<K(==), V>(d: Dict<K, V>, k: K, default: V): V
  {
    if d == [] then default else if d[0].0 == k then d[0].1 else Get(d[1..], k, default)
  }

  /** Assignment: an existing key keeps its place, a new one goes last. */
  function Put<K(==), V>(d: Dict<K, V>, k: K, v: V): Dict<K, V>
  {
    if d == [] then [(k, v)] else if d[0].0 == k then [(k, v)] + d[1..] else [d[0]] + Put(d[1..], k, v)
  }

  function Remove<K(==), V>(d: Dict<K, V>, k: K): (r: Dict<K, V>)
    ensures |r| <= |d|
  {
    if d == [] then [] else if d[0].0 == k then Remove(d[1..], k) else [d[0]] + Remove(d[1..], k)
  }

  lemma {:induction false} GetPut<K, V>(d: Dict<K, V>, k: K, v: V, other: K, default: V)
    ensures Get(Put(d, k, v), other, default) == if other == k then v else Get(d, other, default)
    decreases |d|
  {
    if d != [] && d[0].0 != k {
      GetPut(d[1..], k, v, other, default);
    }
  }

  lemma {:induction false} HasPut<K, V>(d: Dict<K, V>, k: K, v: V, other: K)
    ensures Has(Put(d, k, v), other) <==> other == k || Has(d, other)
    decreases |d|
  {
    HasCons(d, other);
    HasCons(Put(d, k, v), other);
    if d != [] && d[0].0 != k {
      HasPut(d[1..], k, v, other);
    } else if d != [] {
      assert Put(d, k, v)[1..] == d[1..];
    }
  }

  lemma HasCons<K, V>(d: Dict<K, V>, k: K)
    ensures Has(d, k) <==> d != [] && (d[0].0 == k || Has(d[1..], k))
  {
    if d != [] && Has(d[1..], k) {
      var i :| 0 <= i < |d[1..]| && d[1..][i].0 == k;
      assert d[i + 1].0 == k;
    }
    if Has(d, k) {
      var i :| 0 <= i < |d| && d[i].0 == k;
      if i > 0 {
        assert d[1..][i - 1].0 == k;
      }
    }
  }

  lemma {:induction false} HasRemove<K, V>(d: Dict<K, V>, k: K, other: K)
    ensures Has(Remove(d, k), other) <==> other != k && Has(d, other)
    decreases |d|
  {
    HasCons(d, other);
    HasCons(Remove(d, k), other);
    if d != [] {
      HasRemove(d[1..], k, other);
      if d[0].0 != k {
        assert Remove(d, k)[1..] == Remove(d[1..], k);
      }
    }
  }

  lemma {:induction false} RemoveAbsent<K, V>(d: Dict<K, V>, k: K)
    requires !Has(d, k)
    ensures Remove(d, k) == d
    decreases |d|
  {
    HasCons(d, k);
    if d != [] {
      RemoveAbsent(d[1..], k);
    }
  }

  lemma {:induction false} DistinctTail<K, V>(d: Dict<K, V>)
    ensures Distinct(d) <==> d == [] || (!Has(d[1..], d[0].0) && Distinct(d[1..]))
  {
    if d != [] {
      var t := d[1..];
      if Distinct(d) {
        assert forall i :: 0 <= i < |t| ==> t[i] == d[i + 1];
        assert !Has(t, d[0].0);
        assert Distinct(t);
      } else {
        var i, j :| 0 <= i < j < |d| && d[i].0 == d[j].0;
        if i == 0 {
          assert t[j - 1].0 == d[0].0;
        } else {
          assert t[i - 1].0 == t[j - 1].0;
        }
      }
    }
  }

  lemma {:induction false} DistinctRemove<K, V>(d: Dict<K, V>, k: K)
    requires Distinct(d)
    ensures Distinct(Remove(d, k))
    decreases |d|
  {
    if d != [] {
      DistinctTail(d);
      DistinctRemove(d[1..], k);
      if d[0].0 != k {
        HasRemove(d[1..], k, d[0].0);
        DistinctTail(Remove(d, k));
        assert Remove(d, k)[1..] == Remove(d[1..], k);
      }
    }
  }

  lemma {:induction false} DistinctPut<K, V>(d: Dict<K, V>, k: K, v: V)
    requires Distinct(d)
    ensures Distinct(Put(d, k, v))
    decreases |d|
  {
    if d != [] {
      DistinctTail(d);
      DistinctTail(Put(d, k, v));
      if d[0].0 == k {
        assert Put(d, k, v)[1..] == d[1..];
      } else {
        DistinctPut(d[1..], k, v);
        HasPut(d[1..], k, v, d[0].0);
        assert Put(d, k, v)[1..] == Put(d[1..], k, v);
      }
    }
  }

  // ---------- by entries ----------

  lemma {:induction false} EntryPut<K, V>(d: Dict<K, V>, k: K, v: V, e: (K, V))
    requires Distinct(d)
    ensures e in Put(d, k, v) <==> e == (k, v) || (e in d && e.0 != k)
    decreases |d|
  {
    if d != [] {
      DistinctTail(d);
      if d[0].0 == k {
        assert forall x :: x in d <==> x == d[0] || x in d[1..];
        assert forall i :: 0 <= i < |d[1..]| ==> d[1..][i].0 != k;
      } else {
        EntryPut(d[1..], k, v, e);
      }
    }
  }

  lemma {:induction false} EntryRemove<K, V>(d: Dict<K, V>, k: K, e: (K, V))
    ensures e in Remove(d, k) <==> e in d && e.0 != k
    decreases |d|
  {
    if d != [] {
      EntryRemove(d[1..], k, e);
    }
  }

  lemma {:induction false} EntryGet<K, V>(d: Dict<K, V>, k: K, default: V)
    requires Distinct(d)
    ensures Has(d, k) ==> (k, Get(d, k, default)) in d
    ensures forall v :: (k, v) in d ==> Has(d, k) && v == Get(d, k, default)
    decreases |d|
  {
    HasCons(d, k);
    if d != [] {
      DistinctTail(d);
      EntryGet(d[1..], k, default);
      forall v | (k, v) in d ensures Has(d, k) && v == Get(d, k, default) {
        assert (k, v) == d[0] || (k, v) in d[1..];
      }
    }
  }
}
