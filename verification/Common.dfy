/** Types shared by the models. */
module Common {
  datatype Option<+T> = None | Some(value: T)

  /** A Python dict: its entries in insertion order, no key twice. */
  type Dict<K, V> = seq<(K, V)>

  ghost predicate UniqueKeys<K, V>(d: Dict<K, V>) {
    forall i, j :: 0 <= i < j < |d| ==> d[i].0 != d[j].0
  }

  ghost predicate HasKey<K, V>(d: Dict<K, V>, k: K) {
    exists i :: 0 <= i < |d| && d[i].0 == k
  }

  function Get<K(==), V>(d: Dict<K, V>, k: K): (r: Option<V>)
    ensures r.Some? <==> HasKey(d, k)
    ensures r.Some? ==> (k, r.value) in d
  {
    if d == [] then None
    else if d[0].0 == k then Some(d[0].1)
    else
      var r := Get(d[1..], k);
      assert HasKey(d[1..], k) <==> HasKey(d, k) by {
        if HasKey(d, k) { var i :| 0 <= i < |d| && d[i].0 == k; assert d[1..][i - 1].0 == k; }
      }
      r
  }

  function GetOr<K(==), V>(d: Dict<K, V>, k: K, default: V): V {
    var r := Get(d, k);
    if r.Some? then r.value else default
  }

  /** `d[k] = v`: an existing key keeps its place, a new one goes last. */
  function Put<K(==), V>(d: Dict<K, V>, k: K, v: V): Dict<K, V> {
    if d == [] then [(k, v)]
    else if d[0].0 == k then [(k, v)] + d[1..]
    else [d[0]] + Put(d[1..], k, v)
  }

  lemma {:induction false} GetPut<K, V>(d: Dict<K, V>, k: K, v: V, x: K)
    ensures Get(Put(d, k, v), x) == if x == k then Some(v) else Get(d, x)
    decreases |d|
  {
    if d != [] && d[0].0 != k {
      assert ([d[0]] + Put(d[1..], k, v))[1..] == Put(d[1..], k, v);
      GetPut(d[1..], k, v, x);
    } else if d != [] {
      assert ([(k, v)] + d[1..])[1..] == d[1..];
    }
  }

  lemma {:induction false} PutNew<K, V>(d: Dict<K, V>, k: K, v: V)
    requires !HasKey(d, k)
    ensures Put(d, k, v) == d + [(k, v)]
    ensures Get(d, k) == None
  {
    if d != [] {
      assert d[0].0 != k;
      assert forall i :: 0 <= i < |d[1..]| ==> d[1..][i] == d[i + 1];
      PutNew(d[1..], k, v);
    }
  }

  lemma {:induction false} PutLast<K, V>(d: Dict<K, V>, k: K, w: V, v: V)
    requires !HasKey(d, k)
    ensures Put(d + [(k, w)], k, v) == d + [(k, v)]
    ensures Get(d + [(k, w)], k) == Some(w)
  {
    if d == [] {
      assert d + [(k, w)] == [(k, w)] && [(k, w)][1..] == [];
    } else {
      assert d[0].0 != k;
      assert (d + [(k, w)])[1..] == d[1..] + [(k, w)];
      assert forall i :: 0 <= i < |d[1..]| ==> d[1..][i] == d[i + 1];
      PutLast(d[1..], k, w, v);
    }
  }

  lemma {:induction false} GetAt<K, V>(d: Dict<K, V>, i: nat)
    requires UniqueKeys(d) && i < |d|
    ensures Get(d, d[i].0) == Some(d[i].1)
    decreases |d|
  {
    if i > 0 {
      assert d[0].0 != d[i].0;
      GetAt(d[1..], i - 1);
    }
  }

  lemma {:induction false} SubsetSize<T>(a: set<T>, b: set<T>)
    requires a <= b
    ensures |a| <= |b|
    decreases a
  {
    if a != {} {
      var e :| e in a;
      SubsetSize(a - {e}, b - {e});
    }
  }
}
