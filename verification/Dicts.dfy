/** A Python dict as a list of pairs in insertion order. */
module Dicts {
  import opened Decimal

  type Dict<K, V> = seq<(K, V)>

  /** `d.get(k)` */
  function Get<K(==), V>(d: Dict<K, V>, k: K): Option<V> {
    if d == [] then None
    else if d[|d| - 1].0 == k then Some(d[|d| - 1].1)
    else Get(d[..|d| - 1], k)
  }

  /** `d.get(k, [])` */
  function List<K(==), T>(d: Dict<K, seq<T>>, k: K): seq<T> {
    match Get(d, k) case None => [] case Some(v) => v
  }

  function Replace<K(==), V>(d: Dict<K, V>, k: K, v: V): Dict<K, V> {
    if d == [] then []
    else if d[|d| - 1].0 == k then d[..|d| - 1] + [(k, v)]
    else Replace(d[..|d| - 1], k, v) + [d[|d| - 1]]
  }

  /** `d[k] = v`: in place for a known key, at the end for a new one. */
  function Put<K(==), V>(d: Dict<K, V>, k: K, v: V): Dict<K, V> {
    if Get(d, k).Some? then Replace(d, k, v) else d + [(k, v)]
  }

  /** `d.setdefault(k, []).append(x)` */
  function Push<K(==), T>(d: Dict<K, seq<T>>, k: K, x: T): Dict<K, seq<T>> {
    Put(d, k, List(d, k) + [x])
  }

  /** A dict has one entry per key. */
  predicate Keyed<K(==), V>(d: Dict<K, V>) {
    d == [] || (Keyed(d[..|d| - 1]) && Get(d[..|d| - 1], d[|d| - 1].0).None?)
  }

  lemma {:induction false} GetAfterReplace<K, V>(d: Dict<K, V>, k: K, v: V, j: K)
    ensures Get(Replace(d, k, v), j) == if j == k && Get(d, k).Some? then Some(v) else Get(d, j)
    ensures Keyed(d) ==> Keyed(Replace(d, k, v))
  {
    if d != [] {
      var init, last := d[..|d| - 1], d[|d| - 1];
      if last.0 == k {
        assert (init + [(k, v)])[..|init|] == init;
      } else {
        GetAfterReplace(init, k, v, j);
        GetAfterReplace(init, k, v, last.0);
        assert (Replace(init, k, v) + [last])[..|Replace(init, k, v)|] == Replace(init, k, v);
      }
    }
  }

  lemma GetAfterPut<K, V>(d: Dict<K, V>, k: K, v: V, j: K)
    ensures Get(Put(d, k, v), j) == if j == k then Some(v) else Get(d, j)
    ensures Keyed(d) ==> Keyed(Put(d, k, v))
  {
    GetAfterReplace(d, k, v, j);
    assert (d + [(k, v)])[..|d|] == d;
  }

  lemma {:induction false} EntryIsGot<K, V>(d: Dict<K, V>, i: nat)
    requires Keyed(d) && i < |d|
    ensures Get(d, d[i].0) == Some(d[i].1)
  {
    var init := d[..|d| - 1];
    if i < |d| - 1 {
      EntryIsGot(init, i);
      assert init[i] == d[i];
    }
  }

  lemma {:induction false} GotIsEntry<K, V>(d: Dict<K, V>, k: K)
    requires Get(d, k).Some?
    ensures exists i :: 0 <= i < |d| && d[i] == (k, Get(d, k).value)
  {
    if d[|d| - 1].0 == k {
      assert d[|d| - 1] == (k, Get(d, k).value);
    } else {
      GotIsEntry(d[..|d| - 1], k);
      var i :| 0 <= i < |d| - 1 && d[..|d| - 1][i] == (k, Get(d, k).value);
      assert d[i] == (k, Get(d, k).value);
    }
  }

  // --- counting over all the lists of a dict ---------------------------------------------------------------

  function Count<T>(xs: seq<T>, p: T -> bool): nat {
    if xs == [] then 0 else Count(xs[..|xs| - 1], p) + if p(xs[|xs| - 1]) then 1 else 0
  }

  function CountIn<K, T>(d: Dict<K, seq<T>>, p: T -> bool): nat {
    if d == [] then 0 else CountIn(d[..|d| - 1], p) + Count(d[|d| - 1].1, p)
  }

  lemma {:induction false} CountConcat<T>(xs: seq<T>, ys: seq<T>, p: T -> bool)
    ensures Count(xs + ys, p) == Count(xs, p) + Count(ys, p)
  {
    if ys == [] {
      assert xs + ys == xs;
    } else {
      assert (xs + ys)[..|xs + ys| - 1] == xs + ys[..|ys| - 1];
      CountConcat(xs, ys[..|ys| - 1], p);
    }
  }

  lemma CountOne<T>(x: T, p: T -> bool)
    ensures Count([x], p) == if p(x) then 1 else 0
  {
    assert [x][..0] == [];
  }

  lemma {:induction false} CountAll<T>(xs: seq<T>, p: T -> bool)
    requires forall i | 0 <= i < |xs| :: p(xs[i])
    ensures Count(xs, p) == |xs|
  {
    if xs != [] { CountAll(xs[..|xs| - 1], p); }
  }

  lemma {:induction false} CountAfterReplace<K, T>(d: Dict<K, seq<T>>, k: K, v: seq<T>, p: T -> bool)
    requires Get(d, k).Some?
    ensures CountIn(Replace(d, k, v), p) + Count(List(d, k), p) == CountIn(d, p) + Count(v, p)
  {
    var init, last := d[..|d| - 1], d[|d| - 1];
    if last.0 == k {
      assert (init + [(k, v)])[..|init|] == init;
    } else {
      CountAfterReplace(init, k, v, p);
      assert (Replace(init, k, v) + [last])[..|Replace(init, k, v)|] == Replace(init, k, v);
    }
  }

  /** Replacing one list changes the total by the difference. */
  lemma CountAfterPut<K, T>(d: Dict<K, seq<T>>, k: K, v: seq<T>, p: T -> bool)
    ensures CountIn(Put(d, k, v), p) + Count(List(d, k), p) == CountIn(d, p) + Count(v, p)
  {
    if Get(d, k).Some? {
      CountAfterReplace(d, k, v, p);
    } else {
      assert (d + [(k, v)])[..|d|] == d;
    }
  }

  lemma CountAfterPush<K, T>(d: Dict<K, seq<T>>, k: K, x: T, p: T -> bool)
    ensures CountIn(Push(d, k, x), p) == CountIn(d, p) + if p(x) then 1 else 0
  {
    CountAfterPut(d, k, List(d, k) + [x], p);
    CountConcat(List(d, k), [x], p);
    CountOne(x, p);
  }
}
