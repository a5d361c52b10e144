/** First-registered-wins deduplication by a key: the point registries of both observation forms. */
module Dedup {

  /** Position of the first pool entry with key k; |pool| when there is none. */
  function IndexOf<T, K(==)>(key: T -> K, pool: seq<T>, k: K): (i: nat)
    ensures i <= |pool|
    ensures i < |pool| ==> key(pool[i]) == k
    ensures forall j | 0 <= j < i :: key(pool[j]) != k
  {
    if pool == [] then 0
    else if key(pool[0]) == k then 0
    else 1 + IndexOf(key, pool[1..], k)
  }

  predicate Has<T, K(==)>(key: T -> K, pool: seq<T>, k: K) {
    IndexOf(key, pool, k) < |pool|
  }

  /** One registration: a value whose key is already in the pool changes nothing. */
  function Extend<T, K(==)>(key: T -> K, pool: seq<T>, x: T): seq<T> {
    if Has(key, pool, key(x)) then pool else pool + [x]
  }

  /** The pool after registering every value of xs in order. */
  function Pool<T, K(==)>(key: T -> K, xs: seq<T>): seq<T> {
    if xs == [] then [] else Extend(key, Pool(key, xs[..|xs| - 1]), xs[|xs| - 1])
  }

  /** The registered value that stands for x (x itself when nothing does). */
  function Rep<T, K(==)>(key: T -> K, pool: seq<T>, x: T): T {
    var i := IndexOf(key, pool, key(x));
    if i < |pool| then pool[i] else x
  }

  function Reps<T, K(==)>(key: T -> K, pool: seq<T>, xs: seq<T>): (ys: seq<T>)
    ensures |ys| == |xs| && forall i | 0 <= i < |xs| :: ys[i] == Rep(key, pool, xs[i])
  {
    seq(|xs|, i requires 0 <= i < |xs| => Rep(key, pool, xs[i]))
  }

  ghost predicate DistinctKeys<T, K>(key: T -> K, pool: seq<T>) {
    forall i, j | 0 <= i < j < |pool| :: key(pool[i]) != key(pool[j])
  }

  lemma IndexOfUnique<T, K>(key: T -> K, pool: seq<T>, i: nat)
    requires i < |pool| && DistinctKeys(key, pool)
    ensures IndexOf(key, pool, key(pool[i])) == i
  {
    var j := IndexOf(key, pool, key(pool[i]));
    assert j <= i;
  }

  lemma IndexOfHas<T, K>(key: T -> K, pool: seq<T>, i: nat)
    requires i < |pool|
    ensures Has(key, pool, key(pool[i]))
  {
  }

  lemma IndexOfStable<T, K>(key: T -> K, pool: seq<T>, more: seq<T>, k: K)
    requires pool <= more && Has(key, pool, k)
    ensures IndexOf(key, more, k) == IndexOf(key, pool, k) && Has(key, more, k)
  {
    var i := IndexOf(key, pool, k);
    var j := IndexOf(key, more, k);
    assert more[i] == pool[i];
    assert forall h | 0 <= h < i :: more[h] == pool[h];
  }

  lemma PoolStep<T, K>(key: T -> K, xs: seq<T>, x: T)
    ensures Pool(key, xs + [x]) == Extend(key, Pool(key, xs), x)
  {
    assert (xs + [x])[..|xs|] == xs;
  }

  lemma {:induction false} PoolPrefix<T, K>(key: T -> K, xs: seq<T>, n: nat)
    requires n <= |xs|
    ensures Pool(key, xs[..n]) <= Pool(key, xs)
  {
    if n < |xs| {
      PoolPrefix(key, xs[..|xs| - 1], n);
      assert xs[..|xs| - 1][..n] == xs[..n];
    } else {
      assert xs[..n] == xs;
    }
  }

  /** A pool holds one entry per key, and every registered key has one. */
  lemma {:induction false} PoolKeys<T, K>(key: T -> K, xs: seq<T>)
    ensures DistinctKeys(key, Pool(key, xs))
    ensures forall i | 0 <= i < |xs| :: Has(key, Pool(key, xs), key(xs[i]))
    ensures |Pool(key, xs)| <= |xs|
  {
    if xs != [] {
      var init, x := xs[..|xs| - 1], xs[|xs| - 1];
      PoolKeys(key, init);
      var p, q := Pool(key, init), Pool(key, xs);
      forall i | 0 <= i < |xs| ensures Has(key, q, key(xs[i])) {
        if i < |init| {
          assert init[i] == xs[i];
          IndexOfStable(key, p, q, key(xs[i]));
        } else if !Has(key, p, key(x)) {
          IndexOfHas(key, q, |p|);
        }
      }
    }
  }

  /** The position a value gets while it is registered is its position in the final pool. */
  lemma RegisteredIndex<T, K>(key: T -> K, xs: seq<T>, n: nat)
    requires n < |xs|
    ensures Has(key, Pool(key, xs[..n + 1]), key(xs[n]))
    ensures IndexOf(key, Pool(key, xs[..n + 1]), key(xs[n])) == IndexOf(key, Pool(key, xs), key(xs[n]))
    ensures Has(key, Pool(key, xs), key(xs[n]))
  {
    var pre := xs[..n + 1];
    PoolKeys(key, pre);
    assert pre[n] == xs[n];
    PoolPrefix(key, xs, n + 1);
    IndexOfStable(key, Pool(key, pre), Pool(key, xs), key(xs[n]));
  }

  /** Registering the representatives instead of the raw values gives the same pool: what a reader
      that re-runs the deduplication on printed coordinates relies on. */
  lemma {:induction false} RepsPool<T, K>(key: T -> K, xs: seq<T>, pool: seq<T>)
    requires Pool(key, xs) <= pool && DistinctKeys(key, pool)
    ensures Pool(key, Reps(key, pool, xs)) == Pool(key, xs)
  {
    if xs != [] {
      var init, x := xs[..|xs| - 1], xs[|xs| - 1];
      PoolPrefix(key, xs, |init|);
      RepsPool(key, init, pool);
      assert Reps(key, pool, xs) == Reps(key, pool, init) + [Rep(key, pool, x)];
      PoolStep(key, Reps(key, pool, init), Rep(key, pool, x));
      var p := Pool(key, init);
      PoolKeys(key, xs);
      assert xs[|init|] == x;
      IndexOfStable(key, Pool(key, xs), pool, key(x));
      assert key(Rep(key, pool, x)) == key(x);
      if !Has(key, p, key(x)) {
        assert pool[|p|] == x;
        IndexOfUnique(key, pool, |p|);
      }
    }
  }

  lemma RepKey<T, K>(key: T -> K, pool: seq<T>, x: T)
    ensures key(Rep(key, pool, x)) == key(x)
  {
  }

  lemma RepsConcat<T, K>(key: T -> K, pool: seq<T>, xs: seq<T>, ys: seq<T>)
    ensures Reps(key, pool, xs + ys) == Reps(key, pool, xs) + Reps(key, pool, ys)
  {
  }
}
