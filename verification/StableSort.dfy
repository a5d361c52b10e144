/** `list.sort(key=...)`: a stable sort by lexicographically ordered number tuples. */
module StableSort {

  /** Tuple comparison `a <= b`. */
  predicate LexLeq(a: seq<real>, b: seq<real>) {
    a == [] || (b != [] && (a[0] < b[0] || (a[0] == b[0] && LexLeq(a[1..], b[1..]))))
  }

  lemma {:induction false} LexTotal(a: seq<real>, b: seq<real>)
    ensures LexLeq(a, b) || LexLeq(b, a)
    ensures LexLeq(a, b) && LexLeq(b, a) ==> a == b
    ensures a == b ==> LexLeq(a, b)
  {
    if a != [] && b != [] && a[0] == b[0] {
      LexTotal(a[1..], b[1..]);
      assert a == [a[0]] + a[1..] && b == [b[0]] + b[1..];
    }
  }

  lemma {:induction false} LexTransitive(a: seq<real>, b: seq<real>, c: seq<real>)
    requires LexLeq(a, b) && LexLeq(b, c)
    ensures LexLeq(a, c)
  {
    if a != [] && a[0] == b[0] == c[0] {
      LexTransitive(a[1..], b[1..], c[1..]);
    }
  }

  /** x goes behind every entry whose key is not greater. */
  function Insert<T>(key: T -> seq<real>, xs: seq<T>, x: T): seq<T> {
    if xs == [] then [x]
    else if LexLeq(key(xs[|xs| - 1]), key(x)) then xs + [x]
    else Insert(key, xs[..|xs| - 1], x) + [xs[|xs| - 1]]
  }

  function SortBy<T>(key: T -> seq<real>, xs: seq<T>): seq<T> {
    if xs == [] then [] else Insert(key, SortBy(key, xs[..|xs| - 1]), xs[|xs| - 1])
  }

  ghost predicate Sorted<T>(key: T -> seq<real>, xs: seq<T>) {
    forall i, j | 0 <= i < j < |xs| :: LexLeq(key(xs[i]), key(xs[j]))
  }

  lemma {:induction false} InsertMultiset<T>(key: T -> seq<real>, xs: seq<T>, x: T)
    ensures multiset(Insert(key, xs, x)) == multiset(xs) + multiset{x}
  {
    if xs != [] {
      var init, last := xs[..|xs| - 1], xs[|xs| - 1];
      assert xs == init + [last];
      if !LexLeq(key(last), key(x)) { InsertMultiset(key, init, x); }
    }
  }

  lemma {:induction false} InsertKeeps<T>(key: T -> seq<real>, xs: seq<T>, x: T)
    requires Sorted(key, xs)
    ensures Sorted(key, Insert(key, xs, x))
  {
    if xs != [] {
      var init, last := xs[..|xs| - 1], xs[|xs| - 1];
      assert xs == init + [last];
      hide LexLeq;
      if LexLeq(key(last), key(x)) {
        forall i | 0 <= i < |xs| ensures LexLeq(key(xs[i]), key(x)) {
          if i < |init| { LexTransitive(key(xs[i]), key(last), key(x)); }
        }
      } else {
        InsertKeeps(key, init, x);
        LexTotal(key(last), key(x));
        InsertMultiset(key, init, x);
        var r := Insert(key, init, x);
        forall i | 0 <= i < |r| ensures LexLeq(key(r[i]), key(last)) {
          assert r[i] in multiset(r);
          if r[i] != x {
            assert r[i] in init;
          }
        }
      }
    }
  }

  lemma {:induction false} SortIsSortedPermutation<T>(key: T -> seq<real>, xs: seq<T>)
    ensures Sorted(key, SortBy(key, xs))
    ensures multiset(SortBy(key, xs)) == multiset(xs)
  {
    if xs != [] {
      var init, x := xs[..|xs| - 1], xs[|xs| - 1];
      SortIsSortedPermutation(key, init);
      InsertKeeps(key, SortBy(key, init), x);
      InsertMultiset(key, SortBy(key, init), x);
      assert xs == init + [x];
    }
  }

  ghost predicate KeysSeparate<T>(key: T -> seq<real>, m: multiset<T>) {
    forall x, y | x in m && y in m :: key(x) == key(y) ==> x == y
  }

  lemma LastIsGreatest<T>(key: T -> seq<real>, a: seq<T>, x: T)
    requires Sorted(key, a) && x in multiset(a)
    ensures a != [] && LexLeq(key(x), key(a[|a| - 1]))
  {
    assert x in a;
    var i :| 0 <= i < |a| && a[i] == x;
    LexTotal(key(x), key(x));
  }

  lemma DropLast<T>(a: seq<T>)
    requires a != []
    ensures multiset(a[..|a| - 1]) == multiset(a) - multiset{a[|a| - 1]}
    ensures a == a[..|a| - 1] + [a[|a| - 1]]
    ensures a[|a| - 1] in multiset(a)
  {
    assert a == a[..|a| - 1] + [a[|a| - 1]];
  }

  lemma LastAgrees<T>(key: T -> seq<real>, a: seq<T>, b: seq<T>)
    requires Sorted(key, a) && Sorted(key, b) && multiset(a) == multiset(b)
    requires KeysSeparate(key, multiset(a)) && a != []
    ensures b != [] && a[|a| - 1] == b[|b| - 1]
  {
    DropLast(a);
    LastIsGreatest(key, b, a[|a| - 1]);
    DropLast(b);
    LastIsGreatest(key, a, b[|b| - 1]);
    LexTotal(key(a[|a| - 1]), key(b[|b| - 1]));
  }

  lemma DropLastKeeps<T>(key: T -> seq<real>, a: seq<T>)
    requires Sorted(key, a) && KeysSeparate(key, multiset(a)) && a != []
    ensures Sorted(key, a[..|a| - 1]) && KeysSeparate(key, multiset(a[..|a| - 1]))
  {
    DropLast(a);
  }

  /** Two sorted arrangements of the same entries agree where equal keys mean equal entries. */
  lemma {:induction false} SortedUnique<T>(key: T -> seq<real>, a: seq<T>, b: seq<T>)
    requires Sorted(key, a) && Sorted(key, b) && multiset(a) == multiset(b)
    requires KeysSeparate(key, multiset(a))
    ensures a == b
    decreases |a|
  {
    if a == [] {
      assert |multiset(b)| == 0;
    } else {
      LastAgrees(key, a, b);
      DropLast(a);
      DropLast(b);
      DropLastKeeps(key, a);
      DropLastKeeps(key, b);
      SortedUnique(key, a[..|a| - 1], b[..|b| - 1]);
    }
  }

  function Filter<T>(p: T -> bool, xs: seq<T>): (ys: seq<T>)
    ensures forall y | y in ys :: y in xs && p(y)
  {
    if xs == [] then []
    else Filter(p, xs[..|xs| - 1]) + (if p(xs[|xs| - 1]) then [xs[|xs| - 1]] else [])
  }

  lemma FilterStep<T>(p: T -> bool, xs: seq<T>, x: T)
    ensures Filter(p, xs + [x]) == Filter(p, xs) + (if p(x) then [x] else [])
  {
    assert (xs + [x])[..|xs|] == xs;
  }

  lemma {:induction false} FilterConcat<T>(p: T -> bool, xs: seq<T>, ys: seq<T>)
    ensures Filter(p, xs + ys) == Filter(p, xs) + Filter(p, ys)
  {
    if ys == [] {
      assert xs + ys == xs;
    } else {
      var init := ys[..|ys| - 1];
      FilterConcat(p, xs, init);
      assert (xs + ys)[..|xs + ys| - 1] == xs + init;
    }
  }

  lemma {:induction false} FilterMultiset<T(!new)>(p: T -> bool, xs: seq<T>, ys: seq<T>)
    requires multiset(xs) == multiset(ys)
    ensures multiset(Filter(p, xs)) == multiset(Filter(p, ys))
  {
    var a, b := multiset(Filter(p, xs)), multiset(Filter(p, ys));
    forall x ensures a[x] == b[x] {
      FilterCount(p, xs, x);
      FilterCount(p, ys, x);
    }
    assert a == b;
  }

  lemma {:induction false} FilterCount<T>(p: T -> bool, xs: seq<T>, x: T)
    ensures multiset(Filter(p, xs))[x] == if p(x) then multiset(xs)[x] else 0
  {
    if xs != [] {
      FilterCount(p, xs[..|xs| - 1], x);
      assert xs == xs[..|xs| - 1] + [xs[|xs| - 1]];
    }
  }

  function WithKey<T>(key: T -> seq<real>, k: seq<real>): T -> bool {
    x => key(x) == k
  }

  /** Stability: the entries of one key keep their input order. */
  lemma {:induction false} SortStable<T>(key: T -> seq<real>, xs: seq<T>, k: seq<real>)
    ensures Filter(WithKey(key, k), SortBy(key, xs)) == Filter(WithKey(key, k), xs)
  {
    if xs != [] {
      var init, x := xs[..|xs| - 1], xs[|xs| - 1];
      SortStable(key, init, k);
      SortIsSortedPermutation(key, init);
      InsertStable(key, SortBy(key, init), x, k);
    }
  }

  lemma {:induction false} InsertStable<T>(key: T -> seq<real>, xs: seq<T>, x: T, k: seq<real>)
    requires Sorted(key, xs)
    ensures Filter(WithKey(key, k), Insert(key, xs, x))
         == Filter(WithKey(key, k), xs) + (if key(x) == k then [x] else [])
  {
    var p := WithKey(key, k);
    if xs == [] {
      FilterStep(p, [], x);
      assert [] + [x] == [x];
    } else {
      var init, last := xs[..|xs| - 1], xs[|xs| - 1];
      if LexLeq(key(last), key(x)) {
        FilterStep(p, xs, x);
      } else {
        InsertStable(key, init, x, k);
        FilterStep(p, Insert(key, init, x), last);
        LexTotal(key(last), key(x));
      }
    }
  }

  /** Sorting commutes with a map that keeps the keys. */
  lemma {:induction false} SortMap<T, U>(key: T -> seq<real>, key': U -> seq<real>, f: T -> U, xs: seq<T>)
    requires forall x :: key'(f(x)) == key(x)
    ensures SortBy(key', Map(f, xs)) == Map(f, SortBy(key, xs))
  {
    if xs != [] {
      var init, x := xs[..|xs| - 1], xs[|xs| - 1];
      SortMap(key, key', f, init);
      assert Map(f, xs)[..|xs| - 1] == Map(f, init);
      InsertMap(key, key', f, SortBy(key, init), x);
    }
  }

  function Map<T, U>(f: T -> U, xs: seq<T>): (ys: seq<U>)
    ensures |ys| == |xs| && forall i | 0 <= i < |xs| :: ys[i] == f(xs[i])
  {
    seq(|xs|, i requires 0 <= i < |xs| => f(xs[i]))
  }

  lemma {:induction false} InsertMap<T, U>(key: T -> seq<real>, key': U -> seq<real>, f: T -> U, xs: seq<T>, x: T)
    requires forall y :: key'(f(y)) == key(y)
    ensures Insert(key', Map(f, xs), f(x)) == Map(f, Insert(key, xs, x))
  {
    if xs != [] {
      var init := xs[..|xs| - 1];
      assert Map(f, xs)[..|xs| - 1] == Map(f, init);
      InsertMap(key, key', f, init, x);
    }
  }
}
