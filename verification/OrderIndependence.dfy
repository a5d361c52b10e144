/** The engine lists tracks, vias and ratsnest edges in no particular order.  When does
    `build_net_geometry` give the same result for every order?  Exactly when no in-scope net has two
    ratsnest edges with the same four coordinates and different printed layers. */
module OrderIndependence {
  import opened Decimal
  import opened Dedup
  import opened Csr
  import opened StableSort
  import opened IntSets
  import opened Observation
  import opened NetGeometries

  /** The same items in any order. */
  ghost predicate Shuffled(s: Snapshot, t: Snapshot) {
    multiset(s.tracks) == multiset(t.tracks) && multiset(s.vias) == multiset(t.vias)
    && multiset(s.ratsnest) == multiset(t.ratsnest)
  }

  function Geometry(rnd: real -> real, lm: Option<map<int, int>>, target: Option<set<int>>, s: Snapshot): seq<(int, NetGeometry)> {
    GeometriesOf(rnd, RawGeometriesOf(s, lm, target))
  }

  ghost predicate OrderFree(rnd: real -> real, lm: Option<map<int, int>>, target: Option<set<int>>, s: Snapshot) {
    forall t | Shuffled(s, t) :: Geometry(rnd, lm, target, t) == Geometry(rnd, lm, target, s)
  }

  ghost predicate Ambiguous(lm: Option<map<int, int>>, target: Option<set<int>>, e: RatsEdge, f: RatsEdge) {
    && e.netCode == f.netCode && InScope(target, e.netCode)
    && RatsKey(e) == RatsKey(f) && RatsLayers(lm, e) != RatsLayers(lm, f)
  }

  ghost predicate LayersSettled(lm: Option<map<int, int>>, target: Option<set<int>>, s: Snapshot) {
    forall e, f | e in s.ratsnest && f in s.ratsnest :: !Ambiguous(lm, target, e, f)
  }

  // --- settled layers: any order gives the same geometry ----------------------------------------

  lemma SameMembers<T>(a: seq<T>, b: seq<T>)
    requires multiset(a) == multiset(b)
    ensures forall x :: x in a <==> x in b
    ensures |a| == |b|
  {
    assert forall x :: x in a <==> x in multiset(a);
    assert |multiset(a)| == |a| && |multiset(b)| == |b|;
  }

  function Without<T>(b: seq<T>, i: nat): seq<T>
    requires i < |b|
  {
    b[..i] + b[i + 1..]
  }

  lemma WithoutMultiset<T>(b: seq<T>, i: nat)
    requires i < |b|
    ensures multiset(b) == multiset(Without(b, i)) + multiset{b[i]}
  {
    assert b == b[..i] + [b[i]] + b[i + 1..];
  }

  lemma MapWithout<T, U>(f: T -> U, b: seq<T>, i: nat)
    requires i < |b|
    ensures Map(f, Without(b, i)) == Without(Map(f, b), i)
  {
  }

  lemma {:induction false} MapMultiset<T, U>(f: T -> U, a: seq<T>, b: seq<T>)
    requires multiset(a) == multiset(b)
    ensures multiset(Map(f, a)) == multiset(Map(f, b))
    decreases |a|, 1
  {
    SameMembers(a, b);
    if a != [] {
      var x := a[0];
      assert x in b;
      var i :| 0 <= i < |b| && b[i] == x;
      WithoutMultiset(a, 0);
      WithoutMultiset(b, i);
      assert multiset(Without(a, 0)) == multiset(a) - multiset{x};
      assert multiset(Without(b, i)) == multiset(b) - multiset{x};
      MapStep(f, a, b, i);
    }
  }

  lemma {:induction false} MapStep<T, U>(f: T -> U, a: seq<T>, b: seq<T>, i: nat)
    requires a != [] && i < |b| && a[0] == b[i] && multiset(Without(a, 0)) == multiset(Without(b, i))
    ensures multiset(Map(f, a)) == multiset(Map(f, b))
    decreases |a|, 0
  {
    MapMultiset(f, Without(a, 0), Without(b, i));
    MapWithout(f, a, 0);
    MapWithout(f, b, i);
    WithoutMultiset(Map(f, a), 0);
    WithoutMultiset(Map(f, b), i);
  }

  lemma SortedSame<T(!new)>(key: T -> seq<real>, xs: seq<T>, ys: seq<T>)
    requires multiset(xs) == multiset(ys) && KeysSeparate(key, multiset(xs))
    ensures SortBy(key, xs) == SortBy(key, ys)
  {
    SortIsSortedPermutation(key, xs);
    SortIsSortedPermutation(key, ys);
    SortedUnique(key, SortBy(key, xs), SortBy(key, ys));
  }

  lemma OfCodeMultiset<T(!new)>(code: T -> int, c: int, xs: seq<T>, ys: seq<T>)
    requires multiset(xs) == multiset(ys)
    ensures multiset(OfCode(code, c, xs)) == multiset(OfCode(code, c, ys))
  {
    FilterMultiset(x => code(x) == c, xs, ys);
  }

  lemma TrackKeyInjective(x: TrackItem, y: TrackItem)
    requires TrackKey(x) == TrackKey(y) && x.netCode == y.netCode
    ensures x == y
  {
    var k, l := TrackKey(x), TrackKey(y);
    assert k[0] == l[0] && k[1] == l[1] && k[2] == l[2] && k[3] == l[3] && k[4] == l[4] && k[5] == l[5];
  }

  lemma ViaKeyInjective(x: ViaItem, y: ViaItem)
    requires ViaKey(x) == ViaKey(y) && x.netCode == y.netCode
    ensures x == y
  {
    var k, l := ViaKey(x), ViaKey(y);
    assert k[0] == l[0] && k[1] == l[1] && k[2] == l[2] && k[3] == l[3] && k[4] == l[4];
  }

  lemma OfCodeMember<T>(code: T -> int, c: int, xs: seq<T>, x: T)
    requires x in OfCode(code, c, xs)
    ensures code(x) == c && x in xs
  {
  }

  lemma TracksSame(s: Snapshot, t: Snapshot, c: int)
    requires Shuffled(s, t)
    ensures SortedTracks(s, c) == SortedTracks(t, c) && SortedVias(s, c) == SortedVias(t, c)
  {
    OfCodeMultiset(TrackCode, c, s.tracks, t.tracks);
    OfCodeMultiset(ViaCode, c, s.vias, t.vias);
    forall x, y | x in multiset(TracksOfNet(s, c)) && y in multiset(TracksOfNet(s, c)) && TrackKey(x) == TrackKey(y) ensures x == y {
      OfCodeMember(TrackCode, c, s.tracks, x);
      OfCodeMember(TrackCode, c, s.tracks, y);
      TrackKeyInjective(x, y);
    }
    forall x, y | x in multiset(ViasOfNet(s, c)) && y in multiset(ViasOfNet(s, c)) && ViaKey(x) == ViaKey(y) ensures x == y {
      OfCodeMember(ViaCode, c, s.vias, x);
      OfCodeMember(ViaCode, c, s.vias, y);
      ViaKeyInjective(x, y);
    }
    SortedSame(TrackKey, TracksOfNet(s, c), TracksOfNet(t, c));
    SortedSame(ViaKey, ViasOfNet(s, c), ViasOfNet(t, c));
  }

  /** What of a ratsnest edge reaches the output. */
  datatype RatsRow = RatsRow(p1: Pt, p2: Pt, l1: int, l2: int)

  function RowKey(r: RatsRow): seq<real> { [r.p1.x, r.p1.y, r.p2.x, r.p2.y] }

  function RowOf(lm: Option<map<int, int>>): RatsEdge -> RatsRow {
    (e: RatsEdge) => RatsRow(e.p1, e.p2, RatsLayers(lm, e).0, RatsLayers(lm, e).1)
  }

  function RowEnds(r: RatsRow): seq<Pt3> { [Pt3(r.p1.x, r.p1.y, r.l1), Pt3(r.p2.x, r.p2.y, r.l2)] }

  lemma PointsOfRows(lm: Option<map<int, int>>, es: seq<RatsEdge>)
    ensures RatsPoints(lm, es) == Flat(Map(RowEnds, Map(RowOf(lm), es)))
  {
    assert Map((e: RatsEdge) => RatsEnds(lm, e), es) == Map(RowEnds, Map(RowOf(lm), es));
  }

  lemma RowKeyInjective(lm: Option<map<int, int>>, e: RatsEdge, f: RatsEdge)
    requires RowKey(RowOf(lm)(e)) == RowKey(RowOf(lm)(f))
    ensures RatsKey(e) == RatsKey(f)
    ensures RatsLayers(lm, e) == RatsLayers(lm, f) ==> RowOf(lm)(e) == RowOf(lm)(f)
  {
    var k, l := RatsKey(e), RatsKey(f);
    assert k[0] == l[0] && k[1] == l[1] && k[2] == l[2] && k[3] == l[3];
  }

  lemma RatsSame(lm: Option<map<int, int>>, target: Option<set<int>>, s: Snapshot, t: Snapshot, c: int)
    requires Shuffled(s, t) && LayersSettled(lm, target, s) && InScope(target, c)
    ensures RatsPoints(lm, SortedRats(s, target, c)) == RatsPoints(lm, SortedRats(t, target, c))
  {
    var a, b, f := RatsOfNet(s, c), RatsOfNet(t, c), RowOf(lm);
    OfCodeMultiset(RatsCode, c, s.ratsnest, t.ratsnest);
    MapMultiset(f, a, b);
    forall x, y | x in multiset(Map(f, a)) && y in multiset(Map(f, a)) && RowKey(x) == RowKey(y) ensures x == y {
      var i :| 0 <= i < |a| && Map(f, a)[i] == x;
      var j :| 0 <= j < |a| && Map(f, a)[j] == y;
      OfCodeMember(RatsCode, c, s.ratsnest, a[i]);
      OfCodeMember(RatsCode, c, s.ratsnest, a[j]);
      RowKeyInjective(lm, a[i], a[j]);
      assert !Ambiguous(lm, target, a[i], a[j]);
    }
    SortedSame(RowKey, Map(f, a), Map(f, b));
    SortMap(RatsKey, RowKey, f, a);
    SortMap(RatsKey, RowKey, f, b);
    PointsOfRows(lm, SortBy(RatsKey, a));
    PointsOfRows(lm, SortBy(RatsKey, b));
  }

  lemma SettledIsOrderFree(rnd: real -> real, lm: Option<map<int, int>>, target: Option<set<int>>, s: Snapshot, t: Snapshot)
    requires Shuffled(s, t) && LayersSettled(lm, target, s)
    ensures Geometry(rnd, lm, target, t) == Geometry(rnd, lm, target, s)
  {
    SameMembers(s.tracks, t.tracks);
    SameMembers(s.vias, t.vias);
    SameMembers(s.ratsnest, t.ratsnest);
    assert NetCodes(s, target) == NetCodes(t, target);
    var codes := Ascending(NetCodes(s, target));
    hide NetCodes, SortedTracks, SortedVias, SortedRats, RatsPoints, GeometryOf;
    forall i | 0 <= i < |codes|
      ensures RawGeometryOf(s, lm, target, codes[i]) == RawGeometryOf(t, lm, target, codes[i])
    {
      var c := codes[i];
      TracksSame(s, t, c);
      if InScope(target, c) {
        RatsSame(lm, target, s, t, c);
      } else {
        OutOfScope(target, s, t, c);
      }
    }
    assert RawGeometriesOf(s, lm, target) == RawGeometriesOf(t, lm, target);
  }

  lemma OutOfScope(target: Option<set<int>>, s: Snapshot, t: Snapshot, c: int)
    requires !InScope(target, c)
    ensures SortedRats(s, target, c) == SortedRats(t, target, c)
  {
  }

  // --- unsettled layers: two orders that differ ------------------------------------------------------

  function Layers(lm: Option<map<int, int>>): RatsEdge -> (int, int) {
    (e: RatsEdge) => RatsLayers(lm, e)
  }

  lemma SameKeyColumn(a: seq<RatsEdge>, b: seq<RatsEdge>)
    requires multiset(a) == multiset(b)
    ensures Map(RatsKey, SortBy(RatsKey, a)) == Map(RatsKey, SortBy(RatsKey, b))
  {
    SortIsSortedPermutation(RatsKey, a);
    SortIsSortedPermutation(RatsKey, b);
    MapMultiset(RatsKey, SortBy(RatsKey, a), SortBy(RatsKey, b));
    SortedUnique((k: seq<real>) => k, Map(RatsKey, SortBy(RatsKey, a)), Map(RatsKey, SortBy(RatsKey, b)));
  }

  lemma {:induction false} RatsPointsAt(lm: Option<map<int, int>>, es: seq<RatsEdge>, m: nat)
    requires m < |es|
    ensures |RatsPoints(lm, es)| == 2 * |es|
    ensures RatsPoints(lm, es)[2 * m] == RatsEnds(lm, es[m])[0] && RatsPoints(lm, es)[2 * m + 1] == RatsEnds(lm, es[m])[1]
  {
    var k := |es| - 1;
    RatsStep(lm, es, k);
    assert es[..k + 1] == es;
    if k > 0 {
      RatsPointsAt(lm, es[..k], if m < k then m else 0);
    } else {
      NothingYet(lm, es, []);
    }
  }

  /** The printed points show the layers of every edge. */
  lemma PointsShowLayers(rnd: real -> real, lm: Option<map<int, int>>, a: seq<RatsEdge>, b: seq<RatsEdge>)
    requires PointsOf(rnd, RatsPoints(lm, a)) == PointsOf(rnd, RatsPoints(lm, b)) && |a| == |b|
    ensures Map(Layers(lm), a) == Map(Layers(lm), b)
  {
    var p, q := RatsPoints(lm, a), RatsPoints(lm, b);
    forall m | 0 <= m < |a| ensures RatsLayers(lm, a[m]) == RatsLayers(lm, b[m]) {
      RatsPointsAt(lm, a, m);
      RatsPointsAt(lm, b, m);
      PointLayer(rnd, p, 2 * m);
      PointLayer(rnd, q, 2 * m);
      PointLayer(rnd, p, 2 * m + 1);
      PointLayer(rnd, q, 2 * m + 1);
    }
  }

  lemma PointLayer(rnd: real -> real, ps: seq<Pt3>, i: nat)
    requires i < |ps|
    ensures PointsOf(rnd, ps)[i].layer == ps[i].layer
  {
    RepKey(XylKey(rnd), Pool(XylKey(rnd), ps), ps[i]);
  }

  lemma {:induction false} FilterAligned(lm: Option<map<int, int>>, a: seq<RatsEdge>, b: seq<RatsEdge>, k: seq<real>)
    requires Map(RatsKey, a) == Map(RatsKey, b) && Map(Layers(lm), a) == Map(Layers(lm), b)
    ensures Map(Layers(lm), Filter(WithKey(RatsKey, k), a)) == Map(Layers(lm), Filter(WithKey(RatsKey, k), b))
  {
    hide RatsKey, RatsLayers;
    assert |a| == |Map(RatsKey, a)| == |b|;
    if a != [] {
      var n := |a| - 1;
      assert Map(RatsKey, a[..n]) == Map(RatsKey, a)[..n] && Map(RatsKey, b[..n]) == Map(RatsKey, b)[..n];
      assert Map(Layers(lm), a[..n]) == Map(Layers(lm), a)[..n] && Map(Layers(lm), b[..n]) == Map(Layers(lm), b)[..n];
      FilterAligned(lm, a[..n], b[..n], k);
      assert Map(RatsKey, a)[n] == Map(RatsKey, b)[n] && Map(Layers(lm), a)[n] == Map(Layers(lm), b)[n];
      assert RatsKey(a[n]) == RatsKey(b[n]) && RatsLayers(lm, a[n]) == RatsLayers(lm, b[n]);
    }
  }

  /** Two orders that print the same points list the layers of equal-keyed edges in the same order. */
  lemma SamePointsSameLayers(rnd: real -> real, lm: Option<map<int, int>>, a: seq<RatsEdge>, b: seq<RatsEdge>, k: seq<real>)
    requires multiset(a) == multiset(b)
    requires PointsOf(rnd, RatsPoints(lm, SortBy(RatsKey, a))) == PointsOf(rnd, RatsPoints(lm, SortBy(RatsKey, b)))
    ensures Map(Layers(lm), Filter(WithKey(RatsKey, k), a))
         == Map(Layers(lm), Filter(WithKey(RatsKey, k), b))
  {
    hide SortBy, Sorted, PointsOf, RatsPoints, Filter, RatsKey, RatsLayers;
    var sa, sb := SortBy(RatsKey, a), SortBy(RatsKey, b);
    SortIsSortedPermutation(RatsKey, a);
    SortIsSortedPermutation(RatsKey, b);
    SameMembers(sa, sb);
    SameKeyColumn(a, b);
    SortStable(RatsKey, a, k);
    SortStable(RatsKey, b, k);
    PointsShowLayers(rnd, lm, sa, sb);
    FilterAligned(lm, sa, sb, k);
  }

  lemma SwapShows(rnd: real -> real, lm: Option<map<int, int>>, e: RatsEdge, f: RatsEdge, rest: seq<RatsEdge>)
    requires RatsKey(e) == RatsKey(f)
    requires PointsOf(rnd, RatsPoints(lm, SortBy(RatsKey, [e, f] + rest)))
          == PointsOf(rnd, RatsPoints(lm, SortBy(RatsKey, [f, e] + rest)))
    ensures RatsLayers(lm, e) == RatsLayers(lm, f)
  {
    var k := RatsKey(e);
    var p := WithKey(RatsKey, k);
    hide SortBy, PointsOf, RatsPoints, Filter, RatsKey, RatsLayers;
    assert multiset([e, f] + rest) == multiset([f, e] + rest);
    SamePointsSameLayers(rnd, lm, [e, f] + rest, [f, e] + rest, k);
    FilterConcat(p, [e, f], rest);
    FilterConcat(p, [f, e], rest);
    FilterPair(p, e, f);
    FilterPair(p, f, e);
    assert Map(Layers(lm), [e, f] + Filter(p, rest))[0] == Map(Layers(lm), [f, e] + Filter(p, rest))[0];
  }

  lemma FilterPair(p: RatsEdge -> bool, x: RatsEdge, y: RatsEdge)
    requires p(x) && p(y)
    ensures Filter(p, [x, y]) == [x, y]
  {
    FilterStep(p, [], x);
    FilterStep(p, [x], y);
    assert [] + [x] == [x] && [x] + [y] == [x, y];
  }

  lemma NetPresent(lm: Option<map<int, int>>, target: Option<set<int>>, s: Snapshot, e: RatsEdge)
    requires e in s.ratsnest && InScope(target, e.netCode)
    ensures e.netCode in NetCodes(s, target)
  {
  }

  /** Equal geometries show equal points for every net they list. */
  lemma SameGeometrySamePoints(rnd: real -> real, lm: Option<map<int, int>>, target: Option<set<int>>, s: Snapshot,
                               t: Snapshot, c: int)
    requires Geometry(rnd, lm, target, s) == Geometry(rnd, lm, target, t)
    requires NetCodes(s, target) == NetCodes(t, target) && c in NetCodes(s, target)
    ensures PointsOf(rnd, RatsPoints(lm, SortedRats(s, target, c))) == PointsOf(rnd, RatsPoints(lm, SortedRats(t, target, c)))
  {
    var codes := Ascending(NetCodes(s, target));
    hide NetCodes, SortedTracks, SortedVias, SortedRats, RatsPoints, PointsOf, TrackLines, ViasOf, NetPool;
    var i :| 0 <= i < |codes| && codes[i] == c;
    assert Geometry(rnd, lm, target, s)[i].1 == GeometryOf(rnd, RawGeometryOf(s, lm, target, c));
    assert Geometry(rnd, lm, target, t)[i].1 == GeometryOf(rnd, RawGeometryOf(t, lm, target, c));
  }

  /** The two orders that put the ambiguous pair first. */
  lemma Reordered(s: Snapshot, i: nat, j: nat) returns (rest: seq<RatsEdge>)
    requires i < j < |s.ratsnest|
    ensures Shuffled(s, s.(ratsnest := [s.ratsnest[i], s.ratsnest[j]] + rest))
    ensures Shuffled(s, s.(ratsnest := [s.ratsnest[j], s.ratsnest[i]] + rest))
  {
    var xs := s.ratsnest;
    rest := Without(Without(xs, j), i);
    WithoutMultiset(xs, j);
    assert Without(xs, j)[i] == xs[i];
    WithoutMultiset(Without(xs, j), i);
    assert multiset([xs[i], xs[j]] + rest) == multiset{xs[i], xs[j]} + multiset(rest);
    assert multiset([xs[j], xs[i]] + rest) == multiset{xs[i], xs[j]} + multiset(rest);
  }

  lemma SwappedDiffer(rnd: real -> real, lm: Option<map<int, int>>, target: Option<set<int>>, s: Snapshot,
                      e: RatsEdge, f: RatsEdge, rest: seq<RatsEdge>)
    requires Ambiguous(lm, target, e, f)
    ensures Geometry(rnd, lm, target, s.(ratsnest := [e, f] + rest)) != Geometry(rnd, lm, target, s.(ratsnest := [f, e] + rest))
  {
    hide NetCodes, Geometry, PointsOf, RatsPoints, SortBy, Filter, RatsKey, RatsLayers;
    var t, u, c := s.(ratsnest := [e, f] + rest), s.(ratsnest := [f, e] + rest), e.netCode;
    if Geometry(rnd, lm, target, t) == Geometry(rnd, lm, target, u) {
      NetPresent(lm, target, t, e);
      SameNets(target, s, e, f, rest);
      SameGeometrySamePoints(rnd, lm, target, t, u, c);
      PairFirst(c, e, f, rest);
      PairFirst(c, f, e, rest);
      SwapShows(rnd, lm, e, f, OfCode(RatsCode, c, rest));
    }
  }

  lemma SameNets(target: Option<set<int>>, s: Snapshot, e: RatsEdge, f: RatsEdge, rest: seq<RatsEdge>)
    ensures NetCodes(s.(ratsnest := [e, f] + rest), target) == NetCodes(s.(ratsnest := [f, e] + rest), target)
  {
    assert forall x :: x in [e, f] + rest <==> x in [f, e] + rest;
  }

  lemma PairFirst(c: int, e: RatsEdge, f: RatsEdge, rest: seq<RatsEdge>)
    requires e.netCode == c && f.netCode == c
    ensures OfCode(RatsCode, c, [e, f] + rest) == [e, f] + OfCode(RatsCode, c, rest)
  {
    OfCodeConcat(RatsCode, c, [e, f], rest);
    OfCodeConcat(RatsCode, c, [e], [f]);
    assert [e] + [f] == [e, f];
  }

  lemma OfCodeConcat<T>(code: T -> int, c: int, xs: seq<T>, ys: seq<T>)
    ensures OfCode(code, c, xs + ys) == OfCode(code, c, xs) + OfCode(code, c, ys)
    ensures |xs| == 1 && code(xs[0]) == c ==> OfCode(code, c, xs) == xs
    ensures |ys| == 1 && code(ys[0]) == c ==> OfCode(code, c, ys) == ys
  {
    FilterConcat(x => code(x) == c, xs, ys);
  }

  lemma UnsettledShows(rnd: real -> real, lm: Option<map<int, int>>, target: Option<set<int>>, s: Snapshot, i: nat, j: nat)
    requires i < j < |s.ratsnest| && Ambiguous(lm, target, s.ratsnest[i], s.ratsnest[j])
    ensures !OrderFree(rnd, lm, target, s)
  {
    hide Geometry, Shuffled, Ambiguous;
    var rest := Reordered(s, i, j);
    SwappedDiffer(rnd, lm, target, s, s.ratsnest[i], s.ratsnest[j], rest);
  }

  /** `build_net_geometry` is independent of the engine's list orders exactly when the layers are
      settled by the coordinates: the sort key of the ratsnest leaves the layers out. */
  lemma OrderFreeExactly(rnd: real -> real, lm: Option<map<int, int>>, target: Option<set<int>>, s: Snapshot)
    ensures OrderFree(rnd, lm, target, s) <==> LayersSettled(lm, target, s)
  {
    hide Geometry, Shuffled;
    if LayersSettled(lm, target, s) {
      forall t | Shuffled(s, t) ensures Geometry(rnd, lm, target, t) == Geometry(rnd, lm, target, s) {
        SettledIsOrderFree(rnd, lm, target, s, t);
      }
    } else {
      var e, f :| e in s.ratsnest && f in s.ratsnest && Ambiguous(lm, target, e, f);
      var i :| 0 <= i < |s.ratsnest| && s.ratsnest[i] == e;
      var j :| 0 <= j < |s.ratsnest| && s.ratsnest[j] == f;
      UnsettledShows(rnd, lm, target, s, if i < j then i else j, if i < j then j else i);
    }
  }
}
