/** What an id means: a printed point lies where its input point does, up to rounding, and two items share an
    id, or a row, exactly when their points do. */
module PointIdentity {
  import opened Decimal
  import opened Dedup
  import opened Csr
  import opened StableSort
  import opened Observation
  import opened BoardContext
  import opened NetGeometries
  import opened IndexedStatic
  import opened IndexedDynamic
  import opened StaticRoundTrip
  import opened DynamicRoundTrip

  /** The same place, up to rounding. */
  predicate SameSpot(rnd: real -> real, p: Pt, q: Pt) { rnd(p.x) == rnd(q.x) && rnd(p.y) == rnd(q.y) }

  predicate SameSpot3(rnd: real -> real, p: Pt3, q: Pt3) {
    rnd(p.x) == rnd(q.x) && rnd(p.y) == rnd(q.y) && p.layer == q.layer
  }

  /** The places among these points, up to rounding. */
  function Spots(rnd: real -> real, ps: seq<Pt>): set<(real, real)> { set p | p in ps :: (rnd(p.x), rnd(p.y)) }

  function Spots3(rnd: real -> real, ps: seq<Pt3>): set<(real, real, int)> { set p | p in ps :: (rnd(p.x), rnd(p.y), p.layer) }

  /** The first of the points that lies where `p` does. */
  predicate FirstThere(rnd: real -> real, pts: seq<Pt>, p: Pt, m: nat) {
    m < |pts| && SameSpot(rnd, pts[m], p) && forall i | 0 <= i < m :: !SameSpot(rnd, pts[i], p)
  }

  predicate FirstThere3(rnd: real -> real, pts: seq<Pt3>, p: Pt3, m: nat) {
    m < |pts| && SameSpot3(rnd, pts[m], p) && forall i | 0 <= i < m :: !SameSpot3(rnd, pts[i], p)
  }

  // --- a pool by the places it holds -------------------------------------------------------------------------------

  function Keys<T, K(==)>(key: T -> K, xs: seq<T>): set<K> { set i | 0 <= i < |xs| :: key(xs[i]) }

  lemma {:induction false} PoolSize<T, K>(key: T -> K, xs: seq<T>)
    ensures |Pool(key, xs)| == |Keys(key, xs)|
  {
    if xs != [] {
      var init, x := xs[..|xs| - 1], xs[|xs| - 1];
      PoolSize(key, init);
      PoolKeys(key, init);
      var was, now := Keys(key, init), Keys(key, xs);
      assert xs == init + [x];
      assert now == was + {key(x)};
      if Has(key, Pool(key, init), key(x)) {
        PoolFrom(key, init);
        var entry := Pool(key, init)[IndexOf(key, Pool(key, init), key(x))];
        assert entry in init && key(entry) == key(x);
        assert now == was;
      } else {
        forall i | 0 <= i < |init| ensures key(init[i]) != key(x) { assert Has(key, Pool(key, init), key(init[i])); }
        assert key(x) !in was;
      }
    } else {
      assert Keys(key, xs) == {};
    }
  }

  lemma {:induction false} PoolFrom<T, K>(key: T -> K, xs: seq<T>)
    ensures forall y | y in Pool(key, xs) :: y in xs
  {
    if xs != [] {
      PoolFrom(key, xs[..|xs| - 1]);
      assert xs == xs[..|xs| - 1] + [xs[|xs| - 1]];
    }
  }

  /** The entry of a registered value is the first with its key, at the number of keys before it. */
  lemma EntryIs<T, K>(key: T -> K, xs: seq<T>, x: T) returns (m: nat)
    requires x in xs
    ensures m < |xs| && key(xs[m]) == key(x) && forall i | 0 <= i < m :: key(xs[i]) != key(x)
    ensures IndexOf(key, Pool(key, xs), key(x)) == |Keys(key, xs[..m])|
    ensures IndexOf(key, Pool(key, xs), key(x)) < |Pool(key, xs)|
    ensures Pool(key, xs)[IndexOf(key, Pool(key, xs), key(x))] == xs[m]
  {
    var n :| 0 <= n < |xs| && xs[n] == x;
    m := 0;
    while key(xs[m]) != key(x)
      invariant m <= n && forall i | 0 <= i < m :: key(xs[i]) != key(x)
      decreases n - m
    {
      m := m + 1;
    }
    EntryAt(key, xs, m);
  }

  /** The first value with its key is the next entry of the pool. */
  lemma EntryAt<T, K>(key: T -> K, xs: seq<T>, m: nat)
    requires m < |xs| && forall i | 0 <= i < m :: key(xs[i]) != key(xs[m])
    ensures IndexOf(key, Pool(key, xs), key(xs[m])) == |Keys(key, xs[..m])|
    ensures IndexOf(key, Pool(key, xs), key(xs[m])) < |Pool(key, xs)|
    ensures Pool(key, xs)[IndexOf(key, Pool(key, xs), key(xs[m]))] == xs[m]
  {
    NewEntry(key, xs[..m], xs[m]);
    assert xs[..m + 1] == xs[..m] + [xs[m]];
    PoolSize(key, xs[..m]);
    PoolPrefix(key, xs, m + 1);
    hide Pool, Keys;
    var before, upTo := Pool(key, xs[..m]), Pool(key, xs[..m + 1]);
    assert upTo[|before|] == xs[m];
    PoolKeys(key, xs[..m + 1]);
    IndexOfUnique(key, upTo, |before|);
    IndexOfStable(key, upTo, Pool(key, xs), key(xs[m]));
  }

  lemma NewEntry<T, K>(key: T -> K, xs: seq<T>, x: T)
    requires forall i | 0 <= i < |xs| :: key(xs[i]) != key(x)
    ensures Pool(key, xs + [x]) == Pool(key, xs) + [x]
  {
    PoolStep(key, xs, x);
    PoolFrom(key, xs);
    hide Pool;
    var before := Pool(key, xs);
    forall i | 0 <= i < |before| ensures key(before[i]) != key(x) { assert before[i] in xs; }
    assert !Has(key, before, key(x));
  }

  // --- references ---------------------------------------------------------------------------------------------------

  /** A printed point: the number of places before its own, and the coordinates of the first point there. */
  ghost predicate PrintsAs(rnd: real -> real, pts: seq<Pt>, p: Pt, q: Point2D) {
    exists m: nat :: FirstThere(rnd, pts, p, m) && q == Point2D("P" + Print(|Spots(rnd, pts[..m])|), pts[m].x, pts[m].y)
  }

  ghost predicate PrintsAs3(rnd: real -> real, pts: seq<Pt3>, p: Pt3, q: Point3D) {
    exists m: nat :: FirstThere3(rnd, pts, p, m)
      && q == Point3D("Q" + Print(|Spots3(rnd, pts[..m])|), pts[m].x, pts[m].y, pts[m].layer)
  }

  /** A row of a pool: the number of places before the point's own, holding the first point there. */
  ghost predicate RowsAs(rnd: real -> real, pts: seq<Pt>, p: Pt, row: int, at: Pt) {
    exists m: nat :: FirstThere(rnd, pts, p, m) && row == |Spots(rnd, pts[..m])| && at == pts[m]
  }

  lemma SpotsAreKeys(rnd: real -> real, ps: seq<Pt>)
    ensures Spots(rnd, ps) == Keys(XyKey(rnd), ps)
  {
  }

  lemma SpotsAreKeys3(rnd: real -> real, ps: seq<Pt3>)
    ensures Spots3(rnd, ps) == Keys(XylKey(rnd), ps)
  {
  }

  lemma RowIs(rnd: real -> real, pts: seq<Pt>, p: Pt)
    requires p in pts
    ensures Row(rnd, Pool(XyKey(rnd), pts), p) < |Pool(XyKey(rnd), pts)|
    ensures RowsAs(rnd, pts, p, Row(rnd, Pool(XyKey(rnd), pts), p), Pool(XyKey(rnd), pts)[Row(rnd, Pool(XyKey(rnd), pts), p)])
    ensures PrintsAs(rnd, pts, p, Ref2(rnd, Pool(XyKey(rnd), pts), p))
  {
    var m := EntryIs(XyKey(rnd), pts, p);
    SpotsAreKeys(rnd, pts[..m]);
    assert FirstThere(rnd, pts, p, m) by {
      forall i | 0 <= i < m ensures !SameSpot(rnd, pts[i], p) { assert XyKey(rnd)(pts[i]) != XyKey(rnd)(p); }
    }
    hide Pool, IndexOf, Print, Spots, FirstThere, Keys;
    var pool := Pool(XyKey(rnd), pts);
    assert Row(rnd, pool, p) == |Spots(rnd, pts[..m])| && pool[Row(rnd, pool, p)] == pts[m];
    assert Ref2(rnd, pool, p) == Point2D("P" + Print(|Spots(rnd, pts[..m])|), pts[m].x, pts[m].y);
  }

  lemma Ref3Is(rnd: real -> real, pts: seq<Pt3>, p: Pt3)
    requires p in pts
    ensures PrintsAs3(rnd, pts, p, Ref3(rnd, Pool(XylKey(rnd), pts), p))
  {
    var m := EntryIs(XylKey(rnd), pts, p);
    SpotsAreKeys3(rnd, pts[..m]);
    assert FirstThere3(rnd, pts, p, m) by {
      forall i | 0 <= i < m ensures !SameSpot3(rnd, pts[i], p) { assert XylKey(rnd)(pts[i]) != XylKey(rnd)(p); }
    }
    hide Pool, IndexOf, Print, Spots3, FirstThere3, Keys;
    assert Ref3(rnd, Pool(XylKey(rnd), pts), p)
      == Point3D("Q" + Print(|Spots3(rnd, pts[..m])|), pts[m].x, pts[m].y, pts[m].layer);
  }

  /** Fewer places before the first point somewhere means an earlier first point. */
  lemma SpotsGrow(rnd: real -> real, pts: seq<Pt>, p: Pt, q: Pt, m: nat, n: nat)
    requires FirstThere(rnd, pts, p, m) && FirstThere(rnd, pts, q, n) && m < n
    ensures |Spots(rnd, pts[..m])| < |Spots(rnd, pts[..n])|
  {
    var a, b, k := Spots(rnd, pts[..m]), Spots(rnd, pts[..n]), (rnd(pts[m].x), rnd(pts[m].y));
    assert pts[m] in pts[..n] by { assert pts[..n][m] == pts[m]; }
    assert k in b;
    assert forall x | x in pts[..m] :: x in pts[..n] by {
      forall i | 0 <= i < m ensures pts[..m][i] in pts[..n] { assert pts[..m][i] == pts[..n][i]; }
    }
    assert a <= b;
    assert k !in a by {
      forall i | 0 <= i < m ensures (rnd(pts[i].x), rnd(pts[i].y)) != k { assert !SameSpot(rnd, pts[i], p); }
    }
    assert a < b;
    Smaller(a, b);
  }

  lemma SpotsGrow3(rnd: real -> real, pts: seq<Pt3>, p: Pt3, q: Pt3, m: nat, n: nat)
    requires FirstThere3(rnd, pts, p, m) && FirstThere3(rnd, pts, q, n) && m < n
    ensures |Spots3(rnd, pts[..m])| < |Spots3(rnd, pts[..n])|
  {
    var a, b, k := Spots3(rnd, pts[..m]), Spots3(rnd, pts[..n]), (rnd(pts[m].x), rnd(pts[m].y), pts[m].layer);
    assert pts[m] in pts[..n] by { assert pts[..n][m] == pts[m]; }
    assert k in b;
    assert forall x | x in pts[..m] :: x in pts[..n] by {
      forall i | 0 <= i < m ensures pts[..m][i] in pts[..n] { assert pts[..m][i] == pts[..n][i]; }
    }
    assert a <= b;
    assert k !in a by {
      forall i | 0 <= i < m ensures (rnd(pts[i].x), rnd(pts[i].y), pts[i].layer) != k { assert !SameSpot3(rnd, pts[i], p); }
    }
    assert a < b;
    Smaller(a, b);
  }

  lemma {:induction false} Smaller<T>(a: set<T>, b: set<T>)
    requires a < b
    ensures |a| < |b|
  {
    var rest := b - a;
    var x :| x in b && x !in a;
    assert x in rest;
    assert b == a + rest;
    assert |b| == |a| + |rest|;
  }

  /** A point is printed where it lies, up to rounding, and two get one id exactly when they lie together. */
  lemma IdsTell(rnd: real -> real, pts: seq<Pt>, p: Pt, q: Point2D, p': Pt, q': Point2D)
    requires PrintsAs(rnd, pts, p, q) && PrintsAs(rnd, pts, p', q')
    ensures SameSpot(rnd, Pt(q.x, q.y), p) && (q.id == q'.id <==> SameSpot(rnd, p, p'))
  {
    var m: nat :| FirstThere(rnd, pts, p, m) && q == Point2D("P" + Print(|Spots(rnd, pts[..m])|), pts[m].x, pts[m].y);
    var n: nat :| FirstThere(rnd, pts, p', n) && q' == Point2D("P" + Print(|Spots(rnd, pts[..n])|), pts[n].x, pts[n].y);
    hide Print, Spots;
    if m < n { SpotsGrow(rnd, pts, p, p', m, n); }
    if n < m { SpotsGrow(rnd, pts, p', p, n, m); }
    if q.id == q'.id { NumberedKeysDiffer("P", |Spots(rnd, pts[..m])|, |Spots(rnd, pts[..n])|); }
  }

  lemma IdsTell3(rnd: real -> real, pts: seq<Pt3>, p: Pt3, q: Point3D, p': Pt3, q': Point3D)
    requires PrintsAs3(rnd, pts, p, q) && PrintsAs3(rnd, pts, p', q')
    ensures SameSpot3(rnd, Pt3(q.x, q.y, q.layer), p) && (q.id == q'.id <==> SameSpot3(rnd, p, p'))
  {
    var m: nat :| FirstThere3(rnd, pts, p, m)
      && q == Point3D("Q" + Print(|Spots3(rnd, pts[..m])|), pts[m].x, pts[m].y, pts[m].layer);
    var n: nat :| FirstThere3(rnd, pts, p', n)
      && q' == Point3D("Q" + Print(|Spots3(rnd, pts[..n])|), pts[n].x, pts[n].y, pts[n].layer);
    hide Print, Spots3;
    if m < n { SpotsGrow3(rnd, pts, p, p', m, n); }
    if n < m { SpotsGrow3(rnd, pts, p', p, n, m); }
    if q.id == q'.id { NumberedKeysDiffer("Q", |Spots3(rnd, pts[..m])|, |Spots3(rnd, pts[..n])|); }
  }

  lemma RowsTell(rnd: real -> real, pts: seq<Pt>, p: Pt, row: int, at: Pt, p': Pt, row': int, at': Pt)
    requires RowsAs(rnd, pts, p, row, at) && RowsAs(rnd, pts, p', row', at')
    ensures SameSpot(rnd, at, p) && (row == row' <==> SameSpot(rnd, p, p'))
  {
    var m: nat :| FirstThere(rnd, pts, p, m) && row == |Spots(rnd, pts[..m])| && at == pts[m];
    var n: nat :| FirstThere(rnd, pts, p', n) && row' == |Spots(rnd, pts[..n])| && at' == pts[n];
    hide Spots;
    if m < n { SpotsGrow(rnd, pts, p, p', m, n); }
    if n < m { SpotsGrow(rnd, pts, p', p, n, m); }
  }

  // --- the board context ----------------------------------------------------------------------------------------------

  predicate EdgePrints(e: EdgeItem, l: Line, p: Pt, q: Point2D) {
    (p == e.p1 && q == l.p1) || (p == e.p2 && q == l.p2) || (e.mid == Some(p) && l.mid == Some(q))
  }

  /** `q` is printed in the context for the input point `p`: an edge end, a midpoint or a centre. */
  ghost predicate InContext(b: RawBoard, c: BoardStatic, p: Pt, q: Point2D) {
    || (exists i :: 0 <= i < |b.edges| && i < |c.boardlines| && EdgePrints(b.edges[i], c.boardlines[i], p, q))
    || (exists j, k :: 0 <= j < |b.nets| && j < |c.nets| && 0 <= k < |b.nets[j].pads| && k < |c.nets[j].1.pads|
                       && p == b.nets[j].pads[k].center && q == c.nets[j].1.pads[k].center)
    || (exists i :: 0 <= i < |b.obstacles| && i < |c.obstacles| && p == b.obstacles[i].center && q == c.obstacles[i].center)
    || (exists i :: 0 <= i < |b.upads| && i < |c.unconnectedPads| && p == b.upads[i].center && q == c.unconnectedPads[i].center)
  }

  /** Every edge, pad and obstacle of the board is in the context. */
  ghost predicate AllThere(b: RawBoard, c: BoardStatic) {
    && |c.boardlines| == |b.edges| && (forall i | 0 <= i < |b.edges| :: c.boardlines[i].mid.Some? <==> b.edges[i].mid.Some?)
    && |c.nets| == |b.nets|
    && (forall j | 0 <= j < |b.nets| :: c.nets[j].0 == b.nets[j].code && |c.nets[j].1.pads| == |b.nets[j].pads|)
    && |c.obstacles| == |b.obstacles| && |c.unconnectedPads| == |b.upads|
  }

  lemma BoardPoint(rnd: real -> real, b: RawBoard, p: Pt)
    requires p in BoardPts(b)
    ensures PrintsAs(rnd, BoardPts(b), p, Ref2(rnd, BoardPool(rnd, b), p))
  {
    RowIs(rnd, BoardPts(b), p);
    hide *;
  }

  lemma PadRegistered(b: RawBoard, j: nat, k: nat)
    requires j < |b.nets| && k < |b.nets[j].pads|
    ensures b.nets[j].pads[k].center in BoardPts(b)
  {
    FlatMember(PadGroups(b.nets), j, b.nets[j].pads[k]);
    var all := AllPads(b.nets);
    var i :| 0 <= i < |all| && all[i] == b.nets[j].pads[k];
    RectCenterRegistered(all, i);
    hide Flat, EdgesPts, RectPts;
  }

  lemma ContextPoint(rnd: real -> real, b: RawBoard, p: Pt, q: Point2D)
    requires InContext(b, ContextOf(rnd, b), p, q)
    ensures PrintsAs(rnd, BoardPts(b), p, q)
  {
    var c := ContextOf(rnd, b);
    hide BoardPool, Ref2, PrintsAs;
    if i :| 0 <= i < |b.edges| && i < |c.boardlines| && EdgePrints(b.edges[i], c.boardlines[i], p, q) {
      EdgePointsRegistered(b, i);
      hide BoardPts;
      BoardPoint(rnd, b, p);
      assert c.boardlines[i] == EdgeLine(rnd, BoardPool(rnd, b), i, b.edges[i]);
    } else if j, k :| 0 <= j < |b.nets| && j < |c.nets| && 0 <= k < |b.nets[j].pads| && k < |c.nets[j].1.pads|
                      && p == b.nets[j].pads[k].center && q == c.nets[j].1.pads[k].center {
      PadRegistered(b, j, k);
      hide BoardPts, Start;
      BoardPoint(rnd, b, p);
    } else if i :| 0 <= i < |b.obstacles| && i < |c.obstacles| && p == b.obstacles[i].center && q == c.obstacles[i].center {
      RectCenterRegistered(b.obstacles, i);
      BoardPoint(rnd, b, p);
    } else {
      var i :| 0 <= i < |b.upads| && i < |c.unconnectedPads| && p == b.upads[i].center && q == c.unconnectedPads[i].center;
      RectCenterRegistered(b.upads, i);
      BoardPoint(rnd, b, p);
    }
  }

  lemma ContextIsWhole(rnd: real -> real, b: RawBoard)
    ensures AllThere(b, ContextOf(rnd, b))
  {
    hide BoardPool, Ref2, Start;
  }

  /** In the context of a board every point is printed where it lies, and two have one id exactly when they lie
      together, whatever they belong to. */
  lemma ContextIdsTell(rnd: real -> real, b: RawBoard, p: Pt, q: Point2D, p': Pt, q': Point2D)
    requires InContext(b, ContextOf(rnd, b), p, q) && InContext(b, ContextOf(rnd, b), p', q')
    ensures AllThere(b, ContextOf(rnd, b))
    ensures rnd(q.x) == rnd(p.x) && rnd(q.y) == rnd(p.y)
    ensures q.id == q'.id <==> rnd(p.x) == rnd(p'.x) && rnd(p.y) == rnd(p'.y)
    ensures PrintsAs(rnd, BoardPts(b), p, q)
  {
    ContextIsWhole(rnd, b);
    ContextPoint(rnd, b, p, q);
    ContextPoint(rnd, b, p', q');
    IdsTell(rnd, BoardPts(b), p, q, p', q');
    hide InContext, ContextOf, AllThere, PrintsAs, BoardPts;
  }

  // --- the geometry of a net ------------------------------------------------------------------------------------------

  /** `q` is printed in the net's geometry for the input point `p`: a track end or a via centre. */
  ghost predicate InGeometry(g: RawGeometry, n: NetGeometry, p: Pt, q: Point2D) {
    || (exists i :: 0 <= i < |g.tracks| && i < |n.tracks|
                    && ((p == g.tracks[i].p1 && q == n.tracks[i].p1) || (p == g.tracks[i].p2 && q == n.tracks[i].p2)))
    || (exists i :: 0 <= i < |g.vias| && i < |n.vias| && p == g.vias[i].center && q == n.vias[i].center)
  }

  lemma TrackRegistered(tracks: seq<TrackRow>, vias: seq<ViaRow>, k: nat)
    requires k < |tracks|
    ensures tracks[k].p1 in NetPts(tracks, vias) && tracks[k].p2 in NetPts(tracks, vias)
  {
    var pts, n := NetPts(tracks, vias), |TracksPts(tracks[..k])|;
    TracksStep(tracks, k);
    assert TracksPts(tracks) <= pts;
    assert pts[n] == tracks[k].p1 && pts[n + 1] == tracks[k].p2;
  }

  lemma ViaRegistered(tracks: seq<TrackRow>, vias: seq<ViaRow>, k: nat)
    requires k < |vias|
    ensures vias[k].center in NetPts(tracks, vias)
  {
    assert NetPts(tracks, vias)[|TracksPts(tracks)| + k] == vias[k].center;
  }

  lemma NetPoint(rnd: real -> real, g: RawGeometry, p: Pt)
    requires p in NetPts(g.tracks, g.vias)
    ensures PrintsAs(rnd, NetPts(g.tracks, g.vias), p, Ref2(rnd, NetPool(rnd, g.tracks, g.vias), p))
  {
    RowIs(rnd, NetPts(g.tracks, g.vias), p);
    hide *;
  }

  lemma GeometryPoint(rnd: real -> real, g: RawGeometry, p: Pt, q: Point2D)
    requires InGeometry(g, GeometryOf(rnd, g), p, q)
    ensures PrintsAs(rnd, NetPts(g.tracks, g.vias), p, q)
  {
    var n := GeometryOf(rnd, g);
    hide NetPool, Ref2, PrintsAs, NetPts;
    if i :| 0 <= i < |g.tracks| && i < |n.tracks|
            && ((p == g.tracks[i].p1 && q == n.tracks[i].p1) || (p == g.tracks[i].p2 && q == n.tracks[i].p2)) {
      TrackRegistered(g.tracks, g.vias, i);
      NetPoint(rnd, g, p);
    } else {
      var i :| 0 <= i < |g.vias| && i < |n.vias| && p == g.vias[i].center && q == n.vias[i].center;
      ViaRegistered(g.tracks, g.vias, i);
      NetPoint(rnd, g, p);
    }
  }

  /** In a net's geometry every track end and via is printed where it lies, and two have one id exactly when
      they lie together. */
  lemma GeometryIdsTell(rnd: real -> real, g: RawGeometry, p: Pt, q: Point2D, p': Pt, q': Point2D)
    requires InGeometry(g, GeometryOf(rnd, g), p, q) && InGeometry(g, GeometryOf(rnd, g), p', q')
    ensures |GeometryOf(rnd, g).tracks| == |g.tracks| && |GeometryOf(rnd, g).vias| == |g.vias|
    ensures rnd(q.x) == rnd(p.x) && rnd(q.y) == rnd(p.y)
    ensures q.id == q'.id <==> rnd(p.x) == rnd(p'.x) && rnd(p.y) == rnd(p'.y)
    ensures PrintsAs(rnd, NetPts(g.tracks, g.vias), p, q)
  {
    GeometryPoint(rnd, g, p, q);
    GeometryPoint(rnd, g, p', q');
    IdsTell(rnd, NetPts(g.tracks, g.vias), p, q, p', q');
    hide InGeometry, PrintsAs, NetPts, NetPool, PointsOf;
  }

  /** So is every ratsnest point, on its own layer. */
  lemma RatsnestIdsTell(rnd: real -> real, g: RawGeometry, i: nat, j: nat)
    requires i < |g.points| && j < |g.points|
    ensures var ps, qs := g.points, GeometryOf(rnd, g).points;
      && |qs| == |ps| && rnd(qs[i].x) == rnd(ps[i].x) && rnd(qs[i].y) == rnd(ps[i].y) && qs[i].layer == ps[i].layer
      && (qs[i].id == qs[j].id <==> rnd(ps[i].x) == rnd(ps[j].x) && rnd(ps[i].y) == rnd(ps[j].y) && ps[i].layer == ps[j].layer)
      && PrintsAs3(rnd, ps, ps[i], qs[i])
  {
    Ref3Is(rnd, g.points, g.points[i]);
    Ref3Is(rnd, g.points, g.points[j]);
    hide PrintsAs3, Ref3, NetPool;
    IdsTell3(rnd, g.points, g.points[i], GeometryOf(rnd, g).points[i], g.points[j], GeometryOf(rnd, g).points[j]);
  }

  // --- the static tables ----------------------------------------------------------------------------------------------

  ghost predicate InEdgeRows(b: RawBoard, t: StaticTables, p: Pt, row: int) {
    exists i :: 0 <= i < |b.edges| && i < |t.edgePt| && i < |t.edgeMid|
                && ((p == b.edges[i].p1 && row == t.edgePt[i].0) || (p == b.edges[i].p2 && row == t.edgePt[i].1)
                    || (b.edges[i].mid == Some(p) && row == t.edgeMid[i]))
  }

  ghost predicate InPadRows(b: RawBoard, t: StaticTables, p: Pt, row: int) {
    exists j, k :: 0 <= j < |b.nets| && j < |t.netPadStart| && 0 <= k < |b.nets[j].pads|
                   && 0 <= t.netPadStart[j] + k < |t.pad.pt|
                   && p == b.nets[j].pads[k].center && row == t.pad.pt[t.netPadStart[j] + k]
  }

  ghost predicate InRectRows(items: seq<RawRect>, col: seq<int>, p: Pt, row: int) {
    exists i :: 0 <= i < |items| && i < |col| && p == items[i].center && row == col[i]
  }

  /** The tables refer to the input point `p` by this row. */
  ghost predicate InTables(b: RawBoard, t: StaticTables, p: Pt, row: int) {
    InEdgeRows(b, t, p, row) || InPadRows(b, t, p, row) || InRectRows(b.obstacles, t.obs.pt, p, row) || InRectRows(b.upads, t.upad.pt, p, row)
  }

  lemma BoardRow(rnd: real -> real, b: RawBoard, p: Pt)
    requires p in BoardPts(b)
    ensures var row := Row(rnd, BoardPool(rnd, b), p);
      row < |BoardPool(rnd, b)| && RowsAs(rnd, BoardPts(b), p, row, BoardPool(rnd, b)[row])
  {
    RowIs(rnd, BoardPts(b), p);
    hide Pool, Row, RowsAs, BoardPts;
  }

  lemma EdgeRowIs(rnd: real -> real, b: RawBoard, p: Pt, row: int)
    requires InEdgeRows(b, TablesOf(rnd, b), p, row)
    ensures p in BoardPts(b) && row == Row(rnd, BoardPool(rnd, b), p)
  {
    var t := TablesOf(rnd, b);
    hide BoardPool, Row;
    var i :| 0 <= i < |b.edges| && i < |t.edgePt| && i < |t.edgeMid|
             && ((p == b.edges[i].p1 && row == t.edgePt[i].0) || (p == b.edges[i].p2 && row == t.edgePt[i].1)
                 || (b.edges[i].mid == Some(p) && row == t.edgeMid[i]));
    EdgePointsRegistered(b, i);
    hide BoardPts;
  }

  lemma PadRowIs(rnd: real -> real, b: RawBoard, p: Pt, row: int)
    requires InPadRows(b, TablesOf(rnd, b), p, row)
    ensures p in BoardPts(b) && row == Row(rnd, BoardPool(rnd, b), p)
  {
    var t := TablesOf(rnd, b);
    hide BoardPool, Row, BoardPts, Start, AllPads;
    var j, k :| 0 <= j < |b.nets| && j < |t.netPadStart| && 0 <= k < |b.nets[j].pads|
                && 0 <= t.netPadStart[j] + k < |t.pad.pt|
                && p == b.nets[j].pads[k].center && row == t.pad.pt[t.netPadStart[j] + k];
    PadRegistered(b, j, k);
    PadRows(b.nets, j);
  }

  lemma RectRowIs(rnd: real -> real, b: RawBoard, p: Pt, row: int)
    requires InRectRows(b.obstacles, TablesOf(rnd, b).obs.pt, p, row) || InRectRows(b.upads, TablesOf(rnd, b).upad.pt, p, row)
    ensures p in BoardPts(b) && row == Row(rnd, BoardPool(rnd, b), p)
  {
    var t := TablesOf(rnd, b);
    hide BoardPool, Row;
    if i :| 0 <= i < |b.obstacles| && i < |t.obs.pt| && p == b.obstacles[i].center && row == t.obs.pt[i] {
      RectCenterRegistered(b.obstacles, i);
    } else {
      var i :| 0 <= i < |b.upads| && i < |t.upad.pt| && p == b.upads[i].center && row == t.upad.pt[i];
      RectCenterRegistered(b.upads, i);
    }
  }

  lemma TablePoint(rnd: real -> real, b: RawBoard, p: Pt, row: int)
    requires InTables(b, TablesOf(rnd, b), p, row)
    ensures 0 <= row < |TablesOf(rnd, b).ptXy| && RowsAs(rnd, BoardPts(b), p, row, TablesOf(rnd, b).ptXy[row])
  {
    var t := TablesOf(rnd, b);
    assert t.ptXy == BoardPool(rnd, b);
    hide TablesOf, BoardPool, Row, RowsAs, BoardPts, InEdgeRows, InPadRows, InRectRows;
    if InEdgeRows(b, t, p, row) {
      EdgeRowIs(rnd, b, p, row);
    } else if InPadRows(b, t, p, row) {
      PadRowIs(rnd, b, p, row);
    } else {
      RectRowIs(rnd, b, p, row);
    }
    BoardRow(rnd, b, p);
  }

  /** In the static tables of a board every reference is to a row that lies where the point does, and two are to
      one row exactly when their points lie together. */
  lemma TableRowsTell(rnd: real -> real, b: RawBoard, p: Pt, row: int, p': Pt, row': int)
    requires InTables(b, TablesOf(rnd, b), p, row) && InTables(b, TablesOf(rnd, b), p', row')
    ensures var xy := TablesOf(rnd, b).ptXy; 0 <= row < |xy| && rnd(xy[row].x) == rnd(p.x) && rnd(xy[row].y) == rnd(p.y)
    ensures row == row' <==> rnd(p.x) == rnd(p'.x) && rnd(p.y) == rnd(p'.y)
    ensures RowsAs(rnd, BoardPts(b), p, row, TablesOf(rnd, b).ptXy[row])
  {
    TablePoint(rnd, b, p, row);
    TablePoint(rnd, b, p', row');
    var xy := TablesOf(rnd, b).ptXy;
    RowsTell(rnd, BoardPts(b), p, row, xy[row], p', row', xy[row']);
    hide InTables, TablesOf, RowsAs, BoardPts;
  }

  // --- the tables of the routing geometry --------------------------------------------------------------------------------

  /** The tables built from the geometries of these nets. */
  function RoutingTables(rnd: real -> real, raws: seq<RawGeometry>): DynTables {
    DynTablesOf(rnd, Map(PerOfIr, SortBy(IrCode, GeometriesOf(rnd, raws))))
  }

  function PersOf(rnd: real -> real, raws: seq<RawGeometry>): seq<PerNet> { Map((g: RawGeometry) => PerOf(rnd, g), raws) }

  lemma RoutingTablesAre(rnd: real -> real, raws: seq<RawGeometry>)
    requires AscendingCodes(raws)
    ensures RoutingTables(rnd, raws) == DynTablesOf(rnd, PersOf(rnd, raws))
  {
    AlreadyInOrder(rnd, raws);
    var ir := GeometriesOf(rnd, raws);
    hide PerOf, PerOfIr, DynTablesOf, SortBy, GeometryOf;
    forall i | 0 <= i < |raws| ensures PerOfIr(ir[i]) == PersOf(rnd, raws)[i] { FrontEndsAgree(rnd, raws[i]); }
    assert Map(PerOfIr, ir) == PersOf(rnd, raws);
  }

  /** The tables refer to the input point `p` of net `j` by this row. */
  ghost predicate InRouting(raws: seq<RawGeometry>, t: DynTables, j: nat, p: Pt, row: int) {
    && j < |raws| && j < |t.trkStart| && j < |t.viaStart|
    && ((exists k :: 0 <= k < |raws[j].tracks| && 0 <= t.trkStart[j] + k < |t.trkPt|
                     && ((p == raws[j].tracks[k].p1 && row == t.trkPt[t.trkStart[j] + k].0)
                         || (p == raws[j].tracks[k].p2 && row == t.trkPt[t.trkStart[j] + k].1)))
        || (exists k :: 0 <= k < |raws[j].vias| && 0 <= t.viaStart[j] + k < |t.viaPt|
                        && p == raws[j].vias[k].center && row == t.viaPt[t.viaStart[j] + k]))
  }

  lemma NetRowIs(rnd: real -> real, g: RawGeometry, p: Pt)
    requires p in NetPts(g.tracks, g.vias)
    ensures var pool := NetPool(rnd, g.tracks, g.vias);
      && NetPool(rnd, PerOf(rnd, g).tracks, PerOf(rnd, g).vias) == pool
      && Row(rnd, pool, Rep(XyKey(rnd), pool, p)) == Row(rnd, pool, p) < |pool|
      && RowsAs(rnd, NetPts(g.tracks, g.vias), p, Row(rnd, pool, p), pool[Row(rnd, pool, p)])
  {
    var pool := NetPool(rnd, g.tracks, g.vias);
    PerPool(rnd, g);
    RepKey(XyKey(rnd), pool, p);
    RowIs(rnd, NetPts(g.tracks, g.vias), p);
    hide RowsAs, NetPts, PerOf;
  }

  lemma PerAt(rnd: real -> real, raws: seq<RawGeometry>, j: nat)
    requires j < |raws|
    ensures |PersOf(rnd, raws)| == |raws| && PersOf(rnd, raws)[j] == PerOf(rnd, raws[j])
  {
    hide PerOf;
  }

  lemma PerTrack(rnd: real -> real, g: RawGeometry, k: nat)
    requires k < |g.tracks|
    ensures var pool := NetPool(rnd, g.tracks, g.vias);
      && |PerOf(rnd, g).tracks| == |g.tracks|
      && PerOf(rnd, g).tracks[k].p1 == Rep(XyKey(rnd), pool, g.tracks[k].p1)
      && PerOf(rnd, g).tracks[k].p2 == Rep(XyKey(rnd), pool, g.tracks[k].p2)
  {
    hide NetPool, Rep, QPointsOf, XyKey;
  }

  lemma PerVia(rnd: real -> real, g: RawGeometry, k: nat)
    requires k < |g.vias|
    ensures |PerOf(rnd, g).vias| == |g.vias|
    ensures PerOf(rnd, g).vias[k].center == Rep(XyKey(rnd), NetPool(rnd, g.tracks, g.vias), g.vias[k].center)
  {
    hide NetPool, Rep, QPointsOf, XyKey;
  }

  /** A point of net `j` in the shared pool. */
  lemma NetRowInPool(rnd: real -> real, raws: seq<RawGeometry>, j: nat, p: Pt)
    requires j < |raws| && p in NetPts(raws[j].tracks, raws[j].vias)
    ensures var per, pool, xy := PersOf(rnd, raws), NetPool(rnd, raws[j].tracks, raws[j].vias), DynTablesOf(rnd, PersOf(rnd, raws)).ptXy;
      var row := Start(Pools(rnd, per), j) + Row(rnd, pool, p);
      && Row(rnd, pool, p) < |pool| && row < |xy| && RowsAs(rnd, NetPts(raws[j].tracks, raws[j].vias), p, Row(rnd, pool, p), xy[row])
  {
    hide *;
    PerAt(rnd, raws, j);
    NetRowIs(rnd, raws[j], p);
    PoolRowAt(rnd, PersOf(rnd, raws), j, Row(rnd, NetPool(rnd, raws[j].tracks, raws[j].vias), p));
  }

  lemma TrackEnds(rnd: real -> real, raws: seq<RawGeometry>, j: nat, k: nat)
    requires j < |raws| && k < |raws[j].tracks|
    ensures var t, pool, base := DynTablesOf(rnd, PersOf(rnd, raws)), NetPool(rnd, raws[j].tracks, raws[j].vias), Start(Pools(rnd, PersOf(rnd, raws)), j);
      && j < |t.trkStart| && 0 <= t.trkStart[j] + k < |t.trkPt|
      && t.trkPt[t.trkStart[j] + k] == (base + Row(rnd, pool, raws[j].tracks[k].p1), base + Row(rnd, pool, raws[j].tracks[k].p2))
  {
    hide *;
    var g := raws[j];
    PerAt(rnd, raws, j);
    PerTrack(rnd, g, k);
    TrackRegistered(g.tracks, g.vias, k);
    NetRowIs(rnd, g, g.tracks[k].p1);
    NetRowIs(rnd, g, g.tracks[k].p2);
    HeaderIs(rnd, PersOf(rnd, raws), j);
    TrackRowAt(rnd, PersOf(rnd, raws), j, k);
  }

  lemma ViaCentre(rnd: real -> real, raws: seq<RawGeometry>, j: nat, k: nat)
    requires j < |raws| && k < |raws[j].vias|
    ensures var t, pool, base := DynTablesOf(rnd, PersOf(rnd, raws)), NetPool(rnd, raws[j].tracks, raws[j].vias), Start(Pools(rnd, PersOf(rnd, raws)), j);
      && j < |t.viaStart| && 0 <= t.viaStart[j] + k < |t.viaPt|
      && t.viaPt[t.viaStart[j] + k] == base + Row(rnd, pool, raws[j].vias[k].center)
  {
    hide *;
    var g := raws[j];
    PerAt(rnd, raws, j);
    PerVia(rnd, g, k);
    ViaRegistered(g.tracks, g.vias, k);
    NetRowIs(rnd, g, g.vias[k].center);
    HeaderIs(rnd, PersOf(rnd, raws), j);
    ViaRowAt(rnd, PersOf(rnd, raws), j, k);
  }

  lemma RoutingPoint(rnd: real -> real, raws: seq<RawGeometry>, j: nat, p: Pt, row: int)
    requires AscendingCodes(raws) && InRouting(raws, RoutingTables(rnd, raws), j, p, row)
    ensures var base := Start(Pools(rnd, PersOf(rnd, raws)), j);
      && base <= row < |RoutingTables(rnd, raws).ptXy|
      && row - base < |NetPool(rnd, raws[j].tracks, raws[j].vias)|
      && RowsAs(rnd, NetPts(raws[j].tracks, raws[j].vias), p, row - base, RoutingTables(rnd, raws).ptXy[row])
  {
    hide RowsAs, NetPts, NetPool, DynTablesOf, RoutingTables, Row, PersOf, Start, Pools;
    RoutingTablesAre(rnd, raws);
    var t, g := RoutingTables(rnd, raws), raws[j];
    if k :| 0 <= k < |g.tracks| && 0 <= t.trkStart[j] + k < |t.trkPt|
            && ((p == g.tracks[k].p1 && row == t.trkPt[t.trkStart[j] + k].0) || (p == g.tracks[k].p2 && row == t.trkPt[t.trkStart[j] + k].1)) {
      TrackRegistered(g.tracks, g.vias, k);
      TrackEnds(rnd, raws, j, k);
      NetRowInPool(rnd, raws, j, p);
    } else {
      var k :| 0 <= k < |g.vias| && 0 <= t.viaStart[j] + k < |t.viaPt| && p == g.vias[k].center && row == t.viaPt[t.viaStart[j] + k];
      ViaRegistered(g.tracks, g.vias, k);
      ViaCentre(rnd, raws, j, k);
      NetRowInPool(rnd, raws, j, p);
    }
  }

  lemma StartsApart<T>(groups: seq<seq<T>>, i: nat, j: nat)
    requires i < j < |groups|
    ensures Start(groups, i) + |groups[i]| <= Start(groups, j)
  {
    assert groups[..j][..i + 1] == groups[..i] + [groups[i]];
    FlatStep(groups[..i], groups[i]);
    FlatPrefix(groups[..j], i + 1);
  }

  /** In the tables of the routing geometry every reference is to a row that lies where the point does; two of
      one net are to one row exactly when their points lie together, two of different nets never. */
  lemma RoutingRowsTell(rnd: real -> real, raws: seq<RawGeometry>, j: nat, p: Pt, row: int, j': nat, p': Pt, row': int)
    requires AscendingCodes(raws)
    requires InRouting(raws, RoutingTables(rnd, raws), j, p, row) && InRouting(raws, RoutingTables(rnd, raws), j', p', row')
    ensures var xy := RoutingTables(rnd, raws).ptXy; 0 <= row < |xy| && rnd(xy[row].x) == rnd(p.x) && rnd(xy[row].y) == rnd(p.y)
    ensures row == row' <==> j == j' && rnd(p.x) == rnd(p'.x) && rnd(p.y) == rnd(p'.y)
  {
    RoutingPoint(rnd, raws, j, p, row);
    RoutingPoint(rnd, raws, j', p', row');
    var per, xy := PersOf(rnd, raws), RoutingTables(rnd, raws).ptXy;
    PerPool(rnd, raws[j]);
    PerPool(rnd, raws[j']);
    hide RoutingTables, RowsAs, NetPts, NetPool, InRouting, PerOf, Start;
    RowsTell(rnd, NetPts(raws[j].tracks, raws[j].vias), p, row - Start(Pools(rnd, per), j), xy[row],
             p, row - Start(Pools(rnd, per), j), xy[row]);
    if j == j' {
      RowsTell(rnd, NetPts(raws[j].tracks, raws[j].vias), p, row - Start(Pools(rnd, per), j), xy[row],
               p', row' - Start(Pools(rnd, per), j), xy[row']);
    } else if j < j' {
      StartsApart(Pools(rnd, per), j, j');
    } else {
      StartsApart(Pools(rnd, per), j', j);
    }
  }

  lemma QNumberIs(rnd: real -> real, g: RawGeometry, i: nat)
    requires i < |g.points|
    ensures |PerOf(rnd, g).points| == |g.points|
    ensures var q := PerOf(rnd, g).points[i];
      PrintsAs3(rnd, g.points, g.points[i], Point3D("Q" + Print(q.q), q.x, q.y, q.layer))
  {
    Ref3Is(rnd, g.points, g.points[i]);
    RepQ(rnd, g.points, i);
    hide PrintsAs3, Print, IndexOf, Pool;
  }

  /** The ratsnest rows of net `j`. */
  lemma RatsnestRow(rnd: real -> real, raws: seq<RawGeometry>, j: nat, i: nat)
    requires j < |raws| && i < |raws[j].points|
    ensures var t := DynTablesOf(rnd, PersOf(rnd, raws));
      && j < |t.ratStart| && 0 <= t.ratStart[j] && t.ratStart[j] + i < |t.ratXy| == |t.ratQ| == |t.ratLayer|
      && var r := t.ratStart[j] + i;
         t.ratQ[r] >= 0 && PrintsAs3(rnd, raws[j].points, raws[j].points[i], Point3D("Q" + Print(t.ratQ[r]), t.ratXy[r].0, t.ratXy[r].1, t.ratLayer[r]))
  {
    hide *;
    PerAt(rnd, raws, j);
    QNumberIs(rnd, raws[j], i);
    HeaderIs(rnd, PersOf(rnd, raws), j);
    PointRowAt(rnd, PersOf(rnd, raws), j, i);
  }

  /** A ratsnest row lies where its point does, on its layer, and two rows of a net have one Q number exactly when
      their points lie together on one layer. */
  lemma RatsnestRowsTell(rnd: real -> real, raws: seq<RawGeometry>, j: nat, i: nat, i': nat)
    requires AscendingCodes(raws) && j < |raws| && i < |raws[j].points| && i' < |raws[j].points|
    ensures var t, ps := RoutingTables(rnd, raws), raws[j].points;
      && j < |t.ratStart| && 0 <= t.ratStart[j] && t.ratStart[j] + i < |t.ratXy| == |t.ratQ| == |t.ratLayer| && t.ratStart[j] + i' < |t.ratXy|
      && var r, r' := t.ratStart[j] + i, t.ratStart[j] + i';
         && rnd(t.ratXy[r].0) == rnd(ps[i].x) && rnd(t.ratXy[r].1) == rnd(ps[i].y) && t.ratLayer[r] == ps[i].layer
         && (t.ratQ[r] == t.ratQ[r'] <==> rnd(ps[i].x) == rnd(ps[i'].x) && rnd(ps[i].y) == rnd(ps[i'].y) && ps[i].layer == ps[i'].layer)
  {
    hide PrintsAs3, RoutingTables, DynTablesOf, Print, PersOf;
    RoutingTablesAre(rnd, raws);
    RatsnestRow(rnd, raws, j, i);
    RatsnestRow(rnd, raws, j, i');
    var t, ps := RoutingTables(rnd, raws), raws[j].points;
    var r, r' := t.ratStart[j] + i, t.ratStart[j] + i';
    IdsTell3(rnd, ps, ps[i], Point3D("Q" + Print(t.ratQ[r]), t.ratXy[r].0, t.ratXy[r].1, t.ratLayer[r]),
             ps[i'], Point3D("Q" + Print(t.ratQ[r']), t.ratXy[r'].0, t.ratXy[r'].1, t.ratLayer[r']));
    if "Q" + Print(t.ratQ[r]) == "Q" + Print(t.ratQ[r']) { NumberedKeysDiffer("Q", t.ratQ[r], t.ratQ[r']); }
  }
}
