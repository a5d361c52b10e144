/** The per-net geometry of a board snapshot: `build_net_geometry`. */
module NetGeometries {
  import opened Decimal
  import opened Dedup
  import opened Csr
  import opened StableSort
  import opened Observation
  import opened IntSets

  // --- the engine's snapshot --------------------------------------------------------------------

  datatype TrackItem = TrackItem(netCode: int, layer: int, p1: Pt, p2: Pt, width: real)
  datatype ViaItem = ViaItem(netCode: int, center: Pt, topLayer: int, bottomLayer: int, diameter: real)
  /** `layer1` is None for a binding that does not report ratsnest layers. */
  datatype RatsEdge = RatsEdge(netCode: int, p1: Pt, p2: Pt, layer1: Option<int>, layer2: int)
  datatype Snapshot = Snapshot(tracks: seq<TrackItem>, vias: seq<ViaItem>, ratsnest: seq<RatsEdge>)

  // --- one net as plain data -------------------------------------------------------------------------

  datatype TrackRow = TrackRow(p1: Pt, p2: Pt, width: real, layer: int)
  datatype ViaRow = ViaRow(center: Pt, layerStart: int, layerEnd: int, viaWidth: real)
  datatype RawGeometry = RawGeometry(code: int, tracks: seq<TrackRow>, vias: seq<ViaRow>, points: seq<Pt3>)

  function TrackPts(t: TrackRow): seq<Pt> { [t.p1, t.p2] }

  function TracksPts(ts: seq<TrackRow>): seq<Pt> { Flat(Map((t: TrackRow) => TrackPts(t), ts)) }

  function ViaPts(vs: seq<ViaRow>): seq<Pt> { Map((v: ViaRow) => v.center, vs) }

  /** The 2D points of a net in registration order: track ends, then via centers. */
  function NetPts(tracks: seq<TrackRow>, vias: seq<ViaRow>): seq<Pt> { TracksPts(tracks) + ViaPts(vias) }

  function NetPool(rnd: real -> real, tracks: seq<TrackRow>, vias: seq<ViaRow>): seq<Pt> {
    Pool(XyKey(rnd), NetPts(tracks, vias))
  }

  // --- what the geometry of a net is -------------------------------------------------------------------

  function TrackLine(rnd: real -> real, pool: seq<Pt>, i: nat, t: TrackRow): Line {
    Line("T" + Print(i), Ref2(rnd, pool, t.p1), Ref2(rnd, pool, t.p2), t.width, t.layer, None)
  }

  function TrackLines(rnd: real -> real, pool: seq<Pt>, ts: seq<TrackRow>): (ls: seq<Line>)
    ensures |ls| == |ts| && forall i | 0 <= i < |ts| :: ls[i] == TrackLine(rnd, pool, i, ts[i])
  {
    seq(|ts|, i requires 0 <= i < |ts| => TrackLine(rnd, pool, i, ts[i]))
  }

  function ViaOf(rnd: real -> real, pool: seq<Pt>, i: nat, v: ViaRow): Via {
    Via("V" + Print(i), Ref2(rnd, pool, v.center), v.layerStart, v.layerEnd, v.viaWidth)
  }

  function ViasOf(rnd: real -> real, pool: seq<Pt>, vs: seq<ViaRow>): (us: seq<Via>)
    ensures |us| == |vs| && forall i | 0 <= i < |vs| :: us[i] == ViaOf(rnd, pool, i, vs[i])
  {
    seq(|vs|, i requires 0 <= i < |vs| => ViaOf(rnd, pool, i, vs[i]))
  }

  function PointsOf(rnd: real -> real, ps: seq<Pt3>): (qs: seq<Point3D>)
    ensures |qs| == |ps|
  {
    Map((p: Pt3) => Ref3(rnd, Pool(XylKey(rnd), ps), p), ps)
  }

  /** The geometry of a net: ids per kind from 0, points printed through the net's own two pools. */
  function GeometryOf(rnd: real -> real, g: RawGeometry): NetGeometry {
    var pool := NetPool(rnd, g.tracks, g.vias);
    NetGeometry(g.code, TrackLines(rnd, pool, g.tracks), ViasOf(rnd, pool, g.vias), PointsOf(rnd, g.points))
  }

  function GeometriesOf(rnd: real -> real, gs: seq<RawGeometry>): (ns: seq<(int, NetGeometry)>)
    ensures |ns| == |gs|
  {
    Map((g: RawGeometry) => (g.code, GeometryOf(rnd, g)), gs)
  }

  // --- the snapshot as plain data -------------------------------------------------------------------------

  /** `_b2h`: without a layer map the board layer itself; a layer the map lacks reads as 1. */
  function HumanLayer(layerMap: Option<map<int, int>>, layer: int): int {
    match layerMap
    case None => layer
    case Some(m) => if layer in m then m[layer] else 1
  }

  /** `_rats_layers`: negative = every layer = 0; a binding without layers = 1. */
  function RatsLayers(layerMap: Option<map<int, int>>, e: RatsEdge): (int, int) {
    match e.layer1
    case None => (1, 1)
    case Some(l1) => (if l1 < 0 then 0 else HumanLayer(layerMap, l1), if e.layer2 < 0 then 0 else HumanLayer(layerMap, e.layer2))
  }

  function TrackKey(t: TrackItem): seq<real> {
    [t.layer as real, t.p1.x, t.p1.y, t.p2.x, t.p2.y, t.width]
  }

  function ViaKey(v: ViaItem): seq<real> {
    [v.center.x, v.center.y, v.topLayer as real, v.bottomLayer as real, v.diameter]
  }

  /** The sort key of a ratsnest edge has no layers. */
  function RatsKey(e: RatsEdge): seq<real> {
    [e.p1.x, e.p1.y, e.p2.x, e.p2.y]
  }

  predicate InScope(target: Option<set<int>>, code: int) {
    code > 0 && (target.None? || code in target.value)
  }

  function TrackCode(t: TrackItem): int { t.netCode }
  function ViaCode(v: ViaItem): int { v.netCode }
  function RatsCode(e: RatsEdge): int { e.netCode }
  predicate Positive(code: int) { code > 0 }
  function ScopeOf(target: Option<set<int>>): int -> bool { (c: int) => InScope(target, c) }

  function TracksOfNet(s: Snapshot, code: int): seq<TrackItem> {
    OfCode(TrackCode, code, s.tracks)
  }

  function ViasOfNet(s: Snapshot, code: int): seq<ViaItem> {
    OfCode(ViaCode, code, s.vias)
  }

  function RatsOfNet(s: Snapshot, code: int): seq<RatsEdge> {
    OfCode(RatsCode, code, s.ratsnest)
  }

  function SortedTracks(s: Snapshot, code: int): seq<TrackItem> { SortBy(TrackKey, TracksOfNet(s, code)) }
  function SortedVias(s: Snapshot, code: int): seq<ViaItem> { SortBy(ViaKey, ViasOfNet(s, code)) }
  function SortedRats(s: Snapshot, target: Option<set<int>>, code: int): seq<RatsEdge> {
    if InScope(target, code) then SortBy(RatsKey, RatsOfNet(s, code)) else []
  }

  function TrackRowOf(lm: Option<map<int, int>>, t: TrackItem): TrackRow {
    TrackRow(t.p1, t.p2, t.width, HumanLayer(lm, t.layer))
  }

  function ViaRowOf(lm: Option<map<int, int>>, v: ViaItem): ViaRow {
    ViaRow(v.center, HumanLayer(lm, v.topLayer), HumanLayer(lm, v.bottomLayer), v.diameter)
  }

  function RatsEnds(lm: Option<map<int, int>>, e: RatsEdge): seq<Pt3> {
    var l := RatsLayers(lm, e);
    [Pt3(e.p1.x, e.p1.y, l.0), Pt3(e.p2.x, e.p2.y, l.1)]
  }

  function RatsPoints(lm: Option<map<int, int>>, es: seq<RatsEdge>): seq<Pt3> {
    Flat(Map((e: RatsEdge) => RatsEnds(lm, e), es))
  }

  function RawGeometryOf(s: Snapshot, lm: Option<map<int, int>>, target: Option<set<int>>, code: int): RawGeometry {
    RawGeometry(code, Map((t: TrackItem) => TrackRowOf(lm, t), SortedTracks(s, code)),
                Map((v: ViaItem) => ViaRowOf(lm, v), SortedVias(s, code)),
                RatsPoints(lm, SortedRats(s, target, code)))
  }

  /** The nets that have anything to show. */
  function NetCodes(s: Snapshot, target: Option<set<int>>): set<int> {
    (set t | t in s.tracks && t.netCode > 0 :: t.netCode)
    + (set v | v in s.vias && v.netCode > 0 :: v.netCode)
    + (set e | e in s.ratsnest && InScope(target, e.netCode) :: e.netCode)
  }

  function RawGeometriesOf(s: Snapshot, lm: Option<map<int, int>>, target: Option<set<int>>): seq<RawGeometry> {
    Map((c: int) => RawGeometryOf(s, lm, target, c), Ascending(NetCodes(s, target)))
  }

  // --- building it --------------------------------------------------------------------------------------------

  function OfCode<T>(code: T -> int, c: int, xs: seq<T>): seq<T> {
    Filter(x => code(x) == c, xs)
  }

  /** `defaultdict(list)` filled in list order: the entries of each wanted net, keyed by net code. */
  ghost predicate Bucketed<T>(buckets: map<int, seq<T>>, code: T -> int, wanted: int -> bool, xs: seq<T>) {
    && (forall c | c in buckets :: wanted(c) && buckets[c] != [] && buckets[c] == OfCode(code, c, xs))
    && (forall c :: c !in buckets && wanted(c) ==> OfCode(code, c, xs) == [])
  }

  method Bucket<T>(xs: seq<T>, code: T -> int, wanted: int -> bool) returns (buckets: map<int, seq<T>>)
    ensures Bucketed(buckets, code, wanted, xs)
  {
    buckets := map[];
    hide Filter;
    NoEntries(code, wanted, xs);
    for i := 0 to |xs|
      invariant Bucketed(buckets, code, wanted, xs[..i])
    {
      var x := xs[i];
      assert xs[..i + 1] == xs[..i] + [x];
      OfCodeStep(code, xs[..i], x);
      if wanted(code(x)) {
        var bucket := if code(x) in buckets then buckets[code(x)] else [];
        buckets := buckets[code(x) := bucket + [x]];
      }
    }
    assert xs[..|xs|] == xs;
  }

  lemma NoEntries<T>(code: T -> int, wanted: int -> bool, xs: seq<T>)
    ensures Bucketed(map[], code, wanted, xs[..0])
  {
  }

  lemma OfCodeStep<T>(code: T -> int, xs: seq<T>, x: T)
    ensures forall c :: OfCode(code, c, xs + [x]) == if code(x) == c then OfCode(code, c, xs) + [x] else OfCode(code, c, xs)
  {
    forall c ensures OfCode(code, c, xs + [x]) == if code(x) == c then OfCode(code, c, xs) + [x] else OfCode(code, c, xs) {
      FilterStep(y => code(y) == c, xs, x);
    }
  }

  lemma TracksStep(ts: seq<TrackRow>, i: nat)
    requires i < |ts|
    ensures TracksPts(ts[..0]) == []
    ensures TracksPts(ts[..i + 1]) == TracksPts(ts[..i]) + [ts[i].p1] + [ts[i].p2]
    ensures TracksPts(ts[..i + 1]) <= TracksPts(ts)
  {
    var f := (t: TrackRow) => TrackPts(t);
    MapStep(f, ts, i);
    FlatStep(Map(f, ts[..i]), TrackPts(ts[i]));
    FlatPrefix(Map(f, ts), i + 1);
    assert Map(f, ts)[..i + 1] == Map(f, ts[..i + 1]);
    assert TracksPts(ts[..i]) + TrackPts(ts[i]) == TracksPts(ts[..i]) + [ts[i].p1] + [ts[i].p2];
  }

  lemma RatsStep(lm: Option<map<int, int>>, es: seq<RatsEdge>, i: nat)
    requires i < |es|
    ensures RatsPoints(lm, es[..i + 1]) == RatsPoints(lm, es[..i]) + [RatsEnds(lm, es[i])[0]] + [RatsEnds(lm, es[i])[1]]
    ensures RatsPoints(lm, es[..i + 1]) <= RatsPoints(lm, es)
  {
    var f := (e: RatsEdge) => RatsEnds(lm, e);
    MapStep(f, es, i);
    FlatStep(Map(f, es[..i]), RatsEnds(lm, es[i]));
    FlatPrefix(Map(f, es), i + 1);
    assert Map(f, es)[..i + 1] == Map(f, es[..i + 1]);
    assert RatsPoints(lm, es[..i]) + RatsEnds(lm, es[i])
        == RatsPoints(lm, es[..i]) + [RatsEnds(lm, es[i])[0]] + [RatsEnds(lm, es[i])[1]];
  }

  lemma NothingYet(lm: Option<map<int, int>>, es: seq<RatsEdge>, ts: seq<TrackRow>)
    ensures RatsPoints(lm, es[..0]) == [] && TracksPts(ts[..0]) == []
  {
  }

  /** The tracks of one net: both ends registered, then the track numbered. */
  method RegisterTracks(alloc: IDAllocator, lm: Option<map<int, int>>, tracks: seq<TrackItem>,
                        ghost rows: seq<TrackRow>, ghost rnd: real -> real, ghost pts: seq<Pt>)
    returns (lines: seq<Line>)
    requires rows == Map((t: TrackItem) => TrackRowOf(lm, t), tracks)
    requires alloc.At([]) && alloc.At3([]) && rnd == alloc.rnd && alloc.Count('T') == 0 && TracksPts(rows) <= pts
    modifies alloc
    ensures alloc.At(TracksPts(rows)) && alloc.At3([]) && alloc.Count('V') == old(alloc.Count('V'))
    ensures lines == TrackLines(rnd, Pool(XyKey(rnd), pts), rows)
  {
    ghost var final := Pool(XyKey(rnd), pts);
    NothingYet(lm, [], rows);
    hide IDAllocator.Valid, Pool, Extend, IndexOf, Rep, Ref2, XyKey, XylKey, Flat, TracksPts;
    lines := [];
    for i := 0 to |tracks|
      invariant alloc.At(TracksPts(rows[..i])) && alloc.At3([])
      invariant alloc.Count('T') == i && alloc.Count('V') == old(alloc.Count('V'))
      invariant |lines| == i
      invariant forall k | 0 <= k < i :: lines[k] == TrackLine(rnd, final, k, rows[k])
    {
      var t := tracks[i];
      ghost var d0 := TracksPts(rows[..i]);
      TracksStep(rows, i);
      assert d0 + [t.p1] <= pts && d0 + [t.p1] + [t.p2] <= pts;
      RegisterAt(rnd, pts, d0, t.p1);
      var p1 := alloc.GetOrCreatePoint2D(t.p1.x, t.p1.y);
      RegisterAt(rnd, pts, d0 + [t.p1], t.p2);
      var p2 := alloc.GetOrCreatePoint2D(t.p2.x, t.p2.y);
      var id := alloc.NextEntityId('T');
      lines := lines + [Line(id, p1, p2, t.width, HumanLayer(lm, t.layer), None)];
    }
    assert rows[..|tracks|] == rows;
  }

  method RegisterVias(alloc: IDAllocator, lm: Option<map<int, int>>, vias: seq<ViaItem>, ghost rows: seq<ViaRow>,
                      ghost rnd: real -> real, ghost pts: seq<Pt>, ghost done: seq<Pt>) returns (out: seq<Via>)
    requires rows == Map((v: ViaItem) => ViaRowOf(lm, v), vias)
    requires alloc.At(done) && alloc.At3([]) && rnd == alloc.rnd && alloc.Count('V') == 0 && done + ViaPts(rows) <= pts
    modifies alloc
    ensures alloc.At3([])
    ensures out == ViasOf(rnd, Pool(XyKey(rnd), pts), rows)
  {
    ghost var final := Pool(XyKey(rnd), pts);
    hide IDAllocator.Valid, Pool, Extend, IndexOf, Rep, Ref2, XyKey, XylKey, Flat;
    out := [];
    assert done + ViaPts(rows[..0]) == done;
    for i := 0 to |vias|
      invariant alloc.At(done + ViaPts(rows[..i])) && alloc.At3([]) && alloc.Count('V') == i
      invariant |out| == i
      invariant forall k | 0 <= k < i :: out[k] == ViaOf(rnd, final, k, rows[k])
    {
      var v := vias[i];
      ghost var before := done + ViaPts(rows[..i]);
      assert before + [v.center] == done + ViaPts(rows[..i + 1]);
      assert before + [v.center] == (done + ViaPts(rows))[..|before| + 1];
      RegisterAt(rnd, pts, before, v.center);
      var center := alloc.GetOrCreatePoint2D(v.center.x, v.center.y);
      var id := alloc.NextEntityId('V');
      out := out + [Via(id, center, HumanLayer(lm, v.topLayer), HumanLayer(lm, v.bottomLayer), v.diameter)];
    }
  }

  method RegisterRats(alloc: IDAllocator, lm: Option<map<int, int>>, rats: seq<RatsEdge>, ghost rnd: real -> real)
    returns (points: seq<Point3D>)
    requires alloc.At3([]) && rnd == alloc.rnd
    modifies alloc
    ensures points == PointsOf(rnd, RatsPoints(lm, rats))
  {
    ghost var pts := RatsPoints(lm, rats);
    ghost var final := Pool(XylKey(rnd), pts);
    NothingYet(lm, rats, []);
    hide IDAllocator.Valid, Pool, Extend, IndexOf, Rep, Ref3, XyKey, XylKey, Flat, RatsPoints;
    points := [];
    for i := 0 to |rats|
      invariant alloc.At3(RatsPoints(lm, rats[..i]))
      invariant |points| == |RatsPoints(lm, rats[..i])| && RatsPoints(lm, rats[..i]) <= pts
      invariant forall k | 0 <= k < |points| :: points[k] == Ref3(rnd, final, pts[k])
    {
      var e := rats[i];
      var (l1, l2) := RatsLayers(lm, e);
      ghost var d0 := RatsPoints(lm, rats[..i]);
      ghost var q1, q2 := Pt3(e.p1.x, e.p1.y, l1), Pt3(e.p2.x, e.p2.y, l2);
      RatsStep(lm, rats, i);
      assert d0 + [q1] <= pts && d0 + [q1] + [q2] <= pts;
      RegisterAt3(rnd, pts, d0, q1);
      var p1 := alloc.GetOrCreatePoint3D(e.p1.x, e.p1.y, l1);
      RegisterAt3(rnd, pts, d0 + [q1], q2);
      var p2 := alloc.GetOrCreatePoint3D(e.p2.x, e.p2.y, l2);
      points := points + [p1];
      points := points + [p2];
    }
    assert rats[..|rats|] == rats;
  }

  /** One net through its own fresh allocator: ids restart from 0. */
  method BuildNet(rnd: real -> real, lm: Option<map<int, int>>, code: int, tracks: seq<TrackItem>,
                  vias: seq<ViaItem>, rats: seq<RatsEdge>) returns (g: NetGeometry)
    ensures g == GeometryOf(rnd, RawGeometry(code, Map((t: TrackItem) => TrackRowOf(lm, t), tracks),
                                             Map((v: ViaItem) => ViaRowOf(lm, v), vias), RatsPoints(lm, rats)))
  {
    ghost var rows, viaRows := Map((t: TrackItem) => TrackRowOf(lm, t), tracks), Map((v: ViaItem) => ViaRowOf(lm, v), vias);
    ghost var pts := NetPts(rows, viaRows);
    assert pts == TracksPts(rows) + ViaPts(viaRows);
    hide IDAllocator.Valid, Pool, Extend, IndexOf, Rep, Ref2, Ref3, XyKey, XylKey, Flat, TracksPts, RatsPoints, ViaPts;
    var alloc := new IDAllocator(rnd);
    var lines := RegisterTracks(alloc, lm, tracks, rows, rnd, pts);
    var out := RegisterVias(alloc, lm, vias, viaRows, rnd, pts, TracksPts(rows));
    var points := RegisterRats(alloc, lm, rats, rnd);
    g := NetGeometry(code, lines, out, points);
  }

  lemma {:induction false} FilterKeeps<T>(p: T -> bool, xs: seq<T>, x: T)
    requires x in xs && p(x)
    ensures x in Filter(p, xs)
  {
    if xs[|xs| - 1] != x {
      FilterKeeps(p, xs[..|xs| - 1], x);
    }
  }

  /** The keys of a filled bucket dict are the wanted codes that occur. */
  lemma BucketKeys<T>(buckets: map<int, seq<T>>, code: T -> int, wanted: int -> bool, xs: seq<T>, c: int)
    requires Bucketed(buckets, code, wanted, xs)
    ensures c in buckets <==> exists x :: x in xs && wanted(code(x)) && code(x) == c
  {
    if c in buckets {
      var x := buckets[c][0];
      assert x in OfCode(code, c, xs);
    }
    if x :| x in xs && wanted(code(x)) && code(x) == c {
      FilterKeeps(y => code(y) == c, xs, x);
    }
  }

  function SortedBuckets<T>(key: T -> seq<real>, buckets: map<int, seq<T>>): map<int, seq<T>> {
    map c | c in buckets :: SortBy(key, buckets[c])
  }

  function Get<T>(buckets: map<int, seq<T>>, c: int): seq<T> {
    if c in buckets then buckets[c] else []
  }

  lemma SortedBucket<T>(key: T -> seq<real>, buckets: map<int, seq<T>>, code: T -> int, wanted: int -> bool, xs: seq<T>, c: int)
    requires Bucketed(buckets, code, wanted, xs)
    ensures Get(SortedBuckets(key, buckets), c) == if wanted(c) then SortBy(key, OfCode(code, c, xs)) else []
  {
  }

  lemma AllCodes(s: Snapshot, target: Option<set<int>>, tracks: map<int, seq<TrackItem>>, vias: map<int, seq<ViaItem>>,
                 rats: map<int, seq<RatsEdge>>)
    requires Bucketed(tracks, TrackCode, Positive, s.tracks) && Bucketed(vias, ViaCode, Positive, s.vias)
    requires Bucketed(rats, RatsCode, ScopeOf(target), s.ratsnest)
    ensures tracks.Keys + vias.Keys + rats.Keys == NetCodes(s, target)
  {
    forall c ensures c in tracks.Keys + vias.Keys + rats.Keys <==> c in NetCodes(s, target) {
      BucketKeys(tracks, TrackCode, Positive, s.tracks, c);
      BucketKeys(vias, ViaCode, Positive, s.vias, c);
      BucketKeys(rats, RatsCode, ScopeOf(target), s.ratsnest, c);
      hide Bucketed, OfCode;
    }
  }

  lemma NetInput(s: Snapshot, target: Option<set<int>>, tracks: map<int, seq<TrackItem>>, vias: map<int, seq<ViaItem>>,
                 rats: map<int, seq<RatsEdge>>, nc: int)
    requires Bucketed(tracks, TrackCode, Positive, s.tracks) && Bucketed(vias, ViaCode, Positive, s.vias)
    requires Bucketed(rats, RatsCode, ScopeOf(target), s.ratsnest)
    requires nc in NetCodes(s, target)
    ensures Get(SortedBuckets(TrackKey, tracks), nc) == SortedTracks(s, nc)
    ensures Get(SortedBuckets(ViaKey, vias), nc) == SortedVias(s, nc)
    ensures Get(SortedBuckets(RatsKey, rats), nc) == SortedRats(s, target, nc)
  {
    SortedBucket(TrackKey, tracks, TrackCode, Positive, s.tracks, nc);
    SortedBucket(ViaKey, vias, ViaCode, Positive, s.vias, nc);
    SortedBucket(RatsKey, rats, RatsCode, ScopeOf(target), s.ratsnest, nc);
  }

  lemma SameKeys<T>(key: T -> seq<real>, buckets: map<int, seq<T>>)
    ensures SortedBuckets(key, buckets).Keys == buckets.Keys
  {
  }

  /** The three per-net dicts of lists, each list sorted. */
  method GroupByNet(s: Snapshot, target: Option<set<int>>)
    returns (tracks: map<int, seq<TrackItem>>, vias: map<int, seq<ViaItem>>, rats: map<int, seq<RatsEdge>>)
    ensures tracks.Keys + vias.Keys + rats.Keys == NetCodes(s, target)
    ensures forall nc | nc in NetCodes(s, target) ::
              Get(tracks, nc) == SortedTracks(s, nc) && Get(vias, nc) == SortedVias(s, nc)
              && Get(rats, nc) == SortedRats(s, target, nc)
  {
    hide *;
    var trackBuckets := Bucket(s.tracks, TrackCode, Positive);
    var viaBuckets := Bucket(s.vias, ViaCode, Positive);
    var ratsBuckets := Bucket(s.ratsnest, RatsCode, ScopeOf(target));
    tracks, vias, rats := SortedBuckets(TrackKey, trackBuckets), SortedBuckets(ViaKey, viaBuckets), SortedBuckets(RatsKey, ratsBuckets);
    SameKeys(TrackKey, trackBuckets);
    SameKeys(ViaKey, viaBuckets);
    SameKeys(RatsKey, ratsBuckets);
    AllCodes(s, target, trackBuckets, viaBuckets, ratsBuckets);
    forall nc | nc in NetCodes(s, target)
      ensures Get(tracks, nc) == SortedTracks(s, nc) && Get(vias, nc) == SortedVias(s, nc)
      ensures Get(rats, nc) == SortedRats(s, target, nc)
    {
      NetInput(s, target, trackBuckets, viaBuckets, ratsBuckets, nc);
    }
  }

  lemma GeometryAt(rnd: real -> real, s: Snapshot, lm: Option<map<int, int>>, target: Option<set<int>>, i: nat)
    requires i < |Ascending(NetCodes(s, target))|
    ensures |GeometriesOf(rnd, RawGeometriesOf(s, lm, target))| == |Ascending(NetCodes(s, target))|
    ensures GeometriesOf(rnd, RawGeometriesOf(s, lm, target))[i]
         == (Ascending(NetCodes(s, target))[i],
             GeometryOf(rnd, RawGeometryOf(s, lm, target, Ascending(NetCodes(s, target))[i])))
  {
    hide GeometryOf, NetCodes, Ascending, SortedTracks, SortedVias, SortedRats, RatsPoints;
  }

  lemma RawGeometryIs(s: Snapshot, lm: Option<map<int, int>>, target: Option<set<int>>, code: int)
    ensures RawGeometryOf(s, lm, target, code)
         == RawGeometry(code, Map((t: TrackItem) => TrackRowOf(lm, t), SortedTracks(s, code)),
                        Map((v: ViaItem) => ViaRowOf(lm, v), SortedVias(s, code)),
                        RatsPoints(lm, SortedRats(s, target, code)))
  {
    hide SortedTracks, SortedVias, SortedRats, RatsPoints;
  }

  /** `build_net_geometry` */
  method BuildNetGeometry(rnd: real -> real, s: Snapshot, lm: Option<map<int, int>>, target: Option<set<int>>)
    returns (nets: seq<(int, NetGeometry)>)
    ensures nets == GeometriesOf(rnd, RawGeometriesOf(s, lm, target))
  {
    hide *;
    ghost var want := GeometriesOf(rnd, RawGeometriesOf(s, lm, target));
    var tracksByNet, viasByNet, ratsByNet := GroupByNet(s, target);
    var codes := Ascending(tracksByNet.Keys + viasByNet.Keys + ratsByNet.Keys);
    AsManyNets(rnd, s, lm, target);
    nets := [];
    for i := 0 to |codes|
      invariant |nets| == i && |want| == |codes|
      invariant forall k | 0 <= k < i :: nets[k] == want[k]
    {
      var nc := codes[i];
      RawGeometryIs(s, lm, target, nc);
      GeometryAt(rnd, s, lm, target, i);
      var g := BuildNet(rnd, lm, nc, Get(tracksByNet, nc), Get(viasByNet, nc), Get(ratsByNet, nc));
      nets := nets + [(nc, g)];
    }
  }

  lemma AsManyNets(rnd: real -> real, s: Snapshot, lm: Option<map<int, int>>, target: Option<set<int>>)
    ensures |GeometriesOf(rnd, RawGeometriesOf(s, lm, target))| == |Ascending(NetCodes(s, target))|
  {
  }
}
