/** The nested-dict observation of a board: its primitives, the id allocator, the static board
    context and the per-net geometry, with the functions that say what the printed dicts are.

    A Python dict with computed keys is a sequence of (key, value) pairs in insertion order; a dict
    with fixed keys is a record.  Coordinates are reals, and `round(x, 3)` is an arbitrary function
    `rnd: real -> real`, so every result holds for every rounding rule. */
module Observation {
  import opened Decimal
  import opened Dedup
  import opened Csr
  import opened StableSort

  type Dict<V> = seq<(string, V)>

  /** Opaque JSON carried through unchanged (constraints, DRC rows, history records). */
  datatype Json = JNull | JBool(b: bool) | JNum(n: real) | JStr(s: string)
                | JList(items: seq<Json>) | JObj(fields: seq<(string, Json)>)

  datatype Pt = Pt(x: real, y: real)
  datatype Pt3 = Pt3(x: real, y: real, layer: int)

  // --- primitives and containers -------------------------------------------------------------

  datatype Point2D = Point2D(id: string, x: real, y: real)
  datatype Point3D = Point3D(id: string, x: real, y: real, layer: int)
  datatype Line = Line(id: string, p1: Point2D, p2: Point2D, width: real, layer: int, mid: Option<Point2D>)
  datatype Rectangle = Rectangle(id: string, center: Point2D, width: real, height: real, layer: int,
                                 shape: string, pts: seq<Pt>)
  datatype Via = Via(id: string, center: Point2D, layerStart: int, layerEnd: int, viaWidth: real)
  datatype NetContext = NetContext(netCode: int, netName: string, pads: seq<Rectangle>, constraints: Option<Json>)
  datatype NetGeometry = NetGeometry(netCode: int, tracks: seq<Line>, vias: seq<Via>, points: seq<Point3D>)

  datatype Meta = Meta(bboxX: real, bboxY: real, bboxW: real, bboxH: real, scale: real,
                       netCount: int, copperLayers: int)
  datatype BoardStatic = BoardStatic(meta: Meta, boardlines: seq<Line>, nets: seq<(int, NetContext)>,
                                     obstacles: seq<Rectangle>, unconnectedPads: seq<Rectangle>,
                                     boardConstraints: Json)

  // --- printed dicts -------------------------------------------------------------------------

  datatype PointDict = PointDict(id: string, xy: (real, real))
  datatype Point3Dict = Point3Dict(id: string, xy: (real, real), layer: int)
  datatype LineDict = LineDict(id: string, p1: PointDict, p2: PointDict, width: real, layer: int, mid: Option<PointDict>)
  datatype EdgeDict = EdgeDict(id: string, p1: PointDict, p2: PointDict, width: real, mid: Option<PointDict>)
  datatype TrackDict = TrackDict(id: string, p1: PointDict, p2: PointDict, width: real, layer: int)
  datatype ViaDict = ViaDict(id: string, center: PointDict, layerStart: int, layerEnd: int, viaWidth: real)
  datatype RectDict = RectDict(id: string, center: PointDict, width: real, height: real, layer: int,
                               shape: string, pts: Option<seq<(real, real)>>)
  datatype NetDict = NetDict(netName: string, pads: Dict<RectDict>, constraints: Option<Json>)
  datatype NetGeometryDict = NetGeometryDict(tracks: Dict<TrackDict>, vias: Dict<ViaDict>, points: seq<Point3Dict>)
  datatype StaticDict = StaticDict(meta: Meta, boardlines: Dict<EdgeDict>, nets: Dict<NetDict>,
                                   obstacles: Dict<RectDict>, unconnectedPads: Dict<RectDict>,
                                   boardConstraints: Json)

  function PointToDict(p: Point2D): PointDict { PointDict(p.id, (p.x, p.y)) }
  function Point3ToDict(p: Point3D): Point3Dict { Point3Dict(p.id, (p.x, p.y), p.layer) }

  function MidToDict(m: Option<Point2D>): Option<PointDict> {
    match m case None => None case Some(p) => Some(PointToDict(p))
  }

  /** `Line.to_dict()` of a board edge without its `layer` key. */
  function EdgeToDict(l: Line): EdgeDict {
    EdgeDict(l.id, PointToDict(l.p1), PointToDict(l.p2), l.width, MidToDict(l.mid))
  }

  function TrackToDict(l: Line): TrackDict {
    TrackDict(l.id, PointToDict(l.p1), PointToDict(l.p2), l.width, l.layer)
  }

  function ViaToDict(v: Via): ViaDict {
    ViaDict(v.id, PointToDict(v.center), v.layerStart, v.layerEnd, v.viaWidth)
  }

  /** The `pts` key is emitted only when the outline is populated. */
  function RectToDict(r: Rectangle): RectDict {
    RectDict(r.id, PointToDict(r.center), r.width, r.height, r.layer, r.shape,
             if r.pts == [] then None else Some(Map((p: Pt) => (p.x, p.y), r.pts)))
  }

  /** `{f"{prefix}{i}": f(x) for i, x in enumerate(xs)}` */
  function Enumerated<T, V>(prefix: string, f: T -> V, xs: seq<T>): (d: Dict<V>)
    ensures |d| == |xs| && forall i | 0 <= i < |xs| :: d[i] == (prefix + Print(i), f(xs[i]))
  {
    seq(|xs|, i requires 0 <= i < |xs| => (prefix + Print(i), f(xs[i])))
  }

  function NetKey(code: int): string { "net_" + PrintInt(code) }

  function NetContextToDict(c: NetContext): NetDict {
    NetDict(c.netName, Enumerated("pad_", (r: Rectangle) => RectToDict(r), c.pads), c.constraints)
  }

  function NetGeometryToDict(g: NetGeometry): NetGeometryDict {
    NetGeometryDict(Enumerated("track_", (l: Line) => TrackToDict(l), g.tracks),
                    Enumerated("via_", (v: Via) => ViaToDict(v), g.vias),
                    Map((p: Point3D) => Point3ToDict(p), g.points))
  }

  /** `_build_board_static` */
  function BuildBoardStatic(b: BoardStatic): StaticDict {
    StaticDict(b.meta,
               Enumerated("edge_", (l: Line) => EdgeToDict(l), b.boardlines),
               Map((n: (int, NetContext)) => (NetKey(n.0), NetContextToDict(n.1)), b.nets),
               Enumerated("obs_", (r: Rectangle) => RectToDict(r), b.obstacles),
               Enumerated("upad_", (r: Rectangle) => RectToDict(r), b.unconnectedPads),
               b.boardConstraints)
  }

  /** `{f"net_{nc}": ns.to_dict() ...}` */
  function RoutingGeometryDict(gs: seq<(int, NetGeometry)>): Dict<NetGeometryDict> {
    Map((g: (int, NetGeometry)) => (NetKey(g.0), NetGeometryToDict(g.1)), gs)
  }

  // --- the id allocator ----------------------------------------------------------------------

  function XyKey(rnd: real -> real): Pt -> (real, real) {
    (p: Pt) => (rnd(p.x), rnd(p.y))
  }

  function XylKey(rnd: real -> real): Pt3 -> (real, real, int) {
    (p: Pt3) => (rnd(p.x), rnd(p.y), p.layer)
  }

  /** What a pool of registered points prints for p: the id of its entry and that entry's own,
      first-registered coordinates. */
  function Ref2(rnd: real -> real, pool: seq<Pt>, p: Pt): Point2D {
    var q := Rep(XyKey(rnd), pool, p);
    Point2D("P" + Print(IndexOf(XyKey(rnd), pool, XyKey(rnd)(p))), q.x, q.y)
  }

  function Ref3(rnd: real -> real, pool: seq<Pt3>, p: Pt3): Point3D {
    var q := Rep(XylKey(rnd), pool, p);
    Point3D("Q" + Print(IndexOf(XylKey(rnd), pool, XylKey(rnd)(p))), q.x, q.y, q.layer)
  }

  ghost predicate HoldsPool<T, K, V>(key: T -> K, ref: (nat, T) -> V, registry: map<K, V>, pool: seq<T>) {
    forall i | 0 <= i < |pool| :: key(pool[i]) in registry && registry[key(pool[i])] == ref(i, pool[i])
  }

  ghost predicate HoldsNoMore<T, K, V>(key: T -> K, registry: map<K, V>, pool: seq<T>) {
    forall k | k in registry :: Has(key, pool, k)
  }

  /** The registry holds exactly one entry per pooled point, under its key, with its id.
      (One predicate for both point kinds: `ref` is what entry i of the pool prints.) */
  ghost predicate Registers<T, K, V>(key: T -> K, ref: (nat, T) -> V, registry: map<K, V>, pool: seq<T>) {
    DistinctKeys(key, pool) && HoldsPool(key, ref, registry, pool) && HoldsNoMore(key, registry, pool)
  }

  lemma DistinctWithNew<T, K>(key: T -> K, pool: seq<T>, x: T)
    requires DistinctKeys(key, pool) && !Has(key, pool, key(x))
    ensures DistinctKeys(key, pool + [x])
  {
    forall i | 0 <= i < |pool| ensures key(pool[i]) != key(x) {
      IndexOfHas(key, pool, i);
    }
  }

  lemma HasWithNew<T, K>(key: T -> K, pool: seq<T>, x: T, k: K)
    requires k == key(x) || Has(key, pool, k)
    ensures Has(key, pool + [x], k)
  {
    if Has(key, pool, k) {
      IndexOfStable(key, pool, pool + [x], k);
    } else {
      IndexOfHas(key, pool + [x], |pool|);
    }
  }

  lemma HoldsNew<T, K, V>(key: T -> K, ref: (nat, T) -> V, registry: map<K, V>, pool: seq<T>, x: T)
    requires HoldsPool(key, ref, registry, pool) && key(x) !in registry
    ensures !Has(key, pool, key(x))
    ensures HoldsPool(key, ref, registry[key(x) := ref(|pool|, x)], pool + [x])
  {
    var more, now := pool + [x], registry[key(x) := ref(|pool|, x)];
    forall i | 0 <= i < |more| ensures key(more[i]) in now && now[key(more[i])] == ref(i, more[i]) {
      if i < |pool| { assert more[i] == pool[i]; }
    }
  }

  lemma RegisterNew<T, K, V>(key: T -> K, ref: (nat, T) -> V, registry: map<K, V>, pool: seq<T>, x: T)
    requires Registers(key, ref, registry, pool) && key(x) !in registry
    ensures Extend(key, pool, x) == pool + [x]
    ensures Registers(key, ref, registry[key(x) := ref(|pool|, x)], pool + [x])
    ensures IndexOf(key, pool + [x], key(x)) == |pool|
  {
    hide IndexOf, Has, DistinctKeys, HoldsPool;
    HoldsNew(key, ref, registry, pool, x);
    DistinctWithNew(key, pool, x);
    var now := registry[key(x) := ref(|pool|, x)];
    forall k | k in now ensures Has(key, pool + [x], k) {
      HasWithNew(key, pool, x, k);
    }
    IndexOfUnique(key, pool + [x], |pool|);
  }

  lemma RegisteredEntry<T, K, V>(key: T -> K, ref: (nat, T) -> V, registry: map<K, V>, pool: seq<T>, x: T)
    requires Registers(key, ref, registry, pool) && key(x) in registry
    ensures Extend(key, pool, x) == pool
    ensures registry[key(x)] == ref(IndexOf(key, pool, key(x)), Rep(key, pool, x))
  {
  }

  function Entry2(i: nat, p: Pt): Point2D { Point2D("P" + Print(i), p.x, p.y) }
  function Entry3(i: nat, p: Pt3): Point3D { Point3D("Q" + Print(i), p.x, p.y, p.layer) }

  /** `IDAllocator`: one counter per prefix and a registry per point kind.  `pool2` / `pool3` list
      the registered points in id order. */
  class IDAllocator {
    const rnd: real -> real
    var counters: map<char, nat>
    var point2d: map<(real, real), Point2D>
    var point3d: map<(real, real, int), Point3D>
    ghost var pool2: seq<Pt>
    ghost var pool3: seq<Pt3>

    ghost predicate Valid()
      reads this
    {
      && Count('P') == |pool2| && Count('Q') == |pool3|
      && Registers(XyKey(rnd), Entry2, point2d, pool2)
      && Registers(XylKey(rnd), Entry3, point3d, pool3)
    }

    /** The allocator after registering exactly the points `done`, in order. */
    ghost predicate At(done: seq<Pt>)
      reads this
    {
      Valid() && pool2 == Pool(XyKey(rnd), done)
    }

    ghost predicate At3(done: seq<Pt3>)
      reads this
    {
      Valid() && pool3 == Pool(XylKey(rnd), done)
    }

    function Count(prefix: char): nat
      reads this
    {
      if prefix in counters then counters[prefix] else 0
    }

    constructor (rnd: real -> real)
      ensures At([]) && At3([]) && this.rnd == rnd && counters == map[]
    {
      this.rnd := rnd;
      counters, point2d, point3d := map[], map[], map[];
      pool2, pool3 := [], [];
    }

    method NextId(prefix: char) returns (id: string)
      modifies this`counters
      ensures id == [prefix] + Print(old(Count(prefix)))
      ensures counters == old(counters)[prefix := old(Count(prefix)) + 1]
    {
      var idx := Count(prefix);
      counters := counters[prefix := idx + 1];
      id := [prefix] + Print(idx);
    }

    /** An id of a kind that has no registry: edges, pads, obstacles, tracks, vias. */
    method NextEntityId(prefix: char) returns (id: string)
      requires Valid() && prefix != 'P' && prefix != 'Q'
      modifies this`counters
      ensures Valid() && id == [prefix] + Print(old(Count(prefix)))
      ensures Count(prefix) == old(Count(prefix)) + 1
      ensures forall other | other != prefix :: Count(other) == old(Count(other))
    {
      id := NextId(prefix);
    }

    method GetOrCreatePoint2D(x: real, y: real) returns (p: Point2D)
      requires Valid()
      modifies this
      ensures Valid() && pool3 == old(pool3)
      ensures pool2 == Extend(XyKey(rnd), old(pool2), Pt(x, y))
      ensures p == Ref2(rnd, pool2, Pt(x, y))
      ensures forall prefix | prefix != 'P' :: Count(prefix) == old(Count(prefix))
    {
      hide HoldsPool, HoldsNoMore, DistinctKeys, IndexOf;
      ghost var kf, pt := XyKey(rnd), Pt(x, y);
      var key := (rnd(x), rnd(y));
      assert key == kf(pt);
      if key !in point2d {
        RegisterNew(kf, Entry2, point2d, pool2, pt);
        var id := NextId('P');
        point2d := point2d[key := Point2D(id, x, y)];
        pool2 := pool2 + [pt];
      }
      RegisteredEntry(kf, Entry2, point2d, pool2, pt);
      p := point2d[key];
    }

    method GetOrCreatePoint3D(x: real, y: real, layer: int) returns (p: Point3D)
      requires Valid()
      modifies this
      ensures Valid() && pool2 == old(pool2)
      ensures pool3 == Extend(XylKey(rnd), old(pool3), Pt3(x, y, layer))
      ensures p == Ref3(rnd, pool3, Pt3(x, y, layer))
      ensures forall prefix | prefix != 'Q' :: Count(prefix) == old(Count(prefix))
    {
      hide HoldsPool, HoldsNoMore, DistinctKeys, IndexOf;
      ghost var kf, pt := XylKey(rnd), Pt3(x, y, layer);
      var key := (rnd(x), rnd(y), layer);
      assert key == kf(pt);
      if key !in point3d {
        RegisterNew(kf, Entry3, point3d, pool3, pt);
        var id := NextId('Q');
        point3d := point3d[key := Point3D(id, x, y, layer)];
        pool3 := pool3 + [pt];
      }
      RegisteredEntry(kf, Entry3, point3d, pool3, pt);
      p := point3d[key];
    }
  }

  /** A point printed while it is registered prints what the final pool prints for it. */
  lemma RegisterAt(rnd: real -> real, pts: seq<Pt>, done: seq<Pt>, p: Pt)
    requires done + [p] <= pts
    ensures Extend(XyKey(rnd), Pool(XyKey(rnd), done), p) == Pool(XyKey(rnd), done + [p])
    ensures Ref2(rnd, Pool(XyKey(rnd), done + [p]), p) == Ref2(rnd, Pool(XyKey(rnd), pts), p)
  {
    var kf := XyKey(rnd);
    PoolStep(kf, done, p);
    assert pts[..|done| + 1] == done + [p];
    assert pts[|done|] == p;
    RegisteredIndex(kf, pts, |done|);
    PoolPrefix(kf, pts, |done| + 1);
  }

  lemma MapStep<T, U>(f: T -> U, xs: seq<T>, i: nat)
    requires i < |xs|
    ensures Map(f, xs[..i + 1]) == Map(f, xs[..i]) + [f(xs[i])]
  {
  }

  lemma RegisterAt3(rnd: real -> real, pts: seq<Pt3>, done: seq<Pt3>, p: Pt3)
    requires done + [p] <= pts
    ensures Extend(XylKey(rnd), Pool(XylKey(rnd), done), p) == Pool(XylKey(rnd), done + [p])
    ensures Ref3(rnd, Pool(XylKey(rnd), done + [p]), p) == Ref3(rnd, Pool(XylKey(rnd), pts), p)
  {
    var kf := XylKey(rnd);
    PoolStep(kf, done, p);
    assert pts[..|done| + 1] == done + [p];
    assert pts[|done|] == p;
    RegisteredIndex(kf, pts, |done|);
    PoolPrefix(kf, pts, |done| + 1);
  }
}
