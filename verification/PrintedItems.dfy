/** What the printed board and the printed geometry show of each item the engine lists. */
module PrintedItems {
  import opened Decimal
  import opened IntSets
  import opened Dedup
  import opened Csr
  import opened StableSort
  import opened Observation
  import opened BoardContext
  import opened NetGeometries
  import opened PointIdentity

  ghost predicate At(rnd: real -> real, p: Pt, q: Point2D) { rnd(q.x) == rnd(p.x) && rnd(q.y) == rnd(p.y) }

  lemma {:induction false} FilterHas<T>(p: T -> bool, xs: seq<T>, x: T)
    requires x in xs && p(x)
    ensures x in Filter(p, xs)
  {
    if x != xs[|xs| - 1] {
      assert x in xs[..|xs| - 1];
      FilterHas(p, xs[..|xs| - 1], x);
    }
  }

  // --- the board ----------------------------------------------------------------------------------------------------------

  /** The rectangle shows the pad: where it lies, its width and height, its layer and its shape. */
  ghost predicate Shows(rnd: real -> real, p: PadItem, outline: seq<Pt>, q: Rectangle) {
    At(rnd, p.center, q.center) && q.width == p.width && q.height == p.height && q.layer == p.layer && q.shape == p.shape && q.pts == outline
  }

  /** The pad belongs to a net that is to be routed. */
  predicate ToRoute(target: Option<set<int>>, p: PadItem) { p.netCode > 0 && (target.None? || p.netCode in target.value) }

  ghost predicate ShownInNet(rnd: real -> real, c: BoardStatic, p: PadItem) {
    exists j, k :: 0 <= j < |c.nets| && 0 <= k < |c.nets[j].1.pads| && c.nets[j].0 == p.netCode && Shows(rnd, p, [], c.nets[j].1.pads[k])
  }

  ghost predicate ShownUnconnected(rnd: real -> real, c: BoardStatic, p: PadItem) {
    exists k :: 0 <= k < |c.unconnectedPads| && Shows(rnd, p, [], c.unconnectedPads[k])
  }

  /** What the board is printed from. */
  datatype Input = Input(meta: Meta, pads: seq<PadItem>, edges: seq<EdgeItem>, names: map<int, string>, constraints: Json,
                         obstacles: seq<PadItem>, target: Option<set<int>>)
  {
    function Raw(): RawBoard { RawBoardOf(meta, pads, edges, names, constraints, obstacles, target) }
  }

  /** The rectangle shows a pad of that net that is to be routed; or one that is not. */
  ghost predicate FromNetPad(rnd: real -> real, i: Input, code: int, q: Rectangle) {
    exists m :: 0 <= m < |i.pads| && ToRoute(i.target, i.pads[m]) && i.pads[m].netCode == code && Shows(rnd, i.pads[m], [], q)
  }

  ghost predicate FromOtherPad(rnd: real -> real, i: Input, q: Rectangle) {
    exists m :: 0 <= m < |i.pads| && !ToRoute(i.target, i.pads[m]) && Shows(rnd, i.pads[m], [], q)
  }

  lemma RectShown(rnd: real -> real, b: RawBoard, p: PadItem, r: RawRect, q: Rectangle)
    requires r == RawRect(p.center, p.width, p.height, p.layer, p.shape, r.pts)
    requires q == RectOf(rnd, BoardPool(rnd, b), q.id, r) && InContext(b, ContextOf(rnd, b), p.center, q.center)
    ensures Shows(rnd, p, r.pts, q)
  {
    ContextIdsTell(rnd, b, p.center, q.center, p.center, q.center);
    hide InContext, ContextOf, BoardPool, Ref2, PrintsAs;
  }

  lemma NetPadShown(rnd: real -> real, i: Input, j: nat, k: nat)
    requires j < |i.Raw().nets| && k < |i.Raw().nets[j].pads|
    ensures var mine, c := PadsOfNet(RoutablePads(i.target, i.pads), i.Raw().nets[j].code), ContextOf(rnd, i.Raw());
      j < |c.nets| && k < |c.nets[j].1.pads| && k < |mine| && Shows(rnd, mine[k], [], c.nets[j].1.pads[k])
  {
    var b := i.Raw();
    var c := ContextOf(rnd, b);
    var mine := PadsOfNet(RoutablePads(i.target, i.pads), b.nets[j].code);
    hide BoardPool, RoutablePads, PadsOfNet, NetOrder, UnconnectedPads, Ref2, Start, InContext;
    assert b.nets[j].pads[k] == PadRect(mine[k]);
    assert c.nets[j] == NetOf(rnd, BoardPool(rnd, b), Start(PadGroups(b.nets), j), b.nets[j]);
    assert InContext(b, c, mine[k].center, c.nets[j].1.pads[k].center) by { NetPadIn(rnd, b, j, k); }
    RectShown(rnd, b, mine[k], b.nets[j].pads[k], c.nets[j].1.pads[k]);
  }

  lemma NetPadIn(rnd: real -> real, b: RawBoard, j: nat, k: nat)
    requires j < |b.nets| && k < |b.nets[j].pads|
    ensures var c := ContextOf(rnd, b);
      j < |c.nets| && k < |c.nets[j].1.pads| && InContext(b, c, b.nets[j].pads[k].center, c.nets[j].1.pads[k].center)
  {
    ContextIsWhole(rnd, b);
    hide ContextOf;
  }

  /** Every pad of a net to be routed is printed in that net, with its sizes, layer and shape, and nothing else is. */
  lemma NetPadsArePrinted(rnd: real -> real, i: Input)
    ensures var c := ContextOf(rnd, i.Raw());
      && (forall k | 0 <= k < |i.pads| && ToRoute(i.target, i.pads[k]) :: ShownInNet(rnd, c, i.pads[k]))
      && (forall j, k | 0 <= j < |c.nets| && 0 <= k < |c.nets[j].1.pads| ::
            FromNetPad(rnd, i, c.nets[j].0, c.nets[j].1.pads[k]))
  {
    hide *;
    var c := ContextOf(rnd, i.Raw());
    forall j, k | 0 <= j < |c.nets| && 0 <= k < |c.nets[j].1.pads|
      ensures FromNetPad(rnd, i, c.nets[j].0, c.nets[j].1.pads[k])
    {
      NetPadFrom(rnd, i, j, k);
    }
    forall k | 0 <= k < |i.pads| && ToRoute(i.target, i.pads[k])
      ensures ShownInNet(rnd, c, i.pads[k])
    {
      RoutedPadShown(rnd, i, k);
    }
  }

  lemma NetPadFrom(rnd: real -> real, i: Input, j: nat, k: nat)
    requires var c := ContextOf(rnd, i.Raw()); j < |c.nets| && k < |c.nets[j].1.pads|
    ensures var c := ContextOf(rnd, i.Raw());
      FromNetPad(rnd, i, c.nets[j].0, c.nets[j].1.pads[k])
  {
    var routable := RoutablePads(i.target, i.pads);
    ContextIsWhole(rnd, i.Raw());
    hide ContextOf, Shows, Filter, NetOrder, UnconnectedPads;
    NetPadShown(rnd, i, j, k);
    var p := PadsOfNet(routable, i.Raw().nets[j].code)[k];
    assert p in routable && p in i.pads && ToRoute(i.target, p);
    var m :| 0 <= m < |i.pads| && i.pads[m] == p;
  }

  lemma RoutedPadShown(rnd: real -> real, i: Input, m: nat)
    requires m < |i.pads| && ToRoute(i.target, i.pads[m])
    ensures ShownInNet(rnd, ContextOf(rnd, i.Raw()), i.pads[m])
  {
    var b, p := i.Raw(), i.pads[m];
    var routable := RoutablePads(i.target, i.pads);
    FilterHas((q: PadItem) => Routable(i.target, q), i.pads, p);
    var at :| 0 <= at < |routable| && routable[at] == p;
    OrderMember(routable, p.netCode);
    var codes := NetOrder(routable);
    var j :| 0 <= j < |codes| && codes[j] == p.netCode;
    FilterHas((q: PadItem) => q.netCode == p.netCode, routable, p);
    var mine := PadsOfNet(routable, p.netCode);
    var k :| 0 <= k < |mine| && mine[k] == p;
    assert b.nets[j].code == p.netCode && |b.nets[j].pads| == |mine|;
    ContextIsWhole(rnd, b);
    NetPadShown(rnd, i, j, k);
    hide ContextOf, Shows, PadsOfNet, RoutablePads, NetOrder;
  }

  /** Every other pad is printed unconnected, and every obstacle, in order, with its outline. */
  lemma OtherPadsArePrinted(rnd: real -> real, i: Input)
    ensures var c := ContextOf(rnd, i.Raw());
      && (forall k | 0 <= k < |i.pads| && !ToRoute(i.target, i.pads[k]) :: ShownUnconnected(rnd, c, i.pads[k]))
      && (forall k | 0 <= k < |c.unconnectedPads| :: FromOtherPad(rnd, i, c.unconnectedPads[k]))
      && |c.obstacles| == |i.obstacles|
      && (forall k | 0 <= k < |i.obstacles| :: Shows(rnd, i.obstacles[k], i.obstacles[k].pts, c.obstacles[k]))
  {
    hide *;
    var c := ContextOf(rnd, i.Raw());
    ContextCounts(rnd, i);
    forall k | 0 <= k < |c.unconnectedPads|
      ensures FromOtherPad(rnd, i, c.unconnectedPads[k])
    {
      UnconnectedFrom(rnd, i, k);
    }
    forall k | 0 <= k < |i.obstacles|
      ensures Shows(rnd, i.obstacles[k], i.obstacles[k].pts, c.obstacles[k])
    {
      ObstacleShown(rnd, i, k);
    }
    forall m | 0 <= m < |i.pads| && !ToRoute(i.target, i.pads[m])
      ensures ShownUnconnected(rnd, c, i.pads[m])
    {
      OtherPadShown(rnd, i, m);
    }
  }

  lemma ContextCounts(rnd: real -> real, i: Input)
    ensures var c := ContextOf(rnd, i.Raw());
      |c.obstacles| == |i.obstacles| && |c.unconnectedPads| == |UnconnectedPads(i.target, i.pads)|
  {
    ContextIsWhole(rnd, i.Raw());
    hide ContextOf, UnconnectedPads, RoutablePads;
  }

  lemma UnconnectedShown(rnd: real -> real, i: Input, k: nat)
    requires k < |UnconnectedPads(i.target, i.pads)|
    ensures var c := ContextOf(rnd, i.Raw());
      k < |c.unconnectedPads| && Shows(rnd, UnconnectedPads(i.target, i.pads)[k], [], c.unconnectedPads[k])
  {
    var b := i.Raw();
    ContextCounts(rnd, i);
    hide BoardPool, Ref2, UnconnectedPads, RoutablePads, NetOrder, Shows, Start;
    var p, c := UnconnectedPads(i.target, i.pads)[k], ContextOf(rnd, b);
    assert b.upads[k] == PadRect(p) && c.unconnectedPads[k] == RectOf(rnd, BoardPool(rnd, b), c.unconnectedPads[k].id, b.upads[k]);
    RectShown(rnd, b, p, b.upads[k], c.unconnectedPads[k]);
  }

  lemma UnconnectedFrom(rnd: real -> real, i: Input, k: nat)
    requires k < |ContextOf(rnd, i.Raw()).unconnectedPads|
    ensures FromOtherPad(rnd, i, ContextOf(rnd, i.Raw()).unconnectedPads[k])
  {
    ContextCounts(rnd, i);
    UnconnectedShown(rnd, i, k);
    hide ContextOf, Shows, Filter;
    var p := UnconnectedPads(i.target, i.pads)[k];
    assert p in i.pads && !ToRoute(i.target, p);
    var m :| 0 <= m < |i.pads| && i.pads[m] == p;
  }

  lemma OtherPadShown(rnd: real -> real, i: Input, m: nat)
    requires m < |i.pads| && !ToRoute(i.target, i.pads[m])
    ensures ShownUnconnected(rnd, ContextOf(rnd, i.Raw()), i.pads[m])
  {
    FilterHas((q: PadItem) => !Routable(i.target, q), i.pads, i.pads[m]);
    var others := UnconnectedPads(i.target, i.pads);
    var k :| 0 <= k < |others| && others[k] == i.pads[m];
    UnconnectedShown(rnd, i, k);
    hide ContextOf, Shows, Filter;
  }

  lemma ObstacleShown(rnd: real -> real, i: Input, k: nat)
    requires k < |i.obstacles|
    ensures k < |ContextOf(rnd, i.Raw()).obstacles|
    ensures Shows(rnd, i.obstacles[k], i.obstacles[k].pts, ContextOf(rnd, i.Raw()).obstacles[k])
  {
    var b := i.Raw();
    ContextCounts(rnd, i);
    hide BoardPool, Ref2, UnconnectedPads, RoutablePads, NetOrder, Shows, Start;
    var p, c := i.obstacles[k], ContextOf(rnd, b);
    assert b.obstacles[k] == ObstacleRect(p) && c.obstacles[k] == RectOf(rnd, BoardPool(rnd, b), c.obstacles[k].id, b.obstacles[k]);
    RectShown(rnd, b, p, b.obstacles[k], c.obstacles[k]);
  }

  /** Edges are printed in order, on the edge layer, with their ends, midpoints and widths; each net under its own code
      and name; and the board's box never smaller than a micrometre in width or height. */
  lemma RestIsPrinted(rnd: real -> real, i: Input)
    ensures var c := ContextOf(rnd, i.Raw());
      && |c.boardlines| == |i.edges|
      && (forall k | 0 <= k < |i.edges| ::
            && At(rnd, i.edges[k].p1, c.boardlines[k].p1) && At(rnd, i.edges[k].p2, c.boardlines[k].p2)
            && c.boardlines[k].width == i.edges[k].width && c.boardlines[k].layer == 44
            && (c.boardlines[k].mid.Some? <==> i.edges[k].mid.Some?)
            && (i.edges[k].mid.Some? ==> At(rnd, i.edges[k].mid.value, c.boardlines[k].mid.value)))
      && (forall j | 0 <= j < |c.nets| ::
            && c.nets[j].1.netCode == c.nets[j].0
            && c.nets[j].1.netName == if c.nets[j].0 in i.names then i.names[c.nets[j].0] else NetKey(c.nets[j].0))
      && c.boardConstraints == i.constraints
      && c.meta == i.meta.(bboxW := c.meta.bboxW, bboxH := c.meta.bboxH, scale := c.meta.scale)
      && c.meta.bboxW == (if i.meta.bboxW < 0.000001 then 0.000001 else i.meta.bboxW)
      && c.meta.bboxH == (if i.meta.bboxH < 0.000001 then 0.000001 else i.meta.bboxH)
      && c.meta.scale == if c.meta.bboxW < c.meta.bboxH then c.meta.bboxH else c.meta.bboxW
  {
    var b := i.Raw();
    var c := ContextOf(rnd, b);
    forall k | 0 <= k < |i.edges|
      ensures At(rnd, i.edges[k].p1, c.boardlines[k].p1) && At(rnd, i.edges[k].p2, c.boardlines[k].p2)
      ensures i.edges[k].mid.Some? ==> At(rnd, i.edges[k].mid.value, c.boardlines[k].mid.value)
    {
      EdgeShown(rnd, b, k);
    }
    hide BoardPool, Ref2, At, RectsOf, Start, PadGroups, RoutablePads, PadsOfNet, NetOrder, UnconnectedPads;
  }

  lemma EdgeShown(rnd: real -> real, b: RawBoard, k: nat)
    requires k < |b.edges|
    ensures var c, e := ContextOf(rnd, b), b.edges[k];
      && k < |c.boardlines| && At(rnd, e.p1, c.boardlines[k].p1) && At(rnd, e.p2, c.boardlines[k].p2)
      && (e.mid.Some? ==> c.boardlines[k].mid.Some? && At(rnd, e.mid.value, c.boardlines[k].mid.value))
  {
    var c, e := ContextOf(rnd, b), b.edges[k];
    ContextIsWhole(rnd, b);
    hide ContextOf, PrintsAs, BoardPts;
    var l := c.boardlines[k];
    assert EdgePrints(e, l, e.p1, l.p1) && EdgePrints(e, l, e.p2, l.p2);
    ContextIdsTell(rnd, b, e.p1, l.p1, e.p2, l.p2);
    if e.mid.Some? {
      assert EdgePrints(e, l, e.mid.value, l.mid.value);
      ContextIdsTell(rnd, b, e.mid.value, l.mid.value, e.p2, l.p2);
    }
  }

  // --- the geometry -------------------------------------------------------------------------------------------------------

  /** A layer as the policy numbers it: the board's own without a map, 1 for one the map does not have. */
  function LayerShown(lm: Option<map<int, int>>, layer: int): int {
    if lm.None? then layer else if layer in lm.value then lm.value[layer] else 1
  }

  ghost predicate ShowsTrack(rnd: real -> real, lm: Option<map<int, int>>, t: TrackItem, l: Line) {
    At(rnd, t.p1, l.p1) && At(rnd, t.p2, l.p2) && l.width == t.width && l.layer == LayerShown(lm, t.layer)
  }

  ghost predicate ShowsVia(rnd: real -> real, lm: Option<map<int, int>>, v: ViaItem, u: Via) {
    && At(rnd, v.center, u.center) && u.viaWidth == v.diameter
    && u.layerStart == LayerShown(lm, v.topLayer) && u.layerEnd == LayerShown(lm, v.bottomLayer)
  }

  /** An end of a ratsnest edge: on layer 1 when the engine reports none, on 0 when it spans the copper. */
  ghost predicate ShowsEnd(rnd: real -> real, lm: Option<map<int, int>>, reported: bool, p: Pt, layer: int, q: Point3D) {
    && rnd(q.x) == rnd(p.x) && rnd(q.y) == rnd(p.y)
    && q.layer == if !reported then 1 else if layer < 0 then 0 else LayerShown(lm, layer)
  }

  ghost predicate ShowsEdge(rnd: real -> real, lm: Option<map<int, int>>, e: RatsEdge, q1: Point3D, q2: Point3D) {
    && ShowsEnd(rnd, lm, e.layer1.Some?, e.p1, if e.layer1.Some? then e.layer1.value else 0, q1)
    && ShowsEnd(rnd, lm, e.layer1.Some?, e.p2, e.layer2, q2)
  }

  function NetGeometryOf(rnd: real -> real, s: Snapshot, lm: Option<map<int, int>>, target: Option<set<int>>, code: int): NetGeometry {
    GeometryOf(rnd, RawGeometryOf(s, lm, target, code))
  }

  lemma CountSorted<T>(key: T -> seq<real>, code: T -> int, c: int, xs: seq<T>, x: T)
    ensures multiset(SortBy(key, OfCode(code, c, xs)))[x] == if code(x) == c then multiset(xs)[x] else 0
  {
    SortIsSortedPermutation(key, OfCode(code, c, xs));
    FilterCount(y => code(y) == c, xs, x);
  }

  lemma TrackAt(rnd: real -> real, s: Snapshot, lm: Option<map<int, int>>, target: Option<set<int>>, code: int, k: nat)
    requires k < |SortedTracks(s, code)|
    ensures var n := NetGeometryOf(rnd, s, lm, target, code);
      |n.tracks| == |SortedTracks(s, code)| && ShowsTrack(rnd, lm, SortedTracks(s, code)[k], n.tracks[k])
  {
    var g := RawGeometryOf(s, lm, target, code);
    var n, t := GeometryOf(rnd, g), SortedTracks(s, code)[k];
    hide SortedTracks, SortedVias, SortedRats, NetPool, Ref2, PrintsAs, NetPts;
    assert g.tracks[k] == TrackRowOf(lm, t);
    GeometryIdsTell(rnd, g, t.p1, n.tracks[k].p1, t.p2, n.tracks[k].p2);
  }

  lemma ViaAt(rnd: real -> real, s: Snapshot, lm: Option<map<int, int>>, target: Option<set<int>>, code: int, k: nat)
    requires k < |SortedVias(s, code)|
    ensures var n := NetGeometryOf(rnd, s, lm, target, code);
      |n.vias| == |SortedVias(s, code)| && ShowsVia(rnd, lm, SortedVias(s, code)[k], n.vias[k])
  {
    var g := RawGeometryOf(s, lm, target, code);
    var n, v := GeometryOf(rnd, g), SortedVias(s, code)[k];
    hide SortedTracks, SortedVias, SortedRats, NetPool, Ref2, PrintsAs, NetPts;
    assert g.vias[k] == ViaRowOf(lm, v);
    GeometryIdsTell(rnd, g, v.center, n.vias[k].center, v.center, n.vias[k].center);
  }

  lemma {:induction false} EndsAt(lm: Option<map<int, int>>, es: seq<RatsEdge>, k: nat)
    requires k < |es|
    ensures |RatsPoints(lm, es)| == 2 * |es|
    ensures RatsPoints(lm, es)[2 * k] == RatsEnds(lm, es[k])[0] && RatsPoints(lm, es)[2 * k + 1] == RatsEnds(lm, es[k])[1]
  {
    var init := es[..|es| - 1];
    RatsStep(lm, es, |es| - 1);
    assert es[..|es| - 1 + 1] == es;
    NothingYet(lm, es, []);
    hide RatsPoints, RatsEnds;
    if k < |init| {
      assert init[k] == es[k];
      EndsAt(lm, init, k);
    } else if init != [] {
      EndsAt(lm, init, 0);
    } else {
      assert init == es[..0];
    }
  }

  lemma EdgeAt(rnd: real -> real, s: Snapshot, lm: Option<map<int, int>>, target: Option<set<int>>, code: int, k: nat)
    requires k < |SortedRats(s, target, code)|
    ensures var n, es := NetGeometryOf(rnd, s, lm, target, code), SortedRats(s, target, code);
      |n.points| == 2 * |es| && ShowsEdge(rnd, lm, es[k], n.points[2 * k], n.points[2 * k + 1])
  {
    var g := RawGeometryOf(s, lm, target, code);
    var es := SortedRats(s, target, code);
    hide SortedTracks, SortedVias, SortedRats, NetPool, PrintsAs3, RatsPoints;
    EndsAt(lm, es, k);
    RatsnestIdsTell(rnd, g, 2 * k, 2 * k + 1);
    RatsnestIdsTell(rnd, g, 2 * k + 1, 2 * k);
  }

  // --- every net --------------------------------------------------------------------------------------------------------------

  /** Which nets are printed: those with a track, a via or an edge to route, each once, in ascending code. */
  lemma NetsArePrinted(rnd: real -> real, s: Snapshot, lm: Option<map<int, int>>, target: Option<set<int>>)
    ensures var gs := GeometriesOf(rnd, RawGeometriesOf(s, lm, target));
      && (forall i, j | 0 <= i < j < |gs| :: gs[i].0 < gs[j].0)
      && (forall j | 0 <= j < |gs| :: gs[j].1 == NetGeometryOf(rnd, s, lm, target, gs[j].0))
      && (forall code :: (exists j :: 0 <= j < |gs| && gs[j].0 == code) <==> HasItems(s, target, code))
  {
    var codes := Ascending(NetCodes(s, target));
    var gs := GeometriesOf(rnd, RawGeometriesOf(s, lm, target));
    assert forall j | 0 <= j < |codes| :: gs[j] == (codes[j], NetGeometryOf(rnd, s, lm, target, codes[j]));
    forall code
      ensures (exists j :: 0 <= j < |gs| && gs[j].0 == code) <==> HasItems(s, target, code)
    {
      CodeIsShown(s, target, code);
      if code in NetCodes(s, target) {
        var j :| 0 <= j < |codes| && codes[j] == code;
        assert gs[j].0 == code;
      }
      hide NetCodes;
    }
    hide NetGeometryOf, RawGeometryOf, GeometriesOf, RawGeometriesOf, HasItems;
  }

  predicate ToConnect(target: Option<set<int>>, e: RatsEdge) { e.netCode > 0 && (target.None? || e.netCode in target.value) }

  ghost predicate HasItems(s: Snapshot, target: Option<set<int>>, code: int) {
    || (exists i :: 0 <= i < |s.tracks| && s.tracks[i].netCode == code && code > 0)
    || (exists i :: 0 <= i < |s.vias| && s.vias[i].netCode == code && code > 0)
    || (exists i :: 0 <= i < |s.ratsnest| && s.ratsnest[i].netCode == code && ToConnect(target, s.ratsnest[i]))
  }

  lemma CodeIsShown(s: Snapshot, target: Option<set<int>>, code: int)
    ensures code in NetCodes(s, target) <==> HasItems(s, target, code)
  {
    if code in NetCodes(s, target) {
      if t :| t in s.tracks && t.netCode > 0 && t.netCode == code {
        var i :| 0 <= i < |s.tracks| && s.tracks[i] == t;
      } else if v :| v in s.vias && v.netCode > 0 && v.netCode == code {
        var i :| 0 <= i < |s.vias| && s.vias[i] == v;
      } else {
        var e :| e in s.ratsnest && InScope(target, e.netCode) && e.netCode == code;
        var i :| 0 <= i < |s.ratsnest| && s.ratsnest[i] == e;
      }
    }
  }

  /** A printed net shows its tracks, vias and edges to route, each once, and nothing else: line k is the k-th of its
      tracks in sorted order, and so on; an edge shows as two points in a row. */
  lemma ItemsArePrinted(rnd: real -> real, s: Snapshot, lm: Option<map<int, int>>, target: Option<set<int>>, code: int)
    ensures var n := NetGeometryOf(rnd, s, lm, target, code);
      && |n.tracks| == |SortedTracks(s, code)| && |n.vias| == |SortedVias(s, code)| && |n.points| == 2 * |SortedRats(s, target, code)|
      && (forall k | 0 <= k < |n.tracks| :: ShowsTrack(rnd, lm, SortedTracks(s, code)[k], n.tracks[k]))
      && (forall k | 0 <= k < |n.vias| :: ShowsVia(rnd, lm, SortedVias(s, code)[k], n.vias[k]))
      && (forall k | 0 <= k < |SortedRats(s, target, code)| :: ShowsEdge(rnd, lm, SortedRats(s, target, code)[k], n.points[2 * k], n.points[2 * k + 1]))
    ensures forall t :: multiset(SortedTracks(s, code))[t] == if t.netCode == code then multiset(s.tracks)[t] else 0
    ensures forall v :: multiset(SortedVias(s, code))[v] == if v.netCode == code then multiset(s.vias)[v] else 0
    ensures forall e ::
      multiset(SortedRats(s, target, code))[e] == if e.netCode == code && ToConnect(target, e) then multiset(s.ratsnest)[e] else 0
  {
    var n := NetGeometryOf(rnd, s, lm, target, code);
    PrintedCounts(rnd, s, lm, target, code);
    forall k | 0 <= k < |n.tracks| ensures ShowsTrack(rnd, lm, SortedTracks(s, code)[k], n.tracks[k]) {
      TrackAt(rnd, s, lm, target, code, k);
    }
    forall k | 0 <= k < |n.vias| ensures ShowsVia(rnd, lm, SortedVias(s, code)[k], n.vias[k]) {
      ViaAt(rnd, s, lm, target, code, k);
    }
    forall k | 0 <= k < |SortedRats(s, target, code)|
      ensures ShowsEdge(rnd, lm, SortedRats(s, target, code)[k], n.points[2 * k], n.points[2 * k + 1])
    {
      EdgeAt(rnd, s, lm, target, code, k);
    }
    forall t ensures multiset(SortedTracks(s, code))[t] == if t.netCode == code then multiset(s.tracks)[t] else 0 {
      CountSorted(TrackKey, TrackCode, code, s.tracks, t);
    }
    forall v ensures multiset(SortedVias(s, code))[v] == if v.netCode == code then multiset(s.vias)[v] else 0 {
      CountSorted(ViaKey, ViaCode, code, s.vias, v);
    }
    forall e
      ensures multiset(SortedRats(s, target, code))[e] == if e.netCode == code && ToConnect(target, e) then multiset(s.ratsnest)[e] else 0
    {
      CountSorted(RatsKey, RatsCode, code, s.ratsnest, e);
    }
    hide NetGeometryOf, ShowsTrack, ShowsVia, ShowsEdge, SortBy;
  }

  lemma PrintedCounts(rnd: real -> real, s: Snapshot, lm: Option<map<int, int>>, target: Option<set<int>>, code: int)
    ensures var n := NetGeometryOf(rnd, s, lm, target, code);
      && |n.tracks| == |SortedTracks(s, code)| && |n.vias| == |SortedVias(s, code)| && |n.points| == 2 * |SortedRats(s, target, code)|
  {
    var es := SortedRats(s, target, code);
    if es != [] {
      EndsAt(lm, es, 0);
    } else {
      NothingYet(lm, es, []);
      assert es[..0] == es;
    }
    hide SortedTracks, SortedVias, SortedRats, RatsPoints, NetPool, Ref2, Ref3;
  }

  // --- their order ------------------------------------------------------------------------------------------------------------

  /** Tracks go by layer, then by their ends, then by width. */
  ghost predicate TrackNotAfter(a: TrackItem, b: TrackItem) {
    a.layer < b.layer || (a.layer == b.layer &&
      (a.p1.x < b.p1.x || (a.p1.x == b.p1.x &&
        (a.p1.y < b.p1.y || (a.p1.y == b.p1.y &&
          (a.p2.x < b.p2.x || (a.p2.x == b.p2.x &&
            (a.p2.y < b.p2.y || (a.p2.y == b.p2.y && a.width <= b.width)))))))))
  }

  /** Vias go by their centre, then by their layers, then by diameter. */
  ghost predicate ViaNotAfter(a: ViaItem, b: ViaItem) {
    a.center.x < b.center.x || (a.center.x == b.center.x &&
      (a.center.y < b.center.y || (a.center.y == b.center.y &&
        (a.topLayer < b.topLayer || (a.topLayer == b.topLayer &&
          (a.bottomLayer < b.bottomLayer || (a.bottomLayer == b.bottomLayer && a.diameter <= b.diameter)))))))
  }

  /** Ratsnest edges go by their ends alone. */
  ghost predicate EdgeNotAfter(a: RatsEdge, b: RatsEdge) {
    a.p1.x < b.p1.x || (a.p1.x == b.p1.x &&
      (a.p1.y < b.p1.y || (a.p1.y == b.p1.y &&
        (a.p2.x < b.p2.x || (a.p2.x == b.p2.x && a.p2.y <= b.p2.y)))))
  }

  ghost predicate LeqFrom(a: seq<real>, b: seq<real>, i: nat)
    requires |a| == |b|
    decreases |a| - i
  {
    i >= |a| || a[i] < b[i] || (a[i] == b[i] && LeqFrom(a, b, i + 1))
  }

  lemma {:induction false} LeqFromIs(a: seq<real>, b: seq<real>, i: nat)
    requires |a| == |b| && i <= |a|
    ensures LeqFrom(a, b, i) <==> LexLeq(a[i..], b[i..])
    decreases |a| - i
  {
    if i < |a| {
      LeqFromIs(a, b, i + 1);
      assert a[i..][1..] == a[i + 1..] && b[i..][1..] == b[i + 1..];
    }
  }

  lemma Unfold(a: seq<real>, b: seq<real>, i: nat)
    requires |a| == |b| && i < |a|
    ensures LeqFrom(a, b, i) <==> a[i] < b[i] || (a[i] == b[i] && LeqFrom(a, b, i + 1))
    ensures LeqFrom(a, b, |a|) && (LeqFrom(a, b, 0) <==> LexLeq(a, b))
  {
    LeqFromIs(a, b, 0);
    assert a[0..] == a && b[0..] == b;
  }

  lemma TrackKeyTells(x: TrackItem, y: TrackItem)
    ensures LexLeq(TrackKey(x), TrackKey(y)) <==> TrackNotAfter(x, y)
  {
    var a, b := TrackKey(x), TrackKey(y);
    Unfold(a, b, 0);
    Unfold(a, b, 1);
    Unfold(a, b, 2);
    Unfold(a, b, 3);
    Unfold(a, b, 4);
    Unfold(a, b, 5);
    hide LeqFrom, LexLeq;
  }

  lemma ViaKeyTells(x: ViaItem, y: ViaItem)
    ensures LexLeq(ViaKey(x), ViaKey(y)) <==> ViaNotAfter(x, y)
  {
    var a, b := ViaKey(x), ViaKey(y);
    Unfold(a, b, 0);
    Unfold(a, b, 1);
    Unfold(a, b, 2);
    Unfold(a, b, 3);
    Unfold(a, b, 4);
    hide LeqFrom, LexLeq;
  }

  lemma EdgeKeyTells(x: RatsEdge, y: RatsEdge)
    ensures LexLeq(RatsKey(x), RatsKey(y)) <==> EdgeNotAfter(x, y)
  {
    var a, b := RatsKey(x), RatsKey(y);
    Unfold(a, b, 0);
    Unfold(a, b, 1);
    Unfold(a, b, 2);
    Unfold(a, b, 3);
    hide LeqFrom, LexLeq;
  }

  /** The order in which a net's items are printed. */
  lemma ItemsAreInOrder(s: Snapshot, target: Option<set<int>>, code: int)
    ensures forall i, j | 0 <= i < j < |SortedTracks(s, code)| :: TrackNotAfter(SortedTracks(s, code)[i], SortedTracks(s, code)[j])
    ensures forall i, j | 0 <= i < j < |SortedVias(s, code)| :: ViaNotAfter(SortedVias(s, code)[i], SortedVias(s, code)[j])
    ensures forall i, j | 0 <= i < j < |SortedRats(s, target, code)| ::
              EdgeNotAfter(SortedRats(s, target, code)[i], SortedRats(s, target, code)[j])
  {
    SortIsSortedPermutation(TrackKey, TracksOfNet(s, code));
    SortIsSortedPermutation(ViaKey, ViasOfNet(s, code));
    SortIsSortedPermutation(RatsKey, RatsOfNet(s, code));
    hide SortBy, LexLeq, TrackKey, ViaKey, RatsKey, TrackNotAfter, ViaNotAfter, EdgeNotAfter;
    forall x, y ensures LexLeq(TrackKey(x), TrackKey(y)) <==> TrackNotAfter(x, y) {
      TrackKeyTells(x, y);
    }
    forall x, y ensures LexLeq(ViaKey(x), ViaKey(y)) <==> ViaNotAfter(x, y) {
      ViaKeyTells(x, y);
    }
    forall x, y ensures LexLeq(RatsKey(x), RatsKey(y)) <==> EdgeNotAfter(x, y) {
      EdgeKeyTells(x, y);
    }
  }
}
