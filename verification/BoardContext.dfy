/** The static board context: `BoardStatic.from_board` against the board it is built from. */
module BoardContext {
  import opened Decimal
  import opened Dedup
  import opened Csr
  import opened StableSort
  import opened Observation

  // --- engine-side input ---------------------------------------------------------------------

  datatype EdgeItem = EdgeItem(p1: Pt, p2: Pt, mid: Option<Pt>, width: real)
  datatype PadItem = PadItem(netCode: int, center: Pt, width: real, height: real, layer: int,
                             shape: string, pts: seq<Pt>)

  // --- the board as plain data: what either observation form must carry -------------------------

  datatype RawRect = RawRect(center: Pt, width: real, height: real, layer: int, shape: string, pts: seq<Pt>)
  datatype RawNet = RawNet(code: int, name: string, pads: seq<RawRect>, constraints: Option<Json>)
  datatype RawBoard = RawBoard(meta: Meta, edges: seq<EdgeItem>, nets: seq<RawNet>,
                               obstacles: seq<RawRect>, upads: seq<RawRect>, boardConstraints: Json)

  function EdgePts(e: EdgeItem): seq<Pt> {
    [e.p1, e.p2] + (match e.mid case None => [] case Some(m) => [m])
  }

  function EdgesPts(es: seq<EdgeItem>): seq<Pt> {
    Flat(Map((e: EdgeItem) => EdgePts(e), es))
  }

  function RectPts(rs: seq<RawRect>): seq<Pt> {
    Map((r: RawRect) => r.center, rs)
  }

  function PadGroups(nets: seq<RawNet>): (groups: seq<seq<RawRect>>)
    ensures |groups| == |nets|
  {
    Map((n: RawNet) => n.pads, nets)
  }

  function AllPads(nets: seq<RawNet>): seq<RawRect> {
    Flat(PadGroups(nets))
  }

  /** Every static point in registration order: edges, pads net by net, obstacles, unconnected pads. */
  function BoardPts(b: RawBoard): seq<Pt> {
    EdgesPts(b.edges) + RectPts(AllPads(b.nets)) + RectPts(b.obstacles) + RectPts(b.upads)
  }

  function BoardPool(rnd: real -> real, b: RawBoard): seq<Pt> {
    Pool(XyKey(rnd), BoardPts(b))
  }

  // --- what the built context is ---------------------------------------------------------------

  function EdgeLine(rnd: real -> real, pool: seq<Pt>, i: nat, e: EdgeItem): Line {
    Line("E" + Print(i), Ref2(rnd, pool, e.p1), Ref2(rnd, pool, e.p2), e.width, 44,
         match e.mid case None => None case Some(m) => Some(Ref2(rnd, pool, m)))
  }

  function EdgeLines(rnd: real -> real, pool: seq<Pt>, es: seq<EdgeItem>): (ls: seq<Line>)
    ensures |ls| == |es| && forall i | 0 <= i < |es| :: ls[i] == EdgeLine(rnd, pool, i, es[i])
  {
    seq(|es|, i requires 0 <= i < |es| => EdgeLine(rnd, pool, i, es[i]))
  }

  function RectOf(rnd: real -> real, pool: seq<Pt>, id: string, r: RawRect): Rectangle {
    Rectangle(id, Ref2(rnd, pool, r.center), r.width, r.height, r.layer, r.shape, r.pts)
  }

  /** Rectangles with ids numbered from `base`. */
  function RectsOf(rnd: real -> real, pool: seq<Pt>, prefix: char, base: nat, rs: seq<RawRect>): (qs: seq<Rectangle>)
    ensures |qs| == |rs| && forall i | 0 <= i < |rs| :: qs[i] == RectOf(rnd, pool, [prefix] + Print(base + i), rs[i])
  {
    seq(|rs|, i requires 0 <= i < |rs| => RectOf(rnd, pool, [prefix] + Print(base + i), rs[i]))
  }

  function NetOf(rnd: real -> real, pool: seq<Pt>, base: nat, n: RawNet): (int, NetContext) {
    (n.code, NetContext(n.code, n.name, RectsOf(rnd, pool, 'D', base, n.pads), n.constraints))
  }

  function NetsOf(rnd: real -> real, pool: seq<Pt>, nets: seq<RawNet>): (cs: seq<(int, NetContext)>)
    ensures |cs| == |nets|
    ensures forall j | 0 <= j < |nets| :: cs[j] == NetOf(rnd, pool, Start(PadGroups(nets), j), nets[j])
  {
    seq(|nets|, j requires 0 <= j < |nets| => NetOf(rnd, pool, Start(PadGroups(nets), j), nets[j]))
  }

  /** The context of a board: every point printed as its entry in the one board-wide pool, edges,
      pads, obstacles and unconnected pads each numbered through. */
  function ContextOf(rnd: real -> real, b: RawBoard): BoardStatic {
    var pool := BoardPool(rnd, b);
    BoardStatic(b.meta, EdgeLines(rnd, pool, b.edges), NetsOf(rnd, pool, b.nets),
                RectsOf(rnd, pool, 'O', 0, b.obstacles), RectsOf(rnd, pool, 'U', 0, b.upads),
                b.boardConstraints)
  }

  // --- the input as plain data -------------------------------------------------------------------

  function MaxR(a: real, b: real): real { if a < b then b else a }

  function StaticMeta(m: Meta): Meta {
    var w, h := MaxR(m.bboxW, 0.000001), MaxR(m.bboxH, 0.000001);
    m.(bboxW := w, bboxH := h, scale := MaxR(w, h))
  }

  predicate Routable(target: Option<set<int>>, p: PadItem) {
    p.netCode > 0 && (target.None? || p.netCode in target.value)
  }

  function PadRect(p: PadItem): RawRect { RawRect(p.center, p.width, p.height, p.layer, p.shape, []) }
  function ObstacleRect(p: PadItem): RawRect { RawRect(p.center, p.width, p.height, p.layer, p.shape, p.pts) }

  function RoutablePads(target: Option<set<int>>, pads: seq<PadItem>): seq<PadItem> {
    Filter((p: PadItem) => Routable(target, p), pads)
  }

  function UnconnectedPads(target: Option<set<int>>, pads: seq<PadItem>): seq<PadItem> {
    Filter((p: PadItem) => !Routable(target, p), pads)
  }

  /** Net codes in the order their first pad appears. */
  function NetOrder(pads: seq<PadItem>): seq<int> {
    Pool((c: int) => c, Map((p: PadItem) => p.netCode, pads))
  }

  function PadsOfNet(pads: seq<PadItem>, code: int): seq<PadItem> {
    Filter((p: PadItem) => p.netCode == code, pads)
  }

  function NetName(names: map<int, string>, code: int): string {
    if code in names then names[code] else NetKey(code)
  }

  function RawNetOf(names: map<int, string>, pads: seq<PadItem>, code: int): RawNet {
    RawNet(code, NetName(names, code), Map((p: PadItem) => PadRect(p), PadsOfNet(pads, code)), None)
  }

  function RawNetsOf(names: map<int, string>, pads: seq<PadItem>, codes: seq<int>): seq<RawNet> {
    Map((c: int) => RawNetOf(names, pads, c), codes)
  }

  function RawBoardOf(meta: Meta, pads: seq<PadItem>, edges: seq<EdgeItem>, names: map<int, string>,
                      constraints: Json, obstacles: seq<PadItem>, target: Option<set<int>>): RawBoard {
    var routable := RoutablePads(target, pads);
    RawBoard(StaticMeta(meta), edges,
             RawNetsOf(names, routable, NetOrder(routable)),
             Map((p: PadItem) => ObstacleRect(p), obstacles),
             Map((p: PadItem) => PadRect(p), UnconnectedPads(target, pads)), constraints)
  }

  // --- registration steps --------------------------------------------------------------------------

  lemma EdgesStep(es: seq<EdgeItem>, i: nat)
    requires i < |es|
    ensures EdgesPts(es[..i + 1]) == EdgesPts(es[..i]) + EdgePts(es[i])
    ensures EdgesPts(es[..i + 1]) <= EdgesPts(es)
  {
    var f := (e: EdgeItem) => EdgePts(e);
    MapStep(f, es, i);
    FlatStep(Map(f, es[..i]), EdgePts(es[i]));
    FlatPrefix(Map(f, es), i + 1);
    assert Map(f, es)[..i + 1] == Map(f, es[..i + 1]);
  }

  lemma EmptyPool(es: seq<EdgeItem>)
    ensures EdgesPts(es[..0]) == []
  {
  }

  lemma EdgePtsAre(done: seq<Pt>, e: EdgeItem)
    ensures done + EdgePts(e)
         == if e.mid.Some? then ((done + [e.p1]) + [e.p2]) + [e.mid.value] else (done + [e.p1]) + [e.p2]
  {
  }

  lemma AllPadsStep(nets: seq<RawNet>, j: nat)
    requires j < |nets|
    ensures AllPads(nets[..j + 1]) == AllPads(nets[..j]) + nets[j].pads
    ensures AllPads(nets[..j + 1]) <= AllPads(nets)
    ensures |AllPads(nets[..j])| == Start(PadGroups(nets), j)
  {
    assert PadGroups(nets)[..j] == PadGroups(nets[..j]);
    assert PadGroups(nets)[..j + 1] == PadGroups(nets[..j]) + [nets[j].pads];
    assert PadGroups(nets[..j + 1]) == PadGroups(nets)[..j + 1];
    FlatStep(PadGroups(nets[..j]), nets[j].pads);
    FlatPrefix(PadGroups(nets), j + 1);
  }

  lemma RectPtsConcat(a: seq<RawRect>, b: seq<RawRect>)
    ensures RectPts(a + b) == RectPts(a) + RectPts(b)
  {
  }

  /** One list of pad-shaped items registered in order, numbered on from the prefix's counter. */
  method RegisterRects(alloc: IDAllocator, prefix: char, items: seq<RawRect>,
                       ghost rnd: real -> real, ghost pts: seq<Pt>, ghost done: seq<Pt>)
    returns (rects: seq<Rectangle>)
    requires alloc.At(done) && rnd == alloc.rnd && prefix != 'P' && prefix != 'Q'
    requires done + RectPts(items) <= pts
    modifies alloc
    ensures alloc.At(done + RectPts(items))
    ensures rects == RectsOf(rnd, Pool(XyKey(rnd), pts), prefix, old(alloc.Count(prefix)), items)
    ensures alloc.Count(prefix) == old(alloc.Count(prefix)) + |items|
    ensures forall other | other != prefix && other != 'P' :: alloc.Count(other) == old(alloc.Count(other))
  {
    hide IDAllocator.Valid, Pool, Extend, IndexOf, Rep, Ref2, XyKey, Flat;
    ghost var final := Pool(XyKey(rnd), pts);
    ghost var base := alloc.Count(prefix);
    rects := [];
    assert done + RectPts(items[..0]) == done;
    for i := 0 to |items|
      invariant alloc.At(done + RectPts(items[..i]))
      invariant alloc.Count(prefix) == base + i
      invariant forall other | other != prefix && other != 'P' :: alloc.Count(other) == old(alloc.Count(other))
      invariant |rects| == i
      invariant forall k | 0 <= k < i :: rects[k] == RectOf(rnd, final, [prefix] + Print(base + k), items[k])
    {
      var item := items[i];
      ghost var before := done + RectPts(items[..i]);
      assert before + [item.center] == done + RectPts(items[..i + 1]);
      assert before + [item.center] == (done + RectPts(items))[..|before| + 1];
      RegisterAt(rnd, pts, before, item.center);
      var center := alloc.GetOrCreatePoint2D(item.center.x, item.center.y);
      var id := alloc.NextEntityId(prefix);
      rects := rects + [Rectangle(id, center, item.width, item.height, item.layer, item.shape, item.pts)];
    }
    assert items[..|items|] == items;
  }

  /** The board edges registered in order: both ends, then the on-arc midpoint of an arc. */
  method RegisterEdges(alloc: IDAllocator, edges: seq<EdgeItem>, ghost rnd: real -> real, ghost pts: seq<Pt>)
    returns (lines: seq<Line>)
    requires alloc.At([]) && rnd == alloc.rnd && alloc.Count('E') == 0 && EdgesPts(edges) <= pts
    modifies alloc
    ensures alloc.At(EdgesPts(edges))
    ensures lines == EdgeLines(rnd, Pool(XyKey(rnd), pts), edges)
    ensures forall other | other != 'E' && other != 'P' :: alloc.Count(other) == old(alloc.Count(other))
  {
    hide IDAllocator.Valid, Pool, Extend, IndexOf, Rep, Ref2, XyKey, Flat, EdgesPts, EdgePts;
    EmptyPool(edges);
    ghost var final := Pool(XyKey(rnd), pts);
    lines := [];
    for i := 0 to |edges|
      invariant alloc.At(EdgesPts(edges[..i]))
      invariant alloc.Count('E') == i
      invariant forall other | other != 'E' && other != 'P' :: alloc.Count(other) == old(alloc.Count(other))
      invariant |lines| == i
      invariant forall k | 0 <= k < i :: lines[k] == EdgeLine(rnd, final, k, edges[k])
    {
      var e := edges[i];
      ghost var d0 := EdgesPts(edges[..i]);
      ghost var d1 := d0 + [e.p1];
      ghost var d2 := d1 + [e.p2];
      EdgesStep(edges, i);
      ghost var d3 := EdgesPts(edges[..i + 1]);
      EdgePtsAre(d0, e);
      assert d1 <= d2 <= d3 <= pts;
      RegisterAt(rnd, pts, d0, e.p1);
      var p1 := alloc.GetOrCreatePoint2D(e.p1.x, e.p1.y);
      RegisterAt(rnd, pts, d1, e.p2);
      var p2 := alloc.GetOrCreatePoint2D(e.p2.x, e.p2.y);
      var mid: Option<Point2D> := None;
      if e.mid.Some? {
        RegisterAt(rnd, pts, d2, e.mid.value);
        var m := alloc.GetOrCreatePoint2D(e.mid.value.x, e.mid.value.y);
        mid := Some(m);
      }
      var id := alloc.NextEntityId('E');
      lines := lines + [Line(id, p1, p2, e.width, 44, mid)];
    }
    assert edges[..|edges|] == edges;
  }

  ghost predicate Grouped(order: seq<int>, byNet: map<int, seq<PadItem>>, routable: seq<PadItem>) {
    && order == NetOrder(routable)
    && (forall c :: c in byNet <==> c in order)
    && (forall c | c in order :: byNet[c] == PadsOfNet(routable, c))
  }

  lemma GroupEmpty(target: Option<set<int>>, pads: seq<PadItem>)
    ensures Grouped([], map[], RoutablePads(target, pads[..0]))
    ensures UnconnectedPads(target, pads[..0]) == []
  {
  }

  lemma ScopeStep(target: Option<set<int>>, pads: seq<PadItem>, p: PadItem)
    ensures RoutablePads(target, pads + [p])
         == if Routable(target, p) then RoutablePads(target, pads) + [p] else RoutablePads(target, pads)
    ensures UnconnectedPads(target, pads + [p])
         == if Routable(target, p) then UnconnectedPads(target, pads) else UnconnectedPads(target, pads) + [p]
  {
    FilterStep((q: PadItem) => Routable(target, q), pads, p);
    FilterStep((q: PadItem) => !Routable(target, q), pads, p);
  }

  lemma OrderStep(pads: seq<PadItem>, p: PadItem)
    ensures NetOrder(pads + [p]) == if p.netCode in NetOrder(pads) then NetOrder(pads) else NetOrder(pads) + [p.netCode]
  {
    var code := (q: PadItem) => q.netCode;
    assert Map(code, pads + [p]) == Map(code, pads) + [p.netCode];
    PoolStep((c: int) => c, Map(code, pads), p.netCode);
    OrderMember(pads, p.netCode);
  }

  lemma PadsStep(pads: seq<PadItem>, p: PadItem, c: int)
    ensures PadsOfNet(pads + [p], c) == if p.netCode == c then PadsOfNet(pads, c) + [p] else PadsOfNet(pads, c)
  {
    FilterStep((q: PadItem) => q.netCode == c, pads, p);
  }

  lemma GroupStep(order: seq<int>, byNet: map<int, seq<PadItem>>, routable: seq<PadItem>, p: PadItem)
    requires Grouped(order, byNet, routable)
    ensures p.netCode in byNet ==>
              Grouped(order, byNet[p.netCode := byNet[p.netCode] + [p]], routable + [p])
    ensures p.netCode !in byNet ==>
              Grouped(order + [p.netCode], byNet[p.netCode := [] + [p]], routable + [p])
  {
    hide NetOrder, PadsOfNet;
    OrderStep(routable, p);
    OrderMember(routable, p.netCode);
    forall c ensures PadsOfNet(routable + [p], c)
                  == if p.netCode == c then PadsOfNet(routable, c) + [p] else PadsOfNet(routable, c) {
      PadsStep(routable, p, c);
    }
  }

  /** `pads_by_net` / `unconnected_pads_input`: a dict of lists in first-pad order. */
  method GroupPads(pads: seq<PadItem>, target: Option<set<int>>)
    returns (order: seq<int>, byNet: map<int, seq<PadItem>>, unconnected: seq<PadItem>)
    ensures Grouped(order, byNet, RoutablePads(target, pads))
    ensures unconnected == UnconnectedPads(target, pads)
  {
    hide Filter, NetOrder, PadsOfNet, Grouped;
    order, byNet, unconnected := [], map[], [];
    GroupEmpty(target, pads);
    for i := 0 to |pads|
      invariant Grouped(order, byNet, RoutablePads(target, pads[..i]))
      invariant forall c :: c in byNet <==> c in order
      invariant unconnected == UnconnectedPads(target, pads[..i])
    {
      var p := pads[i];
      assert pads[..i + 1] == pads[..i] + [p];
      ScopeStep(target, pads[..i], p);
      if Routable(target, p) {
        GroupStep(order, byNet, RoutablePads(target, pads[..i]), p);
        ghost var was := byNet;
        if p.netCode !in byNet {
          order := order + [p.netCode];
          byNet := byNet[p.netCode := []];
        }
        byNet := byNet[p.netCode := byNet[p.netCode] + [p]];
        assert p.netCode !in was ==> byNet == was[p.netCode := [] + [p]];
      } else {
        unconnected := unconnected + [p];
      }
    }
    assert pads[..|pads|] == pads;
  }

  /** A net is in the order exactly when it has a pad. */
  lemma OrderMember(pads: seq<PadItem>, c: int)
    ensures c in NetOrder(pads) <==> Has((x: int) => x, NetOrder(pads), c)
    ensures c in NetOrder(pads) <==> exists i :: 0 <= i < |pads| && pads[i].netCode == c
    ensures c !in NetOrder(pads) ==> PadsOfNet(pads, c) == []
  {
    var self, codes := (x: int) => x, Map((p: PadItem) => p.netCode, pads);
    PoolKeys(self, codes);
    PoolSubset(self, codes);
    if c in NetOrder(pads) {
      var i :| 0 <= i < |NetOrder(pads)| && NetOrder(pads)[i] == c;
      IndexOfHas(self, NetOrder(pads), i);
      assert c in codes;
      var k :| 0 <= k < |codes| && codes[k] == c;
      assert pads[k].netCode == c;
    }
    if PadsOfNet(pads, c) != [] {
      var q := PadsOfNet(pads, c)[0];
      assert q in pads && q.netCode == c;
      var k :| 0 <= k < |pads| && pads[k] == q;
      assert codes[k] == c;
      assert Has(self, NetOrder(pads), self(codes[k]));
    }
    if i :| 0 <= i < |pads| && pads[i].netCode == c {
      assert codes[i] == c;
      assert Has(self, NetOrder(pads), self(codes[i]));
    }
  }

  lemma {:induction false} PoolSubset<T, K>(key: T -> K, xs: seq<T>)
    ensures forall x | x in Pool(key, xs) :: x in xs
  {
    if xs != [] {
      PoolSubset(key, xs[..|xs| - 1]);
    }
  }

  /** The pads of net j are the next points after those of the nets before it. */
  lemma NetPadsStep(edgePts: seq<Pt>, rest: seq<Pt>, nets: seq<RawNet>, j: nat)
    requires j < |nets|
    ensures edgePts + RectPts(AllPads(nets[..j])) + RectPts(nets[j].pads) == edgePts + RectPts(AllPads(nets[..j + 1]))
    ensures edgePts + RectPts(AllPads(nets[..j + 1])) <= edgePts + RectPts(AllPads(nets)) + rest
    ensures |AllPads(nets[..j])| == Start(PadGroups(nets), j)
    ensures |AllPads(nets[..j + 1])| == |AllPads(nets[..j])| + |nets[j].pads|
  {
    AllPadsStep(nets, j);
    var a, b := AllPads(nets[..j]), AllPads(nets[..j + 1]);
    RectPtsConcat(a, nets[j].pads);
    assert AllPads(nets) == b + AllPads(nets)[|b|..];
    RectPtsConcat(b, AllPads(nets)[|b|..]);
  }

  lemma EmptyPads(edgePts: seq<Pt>, nets: seq<RawNet>)
    ensures edgePts + RectPts(AllPads(nets[..0])) == edgePts && |AllPads(nets[..0])| == 0
  {
  }

  lemma GroupedNet(netNames: map<int, string>, order: seq<int>, byNet: map<int, seq<PadItem>>,
                   routable: seq<PadItem>, j: nat)
    requires Grouped(order, byNet, routable) && j < |order|
    ensures order[j] in byNet
    ensures RawNetsOf(netNames, routable, order)[j]
         == RawNet(order[j], NetName(netNames, order[j]), Map((p: PadItem) => PadRect(p), byNet[order[j]]), None)
  {
    var c := order[j];
    assert c in order;
    assert c in byNet;
  }

  /** One net: its pads registered, its context built. */
  method RegisterNet(alloc: IDAllocator, net: RawNet, ghost rnd: real -> real, ghost pts: seq<Pt>, ghost done: seq<Pt>)
    returns (entry: (int, NetContext))
    requires alloc.At(done) && rnd == alloc.rnd && done + RectPts(net.pads) <= pts
    modifies alloc
    ensures alloc.At(done + RectPts(net.pads))
    ensures entry == NetOf(rnd, Pool(XyKey(rnd), pts), old(alloc.Count('D')), net)
    ensures alloc.Count('D') == old(alloc.Count('D')) + |net.pads|
    ensures alloc.Count('O') == old(alloc.Count('O')) && alloc.Count('U') == old(alloc.Count('U'))
  {
    var rects := RegisterRects(alloc, 'D', net.pads, rnd, pts, done);
    entry := (net.code, NetContext(net.code, net.name, rects, net.constraints));
  }

  /** The pads of every net, registered net by net in first-pad order. */
  method RegisterNets(alloc: IDAllocator, netNames: map<int, string>, order: seq<int>,
                      byNet: map<int, seq<PadItem>>, ghost raw: seq<RawNet>,
                      ghost rnd: real -> real, ghost edgePts: seq<Pt>, ghost rest: seq<Pt>)
    returns (nets: seq<(int, NetContext)>)
    requires |raw| == |order|
    requires forall j | 0 <= j < |order| :: order[j] in byNet
    requires forall j | 0 <= j < |order| :: raw[j] ==
               RawNet(order[j], NetName(netNames, order[j]), Map((p: PadItem) => PadRect(p), byNet[order[j]]), None)
    requires alloc.At(edgePts) && rnd == alloc.rnd && alloc.Count('D') == 0
    modifies alloc
    ensures alloc.At(edgePts + RectPts(AllPads(raw)))
    ensures nets == NetsOf(rnd, Pool(XyKey(rnd), edgePts + RectPts(AllPads(raw)) + rest), raw)
    ensures alloc.Count('O') == old(alloc.Count('O')) && alloc.Count('U') == old(alloc.Count('U'))
  {
    ghost var pts := edgePts + RectPts(AllPads(raw)) + rest;
    EmptyPads(edgePts, raw);
    hide *;
    nets := [];
    for j := 0 to |order|
      invariant alloc.At(edgePts + RectPts(AllPads(raw[..j])))
      invariant alloc.Count('D') == |AllPads(raw[..j])|
      invariant alloc.Count('O') == old(alloc.Count('O')) && alloc.Count('U') == old(alloc.Count('U'))
      invariant |nets| == j
      invariant forall k | 0 <= k < j :: nets[k] == NetOf(rnd, Pool(XyKey(rnd), pts), Start(PadGroups(raw), k), raw[k])
    {
      var nc := order[j];
      NetPadsStep(edgePts, rest, raw, j);
      var net := RawNet(nc, NetName(netNames, nc), Map((p: PadItem) => PadRect(p), byNet[nc]), None);
      var entry := RegisterNet(alloc, net, rnd, pts, edgePts + RectPts(AllPads(raw[..j])));
      nets := nets + [entry];
    }
    assert raw[..|order|] == raw;
  }

  /** `BoardStatic.from_board` */
  method FromBoard(rnd: real -> real, meta: Meta, pads: seq<PadItem>, boardEdges: seq<EdgeItem>,
                   netNames: map<int, string>, constraints: Json, obstacles: seq<PadItem>,
                   target: Option<set<int>>) returns (b: BoardStatic)
    ensures b == ContextOf(rnd, RawBoardOf(meta, pads, boardEdges, netNames, constraints, obstacles, target))
  {
    hide IDAllocator.Valid, Pool, Extend, IndexOf, Rep, Ref2, XyKey, Flat, AllPads, EdgesPts, Filter, NetOrder, PadsOfNet;
    ghost var raw := RawBoardOf(meta, pads, boardEdges, netNames, constraints, obstacles, target);
    ghost var pts := BoardPts(raw);
    ghost var e, d, o, u := EdgesPts(boardEdges), RectPts(AllPads(raw.nets)), RectPts(raw.obstacles), RectPts(raw.upads);
    assert pts == e + d + o + u;
    assert e + d + (o + u) == pts && (e + d) + o <= pts && (e + d + o) + u <= pts && e <= pts;
    var w, h := MaxR(meta.bboxW, 0.000001), MaxR(meta.bboxH, 0.000001);
    var scale := MaxR(w, h);
    var alloc := new IDAllocator(rnd);
    var boardlines := RegisterEdges(alloc, boardEdges, rnd, pts);
    var order, byNet, unconnected := GroupPads(pads, target);
    forall j | 0 <= j < |order|
      ensures order[j] in byNet
      ensures raw.nets[j] ==
                RawNet(order[j], NetName(netNames, order[j]), Map((p: PadItem) => PadRect(p), byNet[order[j]]), None)
    {
      GroupedNet(netNames, order, byNet, RoutablePads(target, pads), j);
    }
    var nets := RegisterNets(alloc, netNames, order, byNet, raw.nets, rnd, e, o + u);
    var obstacleRects := RegisterRects(alloc, 'O', Map((p: PadItem) => ObstacleRect(p), obstacles), rnd, pts, e + d);
    var upadRects := RegisterRects(alloc, 'U', Map((p: PadItem) => PadRect(p), unconnected), rnd, pts, e + d + o);
    b := BoardStatic(meta.(bboxW := w, bboxH := h, scale := scale), boardlines, nets, obstacleRects, upadRects, constraints);
  }
}
