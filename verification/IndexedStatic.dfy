/** The static tables of the indexed observation: built from the printed board context, and read
    back into it. */
module IndexedStatic {
  import opened Decimal
  import opened Dedup
  import opened Csr
  import opened StableSort
  import opened Observation
  import opened BoardContext

  /** Columns of one pad-shaped collection; `pt` points into the board-wide point pool. */
  datatype RectCols = RectCols(pt: seq<int>, wh: seq<(real, real)>, layer: seq<int>, shape: seq<string>)

  datatype StaticTables = StaticTables(
    meta: Meta, boardConstraints: Json, ptXy: seq<Pt>,
    edgePt: seq<(int, int)>, edgeMid: seq<int>, edgeW: seq<real>,
    netCode: seq<int>, netName: seq<string>, netConstraints: seq<Option<Json>>,
    netPadStart: seq<int>, netPadCount: seq<int>,
    pad: RectCols, obs: RectCols, upad: RectCols)

  // --- the point pool ----------------------------------------------------------------------------

  /** `_PointPool` */
  class PointPool {
    const rnd: real -> real
    var xs: seq<real>
    var ys: seq<real>
    var keyToIdx: map<(real, real), nat>

    ghost predicate Valid()
      reads this
    {
      |xs| == |ys| && Registers(XyKey(rnd), (i: nat, p: Pt) => i, keyToIdx, Points())
    }

    function Points(): (ps: seq<Pt>)
      requires |xs| == |ys|
      reads this
      ensures |ps| == |xs|
    {
      seq(|xs|, i requires 0 <= i < |xs| reads this => if i < |xs| && i < |ys| then Pt(xs[i], ys[i]) else Pt(0.0, 0.0))
    }

    /** The pool after registering exactly the points `done`, in order. */
    ghost predicate At(done: seq<Pt>)
      reads this
    {
      |xs| == |ys| && Valid() && Points() == Pool(XyKey(rnd), done)
    }

    constructor (rnd: real -> real)
      ensures At([]) && this.rnd == rnd
    {
      this.rnd := rnd;
      xs, ys, keyToIdx := [], [], map[];
    }

    method Register(x: real, y: real) returns (idx: nat)
      requires Valid()
      modifies this
      ensures Valid() && Points() == Extend(XyKey(rnd), old(Points()), Pt(x, y))
      ensures idx == Row(rnd, Points(), Pt(x, y))
    {
      ghost var kf, ref, pt := XyKey(rnd), (i: nat, p: Pt) => i, Pt(x, y);
      ghost var was := Points();
      var key := (rnd(x), rnd(y));
      assert key == kf(pt);
      if key !in keyToIdx {
        RegisterNew(kf, ref, keyToIdx, was, pt);
        idx := |xs|;
        keyToIdx := keyToIdx[key := idx];
        xs, ys := xs + [x], ys + [y];
        assert Points() == was + [pt];
      } else {
        RegisteredEntry(kf, ref, keyToIdx, was, pt);
        idx := keyToIdx[key];
      }
    }
  }

  // --- what the tables are ---------------------------------------------------------------------------

  function Row(rnd: real -> real, pool: seq<Pt>, p: Pt): nat {
    IndexOf(XyKey(rnd), pool, XyKey(rnd)(p))
  }

  function RectColsOf(rnd: real -> real, pool: seq<Pt>, rs: seq<RawRect>): (c: RectCols)
    ensures |c.pt| == |c.wh| == |c.layer| == |c.shape| == |rs|
  {
    RectCols(Map((r: RawRect) => Row(rnd, pool, r.center), rs), Map((r: RawRect) => (r.width, r.height), rs),
             Map((r: RawRect) => r.layer, rs), Map((r: RawRect) => r.shape, rs))
  }

  function MidRow(rnd: real -> real, pool: seq<Pt>, m: Option<Pt>): int {
    match m case None => -1 case Some(p) => Row(rnd, pool, p)
  }

  function PadStarts(nets: seq<RawNet>): (s: seq<int>)
    ensures |s| == |nets| && forall j | 0 <= j < |nets| :: s[j] == Start(PadGroups(nets), j)
  {
    seq(|nets|, j requires 0 <= j < |nets| => Start(PadGroups(nets), j))
  }

  /** The tables of a board: one pool, every reference a row of it, pads of all nets in one block. */
  function TablesOf(rnd: real -> real, b: RawBoard): StaticTables {
    var pool := BoardPool(rnd, b);
    StaticTables(b.meta, b.boardConstraints, pool,
                 Map((e: EdgeItem) => EdgeEnds(rnd, pool, e), b.edges),
                 Map((e: EdgeItem) => MidRow(rnd, pool, e.mid), b.edges),
                 Map((e: EdgeItem) => e.width, b.edges),
                 Map((n: RawNet) => n.code, b.nets), Map((n: RawNet) => n.name, b.nets),
                 Map((n: RawNet) => n.constraints, b.nets),
                 PadStarts(b.nets), Map((n: RawNet) => |n.pads|, b.nets),
                 RectColsOf(rnd, pool, AllPads(b.nets)), RectColsOf(rnd, pool, b.obstacles),
                 RectColsOf(rnd, pool, b.upads))
  }

  // --- what a printed dict says about the board --------------------------------------------------------

  function FirstUnderscore(s: string): nat {
    if s == "" || s[0] == '_' then 0 else 1 + FirstUnderscore(s[1..])
  }

  /** `int(key.split("_", 1)[1])` */
  function NetCodeOfKey(key: string): Option<int> {
    var i := FirstUnderscore(key);
    if i < |key| then ParseInt(key[i + 1..]) else None
  }

  lemma NetKeyParses(code: int)
    ensures NetCodeOfKey(NetKey(code)) == Some(code)
  {
    var k, digits := NetKey(code), PrintInt(code);
    assert k[1..] == "et_" + digits && k[1..][1..] == "t_" + digits && k[1..][1..][1..] == "_" + digits;
    assert FirstUnderscore("_" + digits) == 0;
    assert FirstUnderscore("t_" + digits) == 1;
    assert FirstUnderscore("et_" + digits) == 2;
    assert FirstUnderscore(k) == 3;
    assert k[4..] == digits;
    ParsePrintInt(code);
  }

  predicate KeysParse<V>(d: Dict<V>) {
    forall i | 0 <= i < |d| :: NetCodeOfKey(d[i].0).Some?
  }

  function ReadCode(key: string): int {
    match NetCodeOfKey(key) case Some(c) => c case None => 0
  }

  function ReadPt(p: PointDict): Pt { Pt(p.xy.0, p.xy.1) }

  function ReadRect(r: RectDict): RawRect {
    RawRect(ReadPt(r.center), r.width, r.height, r.layer, r.shape, [])
  }

  function ReadRects(d: Dict<RectDict>): seq<RawRect> {
    Map((kv: (string, RectDict)) => ReadRect(kv.1), d)
  }

  function ReadEdge(e: EdgeDict): EdgeItem {
    EdgeItem(ReadPt(e.p1), ReadPt(e.p2), match e.mid case None => None case Some(m) => Some(ReadPt(m)), e.width)
  }

  function ReadNet(kv: (string, NetDict)): RawNet {
    RawNet(ReadCode(kv.0), kv.1.netName, ReadRects(kv.1.pads), kv.1.constraints)
  }

  /** The coordinates a printed board context carries; its ids are not read. */
  function ReadBoard(d: StaticDict): RawBoard {
    RawBoard(d.meta, Map((kv: (string, EdgeDict)) => ReadEdge(kv.1), d.boardlines),
             Map((kv: (string, NetDict)) => ReadNet(kv), d.nets),
             ReadRects(d.obstacles), ReadRects(d.unconnectedPads), d.boardConstraints)
  }

  // --- building the tables -------------------------------------------------------------------------------

  /** The row a point gets while it is registered is its row in the final pool. */
  lemma RowAt(rnd: real -> real, pts: seq<Pt>, done: seq<Pt>, p: Pt)
    requires done + [p] <= pts
    ensures Extend(XyKey(rnd), Pool(XyKey(rnd), done), p) == Pool(XyKey(rnd), done + [p])
    ensures Row(rnd, Pool(XyKey(rnd), done + [p]), p) == Row(rnd, Pool(XyKey(rnd), pts), p)
  {
    PoolStep(XyKey(rnd), done, p);
    assert pts[..|done| + 1] == done + [p];
    assert pts[|done|] == p;
    RegisteredIndex(XyKey(rnd), pts, |done|);
  }

  /** `_rect_columns` */
  method RectColumns(pool: PointPool, rects: seq<RectDict>, ghost rnd: real -> real, ghost pts: seq<Pt>, ghost done: seq<Pt>)
    returns (cols: RectCols)
    requires pool.At(done) && rnd == pool.rnd
    requires done + RectPts(Map((r: RectDict) => ReadRect(r), rects)) <= pts
    modifies pool
    ensures pool.At(done + RectPts(Map((r: RectDict) => ReadRect(r), rects)))
    ensures cols == RectColsOf(rnd, Pool(XyKey(rnd), pts), Map((r: RectDict) => ReadRect(r), rects))
  {
    ghost var items := Map((r: RectDict) => ReadRect(r), rects);
    ghost var final := Pool(XyKey(rnd), pts);
    hide PointPool.Valid, Pool, Extend, IndexOf, XyKey, Row;
    assert done + RectPts(items[..0]) == done;
    cols := RectCols([], [], [], []);
    for i := 0 to |rects|
      invariant pool.At(done + RectPts(items[..i]))
      invariant cols == RectColsOf(rnd, final, items[..i])
    {
      var r := rects[i];
      var cx, cy := r.center.xy.0, r.center.xy.1;
      ghost var before := done + RectPts(items[..i]);
      assert before + [items[i].center] == done + RectPts(items[..i + 1]);
      assert before + [items[i].center] == (done + RectPts(items))[..|before| + 1];
      RowAt(rnd, pts, before, items[i].center);
      var row := pool.Register(cx, cy);
      ColsStep(rnd, final, items, i);
      assert row == Row(rnd, final, items[i].center);
      cols := RectCols(cols.pt + [row], cols.wh + [(r.width, r.height)], cols.layer + [r.layer], cols.shape + [r.shape]);
    }
    assert items[..|rects|] == items;
  }

  lemma ColsStep(rnd: real -> real, pool: seq<Pt>, rs: seq<RawRect>, i: nat)
    requires i < |rs|
    ensures var was := RectColsOf(rnd, pool, rs[..i]);
            RectColsOf(rnd, pool, rs[..i + 1])
            == RectCols(was.pt + [Row(rnd, pool, rs[i].center)], was.wh + [(rs[i].width, rs[i].height)],
                        was.layer + [rs[i].layer], was.shape + [rs[i].shape])
  {
  }

  function EdgeEnds(rnd: real -> real, pool: seq<Pt>, e: EdgeItem): (int, int) {
    (Row(rnd, pool, e.p1), Row(rnd, pool, e.p2))
  }

  /** One edge: both ends, then the on-arc midpoint when it has one. */
  method RegisterEdge(pool: PointPool, e: EdgeDict, ghost rnd: real -> real, ghost pts: seq<Pt>, ghost done: seq<Pt>)
    returns (ends: (int, int), mid: int)
    requires pool.At(done) && rnd == pool.rnd && done + EdgePts(ReadEdge(e)) <= pts
    modifies pool
    ensures pool.At(done + EdgePts(ReadEdge(e)))
    ensures ends == EdgeEnds(rnd, Pool(XyKey(rnd), pts), ReadEdge(e))
    ensures mid == MidRow(rnd, Pool(XyKey(rnd), pts), ReadEdge(e).mid)
  {
    ghost var item := ReadEdge(e);
    ghost var d1 := done + [item.p1];
    ghost var d2 := d1 + [item.p2];
    EdgePtsAre(done, item);
    hide PointPool.Valid, Pool, Extend, IndexOf, XyKey, Row, EdgePts;
    assert d1 <= d2 <= pts;
    RowAt(rnd, pts, done, item.p1);
    var p1 := pool.Register(e.p1.xy.0, e.p1.xy.1);
    RowAt(rnd, pts, d1, item.p2);
    var p2 := pool.Register(e.p2.xy.0, e.p2.xy.1);
    ends, mid := (p1, p2), -1;
    if e.mid.Some? {
      RowAt(rnd, pts, d2, item.mid.value);
      mid := pool.Register(e.mid.value.xy.0, e.mid.value.xy.1);
    }
  }

  /** The columns of the board edges. */
  method EdgeColumns(pool: PointPool, edges: Dict<EdgeDict>, ghost es: seq<EdgeItem>,
                     ghost rnd: real -> real, ghost pts: seq<Pt>)
    returns (edgePt: seq<(int, int)>, edgeMid: seq<int>, edgeW: seq<real>)
    requires |es| == |edges| && forall i | 0 <= i < |es| :: es[i] == ReadEdge(edges[i].1)
    requires pool.At([]) && rnd == pool.rnd && EdgesPts(es) <= pts
    modifies pool
    ensures pool.At(EdgesPts(es))
    ensures edgePt == Map((e: EdgeItem) => EdgeEnds(rnd, Pool(XyKey(rnd), pts), e), es)
    ensures edgeMid == Map((e: EdgeItem) => MidRow(rnd, Pool(XyKey(rnd), pts), e.mid), es)
    ensures edgeW == Map((e: EdgeItem) => e.width, es)
  {
    ghost var final := Pool(XyKey(rnd), pts);
    hide PointPool.Valid, Pool, Extend, IndexOf, XyKey, Row, EdgesPts, EdgePts, Flat, EdgeEnds, MidRow;
    EmptyPool(es);
    edgePt, edgeMid, edgeW := [], [], [];
    for i := 0 to |edges|
      invariant pool.At(EdgesPts(es[..i]))
      invariant |edgePt| == |edgeMid| == |edgeW| == i
      invariant forall k | 0 <= k < i :: edgePt[k] == EdgeEnds(rnd, final, es[k])
      invariant forall k | 0 <= k < i :: edgeMid[k] == MidRow(rnd, final, es[k].mid)
      invariant forall k | 0 <= k < i :: edgeW[k] == es[k].width
    {
      EdgesStep(es, i);
      var ends, mid := RegisterEdge(pool, edges[i].1, rnd, pts, EdgesPts(es[..i]));
      edgePt, edgeMid, edgeW := edgePt + [ends], edgeMid + [mid], edgeW + [edges[i].1.width];
    }
    assert es[..|edges|] == es;
  }

  lemma BoardPtsParts(b: RawBoard)
    ensures var e, p, o, u := EdgesPts(b.edges), RectPts(AllPads(b.nets)), RectPts(b.obstacles), RectPts(b.upads);
            BoardPts(b) == e + p + o + u && e <= BoardPts(b) && e + p <= BoardPts(b) && e + p + o <= BoardPts(b)
  {
  }

  /** `static_tables_from_dict`: the net codes come from the keys, everything else from the values. */
  method StaticTablesFromDict(rnd: real -> real, d: StaticDict) returns (t: StaticTables)
    requires KeysParse(d.nets)
    ensures t == TablesOf(rnd, ReadBoard(d))
  {
    ghost var b := ReadBoard(d);
    ghost var pts := BoardPts(b);
    ghost var e, p, o := EdgesPts(b.edges), RectPts(AllPads(b.nets)), RectPts(b.obstacles);
    BoardPtsParts(b);
    hide PointPool.Valid, Pool, Extend, IndexOf, XyKey, EdgesPts, AllPads, Flat, RectPts, BoardPts;
    var pool := new PointPool(rnd);
    var edgePt, edgeMid, edgeW := EdgeColumns(pool, d.boardlines, b.edges, rnd, pts);
    var netCode, netName, netConstraints, allPads, padStart, padCount := NetColumns(d.nets);
    var pad := RectColumns(pool, allPads, rnd, pts, e);
    assert ReadRects(d.obstacles) == Map((r: RectDict) => ReadRect(r), Values(d.obstacles));
    var obs := RectColumns(pool, Values(d.obstacles), rnd, pts, e + p);
    assert ReadRects(d.unconnectedPads) == Map((r: RectDict) => ReadRect(r), Values(d.unconnectedPads));
    var upad := RectColumns(pool, Values(d.unconnectedPads), rnd, pts, e + p + o);
    t := StaticTables(d.meta, d.boardConstraints, pool.Points(), edgePt, edgeMid, edgeW, netCode, netName,
                      netConstraints, padStart, padCount, pad, obs, upad);
  }

  /** `list(d.values())` */
  function Values<V>(d: Dict<V>): (vs: seq<V>)
    ensures |vs| == |d| && forall i | 0 <= i < |d| :: vs[i] == d[i].1
  {
    seq(|d|, i requires 0 <= i < |d| => d[i].1)
  }

  /** The per-net columns; the pads of all nets go into one list, each net's start being its length so far. */
  method NetColumns(nets: Dict<NetDict>)
    returns (netCode: seq<int>, netName: seq<string>, netConstraints: seq<Option<Json>>,
             allPads: seq<RectDict>, padStart: seq<int>, padCount: seq<int>)
    requires KeysParse(nets)
    ensures var raws := Map((kv: (string, NetDict)) => ReadNet(kv), nets);
            && netCode == Map((n: RawNet) => n.code, raws) && netName == Map((n: RawNet) => n.name, raws)
            && netConstraints == Map((n: RawNet) => n.constraints, raws)
            && Map((r: RectDict) => ReadRect(r), allPads) == AllPads(raws)
            && padStart == PadStarts(raws) && padCount == Map((n: RawNet) => |n.pads|, raws)
  {
    ghost var raws := Map((kv: (string, NetDict)) => ReadNet(kv), nets);
    hide Flat, AllPads, FirstUnderscore, NetCodeOfKey;
    NoPads(raws);
    netCode, netName, netConstraints, allPads, padStart, padCount := [], [], [], [], [], [];
    for j := 0 to |nets|
      invariant |netCode| == |netName| == |netConstraints| == |padStart| == |padCount| == j
      invariant forall k | 0 <= k < j ::
        && netCode[k] == raws[k].code && netName[k] == raws[k].name && netConstraints[k] == raws[k].constraints
        && padStart[k] == Start(PadGroups(raws), k) && padCount[k] == |raws[k].pads|
      invariant Map((r: RectDict) => ReadRect(r), allPads) == AllPads(raws[..j])
    {
      var nv := nets[j].1;
      netCode := netCode + [NetCodeOfKey(nets[j].0).value];
      netName := netName + [nv.netName];
      netConstraints := netConstraints + [nv.constraints];
      var pads := Values(nv.pads);
      AllPadsStep(raws, j);
      assert |allPads| == |AllPads(raws[..j])|;
      padStart := padStart + [|allPads|];
      padCount := padCount + [|pads|];
      assert Map((r: RectDict) => ReadRect(r), pads) == raws[j].pads;
      assert Map((r: RectDict) => ReadRect(r), allPads + pads)
          == Map((r: RectDict) => ReadRect(r), allPads) + Map((r: RectDict) => ReadRect(r), pads);
      allPads := allPads + pads;
    }
    assert raws[..|nets|] == raws;
  }

  lemma NoPads(nets: seq<RawNet>)
    ensures AllPads(nets[..0]) == []
  {
  }

  // --- reading the tables back -------------------------------------------------------------------------

  predicate RectsInRange(c: RectCols, points: nat) {
    && |c.pt| == |c.wh| == |c.layer| == |c.shape|
    && forall i | 0 <= i < |c.pt| :: 0 <= c.pt[i] < points
  }

  /** Every reference is a row of the table it points into. */
  predicate InRange(t: StaticTables) {
    && |t.edgePt| == |t.edgeMid| == |t.edgeW|
    && (forall i | 0 <= i < |t.edgePt| ::
          0 <= t.edgePt[i].0 < |t.ptXy| && 0 <= t.edgePt[i].1 < |t.ptXy| && t.edgeMid[i] < |t.ptXy|)
    && |t.netCode| == |t.netName| == |t.netConstraints| == |t.netPadStart| == |t.netPadCount|
    && (forall j | 0 <= j < |t.netCode| ::
          0 <= t.netPadStart[j] && 0 <= t.netPadCount[j] && t.netPadStart[j] + t.netPadCount[j] <= |t.pad.pt|)
    && RectsInRange(t.pad, |t.ptXy|) && RectsInRange(t.obs, |t.ptXy|) && RectsInRange(t.upad, |t.ptXy|)
  }

  function PointAt(idx: int, pool: seq<Pt>): PointDict
    requires 0 <= idx < |pool|
  {
    PointDict("P" + PrintInt(idx), (pool[idx].x, pool[idx].y))
  }

  /** One rebuilt rectangle: row `row` of the columns. */
  function RectAt(prefix: char, c: RectCols, pool: seq<Pt>, row: nat): RectDict
    requires RectsInRange(c, |pool|) && row < |c.pt|
  {
    RectDict([prefix] + PrintInt(row), PointAt(c.pt[row], pool), c.wh[row].0, c.wh[row].1, c.layer[row], c.shape[row], None)
  }

  /** `_rect_dicts`, keyed from 0: rows start .. start + count. */
  function RectsAt(key: string, prefix: char, c: RectCols, pool: seq<Pt>, start: nat, count: nat): (d: Dict<RectDict>)
    requires RectsInRange(c, |pool|) && start + count <= |c.pt|
    ensures |d| == count
    ensures forall k | 0 <= k < count :: d[k] == (key + Print(k), RectAt(prefix, c, pool, start + k))
  {
    seq(count, k requires 0 <= k < count => (key + Print(k), RectAt(prefix, c, pool, start + k)))
  }

  function EdgeAt(t: StaticTables, i: nat): EdgeDict
    requires InRange(t) && i < |t.edgePt|
  {
    EdgeDict("E" + Print(i), PointAt(t.edgePt[i].0, t.ptXy), PointAt(t.edgePt[i].1, t.ptXy), t.edgeW[i],
             if t.edgeMid[i] >= 0 then Some(PointAt(t.edgeMid[i], t.ptXy)) else None)
  }

  function NetAt(t: StaticTables, j: nat): (string, NetDict)
    requires InRange(t) && j < |t.netCode|
  {
    (NetKey(t.netCode[j]),
     NetDict(t.netName[j], RectsAt("pad_", 'D', t.pad, t.ptXy, t.netPadStart[j], t.netPadCount[j]), t.netConstraints[j]))
  }

  function StaticOf(t: StaticTables): StaticDict
    requires InRange(t)
  {
    StaticDict(t.meta,
               seq(|t.edgePt|, i requires 0 <= i < |t.edgePt| => ("edge_" + Print(i), EdgeAt(t, i))),
               seq(|t.netCode|, j requires 0 <= j < |t.netCode| => NetAt(t, j)),
               RectsAt("obs_", 'O', t.obs, t.ptXy, 0, |t.obs.pt|),
               RectsAt("upad_", 'U', t.upad, t.ptXy, 0, |t.upad.pt|),
               t.boardConstraints)
  }

  /** `d[k] = v`: an existing key keeps its place. */
  function Put<V>(d: Dict<V>, k: string, v: V): Dict<V> {
    if d == [] then [(k, v)]
    else if d[0].0 == k then [(k, v)] + d[1..]
    else [d[0]] + Put(d[1..], k, v)
  }

  lemma {:induction false} PutNew<V>(d: Dict<V>, k: string, v: V)
    requires forall i | 0 <= i < |d| :: d[i].0 != k
    ensures Put(d, k, v) == d + [(k, v)]
  {
    if d != [] { PutNew(d[1..], k, v); }
  }

  lemma NumberedKeysDiffer(prefix: string, i: nat, j: nat)
    requires prefix + Print(i) == prefix + Print(j)
    ensures i == j
  {
    assert (prefix + Print(i))[|prefix|..] == Print(i);
    assert (prefix + Print(j))[|prefix|..] == Print(j);
    PrintInjective(i, j);
  }

  lemma NetKeysDiffer(i: int, j: int)
    requires NetKey(i) == NetKey(j)
    ensures i == j
  {
    NetKeyParses(i);
    NetKeyParses(j);
  }

  ghost predicate Numbered<V>(prefix: string, d: Dict<V>) {
    forall k | 0 <= k < |d| :: d[k].0 == prefix + Print(k)
  }

  /** Assigning the next numbered key appends. */
  lemma PutNext<V>(prefix: string, d: Dict<V>, v: V)
    requires Numbered(prefix, d)
    ensures Put(d, prefix + Print(|d|), v) == d + [(prefix + Print(|d|), v)]
    ensures Numbered(prefix, d + [(prefix + Print(|d|), v)])
  {
    hide Print;
    forall k | 0 <= k < |d| ensures d[k].0 != prefix + Print(|d|) {
      if prefix + Print(k) == prefix + Print(|d|) { NumberedKeysDiffer(prefix, k, |d|); }
    }
    PutNew(d, prefix + Print(|d|), v);
  }

  /** The dict that assigning these entries in order leaves: a repeated key keeps its place and takes the
      later value. */
  function Assigned<V>(entries: Dict<V>): Dict<V> {
    if entries == [] then [] else
      Put(Assigned(entries[..|entries| - 1]), entries[|entries| - 1].0, entries[|entries| - 1].1)
  }

  lemma AssignedStep<V>(entries: Dict<V>, j: nat)
    requires j < |entries|
    ensures Assigned(entries[..j + 1]) == Put(Assigned(entries[..j]), entries[j].0, entries[j].1)
  {
    assert entries[..j + 1][..j] == entries[..j];
  }

  /** Entries with distinct keys are the dict. */
  lemma {:induction false} AssignedDistinct<V>(entries: Dict<V>)
    requires forall i, j | 0 <= i < j < |entries| :: entries[i].0 != entries[j].0
    ensures Assigned(entries) == entries
  {
    if entries != [] {
      var init, last := entries[..|entries| - 1], entries[|entries| - 1];
      AssignedDistinct(init);
      PutNew(init, last.0, last.1);
      assert entries == init + [last];
    }
  }

  /** `_rect_dicts` */
  method RectDicts(key: string, prefix: char, c: RectCols, pool: seq<Pt>, start: nat, count: nat) returns (d: Dict<RectDict>)
    requires RectsInRange(c, |pool|) && start + count <= |c.pt|
    ensures d == RectsAt(key, prefix, c, pool, start, count)
  {
    hide Print, Put, RectAt;
    d := [];
    for i := start to start + count
      invariant |d| == i - start && Numbered(key, d)
      invariant forall k | 0 <= k < i - start :: d[k].1 == RectAt(prefix, c, pool, start + k)
    {
      PutNext(key, d, RectAt(prefix, c, pool, i));
      d := Put(d, key + Print(i - start), RectAt(prefix, c, pool, i));
    }
  }

  method EdgeDicts(t: StaticTables) returns (boardlines: Dict<EdgeDict>)
    requires InRange(t)
    ensures boardlines == StaticOf(t).boardlines
  {
    hide Print, PrintInt, Put;
    boardlines := [];
    for i := 0 to |t.edgePt|
      invariant |boardlines| == i && Numbered("edge_", boardlines)
      invariant forall k | 0 <= k < i :: boardlines[k].1 == EdgeAt(t, k)
    {
      var entry := EdgeDict("E" + Print(i), PointAt(t.edgePt[i].0, t.ptXy), PointAt(t.edgePt[i].1, t.ptXy), t.edgeW[i], None);
      if t.edgeMid[i] >= 0 {
        entry := entry.(mid := Some(PointAt(t.edgeMid[i], t.ptXy)));
      }
      PutNext("edge_", boardlines, entry);
      boardlines := Put(boardlines, "edge_" + Print(i), entry);
    }
  }

  method NetDicts(t: StaticTables) returns (nets: Dict<NetDict>)
    requires InRange(t)
    ensures nets == Assigned(StaticOf(t).nets)
  {
    hide Print, PrintInt, Put, NetKey;
    nets := [];
    ghost var entries := StaticOf(t).nets;
    for j := 0 to |t.netCode|
      invariant nets == Assigned(entries[..j])
    {
      var pads := RectDicts("pad_", 'D', t.pad, t.ptXy, t.netPadStart[j], t.netPadCount[j]);
      var net := NetDict(t.netName[j], pads, t.netConstraints[j]);
      AssignedStep(entries, j);
      assert entries[j] == NetAt(t, j) == (NetKey(t.netCode[j]), net);
      nets := Put(nets, NetKey(t.netCode[j]), net);
    }
    assert entries[..|t.netCode|] == entries;
  }

  /** The static half of `arrays_to_dict`; a net code that is repeated keeps the last of its rows. */
  method ArraysToStatic(t: StaticTables) returns (d: StaticDict)
    requires InRange(t)
    ensures d == StaticOf(t).(nets := Assigned(StaticOf(t).nets))
  {
    var boardlines := EdgeDicts(t);
    var nets := NetDicts(t);
    var obstacles := RectDicts("obs_", 'O', t.obs, t.ptXy, 0, |t.obs.pt|);
    var upads := RectDicts("upad_", 'U', t.upad, t.ptXy, 0, |t.upad.pt|);
    d := StaticDict(t.meta, boardlines, nets, obstacles, upads, t.boardConstraints);
  }
}
