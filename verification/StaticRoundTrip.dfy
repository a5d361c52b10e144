/** The static half of the lossless-tables promise: dict -> tables -> dict and tables -> dict -> tables. */
module StaticRoundTrip {
  import opened Decimal
  import opened Dedup
  import opened Csr
  import opened StableSort
  import opened Observation
  import opened BoardContext
  import opened IndexedStatic

  // --- a board with its points replaced -----------------------------------------------------------

  function PlainRect(r: RawRect): RawRect { r.(pts := []) }

  function PlainRects(rs: seq<RawRect>): seq<RawRect> { Map((r: RawRect) => PlainRect(r), rs) }

  function PlainNet(n: RawNet): RawNet { n.(pads := PlainRects(n.pads)) }

  /** The board without polygon outlines, which the tables do not carry. */
  function Plain(b: RawBoard): RawBoard {
    b.(nets := Map((n: RawNet) => PlainNet(n), b.nets), obstacles := PlainRects(b.obstacles), upads := PlainRects(b.upads))
  }

  function RepPt(rnd: real -> real, pool: seq<Pt>, p: Pt): Pt { Rep(XyKey(rnd), pool, p) }

  function RepRect(rnd: real -> real, pool: seq<Pt>, r: RawRect): RawRect {
    r.(center := RepPt(rnd, pool, r.center), pts := [])
  }

  function RepRects(rnd: real -> real, pool: seq<Pt>, rs: seq<RawRect>): seq<RawRect> {
    Map((r: RawRect) => RepRect(rnd, pool, r), rs)
  }

  function RepEdge(rnd: real -> real, pool: seq<Pt>, e: EdgeItem): EdgeItem {
    EdgeItem(RepPt(rnd, pool, e.p1), RepPt(rnd, pool, e.p2),
             match e.mid case None => None case Some(m) => Some(RepPt(rnd, pool, m)), e.width)
  }

  function RepNet(rnd: real -> real, pool: seq<Pt>, n: RawNet): RawNet {
    n.(pads := RepRects(rnd, pool, n.pads))
  }

  /** The board with every point replaced by its first-registered representative. */
  function RepBoard(rnd: real -> real, b: RawBoard): RawBoard {
    var pool := BoardPool(rnd, b);
    RawBoard(b.meta, Map((e: EdgeItem) => RepEdge(rnd, pool, e), b.edges), Map((n: RawNet) => RepNet(rnd, pool, n), b.nets),
             RepRects(rnd, pool, b.obstacles), RepRects(rnd, pool, b.upads), b.boardConstraints)
  }

  // --- the tables point into themselves ----------------------------------------------------------------

  lemma PointInPool(rnd: real -> real, pts: seq<Pt>, p: Pt)
    requires p in pts
    ensures Row(rnd, Pool(XyKey(rnd), pts), p) < |Pool(XyKey(rnd), pts)|
  {
    PoolKeys(XyKey(rnd), pts);
    var i :| 0 <= i < |pts| && pts[i] == p;
  }

  lemma {:induction false} FlatMember<T>(groups: seq<seq<T>>, j: nat, x: T)
    requires j < |groups| && x in groups[j]
    ensures x in Flat(groups)
  {
    SliceIsGroup(groups, j);
    var s := Start(groups, j);
    var k :| 0 <= k < |groups[j]| && groups[j][k] == x;
    assert Flat(groups)[s..s + |groups[j]|][k] == Flat(groups)[s + k];
  }

  lemma EdgePointsRegistered(b: RawBoard, i: nat)
    requires i < |b.edges|
    ensures b.edges[i].p1 in BoardPts(b) && b.edges[i].p2 in BoardPts(b)
    ensures b.edges[i].mid.Some? ==> b.edges[i].mid.value in BoardPts(b)
  {
    var e := b.edges[i];
    var groups := Map((x: EdgeItem) => EdgePts(x), b.edges);
    assert groups[i] == EdgePts(e);
    forall p | p in EdgePts(e) ensures p in EdgesPts(b.edges) { FlatMember(groups, i, p); }
    assert EdgePts(e)[0] == e.p1 && EdgePts(e)[1] == e.p2;
    if e.mid.Some? { assert EdgePts(e)[2] == e.mid.value; }
  }

  lemma RectCenterRegistered(rs: seq<RawRect>, i: nat)
    requires i < |rs|
    ensures rs[i].center in RectPts(rs)
  {
    assert RectPts(rs)[i] == rs[i].center;
  }

  lemma ColsInRange(rnd: real -> real, pts: seq<Pt>, rs: seq<RawRect>)
    requires forall p | p in RectPts(rs) :: p in pts
    ensures RectsInRange(RectColsOf(rnd, Pool(XyKey(rnd), pts), rs), |Pool(XyKey(rnd), pts)|)
  {
    forall i | 0 <= i < |rs| ensures Row(rnd, Pool(XyKey(rnd), pts), rs[i].center) < |Pool(XyKey(rnd), pts)| {
      RectCenterRegistered(rs, i);
      PointInPool(rnd, pts, rs[i].center);
    }
  }

  /** Every reference of the built tables lies inside its table. */
  lemma TablesInRange(rnd: real -> real, b: RawBoard)
    ensures InRange(TablesOf(rnd, b))
  {
    var pts, t := BoardPts(b), TablesOf(rnd, b);
    BoardPtsParts(b);
    hide Pool, BoardPts, IndexOf, Flat, AllPads, Row, EdgesPts, RectPts, MidRow;
    ColsInRange(rnd, pts, AllPads(b.nets));
    ColsInRange(rnd, pts, b.obstacles);
    ColsInRange(rnd, pts, b.upads);
    EdgesInRange(rnd, b);
    forall j | 0 <= j < |b.nets| ensures Start(PadGroups(b.nets), j) + |b.nets[j].pads| <= |AllPads(b.nets)| {
      PadRows(b.nets, j);
    }
  }

  lemma PadRows(nets: seq<RawNet>, j: nat)
    requires j < |nets|
    ensures Start(PadGroups(nets), j) + |nets[j].pads| <= |AllPads(nets)|
    ensures forall k | 0 <= k < |nets[j].pads| :: AllPads(nets)[Start(PadGroups(nets), j) + k] == nets[j].pads[k]
  {
    SliceIsGroup(PadGroups(nets), j);
    var s := Start(PadGroups(nets), j);
    assert PadGroups(nets)[j] == nets[j].pads;
    forall k | 0 <= k < |nets[j].pads| ensures AllPads(nets)[s + k] == nets[j].pads[k] {
      assert AllPads(nets)[s..s + |nets[j].pads|][k] == AllPads(nets)[s + k];
    }
  }

  lemma EdgesInRange(rnd: real -> real, b: RawBoard)
    ensures forall i | 0 <= i < |b.edges| ::
              && Row(rnd, BoardPool(rnd, b), b.edges[i].p1) < |BoardPool(rnd, b)|
              && Row(rnd, BoardPool(rnd, b), b.edges[i].p2) < |BoardPool(rnd, b)|
              && MidRow(rnd, BoardPool(rnd, b), b.edges[i].mid) < |BoardPool(rnd, b)|
  {
    forall i | 0 <= i < |b.edges|
      ensures Row(rnd, BoardPool(rnd, b), b.edges[i].p1) < |BoardPool(rnd, b)|
      ensures Row(rnd, BoardPool(rnd, b), b.edges[i].p2) < |BoardPool(rnd, b)|
      ensures MidRow(rnd, BoardPool(rnd, b), b.edges[i].mid) < |BoardPool(rnd, b)|
    {
      var e := b.edges[i];
      EdgePointsRegistered(b, i);
      PointInPool(rnd, BoardPts(b), e.p1);
      PointInPool(rnd, BoardPts(b), e.p2);
      if e.mid.Some? { PointInPool(rnd, BoardPts(b), e.mid.value); }
    }
  }

  // --- tables -> dict is the printed context ---------------------------------------------------------------

  lemma PlainPts(b: RawBoard)
    ensures BoardPts(Plain(b)) == BoardPts(b)
    ensures forall j | 0 <= j <= |b.nets| :: Start(PadGroups(Plain(b).nets), j) == Start(PadGroups(b.nets), j)
  {
    assert RectPts(PlainRects(b.obstacles)) == RectPts(b.obstacles);
    assert RectPts(PlainRects(b.upads)) == RectPts(b.upads);
    PlainPads(b.nets);
    forall j | 0 <= j <= |b.nets| ensures Start(PadGroups(Plain(b).nets), j) == Start(PadGroups(b.nets), j) {
      PlainPads(b.nets[..j]);
      assert PadGroups(Plain(b).nets)[..j] == PadGroups(Map((n: RawNet) => PlainNet(n), b.nets[..j]));
      assert PadGroups(b.nets)[..j] == PadGroups(b.nets[..j]);
    }
  }

  lemma {:induction false} PlainPads(nets: seq<RawNet>)
    ensures RectPts(AllPads(Map((n: RawNet) => PlainNet(n), nets))) == RectPts(AllPads(nets))
    ensures |AllPads(Map((n: RawNet) => PlainNet(n), nets))| == |AllPads(nets)|
  {
    if nets != [] {
      var k := |nets| - 1;
      var plain := Map((n: RawNet) => PlainNet(n), nets);
      PlainPads(nets[..k]);
      assert plain[..k] == Map((n: RawNet) => PlainNet(n), nets[..k]);
      AllPadsStep(nets, k);
      AllPadsStep(plain, k);
      assert nets[..k + 1] == nets && plain[..k + 1] == plain;
      RectPtsConcat(AllPads(nets[..k]), nets[k].pads);
      RectPtsConcat(AllPads(plain[..k]), plain[k].pads);
      assert RectPts(plain[k].pads) == RectPts(nets[k].pads);
    }
  }

  lemma RefAt(rnd: real -> real, pool: seq<Pt>, p: Pt)
    requires Row(rnd, pool, p) < |pool|
    ensures PointToDict(Ref2(rnd, pool, p)) == PointAt(Row(rnd, pool, p), pool)
  {
  }

  lemma RectRowIs(rnd: real -> real, pool: seq<Pt>, prefix: char, all: seq<RawRect>, row: nat)
    requires row < |all| && RectsInRange(RectColsOf(rnd, pool, all), |pool|)
    ensures RectAt(prefix, RectColsOf(rnd, pool, all), pool, row)
         == RectToDict(RectOf(rnd, pool, [prefix] + Print(row), PlainRect(all[row])))
  {
    var c := RectColsOf(rnd, pool, all);
    assert c.pt[row] == Row(rnd, pool, all[row].center);
    RefAt(rnd, pool, all[row].center);
  }

  lemma RectBlock(rnd: real -> real, pool: seq<Pt>, key: string, prefix: char, all: seq<RawRect>, start: nat, rs: seq<RawRect>)
    requires RectsInRange(RectColsOf(rnd, pool, all), |pool|) && start + |rs| <= |all|
    requires forall k | 0 <= k < |rs| :: all[start + k] == rs[k]
    ensures RectsAt(key, prefix, RectColsOf(rnd, pool, all), pool, start, |rs|)
         == Enumerated(key, (r: Rectangle) => RectToDict(r), RectsOf(rnd, pool, prefix, start, PlainRects(rs)))
  {
    var a := RectsAt(key, prefix, RectColsOf(rnd, pool, all), pool, start, |rs|);
    var b := Enumerated(key, (r: Rectangle) => RectToDict(r), RectsOf(rnd, pool, prefix, start, PlainRects(rs)));
    forall k | 0 <= k < |rs| ensures a[k] == b[k] {
      RectRowIs(rnd, pool, prefix, all, start + k);
    }
  }

  lemma EdgeBlock(rnd: real -> real, b: RawBoard, i: nat)
    requires InRange(TablesOf(rnd, b)) && i < |b.edges|
    ensures EdgeAt(TablesOf(rnd, b), i) == EdgeToDict(EdgeLine(rnd, BoardPool(rnd, b), i, b.edges[i]))
  {
    var pool, e := BoardPool(rnd, b), b.edges[i];
    EdgesInRange(rnd, b);
    RefAt(rnd, pool, e.p1);
    RefAt(rnd, pool, e.p2);
    if e.mid.Some? { RefAt(rnd, pool, e.mid.value); }
    hide Rep, IndexOf, Pool, Ref2, Row, BoardPool;
  }

  /** Row `j` of the net columns. */
  lemma NetRow(rnd: real -> real, b: RawBoard, j: nat)
    requires InRange(TablesOf(rnd, b)) && j < |b.nets|
    ensures var t, n := TablesOf(rnd, b), b.nets[j];
      && RectsInRange(t.pad, |BoardPool(rnd, b)|) && Start(PadGroups(b.nets), j) + |n.pads| <= |AllPads(b.nets)|
      && NetAt(t, j) ==
           (NetKey(n.code),
            NetDict(n.name, RectsAt("pad_", 'D', RectColsOf(rnd, BoardPool(rnd, b), AllPads(b.nets)), BoardPool(rnd, b),
                                    Start(PadGroups(b.nets), j), |n.pads|), n.constraints))
  {
    PadRows(b.nets, j);
    hide Pool, BoardPts, IndexOf, Rep, Ref2, Row, Flat, AllPads, MidRow, EdgePts, RectColsOf, RectAt, RectsInRange, EdgeEnds;
  }

  lemma DictOfNet(rnd: real -> real, pool: seq<Pt>, base: nat, n: RawNet, d: NetDict)
    requires d.netName == n.name && d.constraints == n.constraints && |d.pads| == |n.pads|
    requires forall k | 0 <= k < |n.pads| ::
      d.pads[k] == ("pad_" + Print(k), RectToDict(RectOf(rnd, pool, ['D'] + Print(base + k), PlainRect(n.pads[k]))))
    ensures d == NetContextToDict(NetOf(rnd, pool, base, PlainNet(n)).1)
  {
    var want := NetContextToDict(NetOf(rnd, pool, base, PlainNet(n)).1);
    hide RectToDict, RectOf, PlainRect;
    forall k | 0 <= k < |n.pads| ensures d.pads[k] == want.pads[k] { assert PlainNet(n).pads[k] == PlainRect(n.pads[k]); }
    assert d.pads == want.pads;
  }

  lemma NetBlock(rnd: real -> real, b: RawBoard, j: nat)
    requires InRange(TablesOf(rnd, b)) && j < |b.nets|
    ensures NetAt(TablesOf(rnd, b), j)
         == (NetKey(b.nets[j].code),
             NetContextToDict(NetOf(rnd, BoardPool(rnd, b), Start(PadGroups(b.nets), j), PlainNet(b.nets[j])).1))
  {
    NetRow(rnd, b, j);
    PadRows(b.nets, j);
    assert TablesOf(rnd, b).pad == RectColsOf(rnd, BoardPool(rnd, b), AllPads(b.nets));
    var d, n, base := NetAt(TablesOf(rnd, b), j).1, b.nets[j], Start(PadGroups(b.nets), j);
    hide Pool, BoardPts, IndexOf, Rep, Ref2, Row, Flat, AllPads, MidRow, EdgePts, RectColsOf, RectAt, RectToDict, RectOf,
         RectsInRange, EdgeEnds, TablesOf, InRange, NetAt, BoardPool, RectsOf, Enumerated, Start, PadGroups, NetOf, NetContextToDict, PlainNet, PlainRect;
    forall k | 0 <= k < |n.pads|
      ensures d.pads[k] == ("pad_" + Print(k), RectToDict(RectOf(rnd, BoardPool(rnd, b), ['D'] + Print(base + k), PlainRect(n.pads[k]))))
    {
      RectRowIs(rnd, BoardPool(rnd, b), 'D', AllPads(b.nets), base + k);
    }
    DictOfNet(rnd, BoardPool(rnd, b), base, n, d);
  }

  lemma RectBlocks(rnd: real -> real, pool: seq<Pt>, b: RawBoard)
    requires RectsInRange(RectColsOf(rnd, pool, b.obstacles), |pool|)
    requires RectsInRange(RectColsOf(rnd, pool, b.upads), |pool|)
    ensures RectsAt("obs_", 'O', RectColsOf(rnd, pool, b.obstacles), pool, 0, |b.obstacles|)
         == Enumerated("obs_", (r: Rectangle) => RectToDict(r), RectsOf(rnd, pool, 'O', 0, Plain(b).obstacles))
    ensures RectsAt("upad_", 'U', RectColsOf(rnd, pool, b.upads), pool, 0, |b.upads|)
         == Enumerated("upad_", (r: Rectangle) => RectToDict(r), RectsOf(rnd, pool, 'U', 0, Plain(b).upads))
  {
    hide Pool, BoardPts, IndexOf, Rep, Ref2, Row, RectColsOf, RectAt, RectToDict, RectOf, RectsInRange, RectsOf, RectsAt, Enumerated;
    RectBlock(rnd, pool, "obs_", 'O', b.obstacles, 0, b.obstacles);
    RectBlock(rnd, pool, "upad_", 'U', b.upads, 0, b.upads);
  }

  lemma EdgesAgree(rnd: real -> real, b: RawBoard)
    requires InRange(TablesOf(rnd, b))
    ensures StaticOf(TablesOf(rnd, b)).boardlines == BuildBoardStatic(ContextOf(rnd, Plain(b))).boardlines
  {
    PlainPts(b);
    hide Pool, BoardPts, IndexOf, Rep, Ref2, Row, Flat, AllPads, MidRow, EdgePts, NetAt, RectAt, EdgeLine, EdgeAt, EdgeToDict;
    var got, want := StaticOf(TablesOf(rnd, b)).boardlines, BuildBoardStatic(ContextOf(rnd, Plain(b))).boardlines;
    forall i | 0 <= i < |b.edges| ensures got[i] == want[i] { EdgeBlock(rnd, b, i); }
  }

  lemma NetsAgree(rnd: real -> real, b: RawBoard)
    requires InRange(TablesOf(rnd, b))
    ensures StaticOf(TablesOf(rnd, b)).nets == BuildBoardStatic(ContextOf(rnd, Plain(b))).nets
  {
    PlainPts(b);
    hide Pool, BoardPts, IndexOf, Rep, Ref2, Row, Flat, AllPads, MidRow, EdgePts, NetAt, RectAt, EdgeLine, EdgeAt, EdgeToDict,
         NetContextToDict;
    var got, want := StaticOf(TablesOf(rnd, b)).nets, BuildBoardStatic(ContextOf(rnd, Plain(b))).nets;
    forall j | 0 <= j < |b.nets| ensures got[j] == want[j] { NetBlock(rnd, b, j); }
  }

  /** The fast form decodes to the simple form, for every board: reading the tables of b gives the
      dict printed from b's own context, ids included (polygon outlines aside). */
  lemma TablesDecodeToContext(rnd: real -> real, b: RawBoard)
    ensures InRange(TablesOf(rnd, b))
    ensures StaticOf(TablesOf(rnd, b)) == BuildBoardStatic(ContextOf(rnd, Plain(b)))
  {
    TablesInRange(rnd, b);
    EdgesAgree(rnd, b);
    NetsAgree(rnd, b);
    PlainPts(b);
    RectBlocks(rnd, BoardPool(rnd, b), b);
    hide Pool, BoardPts, IndexOf, Rep, Ref2, Row, Flat, AllPads, MidRow, EdgePts, NetAt, RectAt, EdgeLine, EdgeAt, EdgeToDict,
         NetContextToDict, EdgeLines, NetsOf, RectsOf, RectsAt, Enumerated, RectColsOf;
  }

  // --- dict -> tables rebuilds the same tables -------------------------------------------------------------

  lemma ReadRectBlock(rnd: real -> real, pool: seq<Pt>, key: string, prefix: char, base: nat, rs: seq<RawRect>)
    ensures ReadRects(Enumerated(key, (r: Rectangle) => RectToDict(r), RectsOf(rnd, pool, prefix, base, rs)))
         == RepRects(rnd, pool, rs)
  {
  }

  lemma ReadNetBlock(rnd: real -> real, pool: seq<Pt>, base: nat, n: RawNet)
    ensures NetCodeOfKey(NetKey(n.code)).Some?
    ensures ReadNet((NetKey(n.code), NetContextToDict(NetOf(rnd, pool, base, n).1))) == RepNet(rnd, pool, n)
  {
    NetKeyParses(n.code);
    hide NetKey, NetCodeOfKey, Ref2, Rep, IndexOf;
    ReadRectBlock(rnd, pool, "pad_", 'D', base, n.pads);
  }

  /** A printed context says exactly where its board's representatives are. */
  lemma ContextReadsBack(rnd: real -> real, b: RawBoard)
    ensures KeysParse(BuildBoardStatic(ContextOf(rnd, b)).nets)
    ensures ReadBoard(BuildBoardStatic(ContextOf(rnd, b))) == RepBoard(rnd, b)
  {
    var pool, d := BoardPool(rnd, b), BuildBoardStatic(ContextOf(rnd, b));
    ReadRectBlock(rnd, pool, "obs_", 'O', 0, b.obstacles);
    ReadRectBlock(rnd, pool, "upad_", 'U', 0, b.upads);
    ReadEdgesBack(rnd, b);
    hide Pool, BoardPts, IndexOf, Rep, Ref2, Flat, NetCodeOfKey, NetKey, ReadNet, NetContextToDict, NetOf, EdgeLines, RepRects,
         ReadRects, Enumerated, RectsOf, ReadEdge, RepEdge, EdgeToDict, RepNet;
    forall j | 0 <= j < |b.nets|
      ensures NetCodeOfKey(d.nets[j].0).Some? && ReadNet(d.nets[j]) == RepNet(rnd, pool, b.nets[j])
    {
      ReadNetBlock(rnd, pool, Start(PadGroups(b.nets), j), b.nets[j]);
    }
  }

  lemma ReadEdgesBack(rnd: real -> real, b: RawBoard)
    ensures Map((kv: (string, EdgeDict)) => ReadEdge(kv.1), BuildBoardStatic(ContextOf(rnd, b)).boardlines)
         == Map((e: EdgeItem) => RepEdge(rnd, BoardPool(rnd, b), e), b.edges)
  {
    hide Pool, BoardPts, IndexOf, Flat, NetsOf, RectsOf;
  }

  lemma {:induction false} RepEdgesPts(rnd: real -> real, pool: seq<Pt>, es: seq<EdgeItem>)
    ensures EdgesPts(Map((e: EdgeItem) => RepEdge(rnd, pool, e), es)) == Reps(XyKey(rnd), pool, EdgesPts(es))
  {
    var reps := Map((e: EdgeItem) => RepEdge(rnd, pool, e), es);
    if es != [] {
      var k := |es| - 1;
      RepEdgesPts(rnd, pool, es[..k]);
      assert reps[..k] == Map((e: EdgeItem) => RepEdge(rnd, pool, e), es[..k]);
      EdgesStep(es, k);
      EdgesStep(reps, k);
      assert es[..k + 1] == es && reps[..k + 1] == reps;
      RepsConcat(XyKey(rnd), pool, EdgesPts(es[..k]), EdgePts(es[k]));
      assert EdgePts(reps[k]) == Reps(XyKey(rnd), pool, EdgePts(es[k]));
    }
  }

  lemma RepRectsConcat(rnd: real -> real, pool: seq<Pt>, a: seq<RawRect>, b: seq<RawRect>)
    ensures RepRects(rnd, pool, a + b) == RepRects(rnd, pool, a) + RepRects(rnd, pool, b)
  {
    hide RepRect;
  }

  lemma {:induction false} RepPadsOf(rnd: real -> real, pool: seq<Pt>, nets: seq<RawNet>, reps: seq<RawNet>)
    requires |reps| == |nets| && forall i | 0 <= i < |nets| :: reps[i].pads == RepRects(rnd, pool, nets[i].pads)
    ensures AllPads(reps) == RepRects(rnd, pool, AllPads(nets))
  {
    if nets != [] {
      var k := |nets| - 1;
      RepPadsOf(rnd, pool, nets[..k], reps[..k]);
      AllPadsStep(nets, k);
      AllPadsStep(reps, k);
      assert nets[..k + 1] == nets && reps[..k + 1] == reps;
      hide AllPads, RepRects;
      RepRectsConcat(rnd, pool, AllPads(nets[..k]), nets[k].pads);
    }
  }

  lemma RepPads(rnd: real -> real, pool: seq<Pt>, nets: seq<RawNet>)
    ensures AllPads(Map((n: RawNet) => RepNet(rnd, pool, n), nets)) == RepRects(rnd, pool, AllPads(nets))
  {
    hide AllPads, RepRects;
    RepPadsOf(rnd, pool, nets, Map((n: RawNet) => RepNet(rnd, pool, n), nets));
  }

  lemma RepRectPts(rnd: real -> real, pool: seq<Pt>, rs: seq<RawRect>)
    ensures RectPts(RepRects(rnd, pool, rs)) == Reps(XyKey(rnd), pool, RectPts(rs))
  {
  }

  lemma RepBoardPts(rnd: real -> real, b: RawBoard)
    ensures BoardPts(RepBoard(rnd, b)) == Reps(XyKey(rnd), BoardPool(rnd, b), BoardPts(b))
  {
    hide Pool, IndexOf, Rep, Flat, XyKey, AllPads, RectPts, EdgesPts, RepEdge, RepNet, RepRects, BoardPool;
    var kf, pool := XyKey(rnd), BoardPool(rnd, b);
    var e, p, o, u := EdgesPts(b.edges), RectPts(AllPads(b.nets)), RectPts(b.obstacles), RectPts(b.upads);
    RepEdgesPts(rnd, pool, b.edges);
    RepPads(rnd, pool, b.nets);
    RepRectPts(rnd, pool, AllPads(b.nets));
    RepRectPts(rnd, pool, b.obstacles);
    RepRectPts(rnd, pool, b.upads);
    RepsConcat(kf, pool, e + p + o, u);
    RepsConcat(kf, pool, e + p, o);
    RepsConcat(kf, pool, e, p);
  }

  /** The representatives of a board register as the same pool. */
  lemma RepBoardPool(rnd: real -> real, b: RawBoard)
    ensures BoardPool(rnd, RepBoard(rnd, b)) == BoardPool(rnd, b)
  {
    hide Pool, IndexOf, Rep, BoardPts, RepBoard;
    RepBoardPts(rnd, b);
    PoolKeys(XyKey(rnd), BoardPts(b));
    RepsPool(XyKey(rnd), BoardPts(b), BoardPool(rnd, b));
  }

  lemma RepCols(rnd: real -> real, pool: seq<Pt>, rs: seq<RawRect>)
    ensures RectColsOf(rnd, pool, RepRects(rnd, pool, rs)) == RectColsOf(rnd, pool, rs)
  {
    forall r: RawRect ensures Row(rnd, pool, RepPt(rnd, pool, r.center)) == Row(rnd, pool, r.center) {
      RepKey(XyKey(rnd), pool, r.center);
    }
  }

  lemma RepEdgeRows(rnd: real -> real, pool: seq<Pt>, e: EdgeItem)
    ensures EdgeEnds(rnd, pool, RepEdge(rnd, pool, e)) == EdgeEnds(rnd, pool, e)
    ensures MidRow(rnd, pool, RepEdge(rnd, pool, e).mid) == MidRow(rnd, pool, e.mid)
  {
    RepKey(XyKey(rnd), pool, e.p1);
    RepKey(XyKey(rnd), pool, e.p2);
    if e.mid.Some? { RepKey(XyKey(rnd), pool, e.mid.value); }
  }

  lemma {:induction false} RepStarts(rnd: real -> real, pool: seq<Pt>, nets: seq<RawNet>)
    ensures PadStarts(Map((n: RawNet) => RepNet(rnd, pool, n), nets)) == PadStarts(nets)
  {
    var reps := Map((n: RawNet) => RepNet(rnd, pool, n), nets);
    forall j | 0 <= j < |nets| ensures Start(PadGroups(reps), j) == Start(PadGroups(nets), j) {
      AllPadsStep(nets, j);
      AllPadsStep(reps, j);
      RepPads(rnd, pool, nets[..j]);
      assert reps[..j] == Map((n: RawNet) => RepNet(rnd, pool, n), nets[..j]);
    }
  }

  /** Re-running the deduplication on the printed representatives reproduces the tables: every pool
      row, reference and start. */
  lemma RepBoardTables(rnd: real -> real, b: RawBoard)
    ensures TablesOf(rnd, RepBoard(rnd, b)) == TablesOf(rnd, b)
  {
    var pool, rep := BoardPool(rnd, b), RepBoard(rnd, b);
    RepBoardPool(rnd, b);
    RepCols(rnd, pool, AllPads(b.nets));
    RepPads(rnd, pool, b.nets);
    RepCols(rnd, pool, b.obstacles);
    RepCols(rnd, pool, b.upads);
    RepStarts(rnd, pool, b.nets);
    forall i | 0 <= i < |b.edges|
      ensures EdgeEnds(rnd, pool, rep.edges[i]) == EdgeEnds(rnd, pool, b.edges[i])
      ensures MidRow(rnd, pool, rep.edges[i].mid) == MidRow(rnd, pool, b.edges[i].mid)
    {
      RepEdgeRows(rnd, pool, b.edges[i]);
    }
    hide BoardPool, Pool, IndexOf, Rep, AllPads, Flat, RectColsOf, PadStarts, EdgeEnds, MidRow, RepRects;
    assert TablesOf(rnd, rep).edgePt == TablesOf(rnd, b).edgePt;
    assert TablesOf(rnd, rep).edgeMid == TablesOf(rnd, b).edgeMid;
    assert TablesOf(rnd, rep).edgeW == TablesOf(rnd, b).edgeW;
    assert TablesOf(rnd, rep).netPadCount == TablesOf(rnd, b).netPadCount;
  }

  // --- the promise --------------------------------------------------------------------------------------------

  ghost predicate NoOutlines(rs: seq<RawRect>) {
    forall i | 0 <= i < |rs| :: rs[i].pts == []
  }

  /** No rectangle of the board carries a polygon outline. */
  ghost predicate OutlineFree(b: RawBoard) {
    && (forall j | 0 <= j < |b.nets| :: NoOutlines(b.nets[j].pads))
    && NoOutlines(b.obstacles) && NoOutlines(b.upads)
  }

  /** Tables built from a printed context are the tables of its board. */
  lemma TablesFromDict(rnd: real -> real, b: RawBoard)
    ensures KeysParse(BuildBoardStatic(ContextOf(rnd, b)).nets)
    ensures TablesOf(rnd, ReadBoard(BuildBoardStatic(ContextOf(rnd, b)))) == TablesOf(rnd, b)
  {
    ContextReadsBack(rnd, b);
    RepBoardTables(rnd, b);
  }

  /** The board has a printed outline exactly where the plain board does not match it. */
  lemma OutlinesShow(rnd: real -> real, b: RawBoard)
    ensures BuildBoardStatic(ContextOf(rnd, Plain(b))) == BuildBoardStatic(ContextOf(rnd, b)) <==> OutlineFree(b)
  {
    PlainPts(b);
    var pool := BoardPool(rnd, b);
    var plain, full := BuildBoardStatic(ContextOf(rnd, Plain(b))), BuildBoardStatic(ContextOf(rnd, b));
    assert BoardPool(rnd, Plain(b)) == pool;
    hide Pool, BoardPts, IndexOf, Rep, Ref2, Flat, AllPads, NetKey, Print;
    RectsShow(rnd, pool, "obs_", 'O', 0, b.obstacles);
    RectsShow(rnd, pool, "upad_", 'U', 0, b.upads);
    forall j | 0 <= j < |b.nets| ensures plain.nets[j] == full.nets[j] <==> NoOutlines(b.nets[j].pads) {
      RectsShow(rnd, pool, "pad_", 'D', Start(PadGroups(b.nets), j), b.nets[j].pads);
    }
    if plain == full {
      forall j | 0 <= j < |b.nets| ensures NoOutlines(b.nets[j].pads) {
        assert plain.nets[j] == full.nets[j];
      }
    }
    if OutlineFree(b) {
      assert plain.nets == full.nets;
    }
  }

  lemma RectsShow(rnd: real -> real, pool: seq<Pt>, key: string, prefix: char, base: nat, rs: seq<RawRect>)
    ensures Enumerated(key, (r: Rectangle) => RectToDict(r), RectsOf(rnd, pool, prefix, base, PlainRects(rs)))
         == Enumerated(key, (r: Rectangle) => RectToDict(r), RectsOf(rnd, pool, prefix, base, rs))
         <==> NoOutlines(rs)
  {
    hide Ref2, Print;
    var a := Enumerated(key, (r: Rectangle) => RectToDict(r), RectsOf(rnd, pool, prefix, base, PlainRects(rs)));
    var b := Enumerated(key, (r: Rectangle) => RectToDict(r), RectsOf(rnd, pool, prefix, base, rs));
    forall i | 0 <= i < |rs| ensures a[i] == b[i] <==> rs[i].pts == [] {
      assert a[i].1.pts == None;
      assert b[i].1.pts == None <==> rs[i].pts == [];
    }
    if NoOutlines(rs) { assert a == b; }
    if a == b {
      forall i | 0 <= i < |rs| ensures rs[i].pts == [] { assert a[i] == b[i]; }
    }
  }

  /** The lossless promise, static half.  For every board: the tables built from its printed context
      decode to that very dict exactly when no rectangle has a polygon outline (the one key the tables
      drop), and in any case to the same dict without outlines; and the tables built from the decoded
      dict are the tables again. */
  lemma StaticLossless(rnd: real -> real, b: RawBoard)
    ensures var d := BuildBoardStatic(ContextOf(rnd, b));
            var t := TablesOf(rnd, ReadBoard(d));
            && KeysParse(d.nets) && InRange(t)
            && StaticOf(t) == BuildBoardStatic(ContextOf(rnd, Plain(b)))
            && (StaticOf(t) == d <==> OutlineFree(b))
            && TablesOf(rnd, ReadBoard(StaticOf(t))) == t
  {
    TablesFromDict(rnd, b);
    TablesDecodeToContext(rnd, b);
    OutlinesShow(rnd, b);
    TablesFromDict(rnd, Plain(b));
    PlainTables(rnd, b);
  }

  lemma PlainTables(rnd: real -> real, b: RawBoard)
    ensures TablesOf(rnd, Plain(b)) == TablesOf(rnd, b)
  {
    PlainPts(b);
    hide Pool, BoardPts, IndexOf, Flat, Row, XyKey;
    PlainAllPads(b.nets);
    assert RectColsOf(rnd, BoardPool(rnd, b), PlainRects(AllPads(b.nets))) == RectColsOf(rnd, BoardPool(rnd, b), AllPads(b.nets));
    assert PadStarts(Plain(b).nets) == PadStarts(b.nets);
  }

  lemma {:induction false} PlainAllPads(nets: seq<RawNet>)
    ensures AllPads(Map((n: RawNet) => PlainNet(n), nets)) == PlainRects(AllPads(nets))
  {
    var plain := Map((n: RawNet) => PlainNet(n), nets);
    if nets != [] {
      var k := |nets| - 1;
      PlainAllPads(nets[..k]);
      assert plain[..k] == Map((n: RawNet) => PlainNet(n), nets[..k]);
      AllPadsStep(nets, k);
      AllPadsStep(plain, k);
      assert nets[..k + 1] == nets && plain[..k + 1] == plain;
    }
  }

  /** For a board built by `from_board`, outline-free is a check on its obstacle list alone. */
  lemma FromBoardOutlines(meta: Meta, pads: seq<PadItem>, edges: seq<EdgeItem>, names: map<int, string>,
                          constraints: Json, obstacles: seq<PadItem>, target: Option<set<int>>)
    ensures OutlineFree(RawBoardOf(meta, pads, edges, names, constraints, obstacles, target))
       <==> forall o | o in obstacles :: o.pts == []
  {
    hide Filter, NetOrder, RoutablePads, UnconnectedPads;
    var b := RawBoardOf(meta, pads, edges, names, constraints, obstacles, target);
    assert forall i | 0 <= i < |obstacles| :: b.obstacles[i].pts == obstacles[i].pts;
    if NoOutlines(b.obstacles) {
      forall o | o in obstacles ensures o.pts == [] {
        var i :| 0 <= i < |obstacles| && obstacles[i] == o;
        assert b.obstacles[i].pts == [];
      }
    }
  }

  /** Any readable dict, whatever ids it carries (hand-written test observations do), is rewritten to
      the canonical print of its own coordinates. */
  lemma ForeignIdsAreRenumbered(rnd: real -> real, d: StaticDict)
    ensures InRange(TablesOf(rnd, ReadBoard(d)))
    ensures StaticOf(TablesOf(rnd, ReadBoard(d))) == BuildBoardStatic(ContextOf(rnd, ReadBoard(d)))
  {
    TablesDecodeToContext(rnd, ReadBoard(d));
    hide TablesOf, StaticOf, BuildBoardStatic, ContextOf, InRange;
    var b := ReadBoard(d);
    assert PlainRects(b.obstacles) == b.obstacles && PlainRects(b.upads) == b.upads;
    forall j | 0 <= j < |b.nets| ensures PlainNet(b.nets[j]) == b.nets[j] {
      assert PlainRects(b.nets[j].pads) == b.nets[j].pads;
    }
    assert Plain(b).nets == b.nets;
  }
}
