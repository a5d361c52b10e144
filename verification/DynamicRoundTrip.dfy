/** The dynamic half of the lossless-tables promise, for every list of net geometries. */
module DynamicRoundTrip {
  import opened Decimal
  import opened Dedup
  import opened Csr
  import opened StableSort
  import opened Observation
  import opened BoardContext
  import opened NetGeometries
  import opened IndexedStatic
  import opened IndexedDynamic

  // --- one net, decoded -----------------------------------------------------------------------

  /** A point as row of the net's own pool. */
  function PoolDict(rnd: real -> real, pool: seq<Pt>, p: Pt): PointDict { PointToDict(Ref2(rnd, pool, p)) }

  function TrackDictOf(rnd: real -> real, pool: seq<Pt>, k: nat, t: TrackRow): TrackDict {
    TrackDict("T" + Print(k), PoolDict(rnd, pool, t.p1), PoolDict(rnd, pool, t.p2), t.width, t.layer)
  }

  function ViaDictOf(rnd: real -> real, pool: seq<Pt>, k: nat, v: ViaRow): ViaDict {
    ViaDict("V" + Print(k), PoolDict(rnd, pool, v.center), v.layerStart, v.layerEnd, v.viaWidth)
  }

  function QDictOf(q: QPoint): Point3Dict { Point3Dict("Q" + Print(q.q), (q.x, q.y), q.layer) }

  function TrackDictsOf(rnd: real -> real, pool: seq<Pt>, ts: seq<TrackRow>): (d: Dict<TrackDict>)
    ensures |d| == |ts| && forall k | 0 <= k < |ts| :: d[k] == ("track_" + Print(k), TrackDictOf(rnd, pool, k, ts[k]))
  {
    seq(|ts|, k requires 0 <= k < |ts| => ("track_" + Print(k), TrackDictOf(rnd, pool, k, ts[k])))
  }

  function ViaDictsOf(rnd: real -> real, pool: seq<Pt>, vs: seq<ViaRow>): (d: Dict<ViaDict>)
    ensures |d| == |vs| && forall k | 0 <= k < |vs| :: d[k] == ("via_" + Print(k), ViaDictOf(rnd, pool, k, vs[k]))
  {
    seq(|vs|, k requires 0 <= k < |vs| => ("via_" + Print(k), ViaDictOf(rnd, pool, k, vs[k])))
  }

  /** The dict a net's rows stand for, said without tables. */
  function PerDict(rnd: real -> real, p: PerNet): NetGeometryDict {
    var pool := NetPool(rnd, p.tracks, p.vias);
    NetGeometryDict(TrackDictsOf(rnd, pool, p.tracks), ViaDictsOf(rnd, pool, p.vias), Map(QDictOf, p.points))
  }

  lemma TrackPtsRegistered(rnd: real -> real, p: PerNet, k: nat)
    requires k < |p.tracks|
    ensures Row(rnd, NetPool(rnd, p.tracks, p.vias), p.tracks[k].p1) < |NetPool(rnd, p.tracks, p.vias)|
    ensures Row(rnd, NetPool(rnd, p.tracks, p.vias), p.tracks[k].p2) < |NetPool(rnd, p.tracks, p.vias)|
  {
    var pts, n := NetPts(p.tracks, p.vias), |TracksPts(p.tracks[..k])|;
    TracksStep(p.tracks, k);
    assert TracksPts(p.tracks) <= pts;
    assert pts[n] == p.tracks[k].p1 && pts[n + 1] == p.tracks[k].p2;
    PoolKeys(XyKey(rnd), pts);
  }

  lemma ViaPtsRegistered(rnd: real -> real, p: PerNet, k: nat)
    requires k < |p.vias|
    ensures Row(rnd, NetPool(rnd, p.tracks, p.vias), p.vias[k].center) < |NetPool(rnd, p.tracks, p.vias)|
  {
    var pts, n := NetPts(p.tracks, p.vias), |TracksPts(p.tracks)| + k;
    assert pts[n] == p.vias[k].center;
    PoolKeys(XyKey(rnd), pts);
  }

  /** The reference columns start where the value columns start. */
  lemma RefStarts(rnd: real -> real, per: seq<PerNet>, j: nat)
    requires j <= |per|
    ensures Start(TrackRefLists(rnd, per), j) == Start(TrackLists(per), j)
    ensures Start(ViaRefLists(rnd, per), j) == Start(ViaLists(per), j)
  {
    hide Flat, TrackRefs, ViaRefs, NetPool;
    var pre := per[..j];
    RefsAligned(rnd, pre);
    assert Pools(rnd, per)[..j] == Pools(rnd, pre);
    forall i | 0 <= i < j ensures Start(Pools(rnd, per), i) == Start(Pools(rnd, pre), i) {
      assert Pools(rnd, per)[..i] == Pools(rnd, pre)[..i];
    }
    assert TrackRefLists(rnd, per)[..j] == TrackRefLists(rnd, pre);
    assert ViaRefLists(rnd, per)[..j] == ViaRefLists(rnd, pre);
    assert TrackLists(per)[..j] == TrackLists(pre);
    assert ViaLists(per)[..j] == ViaLists(pre);
  }

  /** Track k of net j in the tables: its references and its values. */
  lemma TrackRowAt(rnd: real -> real, per: seq<PerNet>, j: nat, k: nat)
    requires j < |per| && k < |per[j].tracks|
    ensures var t, pool, r := DynTablesOf(rnd, per), NetPool(rnd, per[j].tracks, per[j].vias), Start(TrackLists(per), j) + k;
      && r < |t.trkPt| && |t.trkW| == |t.trkLayer| == |t.trkPt|
      && t.trkPt[r] == (Start(Pools(rnd, per), j) + Row(rnd, pool, per[j].tracks[k].p1),
                        Start(Pools(rnd, per), j) + Row(rnd, pool, per[j].tracks[k].p2))
      && t.trkW[r] == per[j].tracks[k].width && t.trkLayer[r] == per[j].tracks[k].layer
  {
    hide Flat, NetPool, Row, Start, Starts, Counts, ViaRefLists, Pools;
    RefsAligned(rnd, per);
    RefStarts(rnd, per, j);
    RowOfGroup(TrackRefLists(rnd, per), j, k);
    RowOfGroup(TrackLists(per), j, k);
  }

  lemma ViaRowAt(rnd: real -> real, per: seq<PerNet>, j: nat, k: nat)
    requires j < |per| && k < |per[j].vias|
    ensures var t, pool, r := DynTablesOf(rnd, per), NetPool(rnd, per[j].tracks, per[j].vias), Start(ViaLists(per), j) + k;
      && r < |t.viaPt| && |t.viaLs| == |t.viaLe| == |t.viaDia| == |t.viaPt|
      && t.viaPt[r] == Start(Pools(rnd, per), j) + Row(rnd, pool, per[j].vias[k].center)
      && t.viaLs[r] == per[j].vias[k].layerStart && t.viaLe[r] == per[j].vias[k].layerEnd && t.viaDia[r] == per[j].vias[k].viaWidth
  {
    hide Flat, NetPool, Row, Start, Starts, Counts, TrackRefLists, Pools;
    RefsAligned(rnd, per);
    RefStarts(rnd, per, j);
    RowOfGroup(ViaRefLists(rnd, per), j, k);
    RowOfGroup(ViaLists(per), j, k);
  }

  lemma PointRowAt(rnd: real -> real, per: seq<PerNet>, j: nat, k: nat)
    requires j < |per| && k < |per[j].points|
    ensures var t, q, r := DynTablesOf(rnd, per), per[j].points[k], Start(PointLists(per), j) + k;
      && r < |t.ratXy| && |t.ratQ| == |t.ratLayer| == |t.ratXy|
      && t.ratXy[r] == (q.x, q.y) && t.ratQ[r] == q.q && t.ratLayer[r] == q.layer
  {
    hide Flat, NetPool, Row, Start, Starts, Counts, TrackRefLists, ViaRefLists, Pools;
    RowOfGroup(PointLists(per), j, k);
  }

  /** Which net a row of a concatenation belongs to. */
  lemma {:induction false} GroupOfRow<T>(groups: seq<seq<T>>, r: nat) returns (j: nat, k: nat)
    requires r < |Flat(groups)|
    ensures j < |groups| && k < |groups[j]| && r == Start(groups, j) + k
  {
    var n := |groups| - 1;
    if r < |Flat(groups[..n])| {
      j, k := GroupOfRow(groups[..n], r);
      assert groups[..n][..j] == groups[..j];
    } else {
      j, k := n, r - |Flat(groups[..n])|;
    }
  }

  lemma PoolRowAt(rnd: real -> real, per: seq<PerNet>, j: nat, row: nat)
    requires j < |per| && row < |NetPool(rnd, per[j].tracks, per[j].vias)|
    ensures var t := DynTablesOf(rnd, per);
      && Start(Pools(rnd, per), j) + row < |t.ptXy|
      && t.ptXy[Start(Pools(rnd, per), j) + row] == NetPool(rnd, per[j].tracks, per[j].vias)[row]
  {
    hide Flat, NetPool, Row, Start, Starts, Counts, TrackRefLists, ViaRefLists, TrackLists, ViaLists, PointLists;
    RowOfGroup(Pools(rnd, per), j, row);
  }

  lemma TrackRowOwner(rnd: real -> real, per: seq<PerNet>, r: nat) returns (j: nat, k: nat)
    requires r < |DynTablesOf(rnd, per).trkPt|
    ensures j < |per| && k < |per[j].tracks| && r == Start(TrackLists(per), j) + k
  {
    hide Flat, NetPool, Start, Pools, TrackRefs;
    j, k := GroupOfRow(TrackRefLists(rnd, per), r);
    RefStarts(rnd, per, j);
  }

  lemma ViaRowOwner(rnd: real -> real, per: seq<PerNet>, r: nat) returns (j: nat, k: nat)
    requires r < |DynTablesOf(rnd, per).viaPt|
    ensures j < |per| && k < |per[j].vias| && r == Start(ViaLists(per), j) + k
  {
    hide Flat, NetPool, Start, Pools, ViaRefs;
    j, k := GroupOfRow(ViaRefLists(rnd, per), r);
    RefStarts(rnd, per, j);
  }

  /** A reference lies inside the stretch of the pool that starts at `base` and has `count` points. */
  predicate InSpan(ref: int, base: int, count: int) { base <= ref < base + count }

  lemma TrackRefsInPool(rnd: real -> real, per: seq<PerNet>, j: nat, k: nat)
    requires j < |per| && k < |per[j].tracks|
    ensures var t, r, base, count := DynTablesOf(rnd, per), Start(TrackLists(per), j) + k, Start(Pools(rnd, per), j),
                                     |NetPool(rnd, per[j].tracks, per[j].vias)|;
      && r < |t.trkPt| && base + count <= |t.ptXy|
      && InSpan(t.trkPt[r].0, base, count) && InSpan(t.trkPt[r].1, base, count)
  {
    hide Flat, NetPool, Row, Start, Pools, DynTablesOf, TrackLists;
    TrackRowAt(rnd, per, j, k);
    TrackPtsRegistered(rnd, per[j], k);
    PoolRowAt(rnd, per, j, |NetPool(rnd, per[j].tracks, per[j].vias)| - 1);
  }

  lemma ViaRefsInPool(rnd: real -> real, per: seq<PerNet>, j: nat, k: nat)
    requires j < |per| && k < |per[j].vias|
    ensures var t, r, base, count := DynTablesOf(rnd, per), Start(ViaLists(per), j) + k, Start(Pools(rnd, per), j),
                                     |NetPool(rnd, per[j].tracks, per[j].vias)|;
      && r < |t.viaPt| && base + count <= |t.ptXy| && InSpan(t.viaPt[r], base, count)
  {
    hide Flat, NetPool, Row, Start, Pools, DynTablesOf, ViaLists;
    ViaRowAt(rnd, per, j, k);
    ViaPtsRegistered(rnd, per[j], k);
    PoolRowAt(rnd, per, j, |NetPool(rnd, per[j].tracks, per[j].vias)| - 1);
  }

  lemma SpansOf<T>(groups: seq<seq<T>>)
    ensures SpansIn(Starts(groups), Counts(groups), |groups|, |Flat(groups)|)
  {
    forall j | 0 <= j < |groups| ensures Start(groups, j) + |groups[j]| <= |Flat(groups)| {
      SliceIsGroup(groups, j);
    }
  }

  /** Every span of the built tables lies in its columns, every reference in the pool. */
  lemma DynTablesInRange(rnd: real -> real, per: seq<PerNet>)
    ensures DynInRange(DynTablesOf(rnd, per))
  {
    RefsAligned(rnd, per);
    SpansOf(TrackLists(per));
    SpansOf(ViaLists(per));
    SpansOf(PointLists(per));
    hide Flat, NetPool, Row, Start, Starts, Counts, SpansIn, TrackRefLists, ViaRefLists, TrackLists, ViaLists, PointLists;
    var t := DynTablesOf(rnd, per);
    forall r | 0 <= r < |t.trkPt| ensures 0 <= t.trkPt[r].0 < |t.ptXy| && 0 <= t.trkPt[r].1 < |t.ptXy| {
      var j, k := TrackRowOwner(rnd, per, r);
      TrackRefsInPool(rnd, per, j, k);
    }
    forall r | 0 <= r < |t.viaPt| ensures 0 <= t.viaPt[r] < |t.ptXy| {
      var j, k := ViaRowOwner(rnd, per, r);
      ViaRefsInPool(rnd, per, j, k);
    }
  }

  // --- the tables decode to the nets' own dicts -----------------------------------------------------------

  lemma PoolDictIs(rnd: real -> real, pool: seq<Pt>, p: Pt)
    requires Row(rnd, pool, p) < |pool|
    ensures PoolDict(rnd, pool, p)
         == PointDict("P" + PrintInt(Row(rnd, pool, p)), (pool[Row(rnd, pool, p)].x, pool[Row(rnd, pool, p)].y))
  {
  }

  lemma LocalPointIs(rnd: real -> real, per: seq<PerNet>, j: nat, p: Pt)
    requires j < |per| && Row(rnd, NetPool(rnd, per[j].tracks, per[j].vias), p) < |NetPool(rnd, per[j].tracks, per[j].vias)|
    ensures var t, base, pool := DynTablesOf(rnd, per), Start(Pools(rnd, per), j), NetPool(rnd, per[j].tracks, per[j].vias);
      && base + Row(rnd, pool, p) < |t.ptXy|
      && LocalPointAt(t, base, base + Row(rnd, pool, p)) == PoolDict(rnd, pool, p)
  {
    hide Flat, NetPool, Start, Pools, DynTablesOf, PrintInt, Row, PoolDict;
    PoolRowAt(rnd, per, j, Row(rnd, NetPool(rnd, per[j].tracks, per[j].vias), p));
    PoolDictIs(rnd, NetPool(rnd, per[j].tracks, per[j].vias), p);
  }

  lemma TrackDecodes(rnd: real -> real, per: seq<PerNet>, j: nat, k: nat)
    requires j < |per| && k < |per[j].tracks| && DynInRange(DynTablesOf(rnd, per))
    ensures Start(TrackLists(per), j) + k < |DynTablesOf(rnd, per).trkPt|
    ensures TrackAt(DynTablesOf(rnd, per), Start(Pools(rnd, per), j), k, Start(TrackLists(per), j) + k)
         == TrackDictOf(rnd, NetPool(rnd, per[j].tracks, per[j].vias), k, per[j].tracks[k])
  {
    hide Flat, NetPool, Start, Pools, DynTablesOf, DynInRange, Print, IndexOf, TrackLists, Row, PoolDict, LocalPointAt;
    TrackRowAt(rnd, per, j, k);
    TrackPtsRegistered(rnd, per[j], k);
    LocalPointIs(rnd, per, j, per[j].tracks[k].p1);
    LocalPointIs(rnd, per, j, per[j].tracks[k].p2);
  }

  lemma ViaDecodes(rnd: real -> real, per: seq<PerNet>, j: nat, k: nat)
    requires j < |per| && k < |per[j].vias| && DynInRange(DynTablesOf(rnd, per))
    ensures Start(ViaLists(per), j) + k < |DynTablesOf(rnd, per).viaPt|
    ensures ViaAt(DynTablesOf(rnd, per), Start(Pools(rnd, per), j), k, Start(ViaLists(per), j) + k)
         == ViaDictOf(rnd, NetPool(rnd, per[j].tracks, per[j].vias), k, per[j].vias[k])
  {
    hide Flat, NetPool, Start, Pools, DynTablesOf, DynInRange, Print, IndexOf, ViaLists, Row, PoolDict, LocalPointAt;
    ViaRowAt(rnd, per, j, k);
    ViaPtsRegistered(rnd, per[j], k);
    LocalPointIs(rnd, per, j, per[j].vias[k].center);
  }

  lemma PointDecodes(rnd: real -> real, per: seq<PerNet>, j: nat, k: nat)
    requires j < |per| && k < |per[j].points| && DynInRange(DynTablesOf(rnd, per))
    ensures Start(PointLists(per), j) + k < |DynTablesOf(rnd, per).ratXy|
    ensures PointAtRow(DynTablesOf(rnd, per), Start(PointLists(per), j) + k) == QDictOf(per[j].points[k])
  {
    hide Flat, NetPool, Start, Pools, DynTablesOf, DynInRange, Print, PointLists;
    PointRowAt(rnd, per, j, k);
  }

  /** The header of net j: where its groups start and how long they are. */
  lemma HeaderIs(rnd: real -> real, per: seq<PerNet>, j: nat)
    requires j < |per|
    ensures var t := DynTablesOf(rnd, per);
      && |t.netCode| == |t.netPtStart| == |t.netPtCount| == |t.trkStart| == |t.trkCount| == |per|
      && |t.viaStart| == |t.viaCount| == |t.ratStart| == |t.ratCount| == |per|
      && t.netCode[j] == per[j].code && t.netPtStart[j] == Start(Pools(rnd, per), j)
      && t.netPtCount[j] == |NetPool(rnd, per[j].tracks, per[j].vias)|
      && t.trkStart[j] == Start(TrackLists(per), j) && t.trkCount[j] == |per[j].tracks|
      && t.viaStart[j] == Start(ViaLists(per), j) && t.viaCount[j] == |per[j].vias|
      && t.ratStart[j] == Start(PointLists(per), j) && t.ratCount[j] == |per[j].points|
  {
    hide Flat, NetPool, Start, TrackRefLists, ViaRefLists;
  }

  lemma TracksDecode(rnd: real -> real, per: seq<PerNet>, j: nat)
    requires j < |per| && DynInRange(DynTablesOf(rnd, per)) && j < |DynTablesOf(rnd, per).netCode|
    ensures TracksAt(DynTablesOf(rnd, per), j) == TrackDictsOf(rnd, NetPool(rnd, per[j].tracks, per[j].vias), per[j].tracks)
  {
    hide Flat, NetPool, Start, Pools, DynTablesOf, Print, TrackLists, ViaLists, PointLists, TrackAt, TrackDictOf;
    HeaderIs(rnd, per, j);
    forall k | 0 <= k < |per[j].tracks|
      ensures TracksAt(DynTablesOf(rnd, per), j)[k] == ("track_" + Print(k), TrackDictOf(rnd, NetPool(rnd, per[j].tracks, per[j].vias), k, per[j].tracks[k]))
    {
      TrackDecodes(rnd, per, j, k);
    }
  }

  lemma ViasDecode(rnd: real -> real, per: seq<PerNet>, j: nat)
    requires j < |per| && DynInRange(DynTablesOf(rnd, per)) && j < |DynTablesOf(rnd, per).netCode|
    ensures ViasAt(DynTablesOf(rnd, per), j) == ViaDictsOf(rnd, NetPool(rnd, per[j].tracks, per[j].vias), per[j].vias)
  {
    hide Flat, NetPool, Start, Pools, DynTablesOf, Print, TrackLists, ViaLists, PointLists, ViaAt, ViaDictOf;
    HeaderIs(rnd, per, j);
    forall k | 0 <= k < |per[j].vias|
      ensures ViasAt(DynTablesOf(rnd, per), j)[k] == ("via_" + Print(k), ViaDictOf(rnd, NetPool(rnd, per[j].tracks, per[j].vias), k, per[j].vias[k]))
    {
      ViaDecodes(rnd, per, j, k);
    }
  }

  lemma PointsDecode(rnd: real -> real, per: seq<PerNet>, j: nat)
    requires j < |per| && DynInRange(DynTablesOf(rnd, per)) && j < |DynTablesOf(rnd, per).netCode|
    ensures PointsAt(DynTablesOf(rnd, per), j) == Map(QDictOf, per[j].points)
  {
    hide Flat, NetPool, Start, Pools, DynTablesOf, Print, TrackLists, ViaLists, PointLists, PointAtRow, QDictOf;
    HeaderIs(rnd, per, j);
    forall k | 0 <= k < |per[j].points| ensures PointsAt(DynTablesOf(rnd, per), j)[k] == QDictOf(per[j].points[k]) {
      PointDecodes(rnd, per, j, k);
    }
  }

  /** The tables of any list of nets decode, net by net, to the dicts those nets stand for: the
      offsets, the per-net pools and the relative ids undo one another. */
  lemma TablesDecodePerNet(rnd: real -> real, per: seq<PerNet>)
    ensures DynInRange(DynTablesOf(rnd, per)) && |DynTablesOf(rnd, per).netCode| == |per|
    ensures forall j | 0 <= j < |per| ::
              DynamicOf(DynTablesOf(rnd, per))[j] == (NetKey(per[j].code), PerDict(rnd, per[j]))
  {
    DynTablesInRange(rnd, per);
    hide DynTablesOf, DynInRange, NetPool, TracksAt, ViasAt, PointsAt, TrackDictsOf, ViaDictsOf, NetKey, Start, Flat;
    if per == [] {
      NoNets(rnd, per);
      assert per[..0] == per;
    }
    forall j | 0 <= j < |per|
      ensures |DynTablesOf(rnd, per).netCode| == |per|
      ensures DynamicOf(DynTablesOf(rnd, per))[j] == (NetKey(per[j].code), PerDict(rnd, per[j]))
    {
      HeaderIs(rnd, per, j);
      TracksDecode(rnd, per, j);
      ViasDecode(rnd, per, j);
      PointsDecode(rnd, per, j);
    }
    if per != [] { HeaderIs(rnd, per, 0); }
  }

  // --- from geometries to rows ---------------------------------------------------------------------------

  function RepTrack(rnd: real -> real, pool: seq<Pt>, t: TrackRow): TrackRow {
    t.(p1 := Rep(XyKey(rnd), pool, t.p1), p2 := Rep(XyKey(rnd), pool, t.p2))
  }

  function RepVia(rnd: real -> real, pool: seq<Pt>, v: ViaRow): ViaRow {
    v.(center := Rep(XyKey(rnd), pool, v.center))
  }

  function RepTracks(rnd: real -> real, pool: seq<Pt>, ts: seq<TrackRow>): (us: seq<TrackRow>)
    ensures |us| == |ts|
  {
    Map((t: TrackRow) => RepTrack(rnd, pool, t), ts)
  }

  function RepVias(rnd: real -> real, pool: seq<Pt>, vs: seq<ViaRow>): (us: seq<ViaRow>)
    ensures |us| == |vs|
  {
    Map((v: ViaRow) => RepVia(rnd, pool, v), vs)
  }

  /** The rows of a net with every point replaced by its first-registered representative. */
  function PerOf(rnd: real -> real, g: RawGeometry): PerNet {
    var pool := NetPool(rnd, g.tracks, g.vias);
    PerNet(g.code, RepTracks(rnd, pool, g.tracks), RepVias(rnd, pool, g.vias),
           QPointsOf(rnd, Reps(XylKey(rnd), Pool(XylKey(rnd), g.points), g.points)))
  }

  lemma RepQ(rnd: real -> real, ps: seq<Pt3>, i: nat)
    requires i < |ps|
    ensures var pool := Pool(XylKey(rnd), ps);
      QPointsOf(rnd, Reps(XylKey(rnd), pool, ps))[i] == QPointOf(rnd, pool, Rep(XylKey(rnd), pool, ps[i]))
    ensures QRow(rnd, Pool(XylKey(rnd), ps), Rep(XylKey(rnd), Pool(XylKey(rnd), ps), ps[i])) == QRow(rnd, Pool(XylKey(rnd), ps), ps[i])
  {
    PoolKeys(XylKey(rnd), ps);
    RepsPool(XylKey(rnd), ps, Pool(XylKey(rnd), ps));
    RepKey(XylKey(rnd), Pool(XylKey(rnd), ps), ps[i]);
  }

  lemma IdNumberOf(prefix: char, n: nat)
    ensures IdNumber([prefix] + Print(n)) == Some(n)
  {
    ParsePrint(n);
    assert ([prefix] + Print(n))[1..] == Print(n);
  }

  /** The hot path takes the same rows from the dataclasses as the cold path from the printed dict. */
  lemma FrontEndsAgree(rnd: real -> real, g: RawGeometry)
    ensures IdsParse(GeometryOf(rnd, g))
    ensures PerOfIr((g.code, GeometryOf(rnd, g))) == PerOf(rnd, g)
    ensures NetCodeOfKey(NetKey(g.code)) == Some(g.code)
    ensures PerOfDict(rnd, (NetKey(g.code), NetGeometryToDict(GeometryOf(rnd, g)))) == PerOf(rnd, g)
  {
    NetKeyParses(g.code);
    IrPointsAgree(rnd, g.points);
    hide Pool, IndexOf, Rep, IdNumber, NetCodeOfKey, NetKey, Print, PointsOf, QPointsOf;
    var ir, per := GeometryOf(rnd, g), PerOf(rnd, g);
    assert PerOfIr((g.code, ir)).tracks == per.tracks;
    assert PerOfIr((g.code, ir)).vias == per.vias;
    DictRowsAgree(rnd, g);
  }

  lemma IrPointsAgree(rnd: real -> real, ps: seq<Pt3>)
    ensures forall i | 0 <= i < |ps| :: IdNumber(PointsOf(rnd, ps)[i].id).Some?
    ensures Map(QOfPoint, PointsOf(rnd, ps)) == QPointsOf(rnd, Reps(XylKey(rnd), Pool(XylKey(rnd), ps), ps))
  {
    var pool := Pool(XylKey(rnd), ps);
    forall i | 0 <= i < |ps|
      ensures IdNumber(PointsOf(rnd, ps)[i].id).Some?
      ensures QOfPoint(PointsOf(rnd, ps)[i]) == QPointsOf(rnd, Reps(XylKey(rnd), pool, ps))[i]
    {
      RepQ(rnd, ps, i);
      IdNumberOf('Q', QRow(rnd, pool, ps[i]));
    }
  }

  lemma DictRowsAgree(rnd: real -> real, g: RawGeometry)
    ensures var d, per := NetGeometryToDict(GeometryOf(rnd, g)), PerOf(rnd, g);
      && Map((t: (string, TrackDict)) => DictTrackRow(t.1), d.tracks) == per.tracks
      && Map((v: (string, ViaDict)) => DictViaRow(v.1), d.vias) == per.vias
      && Map(DictPt3, d.points) == Reps(XylKey(rnd), Pool(XylKey(rnd), g.points), g.points)
  {
    hide Pool, IndexOf, NetPool, QPointsOf;
  }

  lemma {:induction false} RepTracksPts(rnd: real -> real, pool: seq<Pt>, ts: seq<TrackRow>)
    ensures TracksPts(RepTracks(rnd, pool, ts)) == Reps(XyKey(rnd), pool, TracksPts(ts))
  {
    var reps := RepTracks(rnd, pool, ts);
    if ts != [] {
      var k := |ts| - 1;
      RepTracksPts(rnd, pool, ts[..k]);
      assert reps[..k] == RepTracks(rnd, pool, ts[..k]);
      TracksStep(ts, k);
      TracksStep(reps, k);
      assert ts[..k + 1] == ts && reps[..k + 1] == reps;
      RepsConcat(XyKey(rnd), pool, TracksPts(ts[..k]), [ts[k].p1]);
      RepsConcat(XyKey(rnd), pool, TracksPts(ts[..k]) + [ts[k].p1], [ts[k].p2]);
    }
  }

  /** The representatives of a net register as the same pool. */
  lemma PerPool(rnd: real -> real, g: RawGeometry)
    ensures NetPool(rnd, PerOf(rnd, g).tracks, PerOf(rnd, g).vias) == NetPool(rnd, g.tracks, g.vias)
  {
    var kf, pool, pts := XyKey(rnd), NetPool(rnd, g.tracks, g.vias), NetPts(g.tracks, g.vias);
    RepTracksPts(rnd, pool, g.tracks);
    assert ViaPts(RepVias(rnd, pool, g.vias)) == Reps(kf, pool, ViaPts(g.vias));
    RepsConcat(kf, pool, TracksPts(g.tracks), ViaPts(g.vias));
    PoolKeys(kf, pts);
    RepsPool(kf, pts, pool);
  }

  lemma RepPoolDict(rnd: real -> real, pts: seq<Pt>, p: Pt)
    ensures PoolDict(rnd, Pool(XyKey(rnd), pts), Rep(XyKey(rnd), Pool(XyKey(rnd), pts), p)) == PoolDict(rnd, Pool(XyKey(rnd), pts), p)
  {
    RepKey(XyKey(rnd), Pool(XyKey(rnd), pts), p);
  }

  /** A net's rows stand for the dict printed from its geometry. */
  lemma PerDictIsPrinted(rnd: real -> real, g: RawGeometry)
    ensures PerDict(rnd, PerOf(rnd, g)) == NetGeometryToDict(GeometryOf(rnd, g))
  {
    var pool, per, d := NetPool(rnd, g.tracks, g.vias), PerOf(rnd, g), NetGeometryToDict(GeometryOf(rnd, g));
    PerPool(rnd, g);
    forall p: Pt ensures PoolDict(rnd, pool, Rep(XyKey(rnd), pool, p)) == PoolDict(rnd, pool, p) {
      RepPoolDict(rnd, NetPts(g.tracks, g.vias), p);
    }
    PointsPrinted(rnd, g.points);
    hide NetPool, Rep, PoolDict, Ref2, Pool, PointsOf, QPointsOf, Print;
    assert TrackDictsOf(rnd, pool, per.tracks) == d.tracks by { TracksPrinted(rnd, pool, g.tracks); }
    assert ViaDictsOf(rnd, pool, per.vias) == d.vias by { ViasPrinted(rnd, pool, g.vias); }
  }

  lemma TracksPrinted(rnd: real -> real, pool: seq<Pt>, ts: seq<TrackRow>)
    requires forall p: Pt :: PoolDict(rnd, pool, Rep(XyKey(rnd), pool, p)) == PoolDict(rnd, pool, p)
    ensures TrackDictsOf(rnd, pool, RepTracks(rnd, pool, ts)) == Enumerated("track_", (l: Line) => TrackToDict(l), TrackLines(rnd, pool, ts))
  {
    hide Rep, Ref2;
  }

  lemma ViasPrinted(rnd: real -> real, pool: seq<Pt>, vs: seq<ViaRow>)
    requires forall p: Pt :: PoolDict(rnd, pool, Rep(XyKey(rnd), pool, p)) == PoolDict(rnd, pool, p)
    ensures ViaDictsOf(rnd, pool, RepVias(rnd, pool, vs)) == Enumerated("via_", (v: Via) => ViaToDict(v), ViasOf(rnd, pool, vs))
  {
    hide Rep, Ref2;
  }

  lemma PointsPrinted(rnd: real -> real, ps: seq<Pt3>)
    ensures Map(QDictOf, QPointsOf(rnd, Reps(XylKey(rnd), Pool(XylKey(rnd), ps), ps)))
         == Map((p: Point3D) => Point3ToDict(p), PointsOf(rnd, ps))
  {
    forall i | 0 <= i < |ps|
      ensures QDictOf(QPointsOf(rnd, Reps(XylKey(rnd), Pool(XylKey(rnd), ps), ps))[i]) == Point3ToDict(PointsOf(rnd, ps)[i])
    {
      RepQ(rnd, ps, i);
    }
  }

  ghost predicate AscendingCodes(gs: seq<RawGeometry>) {
    forall i, j | 0 <= i < j < |gs| :: gs[i].code < gs[j].code
  }

  lemma {:induction false} SortedFixed<T>(key: T -> seq<real>, xs: seq<T>)
    requires Sorted(key, xs)
    ensures SortBy(key, xs) == xs
  {
    if xs != [] {
      SortedFixed(key, xs[..|xs| - 1]);
      if |xs| > 1 { assert LexLeq(key(xs[|xs| - 2]), key(xs[|xs| - 1])); }
    }
  }

  /** Both front-ends see the nets in ascending net code, so sorting changes nothing. */
  lemma AlreadyInOrder(rnd: real -> real, gs: seq<RawGeometry>)
    requires AscendingCodes(gs)
    ensures SortBy(IrCode, GeometriesOf(rnd, gs)) == GeometriesOf(rnd, gs)
    ensures SortBy(DictCode, RoutingGeometryDict(GeometriesOf(rnd, gs))) == RoutingGeometryDict(GeometriesOf(rnd, gs))
  {
    var ir := GeometriesOf(rnd, gs);
    var d := RoutingGeometryDict(ir);
    hide GeometryOf, NetGeometryToDict, NetCodeOfKey, NetKey;
    forall i, j | 0 <= i < j < |gs| ensures LexLeq(IrCode(ir[i]), IrCode(ir[j])) && LexLeq(DictCode(d[i]), DictCode(d[j])) {
      NetKeyParses(gs[i].code);
      NetKeyParses(gs[j].code);
    }
    SortedFixed(IrCode, ir);
    SortedFixed(DictCode, d);
  }

  /** The lossless promise, dynamic half.  For every list of nets in ascending code order: the tables
      built from the geometry and the tables built from its printed dict are the same tables, and they
      decode to that very dict, every P, T, V and Q id included. */
  lemma DynamicLossless(rnd: real -> real, gs: seq<RawGeometry>)
    requires AscendingCodes(gs)
    ensures var ir := GeometriesOf(rnd, gs);
      var d := RoutingGeometryDict(ir);
      var t := DynTablesOf(rnd, Map(PerOfIr, SortBy(IrCode, ir)));
      && (forall i | 0 <= i < |ir| :: IdsParse(ir[i].1)) && KeysParse(d) && DynInRange(t)
      && DynTablesOf(rnd, Map((kv: (string, NetGeometryDict)) => PerOfDict(rnd, kv), SortBy(DictCode, d))) == t
      && DynamicOf(t) == d
  {
    var ir := GeometriesOf(rnd, gs);
    var d := RoutingGeometryDict(ir);
    AlreadyInOrder(rnd, gs);
    var per := Map((g: RawGeometry) => PerOf(rnd, g), gs);
    hide GeometryOf, NetGeometryToDict, NetCodeOfKey, NetKey, PerOf, PerOfDict, PerOfIr, DynTablesOf, DynInRange, PerDict, SortBy,
         IdsParse, NetGeometryAt;
    forall i | 0 <= i < |gs|
      ensures IdsParse(ir[i].1) && NetCodeOfKey(d[i].0).Some?
      ensures PerOfIr(ir[i]) == per[i] && PerOfDict(rnd, d[i]) == per[i]
      ensures d[i] == (NetKey(gs[i].code), PerDict(rnd, per[i])) && per[i].code == gs[i].code
    {
      FrontEndsAgree(rnd, gs[i]);
      PerDictIsPrinted(rnd, gs[i]);
      PerCode(rnd, gs[i]);
    }
    assert Map(PerOfIr, ir) == per;
    assert Map((kv: (string, NetGeometryDict)) => PerOfDict(rnd, kv), d) == per;
    TablesDecodePerNet(rnd, per);
    assert DynamicOf(DynTablesOf(rnd, per)) == d;
  }

  lemma PerCode(rnd: real -> real, g: RawGeometry)
    ensures PerOf(rnd, g).code == g.code
  {
  }
}
