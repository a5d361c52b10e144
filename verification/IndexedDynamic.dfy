/** The dynamic tables of the indexed observation: per-net point pools, tracks, vias and ratsnest
    points in start/count form, and the way back. */
module IndexedDynamic {
  import opened Decimal
  import opened Dedup
  import opened Csr
  import opened StableSort
  import opened Observation
  import opened BoardContext
  import opened NetGeometries
  import opened IndexedStatic

  /** One net as the front-ends hand it over: plain rows, ratsnest points with their Q number. */
  datatype QPoint = QPoint(x: real, y: real, q: nat, layer: int)
  datatype PerNet = PerNet(code: int, tracks: seq<TrackRow>, vias: seq<ViaRow>, points: seq<QPoint>)

  datatype DynTables = DynTables(
    ptXy: seq<Pt>, netCode: seq<int>,
    netPtStart: seq<int>, netPtCount: seq<int>, trkStart: seq<int>, trkCount: seq<int>,
    viaStart: seq<int>, viaCount: seq<int>, ratStart: seq<int>, ratCount: seq<int>,
    trkPt: seq<(int, int)>, trkW: seq<real>, trkLayer: seq<int>,
    viaPt: seq<int>, viaLs: seq<int>, viaLe: seq<int>, viaDia: seq<real>,
    ratXy: seq<(real, real)>, ratQ: seq<int>, ratLayer: seq<int>)

  // --- what the tables are -----------------------------------------------------------------------

  function Pools(rnd: real -> real, per: seq<PerNet>): (g: seq<seq<Pt>>)
    ensures |g| == |per|
  {
    Map((p: PerNet) => NetPool(rnd, p.tracks, p.vias), per)
  }

  function TrackLists(per: seq<PerNet>): (g: seq<seq<TrackRow>>) ensures |g| == |per| { Map((p: PerNet) => p.tracks, per) }
  function ViaLists(per: seq<PerNet>): (g: seq<seq<ViaRow>>) ensures |g| == |per| { Map((p: PerNet) => p.vias, per) }
  function PointLists(per: seq<PerNet>): (g: seq<seq<QPoint>>) ensures |g| == |per| { Map((p: PerNet) => p.points, per) }

  /** Where each group starts and how many rows it has. */
  function Starts<T>(groups: seq<seq<T>>): (s: seq<int>)
    ensures |s| == |groups| && forall j | 0 <= j < |groups| :: s[j] == Start(groups, j)
  {
    seq(|groups|, j requires 0 <= j < |groups| => Start(groups, j))
  }

  function Counts<T>(groups: seq<seq<T>>): (s: seq<int>)
    ensures |s| == |groups|
  {
    Map((g: seq<T>) => |g|, groups)
  }

  /** Global rows of a net's track ends: its pool's base plus the row in its own pool. */
  function TrackRefs(rnd: real -> real, base: nat, p: PerNet): (refs: seq<(int, int)>)
    ensures |refs| == |p.tracks|
  {
    var pool := NetPool(rnd, p.tracks, p.vias);
    Map((t: TrackRow) => (base + Row(rnd, pool, t.p1), base + Row(rnd, pool, t.p2)), p.tracks)
  }

  function ViaRefs(rnd: real -> real, base: nat, p: PerNet): (refs: seq<int>)
    ensures |refs| == |p.vias|
  {
    var pool := NetPool(rnd, p.tracks, p.vias);
    Map((v: ViaRow) => base + Row(rnd, pool, v.center), p.vias)
  }

  function TrackRefLists(rnd: real -> real, per: seq<PerNet>): (g: seq<seq<(int, int)>>)
    ensures |g| == |per| && forall j | 0 <= j < |per| :: g[j] == TrackRefs(rnd, Start(Pools(rnd, per), j), per[j])
  {
    seq(|per|, j requires 0 <= j < |per| => TrackRefs(rnd, Start(Pools(rnd, per), j), per[j]))
  }

  function ViaRefLists(rnd: real -> real, per: seq<PerNet>): (g: seq<seq<int>>)
    ensures |g| == |per| && forall j | 0 <= j < |per| :: g[j] == ViaRefs(rnd, Start(Pools(rnd, per), j), per[j])
  {
    seq(|per|, j requires 0 <= j < |per| => ViaRefs(rnd, Start(Pools(rnd, per), j), per[j]))
  }

  /** The tables of a list of nets: every column is the concatenation of the nets' own columns. */
  function DynTablesOf(rnd: real -> real, per: seq<PerNet>): DynTables {
    var pools, trks, vias, rats := Pools(rnd, per), TrackLists(per), ViaLists(per), PointLists(per);
    DynTables(Flat(pools), Map((p: PerNet) => p.code, per),
              Starts(pools), Counts(pools), Starts(trks), Counts(trks), Starts(vias), Counts(vias), Starts(rats), Counts(rats),
              Flat(TrackRefLists(rnd, per)), Map((t: TrackRow) => t.width, Flat(trks)), Map((t: TrackRow) => t.layer, Flat(trks)),
              Flat(ViaRefLists(rnd, per)), Map((v: ViaRow) => v.layerStart, Flat(vias)), Map((v: ViaRow) => v.layerEnd, Flat(vias)),
              Map((v: ViaRow) => v.viaWidth, Flat(vias)),
              Map((q: QPoint) => (q.x, q.y), Flat(rats)), Map((q: QPoint) => q.q, Flat(rats)), Map((q: QPoint) => q.layer, Flat(rats)))
  }

  // --- building them --------------------------------------------------------------------------------

  function RowRef(i: nat, p: Pt): nat { i }

  /** The shared pool list `pts` holds the nets before (`before`), then this net's points registered
      so far; `keyToIdx` knows the latter by their row in the net's own pool. */
  ghost predicate LocalPool(rnd: real -> real, before: seq<Pt>, pts: seq<Pt>, keyToIdx: map<(real, real), nat>, done: seq<Pt>) {
    pts == before + Pool(XyKey(rnd), done) && Registers(XyKey(rnd), RowRef, keyToIdx, Pool(XyKey(rnd), done))
  }

  /** `_reg`: the global row of a point of the net whose pool starts at `base`. */
  method Reg(rnd: real -> real, base: nat, pts: seq<Pt>, keyToIdx: map<(real, real), nat>, x: real, y: real,
             ghost before: seq<Pt>, ghost all: seq<Pt>, ghost done: seq<Pt>)
    returns (pts': seq<Pt>, keyToIdx': map<(real, real), nat>, row: nat)
    requires base == |before| && LocalPool(rnd, before, pts, keyToIdx, done) && done + [Pt(x, y)] <= all
    ensures LocalPool(rnd, before, pts', keyToIdx', done + [Pt(x, y)])
    ensures row == base + Row(rnd, Pool(XyKey(rnd), all), Pt(x, y))
  {
    hide HoldsPool, HoldsNoMore, DistinctKeys, IndexOf, Pool;
    ghost var kf, pt, pool := XyKey(rnd), Pt(x, y), Pool(XyKey(rnd), done);
    var key := (rnd(x), rnd(y));
    assert key == kf(pt);
    RowAt(rnd, all, done, pt);
    if key !in keyToIdx {
      RegisterNew(kf, RowRef, keyToIdx, pool, pt);
      var idx := |pts| - base;
      keyToIdx', pts' := keyToIdx[key := idx], pts + [Pt(x, y)];
      row := base + idx;
    } else {
      RegisteredEntry(kf, RowRef, keyToIdx, pool, pt);
      keyToIdx', pts' := keyToIdx, pts;
      row := base + keyToIdx[key];
    }
  }

  /** The tracks of one net appended to the shared track columns. */
  method AppendTracks(rnd: real -> real, base: nat, p: PerNet, pts0: seq<Pt>, trkPt0: seq<(int, int)>, trkW0: seq<real>, trkLayer0: seq<int>)
    returns (pts: seq<Pt>, keyToIdx: map<(real, real), nat>, trkPt: seq<(int, int)>, trkW: seq<real>, trkLayer: seq<int>)
    requires base == |pts0|
    ensures LocalPool(rnd, pts0, pts, keyToIdx, TracksPts(p.tracks))
    ensures trkPt == trkPt0 + TrackRefs(rnd, base, p)
    ensures trkW == trkW0 + Map((t: TrackRow) => t.width, p.tracks)
    ensures trkLayer == trkLayer0 + Map((t: TrackRow) => t.layer, p.tracks)
  {
    ghost var all := NetPts(p.tracks, p.vias);
    FreshPool(rnd, pts0, p.tracks);
    hide LocalPool, Flat, TracksPts, Row, IndexOf, Pool, XyKey;
    pts, keyToIdx, trkPt, trkW, trkLayer := pts0, map[], trkPt0, trkW0, trkLayer0;
    for i := 0 to |p.tracks|
      invariant LocalPool(rnd, pts0, pts, keyToIdx, TracksPts(p.tracks[..i]))
      invariant trkPt == trkPt0 + TrackRefs(rnd, base, p)[..i]
      invariant trkW == trkW0 + Map((t: TrackRow) => t.width, p.tracks)[..i]
      invariant trkLayer == trkLayer0 + Map((t: TrackRow) => t.layer, p.tracks)[..i]
    {
      var t := p.tracks[i];
      ghost var d0 := TracksPts(p.tracks[..i]);
      TracksStep(p.tracks, i);
      assert d0 + [t.p1] <= all && d0 + [t.p1] + [t.p2] <= all;
      var row1, row2;
      pts, keyToIdx, row1 := Reg(rnd, base, pts, keyToIdx, t.p1.x, t.p1.y, pts0, all, d0);
      pts, keyToIdx, row2 := Reg(rnd, base, pts, keyToIdx, t.p2.x, t.p2.y, pts0, all, d0 + [t.p1]);
      assert (row1, row2) == TrackRefs(rnd, base, p)[i];
      trkPt := trkPt + [(row1, row2)];
      trkW := trkW + [t.width];
      trkLayer := trkLayer + [t.layer];
    }
    assert p.tracks[..|p.tracks|] == p.tracks;
  }

  lemma FreshPool(rnd: real -> real, before: seq<Pt>, ts: seq<TrackRow>)
    ensures LocalPool(rnd, before, before, map[], TracksPts(ts[..0]))
  {
  }

  method AppendVias(rnd: real -> real, base: nat, p: PerNet, ghost before: seq<Pt>, pts0: seq<Pt>, keyToIdx0: map<(real, real), nat>,
                    viaPt0: seq<int>, viaLs0: seq<int>, viaLe0: seq<int>, viaDia0: seq<real>)
    returns (pts: seq<Pt>, viaPt: seq<int>, viaLs: seq<int>, viaLe: seq<int>, viaDia: seq<real>)
    requires base == |before| && LocalPool(rnd, before, pts0, keyToIdx0, TracksPts(p.tracks))
    ensures pts == before + NetPool(rnd, p.tracks, p.vias)
    ensures viaPt == viaPt0 + ViaRefs(rnd, base, p)
    ensures viaLs == viaLs0 + Map((v: ViaRow) => v.layerStart, p.vias)
    ensures viaLe == viaLe0 + Map((v: ViaRow) => v.layerEnd, p.vias)
    ensures viaDia == viaDia0 + Map((v: ViaRow) => v.viaWidth, p.vias)
  {
    ghost var all, d := NetPts(p.tracks, p.vias), TracksPts(p.tracks);
    hide Registers, Flat, TracksPts, Row, IndexOf, Pool, XyKey;
    var keyToIdx := keyToIdx0;
    pts, viaPt, viaLs, viaLe, viaDia := pts0, viaPt0, viaLs0, viaLe0, viaDia0;
    assert d + ViaPts(p.vias[..0]) == d;
    for i := 0 to |p.vias|
      invariant LocalPool(rnd, before, pts, keyToIdx, d + ViaPts(p.vias[..i]))
      invariant viaPt == viaPt0 + ViaRefs(rnd, base, p)[..i]
      invariant viaLs == viaLs0 + Map((v: ViaRow) => v.layerStart, p.vias)[..i]
      invariant viaLe == viaLe0 + Map((v: ViaRow) => v.layerEnd, p.vias)[..i]
      invariant viaDia == viaDia0 + Map((v: ViaRow) => v.viaWidth, p.vias)[..i]
    {
      var v := p.vias[i];
      ghost var d0 := d + ViaPts(p.vias[..i]);
      assert d0 + [v.center] == d + ViaPts(p.vias[..i + 1]);
      assert d0 + [v.center] == all[..|d0| + 1];
      var row;
      pts, keyToIdx, row := Reg(rnd, base, pts, keyToIdx, v.center.x, v.center.y, before, all, d0);
      viaPt, viaLs, viaLe, viaDia := viaPt + [row], viaLs + [v.layerStart], viaLe + [v.layerEnd], viaDia + [v.viaWidth];
    }
    assert p.vias[..|p.vias|] == p.vias;
  }

  // --- one more net ------------------------------------------------------------------------------------

  lemma StartsStep<T>(groups: seq<seq<T>>, g: seq<T>)
    ensures Starts(groups + [g]) == Starts(groups) + [|Flat(groups)|]
    ensures Counts(groups + [g]) == Counts(groups) + [|g|]
    ensures Flat(groups + [g]) == Flat(groups) + g
  {
    FlatStep(groups, g);
    var more := groups + [g];
    forall j | 0 <= j < |groups| ensures Start(more, j) == Start(groups, j) {
      assert more[..j] == groups[..j];
    }
    assert more[..|groups|] == groups;
  }

  lemma {:induction false} RefsAligned(rnd: real -> real, per: seq<PerNet>)
    ensures |Flat(TrackRefLists(rnd, per))| == |Flat(TrackLists(per))|
    ensures |Flat(ViaRefLists(rnd, per))| == |Flat(ViaLists(per))|
  {
    if per != [] {
      var init, p := per[..|per| - 1], per[|per| - 1];
      hide Flat, NetPool, TrackRefs, ViaRefs, Pools, TrackLists, ViaLists, TrackRefLists, ViaRefLists, Starts, Counts;
      RefsAligned(rnd, init);
      assert per == init + [p];
      GroupsStep(rnd, init, p);
      StartsStep(TrackRefLists(rnd, init), TrackRefs(rnd, |Flat(Pools(rnd, init))|, p));
      StartsStep(ViaRefLists(rnd, init), ViaRefs(rnd, |Flat(Pools(rnd, init))|, p));
      StartsStep(TrackLists(init), p.tracks);
      StartsStep(ViaLists(init), p.vias);
    }
  }

  lemma GroupsStep(rnd: real -> real, per: seq<PerNet>, p: PerNet)
    ensures Pools(rnd, per + [p]) == Pools(rnd, per) + [NetPool(rnd, p.tracks, p.vias)]
    ensures TrackLists(per + [p]) == TrackLists(per) + [p.tracks]
    ensures ViaLists(per + [p]) == ViaLists(per) + [p.vias]
    ensures PointLists(per + [p]) == PointLists(per) + [p.points]
    ensures TrackRefLists(rnd, per + [p]) == TrackRefLists(rnd, per) + [TrackRefs(rnd, |Flat(Pools(rnd, per))|, p)]
    ensures ViaRefLists(rnd, per + [p]) == ViaRefLists(rnd, per) + [ViaRefs(rnd, |Flat(Pools(rnd, per))|, p)]
  {
    hide Flat, NetPool, TrackRefs, ViaRefs;
    var g, more := Pools(rnd, per), Pools(rnd, per + [p]);
    assert more == g + [NetPool(rnd, p.tracks, p.vias)];
    forall j | 0 <= j <= |per| ensures Start(more, j) == |Flat(g[..j])| {
      assert more[..j] == g[..j];
    }
    assert g[..|per|] == g;
  }

  lemma PoolsStep(rnd: real -> real, per: seq<PerNet>, p: PerNet)
    ensures var t, u, pool := DynTablesOf(rnd, per), DynTablesOf(rnd, per + [p]), NetPool(rnd, p.tracks, p.vias);
      && u.ptXy == t.ptXy + pool && u.netCode == t.netCode + [p.code]
      && u.netPtStart == t.netPtStart + [|t.ptXy|] && u.netPtCount == t.netPtCount + [|pool|]
  {
    hide Flat, NetPool, TrackRefs, ViaRefs, Starts, Counts, Pools, TrackLists, ViaLists, PointLists, TrackRefLists, ViaRefLists;
    GroupsStep(rnd, per, p);
    StartsStep(Pools(rnd, per), NetPool(rnd, p.tracks, p.vias));
    assert Map((q: PerNet) => q.code, per + [p]) == Map((q: PerNet) => q.code, per) + [p.code];
  }

  lemma TrackStep(rnd: real -> real, per: seq<PerNet>, p: PerNet)
    ensures var t, u := DynTablesOf(rnd, per), DynTablesOf(rnd, per + [p]);
      && u.trkStart == t.trkStart + [|t.trkPt|] && u.trkCount == t.trkCount + [|p.tracks|]
      && u.trkPt == t.trkPt + TrackRefs(rnd, |t.ptXy|, p)
      && u.trkW == t.trkW + Map((x: TrackRow) => x.width, p.tracks)
      && u.trkLayer == t.trkLayer + Map((x: TrackRow) => x.layer, p.tracks)
  {
    hide Flat, NetPool, TrackRefs, ViaRefs, Starts, Counts, Pools, TrackLists, ViaLists, PointLists, TrackRefLists, ViaRefLists;
    GroupsStep(rnd, per, p);
    RefsAligned(rnd, per);
    StartsStep(TrackLists(per), p.tracks);
    StartsStep(TrackRefLists(rnd, per), TrackRefs(rnd, |Flat(Pools(rnd, per))|, p));
  }

  lemma ViaStep(rnd: real -> real, per: seq<PerNet>, p: PerNet)
    ensures var t, u := DynTablesOf(rnd, per), DynTablesOf(rnd, per + [p]);
      && u.viaStart == t.viaStart + [|t.viaPt|] && u.viaCount == t.viaCount + [|p.vias|]
      && u.viaPt == t.viaPt + ViaRefs(rnd, |t.ptXy|, p)
      && u.viaLs == t.viaLs + Map((v: ViaRow) => v.layerStart, p.vias)
      && u.viaLe == t.viaLe + Map((v: ViaRow) => v.layerEnd, p.vias)
      && u.viaDia == t.viaDia + Map((v: ViaRow) => v.viaWidth, p.vias)
  {
    hide Flat, NetPool, TrackRefs, ViaRefs, Starts, Counts, Pools, TrackLists, ViaLists, PointLists, TrackRefLists, ViaRefLists;
    GroupsStep(rnd, per, p);
    RefsAligned(rnd, per);
    StartsStep(ViaLists(per), p.vias);
    StartsStep(ViaRefLists(rnd, per), ViaRefs(rnd, |Flat(Pools(rnd, per))|, p));
  }

  lemma RatStarts(rnd: real -> real, per: seq<PerNet>, p: PerNet)
    ensures var t, u := DynTablesOf(rnd, per), DynTablesOf(rnd, per + [p]);
      u.ratStart == t.ratStart + [|t.ratXy|] && u.ratCount == t.ratCount + [|p.points|]
  {
    hide Flat, NetPool, TrackRefs, ViaRefs, Starts, Counts, Pools, TrackLists, ViaLists, PointLists, TrackRefLists, ViaRefLists;
    GroupsStep(rnd, per, p);
    StartsStep(PointLists(per), p.points);
  }

  lemma RatColumns(rnd: real -> real, per: seq<PerNet>, p: PerNet)
    ensures var t, u := DynTablesOf(rnd, per), DynTablesOf(rnd, per + [p]);
      && u.ratXy == t.ratXy + Map((q: QPoint) => (q.x, q.y), p.points)
      && u.ratQ == t.ratQ + Map((q: QPoint) => q.q, p.points)
      && u.ratLayer == t.ratLayer + Map((q: QPoint) => q.layer, p.points)
  {
    hide Flat, NetPool, TrackRefs, ViaRefs, Starts, Counts, Pools, TrackLists, ViaLists, PointLists, TrackRefLists, ViaRefLists;
    GroupsStep(rnd, per, p);
    StartsStep(PointLists(per), p.points);
  }

  /** The tables with one more net: what the loop over the nets appends. */
  lemma TablesStep(rnd: real -> real, per: seq<PerNet>, p: PerNet)
    ensures var t, pool := DynTablesOf(rnd, per), NetPool(rnd, p.tracks, p.vias);
      DynTablesOf(rnd, per + [p]) ==
      DynTables(t.ptXy + pool, t.netCode + [p.code],
                t.netPtStart + [|t.ptXy|], t.netPtCount + [|pool|], t.trkStart + [|t.trkPt|], t.trkCount + [|p.tracks|],
                t.viaStart + [|t.viaPt|], t.viaCount + [|p.vias|], t.ratStart + [|t.ratXy|], t.ratCount + [|p.points|],
                t.trkPt + TrackRefs(rnd, |t.ptXy|, p),
                t.trkW + Map((x: TrackRow) => x.width, p.tracks), t.trkLayer + Map((x: TrackRow) => x.layer, p.tracks),
                t.viaPt + ViaRefs(rnd, |t.ptXy|, p),
                t.viaLs + Map((v: ViaRow) => v.layerStart, p.vias), t.viaLe + Map((v: ViaRow) => v.layerEnd, p.vias),
                t.viaDia + Map((v: ViaRow) => v.viaWidth, p.vias),
                t.ratXy + Map((q: QPoint) => (q.x, q.y), p.points), t.ratQ + Map((q: QPoint) => q.q, p.points),
                t.ratLayer + Map((q: QPoint) => q.layer, p.points))
  {
    hide *;
    PoolsStep(rnd, per, p);
    TrackStep(rnd, per, p);
    ViaStep(rnd, per, p);
    RatStarts(rnd, per, p);
    RatColumns(rnd, per, p);
  }

  /** `_dynamic_from_per_net` */
  method DynamicFromPerNet(rnd: real -> real, per: seq<PerNet>) returns (t: DynTables)
    ensures t == DynTablesOf(rnd, per)
  {
    hide *;
    NoNets(rnd, per);
    t := DynTables([], [], [], [], [], [], [], [], [], [], [], [], [], [], [], [], [], [], [], []);
    for j := 0 to |per|
      invariant t == DynTablesOf(rnd, per[..j])
    {
      assert per[..j + 1] == per[..j] + [per[j]];
      TablesStep(rnd, per[..j], per[j]);
      t := AppendNet(rnd, t, per[j]);
    }
    assert per[..|per|] == per;
  }

  lemma NoNets(rnd: real -> real, per: seq<PerNet>)
    ensures DynTablesOf(rnd, per[..0])
         == DynTables([], [], [], [], [], [], [], [], [], [], [], [], [], [], [], [], [], [], [], [])
  {
  }

  /** The loop body: starts are the lengths before, counts the rows this net adds. */
  method AppendNet(rnd: real -> real, t: DynTables, p: PerNet) returns (u: DynTables)
    ensures u == DynTables(t.ptXy + NetPool(rnd, p.tracks, p.vias), t.netCode + [p.code],
                t.netPtStart + [|t.ptXy|], t.netPtCount + [|NetPool(rnd, p.tracks, p.vias)|],
                t.trkStart + [|t.trkPt|], t.trkCount + [|p.tracks|],
                t.viaStart + [|t.viaPt|], t.viaCount + [|p.vias|], t.ratStart + [|t.ratXy|], t.ratCount + [|p.points|],
                t.trkPt + TrackRefs(rnd, |t.ptXy|, p),
                t.trkW + Map((x: TrackRow) => x.width, p.tracks), t.trkLayer + Map((x: TrackRow) => x.layer, p.tracks),
                t.viaPt + ViaRefs(rnd, |t.ptXy|, p),
                t.viaLs + Map((v: ViaRow) => v.layerStart, p.vias), t.viaLe + Map((v: ViaRow) => v.layerEnd, p.vias),
                t.viaDia + Map((v: ViaRow) => v.viaWidth, p.vias),
                t.ratXy + Map((q: QPoint) => (q.x, q.y), p.points), t.ratQ + Map((q: QPoint) => q.q, p.points),
                t.ratLayer + Map((q: QPoint) => q.layer, p.points))
  {
    hide NetPool, TrackRefs, ViaRefs, LocalPool, TracksPts;
    var base := |t.ptXy|;
    var pts, keyToIdx, trkPt, trkW, trkLayer := AppendTracks(rnd, base, p, t.ptXy, t.trkPt, t.trkW, t.trkLayer);
    var pts', viaPt, viaLs, viaLe, viaDia := AppendVias(rnd, base, p, t.ptXy, pts, keyToIdx, t.viaPt, t.viaLs, t.viaLe, t.viaDia);
    var ratXy, ratQ, ratLayer := t.ratXy, t.ratQ, t.ratLayer;
    for i := 0 to |p.points|
      invariant ratXy == t.ratXy + Map((q: QPoint) => (q.x, q.y), p.points)[..i]
      invariant ratQ == t.ratQ + Map((q: QPoint) => q.q, p.points)[..i]
      invariant ratLayer == t.ratLayer + Map((q: QPoint) => q.layer, p.points)[..i]
    {
      var q := p.points[i];
      ratXy, ratQ, ratLayer := ratXy + [(q.x, q.y)], ratQ + [q.q], ratLayer + [q.layer];
    }
    u := DynTables(pts', t.netCode + [p.code], t.netPtStart + [base], t.netPtCount + [|pts'| - base],
                   t.trkStart + [|t.trkPt|], t.trkCount + [|trkPt| - |t.trkPt|],
                   t.viaStart + [|t.viaPt|], t.viaCount + [|viaPt| - |t.viaPt|],
                   t.ratStart + [|t.ratXy|], t.ratCount + [|ratXy| - |t.ratXy|],
                   trkPt, trkW, trkLayer, viaPt, viaLs, viaLe, viaDia, ratXy, ratQ, ratLayer);
  }

  // --- the two front-ends ---------------------------------------------------------------------------------

  function IrCode(kv: (int, NetGeometry)): seq<real> { [kv.0 as real] }

  function DictCode(kv: (string, NetGeometryDict)): seq<real> { [ReadCode(kv.0) as real] }

  /** `int(p.id[1:])` */
  function IdNumber(id: string): Option<nat> {
    if id == "" then None else Parse(id[1..])
  }

  predicate IdsParse(g: NetGeometry) {
    forall i | 0 <= i < |g.points| :: IdNumber(g.points[i].id).Some?
  }

  function LineRow(l: Line): TrackRow { TrackRow(Pt(l.p1.x, l.p1.y), Pt(l.p2.x, l.p2.y), l.width, l.layer) }
  function ViaRowOfVia(v: Via): ViaRow { ViaRow(Pt(v.center.x, v.center.y), v.layerStart, v.layerEnd, v.viaWidth) }
  function QOfPoint(p: Point3D): QPoint {
    QPoint(p.x, p.y, match IdNumber(p.id) case Some(n) => n case None => 0, p.layer)
  }

  /** What the hot path takes from the dataclass geometry: coordinates from the shared points, Q numbers
      from their ids. */
  function PerOfIr(kv: (int, NetGeometry)): PerNet {
    PerNet(kv.0, Map(LineRow, kv.1.tracks), Map(ViaRowOfVia, kv.1.vias), Map(QOfPoint, kv.1.points))
  }

  function DictTrackRow(t: TrackDict): TrackRow { TrackRow(ReadPt(t.p1), ReadPt(t.p2), t.width, t.layer) }
  function DictViaRow(v: ViaDict): ViaRow { ViaRow(ReadPt(v.center), v.layerStart, v.layerEnd, v.viaWidth) }
  function DictPt3(p: Point3Dict): Pt3 { Pt3(p.xy.0, p.xy.1, p.layer) }

  /** The Q number of every point: its entry in the net's pool of (x, y, layer) points. */
  function QRow(rnd: real -> real, pool: seq<Pt3>, p: Pt3): nat {
    IndexOf(XylKey(rnd), pool, XylKey(rnd)(p))
  }

  function QPointOf(rnd: real -> real, pool: seq<Pt3>, p: Pt3): QPoint {
    QPoint(p.x, p.y, QRow(rnd, pool, p), p.layer)
  }

  function QPointsOf(rnd: real -> real, ps: seq<Pt3>): (qs: seq<QPoint>)
    ensures |qs| == |ps|
  {
    Map((p: Pt3) => QPointOf(rnd, Pool(XylKey(rnd), ps), p), ps)
  }

  /** What the cold path takes from the printed dict: the Q numbers are dedup'd again, not read. */
  function PerOfDict(rnd: real -> real, kv: (string, NetGeometryDict)): PerNet {
    PerNet(ReadCode(kv.0),
           Map((t: (string, TrackDict)) => DictTrackRow(t.1), kv.1.tracks),
           Map((v: (string, ViaDict)) => DictViaRow(v.1), kv.1.vias),
           QPointsOf(rnd, Map(DictPt3, kv.1.points)))
  }

  lemma SortedIdsParse(gs: seq<(int, NetGeometry)>)
    requires forall i | 0 <= i < |gs| :: IdsParse(gs[i].1)
    ensures forall i | 0 <= i < |SortBy(IrCode, gs)| :: IdsParse(SortBy(IrCode, gs)[i].1)
  {
    hide IdsParse, SortBy, Sorted;
    SortIsSortedPermutation(IrCode, gs);
    var ordered := SortBy(IrCode, gs);
    forall i | 0 <= i < |ordered| ensures IdsParse(ordered[i].1) {
      assert ordered[i] in multiset(ordered);
      assert ordered[i] in gs;
    }
  }

  /** The ratsnest points of a net, numbered by their ids. */
  method RatsnestOfIr(ns: NetGeometry) returns (points: seq<QPoint>)
    requires IdsParse(ns)
    ensures points == Map(QOfPoint, ns.points)
  {
    hide IdNumber;
    points := [];
    for i := 0 to |ns.points|
      invariant |points| == i && forall k | 0 <= k < i :: points[k] == QOfPoint(ns.points[k])
    {
      var p := ns.points[i];
      points := points + [QPoint(p.x, p.y, IdNumber(p.id).value, p.layer)];
    }
  }


  /** `dynamic_tables_from_ir` */
  method DynamicTablesFromIr(rnd: real -> real, gs: seq<(int, NetGeometry)>) returns (t: DynTables)
    requires forall i | 0 <= i < |gs| :: IdsParse(gs[i].1)
    ensures t == DynTablesOf(rnd, Map(PerOfIr, SortBy(IrCode, gs)))
  {
    hide DynTablesOf, IdsParse, SortBy, LineRow, ViaRowOfVia, QOfPoint, IrCode;
    SortedIdsParse(gs);
    var ordered := SortBy(IrCode, gs);
    var per: seq<PerNet> := [];
    for j := 0 to |ordered|
      invariant |per| == j && forall k | 0 <= k < j :: per[k] == PerOfIr(ordered[k])
    {
      var points := RatsnestOfIr(ordered[j].1);
      per := per + [PerNet(ordered[j].0, Map(LineRow, ordered[j].1.tracks), Map(ViaRowOfVia, ordered[j].1.vias), points)];
    }
    assert per == Map(PerOfIr, ordered);
    t := DynamicFromPerNet(rnd, per);
  }

  function QRef(i: nat, p: Pt3): nat { i }

  /** `_q_ids_for_points` */
  method QIdsForPoints(rnd: real -> real, ps: seq<Pt3>) returns (ids: seq<nat>)
    ensures ids == Map((p: Pt3) => QRow(rnd, Pool(XylKey(rnd), ps), p), ps)
  {
    ghost var kf := XylKey(rnd);
    var keyToId: map<(real, real, int), nat> := map[];
    ids := [];
    NoQ(rnd, ps);
    hide HoldsPool, HoldsNoMore, DistinctKeys, IndexOf, Pool;
    ghost var pool: seq<Pt3> := [];
    for i := 0 to |ps|
      invariant pool == Pool(kf, ps[..i]) && Registers(kf, QRef, keyToId, pool) && |keyToId| == |pool|
      invariant |ids| == i && forall k | 0 <= k < i :: ids[k] == QRow(rnd, Pool(kf, ps), ps[k])
    {
      var p := ps[i];
      var key := (rnd(p.x), rnd(p.y), p.layer);
      assert key == kf(p);
      assert ps[..i + 1] == ps[..i] + [p];
      PoolStep(kf, ps[..i], p);
      RegisteredIndex(kf, ps, i);
      var id: nat;
      if key !in keyToId {
        RegisterNew(kf, QRef, keyToId, pool, p);
        id := |keyToId|;
        keyToId := keyToId[key := id];
        pool := pool + [p];
      } else {
        RegisteredEntry(kf, QRef, keyToId, pool, p);
        id := keyToId[key];
      }
      ids := ids + [id];
    }
  }

  lemma NoQ(rnd: real -> real, ps: seq<Pt3>)
    ensures Pool(XylKey(rnd), ps[..0]) == [] && Registers(XylKey(rnd), QRef, map[], [])
  {
  }

  /** `dynamic_tables_from_dict` */
  method DynamicTablesFromDict(rnd: real -> real, d: Dict<NetGeometryDict>) returns (t: DynTables)
    requires KeysParse(d)
    ensures t == DynTablesOf(rnd, Map((kv: (string, NetGeometryDict)) => PerOfDict(rnd, kv), SortBy(DictCode, d)))
  {
    hide NetCodeOfKey, DynTablesOf, Pool, IndexOf, QRow;
    SortIsSortedPermutation(DictCode, d);
    var ordered := SortBy(DictCode, d);
    var per: seq<PerNet> := [];
    for j := 0 to |ordered|
      invariant |per| == j && forall k | 0 <= k < j :: per[k] == PerOfDict(rnd, ordered[k])
    {
      var nv := ordered[j].1;
      var ptsRaw := Map(DictPt3, nv.points);
      var qids := QIdsForPoints(rnd, ptsRaw);
      var points := seq(|ptsRaw|, i requires 0 <= i < |ptsRaw| => QPoint(ptsRaw[i].x, ptsRaw[i].y, qids[i], ptsRaw[i].layer));
      assert points == QPointsOf(rnd, ptsRaw);
      per := per + [PerNet(ReadCode(ordered[j].0), Map((t: (string, TrackDict)) => DictTrackRow(t.1), nv.tracks),
                           Map((v: (string, ViaDict)) => DictViaRow(v.1), nv.vias), points)];
    }
    assert per == Map((kv: (string, NetGeometryDict)) => PerOfDict(rnd, kv), ordered);
    t := DynamicFromPerNet(rnd, per);
  }

  // --- reading the tables back -------------------------------------------------------------------------------

  predicate SpansIn(start: seq<int>, count: seq<int>, n: nat, rows: nat) {
    && |start| == |count| == n
    && forall j | 0 <= j < n :: 0 <= start[j] && 0 <= count[j] && start[j] + count[j] <= rows
  }

  /** Every span lies inside its columns and every point reference inside the pool. */
  predicate DynInRange(t: DynTables) {
    && |t.netPtStart| == |t.netCode|
    && SpansIn(t.trkStart, t.trkCount, |t.netCode|, |t.trkPt|)
    && SpansIn(t.viaStart, t.viaCount, |t.netCode|, |t.viaPt|)
    && SpansIn(t.ratStart, t.ratCount, |t.netCode|, |t.ratXy|)
    && |t.trkPt| == |t.trkW| == |t.trkLayer|
    && |t.viaPt| == |t.viaLs| == |t.viaLe| == |t.viaDia|
    && |t.ratXy| == |t.ratQ| == |t.ratLayer|
    && (forall r | 0 <= r < |t.trkPt| :: 0 <= t.trkPt[r].0 < |t.ptXy| && 0 <= t.trkPt[r].1 < |t.ptXy|)
    && (forall r | 0 <= r < |t.viaPt| :: 0 <= t.viaPt[r] < |t.ptXy|)
  }

  /** `_local_point`: the id is relative to the net's own pool. */
  function LocalPointAt(t: DynTables, base: int, row: int): PointDict
    requires 0 <= row < |t.ptXy|
  {
    PointDict("P" + PrintInt(row - base), (t.ptXy[row].x, t.ptXy[row].y))
  }

  function TrackAt(t: DynTables, base: int, k: nat, r: nat): TrackDict
    requires DynInRange(t) && r < |t.trkPt|
  {
    TrackDict("T" + Print(k), LocalPointAt(t, base, t.trkPt[r].0), LocalPointAt(t, base, t.trkPt[r].1), t.trkW[r], t.trkLayer[r])
  }

  function ViaAt(t: DynTables, base: int, k: nat, r: nat): ViaDict
    requires DynInRange(t) && r < |t.viaPt|
  {
    ViaDict("V" + Print(k), LocalPointAt(t, base, t.viaPt[r]), t.viaLs[r], t.viaLe[r], t.viaDia[r])
  }

  function PointAtRow(t: DynTables, r: nat): Point3Dict
    requires DynInRange(t) && r < |t.ratXy|
  {
    Point3Dict("Q" + PrintInt(t.ratQ[r]), t.ratXy[r], t.ratLayer[r])
  }

  function TracksAt(t: DynTables, j: nat): Dict<TrackDict>
    requires DynInRange(t) && j < |t.netCode|
  {
    seq(t.trkCount[j], k requires 0 <= k < t.trkCount[j] =>
      ("track_" + Print(k), TrackAt(t, t.netPtStart[j], k, t.trkStart[j] + k)))
  }

  function ViasAt(t: DynTables, j: nat): Dict<ViaDict>
    requires DynInRange(t) && j < |t.netCode|
  {
    seq(t.viaCount[j], k requires 0 <= k < t.viaCount[j] =>
      ("via_" + Print(k), ViaAt(t, t.netPtStart[j], k, t.viaStart[j] + k)))
  }

  function PointsAt(t: DynTables, j: nat): seq<Point3Dict>
    requires DynInRange(t) && j < |t.netCode|
  {
    seq(t.ratCount[j], k requires 0 <= k < t.ratCount[j] => PointAtRow(t, t.ratStart[j] + k))
  }

  function NetGeometryAt(t: DynTables, j: nat): (string, NetGeometryDict)
    requires DynInRange(t) && j < |t.netCode|
  {
    (NetKey(t.netCode[j]), NetGeometryDict(TracksAt(t, j), ViasAt(t, j), PointsAt(t, j)))
  }

  function DynamicOf(t: DynTables): (d: Dict<NetGeometryDict>)
    requires DynInRange(t)
    ensures |d| == |t.netCode| && forall j | 0 <= j < |d| :: d[j] == NetGeometryAt(t, j)
  {
    seq(|t.netCode|, j requires 0 <= j < |t.netCode| => NetGeometryAt(t, j))
  }

  method NetGeometryRows(t: DynTables, j: nat) returns (g: NetGeometryDict)
    requires DynInRange(t) && j < |t.netCode|
    ensures g == NetGeometryAt(t, j).1
  {
    hide Print, PrintInt, Put, TrackAt, ViaAt, PointAtRow, NetKey;
    var base := t.netPtStart[j];
    var tracks: Dict<TrackDict> := [];
    for k := 0 to t.trkCount[j]
      invariant |tracks| == k && Numbered("track_", tracks)
      invariant forall i | 0 <= i < k :: tracks[i].1 == TrackAt(t, base, i, t.trkStart[j] + i)
    {
      PutNext("track_", tracks, TrackAt(t, base, k, t.trkStart[j] + k));
      tracks := Put(tracks, "track_" + Print(k), TrackAt(t, base, k, t.trkStart[j] + k));
    }
    var vias: Dict<ViaDict> := [];
    for k := 0 to t.viaCount[j]
      invariant |vias| == k && Numbered("via_", vias)
      invariant forall i | 0 <= i < k :: vias[i].1 == ViaAt(t, base, i, t.viaStart[j] + i)
    {
      PutNext("via_", vias, ViaAt(t, base, k, t.viaStart[j] + k));
      vias := Put(vias, "via_" + Print(k), ViaAt(t, base, k, t.viaStart[j] + k));
    }
    var points: seq<Point3Dict> := [];
    for k := 0 to t.ratCount[j]
      invariant |points| == k && forall i | 0 <= i < k :: points[i] == PointAtRow(t, t.ratStart[j] + i)
    {
      points := points + [PointAtRow(t, t.ratStart[j] + k)];
    }
    g := NetGeometryDict(tracks, vias, points);
  }

  /** The dynamic half of `arrays_to_dict`. */
  method ArraysToDynamic(t: DynTables) returns (d: Dict<NetGeometryDict>)
    requires DynInRange(t)
    ensures d == Assigned(DynamicOf(t))
  {
    hide Print, PrintInt, Put, NetKey, TracksAt, ViasAt, PointsAt;
    d := [];
    ghost var entries := DynamicOf(t);
    for j := 0 to |t.netCode|
      invariant d == Assigned(entries[..j])
    {
      var g := NetGeometryRows(t, j);
      AssignedStep(entries, j);
      assert entries[j] == NetGeometryAt(t, j) == (NetKey(t.netCode[j]), g);
      d := Put(d, NetKey(t.netCode[j]), g);
    }
    assert entries[..|t.netCode|] == entries;
  }
}
