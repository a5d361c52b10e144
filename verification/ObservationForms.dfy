/** The two observation forms as wholes, and the promise that connects them. */
module ObservationForms {
  import opened Decimal
  import opened Dedup
  import opened StableSort
  import opened IntSets
  import opened Observation
  import opened BoardContext
  import opened NetGeometries
  import opened IndexedStatic
  import opened IndexedDynamic
  import opened StaticRoundTrip
  import opened DynamicRoundTrip

  datatype RouterState = RouterState(headX: real, headY: real, currentLayer: int, stateCode: int,
                                     isPlacingVia: bool, isRouting: bool, isDragging: bool)
  datatype RouterHead = RouterHead(currentXy: (real, real), currentLayer: int, currentNet: int, stateCode: int,
                                   viaToggle: bool, isRouting: bool, isDragging: bool, routingMode: int, phase: int,
                                   step: int, stepRatio: real, stepsRemaining: int)
  datatype Episode = Episode(router: RouterState, stepCount: int, maxSteps: int, currentNet: Option<int>, routingMode: int)

  /** What both forms carry unchanged. */
  datatype Rest = Rest(head: RouterHead, drcViolations: seq<Json>, actionHistory: seq<Json>, closedNets: seq<int>, aug: Option<Json>)
  datatype Obs = Legacy(boardStatic: StaticDict, routingGeometry: Dict<NetGeometryDict>, rest: Rest)
               | Indexed(tables: StaticTables, dyn: DynTables, rest: Rest)

  /** `_build_router_head` */
  function BuildRouterHead(e: Episode): RouterHead {
    var phase := if e.currentNet.None? then 0 else if !e.router.isRouting then 1 else 2;
    RouterHead((e.router.headX, e.router.headY), e.router.currentLayer,
               match e.currentNet case None => -1 case Some(n) => n,
               e.router.stateCode, e.router.isPlacingVia, e.router.isRouting, e.router.isDragging, e.routingMode, phase,
               e.stepCount, e.stepCount as real / (if e.maxSteps < 1 then 1 else e.maxSteps) as real,
               if e.maxSteps - e.stepCount < 0 then 0 else e.maxSteps - e.stepCount)
  }

  /** The head tells which of three phases the episode is in (no net, a net, a session), names the net or -1, and counts
      the steps made and left; it carries the router's state and the routing mode as they are. */
  lemma HeadTells(e: Episode)
    ensures var h := BuildRouterHead(e);
      && (h.phase == 0 <==> e.currentNet.None?) && (h.phase == 2 <==> e.currentNet.Some? && e.router.isRouting)
      && (h.phase == 1 <==> e.currentNet.Some? && !e.router.isRouting)
      && (e.currentNet.Some? ==> h.currentNet == e.currentNet.value) && (e.currentNet.None? ==> h.currentNet == -1)
      && h.step == e.stepCount && h.stepsRemaining >= 0 && (e.stepCount <= e.maxSteps ==> h.step + h.stepsRemaining == e.maxSteps)
      && (e.stepCount > e.maxSteps ==> h.stepsRemaining == 0)
      && (e.maxSteps >= 1 ==> h.stepRatio * e.maxSteps as real == e.stepCount as real)
      && (e.maxSteps < 1 ==> h.stepRatio == e.stepCount as real)
      && h.currentXy == (e.router.headX, e.router.headY) && h.currentLayer == e.router.currentLayer && h.stateCode == e.router.stateCode
      && h.viaToggle == e.router.isPlacingVia && h.isRouting == e.router.isRouting && h.isDragging == e.router.isDragging
      && h.routingMode == e.routingMode
  {
  }

  function RestOf(e: Episode, drc: seq<Json>, history: seq<Json>, closed: seq<int>): Rest {
    Rest(BuildRouterHead(e), drc, history, closed, None)
  }

  /** `build_json_observation` with its cached static dict and per-step geometry. */
  function BuildJsonObservation(boardStatic: StaticDict, gs: seq<(int, NetGeometry)>, e: Episode,
                                drc: seq<Json>, history: seq<Json>, closed: seq<int>): Obs {
    Legacy(boardStatic, RoutingGeometryDict(gs), RestOf(e, drc, history, closed))
  }

  /** `build_indexed_observation` */
  method BuildIndexedObservation(rnd: real -> real, tables: StaticTables, gs: seq<(int, NetGeometry)>, e: Episode,
                                 drc: seq<Json>, history: seq<Json>, closed: seq<int>) returns (obs: Obs)
    requires forall i | 0 <= i < |gs| :: IdsParse(gs[i].1)
    ensures obs == IndexedObservation(rnd, tables, gs, e, drc, history, closed)
  {
    var dyn := DynamicTablesFromIr(rnd, gs);
    obs := Indexed(tables, dyn, RestOf(e, drc, history, closed));
  }

  function IndexedObservation(rnd: real -> real, tables: StaticTables, gs: seq<(int, NetGeometry)>, e: Episode,
                              drc: seq<Json>, history: seq<Json>, closed: seq<int>): Obs {
    Indexed(tables, DynTablesOf(rnd, Map(PerOfIr, SortBy(IrCode, gs))), RestOf(e, drc, history, closed))
  }

  predicate Readable(obs: Obs) {
    obs.Legacy? && KeysParse(obs.boardStatic.nets) && KeysParse(obs.routingGeometry)
  }

  function ArraysOf(rnd: real -> real, obs: Obs): Obs
    requires Readable(obs)
  {
    Indexed(TablesOf(rnd, ReadBoard(obs.boardStatic)),
            DynTablesOf(rnd, Map((kv: (string, NetGeometryDict)) => PerOfDict(rnd, kv), SortBy(DictCode, obs.routingGeometry))),
            obs.rest)
  }

  /** `dict_to_arrays` */
  method DictToArrays(rnd: real -> real, obs: Obs) returns (iobs: Obs)
    requires Readable(obs)
    ensures iobs == ArraysOf(rnd, obs)
  {
    var tables := StaticTablesFromDict(rnd, obs.boardStatic);
    var dyn := DynamicTablesFromDict(rnd, obs.routingGeometry);
    iobs := Indexed(tables, dyn, obs.rest);
  }

  predicate Distinct(codes: seq<int>) {
    forall i, j | 0 <= i < j < |codes| :: codes[i] != codes[j]
  }

  predicate Decodable(obs: Obs) {
    obs.Indexed? ==> InRange(obs.tables) && DynInRange(obs.dyn)
  }

  function DictOf(obs: Obs): Obs
    requires Decodable(obs)
  {
    if obs.Legacy? then obs else Legacy(StaticOf(obs.tables), DynamicOf(obs.dyn), obs.rest)
  }

  /** The dict the decoder's assignments leave. */
  function DecodedOf(obs: Obs): Obs
    requires Decodable(obs)
  {
    if obs.Legacy? then obs
    else Legacy(StaticOf(obs.tables).(nets := Assigned(StaticOf(obs.tables).nets)), Assigned(DynamicOf(obs.dyn)), obs.rest)
  }

  /** `arrays_to_dict`: a dict observation is returned as it is. */
  method ArraysToDict(iobs: Obs) returns (obs: Obs)
    requires Decodable(iobs)
    ensures obs == DecodedOf(iobs)
  {
    if iobs.Legacy? {
      return iobs;
    }
    var boardStatic := ArraysToStatic(iobs.tables);
    var routingGeometry := ArraysToDynamic(iobs.dyn);
    obs := Legacy(boardStatic, routingGeometry, iobs.rest);
  }

  // --- the decoder assigns no key twice -----------------------------------------------------------------------

  lemma KeysOfCodes<V>(codes: seq<int>, d: Dict<V>)
    requires |d| == |codes| && Distinct(codes) && forall j | 0 <= j < |d| :: d[j].0 == NetKey(codes[j])
    ensures Assigned(d) == d
  {
    hide NetKey;
    forall i, j | 0 <= i < j < |d|
      ensures d[i].0 != d[j].0
    {
      if NetKey(codes[i]) == NetKey(codes[j]) { NetKeysDiffer(codes[i], codes[j]); }
    }
    AssignedDistinct(d);
  }

  lemma DecodedIsDict(obs: Obs)
    requires Decodable(obs) && obs.Indexed? && Distinct(obs.tables.netCode) && Distinct(obs.dyn.netCode)
    ensures DecodedOf(obs) == DictOf(obs)
  {
    hide NetKey, InRange, DynInRange, RectsAt, PointAt;
    KeysOfCodes(obs.tables.netCode, StaticOf(obs.tables).nets);
    KeysOfCodes(obs.dyn.netCode, DynamicOf(obs.dyn));
  }

  function CodesOf(b: RawBoard): seq<int> { Map((n: RawNet) => n.code, b.nets) }

  lemma DynCodes(rnd: real -> real, raws: seq<RawGeometry>)
    requires AscendingCodes(raws)
    ensures Distinct(DynTablesOf(rnd, Map(PerOfIr, SortBy(IrCode, GeometriesOf(rnd, raws)))).netCode)
  {
    AlreadyInOrder(rnd, raws);
    var ir := GeometriesOf(rnd, raws);
    assert |ir| == |raws| && forall j | 0 <= j < |ir| :: ir[j].0 == raws[j].code;
    hide SortBy, GeometriesOf;
  }

  /** A board built by `from_board` has every net once. */
  lemma FromBoardCodes(meta: Meta, pads: seq<PadItem>, edges: seq<EdgeItem>, names: map<int, string>,
                       constraints: Json, obstacles: seq<PadItem>, target: Option<set<int>>)
    ensures Distinct(CodesOf(RawBoardOf(meta, pads, edges, names, constraints, obstacles, target)))
  {
    var routable := RoutablePads(target, pads);
    PoolKeys((c: int) => c, Map((p: PadItem) => p.netCode, routable));
    var codes := NetOrder(routable);
    assert forall j | 0 <= j < |codes| :: CodesOf(RawBoardOf(meta, pads, edges, names, constraints, obstacles, target))[j] == codes[j];
  }

  lemma TableCodes(rnd: real -> real, b: RawBoard)
    ensures KeysParse(BuildBoardStatic(ContextOf(rnd, b)).nets)
    ensures TablesOf(rnd, ReadBoard(BuildBoardStatic(ContextOf(rnd, b)))).netCode == CodesOf(b)
  {
    hide BuildBoardStatic, ContextOf, ReadBoard, KeysParse, EdgeEnds, MidRow, RectColsOf, BoardPool, PadStarts, AllPads;
    TablesFromDict(rnd, b);
  }

  lemma SnapshotInOrder(s: Snapshot, lm: Option<map<int, int>>, target: Option<set<int>>)
    ensures AscendingCodes(RawGeometriesOf(s, lm, target))
  {
  }

  /** The lossless promise.  For every board, snapshot and episode state: the indexed observation the
      hot path builds and the dict observation are two writings of one thing.  Decoding the tables
      gives the dict, key for key and id for id, exactly when no rectangle of the board carries a
      polygon outline; encoding the dict always gives the tables; and the tables survive the round trip. */
  lemma FormsAgree(rnd: real -> real, b: RawBoard, s: Snapshot, lm: Option<map<int, int>>, target: Option<set<int>>,
                   e: Episode, drc: seq<Json>, history: seq<Json>, closed: seq<int>)
    ensures var boardStatic := BuildBoardStatic(ContextOf(rnd, b));
      var gs := GeometriesOf(rnd, RawGeometriesOf(s, lm, target));
      var json := BuildJsonObservation(boardStatic, gs, e, drc, history, closed);
      var indexed := IndexedObservation(rnd, TablesOf(rnd, ReadBoard(boardStatic)), gs, e, drc, history, closed);
      && Readable(json) && Decodable(indexed)
      && ArraysOf(rnd, json) == indexed
      && (DictOf(indexed) == json <==> OutlineFree(b))
      && (Distinct(CodesOf(b)) ==> DecodedOf(indexed) == DictOf(indexed))
      && Readable(DictOf(indexed)) && ArraysOf(rnd, DictOf(indexed)) == indexed
  {
    hide *;
    SnapshotInOrder(s, lm, target);
    FormsAgreeByParts(rnd, b, RawGeometriesOf(s, lm, target), e, drc, history, closed);
  }

  lemma FormsAgreeByParts(rnd: real -> real, b: RawBoard, raws: seq<RawGeometry>, e: Episode,
                          drc: seq<Json>, history: seq<Json>, closed: seq<int>)
    requires AscendingCodes(raws)
    ensures var boardStatic := BuildBoardStatic(ContextOf(rnd, b));
      var gs := GeometriesOf(rnd, raws);
      var json := BuildJsonObservation(boardStatic, gs, e, drc, history, closed);
      var indexed := IndexedObservation(rnd, TablesOf(rnd, ReadBoard(boardStatic)), gs, e, drc, history, closed);
      && Readable(json) && Decodable(indexed)
      && ArraysOf(rnd, json) == indexed
      && (DictOf(indexed) == json <==> OutlineFree(b))
      && (Distinct(CodesOf(b)) ==> DecodedOf(indexed) == DictOf(indexed))
      && Readable(DictOf(indexed)) && ArraysOf(rnd, DictOf(indexed)) == indexed
  {
    hide BuildBoardStatic, ContextOf, GeometriesOf, TablesOf, DynTablesOf, StaticOf, DynamicOf, KeysParse, InRange, DynInRange,
         OutlineFree, RoutingGeometryDict, ReadBoard, BuildRouterHead, SortBy;
    StaticLossless(rnd, b);
    DynamicLossless(rnd, raws);
    TablesFromDict(rnd, Plain(b));
    TableCodes(rnd, b);
    DynCodes(rnd, raws);
    if Distinct(CodesOf(b)) {
      DecodedIsDict(IndexedObservation(rnd, TablesOf(rnd, ReadBoard(BuildBoardStatic(ContextOf(rnd, b)))), GeometriesOf(rnd, raws), e, drc, history, closed));
    }
    hide DecodedOf, Distinct;
  }

  /** The promise on what the engine gives: for a board built by `from_board` the decoder, run on the indexed
      observation, gives the dict observation exactly when no obstacle has a polygon outline. */
  lemma EngineFormsAgree(rnd: real -> real, meta: Meta, pads: seq<PadItem>, edges: seq<EdgeItem>, names: map<int, string>,
                         constraints: Json, obstacles: seq<PadItem>, target: Option<set<int>>, s: Snapshot, lm: Option<map<int, int>>,
                         e: Episode, drc: seq<Json>, history: seq<Json>, closed: seq<int>)
    ensures var boardStatic := BuildBoardStatic(ContextOf(rnd, RawBoardOf(meta, pads, edges, names, constraints, obstacles, target)));
      var gs := GeometriesOf(rnd, RawGeometriesOf(s, lm, target));
      var json := BuildJsonObservation(boardStatic, gs, e, drc, history, closed);
      && Readable(json) && Decodable(ArraysOf(rnd, json))
      && (DecodedOf(ArraysOf(rnd, json)) == json <==> forall o | o in obstacles :: o.pts == [])
  {
    hide *;
    var b := RawBoardOf(meta, pads, edges, names, constraints, obstacles, target);
    FormsAgree(rnd, b, s, lm, target, e, drc, history, closed);
    FromBoardCodes(meta, pads, edges, names, constraints, obstacles, target);
    FromBoardOutlines(meta, pads, edges, names, constraints, obstacles, target);
  }
}
