/** Stage 3: the attempts of a cell, attributed to (board, ckpt) groups, re-priced, completed and counted. */
module Aggregation {
  import opened Decimal
  import opened IntSets
  import opened Dicts
  import opened Attempts
  import CellNames

  /** A cell directory: its name and which paths are files. */
  datatype Cell = Cell(name: string, isFile: string -> bool)

  /** `{board_id: {ckpt: rows}}`, keyed by the pair. */
  type Groups = Dict<(string, int), seq<Row>>

  // --- classification -----------------------------------------------------------------------------------------

  datatype Classified = Classified(routed: Groups, failed: Dict<string, seq<Row>>, index: Dict<string, string>)

  /** The ckpt an artifact name in the cell grammar carries; None for a failed attempt. */
  function NamedCkpt(cell: Cell, r: Row): Option<int> {
    match CellNames.ParseArtifact(r.artifact, cell.name) case None => None case Some(p) => Some(p.1)
  }

  /** A row that is an error, not a failure. */
  predicate Misfit(cell: Cell, r: Row) {
    match NamedCkpt(cell, r)
    case None => r.boardId == "" || (r.artifact != "" && cell.isFile(r.artifact))
    case Some(ck) => r.ckpt.Some? && r.ckpt.value != ck
  }

  function SetDefault(index: Dict<string, string>, bid: string, v: string): Dict<string, string> {
    if Get(index, bid).Some? then index else Put(index, bid, v)
  }

  function Place(cell: Cell, acc: Classified, r: Row): Classified {
    var index := SetDefault(acc.index, r.boardId, r.boardIndex);
    match NamedCkpt(cell, r)
    case None => acc.(failed := Push(acc.failed, r.boardId, r), index := index)
    case Some(ck) => acc.(routed := Push(acc.routed, (r.boardId, ck), r), index := index)
  }

  function PlaceAll(cell: Cell, rows: seq<Row>): Classified {
    if rows == [] then Classified([], [], []) else Place(cell, PlaceAll(cell, rows[..|rows| - 1]), rows[|rows| - 1])
  }

  predicate AnyMisfit(cell: Cell, rows: seq<Row>) { exists i :: 0 <= i < |rows| && Misfit(cell, rows[i]) }

  /** `classify_cell_rows`; None when some row is an error. */
  method ClassifyCellRows(cell: Cell, rows: seq<Row>) returns (c: Option<Classified>)
    ensures c == if AnyMisfit(cell, rows) then None else Some(PlaceAll(cell, rows))
  {
    var routed: Groups := [];
    var failed: Dict<string, seq<Row>> := [];
    var index: Dict<string, string> := [];
    hide Misfit, Push, SetDefault, CellNames.ParseArtifact;
    for i := 0 to |rows|
      invariant !AnyMisfit(cell, rows[..i])
      invariant Classified(routed, failed, index) == PlaceAll(cell, rows[..i])
    {
      var r := rows[i];
      if Misfit(cell, r) {
        return None;
      }
      assert rows[..i + 1][..i] == rows[..i] && rows[..i + 1][i] == r;
      var ck := NamedCkpt(cell, r);
      if ck.None? {
        failed := Push(failed, r.boardId, r);
      } else {
        routed := Push(routed, (r.boardId, ck.value), r);
      }
      index := SetDefault(index, r.boardId, r.boardIndex);
    }
    assert rows[..|rows|] == rows;
    return Some(Classified(routed, failed, index));
  }

  // --- pricing ---------------------------------------------------------------------------------------------------

  /** The pass-type values of a failure; None leaves a metric blank. */
  datatype Score = Score(success: Option<bool>, cleanPass: Option<bool>, routability: Option<real>)

  const FULL_FAILURE := Score(Some(false), Some(false), Some(0.0))

  predicate AllErrors(rows: seq<Row>) { forall i | 0 <= i < |rows| :: rows[i].evalStatus.EvalError? }

  function FailureScore(routed: seq<Row>): Score {
    if AllErrors(routed) then FULL_FAILURE
    else Score(if exists i :: 0 <= i < |routed| && routed[i].success.Some? then Some(false) else None,
               if exists i :: 0 <= i < |routed| && routed[i].cleanPass.Some? then Some(false) else None,
               if exists i :: 0 <= i < |routed| && routed[i].routability.Some? then Some(0.0) else None)
  }

  function FailedAttempt(r: Row, score: Score, phi0: Option<real>): Row {
    r.(ratsnestReduction := None, wirelength := None, viaCount := None, drvErrors := None, drvPromoted := None,
       success := score.success, cleanPass := score.cleanPass, routability := score.routability,
       initialPotential := phi0, finalPotential := phi0, potentialGain := if phi0.Some? then Some(0.0) else None,
       failed := true)
  }

  /** The group has a routed attempt, and none of its routed attempts was scored. */
  predicate AllRoutedUnscored(rows: seq<Row>) {
    && (exists i :: 0 <= i < |rows| && !rows[i].failed)
    && (forall i | 0 <= i < |rows| && !rows[i].failed :: rows[i].evalStatus.EvalError?)
  }

  predicate ScoredWithoutPhi0(r: Row) { !r.failed && r.evalStatus.Scored? && r.initialPotential.None? }

  function PhiOf(phi0: map<string, real>, bid: string): Option<real> { if bid in phi0 then Some(phi0[bid]) else None }

  function Unscored(r: Row, score: Score, phi0: Option<real>): Row {
    if r.failed then r else FailedAttempt(r, score, phi0).(unscored := true)
  }

  function UnscoredAsFailed(rows: seq<Row>, score: Score, phi0: Option<real>): (out: seq<Row>)
    ensures |out| == |rows|
  {
    if AllRoutedUnscored(rows) then seq(|rows|, i requires 0 <= i < |rows| => Unscored(rows[i], score, phi0)) else rows
  }

  /** A scored row without Φ₀ takes it, and its gain, from Stage 2. */
  function TakePhi0(phi0: map<string, real>, r: Row): Row {
    if ScoredWithoutPhi0(r) && r.boardId in phi0 then
      var v := phi0[r.boardId];
      r.(initialPotential := Some(v), potentialGain := if r.finalPotential.Some? then Some(r.finalPotential.value - v) else None)
    else r
  }

  function TakeAll(phi0: map<string, real>, rows: seq<Row>): (out: seq<Row>)
    ensures |out| == |rows|
  {
    seq(|rows|, i requires 0 <= i < |rows| => TakePhi0(phi0, rows[i]))
  }

  // --- attribution, re-pricing, completion --------------------------------------------------------------------------

  /** What the aggregation builds: the groups, and the failed attempts no ckpt can be named for. */
  datatype Ledger = Ledger(groups: Groups, loose: Dict<string, seq<Row>>)

  datatype Pricing = Pricing(score: Score, phi0: map<string, real>)

  function Ckpts(groups: Groups): set<int> { set i | 0 <= i < |groups| :: groups[i].0.1 }

  /** The cell's only ckpt. */
  function OnlyCkpt(groups: Groups): Option<int> {
    var cks := Ascending(Ckpts(groups));
    if |cks| == 1 then Some(cks[0]) else None
  }

  lemma OneAlone(xs: seq<int>, x: int)
    requires x in xs && (forall i | 0 <= i < |xs| :: xs[i] == x) && forall i, j | 0 <= i < j < |xs| :: xs[i] < xs[j]
    ensures xs == [x]
  {
    assert xs[0] == xs[|xs| - 1];
  }

  /** A cell has an only ckpt when it has groups and all are of that one. */
  lemma OnlyCkptIs(groups: Groups, ck: int)
    ensures OnlyCkpt(groups) == Some(ck) <==> groups != [] && forall i | 0 <= i < |groups| :: groups[i].0.1 == ck
  {
    var cks := Ascending(Ckpts(groups));
    assert forall c :: c in cks <==> c in Ckpts(groups);
    if |cks| == 1 {
      assert cks[0] in Ckpts(groups);
      forall i | 0 <= i < |groups| ensures groups[i].0.1 == cks[0] { assert groups[i].0.1 in Ckpts(groups); assert groups[i].0.1 in cks; }
    }
    if groups != [] && forall i | 0 <= i < |groups| :: groups[i].0.1 == ck {
      assert groups[0].0.1 in Ckpts(groups);
      assert Ckpts(groups) == {ck};
      assert forall i | 0 <= i < |cks| :: cks[i] in Ckpts(groups);
      OneAlone(cks, ck);
    }
    hide Ascending;
  }

  /** One failed attempt is charged to its own ckpt column, else to the cell's only ckpt. */
  function Charge(p: Pricing, only: Option<int>, l: Ledger, bid: string, r: Row): Ledger {
    var row := FailedAttempt(r, p.score, PhiOf(p.phi0, bid));
    var ck := if r.ckpt.Some? then r.ckpt else only;
    match ck
    case None => l.(loose := Push(l.loose, bid, row))
    case Some(s) => l.(groups := Push(l.groups, (bid, s), row))
  }

  function ChargeRows(p: Pricing, only: Option<int>, l: Ledger, bid: string, rows: seq<Row>): Ledger {
    if rows == [] then l else Charge(p, only, ChargeRows(p, only, l, bid, rows[..|rows| - 1]), bid, rows[|rows| - 1])
  }

  function ChargeAll(p: Pricing, only: Option<int>, l: Ledger, failed: Dict<string, seq<Row>>): Ledger {
    if failed == [] then l
    else ChargeRows(p, only, ChargeAll(p, only, l, failed[..|failed| - 1]), failed[|failed| - 1].0, failed[|failed| - 1].1)
  }

  method ChargeFailed(p: Pricing, only: Option<int>, routed: Groups, failed: Dict<string, seq<Row>>) returns (l: Ledger)
    ensures l == ChargeAll(p, only, Ledger(routed, []), failed)
  {
    var groups := routed;
    var loose: Dict<string, seq<Row>> := [];
    hide FailedAttempt, Push;
    for i := 0 to |failed|
      invariant Ledger(groups, loose) == ChargeAll(p, only, Ledger(routed, []), failed[..i])
    {
      var (bid, rows) := failed[i];
      ghost var before := Ledger(groups, loose);
      for j := 0 to |rows|
        invariant Ledger(groups, loose) == ChargeRows(p, only, before, bid, rows[..j])
      {
        var r := rows[j];
        assert rows[..j + 1][..j] == rows[..j];
        var ck := if r.ckpt.Some? then r.ckpt else only;
        var row := FailedAttempt(r, p.score, PhiOf(p.phi0, bid));
        if ck.None? {
          loose := Push(loose, bid, row);
        } else {
          groups := Push(groups, (bid, ck.value), row);
        }
      }
      assert rows[..|rows|] == rows && failed[..i + 1][..i] == failed[..i];
    }
    assert failed[..|failed|] == failed;
    l := Ledger(groups, loose);
  }

  function PriceGroup(p: Pricing, g: ((string, int), seq<Row>)): ((string, int), seq<Row>) {
    (g.0, UnscoredAsFailed(g.1, p.score, PhiOf(p.phi0, g.0.0)))
  }

  function PriceGroups(p: Pricing, groups: Groups): (out: Groups)
    ensures |out| == |groups| && forall i | 0 <= i < |groups| :: out[i] == PriceGroup(p, groups[i])
  {
    seq(|groups|, i requires 0 <= i < |groups| => PriceGroup(p, groups[i]))
  }

  function TakeGroups(phi0: map<string, real>, groups: Groups): (out: Groups)
    ensures |out| == |groups| && forall i | 0 <= i < |groups| :: out[i] == (groups[i].0, TakeAll(phi0, groups[i].1))
  {
    seq(|groups|, i requires 0 <= i < |groups| => (groups[i].0, TakeAll(phi0, groups[i].1)))
  }

  method PriceUnscored(p: Pricing, groups: Groups) returns (out: Groups)
    ensures out == PriceGroups(p, groups)
  {
    out := groups;
    hide UnscoredAsFailed;
    for i := 0 to |groups|
      invariant |out| == |groups|
      invariant forall k | 0 <= k < i :: out[k] == PriceGroup(p, groups[k])
      invariant forall k | i <= k < |groups| :: out[k] == groups[k]
    {
      out := out[i := (out[i].0, UnscoredAsFailed(out[i].1, p.score, PhiOf(p.phi0, out[i].0.0)))];
    }
  }

  const MISSING_ROW := "missing_row"

  function MissingRow(bid: string, boardIndex: string): Row {
    Row(bid, boardIndex, "", None, MISSING_ROW, Blank, None, None, None, None, None, None, None, None, None, None, None, None,
        None, "", "", false, false)
  }

  function MissingAttempt(p: Pricing, bid: string, boardIndex: string): Row {
    FailedAttempt(MissingRow(bid, boardIndex), p.score, PhiOf(p.phi0, bid))
  }

  /** The completed ledger and how many attempts were added. */
  datatype Filled = Filled(ledger: Ledger, missing: nat)

  function FillCkpts(row: Row, bid: string, ckpts: seq<int>, f: Filled): Filled {
    if ckpts == [] then f else
      var g := FillCkpts(row, bid, ckpts[..|ckpts| - 1], f);
      var s := ckpts[|ckpts| - 1];
      if Get(g.ledger.groups, (bid, s)).Some? then g
      else Filled(g.ledger.(groups := Put(g.ledger.groups, (bid, s), [row])), g.missing + 1)
  }

  /** A board without unattributed failures owes one attempt to every ckpt of the cell. */
  function FillBoard(p: Pricing, index: Dict<string, string>, ckpts: seq<int>, f: Filled, bid: string): Filled {
    var row := MissingAttempt(p, bid, match Get(index, bid) case None => "" case Some(i) => i);
    if Get(f.ledger.loose, bid).Some? then f
    else if ckpts == [] then Filled(f.ledger.(loose := Put(f.ledger.loose, bid, [row])), f.missing + 1)
    else FillCkpts(row, bid, ckpts, f)
  }

  function FillBoards(p: Pricing, index: Dict<string, string>, ckpts: seq<int>, l: Ledger, boards: seq<string>): Filled {
    if boards == [] then Filled(l, 0)
    else FillBoard(p, index, ckpts, FillBoards(p, index, ckpts, l, boards[..|boards| - 1]), boards[|boards| - 1])
  }

  method FillMissing(p: Pricing, index: Dict<string, string>, ckpts: seq<int>, l: Ledger, boards: seq<string>) returns (f: Filled)
    ensures f == FillBoards(p, index, ckpts, l, boards)
  {
    var groups, loose, missing := l.groups, l.loose, 0;
    hide MissingAttempt;
    for i := 0 to |boards|
      invariant Filled(Ledger(groups, loose), missing) == FillBoards(p, index, ckpts, l, boards[..i])
    {
      var bid := boards[i];
      var row := MissingAttempt(p, bid, match Get(index, bid) case None => "" case Some(k) => k);
      ghost var before := Filled(Ledger(groups, loose), missing);
      assert boards[..i + 1][..i] == boards[..i];
      if Get(loose, bid).None? {
        if ckpts == [] {
          loose := Put(loose, bid, [row]);
          missing := missing + 1;
        } else {
          for j := 0 to |ckpts|
            invariant Filled(Ledger(groups, loose), missing) == FillCkpts(row, bid, ckpts[..j], before)
          {
            assert ckpts[..j + 1][..j] == ckpts[..j];
            if Get(groups, (bid, ckpts[j])).None? {
              groups := Put(groups, (bid, ckpts[j]), [row]);
              missing := missing + 1;
            }
          }
          assert ckpts[..|ckpts|] == ckpts;
        }
      }
    }
    assert boards[..|boards|] == boards;
    f := Filled(Ledger(groups, loose), missing);
  }

  // --- the whole stage ------------------------------------------------------------------------------------------------

  /** The boards of a nested dict of groups, in order. */
  function BoardIds(groups: Groups): seq<string> {
    if groups == [] then [] else
      var ids := BoardIds(groups[..|groups| - 1]);
      var bid := groups[|groups| - 1].0.0;
      if bid in ids then ids else ids + [bid]
  }

  function AllRows(groups: Groups): seq<Row> {
    if groups == [] then [] else AllRows(groups[..|groups| - 1]) + groups[|groups| - 1].1
  }

  /** The expected boards without a row, with their index. */
  function NewBoards(index: Dict<string, string>, expected: Dict<string, string>): Dict<string, string> {
    if expected == [] then [] else
      var init, last := NewBoards(index, expected[..|expected| - 1]), expected[|expected| - 1];
      if Get(index, last.0).Some? then init else init + [last]
  }

  function Ids(d: Dict<string, string>): (ids: seq<string>)
    ensures |ids| == |d| && forall i | 0 <= i < |d| :: ids[i] == d[i].0
  {
    seq(|d|, i requires 0 <= i < |d| => d[i].0)
  }

  function PricingFor(phi0: map<string, real>, c: Classified): Pricing { Pricing(FailureScore(AllRows(c.routed)), phi0) }

  /** Attributed and re-priced, before the completion. */
  function Priced(p: Pricing, c: Classified): Ledger {
    var l := ChargeAll(p, OnlyCkpt(c.routed), Ledger(TakeGroups(p.phi0, c.routed), []), c.failed);
    l.(groups := PriceGroups(p, l.groups))
  }

  function OwingBoards(p: Pricing, c: Classified, expected: Dict<string, string>): seq<string> {
    BoardIds(Priced(p, c).groups) + Ids(NewBoards(c.index, expected))
  }

  function Completed(p: Pricing, c: Classified, expected: Dict<string, string>): Filled {
    var l := Priced(p, c);
    FillBoards(p, c.index + NewBoards(c.index, expected), Ascending(Ckpts(l.groups)), l, OwingBoards(p, c, expected))
  }

  datatype Refusal = EmptyFile | BadRow | NotInGrammar | NoBoardSaved | UnexpectedBoard | ScorerFailure | SeveralConfigs

  predicate SomeFailed(failed: Dict<string, seq<Row>>, p: Row -> bool) {
    exists i, j :: 0 <= i < |failed| && 0 <= j < |failed[i].1| && p(failed[i].1[j])
  }

  function HasArtifact(r: Row): bool { r.artifact != "" }
  function LeftNoBoard(r: Row): bool { r.status == "completed" && r.artifact == "" }

  predicate SeveralRewardConfigs(rows: seq<Row>) {
    exists i, j :: 0 <= i < |rows| && 0 <= j < |rows| && rows[i].rewardConfig != "" && rows[j].rewardConfig != ""
                   && rows[i].rewardConfig != rows[j].rewardConfig
  }

  /** The runs that stop, in the order they are looked for. */
  function Stops(cell: Cell, rows: seq<Row>, expected: Option<Dict<string, string>>): Option<Refusal> {
    if rows == [] then Some(EmptyFile)
    else if AnyMisfit(cell, rows) then Some(BadRow)
    else
      var c := PlaceAll(cell, rows);
      if c.routed == [] && SomeFailed(c.failed, HasArtifact) then Some(NotInGrammar)
      else if c.routed == [] && SomeFailed(c.failed, LeftNoBoard) then Some(NoBoardSaved)
      else if expected.Some? && exists i :: 0 <= i < |c.index| && Get(expected.value, c.index[i].0).None? then Some(UnexpectedBoard)
      else if AllRoutedUnscored(AllRows(c.routed)) then Some(ScorerFailure)
      else if SeveralRewardConfigs(AllRows(c.routed)) then Some(SeveralConfigs)
      else None
  }

  function AnyRow(r: Row): bool { true }
  function CountsFailed(r: Row): bool { r.failed && !r.unscored }
  function CountsCrashed(r: Row): bool { r.failed && r.status == "crashed" }
  function CountsEvalError(r: Row): bool { r.unscored || (!r.failed && r.evalStatus.EvalError?) }

  datatype CkptRow = CkptRow(boardId: string, ckpt: int, rollouts: nat, failed: nat, crashed: nat, evalErrors: nat, winner: int)
  datatype BoardRow = BoardRow(boardId: string, ckpts: nat, runs: nat, failed: nat, crashed: nat, evalErrors: nat, unattributed: nat)

  /** A board's attempts: its groups', and its unattributed ones. */
  function BoardRuns(groups: Groups, bid: string, p: Row -> bool): nat {
    if groups == [] then 0 else
      BoardRuns(groups[..|groups| - 1], bid, p) + (if groups[|groups| - 1].0.0 == bid then Count(groups[|groups| - 1].1, p) else 0)
  }

  function BoardCkpts(groups: Groups, bid: string): nat {
    if groups == [] then 0 else BoardCkpts(groups[..|groups| - 1], bid) + (if groups[|groups| - 1].0.0 == bid then 1 else 0)
  }

  function RunsOf(l: Ledger, bid: string, p: Row -> bool): nat { BoardRuns(l.groups, bid, p) + Count(List(l.loose, bid), p) }

  function BoardRowOf(l: Ledger, bid: string): BoardRow {
    BoardRow(bid, BoardCkpts(l.groups, bid), RunsOf(l, bid, AnyRow), RunsOf(l, bid, CountsFailed),
             RunsOf(l, bid, CountsCrashed), RunsOf(l, bid, CountsEvalError), |List(l.loose, bid)|)
  }

  /** The reported boards: those with groups, then those with unattributed failures only. */
  function ReportIds(groups: Groups, loose: Dict<string, seq<Row>>): seq<string> {
    if loose == [] then BoardIds(groups) else
      var ids := ReportIds(groups, loose[..|loose| - 1]);
      if loose[|loose| - 1].0 in ids then ids else ids + [loose[|loose| - 1].0]
  }

  function BoardRows(l: Ledger): (out: seq<BoardRow>) {
    var ids := ReportIds(l.groups, l.loose);
    seq(|ids|, i requires 0 <= i < |ids| => BoardRowOf(l, ids[i]))
  }

  ghost predicate SummarizesGroup(mode: SelectionMode, g: ((string, int), seq<Row>), r: CkptRow) {
    && r == CkptRow(g.0.0, g.0.1, |g.1|, Count(g.1, CountsFailed), Count(g.1, CountsCrashed), Count(g.1, CountsEvalError), r.winner)
    && (g.1 != [] ==> Wins(g.1, mode, r.winner))
  }

  method CkptRows(groups: Groups, mode: SelectionMode) returns (out: seq<CkptRow>)
    ensures |out| == |groups| && forall i | 0 <= i < |groups| :: SummarizesGroup(mode, groups[i], out[i])
  {
    out := [];
    hide Wins;
    for i := 0 to |groups|
      invariant |out| == i
      invariant forall k | 0 <= k < i :: SummarizesGroup(mode, groups[k], out[k])
    {
      var (key, rows) := groups[i];
      var w := SelectRoutedFirst(rows, mode);
      out := out + [CkptRow(key.0, key.1, |rows|, Count(rows, CountsFailed), Count(rows, CountsCrashed), Count(rows, CountsEvalError), w)];
    }
  }

  datatype Report = Stopped(reason: Refusal) | Report(filled: Filled, ckptRows: seq<CkptRow>, boardRows: seq<BoardRow>)

  /** `aggregate_boards`, from the cell's rows, the expected boards (with their index) and Stage 2's Φ₀. */
  method AggregateBoards(cell: Cell, rows: seq<Row>, expected: Option<Dict<string, string>>, phi0: map<string, real>, mode: SelectionMode)
    returns (r: Report)
    ensures r.Stopped? <==> Stops(cell, rows, expected).Some?
    ensures r.Stopped? ==> Stops(cell, rows, expected) == Some(r.reason)
    ensures r.Report? ==>
      var c := PlaceAll(cell, rows);
      && r.filled == Completed(PricingFor(phi0, c), c, if expected.Some? then expected.value else [])
      && |r.ckptRows| == |r.filled.ledger.groups|
      && (forall i | 0 <= i < |r.ckptRows| :: SummarizesGroup(mode, r.filled.ledger.groups[i], r.ckptRows[i]))
      && r.boardRows == BoardRows(r.filled.ledger)
  {
    if rows == [] {
      return Stopped(EmptyFile);
    }
    var classified := ClassifyCellRows(cell, rows);
    var stop := Stops(cell, rows, expected);
    if classified.None? {
      return Stopped(BadRow);
    }
    if stop.Some? {
      return Stopped(stop.value);
    }
    hide Stops, PlaceAll, AnyMisfit, SummarizesGroup, Ascending;
    var c := classified.value;
    var p := PricingFor(phi0, c);
    var l := ChargeFailed(p, OnlyCkpt(c.routed), TakeGroups(phi0, c.routed), c.failed);
    var groups := PriceUnscored(p, l.groups);
    l := l.(groups := groups);
    var ckpts := Ascending(Ckpts(groups));
    var unseen := NewBoards(c.index, if expected.Some? then expected.value else []);
    var filled := FillMissing(p, c.index + unseen, ckpts, l, BoardIds(groups) + Ids(unseen));
    var ckptRows := CkptRows(filled.ledger.groups, mode);
    r := Report(filled, ckptRows, BoardRows(filled.ledger));
  }
}
