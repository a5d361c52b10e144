/** What the board table adds up to, and which attempts every board is sure to have. */
module BoardReports {
  import opened Decimal
  import opened IntSets
  import opened Dicts
  import opened Attempts
  import opened Aggregation
  import opened AttemptConservation

  ghost predicate Distinct(ids: seq<string>) { forall i, j | 0 <= i < j < |ids| :: ids[i] != ids[j] }

  // --- sums over the boards --------------------------------------------------------------------------------------

  function GroupSum(ids: seq<string>, groups: Groups, q: Row -> bool): nat {
    if ids == [] then 0 else GroupSum(ids[..|ids| - 1], groups, q) + BoardRuns(groups, ids[|ids| - 1], q)
  }

  function LooseSum(ids: seq<string>, loose: Dict<string, seq<Row>>, q: Row -> bool): nat {
    if ids == [] then 0 else LooseSum(ids[..|ids| - 1], loose, q) + Count(List(loose, ids[|ids| - 1]), q)
  }

  /** A group counts for its own board only. */
  lemma {:induction false} OneGroup(ids: seq<string>, groups: Groups, q: Row -> bool)
    requires Distinct(ids) && groups != []
    ensures GroupSum(ids, groups, q) == GroupSum(ids, groups[..|groups| - 1], q)
      + if groups[|groups| - 1].0.0 in ids then Count(groups[|groups| - 1].1, q) else 0
  {
    if ids != [] {
      var init, last := ids[..|ids| - 1], ids[|ids| - 1];
      OneGroup(init, groups, q);
      assert last !in init;
      assert ids == init + [last];
    }
  }

  lemma {:induction false} NoGroups(ids: seq<string>, q: Row -> bool)
    ensures GroupSum(ids, [], q) == 0 && LooseSum(ids, [], q) == 0
  {
    if ids != [] { NoGroups(ids[..|ids| - 1], q); }
  }

  lemma {:induction false} GroupsSumUp(ids: seq<string>, groups: Groups, q: Row -> bool)
    requires Distinct(ids) && forall i | 0 <= i < |groups| :: groups[i].0.0 in ids
    ensures GroupSum(ids, groups, q) == CountIn(groups, q)
  {
    if groups == [] {
      NoGroups(ids, q);
    } else {
      OneGroup(ids, groups, q);
      assert forall i | 0 <= i < |groups| - 1 :: groups[..|groups| - 1][i] == groups[i];
      GroupsSumUp(ids, groups[..|groups| - 1], q);
    }
  }

  lemma {:induction false} OneLoose(ids: seq<string>, loose: Dict<string, seq<Row>>, q: Row -> bool)
    requires Distinct(ids) && loose != [] && Keyed(loose)
    ensures LooseSum(ids, loose, q) == LooseSum(ids, loose[..|loose| - 1], q)
      + if loose[|loose| - 1].0 in ids then Count(loose[|loose| - 1].1, q) else 0
  {
    if ids != [] {
      var init, last := ids[..|ids| - 1], ids[|ids| - 1];
      OneLoose(init, loose, q);
      assert last !in init;
      assert ids == init + [last];
    }
  }

  lemma {:induction false} LooseSumsUp(ids: seq<string>, loose: Dict<string, seq<Row>>, q: Row -> bool)
    requires Distinct(ids) && Keyed(loose) && forall i | 0 <= i < |loose| :: loose[i].0 in ids
    ensures LooseSum(ids, loose, q) == CountIn(loose, q)
  {
    if loose == [] {
      NoGroups(ids, q);
    } else {
      OneLoose(ids, loose, q);
      assert forall i | 0 <= i < |loose| - 1 :: loose[..|loose| - 1][i] == loose[i];
      LooseSumsUp(ids, loose[..|loose| - 1], q);
    }
  }

  lemma {:induction false} BoardIdsCover(groups: Groups)
    ensures Distinct(BoardIds(groups))
    ensures forall i | 0 <= i < |groups| :: groups[i].0.0 in BoardIds(groups)
    ensures forall b | b in BoardIds(groups) :: exists i :: 0 <= i < |groups| && groups[i].0.0 == b
  {
    if groups != [] {
      var init := groups[..|groups| - 1];
      BoardIdsCover(init);
      assert forall i | 0 <= i < |init| :: groups[i] == init[i];
      forall b | b in BoardIds(groups)
        ensures exists i :: 0 <= i < |groups| && groups[i].0.0 == b
      {
        if b in BoardIds(init) {
          var i :| 0 <= i < |init| && init[i].0.0 == b;
          assert groups[i].0.0 == b;
        } else {
          assert groups[|groups| - 1].0.0 == b;
        }
      }
    }
  }

  /** The board has a group or an unattributed failure. */
  ghost predicate HasAttempts(groups: Groups, loose: Dict<string, seq<Row>>, b: string) {
    b in BoardIds(groups) || exists i :: 0 <= i < |loose| && loose[i].0 == b
  }

  lemma HasAttemptsStill(groups: Groups, loose: Dict<string, seq<Row>>, b: string)
    requires loose != []
    ensures HasAttempts(groups, loose[..|loose| - 1], b) || loose[|loose| - 1].0 == b ==> HasAttempts(groups, loose, b)
  {
    var init := loose[..|loose| - 1];
    hide BoardIds;
    if i :| 0 <= i < |init| && init[i].0 == b {
      assert loose[i].0 == b;
    }
  }

  lemma {:induction false} ReportIdsCover(groups: Groups, loose: Dict<string, seq<Row>>)
    ensures var ids := ReportIds(groups, loose);
      && Distinct(ids)
      && (forall i | 0 <= i < |groups| :: groups[i].0.0 in ids)
      && (forall i | 0 <= i < |loose| :: loose[i].0 in ids)
      && (forall b | b in ids :: HasAttempts(groups, loose, b))
  {
    if loose == [] {
      BoardIdsCover(groups);
    } else {
      var init := loose[..|loose| - 1];
      ReportIdsCover(groups, init);
      assert forall i | 0 <= i < |init| :: loose[i] == init[i];
      hide HasAttempts, BoardIds;
      forall b | b in ReportIds(groups, loose)
        ensures HasAttempts(groups, loose, b)
      {
        HasAttemptsStill(groups, loose, b);
      }
    }
  }

  function Sum(rows: seq<BoardRow>, f: BoardRow -> nat): nat {
    if rows == [] then 0 else Sum(rows[..|rows| - 1], f) + f(rows[|rows| - 1])
  }

  lemma {:induction false} SumIsTotal(l: Ledger, ids: seq<string>, rows: seq<BoardRow>, f: BoardRow -> nat, q: Row -> bool)
    requires |rows| == |ids| && forall i | 0 <= i < |ids| :: f(rows[i]) == RunsOf(l, ids[i], q)
    ensures Sum(rows, f) == GroupSum(ids, l.groups, q) + LooseSum(ids, l.loose, q)
  {
    if ids != [] {
      var n := |ids| - 1;
      assert forall i | 0 <= i < n :: ids[..n][i] == ids[i] && rows[..n][i] == rows[i];
      SumIsTotal(l, ids[..n], rows[..n], f, q);
    }
  }

  // --- the ledger stays a dict ---------------------------------------------------------------------------------------

  /** Lists that exist are not empty, and keys are not repeated. */
  ghost predicate Tidy(l: Ledger) {
    && Keyed(l.groups) && Keyed(l.loose)
    && (forall k: (string, int) :: Get(l.groups, k) != Some([]))
    && (forall b: string :: Get(l.loose, b) != Some([]))
  }

  /** What was there is still there. */
  ghost predicate Grows(l: Ledger, l': Ledger) {
    && (forall k: (string, int) :: Get(l.groups, k).Some? ==> Get(l'.groups, k).Some?)
    && (forall b: string :: Get(l.loose, b).Some? ==> Get(l'.loose, b).Some?)
  }

  /** What was there is still there, unchanged. */
  ghost predicate Keeps(l: Ledger, l': Ledger) {
    && (forall k: (string, int) :: Get(l.groups, k).Some? ==> Get(l'.groups, k) == Get(l.groups, k))
    && (forall b: string :: Get(l.loose, b).Some? ==> Get(l'.loose, b) == Get(l.loose, b))
  }

  lemma PutGroup(l: Ledger, k: (string, int), v: seq<Row>)
    requires Tidy(l) && v != []
    ensures var l' := l.(groups := Put(l.groups, k, v));
      Tidy(l') && Grows(l, l') && (Get(l.groups, k).None? ==> Keeps(l, l')) && Get(l'.groups, k) == Some(v)
  {
    forall j: (string, int) ensures Get(Put(l.groups, k, v), j) == if j == k then Some(v) else Get(l.groups, j) {
      GetAfterPut(l.groups, k, v, j);
    }
    GetAfterPut(l.groups, k, v, k);
  }

  lemma PutLoose(l: Ledger, b: string, v: seq<Row>)
    requires Tidy(l) && v != []
    ensures var l' := l.(loose := Put(l.loose, b, v));
      && Tidy(l') && Grows(l, l') && (Get(l.loose, b).None? ==> Keeps(l, l'))
      && forall j: string :: Get(l'.loose, j) == if j == b then Some(v) else Get(l.loose, j)
  {
    forall j: string ensures Get(Put(l.loose, b, v), j) == if j == b then Some(v) else Get(l.loose, j) {
      GetAfterPut(l.loose, b, v, j);
    }
    GetAfterPut(l.loose, b, v, b);
  }

  lemma {:induction false} ChargeRowsTidy(p: Pricing, only: Option<int>, l: Ledger, bid: string, rows: seq<Row>)
    requires Tidy(l)
    ensures Tidy(ChargeRows(p, only, l, bid, rows)) && Grows(l, ChargeRows(p, only, l, bid, rows))
  {
    if rows != [] {
      ChargeRowsTidy(p, only, l, bid, rows[..|rows| - 1]);
      var l1, r := ChargeRows(p, only, l, bid, rows[..|rows| - 1]), rows[|rows| - 1];
      var row := FailedAttempt(r, p.score, PhiOf(p.phi0, bid));
      var ck := if r.ckpt.Some? then r.ckpt else only;
      hide FailedAttempt, Put, List, Tidy;
      if ck.None? { PutLoose(l1, bid, List(l1.loose, bid) + [row]); }
      else { PutGroup(l1, (bid, ck.value), List(l1.groups, (bid, ck.value)) + [row]); }
    }
  }

  lemma {:induction false} ChargeAllTidy(p: Pricing, only: Option<int>, l: Ledger, failed: Dict<string, seq<Row>>)
    requires Tidy(l)
    ensures Tidy(ChargeAll(p, only, l, failed)) && Grows(l, ChargeAll(p, only, l, failed))
  {
    if failed != [] {
      var init := failed[..|failed| - 1];
      ChargeAllTidy(p, only, l, init);
      ChargeRowsTidy(p, only, ChargeAll(p, only, l, init), failed[|failed| - 1].0, failed[|failed| - 1].1);
      hide ChargeRows, Tidy;
    }
  }

  /** A map over the lists of a dict keeps its keys. */
  lemma {:induction false} SameKeys(d: Groups, e: Groups)
    requires |d| == |e| && forall i | 0 <= i < |d| :: e[i].0 == d[i].0 && |e[i].1| == |d[i].1|
    ensures Keyed(d) ==> Keyed(e)
    ensures forall k: (string, int) :: Get(d, k).Some? == Get(e, k).Some? && (Get(d, k) == Some([]) <==> Get(e, k) == Some([]))
  {
    if d != [] { SameKeys(d[..|d| - 1], e[..|e| - 1]); }
  }

  lemma {:induction false} PlacedTidy(cell: Cell, rows: seq<Row>)
    ensures var c := PlaceAll(cell, rows); Tidy(Ledger(c.routed, c.failed))
  {
    if rows != [] {
      PlacedTidy(cell, rows[..|rows| - 1]);
      var c, r := PlaceAll(cell, rows[..|rows| - 1]), rows[|rows| - 1];
      var l := Ledger(c.routed, c.failed);
      hide NamedCkpt, Put, List, Tidy, SetDefault;
      match NamedCkpt(cell, r)
      case None => PutLoose(l, r.boardId, List(c.failed, r.boardId) + [r]);
      case Some(ck) => PutGroup(l, (r.boardId, ck), List(c.routed, (r.boardId, ck)) + [r]);
    }
  }

  lemma PricedTidy(cell: Cell, rows: seq<Row>, p: Pricing)
    ensures Tidy(Priced(p, PlaceAll(cell, rows)))
  {
    var c := PlaceAll(cell, rows);
    PlacedTidy(cell, rows);
    SameKeys(c.routed, TakeGroups(p.phi0, c.routed));
    var l0 := Ledger(TakeGroups(p.phi0, c.routed), []);
    ChargeAllTidy(p, OnlyCkpt(c.routed), l0, c.failed);
    var l1 := ChargeAll(p, OnlyCkpt(c.routed), l0, c.failed);
    SameKeys(l1.groups, PriceGroups(p, l1.groups));
  }

  // --- coverage --------------------------------------------------------------------------------------------------------

  lemma {:induction false} FillCkptsCovers(row: Row, bid: string, ckpts: seq<int>, f: Filled)
    requires Tidy(f.ledger)
    ensures var g := FillCkpts(row, bid, ckpts, f);
      && Tidy(g.ledger) && Keeps(f.ledger, g.ledger) && g.ledger.loose == f.ledger.loose
      && (forall s | s in ckpts :: Get(g.ledger.groups, (bid, s)).Some?)
      && (forall i | 0 <= i < |g.ledger.groups| :: InGroups(f.ledger.groups, g.ledger.groups[i]) || (g.ledger.groups[i].0.0 == bid && g.ledger.groups[i].0.1 in ckpts && g.ledger.groups[i].1 == [row]))
  {
    if ckpts != [] {
      var init, s := ckpts[..|ckpts| - 1], ckpts[|ckpts| - 1];
      FillCkptsCovers(row, bid, init, f);
      var g := FillCkpts(row, bid, init, f);
      assert ckpts == init + [s];
      if Get(g.ledger.groups, (bid, s)).None? {
        PutGroup(g.ledger, (bid, s), [row]);
        assert Put(g.ledger.groups, (bid, s), [row]) == g.ledger.groups + [((bid, s), [row])];
      }
      hide Tidy, Put, Get, InGroups;
    } else {
      assert forall i | 0 <= i < |f.ledger.groups| :: InGroups(f.ledger.groups, f.ledger.groups[i]);
    }
  }

  predicate InGroups(groups: Groups, g: ((string, int), seq<Row>)) { g in groups }

  /** A group the completion added. */
  ghost predicate FilledIn(boards: seq<string>, ckpts: seq<int>, g: ((string, int), seq<Row>)) {
    g.0.0 in boards && g.0.1 in ckpts && |g.1| == 1 && g.1[0].failed
  }

  /** The completion of these boards: nothing is lost, only owed groups are added, and none is owed any more. */
  ghost predicate Completes(l: Ledger, l': Ledger, ckpts: seq<int>, boards: seq<string>) {
    && Keeps(l, l')
    && (forall b: string | Get(l'.loose, b).Some? :: Get(l.loose, b).Some? || (b in boards && ckpts == []))
    && (forall b | b in boards && Get(l'.loose, b).None? :: ckpts != [] && forall s | s in ckpts :: Get(l'.groups, (b, s)).Some?)
    && (forall i | 0 <= i < |l'.groups| :: InGroups(l.groups, l'.groups[i]) || FilledIn(boards, ckpts, l'.groups[i]))
  }

  lemma LeftAsItIs(l: Ledger, ckpts: seq<int>, bid: string)
    requires Tidy(l) && Get(l.loose, bid).Some?
    ensures Completes(l, l, ckpts, [bid])
  {
    assert forall i | 0 <= i < |l.groups| :: InGroups(l.groups, l.groups[i]);
    hide Get, InGroups, Tidy;
  }

  lemma FilledLoose(l: Ledger, bid: string, row: Row)
    requires Tidy(l) && Get(l.loose, bid).None? && row.failed
    ensures var l' := l.(loose := Put(l.loose, bid, [row])); Tidy(l') && Completes(l, l', [], [bid])
  {
    PutLoose(l, bid, [row]);
    assert forall i | 0 <= i < |l.groups| :: InGroups(l.groups, l.groups[i]);
    hide Tidy, Put, Get, InGroups;
  }

  lemma FilledCkpts(row: Row, bid: string, ckpts: seq<int>, f: Filled)
    requires Tidy(f.ledger) && Get(f.ledger.loose, bid).None? && row.failed && ckpts != []
    ensures var l' := FillCkpts(row, bid, ckpts, f).ledger; Tidy(l') && Completes(f.ledger, l', ckpts, [bid])
  {
    hide Tidy, Put, Get, FillCkpts, InGroups, Keeps;
    FillCkptsCovers(row, bid, ckpts, f);
    var groups := FillCkpts(row, bid, ckpts, f).ledger.groups;
    forall i | 0 <= i < |groups| ensures InGroups(f.ledger.groups, groups[i]) || FilledIn([bid], ckpts, groups[i]) {
    }
    assert forall b | b in [bid] :: b == bid;
    hide FilledIn;
  }

  lemma FillBoardCompletes(p: Pricing, index: Dict<string, string>, ckpts: seq<int>, f: Filled, bid: string)
    requires Tidy(f.ledger)
    ensures var l' := FillBoard(p, index, ckpts, f, bid).ledger; Tidy(l') && Completes(f.ledger, l', ckpts, [bid])
  {
    var row := MissingAttempt(p, bid, match Get(index, bid) case None => "" case Some(i) => i);
    assert row.failed;
    hide Tidy, Completes, Put, Get, MissingAttempt, FillCkpts;
    if Get(f.ledger.loose, bid).Some? {
      LeftAsItIs(f.ledger, ckpts, bid);
    } else if ckpts == [] {
      FilledLoose(f.ledger, bid, row);
    } else {
      FilledCkpts(row, bid, ckpts, f);
    }
  }

  lemma CompletesInTurn(l: Ledger, l1: Ledger, l2: Ledger, ckpts: seq<int>, init: seq<string>, bid: string)
    requires Completes(l, l1, ckpts, init) && Completes(l1, l2, ckpts, [bid])
    ensures Completes(l, l2, ckpts, init + [bid])
  {
    hide Get;
    forall i | 0 <= i < |l2.groups|
      ensures InGroups(l.groups, l2.groups[i]) || FilledIn(init + [bid], ckpts, l2.groups[i])
    {
      if InGroups(l1.groups, l2.groups[i]) {
        var k :| 0 <= k < |l1.groups| && l1.groups[k] == l2.groups[i];
        assert InGroups(l.groups, l1.groups[k]) || FilledIn(init, ckpts, l1.groups[k]);
      }
    }
  }

  lemma {:induction false} FillBoardsCompletes(p: Pricing, index: Dict<string, string>, ckpts: seq<int>, l: Ledger, boards: seq<string>)
    requires Tidy(l)
    ensures var l' := FillBoards(p, index, ckpts, l, boards).ledger; Tidy(l') && Completes(l, l', ckpts, boards)
  {
    if boards != [] {
      var init, bid := boards[..|boards| - 1], boards[|boards| - 1];
      FillBoardsCompletes(p, index, ckpts, l, init);
      var f := FillBoards(p, index, ckpts, l, init);
      FillBoardCompletes(p, index, ckpts, f, bid);
      assert boards == init + [bid];
      hide Tidy, Completes, FillBoard;
      CompletesInTurn(l, f.ledger, FillBoard(p, index, ckpts, f, bid).ledger, ckpts, init, bid);
    } else {
      assert forall i | 0 <= i < |l.groups| :: InGroups(l.groups, l.groups[i]);
    }
  }

  // --- the theorems about a report ---------------------------------------------------------------------------------------

  /** Every attempt is in the report once: the runs of all boards are the rows of the file and the attempts
      that were missing; the failed ones are the rows without a routed board and the missing ones; the eval
      errors are the routed rows whose scoring failed, however their groups were priced. */
  lemma AttemptsAreConserved(cell: Cell, rows: seq<Row>, p: Pricing, expected: Dict<string, string>)
    requires Unmarked(rows)
    ensures var f := Completed(p, PlaceAll(cell, rows), expected);
      var report := BoardRows(f.ledger);
      && Sum(report, (b: BoardRow) => b.runs) == |rows| + f.missing
      && Sum(report, (b: BoardRow) => b.failed) == Count(rows, IsUnrouted(cell)) + f.missing
      && Sum(report, (b: BoardRow) => b.evalErrors) == Count(rows, IsRoutedError(cell))
  {
    var c := PlaceAll(cell, rows);
    var l := Completed(p, c, expected).ledger;
    PlacedCounts(cell, rows);
    CountsAreSteady();
    CompletedCounts(cell, rows, p, expected, AnyRow, true);
    CompletedCounts(cell, rows, p, expected, CountsFailed, true);
    CompletedCounts(cell, rows, p, expected, CountsEvalError, false);
    CompletedTidy(cell, rows, p, expected);
    hide Completed, PlaceAll, Steady, Each, Tidy;
    ReportSums(l, (b: BoardRow) => b.runs, AnyRow);
    ReportSums(l, (b: BoardRow) => b.failed, CountsFailed);
    ReportSums(l, (b: BoardRow) => b.evalErrors, CountsEvalError);
  }

  lemma CompletedTidy(cell: Cell, rows: seq<Row>, p: Pricing, expected: Dict<string, string>)
    ensures var c := PlaceAll(cell, rows);
      var l := Priced(p, c);
      && Tidy(Completed(p, c, expected).ledger)
      && Completes(l, Completed(p, c, expected).ledger, Ascending(Ckpts(l.groups)), OwingBoards(p, c, expected))
  {
    var c := PlaceAll(cell, rows);
    PricedTidy(cell, rows, p);
    var l := Priced(p, c);
    FillBoardsCompletes(p, c.index + NewBoards(c.index, expected), Ascending(Ckpts(l.groups)), l, OwingBoards(p, c, expected));
    hide Priced, Tidy, Completes, OwingBoards, PlaceAll;
  }

  lemma ReportSums(l: Ledger, f: BoardRow -> nat, q: Row -> bool)
    requires Keyed(l.loose)
    requires forall b :: f(BoardRowOf(l, b)) == RunsOf(l, b, q)
    ensures Sum(BoardRows(l), f) == Total(l, q)
  {
    var ids := ReportIds(l.groups, l.loose);
    ReportIdsCover(l.groups, l.loose);
    SumIsTotal(l, ids, BoardRows(l), f, q);
    GroupsSumUp(ids, l.groups, q);
    LooseSumsUp(ids, l.loose, q);
  }

  /** Every reported board without unattributed failures has an attempt at every ckpt of the cell. */
  lemma EveryBoardEveryCkpt(cell: Cell, rows: seq<Row>, p: Pricing, expected: Dict<string, string>, bid: string, ck: int)
    requires var l := Completed(p, PlaceAll(cell, rows), expected).ledger;
      bid in ReportIds(l.groups, l.loose) && Get(l.loose, bid).None? && ck in Ckpts(l.groups)
    ensures var l := Completed(p, PlaceAll(cell, rows), expected).ledger; List(l.groups, (bid, ck)) != []
  {
    var c := PlaceAll(cell, rows);
    var was, l := Priced(p, c), Completed(p, c, expected).ledger;
    var ckpts, boards := Ascending(Ckpts(was.groups)), OwingBoards(p, c, expected);
    CompletedTidy(cell, rows, p, expected);
    assert boards == BoardIds(was.groups) + Ids(NewBoards(c.index, expected));
    hide Completed, Priced, PlaceAll, OwingBoards;
    assert bid in boards && ck in ckpts by {
      ReportIdsCover(l.groups, l.loose);
      BoardIdsCover(l.groups);
      BoardIdsCover(was.groups);
      forall i | 0 <= i < |l.loose| ensures Get(l.loose, l.loose[i].0).Some? { EntryIsGot(l.loose, i); }
      var i :| 0 <= i < |l.groups| && l.groups[i].0.0 == bid;
      OwnedEntry(was, l, ckpts, boards, i);
      var k :| 0 <= k < |l.groups| && l.groups[k].0.1 == ck;
      OwnedEntry(was, l, ckpts, boards, k);
    }
    assert Get(l.groups, (bid, ck)).Some? && Get(l.groups, (bid, ck)) != Some([]);
  }

  lemma OwnedEntry(was: Ledger, l: Ledger, ckpts: seq<int>, boards: seq<string>, i: nat)
    requires Completes(was, l, ckpts, boards) && i < |l.groups|
    requires ckpts == Ascending(Ckpts(was.groups)) && forall b | b in BoardIds(was.groups) :: b in boards
    ensures l.groups[i].0.0 in boards && l.groups[i].0.1 in ckpts
  {
    if InGroups(was.groups, l.groups[i]) {
      BoardIdsCover(was.groups);
      var k :| 0 <= k < |was.groups| && was.groups[k] == l.groups[i];
      assert was.groups[k].0.1 in Ckpts(was.groups);
    }
  }

  lemma PricedGroupIsScored(p: Pricing, c: Classified, g: ((string, int), seq<Row>))
    requires InGroups(Priced(p, c).groups, g)
    ensures !AllRoutedUnscored(g.1)
  {
    var charged := ChargeAll(p, OnlyCkpt(c.routed), Ledger(TakeGroups(p.phi0, c.routed), []), c.failed).groups;
    var priced := PriceGroups(p, charged);
    assert priced == Priced(p, c).groups;
    var k :| 0 <= k < |priced| && priced[k] == g;
    assert priced[k] == PriceGroup(p, charged[k]);
    hide UnscoredAsFailed, AllRoutedUnscored, ChargeAll;
    RepricedGroup(charged[k].1, p.score, PhiOf(p.phi0, charged[k].0.0));
  }

  /** After the re-pricing no group is left whose routed attempts were all unscored, so a winner is never
      picked among unscored boards. */
  lemma NoUnscoredGroupIsLeft(cell: Cell, rows: seq<Row>, p: Pricing, expected: Dict<string, string>, i: nat)
    requires var l := Completed(p, PlaceAll(cell, rows), expected).ledger; i < |l.groups|
    ensures var g := Completed(p, PlaceAll(cell, rows), expected).ledger.groups[i].1;
      !AllRoutedUnscored(g) && Competing(g) != 1
  {
    var c := PlaceAll(cell, rows);
    CompletedTidy(cell, rows, p, expected);
    hide Completed, Priced, PlaceAll, OwingBoards, Tidy, Keeps, InGroups, Competing;
    var was, l := Priced(p, c), Completed(p, c, expected).ledger;
    var g := l.groups[i];
    assert InGroups(was.groups, g) || FilledIn(OwingBoards(p, c, expected), Ascending(Ckpts(was.groups)), g);
    if InGroups(was.groups, g) {
      PricedGroupIsScored(p, c, g);
    }
    NoneUnscoredCompeting(g.1);
  }

  lemma RepricedGroup(rows: seq<Row>, score: Score, phi0: Option<real>)
    ensures !AllRoutedUnscored(UnscoredAsFailed(rows, score, phi0))
  {
  }

  lemma NoneUnscoredCompeting(rows: seq<Row>)
    requires !AllRoutedUnscored(rows)
    ensures Competing(rows) != 1
  {
    if i :| 0 <= i < |rows| && Tier(rows[i]) >= 1 {
      assert !rows[i].failed;
      var k :| 0 <= k < |rows| && !rows[k].failed && !rows[k].evalStatus.EvalError?;
      assert Tier(rows[k]) >= 2;
    }
  }

  // --- the columns of a board ---------------------------------------------------------------------------------------

  ghost function GroupsOfBoard(groups: Groups, bid: string): set<int> { set i | 0 <= i < |groups| && groups[i].0.0 == bid }

  lemma {:induction false} CkptsAreGroups(groups: Groups, bid: string)
    ensures BoardCkpts(groups, bid) == |GroupsOfBoard(groups, bid)|
  {
    if groups != [] {
      var init, n := groups[..|groups| - 1], |groups| - 1;
      CkptsAreGroups(init, bid);
      assert forall i | 0 <= i < n :: init[i] == groups[i];
      assert n !in GroupsOfBoard(init, bid);
      assert GroupsOfBoard(groups, bid) == GroupsOfBoard(init, bid) + if groups[n].0.0 == bid then {n} else {};
    }
  }

  /** A board's line counts its groups, its attempts in them and its unattributed ones. */
  lemma ColumnsAre(l: Ledger, i: nat)
    requires i < |BoardRows(l)|
    ensures var r := BoardRows(l)[i];
      && r.ckpts == |GroupsOfBoard(l.groups, r.boardId)| && r.unattributed == |List(l.loose, r.boardId)|
      && r.runs == BoardRuns(l.groups, r.boardId, AnyRow) + r.unattributed
  {
    CkptsAreGroups(l.groups, BoardRows(l)[i].boardId);
    CountAll(List(l.loose, BoardRows(l)[i].boardId), AnyRow);
    hide BoardCkpts, BoardRuns, GroupsOfBoard, ReportIds, List;
  }
}
