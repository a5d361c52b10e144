/** The report's crashes are the crashed attempts of the file. */
module CrashCounts {
  import opened Decimal
  import opened IntSets
  import opened Dicts
  import opened Attempts
  import opened Aggregation
  import opened AttemptConservation
  import opened BoardReports
  import opened FinishedRows
  import opened Refusals

  function HasCrashed(r: Row): bool { r.status == "crashed" }

  /** No routed attempt is marked as a crash: it left a board. */
  ghost predicate RoutedDidNotCrash(cell: Cell, rows: seq<Row>) {
    forall i | 0 <= i < |rows| && Named(cell, rows[i]).Some? :: !HasCrashed(rows[i])
  }

  lemma ChargeCrashes(p: Pricing, only: Option<int>, l: Ledger, bid: string, r: Row)
    ensures Total(Charge(p, only, l, bid, r), CountsCrashed) == Total(l, CountsCrashed) + if HasCrashed(r) then 1 else 0
  {
    var row := FailedAttempt(r, p.score, PhiOf(p.phi0, bid));
    assert CountsCrashed(row) <==> HasCrashed(r);
    var ck := if r.ckpt.Some? then r.ckpt else only;
    hide Push, FailedAttempt;
    if ck.None? {
      CountAfterPush(l.loose, bid, row, CountsCrashed);
    } else {
      CountAfterPush(l.groups, (bid, ck.value), row, CountsCrashed);
    }
  }

  lemma {:induction false} ChargeRowsCrashes(p: Pricing, only: Option<int>, l: Ledger, bid: string, rows: seq<Row>)
    ensures Total(ChargeRows(p, only, l, bid, rows), CountsCrashed) == Total(l, CountsCrashed) + Count(rows, HasCrashed)
  {
    hide Charge, Total;
    if rows != [] {
      ChargeRowsCrashes(p, only, l, bid, rows[..|rows| - 1]);
      ChargeCrashes(p, only, ChargeRows(p, only, l, bid, rows[..|rows| - 1]), bid, rows[|rows| - 1]);
    }
  }

  lemma {:induction false} ChargeAllCrashes(p: Pricing, only: Option<int>, l: Ledger, failed: Dict<string, seq<Row>>)
    ensures Total(ChargeAll(p, only, l, failed), CountsCrashed) == Total(l, CountsCrashed) + CountIn(failed, HasCrashed)
  {
    hide ChargeRows, Total;
    if failed != [] {
      var init, last := failed[..|failed| - 1], failed[|failed| - 1];
      ChargeAllCrashes(p, only, l, init);
      ChargeRowsCrashes(p, only, ChargeAll(p, only, l, init), last.0, last.1);
    }
  }

  /** A failure or a row that did not crash: re-pricing it changes no crash. */
  predicate CalmAt(k: (string, int), r: Row) { r.failed || !HasCrashed(r) }

  /** A routed row as read. */
  predicate LeftAlone(k: (string, int), r: Row) { !r.failed && !HasCrashed(r) }

  lemma TakeCrashes(phi0: map<string, real>, routed: Groups)
    requires EachRow(routed, LeftAlone)
    ensures CountIn(TakeGroups(phi0, routed), CountsCrashed) == 0
    ensures EachRow(TakeGroups(phi0, routed), CalmAt)
  {
    var out := TakeGroups(phi0, routed);
    forall i, j | 0 <= i < |out| && 0 <= j < |out[i].1|
      ensures !CountsCrashed(out[i].1[j]) && CalmAt(out[i].0, out[i].1[j])
    {
      assert LeftAlone(routed[i].0, routed[i].1[j]);
    }
    CountInTells(out, CountsCrashed);
  }

  lemma PriceCrashes(p: Pricing, groups: Groups)
    requires EachRow(groups, CalmAt)
    ensures CountIn(PriceGroups(p, groups), CountsCrashed) == CountIn(groups, CountsCrashed)
  {
    var out := PriceGroups(p, groups);
    forall i | 0 <= i < |groups|
      ensures Count(out[i].1, CountsCrashed) == Count(groups[i].1, CountsCrashed)
    {
      var rows := groups[i].1;
      forall j | 0 <= j < |rows| ensures CountsCrashed(out[i].1[j]) == CountsCrashed(rows[j]) {
        assert CalmAt(groups[i].0, rows[j]);
      }
      SameCount(out[i].1, rows, CountsCrashed);
    }
    SameCountIn(out, groups, CountsCrashed);
  }

  lemma {:induction false} FillCrashes(p: Pricing, index: Dict<string, string>, ckpts: seq<int>, l: Ledger, boards: seq<string>)
    ensures Total(FillBoards(p, index, ckpts, l, boards).ledger, CountsCrashed) == Total(l, CountsCrashed)
  {
    if boards != [] {
      var init, bid := boards[..|boards| - 1], boards[|boards| - 1];
      FillCrashes(p, index, ckpts, l, init);
      var f := FillBoards(p, index, ckpts, l, init);
      var row := MissingAttempt(p, bid, match Get(index, bid) case None => "" case Some(i) => i);
      MissingDidNotCrash(p, bid, match Get(index, bid) case None => "" case Some(i) => i);
      hide MissingAttempt;
      if Get(f.ledger.loose, bid).None? {
        if ckpts == [] { NoListYet(f.ledger.loose, bid, row, CountsCrashed); }
        else { FillCkptsCounts(row, bid, ckpts, f, CountsCrashed); }
      }
    }
  }

  lemma MissingDidNotCrash(p: Pricing, bid: string, index: string)
    ensures !CountsCrashed(MissingAttempt(p, bid, index))
  {
    assert MISSING_ROW[0] == 'm' && "crashed"[0] == 'c';
  }

  lemma {:induction false} ChargeAllCalm(p: Pricing, only: Option<int>, l: Ledger, failed: Dict<string, seq<Row>>)
    requires EachRow(l.groups, CalmAt)
    ensures EachRow(ChargeAll(p, only, l, failed).groups, CalmAt)
  {
    hide ChargeRows, EachRow;
    if failed != [] {
      var init, last := failed[..|failed| - 1], failed[|failed| - 1];
      ChargeAllCalm(p, only, l, init);
      ChargeRowsCalm(p, only, ChargeAll(p, only, l, init), last.0, last.1);
    }
  }

  lemma {:induction false} ChargeRowsCalm(p: Pricing, only: Option<int>, l: Ledger, bid: string, rows: seq<Row>)
    requires EachRow(l.groups, CalmAt)
    ensures EachRow(ChargeRows(p, only, l, bid, rows).groups, CalmAt)
  {
    hide EachRow, Push;
    if rows != [] {
      var init, r := rows[..|rows| - 1], rows[|rows| - 1];
      ChargeRowsCalm(p, only, l, bid, init);
      var was := ChargeRows(p, only, l, bid, init);
      var ck := if r.ckpt.Some? then r.ckpt else only;
      if ck.Some? {
        PushKeepsRows(was.groups, (bid, ck.value), FailedAttempt(r, p.score, PhiOf(p.phi0, bid)), CalmAt);
      }
    }
  }

  lemma RoutedCalm(cell: Cell, rows: seq<Row>)
    requires Unmarked(rows) && RoutedDidNotCrash(cell, rows)
    ensures EachRow(PlaceAll(cell, rows).routed, LeftAlone)
  {
    var routed := PlaceAll(cell, rows).routed;
    assert rows == rows[..|rows|];
    PlacedAreRouted(cell, rows, rows);
    hide PlaceAll, Unmarked;
    forall i, j | 0 <= i < |routed| && 0 <= j < |routed[i].1|
      ensures LeftAlone(routed[i].0, routed[i].1[j])
    {
      assert Routed(cell, rows, routed[i].0, routed[i].1[j]);
    }
  }

  /** Up to the completion. */
  lemma PricedCrashes(cell: Cell, rows: seq<Row>, p: Pricing)
    requires Unmarked(rows) && RoutedDidNotCrash(cell, rows)
    ensures Total(Priced(p, PlaceAll(cell, rows)), CountsCrashed) == Count(rows, HasCrashed)
  {
    var c := PlaceAll(cell, rows);
    RoutedCalm(cell, rows);
    UnroutedCrashes(cell, rows);
    hide CalmAt, EachRow, PlaceAll, TakeGroups, ChargeAll, PriceGroups, OnlyCkpt, Unmarked, RoutedDidNotCrash, Count;
    TakeCrashes(p.phi0, c.routed);
    var l0 := Ledger(TakeGroups(p.phi0, c.routed), []);
    ChargeAllCrashes(p, OnlyCkpt(c.routed), l0, c.failed);
    ChargeAllCalm(p, OnlyCkpt(c.routed), l0, c.failed);
    PriceCrashes(p, ChargeAll(p, OnlyCkpt(c.routed), l0, c.failed).groups);
  }

  /** Summed over the report, the crashes are the rows of the file that crashed, whatever was re-priced or filled in. */
  lemma CrashesAreConserved(cell: Cell, rows: seq<Row>, p: Pricing, expected: Dict<string, string>)
    requires Unmarked(rows) && RoutedDidNotCrash(cell, rows)
    ensures Sum(BoardRows(Completed(p, PlaceAll(cell, rows), expected).ledger), (b: BoardRow) => b.crashed) == Count(rows, HasCrashed)
  {
    hide *;
    PricedCrashes(cell, rows, p);
    CompletedCrashes(p, PlaceAll(cell, rows), expected);
    CompletedTidy(cell, rows, p, expected);
    CrashesAreSummed(Completed(p, PlaceAll(cell, rows), expected).ledger);
  }

  lemma CompletedCrashes(p: Pricing, c: Classified, expected: Dict<string, string>)
    ensures Total(Completed(p, c, expected).ledger, CountsCrashed) == Total(Priced(p, c), CountsCrashed)
  {
    hide FillBoards, Priced, NewBoards, OwingBoards, Ascending, Total;
    var l := Priced(p, c);
    FillCrashes(p, c.index + NewBoards(c.index, expected), Ascending(Ckpts(l.groups)), l, OwingBoards(p, c, expected));
  }

  lemma CrashesAreSummed(l: Ledger)
    requires Tidy(l)
    ensures Sum(BoardRows(l), (b: BoardRow) => b.crashed) == Total(l, CountsCrashed)
  {
    hide BoardRows, Sum, Total, RunsOf, BoardCkpts, List;
    ReportSums(l, (b: BoardRow) => b.crashed, CountsCrashed);
  }

  lemma UnroutedCrashes(cell: Cell, rows: seq<Row>)
    requires RoutedDidNotCrash(cell, rows)
    ensures CountIn(PlaceAll(cell, rows).failed, HasCrashed) == Count(rows, HasCrashed)
  {
    PlacedCount(cell, rows, HasCrashed);
    SameCounts(rows, UnroutedAnd(cell, HasCrashed), HasCrashed);
  }

  lemma {:induction false} SameCounts(rows: seq<Row>, f: Row -> bool, g: Row -> bool)
    requires forall i | 0 <= i < |rows| :: f(rows[i]) == g(rows[i])
    ensures Count(rows, f) == Count(rows, g)
  {
    if rows != [] { SameCounts(rows[..|rows| - 1], f, g); }
  }
}
