/** What a row of the finished groups is worth: a failure is priced at Φ₀, everything else is a row of the file. */
module FinishedRows {
  import opened Decimal
  import opened IntSets
  import opened Dicts
  import opened Attempts
  import opened Aggregation
  import opened AttemptConservation

  // --- the two kinds of row -----------------------------------------------------------------------------------------

  /** A failure: it ends where it began, at Φ₀, with nothing gained; it has no board metrics, and its pass-type values
      are the failing ones. */
  ghost predicate PricedAsFailure(score: Score, phi0: Option<real>, r: Row) {
    && r.failed && r.initialPotential == phi0 && r.finalPotential == phi0 && (phi0.Some? ==> r.potentialGain == Some(0.0))
    && (phi0.None? ==> r.potentialGain == None)
    && r.ratsnestReduction == None && r.wirelength == None && r.viaCount == None && r.drvErrors == None && r.drvPromoted == None
    && r.success == score.success && r.cleanPass == score.cleanPass && r.routability == score.routability
  }

  /** A row of the file; a scored one without Φ₀ has Stage 2's, and gains its final potential less that. */
  ghost predicate TakenFrom(phi0: map<string, real>, src: Row, r: Row) {
    if src.evalStatus.Scored? && src.initialPotential.None? && src.boardId in phi0 then
      r == src.(initialPotential := Some(phi0[src.boardId]),
                potentialGain := if src.finalPotential.Some? then Some(src.finalPotential.value - phi0[src.boardId]) else None)
    else r == src
  }

  /** An attempt in the group of a board and a ckpt. */
  ghost predicate Finished(cell: Cell, rows: seq<Row>, phi0: map<string, real>, score: Score, k: (string, int), r: Row) {
    if r.failed then PricedAsFailure(score, if k.0 in phi0 then Some(phi0[k.0]) else None, r)
    else exists i :: 0 <= i < |rows| && rows[i].boardId == k.0 && NamedCkpt(cell, rows[i]) == Some(k.1) && TakenFrom(phi0, rows[i], r)
  }

  /** An attempt no ckpt can be named for. */
  ghost predicate FinishedLoose(phi0: map<string, real>, score: Score, bid: string, r: Row) {
    PricedAsFailure(score, if bid in phi0 then Some(phi0[bid]) else None, r)
  }

  ghost predicate EachRow<K>(d: Dict<K, seq<Row>>, q: (K, Row) -> bool) {
    forall i, j | 0 <= i < |d| && 0 <= j < |d[i].1| :: q(d[i].0, d[i].1[j])
  }

  /** The failing values, from the routed rows: blank for a metric no routed row has, unless all of them are errors. */
  lemma FailureScoreIs(routed: seq<Row>)
    ensures var s := FailureScore(routed);
      var errors := forall i | 0 <= i < |routed| :: routed[i].evalStatus.EvalError?;
      && (s.success == Some(false) <==> errors || exists i :: 0 <= i < |routed| && routed[i].success.Some?)
      && (s.cleanPass == Some(false) <==> errors || exists i :: 0 <= i < |routed| && routed[i].cleanPass.Some?)
      && (s.routability == Some(0.0) <==> errors || exists i :: 0 <= i < |routed| && routed[i].routability.Some?)
      && s.success != Some(true) && s.cleanPass != Some(true) && (s.routability.Some? ==> s.routability == Some(0.0))
  {
  }

  // --- dicts of lists -----------------------------------------------------------------------------------------------

  lemma {:induction false} ReplaceKeepsRows<K>(d: Dict<K, seq<Row>>, k: K, v: seq<Row>, q: (K, Row) -> bool)
    requires EachRow(d, q) && forall j | 0 <= j < |v| :: q(k, v[j])
    ensures EachRow(Replace(d, k, v), q)
  {
    if d != [] {
      var init, last := d[..|d| - 1], d[|d| - 1];
      assert forall i | 0 <= i < |init| :: init[i] == d[i];
      assert EachRow(init, q);
      if last.0 != k { ReplaceKeepsRows(init, k, v, q); }
    }
  }

  lemma PutKeepsRows<K>(d: Dict<K, seq<Row>>, k: K, v: seq<Row>, q: (K, Row) -> bool)
    requires EachRow(d, q) && forall j | 0 <= j < |v| :: q(k, v[j])
    ensures EachRow(Put(d, k, v), q)
  {
    ReplaceKeepsRows(d, k, v, q);
  }

  lemma ListHasRows<K>(d: Dict<K, seq<Row>>, k: K, q: (K, Row) -> bool)
    requires EachRow(d, q)
    ensures forall j | 0 <= j < |List(d, k)| :: q(k, List(d, k)[j])
  {
    if Get(d, k).Some? {
      GotIsEntry(d, k);
      var i :| 0 <= i < |d| && d[i] == (k, Get(d, k).value);
      assert forall j | 0 <= j < |d[i].1| :: q(d[i].0, d[i].1[j]);
    }
  }

  lemma PushKeepsRows<K>(d: Dict<K, seq<Row>>, k: K, r: Row, q: (K, Row) -> bool)
    requires EachRow(d, q) && q(k, r)
    ensures EachRow(Push(d, k, r), q)
  {
    ListHasRows(d, k, q);
    hide Put, EachRow, List;
    PutKeepsRows(d, k, List(d, k) + [r], q);
  }

  // --- stage by stage ------------------------------------------------------------------------------------------------

  /** A routed row as classified. */
  ghost predicate Routed(cell: Cell, rows: seq<Row>, k: (string, int), r: Row) {
    !r.failed && exists i :: 0 <= i < |rows| && rows[i] == r && r.boardId == k.0 && NamedCkpt(cell, r) == Some(k.1)
  }

  lemma {:induction false} PlacedAreRouted(cell: Cell, rows: seq<Row>, all: seq<Row>)
    requires Unmarked(rows) && |rows| <= |all| && rows == all[..|rows|]
    ensures EachRow(PlaceAll(cell, rows).routed, (k, r) => Routed(cell, all, k, r))
  {
    if rows != [] {
      var init, r := rows[..|rows| - 1], rows[|rows| - 1];
      PlacedAreRouted(cell, init, all);
      var c := PlaceAll(cell, init);
      assert r == all[|rows| - 1] && !r.failed by { LastUnmarked(rows); }
      hide NamedCkpt, Push, SetDefault, EachRow, Unmarked;
      if NamedCkpt(cell, r).Some? {
        assert Routed(cell, all, (r.boardId, NamedCkpt(cell, r).value), r);
        PushKeepsRows(c.routed, (r.boardId, NamedCkpt(cell, r).value), r, (k, r) => Routed(cell, all, k, r));
      }
    }
  }

  lemma TakenIsFinished(cell: Cell, rows: seq<Row>, phi0: map<string, real>, score: Score, k: (string, int), r: Row)
    requires Routed(cell, rows, k, r)
    ensures Finished(cell, rows, phi0, score, k, TakePhi0(phi0, r))
  {
    hide NamedCkpt;
    var i :| 0 <= i < |rows| && rows[i] == r && r.boardId == k.0 && NamedCkpt(cell, r) == Some(k.1);
    assert TakenFrom(phi0, rows[i], TakePhi0(phi0, r));
  }

  lemma TakenAreFinished(cell: Cell, rows: seq<Row>, phi0: map<string, real>, score: Score, routed: Groups)
    requires EachRow(routed, (k, r) => Routed(cell, rows, k, r))
    ensures EachRow(TakeGroups(phi0, routed), (k, r) => Finished(cell, rows, phi0, score, k, r))
  {
    var out := TakeGroups(phi0, routed);
    forall i, j | 0 <= i < |out| && 0 <= j < |out[i].1|
      ensures Finished(cell, rows, phi0, score, out[i].0, out[i].1[j])
    {
      assert Routed(cell, rows, routed[i].0, routed[i].1[j]);
      TakenIsFinished(cell, rows, phi0, score, routed[i].0, routed[i].1[j]);
    }
    hide Finished, TakePhi0, Routed;
  }

  ghost predicate LedgerFinished(cell: Cell, rows: seq<Row>, p: Pricing, l: Ledger) {
    && EachRow(l.groups, (k, r) => Finished(cell, rows, p.phi0, p.score, k, r))
    && EachRow(l.loose, (bid, r) => FinishedLoose(p.phi0, p.score, bid, r))
  }

  lemma FailureIsFinished(cell: Cell, rows: seq<Row>, p: Pricing, bid: string, ck: int, r: Row)
    ensures var row := FailedAttempt(r, p.score, PhiOf(p.phi0, bid));
      Finished(cell, rows, p.phi0, p.score, (bid, ck), row) && FinishedLoose(p.phi0, p.score, bid, row)
  {
  }

  lemma ChargeFinishes(cell: Cell, rows: seq<Row>, p: Pricing, only: Option<int>, l: Ledger, bid: string, r: Row)
    requires LedgerFinished(cell, rows, p, l)
    ensures LedgerFinished(cell, rows, p, Charge(p, only, l, bid, r))
  {
    var row := FailedAttempt(r, p.score, PhiOf(p.phi0, bid));
    var ck := if r.ckpt.Some? then r.ckpt else only;
    hide Push, FailedAttempt, Finished, FinishedLoose, EachRow;
    FailureIsFinished(cell, rows, p, bid, if ck.Some? then ck.value else 0, r);
    if ck.None? {
      PushKeepsRows(l.loose, bid, row, (bid, r) => FinishedLoose(p.phi0, p.score, bid, r));
    } else {
      PushKeepsRows(l.groups, (bid, ck.value), row, (k, r) => Finished(cell, rows, p.phi0, p.score, k, r));
    }
  }

  lemma {:induction false} ChargeRowsFinish(cell: Cell, rows: seq<Row>, p: Pricing, only: Option<int>, l: Ledger, bid: string, failed: seq<Row>)
    requires LedgerFinished(cell, rows, p, l)
    ensures LedgerFinished(cell, rows, p, ChargeRows(p, only, l, bid, failed))
  {
    hide Charge, LedgerFinished;
    if failed != [] {
      ChargeRowsFinish(cell, rows, p, only, l, bid, failed[..|failed| - 1]);
      ChargeFinishes(cell, rows, p, only, ChargeRows(p, only, l, bid, failed[..|failed| - 1]), bid, failed[|failed| - 1]);
    }
  }

  lemma {:induction false} ChargeAllFinish(cell: Cell, rows: seq<Row>, p: Pricing, only: Option<int>, l: Ledger, failed: Dict<string, seq<Row>>)
    requires LedgerFinished(cell, rows, p, l)
    ensures LedgerFinished(cell, rows, p, ChargeAll(p, only, l, failed))
  {
    hide ChargeRows, LedgerFinished;
    if failed != [] {
      var init, last := failed[..|failed| - 1], failed[|failed| - 1];
      ChargeAllFinish(cell, rows, p, only, l, init);
      ChargeRowsFinish(cell, rows, p, only, ChargeAll(p, only, l, init), last.0, last.1);
    }
  }

  lemma PriceFinishes(cell: Cell, rows: seq<Row>, p: Pricing, groups: Groups)
    requires EachRow(groups, (k, r) => Finished(cell, rows, p.phi0, p.score, k, r))
    ensures EachRow(PriceGroups(p, groups), (k, r) => Finished(cell, rows, p.phi0, p.score, k, r))
  {
    var out := PriceGroups(p, groups);
    forall i, j | 0 <= i < |out| && 0 <= j < |out[i].1|
      ensures Finished(cell, rows, p.phi0, p.score, out[i].0, out[i].1[j])
    {
      var k, r := groups[i].0, groups[i].1[j];
      assert Finished(cell, rows, p.phi0, p.score, k, r);
      assert out[i].1[j] == if AllRoutedUnscored(groups[i].1) then Unscored(r, p.score, PhiOf(p.phi0, k.0)) else r;
      hide AllRoutedUnscored;
    }
    hide Finished, UnscoredAsFailed;
  }

  lemma {:induction false} FillCkptsFinish(cell: Cell, rows: seq<Row>, p: Pricing, r: Row, bid: string, ckpts: seq<int>, f: Filled)
    requires LedgerFinished(cell, rows, p, f.ledger)
    requires forall ck: int :: Finished(cell, rows, p.phi0, p.score, (bid, ck), r)
    ensures LedgerFinished(cell, rows, p, FillCkpts(r, bid, ckpts, f).ledger)
  {
    hide Finished, FinishedLoose, EachRow, Put, Get;
    if ckpts != [] {
      FillCkptsFinish(cell, rows, p, r, bid, ckpts[..|ckpts| - 1], f);
      var g := FillCkpts(r, bid, ckpts[..|ckpts| - 1], f);
      var s: int := ckpts[|ckpts| - 1];
      assert Finished(cell, rows, p.phi0, p.score, (bid, s), r);
      PutKeepsRows(g.ledger.groups, (bid, s), [r], (k, r) => Finished(cell, rows, p.phi0, p.score, k, r));
    }
  }

  lemma {:induction false} FillFinishes(cell: Cell, rows: seq<Row>, p: Pricing, index: Dict<string, string>, ckpts: seq<int>, l: Ledger,
                                        boards: seq<string>)
    requires LedgerFinished(cell, rows, p, l)
    ensures LedgerFinished(cell, rows, p, FillBoards(p, index, ckpts, l, boards).ledger)
  {
    if boards != [] {
      var init, bid := boards[..|boards| - 1], boards[|boards| - 1];
      FillFinishes(cell, rows, p, index, ckpts, l, init);
      FillBoardFinishes(cell, rows, p, index, ckpts, FillBoards(p, index, ckpts, l, init), bid);
      hide FillBoard, LedgerFinished;
    }
  }

  lemma FillBoardFinishes(cell: Cell, rows: seq<Row>, p: Pricing, index: Dict<string, string>, ckpts: seq<int>, f: Filled, bid: string)
    requires LedgerFinished(cell, rows, p, f.ledger)
    ensures LedgerFinished(cell, rows, p, FillBoard(p, index, ckpts, f, bid).ledger)
  {
    var src := MissingRow(bid, match Get(index, bid) case None => "" case Some(i) => i);
    var row := MissingAttempt(p, bid, match Get(index, bid) case None => "" case Some(i) => i);
    assert row == FailedAttempt(src, p.score, PhiOf(p.phi0, bid));
    hide Finished, FinishedLoose, EachRow, Put, Get, FillCkpts, FailedAttempt, MissingRow, MissingAttempt;
    forall ck: int ensures Finished(cell, rows, p.phi0, p.score, (bid, ck), row) && FinishedLoose(p.phi0, p.score, bid, row) {
      FailureIsFinished(cell, rows, p, bid, ck, src);
    }
    FailureIsFinished(cell, rows, p, bid, 0, src);
    PutKeepsRows(f.ledger.loose, bid, [row], (bid, r) => FinishedLoose(p.phi0, p.score, bid, r));
    FillCkptsFinish(cell, rows, p, row, bid, ckpts, f);
  }

  // --- the report ----------------------------------------------------------------------------------------------------

  /** In the finished report every failure, whatever made it one, is priced at its board's Φ₀ with the failing values,
      and every other attempt is a row of the file with its own board and ckpt. */
  lemma EveryRowIsFinished(cell: Cell, rows: seq<Row>, phi0: map<string, real>, expected: Dict<string, string>)
    requires Unmarked(rows)
    ensures var c := PlaceAll(cell, rows);
      var score, l := FailureScore(AllRows(c.routed)), Completed(PricingFor(phi0, c), c, expected).ledger;
      && (forall i, j | 0 <= i < |l.groups| && 0 <= j < |l.groups[i].1| ::
            Finished(cell, rows, phi0, score, l.groups[i].0, l.groups[i].1[j]))
      && (forall i, j | 0 <= i < |l.loose| && 0 <= j < |l.loose[i].1| ::
            FinishedLoose(phi0, score, l.loose[i].0, l.loose[i].1[j]))
  {
    var c := PlaceAll(cell, rows);
    var p := PricingFor(phi0, c);
    assert rows == rows[..|rows|];
    PlacedAreRouted(cell, rows, rows);
    TakenAreFinished(cell, rows, phi0, p.score, c.routed);
    hide Finished, FinishedLoose, ChargeAll, FillBoards, PriceGroups, TakeGroups, FailureScore, AllRows, OnlyCkpt, NewBoards, OwingBoards;
    var l0 := Ledger(TakeGroups(phi0, c.routed), []);
    assert LedgerFinished(cell, rows, p, l0);
    ChargeAllFinish(cell, rows, p, OnlyCkpt(c.routed), l0, c.failed);
    var l1 := ChargeAll(p, OnlyCkpt(c.routed), l0, c.failed);
    PriceFinishes(cell, rows, p, l1.groups);
    var l := Priced(p, c);
    FillFinishes(cell, rows, p, c.index + NewBoards(c.index, expected), Ascending(Ckpts(l.groups)), l, OwingBoards(p, c, expected));
  }
}
