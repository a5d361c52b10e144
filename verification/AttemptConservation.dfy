/** The aggregation neither loses nor invents attempts, and re-pricing never moves one between the
    failed, eval-error and routed counts. */
module AttemptConservation {
  import opened Decimal
  import opened IntSets
  import opened Dicts
  import opened Attempts
  import opened Aggregation

  /** Rows as read from the file. */
  predicate Unmarked(rows: seq<Row>) { forall i | 0 <= i < |rows| :: !rows[i].failed && !rows[i].unscored }

  predicate NoneUnscored(rows: seq<Row>) { forall i | 0 <= i < |rows| :: !rows[i].unscored }

  ghost predicate Each<K>(d: Dict<K, seq<Row>>, p: seq<Row> -> bool) { forall i | 0 <= i < |d| :: p(d[i].1) }

  /** How a count treats the three things the aggregation does to a row: a failed attempt counts iff `hit`,
      and re-pricing an unscored attempt, or giving a scored one its Φ₀, changes nothing. */
  ghost predicate Steady(q: Row -> bool, hit: bool) {
    && (forall r: Row, score, phi0 | !r.unscored :: q(FailedAttempt(r, score, phi0)) == hit)
    && (forall r: Row, score, phi0 | !r.unscored && (r.failed || r.evalStatus.EvalError?) :: q(Unscored(r, score, phi0)) == q(r))
    && (forall r: Row, phi0 :: q(TakePhi0(phi0, r)) == q(r))
  }

  lemma CountsAreSteady()
    ensures Steady(AnyRow, true) && Steady(CountsFailed, true) && Steady(CountsEvalError, false)
  {
  }

  // --- dicts of lists --------------------------------------------------------------------------------------------

  lemma {:induction false} ListIsEach<K>(d: Dict<K, seq<Row>>, k: K, p: seq<Row> -> bool)
    requires Each(d, p) && p([])
    ensures p(List(d, k))
  {
    if d != [] && d[|d| - 1].0 != k {
      assert forall i | 0 <= i < |d| - 1 :: d[..|d| - 1][i] == d[i];
      ListIsEach(d[..|d| - 1], k, p);
    }
  }

  lemma {:induction false} ReplaceKeepsEach<K>(d: Dict<K, seq<Row>>, k: K, v: seq<Row>, p: seq<Row> -> bool)
    requires Each(d, p) && p(v)
    ensures Each(Replace(d, k, v), p)
  {
    if d != [] {
      var init, last := d[..|d| - 1], d[|d| - 1];
      assert forall i | 0 <= i < |init| :: init[i] == d[i];
      if last.0 != k { ReplaceKeepsEach(init, k, v, p); }
    }
  }

  lemma PutKeepsEach<K>(d: Dict<K, seq<Row>>, k: K, v: seq<Row>, p: seq<Row> -> bool)
    requires Each(d, p) && p(v)
    ensures Each(Put(d, k, v), p)
  {
    ReplaceKeepsEach(d, k, v, p);
  }

  lemma PushKeepsNoneUnscored<K>(d: Dict<K, seq<Row>>, k: K, r: Row)
    requires Each(d, NoneUnscored) && !r.unscored
    ensures Each(Push(d, k, r), NoneUnscored)
  {
    ListIsEach(d, k, NoneUnscored);
    PutKeepsEach(d, k, List(d, k) + [r], NoneUnscored);
  }

  lemma PushKeepsUnmarked<K>(d: Dict<K, seq<Row>>, k: K, r: Row)
    requires Each(d, Unmarked) && !r.unscored && !r.failed
    ensures Each(Push(d, k, r), Unmarked)
  {
    ListIsEach(d, k, Unmarked);
    PutKeepsEach(d, k, List(d, k) + [r], Unmarked);
  }

  // --- classification --------------------------------------------------------------------------------------------

  function IsUnrouted(cell: Cell): Row -> bool { (r: Row) => NamedCkpt(cell, r).None? }
  function IsRoutedError(cell: Cell): Row -> bool { (r: Row) => NamedCkpt(cell, r).Some? && r.evalStatus.EvalError? }

  /** Every row lands in exactly one list. */
  lemma {:induction false} PlacedCounts(cell: Cell, rows: seq<Row>)
    requires Unmarked(rows)
    ensures var c := PlaceAll(cell, rows);
      && CountIn(c.routed, AnyRow) + CountIn(c.failed, AnyRow) == |rows|
      && CountIn(c.failed, AnyRow) == Count(rows, IsUnrouted(cell))
      && CountIn(c.routed, CountsFailed) == 0
      && CountIn(c.routed, CountsEvalError) == Count(rows, IsRoutedError(cell))
      && Each(c.routed, Unmarked) && Each(c.failed, Unmarked)
  {
    if rows != [] {
      var init, r := rows[..|rows| - 1], rows[|rows| - 1];
      PlacedCounts(cell, init);
      var c := PlaceAll(cell, init);
      hide NamedCkpt, Push, SetDefault, Each, Unmarked;
      match NamedCkpt(cell, r)
      case None =>
        CountAfterPush(c.failed, r.boardId, r, AnyRow);
        assert !r.failed && !r.unscored by { LastUnmarked(rows); }
        PushKeepsUnmarked(c.failed, r.boardId, r);
      case Some(ck) =>
        CountAfterPush(c.routed, (r.boardId, ck), r, AnyRow);
        CountAfterPush(c.routed, (r.boardId, ck), r, CountsFailed);
        CountAfterPush(c.routed, (r.boardId, ck), r, CountsEvalError);
        assert !r.failed && !r.unscored by { LastUnmarked(rows); }
        PushKeepsUnmarked(c.routed, (r.boardId, ck), r);
    }
  }

  lemma LastUnmarked(rows: seq<Row>)
    requires Unmarked(rows) && rows != []
    ensures !rows[|rows| - 1].failed && !rows[|rows| - 1].unscored
  {
  }

  // --- attribution ------------------------------------------------------------------------------------------------

  function Total(l: Ledger, q: Row -> bool): nat { CountIn(l.groups, q) + CountIn(l.loose, q) }

  ghost predicate Clean(l: Ledger) { Each(l.groups, NoneUnscored) && Each(l.loose, NoneUnscored) }

  lemma ChargeCounts(p: Pricing, only: Option<int>, l: Ledger, bid: string, r: Row, q: Row -> bool, hit: bool)
    requires Steady(q, hit) && !r.unscored && Clean(l)
    ensures Total(Charge(p, only, l, bid, r), q) == Total(l, q) + (if hit then 1 else 0) && Clean(Charge(p, only, l, bid, r))
  {
    var row := FailedAttempt(r, p.score, PhiOf(p.phi0, bid));
    assert q(row) == hit && !row.unscored;
    var ck := if r.ckpt.Some? then r.ckpt else only;
    hide Push, FailedAttempt, Steady, Each;
    if ck.None? {
      CountAfterPush(l.loose, bid, row, q);
      PushKeepsNoneUnscored(l.loose, bid, row);
    } else {
      CountAfterPush(l.groups, (bid, ck.value), row, q);
      PushKeepsNoneUnscored(l.groups, (bid, ck.value), row);
    }
  }

  lemma {:induction false} ChargeRowsCounts(p: Pricing, only: Option<int>, l: Ledger, bid: string, rows: seq<Row>, q: Row -> bool, hit: bool)
    requires Steady(q, hit) && Unmarked(rows) && Clean(l)
    ensures var l' := ChargeRows(p, only, l, bid, rows); Total(l', q) == Total(l, q) + (if hit then |rows| else 0) && Clean(l')
  {
    hide Charge, Steady, Clean, Total;
    if rows != [] {
      ChargeRowsCounts(p, only, l, bid, rows[..|rows| - 1], q, hit);
      ChargeCounts(p, only, ChargeRows(p, only, l, bid, rows[..|rows| - 1]), bid, rows[|rows| - 1], q, hit);
    }
  }

  lemma {:induction false} ChargeAllCounts(p: Pricing, only: Option<int>, l: Ledger, failed: Dict<string, seq<Row>>, q: Row -> bool, hit: bool)
    requires Steady(q, hit) && Each(failed, Unmarked) && Clean(l)
    ensures var l' := ChargeAll(p, only, l, failed); Total(l', q) == Total(l, q) + (if hit then CountIn(failed, AnyRow) else 0) && Clean(l')
  {
    hide ChargeRows, Steady, Clean, Total, Unmarked;
    if failed != [] {
      var init, last := failed[..|failed| - 1], failed[|failed| - 1];
      assert forall i | 0 <= i < |init| :: init[i] == failed[i];
      ChargeAllCounts(p, only, l, init, q, hit);
      ChargeRowsCounts(p, only, ChargeAll(p, only, l, init), last.0, last.1, q, hit);
      CountAll(last.1, AnyRow);
    }
  }

  // --- re-pricing --------------------------------------------------------------------------------------------------

  lemma {:induction false} SameCount(xs: seq<Row>, ys: seq<Row>, q: Row -> bool)
    requires |xs| == |ys| && forall i | 0 <= i < |xs| :: q(xs[i]) == q(ys[i])
    ensures Count(xs, q) == Count(ys, q)
  {
    if xs != [] { SameCount(xs[..|xs| - 1], ys[..|ys| - 1], q); }
  }

  lemma {:induction false} SameCountIn<K>(d: Dict<K, seq<Row>>, e: Dict<K, seq<Row>>, q: Row -> bool)
    requires |d| == |e| && forall i | 0 <= i < |d| :: Count(d[i].1, q) == Count(e[i].1, q)
    ensures CountIn(d, q) == CountIn(e, q)
  {
    if d != [] { SameCountIn(d[..|d| - 1], e[..|e| - 1], q); }
  }

  lemma PriceCounts(p: Pricing, groups: Groups, q: Row -> bool, hit: bool)
    requires Steady(q, hit) && Each(groups, NoneUnscored)
    ensures CountIn(PriceGroups(p, groups), q) == CountIn(groups, q)
  {
    var out := PriceGroups(p, groups);
    forall i | 0 <= i < |groups|
      ensures Count(out[i].1, q) == Count(groups[i].1, q)
    {
      var rows := groups[i].1;
      assert NoneUnscored(rows);
      if AllRoutedUnscored(rows) {
        SameCount(out[i].1, rows, q);
      }
    }
    SameCountIn(out, groups, q);
  }

  lemma TakeCounts(phi0: map<string, real>, groups: Groups, q: Row -> bool, hit: bool)
    requires Steady(q, hit) && Each(groups, NoneUnscored)
    ensures CountIn(TakeGroups(phi0, groups), q) == CountIn(groups, q) && Each(TakeGroups(phi0, groups), NoneUnscored)
  {
    var out := TakeGroups(phi0, groups);
    forall i | 0 <= i < |groups|
      ensures Count(out[i].1, q) == Count(groups[i].1, q) && NoneUnscored(out[i].1)
    {
      assert NoneUnscored(groups[i].1);
      SameCount(out[i].1, groups[i].1, q);
    }
    SameCountIn(out, groups, q);
  }

  // --- completion --------------------------------------------------------------------------------------------------

  lemma NoListYet<K>(d: Dict<K, seq<Row>>, k: K, row: Row, q: Row -> bool)
    requires Get(d, k).None?
    ensures CountIn(Put(d, k, [row]), q) == CountIn(d, q) + if q(row) then 1 else 0
  {
    CountAfterPut(d, k, [row], q);
    CountOne(row, q);
  }

  lemma {:induction false} FillCkptsCounts(row: Row, bid: string, ckpts: seq<int>, f: Filled, q: Row -> bool)
    ensures var g := FillCkpts(row, bid, ckpts, f);
      && g.missing >= f.missing
      && Total(g.ledger, q) == Total(f.ledger, q) + if q(row) then g.missing - f.missing else 0
  {
    if ckpts != [] {
      FillCkptsCounts(row, bid, ckpts[..|ckpts| - 1], f, q);
      var g := FillCkpts(row, bid, ckpts[..|ckpts| - 1], f);
      var k := (bid, ckpts[|ckpts| - 1]);
      if Get(g.ledger.groups, k).None? { NoListYet(g.ledger.groups, k, row, q); }
    }
  }

  lemma {:induction false} FillCounts(p: Pricing, index: Dict<string, string>, ckpts: seq<int>, l: Ledger, boards: seq<string>, q: Row -> bool, hit: bool)
    requires Steady(q, hit)
    ensures var f := FillBoards(p, index, ckpts, l, boards); Total(f.ledger, q) == Total(l, q) + if hit then f.missing else 0
  {
    if boards != [] {
      var init, bid := boards[..|boards| - 1], boards[|boards| - 1];
      FillCounts(p, index, ckpts, l, init, q, hit);
      var f := FillBoards(p, index, ckpts, l, init);
      var row := MissingAttempt(p, bid, match Get(index, bid) case None => "" case Some(i) => i);
      assert q(row) == hit;
      if Get(f.ledger.loose, bid).None? {
        if ckpts == [] { NoListYet(f.ledger.loose, bid, row, q); }
        else { FillCkptsCounts(row, bid, ckpts, f, q); }
      }
    }
  }

  // --- the ledger as a whole ---------------------------------------------------------------------------------------

  lemma CompletedCounts(cell: Cell, rows: seq<Row>, p: Pricing, expected: Dict<string, string>, q: Row -> bool, hit: bool)
    requires Unmarked(rows) && Steady(q, hit)
    ensures var c := PlaceAll(cell, rows);
      var f := Completed(p, c, expected);
      Total(f.ledger, q) == CountIn(c.routed, q) + if hit then CountIn(c.failed, AnyRow) + f.missing else 0
  {
    PlacedCounts(cell, rows);
    var c := PlaceAll(cell, rows);
    assert Each(c.routed, NoneUnscored);
    TakeCounts(p.phi0, c.routed, q, hit);
    var l0 := Ledger(TakeGroups(p.phi0, c.routed), []);
    assert Clean(l0);
    ChargeAllCounts(p, OnlyCkpt(c.routed), l0, c.failed, q, hit);
    var l1 := ChargeAll(p, OnlyCkpt(c.routed), l0, c.failed);
    PriceCounts(p, l1.groups, q, hit);
    var l2 := Priced(p, c);
    assert Total(l2, q) == Total(l1, q);
    FillCounts(p, c.index + NewBoards(c.index, expected), Ascending(Ckpts(l2.groups)), l2, OwingBoards(p, c, expected), q, hit);
  }
}
