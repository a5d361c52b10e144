/** The contract between the stages: Stage 2 records the bare-board potential of exactly the boards Stage 3
    prices by it, but for boards with rows elsewhere that miss a ckpt. */
module PhiZero {
  import opened Decimal
  import opened IntSets
  import opened Dicts
  import opened Attempts
  import opened Aggregation
  import opened AttemptConservation
  import opened BoardReports

  // --- Stage 2: which boards, and where their inputs are ------------------------------------------------------------

  /** The first group of a board whose routed attempts were all unscored. */
  function FirstUnscored(routed: Groups, bid: string): Option<seq<Row>> {
    if routed == [] then None else
      var init, g := FirstUnscored(routed[..|routed| - 1], bid), routed[|routed| - 1];
      if init.Some? then init
      else if g.0.0 == bid && AllRoutedUnscored(g.1) then Some(g.1) else None
  }

  function RowsOf(routed: Groups, bid: string): seq<Row> {
    if routed == [] then [] else
      RowsOf(routed[..|routed| - 1], bid) + (if routed[|routed| - 1].0.0 == bid then routed[|routed| - 1].1 else [])
  }

  predicate AnyWithoutPhi0(rows: seq<Row>) { exists i :: 0 <= i < |rows| && ScoredWithoutPhi0(rows[i]) }

  /** The rows a routed board is priced for, if it is. */
  function RoutedReason(routed: Groups, bid: string): Option<seq<Row>> {
    if FirstUnscored(routed, bid).Some? then FirstUnscored(routed, bid)
    else if AnyWithoutPhi0(RowsOf(routed, bid)) then Some(RowsOf(routed, bid))
    else None
  }

  function FirstPath(rows: seq<Row>): string {
    if rows == [] then ""
    else if FirstPath(rows[..|rows| - 1]) != "" then FirstPath(rows[..|rows| - 1])
    else rows[|rows| - 1].boardPath
  }

  function InputPath(rows: seq<Row>, boards: Dict<string, string>, bid: string): string {
    if FirstPath(rows) != "" then FirstPath(rows) else match Get(boards, bid) case None => "" case Some(path) => path
  }

  lemma {:induction false} FirstPathIs(rows: seq<Row>)
    ensures FirstPath(rows) == "" <==> forall i | 0 <= i < |rows| :: rows[i].boardPath == ""
    ensures FirstPath(rows) != "" ==>
      exists i :: 0 <= i < |rows| && rows[i].boardPath == FirstPath(rows) && forall j | 0 <= j < i :: rows[j].boardPath == ""
  {
    if rows != [] {
      var init := rows[..|rows| - 1];
      FirstPathIs(init);
      assert forall i | 0 <= i < |init| :: init[i] == rows[i];
      if FirstPath(init) != "" {
        var i :| 0 <= i < |init| && init[i].boardPath == FirstPath(init) && forall j | 0 <= j < i :: init[j].boardPath == "";
        assert rows[i].boardPath == FirstPath(rows);
      }
    }
  }

  /** The input a board is scored from: the first path its rows name, else the expected board's, else none. */
  lemma InputPathIs(rows: seq<Row>, boards: Dict<string, string>, bid: string)
    ensures forall i | 0 <= i < |rows| && rows[i].boardPath != "" && (forall j | 0 <= j < i :: rows[j].boardPath == "") ::
              InputPath(rows, boards, bid) == rows[i].boardPath
    ensures (forall i | 0 <= i < |rows| :: rows[i].boardPath == "") ==>
              && (Get(boards, bid).Some? ==> InputPath(rows, boards, bid) == Get(boards, bid).value)
              && (Get(boards, bid).None? ==> InputPath(rows, boards, bid) == "")
  {
    FirstPathIs(rows);
    hide FirstPath, Get;
  }

  /** Why Stage 2 scores a board: its failed rows, else its unscored ones, else its rows without Φ₀. */
  function Reason(c: Classified, bid: string): Option<seq<Row>> {
    if Get(c.failed, bid).Some? then Get(c.failed, bid)
    else if exists i :: 0 <= i < |c.routed| && c.routed[i].0.0 == bid then RoutedReason(c.routed, bid)
    else None
  }

  /** What Stage 2 needs for a board: None when it does not ask. */
  function Need(c: Classified, boards: Dict<string, string>, bid: string): Option<string> {
    if Get(c.index, bid).None? && Get(boards, bid).Some? then Get(boards, bid)
    else match Reason(c, bid) case None => None case Some(rows) => Some(InputPath(rows, boards, bid))
  }

  /** The reasons known after some of the routed boards have been looked at. */
  ghost predicate ReasonsUpTo(c: Classified, priced: Dict<string, seq<Row>>, seen: seq<string>) {
    && Keyed(priced)
    && forall b: string :: Get(priced, b) == if Get(c.failed, b).Some? || b !in seen then Get(c.failed, b) else RoutedReason(c.routed, b)
  }

  lemma OneMoreReason(c: Classified, priced: Dict<string, seq<Row>>, seen: seq<string>, bid: string)
    requires ReasonsUpTo(c, priced, seen) && bid !in seen
    ensures var reason := RoutedReason(c.routed, bid);
      ReasonsUpTo(c, if Get(priced, bid).None? && reason.Some? then Put(priced, bid, reason.value) else priced, seen + [bid])
  {
    var reason := RoutedReason(c.routed, bid);
    hide RoutedReason;
    if Get(priced, bid).None? && reason.Some? {
      forall b: string ensures Get(Put(priced, bid, reason.value), b) == if b == bid then reason else Get(priced, b) {
        GetAfterPut(priced, bid, reason.value, b);
      }
      GetAfterPut(priced, bid, reason.value, bid);
    }
    hide Get, Put, Keyed;
  }

  lemma AllReasons(c: Classified, priced: Dict<string, seq<Row>>)
    requires ReasonsUpTo(c, priced, BoardIds(c.routed))
    ensures forall b: string :: Get(priced, b) == Reason(c, b)
  {
    BoardIdsCover(c.routed);
    hide RoutedReason, BoardIds, Get;
  }

  method PricedRows(c: Classified) returns (priced: Dict<string, seq<Row>>)
    requires Keyed(c.failed)
    ensures Keyed(priced) && forall b: string :: Get(priced, b) == Reason(c, b)
  {
    priced := c.failed;
    var ids := BoardIds(c.routed);
    BoardIdsCover(c.routed);
    assert ReasonsUpTo(c, priced, []);
    hide RoutedReason, BoardIds, Get, Put, ReasonsUpTo;
    for k := 0 to |ids|
      invariant ReasonsUpTo(c, priced, ids[..k])
    {
      var bid := ids[k];
      var reason := RoutedReason(c.routed, bid);
      assert bid !in ids[..k] && ids[..k + 1] == ids[..k] + [bid];
      OneMoreReason(c, priced, ids[..k], bid);
      if Get(priced, bid).None? && reason.Some? {
        priced := Put(priced, bid, reason.value);
      }
    }
    assert ids[..|ids|] == ids;
    AllReasons(c, priced);
    AllKeyed(c, priced);
  }

  lemma AllKeyed(c: Classified, priced: Dict<string, seq<Row>>)
    requires ReasonsUpTo(c, priced, BoardIds(c.routed))
    ensures Keyed(priced)
  {
    hide Get, RoutedReason;
  }

  /** `_failed_board_inputs`; None when a row is an error. */
  method FailedBoardInputs(cell: Cell, rows: seq<Row>, boards: Dict<string, string>) returns (need: Option<Dict<string, string>>)
    requires Keyed(boards)
    ensures need.None? <==> AnyMisfit(cell, rows)
    ensures need.Some? ==> forall b: string :: Get(need.value, b) == Need(PlaceAll(cell, rows), boards, b)
  {
    var classified := ClassifyCellRows(cell, rows);
    if classified.None? {
      return None;
    }
    var c := classified.value;
    PlacedTidy(cell, rows);
    IndexHasEveryRow(cell, rows);
    var priced := PricedRows(c);
    var out: Dict<string, string> := [];
    hide Reason, InputPath, Tidy, AnyMisfit;
    for k := 0 to |priced|
      invariant Keyed(out)
      invariant forall b: string ::
        Get(out, b) == (match Get(priced[..k], b) { case None => None case Some(rr) => Some(InputPath(rr, boards, b)) })
    {
      var (bid, rr) := priced[k];
      assert priced[..k + 1][..k] == priced[..k];
      forall b: string ensures Get(Put(out, bid, InputPath(rr, boards, bid)), b) == if b == bid then Some(InputPath(rr, boards, bid)) else Get(out, b) {
        GetAfterPut(out, bid, InputPath(rr, boards, bid), b);
      }
      GetAfterPut(out, bid, InputPath(rr, boards, bid), bid);
      out := Put(out, bid, InputPath(rr, boards, bid));
    }
    assert priced[..|priced|] == priced;
    out := AddUnseen(c, boards, out);
    need := Some(out);
  }

  method AddUnseen(c: Classified, boards: Dict<string, string>, start: Dict<string, string>) returns (out: Dict<string, string>)
    requires Keyed(boards)
    ensures forall b: string :: Get(out, b) == if Get(c.index, b).None? && Get(boards, b).Some? then Get(boards, b) else Get(start, b)
  {
    out := start;
    for k := 0 to |boards|
      invariant forall b: string ::
        Get(out, b) == (if Get(c.index, b).None? && Get(boards[..k], b).Some? then Get(boards[..k], b) else Get(start, b))
    {
      var (bid, path) := boards[k];
      assert boards[..k + 1][..k] == boards[..k];
      if Get(c.index, bid).None? {
        forall b: string ensures Get(Put(out, bid, path), b) == if b == bid then Some(path) else Get(out, b) {
          GetAfterPut(out, bid, path, b);
        }
        out := Put(out, bid, path);
      }
    }
    assert boards[..|boards|] == boards;
  }

  /** The board has a list of its own. */
  ghost predicate Listed(c: Classified, b: string) {
    Get(c.failed, b).Some? || exists ck: int :: Get(c.routed, (b, ck)).Some?
  }

  lemma OneMoreListed(cell: Cell, c: Classified, r: Row, b: string)
    ensures Listed(Place(cell, c, r), b) <==> Listed(c, b) || b == r.boardId
  {
    var c' := Place(cell, c, r);
    var ck := NamedCkpt(cell, r);
    hide NamedCkpt;
    if ck.None? {
      GetAfterPut(c.failed, r.boardId, List(c.failed, r.boardId) + [r], b);
      assert c'.routed == c.routed;
    } else {
      assert c'.failed == c.failed;
      forall k: int ensures Get(c'.routed, (b, k)).Some? <==> Get(c.routed, (b, k)).Some? || (b == r.boardId && k == ck.value) {
        GetAfterPut(c.routed, (r.boardId, ck.value), List(c.routed, (r.boardId, ck.value)) + [r], (b, k));
      }
      assert b == r.boardId ==> Get(c'.routed, (b, ck.value)).Some?;
      hide Get, Put;
      if k: int :| Get(c.routed, (b, k)).Some? { assert Get(c'.routed, (b, k)).Some?; }
    }
  }

  /** A board is in the index exactly when it has a failed or a routed list. */
  lemma {:induction false} IndexHasEveryRow(cell: Cell, rows: seq<Row>)
    ensures forall b: string :: Get(PlaceAll(cell, rows).index, b).Some? <==> Listed(PlaceAll(cell, rows), b)
  {
    if rows != [] {
      var init, r := rows[..|rows| - 1], rows[|rows| - 1];
      IndexHasEveryRow(cell, init);
      var c := PlaceAll(cell, init);
      forall b: string
        ensures Get(PlaceAll(cell, rows).index, b).Some? <==> Listed(PlaceAll(cell, rows), b)
      {
        GetAfterPut(c.index, r.boardId, r.boardIndex, b);
        OneMoreListed(cell, c, r, b);
        hide Listed, NamedCkpt, Push;
      }
    }
  }

  // --- Stage 3: the attribution, exactly -------------------------------------------------------------------------------

  function ChargedCkpt(only: Option<int>, r: Row): Option<int> { if r.ckpt.Some? then r.ckpt else only }

  /** A board's failed rows that are charged to `target`, re-priced, in their order. */
  function ChargedTo(p: Pricing, only: Option<int>, bid: string, rows: seq<Row>, target: Option<int>): seq<Row> {
    if rows == [] then [] else
      var r := rows[|rows| - 1];
      ChargedTo(p, only, bid, rows[..|rows| - 1], target)
      + if ChargedCkpt(only, r) == target then [FailedAttempt(r, p.score, PhiOf(p.phi0, bid))] else []
  }

  lemma ListAfterPush<K>(d: Dict<K, seq<Row>>, k: K, r: Row, j: K)
    ensures List(Push(d, k, r), j) == if j == k then List(d, k) + [r] else List(d, j)
  {
    GetAfterPut(d, k, List(d, k) + [r], j);
  }

  lemma ChargeLists(p: Pricing, only: Option<int>, l: Ledger, bid: string, r: Row, b: string, s: int)
    ensures var l' := Charge(p, only, l, bid, r);
      var row := FailedAttempt(r, p.score, PhiOf(p.phi0, bid));
      && List(l'.groups, (b, s)) == List(l.groups, (b, s)) + (if b == bid && ChargedCkpt(only, r) == Some(s) then [row] else [])
      && List(l'.loose, b) == List(l.loose, b) + (if b == bid && ChargedCkpt(only, r) == None then [row] else [])
  {
    var row := FailedAttempt(r, p.score, PhiOf(p.phi0, bid));
    match ChargedCkpt(only, r)
    case None => ListAfterPush(l.loose, bid, row, b);
    case Some(ck) => ListAfterPush(l.groups, (bid, ck), row, (b, s));
  }

  lemma {:induction false} ChargeRowsLists(p: Pricing, only: Option<int>, l: Ledger, bid: string, rows: seq<Row>, b: string, s: int)
    ensures var l' := ChargeRows(p, only, l, bid, rows);
      && List(l'.groups, (b, s)) == List(l.groups, (b, s)) + (if b == bid then ChargedTo(p, only, bid, rows, Some(s)) else [])
      && List(l'.loose, b) == List(l.loose, b) + (if b == bid then ChargedTo(p, only, bid, rows, None) else [])
  {
    if rows != [] {
      ChargeRowsLists(p, only, l, bid, rows[..|rows| - 1], b, s);
      ChargeLists(p, only, ChargeRows(p, only, l, bid, rows[..|rows| - 1]), bid, rows[|rows| - 1], b, s);
      hide Charge, FailedAttempt, List;
    }
  }

  /** Each failed row is charged once, re-priced at its board's Φ₀: to its own ckpt, else to the cell's only
      one, else to none; each group keeps what it had and takes its rows in order. */
  lemma {:induction false} AttributionIsExact(p: Pricing, only: Option<int>, l: Ledger, failed: Dict<string, seq<Row>>, b: string, s: int)
    requires Keyed(failed)
    ensures var l' := ChargeAll(p, only, l, failed);
      && List(l'.groups, (b, s)) == List(l.groups, (b, s)) + ChargedTo(p, only, b, List(failed, b), Some(s))
      && List(l'.loose, b) == List(l.loose, b) + ChargedTo(p, only, b, List(failed, b), None)
  {
    if failed == [] {
      assert forall xs: seq<Row> :: xs + [] == xs;
    } else {
      var init, last := failed[..|failed| - 1], failed[|failed| - 1];
      AttributionIsExact(p, only, l, init, b, s);
      ChargeRowsLists(p, only, ChargeAll(p, only, l, init), last.0, last.1, b, s);
      assert forall xs: seq<Row> :: xs + [] == xs && [] + xs == xs;
      hide ChargeRows, FailedAttempt;
    }
  }

  lemma {:induction false} ChargedAreFailed(p: Pricing, only: Option<int>, bid: string, rows: seq<Row>, target: Option<int>)
    ensures forall i | 0 <= i < |ChargedTo(p, only, bid, rows, target)| :: ChargedTo(p, only, bid, rows, target)[i].failed
  {
    if rows != [] { ChargedAreFailed(p, only, bid, rows[..|rows| - 1], target); }
  }

  /** Every failed row of a board is charged somewhere. */
  lemma {:induction false} SomeChargedRow(p: Pricing, only: Option<int>, bid: string, rows: seq<Row>)
    requires rows != []
    ensures exists target :: ChargedTo(p, only, bid, rows, target) != []
  {
    assert ChargedTo(p, only, bid, rows, ChargedCkpt(only, rows[|rows| - 1])) != [];
  }
}
