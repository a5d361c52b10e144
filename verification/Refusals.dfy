/** What stops Stage 3, on the rows of the file, and which input Stage 2 prices a board from. */
module Refusals {
  import opened Decimal
  import opened Dicts
  import opened Attempts
  import opened Aggregation
  import opened AttemptConservation
  import opened PhiZero
  import CellNames

  // --- rows and the lists they land in ---------------------------------------------------------------------------------

  lemma {:induction false} CountTells<T>(xs: seq<T>, q: T -> bool)
    ensures Count(xs, q) > 0 <==> exists i :: 0 <= i < |xs| && q(xs[i])
  {
    if xs != [] {
      var init := xs[..|xs| - 1];
      CountTells(init, q);
      assert forall i | 0 <= i < |init| :: init[i] == xs[i];
      if i :| 0 <= i < |init| && q(init[i]) {
        assert q(xs[i]);
      }
      if i :| 0 <= i < |xs| && q(xs[i]) {
        if i < |init| { assert q(init[i]); }
      }
    }
  }

  lemma {:induction false} CountInTells<K, T>(d: Dict<K, seq<T>>, q: T -> bool)
    ensures CountIn(d, q) > 0 <==> exists i, j :: 0 <= i < |d| && 0 <= j < |d[i].1| && q(d[i].1[j])
  {
    if d != [] {
      var init, last := d[..|d| - 1], d[|d| - 1];
      CountInTells(init, q);
      CountTells(last.1, q);
      if i, j :| 0 <= i < |init| && 0 <= j < |init[i].1| && q(init[i].1[j]) {
        assert q(d[i].1[j]);
      }
      if j :| 0 <= j < |last.1| && q(last.1[j]) {
        assert q(d[|d| - 1].1[j]);
      }
      if i, j :| 0 <= i < |d| && 0 <= j < |d[i].1| && q(d[i].1[j]) {
        if i < |init| { assert q(init[i].1[j]); } else { assert q(last.1[j]); }
      }
    }
  }

  lemma {:induction false} CountAllRows(groups: Groups, q: Row -> bool)
    ensures Count(AllRows(groups), q) == CountIn(groups, q)
  {
    if groups != [] {
      CountAllRows(groups[..|groups| - 1], q);
      CountConcat(AllRows(groups[..|groups| - 1]), groups[|groups| - 1].1, q);
    }
  }

  /** The ckpt in the name of a row's artifact, when the name is in the cell's grammar: the row is routed. */
  function Named(cell: Cell, r: Row): Option<int> {
    var parsed := CellNames.ParseArtifact(r.artifact, cell.name);
    if parsed.Some? then Some(parsed.value.1) else None
  }

  function RoutedAnd(cell: Cell, q: Row -> bool): Row -> bool { (r: Row) => Named(cell, r).Some? && q(r) }
  function UnroutedAnd(cell: Cell, q: Row -> bool): Row -> bool { (r: Row) => Named(cell, r).None? && q(r) }

  lemma PlaceCounts(cell: Cell, c: Classified, r: Row, q: Row -> bool)
    ensures CountIn(Place(cell, c, r).routed, q) == CountIn(c.routed, q) + if RoutedAnd(cell, q)(r) then 1 else 0
    ensures CountIn(Place(cell, c, r).failed, q) == CountIn(c.failed, q) + if UnroutedAnd(cell, q)(r) then 1 else 0
    ensures Place(cell, c, r).routed == [] <==> c.routed == [] && Named(cell, r).None?
  {
    assert Named(cell, r) == NamedCkpt(cell, r);
    hide NamedCkpt, Named, SetDefault, Push;
    if NamedCkpt(cell, r).None? {
      CountAfterPush(c.failed, r.boardId, r, q);
    } else {
      CountAfterPush(c.routed, (r.boardId, NamedCkpt(cell, r).value), r, q);
      PushIsThere(c.routed, (r.boardId, NamedCkpt(cell, r).value), r);
    }
  }

  /** Routed rows are grouped, the others listed, and none is lost. */
  lemma {:induction false} PlacedCount(cell: Cell, rows: seq<Row>, q: Row -> bool)
    ensures CountIn(PlaceAll(cell, rows).routed, q) == Count(rows, RoutedAnd(cell, q))
    ensures CountIn(PlaceAll(cell, rows).failed, q) == Count(rows, UnroutedAnd(cell, q))
  {
    hide Place, RoutedAnd, UnroutedAnd;
    if rows != [] {
      PlacedCount(cell, rows[..|rows| - 1], q);
      PlaceCounts(cell, PlaceAll(cell, rows[..|rows| - 1]), rows[|rows| - 1], q);
    }
  }

  lemma {:induction false} NoneTells(cell: Cell, rows: seq<Row>)
    ensures PlaceAll(cell, rows).routed == [] <==> NoneRouted(cell, rows)
  {
    hide Place, Named, CountIn;
    if rows != [] {
      var init := rows[..|rows| - 1];
      NoneTells(cell, init);
      PlaceCounts(cell, PlaceAll(cell, init), rows[|rows| - 1], AnyRow);
      assert forall i | 0 <= i < |init| :: init[i] == rows[i];
    }
  }

  lemma {:induction false} ReplaceLength<K, V>(d: Dict<K, V>, k: K, v: V)
    ensures |Replace(d, k, v)| == |d|
  {
    if d != [] && d[|d| - 1].0 != k { ReplaceLength(d[..|d| - 1], k, v); }
  }

  lemma PushIsThere<K, T>(d: Dict<K, seq<T>>, k: K, x: T)
    ensures Push(d, k, x) != []
  {
    ReplaceLength(d, k, List(d, k) + [x]);
  }

  /** Some routed row is such; some other row is such. */
  ghost predicate SomeRouted(cell: Cell, rows: seq<Row>, q: Row -> bool) {
    exists i :: 0 <= i < |rows| && Named(cell, rows[i]).Some? && q(rows[i])
  }

  ghost predicate SomeUnrouted(cell: Cell, rows: seq<Row>, q: Row -> bool) {
    exists i :: 0 <= i < |rows| && Named(cell, rows[i]).None? && q(rows[i])
  }

  lemma RoutedTells(cell: Cell, rows: seq<Row>, q: Row -> bool)
    ensures var all := AllRows(PlaceAll(cell, rows).routed);
      (exists i :: 0 <= i < |all| && q(all[i])) <==> SomeRouted(cell, rows, q)
  {
    var routed := PlaceAll(cell, rows).routed;
    PlacedCount(cell, rows, q);
    CountAllRows(routed, q);
    CountTells(AllRows(routed), q);
    CountTells(rows, RoutedAnd(cell, q));
    hide Named, PlaceAll, AllRows, Count, CountIn;
    var mine := RoutedAnd(cell, q);
    if i :| 0 <= i < |rows| && Named(cell, rows[i]).Some? && q(rows[i]) { assert mine(rows[i]); }
  }

  lemma UnroutedTells(cell: Cell, rows: seq<Row>, q: Row -> bool)
    ensures SomeFailed(PlaceAll(cell, rows).failed, q) <==> SomeUnrouted(cell, rows, q)
  {
    var failed := PlaceAll(cell, rows).failed;
    PlacedCount(cell, rows, q);
    CountInTells(failed, q);
    CountTells(rows, UnroutedAnd(cell, q));
    hide Named, PlaceAll, Count, CountIn;
    var mine := UnroutedAnd(cell, q);
    if i :| 0 <= i < |rows| && Named(cell, rows[i]).None? && q(rows[i]) { assert mine(rows[i]); }
  }

  ghost predicate SomeId(index: Dict<string, string>, q: string -> bool) { exists i :: 0 <= i < |index| && q(index[i].0) }

  ghost predicate SomeBoard(rows: seq<Row>, q: string -> bool) { exists i :: 0 <= i < |rows| && q(rows[i].boardId) }

  lemma {:induction false} IndexTells(cell: Cell, rows: seq<Row>, q: string -> bool)
    ensures SomeId(PlaceAll(cell, rows).index, q) <==> SomeBoard(rows, q)
  {
    hide SomeId, SomeBoard, Place, SetDefault;
    if rows == [] {
      NoBoards(q);
    } else {
      var init, r := rows[..|rows| - 1], rows[|rows| - 1];
      IndexTells(cell, init, q);
      PlaceIndexes(cell, PlaceAll(cell, init), r);
      DefaultTells(PlaceAll(cell, init).index, r.boardId, r.boardIndex, q);
      OneMoreBoard(init, r, q);
      assert rows == init + [r];
    }
  }

  lemma NoBoards(q: string -> bool)
    ensures !SomeId([], q) && !SomeBoard([], q)
  {
  }

  lemma PlaceIndexes(cell: Cell, c: Classified, r: Row)
    ensures Place(cell, c, r).index == SetDefault(c.index, r.boardId, r.boardIndex)
  {
    hide Push, NamedCkpt, SetDefault;
  }

  lemma DefaultTells(index: Dict<string, string>, bid: string, v: string, q: string -> bool)
    ensures SomeId(SetDefault(index, bid, v), q) <==> q(bid) || SomeId(index, q)
  {
    var now := SetDefault(index, bid, v);
    if Get(index, bid).Some? {
      GotIsEntry(index, bid);
    } else {
      assert now == index + [(bid, v)] && now[|index|].0 == bid;
      assert forall i | 0 <= i < |index| :: now[i] == index[i];
      if i :| 0 <= i < |index| && q(index[i].0) { assert q(now[i].0); }
    }
    hide Get;
  }

  lemma OneMoreBoard(init: seq<Row>, r: Row, q: string -> bool)
    ensures SomeBoard(init + [r], q) <==> q(r.boardId) || SomeBoard(init, q)
  {
    var rows := init + [r];
    assert rows[|init|] == r && forall i | 0 <= i < |init| :: rows[i] == init[i];
    if i :| 0 <= i < |init| && q(init[i].boardId) { assert q(rows[i].boardId); }
  }

  // --- the refusals -----------------------------------------------------------------------------------------------------

  /** A row at odds with itself: an unnamed one without a board or with a file, a named one with another ckpt. */
  predicate AtOdds(cell: Cell, r: Row) {
    if Named(cell, r).None? then r.boardId == "" || (r.artifact != "" && cell.isFile(r.artifact))
    else r.ckpt.Some? && r.ckpt != Named(cell, r)
  }

  ghost predicate SomeAtOdds(cell: Cell, rows: seq<Row>) { exists i :: 0 <= i < |rows| && AtOdds(cell, rows[i]) }

  ghost predicate NoneRouted(cell: Cell, rows: seq<Row>) { forall i | 0 <= i < |rows| :: Named(cell, rows[i]).None? }

  ghost predicate SomeUnexpected(rows: seq<Row>, expected: Option<Dict<string, string>>) {
    expected.Some? && exists i :: 0 <= i < |rows| && Get(expected.value, rows[i].boardId).None?
  }

  /** Every routed row failed its scoring, and there is one. */
  ghost predicate ScorerIsDown(cell: Cell, rows: seq<Row>) {
    SomeRouted(cell, rows, (r: Row) => true) && !SomeRouted(cell, rows, (r: Row) => !r.evalStatus.EvalError?)
  }

  /** Two routed rows were scored under different reward configurations. */
  ghost predicate ConfigsDiffer(cell: Cell, rows: seq<Row>) {
    exists i, j :: 0 <= i < |rows| && 0 <= j < |rows| && Named(cell, rows[i]).Some? && Named(cell, rows[j]).Some?
                   && rows[i].rewardConfig != "" && rows[j].rewardConfig != "" && rows[i].rewardConfig != rows[j].rewardConfig
  }

  /** The refusals, in the order they are looked for, on the rows of the file. */
  ghost function StopsOnRows(cell: Cell, rows: seq<Row>, expected: Option<Dict<string, string>>): Option<Refusal> {
    if rows == [] then Some(EmptyFile)
    else if SomeAtOdds(cell, rows) then Some(BadRow)
    else if NoneRouted(cell, rows) && exists i :: 0 <= i < |rows| && rows[i].artifact != "" then Some(NotInGrammar)
    else if NoneRouted(cell, rows) && exists i :: 0 <= i < |rows| && rows[i].status == "completed" then Some(NoBoardSaved)
    else if SomeUnexpected(rows, expected) then Some(UnexpectedBoard)
    else if ScorerIsDown(cell, rows) then Some(ScorerFailure)
    else if ConfigsDiffer(cell, rows) then Some(SeveralConfigs)
    else None
  }

  lemma MisfitIsAtOdds(cell: Cell, rows: seq<Row>)
    ensures AnyMisfit(cell, rows) <==> SomeAtOdds(cell, rows)
  {
    assert forall r :: Named(cell, r) == NamedCkpt(cell, r);
    hide Named, NamedCkpt;
    forall i | 0 <= i < |rows| ensures Misfit(cell, rows[i]) <==> AtOdds(cell, rows[i]) { }
  }

  lemma DownTells(cell: Cell, rows: seq<Row>)
    requires Unmarked(rows)
    ensures AllRoutedUnscored(AllRows(PlaceAll(cell, rows).routed)) <==> ScorerIsDown(cell, rows)
  {
    RoutedTells(cell, rows, (r: Row) => true);
    RoutedTells(cell, rows, (r: Row) => !r.evalStatus.EvalError?);
    RoutedTells(cell, rows, (r: Row) => r.failed);
    var all := AllRows(PlaceAll(cell, rows).routed);
    hide AllRows, PlaceAll, Named;
    var any, scored, bad := (r: Row) => true, (r: Row) => !r.evalStatus.EvalError?, (r: Row) => r.failed;
    assert forall i | 0 <= i < |all| :: !bad(all[i]);
    assert forall i | 0 <= i < |all| :: !all[i].failed by { assert forall i | 0 <= i < |all| :: bad(all[i]) == all[i].failed; }
    assert forall i | 0 <= i < |all| :: any(all[i]) && (scored(all[i]) <==> !all[i].evalStatus.EvalError?);
  }

  lemma ConfigsTell(cell: Cell, rows: seq<Row>)
    ensures SeveralRewardConfigs(AllRows(PlaceAll(cell, rows).routed)) <==> ConfigsDiffer(cell, rows)
  {
    var all := AllRows(PlaceAll(cell, rows).routed);
    hide AllRows, PlaceAll, Named;
    if i, j :| 0 <= i < |all| && 0 <= j < |all| && all[i].rewardConfig != "" && all[j].rewardConfig != "" && all[i].rewardConfig != all[j].rewardConfig {
      var k := FoundIn(cell, rows, i);
      var l := FoundIn(cell, rows, j);
    }
    if i, j :| 0 <= i < |rows| && 0 <= j < |rows| && Named(cell, rows[i]).Some? && Named(cell, rows[j]).Some?
               && rows[i].rewardConfig != "" && rows[j].rewardConfig != "" && rows[i].rewardConfig != rows[j].rewardConfig {
      var k := FoundAmong(cell, rows, i);
      var l := FoundAmong(cell, rows, j);
    }
  }

  lemma FoundIn(cell: Cell, rows: seq<Row>, i: nat) returns (k: nat)
    requires i < |AllRows(PlaceAll(cell, rows).routed)|
    ensures k < |rows| && Named(cell, rows[k]).Some? && rows[k] == AllRows(PlaceAll(cell, rows).routed)[i]
  {
    var x := AllRows(PlaceAll(cell, rows).routed)[i];
    var same := (r: Row) => r == x;
    RoutedTells(cell, rows, same);
    hide AllRows, PlaceAll, Named;
    assert same(x);
    k :| 0 <= k < |rows| && Named(cell, rows[k]).Some? && same(rows[k]);
  }

  lemma FoundAmong(cell: Cell, rows: seq<Row>, i: nat) returns (k: nat)
    requires i < |rows| && Named(cell, rows[i]).Some?
    ensures k < |AllRows(PlaceAll(cell, rows).routed)| && AllRows(PlaceAll(cell, rows).routed)[k] == rows[i]
  {
    var x := rows[i];
    var same := (r: Row) => r == x;
    RoutedTells(cell, rows, same);
    hide AllRows, PlaceAll, Named;
    assert same(rows[i]);
    var all := AllRows(PlaceAll(cell, rows).routed);
    k :| 0 <= k < |all| && same(all[k]);
  }

  lemma NoGrammarTells(cell: Cell, rows: seq<Row>)
    requires NoneRouted(cell, rows)
    ensures SomeFailed(PlaceAll(cell, rows).failed, HasArtifact) <==> exists i :: 0 <= i < |rows| && rows[i].artifact != ""
    ensures SomeFailed(PlaceAll(cell, rows).failed, LeftNoBoard) <==>
              exists i :: 0 <= i < |rows| && rows[i].status == "completed" && rows[i].artifact == ""
  {
    UnroutedTells(cell, rows, HasArtifact);
    UnroutedTells(cell, rows, LeftNoBoard);
    hide Named, PlaceAll, SomeFailed;
  }

  lemma UnexpectedTells(cell: Cell, rows: seq<Row>, expected: Dict<string, string>)
    ensures var index := PlaceAll(cell, rows).index;
      (exists i :: 0 <= i < |index| && Get(expected, index[i].0).None?) <==> SomeUnexpected(rows, Some(expected))
  {
    var missing := (bid: string) => Get(expected, bid).None?;
    IndexTells(cell, rows, missing);
    hide PlaceAll, Get;
    var index := PlaceAll(cell, rows).index;
    if i :| 0 <= i < |index| && Get(expected, index[i].0).None? { assert missing(index[i].0); }
    if i :| 0 <= i < |rows| && Get(expected, rows[i].boardId).None? { assert missing(rows[i].boardId); }
  }

  /** Stage 3 stops exactly when, and for the first reason that, the rows of the file give. */
  lemma StopsExactly(cell: Cell, rows: seq<Row>, expected: Option<Dict<string, string>>)
    requires Unmarked(rows)
    ensures Stops(cell, rows, expected) == StopsOnRows(cell, rows, expected)
  {
    hide PlaceAll, AllRows, AnyMisfit, SomeAtOdds, AllRoutedUnscored, ScorerIsDown, SeveralRewardConfigs, ConfigsDiffer, SomeFailed,
         Get, Unmarked, NoneRouted, SomeUnexpected;
    MisfitIsAtOdds(cell, rows);
    NoneTells(cell, rows);
    DownTells(cell, rows);
    ConfigsTell(cell, rows);
    if expected.Some? { UnexpectedTells(cell, rows, expected.value); } else { NothingExpected(rows); }
    if NoneRouted(cell, rows) { NoGrammarTells(cell, rows); }
  }

  lemma NothingExpected(rows: seq<Row>)
    ensures !SomeUnexpected(rows, None)
  {
  }
}
