/** Which boards Stage 3 prices at Φ₀, and that Stage 2 asks for them. */
module PhiZeroContract {
  import opened Decimal
  import opened IntSets
  import opened Dicts
  import opened Attempts
  import opened Aggregation
  import opened AttemptConservation
  import opened BoardReports
  import opened PhiZero

  predicate HasFailed(rows: seq<Row>) { exists i :: 0 <= i < |rows| && rows[i].failed }

  /** Some attempt of the board is reported at Φ₀, or took its Φ₀ from Stage 2. */
  ghost predicate PricedAtPhi0(l: Ledger, c: Classified, bid: string) {
    || (exists ck: int :: HasFailed(List(l.groups, (bid, ck))))
    || Get(l.loose, bid).Some?
    || AnyWithoutPhi0(RowsOf(c.routed, bid))
  }

  /** A board with groups and no unattributed failures that has no group for some ckpt of the cell. */
  ghost predicate MissesACkpt(was: Ledger, bid: string) {
    && bid in BoardIds(was.groups) && Get(was.loose, bid).None?
    && exists ck | ck in Ckpts(was.groups) :: Get(was.groups, (bid, ck)).None?
  }

  // --- before the completion -----------------------------------------------------------------------------------------

  lemma {:induction false} TakenList(phi0: map<string, real>, d: Groups, e: Groups, k: (string, int))
    requires |e| == |d| && forall i | 0 <= i < |d| :: e[i] == (d[i].0, TakeAll(phi0, d[i].1))
    ensures List(e, k) == TakeAll(phi0, List(d, k))
  {
    if d != [] {
      TakenList(phi0, d[..|d| - 1], e[..|e| - 1], k);
    }
  }

  lemma {:induction false} RepricedList(p: Pricing, d: Groups, e: Groups, k: (string, int))
    requires |e| == |d| && forall i | 0 <= i < |d| :: e[i] == PriceGroup(p, d[i])
    ensures List(e, k) == UnscoredAsFailed(List(d, k), p.score, PhiOf(p.phi0, k.0))
  {
    if d != [] {
      RepricedList(p, d[..|d| - 1], e[..|e| - 1], k);
    }
  }

  /** A group before the completion: the routed rows, then the charged ones, re-priced as a whole. */
  lemma PricedList(p: Pricing, c: Classified, bid: string, ck: int)
    requires Keyed(c.failed)
    ensures var was, only := Priced(p, c), OnlyCkpt(c.routed);
      && List(was.groups, (bid, ck)) ==
           UnscoredAsFailed(TakeAll(p.phi0, List(c.routed, (bid, ck))) + ChargedTo(p, only, bid, List(c.failed, bid), Some(ck)),
                            p.score, PhiOf(p.phi0, bid))
      && List(was.loose, bid) == ChargedTo(p, only, bid, List(c.failed, bid), None)
  {
    var only, l0 := OnlyCkpt(c.routed), Ledger(TakeGroups(p.phi0, c.routed), []);
    var l1 := ChargeAll(p, only, l0, c.failed);
    TakenList(p.phi0, c.routed, TakeGroups(p.phi0, c.routed), (bid, ck));
    AttributionIsExact(p, only, l0, c.failed, bid, ck);
    RepricedList(p, l1.groups, PriceGroups(p, l1.groups), (bid, ck));
    hide UnscoredAsFailed, OnlyCkpt, ChargeAll;
    var loose := ChargedTo(p, only, bid, List(c.failed, bid), None);
    assert List(l0.loose, bid) == [] && [] + loose == loose;
  }

  lemma FailedAfterPricing(routed: seq<Row>, charged: seq<Row>, p: Pricing, phi0: Option<real>)
    requires Unmarked(routed) && forall i | 0 <= i < |charged| :: charged[i].failed
    ensures HasFailed(UnscoredAsFailed(TakeAll(p.phi0, routed) + charged, p.score, phi0)) <==> charged != [] || AllRoutedUnscored(routed)
  {
    var taken := TakeAll(p.phi0, routed);
    var all := taken + charged;
    assert forall i | 0 <= i < |routed| :: all[i] == TakePhi0(p.phi0, routed[i]);
    assert forall i | 0 <= i < |charged| :: all[|routed| + i] == charged[i];
    var out := UnscoredAsFailed(all, p.score, phi0);
    if charged != [] {
      assert out[|routed|].failed;
    } else {
      assert all == taken;
      if AllRoutedUnscored(routed) {
        var i :| 0 <= i < |routed| && !routed[i].failed;
        assert !all[i].failed;
        assert forall j | 0 <= j < |all| :: all[j].evalStatus == routed[j].evalStatus && !all[j].failed;
        assert AllRoutedUnscored(all);
        assert out[i].failed;
      } else if AllRoutedUnscored(all) {
        var i :| 0 <= i < |all| && !all[i].failed;
        assert !routed[i].failed;
        assert forall j | 0 <= j < |all| :: all[j].evalStatus == routed[j].evalStatus;
        assert AllRoutedUnscored(routed);
      }
    }
  }

  lemma {:induction false} FirstUnscoredExists(routed: Groups, bid: string)
    requires Keyed(routed)
    ensures FirstUnscored(routed, bid).Some? <==> exists ck: int :: AllRoutedUnscored(List(routed, (bid, ck)))
  {
    NothingRouted();
    hide AllRoutedUnscored;
    if routed != [] {
      var init, g := routed[..|routed| - 1], routed[|routed| - 1];
      FirstUnscoredExists(init, bid);
      assert List(init, g.0) == [] && List(routed, g.0) == g.1;
      forall ck: int
        ensures AllRoutedUnscored(List(routed, (bid, ck))) <==> AllRoutedUnscored(List(init, (bid, ck))) || (g.0 == (bid, ck) && AllRoutedUnscored(g.1))
      {
      }
      assert FirstUnscored(routed, bid).Some? <==> FirstUnscored(init, bid).Some? || (g.0.0 == bid && AllRoutedUnscored(g.1));
      var last: int := g.0.1;
      assert g.0 == (g.0.0, last);
      hide FirstUnscored, List;
      if g.0.0 == bid && AllRoutedUnscored(g.1) {
        assert List(routed, (bid, last)) == g.1;
        assert AllRoutedUnscored(List(routed, (bid, last)));
      }
    }
  }

  lemma NothingRouted()
    ensures !AllRoutedUnscored([])
  {
  }

  lemma {:induction false} EntryOfBoard(routed: Groups, bid: string)
    ensures RowsOf(routed, bid) != [] || FirstUnscored(routed, bid).Some? ==> exists i :: 0 <= i < |routed| && routed[i].0.0 == bid
  {
    if routed != [] {
      var init := routed[..|routed| - 1];
      EntryOfBoard(init, bid);
      if i :| 0 <= i < |init| && init[i].0.0 == bid {
        assert routed[i].0.0 == bid;
      }
    }
  }

  lemma FailedInGroup(cell: Cell, rows: seq<Row>, p: Pricing, bid: string, ck: int)
    requires Unmarked(rows)
    ensures var c := PlaceAll(cell, rows);
      HasFailed(List(Priced(p, c).groups, (bid, ck))) <==>
        ChargedTo(p, OnlyCkpt(c.routed), bid, List(c.failed, bid), Some(ck)) != [] || AllRoutedUnscored(List(c.routed, (bid, ck)))
  {
    var c := PlaceAll(cell, rows);
    var charged := ChargedTo(p, OnlyCkpt(c.routed), bid, List(c.failed, bid), Some(ck));
    PlacedTidy(cell, rows);
    PlacedCounts(cell, rows);
    PricedList(p, c, bid, ck);
    ListIsEach(c.routed, (bid, ck), Unmarked);
    ChargedAreFailed(p, OnlyCkpt(c.routed), bid, List(c.failed, bid), Some(ck));
    hide *;
    FailedAfterPricing(List(c.routed, (bid, ck)), charged, p, PhiOf(p.phi0, bid));
  }

  /** The reasons, in terms of the lists. */
  lemma ReasonIs(c: Classified, bid: string)
    requires Tidy(Ledger(c.routed, c.failed))
    ensures Reason(c, bid).Some? <==>
      List(c.failed, bid) != [] || (exists ck: int :: AllRoutedUnscored(List(c.routed, (bid, ck)))) || AnyWithoutPhi0(RowsOf(c.routed, bid))
  {
    assert Get(c.failed, bid).Some? <==> List(c.failed, bid) != [];
    FirstUnscoredExists(c.routed, bid);
    EntryOfBoard(c.routed, bid);
    NoRowsNoReason(c.routed, bid);
    hide AllRoutedUnscored, FirstUnscored, AnyWithoutPhi0, RowsOf, List, Get, Tidy;
  }

  lemma LooseIs(cell: Cell, rows: seq<Row>, p: Pricing, bid: string)
    ensures var c := PlaceAll(cell, rows);
      Get(Priced(p, c).loose, bid).Some? <==> ChargedTo(p, OnlyCkpt(c.routed), bid, List(c.failed, bid), None) != []
  {
    var c := PlaceAll(cell, rows);
    PlacedTidy(cell, rows);
    PricedTidy(cell, rows, p);
    PricedList(p, c, bid, 0);
    hide Priced, PlaceAll, ChargedTo, Get, OnlyCkpt;
    assert Get(Priced(p, c).loose, bid) != Some([]);
  }

  /** A board with a failed row is priced, wherever the row is charged. */
  lemma PricedForItsFailedRows(cell: Cell, rows: seq<Row>, p: Pricing, bid: string)
    requires Unmarked(rows) && List(PlaceAll(cell, rows).failed, bid) != []
    ensures var c := PlaceAll(cell, rows); PricedAtPhi0(Priced(p, c), c, bid)
  {
    var c := PlaceAll(cell, rows);
    var failed, only := List(c.failed, bid), OnlyCkpt(c.routed);
    SomeChargedRow(p, only, bid, failed);
    var target :| ChargedTo(p, only, bid, failed, target) != [];
    LooseIs(cell, rows, p, bid);
    if target.Some? { FailedInGroup(cell, rows, p, bid, target.value); }
    hide Priced, PlaceAll, HasFailed, AllRoutedUnscored, RowsOf, AnyWithoutPhi0, List, OnlyCkpt, Unmarked, ChargedTo, Get;
    assert target.Some? ==> target == Some(target.value);
  }

  /** Before the completion Stage 3 prices exactly the boards Stage 2 has a reason for. */
  lemma PricedForAReason(cell: Cell, rows: seq<Row>, p: Pricing, bid: string)
    requires Unmarked(rows)
    ensures var c := PlaceAll(cell, rows); PricedAtPhi0(Priced(p, c), c, bid) <==> Reason(c, bid).Some?
  {
    var c := PlaceAll(cell, rows);
    var was := Priced(p, c);
    PlacedTidy(cell, rows);
    ReasonIs(c, bid);
    if List(c.failed, bid) != [] {
      PricedForItsFailedRows(cell, rows, p, bid);
      hide PricedAtPhi0, Priced, PlaceAll, Reason, List;
    } else {
      forall ck: int
        ensures HasFailed(List(was.groups, (bid, ck))) <==> AllRoutedUnscored(List(c.routed, (bid, ck)))
      {
        FailedInGroup(cell, rows, p, bid, ck);
      }
      LooseIs(cell, rows, p, bid);
      hide Priced, PlaceAll, HasFailed, AllRoutedUnscored, RowsOf, AnyWithoutPhi0, List, Reason, Get, Tidy, Unmarked;
    }
  }

  lemma NoRowsNoReason(routed: Groups, bid: string)
    ensures AnyWithoutPhi0(RowsOf(routed, bid)) ==> RowsOf(routed, bid) != []
  {
  }

  // --- after the completion --------------------------------------------------------------------------------------------

  /** An existing group is as it was; a new one is a missing attempt of an owing board. */
  lemma GroupAfterFill(was: Ledger, l: Ledger, ckpts: seq<int>, boards: seq<string>, bid: string, ck: int)
    requires Tidy(was) && Tidy(l) && Completes(was, l, ckpts, boards)
    ensures Get(was.groups, (bid, ck)).Some? ==> List(l.groups, (bid, ck)) == List(was.groups, (bid, ck))
    ensures Get(was.groups, (bid, ck)).None? && Get(l.groups, (bid, ck)).Some? ==>
      bid in boards && ck in ckpts && HasFailed(List(l.groups, (bid, ck)))
  {
    if Get(was.groups, (bid, ck)).None? && Get(l.groups, (bid, ck)).Some? {
      GotIsEntry(l.groups, (bid, ck));
      var i :| 0 <= i < |l.groups| && l.groups[i] == ((bid, ck), Get(l.groups, (bid, ck)).value);
      if InGroups(was.groups, l.groups[i]) {
        var k :| 0 <= k < |was.groups| && was.groups[k] == l.groups[i];
        EntryIsGot(was.groups, k);
      } else {
        assert FilledIn(boards, ckpts, l.groups[i]);
      }
    }
  }

  /** The completion adds the boards without a row and the boards that miss a ckpt, and no other. */
  lemma PricedAfterFill(cell: Cell, rows: seq<Row>, p: Pricing, expected: Dict<string, string>, bid: string)
    ensures var c := PlaceAll(cell, rows);
      var was, l := Priced(p, c), Completed(p, c, expected).ledger;
      PricedAtPhi0(l, c, bid) <==>
        PricedAtPhi0(was, c, bid) || MissesACkpt(was, bid) || bid in Ids(NewBoards(c.index, expected))
  {
    var c := PlaceAll(cell, rows);
    var was, l := Priced(p, c), Completed(p, c, expected).ledger;
    var ckpts, unseen, boards := Ascending(Ckpts(was.groups)), Ids(NewBoards(c.index, expected)), OwingBoards(p, c, expected);
    PricedTidy(cell, rows, p);
    CompletedTidy(cell, rows, p, expected);
    assert boards == BoardIds(was.groups) + unseen;
    NoGroupsYet(cell, rows, p, expected, bid);
    hide Priced, Completed, PlaceAll, OwingBoards, NewBoards, Ids, RowsOf, AnyWithoutPhi0, HasFailed;
    forall ck: int
      ensures HasFailed(List(was.groups, (bid, ck))) ==> HasFailed(List(l.groups, (bid, ck)))
      ensures HasFailed(List(l.groups, (bid, ck))) && !HasFailed(List(was.groups, (bid, ck))) ==>
        Get(was.groups, (bid, ck)).None? && bid in boards && ck in ckpts
      ensures Get(was.groups, (bid, ck)).None? && Get(l.groups, (bid, ck)).Some? ==> HasFailed(List(l.groups, (bid, ck)))
    {
      GroupAfterFill(was, l, ckpts, boards, bid, ck);
      EmptyHasNoFailed();
    }
    FilledBoard(was, l, c, ckpts, boards, unseen, bid);
  }

  lemma EmptyHasNoFailed()
    ensures !HasFailed([])
  {
  }

  /** A board no row names has no list. */
  lemma NoGroupsYet(cell: Cell, rows: seq<Row>, p: Pricing, expected: Dict<string, string>, bid: string)
    ensures var c := PlaceAll(cell, rows);
      bid in Ids(NewBoards(c.index, expected)) ==> Get(Priced(p, c).loose, bid).None? && forall ck: int :: Get(Priced(p, c).groups, (bid, ck)).None?
  {
    var c := PlaceAll(cell, rows);
    if bid in Ids(NewBoards(c.index, expected)) {
      NewBoardIsUnseen(c.index, expected, bid);
      IndexHasEveryRow(cell, rows);
      PlacedTidy(cell, rows);
      PricedTidy(cell, rows, p);
      LooseIs(cell, rows, p, bid);
      assert !Listed(c, bid);
      assert List(c.failed, bid) == [];
      forall ck: int
        ensures Get(Priced(p, c).groups, (bid, ck)).None?
      {
        PricedList(p, c, bid, ck);
        assert Get(c.routed, (bid, ck)).None?;
        NothingToPrice(p, OnlyCkpt(c.routed), bid, ck);
        assert List(Priced(p, c).groups, (bid, ck)) == [];
        hide Priced, PlaceAll, Get, List;
        assert Get(Priced(p, c).groups, (bid, ck)) != Some([]);
      }
    }
  }

  lemma NothingToPrice(p: Pricing, only: Option<int>, bid: string, ck: int)
    ensures UnscoredAsFailed(TakeAll(p.phi0, []) + ChargedTo(p, only, bid, [], Some(ck)), p.score, PhiOf(p.phi0, bid)) == []
  {
  }

  lemma {:induction false} NewBoardIsUnseen(index: Dict<string, string>, expected: Dict<string, string>, bid: string)
    ensures bid in Ids(NewBoards(index, expected)) <==> Get(index, bid).None? && Get(expected, bid).Some?
  {
    if expected != [] {
      var init, last := expected[..|expected| - 1], expected[|expected| - 1];
      NewBoardIsUnseen(index, init, bid);
      var all, was := NewBoards(index, expected), NewBoards(index, init);
      assert all == if Get(index, last.0).Some? then was else was + [last];
      assert Ids(all) == if Get(index, last.0).Some? then Ids(was) else Ids(was) + [last.0];
    }
  }

  lemma FilledBoard(was: Ledger, l: Ledger, c: Classified, ckpts: seq<int>, boards: seq<string>, unseen: seq<string>, bid: string)
    requires ckpts == Ascending(Ckpts(was.groups)) && boards == BoardIds(was.groups) + unseen && Completes(was, l, ckpts, boards)
    requires bid in unseen ==> Get(was.loose, bid).None? && forall ck: int :: Get(was.groups, (bid, ck)).None?
    requires forall ck: int :: HasFailed(List(was.groups, (bid, ck))) ==> HasFailed(List(l.groups, (bid, ck)))
    requires forall ck: int :: HasFailed(List(l.groups, (bid, ck))) && !HasFailed(List(was.groups, (bid, ck))) ==>
        Get(was.groups, (bid, ck)).None? && bid in boards && ck in ckpts
    requires forall ck: int :: Get(was.groups, (bid, ck)).None? && Get(l.groups, (bid, ck)).Some? ==> HasFailed(List(l.groups, (bid, ck)))
    ensures PricedAtPhi0(l, c, bid) <==> PricedAtPhi0(was, c, bid) || MissesACkpt(was, bid) || bid in unseen
  {
    NoCkptsNoBoards(was.groups);
    hide RowsOf, AnyWithoutPhi0, HasFailed, Get, List, BoardIds, Ckpts, FilledIn, InGroups;
    if ck: int :| HasFailed(List(l.groups, (bid, ck))) && !HasFailed(List(was.groups, (bid, ck))) {
      assert ck in Ckpts(was.groups);
      assert bid !in unseen && Get(was.loose, bid).None? ==> MissesACkpt(was, bid);
    }
    if Get(l.loose, bid).Some? && Get(was.loose, bid).None? {
      assert bid in unseen;
    }
    if bid in unseen && Get(l.loose, bid).None? {
      assert Get(l.groups, (bid, ckpts[0])).Some?;
      assert HasFailed(List(l.groups, (bid, ckpts[0])));
    }
    if MissesACkpt(was, bid) && Get(l.loose, bid).None? {
      var ck :| ck in Ckpts(was.groups) && Get(was.groups, (bid, ck)).None?;
      assert ck in ckpts;
      assert Get(l.groups, (bid, ck)).Some?;
      assert HasFailed(List(l.groups, (bid, ck)));
    }
  }

  lemma NoCkptsNoBoards(groups: Groups)
    ensures Ascending(Ckpts(groups)) == [] ==> BoardIds(groups) == []
  {
    if groups != [] {
      assert groups[0].0.1 in Ckpts(groups);
    }
  }

  /** Stage 3 prices a board at Φ₀ exactly when Stage 2 asked for it, or when the board has attempts, none of
      them unattributed, but none at some ckpt of the cell. */
  lemma StageTwoAsksForWhatStageThreePrices(cell: Cell, rows: seq<Row>, p: Pricing, expected: Dict<string, string>, bid: string)
    requires Unmarked(rows)
    ensures var c := PlaceAll(cell, rows);
      PricedAtPhi0(Completed(p, c, expected).ledger, c, bid) <==>
        Need(c, expected, bid).Some? || MissesACkpt(Priced(p, c), bid)
  {
    var c := PlaceAll(cell, rows);
    PricedAfterFill(cell, rows, p, expected, bid);
    PricedForAReason(cell, rows, p, bid);
    NewBoardIsUnseen(c.index, expected, bid);
    hide PlaceAll, Completed, Priced, PricedAtPhi0, MissesACkpt, Reason, NewBoards, Ids;
  }
}
