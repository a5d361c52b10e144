/** One attempt as a CSV row, and how a winner is picked among attempts. */
module Attempts {
  import opened Decimal

  datatype EvalStatus = Scored | EvalError | Blank

  /** The columns the aggregation reads; None is a blank or non-finite cell.  `failed` and `unscored` are
      the marks the aggregation adds; a row read from a file carries neither. */
  datatype Row = Row(
    boardId: string, boardIndex: string, artifact: string, ckpt: Option<int>, status: string, evalStatus: EvalStatus,
    initialPotential: Option<real>, finalPotential: Option<real>, potentialGain: Option<real>, ratsnestReduction: Option<real>,
    wirelength: Option<real>, viaCount: Option<real>, drvErrors: Option<real>, drvPromoted: Option<real>,
    episodeReturn: Option<real>, success: Option<bool>, cleanPass: Option<bool>, routability: Option<real>,
    rolloutIdx: Option<int>, rewardConfig: string, boardPath: string, failed: bool, unscored: bool)

  datatype SelectionMode = FinalPotentialFiniteFirst | FinalPotential | PosthocDrcAware

  /** A selection key: None stands for minus infinity. */
  type Key = seq<Option<real>>

  function Neg(x: Option<real>): Option<real> { if x.None? then None else Some(-x.value) }

  function RolloutKey(r: Row): Option<real> { Some(-(if r.rolloutIdx.Some? then r.rolloutIdx.value as real else 1000000000.0)) }

  function SelectionKey(r: Row, mode: SelectionMode): Key {
    match mode
    case PosthocDrcAware =>
      [r.routability, Neg(r.drvErrors), Neg(r.drvPromoted), r.finalPotential, Neg(r.wirelength), Neg(r.viaCount), RolloutKey(r)]
    case FinalPotential =>
      [r.finalPotential, r.routability, Neg(r.drvErrors), Neg(r.wirelength), Neg(r.viaCount), RolloutKey(r)]
    case FinalPotentialFiniteFirst =>
      [Some(if r.finalPotential.Some? then 1.0 else 0.0),
       if r.finalPotential.Some? then r.finalPotential else r.ratsnestReduction,
       r.routability, r.episodeReturn, Neg(r.wirelength)]
  }

  predicate Less(x: Option<real>, y: Option<real>) { y.Some? && (x.None? || x.value < y.value) }

  /** Tuple comparison. */
  predicate Below(a: Key, b: Key)
    requires |a| == |b|
  {
    a != [] && (Less(a[0], b[0]) || (a[0] == b[0] && Below(a[1..], b[1..])))
  }

  lemma {:induction false} BelowIsTotal(a: Key, b: Key)
    requires |a| == |b|
    ensures a == b || Below(a, b) || Below(b, a)
    ensures !(Below(a, b) && Below(b, a))
  {
    if a != [] {
      BelowIsTotal(a[1..], b[1..]);
      if a[0] == b[0] && a[1..] == b[1..] {
        assert a == [a[0]] + a[1..] && b == [b[0]] + b[1..];
      }
    }
  }

  lemma {:induction false} BelowIsTransitive(a: Key, b: Key, c: Key)
    requires |a| == |b| == |c|
    ensures Below(a, b) && Below(b, c) ==> Below(a, c)
  {
    if a != [] { BelowIsTransitive(a[1..], b[1..], c[1..]); }
  }

  lemma NotBelowChain(a: Key, b: Key, c: Key)
    requires |a| == |b| == |c| && !Below(b, a) && Below(b, c)
    ensures Below(a, c)
  {
    BelowIsTotal(a, b);
    BelowIsTransitive(a, b, c);
  }

  // --- what the winner is better in ------------------------------------------------------------------------------

  /** A blank is below every number. */
  predicate Larger(x: Option<real>, y: Option<real>) { x.Some? && (y.None? || x.value > y.value) }

  /** Where less is better a blank is worst. */
  predicate Smaller(x: Option<real>, y: Option<real>) { x.Some? && (y.None? || x.value < y.value) }

  /** A row without an index stands behind the first 10^9. */
  function Rank(r: Row): int { if r.rolloutIdx.Some? then r.rolloutIdx.value else 1000000000 }

  /** By Φ alone: nothing in `r` beats `w` before something in `w` beats `r`. */
  ghost predicate HoldsByPotential(w: Row, r: Row) {
    && !Larger(r.finalPotential, w.finalPotential)
    && (r.finalPotential == w.finalPotential ==>
          && !Larger(r.routability, w.routability)
          && (r.routability == w.routability ==>
                && !Smaller(r.drvErrors, w.drvErrors)
                && (r.drvErrors == w.drvErrors ==>
                      && !Smaller(r.wirelength, w.wirelength)
                      && (r.wirelength == w.wirelength ==>
                            && !Smaller(r.viaCount, w.viaCount)
                            && (r.viaCount == w.viaCount ==> Rank(r) >= Rank(w))))))
  }

  /** By the scored board: routability, errors, promoted warnings, and only then Φ. */
  ghost predicate HoldsByDrc(w: Row, r: Row) {
    && !Larger(r.routability, w.routability)
    && (r.routability == w.routability ==>
          && !Smaller(r.drvErrors, w.drvErrors)
          && (r.drvErrors == w.drvErrors ==>
                && !Smaller(r.drvPromoted, w.drvPromoted)
                && (r.drvPromoted == w.drvPromoted ==>
                      && !Larger(r.finalPotential, w.finalPotential)
                      && (r.finalPotential == w.finalPotential ==>
                            && !Smaller(r.wirelength, w.wirelength)
                            && (r.wirelength == w.wirelength ==>
                                  && !Smaller(r.viaCount, w.viaCount)
                                  && (r.viaCount == w.viaCount ==> Rank(r) >= Rank(w)))))))
  }

  /** A row with a Φ before one without; without one, by how far the ratsnest was knocked down. */
  ghost predicate HoldsByFinite(w: Row, r: Row) {
    && (r.finalPotential.Some? ==> w.finalPotential.Some? && r.finalPotential.value <= w.finalPotential.value)
    && (r.finalPotential.None? && w.finalPotential.None? ==> !Larger(r.ratsnestReduction, w.ratsnestReduction))
    && (r.finalPotential == w.finalPotential && (r.finalPotential.Some? || r.ratsnestReduction == w.ratsnestReduction) ==>
          && !Larger(r.routability, w.routability)
          && (r.routability == w.routability ==>
                && !Larger(r.episodeReturn, w.episodeReturn)
                && (r.episodeReturn == w.episodeReturn ==> !Smaller(r.wirelength, w.wirelength))))
  }

  ghost predicate Holds(w: Row, r: Row, mode: SelectionMode) {
    match mode
    case FinalPotential => HoldsByPotential(w, r)
    case PosthocDrcAware => HoldsByDrc(w, r)
    case FinalPotentialFiniteFirst => HoldsByFinite(w, r)
  }

  /** From position i on, no first difference is in the other's favour. */
  ghost predicate NotBelowFrom(a: Key, b: Key, i: nat)
    requires |a| == |b|
    decreases |a| - i
  {
    i >= |a| || (!Less(a[i], b[i]) && (a[i] == b[i] ==> NotBelowFrom(a, b, i + 1)))
  }

  lemma {:induction false} NotBelowIs(a: Key, b: Key, i: nat)
    requires |a| == |b| && i <= |a|
    ensures NotBelowFrom(a, b, i) <==> !Below(a[i..], b[i..])
    decreases |a| - i
  {
    if i < |a| {
      NotBelowIs(a, b, i + 1);
      assert a[i..][1..] == a[i + 1..] && b[i..][1..] == b[i + 1..];
    }
  }

  lemma Head(a: Key, b: Key, i: nat)
    requires |a| == |b| && i < |a|
    ensures NotBelowFrom(a, b, i) <==> !Less(a[i], b[i]) && (a[i] == b[i] ==> NotBelowFrom(a, b, i + 1))
    ensures NotBelowFrom(a, b, |a|)
  {
  }

  lemma NegTells(x: Option<real>, y: Option<real>)
    ensures Less(Neg(x), Neg(y)) <==> Smaller(y, x)
    ensures Neg(x) == Neg(y) <==> x == y
    ensures Less(x, y) <==> Larger(y, x)
  {
  }

  lemma RankTells(w: Row, r: Row)
    ensures Less(RolloutKey(w), RolloutKey(r)) <==> Rank(r) < Rank(w)
  {
  }

  lemma PotentialKeyTells(w: Row, r: Row)
    ensures var a, b := SelectionKey(w, FinalPotential), SelectionKey(r, FinalPotential);
      NotBelowFrom(a, b, 0) <==> HoldsByPotential(w, r)
  {
    var a, b := SelectionKey(w, FinalPotential), SelectionKey(r, FinalPotential);
    hide Below, NotBelowFrom, Less, Neg, RolloutKey, Rank, Larger, Smaller;
    Head(a, b, 0);
    Head(a, b, 1);
    Head(a, b, 2);
    Head(a, b, 3);
    Head(a, b, 4);
    Head(a, b, 5);
    NegTells(w.finalPotential, r.finalPotential);
    NegTells(w.routability, r.routability);
    NegTells(w.drvErrors, r.drvErrors);
    NegTells(w.wirelength, r.wirelength);
    NegTells(w.viaCount, r.viaCount);
    RankTells(w, r);
  }

  lemma DrcKeyTells(w: Row, r: Row)
    ensures var a, b := SelectionKey(w, PosthocDrcAware), SelectionKey(r, PosthocDrcAware);
      NotBelowFrom(a, b, 0) <==> HoldsByDrc(w, r)
  {
    var a, b := SelectionKey(w, PosthocDrcAware), SelectionKey(r, PosthocDrcAware);
    hide Below, NotBelowFrom, Less, Neg, RolloutKey, Rank, Larger, Smaller;
    Head(a, b, 0);
    Head(a, b, 1);
    Head(a, b, 2);
    Head(a, b, 3);
    Head(a, b, 4);
    Head(a, b, 5);
    Head(a, b, 6);
    NegTells(w.routability, r.routability);
    NegTells(w.drvErrors, r.drvErrors);
    NegTells(w.drvPromoted, r.drvPromoted);
    NegTells(w.finalPotential, r.finalPotential);
    NegTells(w.wirelength, r.wirelength);
    NegTells(w.viaCount, r.viaCount);
    RankTells(w, r);
  }

  lemma FiniteKeyTells(w: Row, r: Row)
    ensures var a, b := SelectionKey(w, FinalPotentialFiniteFirst), SelectionKey(r, FinalPotentialFiniteFirst);
      NotBelowFrom(a, b, 0) <==> HoldsByFinite(w, r)
  {
    var a, b := SelectionKey(w, FinalPotentialFiniteFirst), SelectionKey(r, FinalPotentialFiniteFirst);
    hide Below, NotBelowFrom, Neg;
    Head(a, b, 0);
    Head(a, b, 1);
    Head(a, b, 2);
    Head(a, b, 3);
    Head(a, b, 4);
    NegTells(w.wirelength, r.wirelength);
  }

  /** The keys compare as the fields do. */
  lemma KeyTells(w: Row, r: Row, mode: SelectionMode)
    ensures !Below(SelectionKey(w, mode), SelectionKey(r, mode)) <==> Holds(w, r, mode)
  {
    var a, b := SelectionKey(w, mode), SelectionKey(r, mode);
    NotBelowIs(a, b, 0);
    assert a[0..] == a && b[0..] == b;
    PotentialKeyTells(w, r);
    DrcKeyTells(w, r);
    FiniteKeyTells(w, r);
    hide Below, NotBelowFrom, SelectionKey, HoldsByPotential, HoldsByDrc, HoldsByFinite;
  }

  /** Index `w` of `rows` is the first with the largest key. */
  ghost predicate FirstBest(rows: seq<Row>, mode: SelectionMode, w: int) {
    && 0 <= w < |rows|
    && (forall j | 0 <= j < |rows| :: !Below(SelectionKey(rows[w], mode), SelectionKey(rows[j], mode)))
    && (forall j | 0 <= j < w :: Below(SelectionKey(rows[j], mode), SelectionKey(rows[w], mode)))
  }

  /** Field by field: nothing beats row `w`, and each row before it is beaten. */
  ghost predicate FirstHolding(rows: seq<Row>, mode: SelectionMode, w: int) {
    && 0 <= w < |rows|
    && forall j | 0 <= j < |rows| :: Holds(rows[w], rows[j], mode) && (j < w ==> !Holds(rows[j], rows[w], mode))
  }

  /** The largest key is the row that no row beats on the fields themselves. */
  lemma BestOnFields(rows: seq<Row>, mode: SelectionMode, w: int)
    ensures FirstBest(rows, mode, w) <==> FirstHolding(rows, mode, w)
  {
    if 0 <= w < |rows| {
      forall j | 0 <= j < |rows|
        ensures Holds(rows[w], rows[j], mode) <==> !Below(SelectionKey(rows[w], mode), SelectionKey(rows[j], mode))
        ensures Holds(rows[j], rows[w], mode) <==> !Below(SelectionKey(rows[j], mode), SelectionKey(rows[w], mode))
      {
        KeyTells(rows[w], rows[j], mode);
        KeyTells(rows[j], rows[w], mode);
      }
    }
    hide Holds, Below, SelectionKey;
  }

  /** One more row: it takes over only with a larger key. */
  lemma OneMoreRow(rows: seq<Row>, x: Row, mode: SelectionMode, w: int)
    requires FirstBest(rows, mode, w)
    ensures FirstBest(rows + [x], mode, if Below(SelectionKey(rows[w], mode), SelectionKey(x, mode)) then |rows| else w)
  {
    var best, key, more := SelectionKey(rows[w], mode), SelectionKey(x, mode), rows + [x];
    BelowIsTotal(best, key);
    BelowIsTotal(key, key);
    forall j | 0 <= j < |rows|
      ensures Below(best, key) ==> Below(SelectionKey(more[j], mode), key) && !Below(key, SelectionKey(more[j], mode))
    {
      assert more[j] == rows[j];
      BelowIsTotal(SelectionKey(rows[j], mode), key);
      if Below(best, key) { NotBelowChain(SelectionKey(rows[j], mode), best, key); }
    }
    hide Below, SelectionKey;
  }

  /** `select_best_in_board`: -1 for no rollouts. */
  method SelectBestInBoard(rows: seq<Row>, mode: SelectionMode) returns (w: int)
    ensures rows == [] ==> w == -1
    ensures rows != [] ==> FirstBest(rows, mode, w) && FirstHolding(rows, mode, w)
  {
    if rows == [] {
      return -1;
    }
    w := 0;
    BelowIsTotal(SelectionKey(rows[0], mode), SelectionKey(rows[0], mode));
    hide Below, SelectionKey, FirstHolding;
    for i := 1 to |rows|
      invariant FirstBest(rows[..i], mode, w)
    {
      OneMoreRow(rows[..i], rows[i], mode, w);
      assert rows[..i + 1] == rows[..i] + [rows[i]];
      if Below(SelectionKey(rows[w], mode), SelectionKey(rows[i], mode)) {
        w := i;
      }
    }
    assert rows[..|rows|] == rows;
    BestOnFields(rows, mode, w);
  }

  // --- routed first, scored first -------------------------------------------------------------------------------

  /** How good a row is before any metric is looked at: scored, routed, failed. */
  function Tier(r: Row): nat {
    if r.failed then 0 else if r.evalStatus.EvalError? then 1 else 2
  }

  predicate AnyAtLeast(rows: seq<Row>, tier: nat) { exists i :: 0 <= i < |rows| && Tier(rows[i]) >= tier }

  /** The rows in competition: the scored ones if there are any, else the routed ones, else all. */
  function Competing(rows: seq<Row>): nat {
    if AnyAtLeast(rows, 2) then 2 else if AnyAtLeast(rows, 1) then 1 else 0
  }

  /** The positions, in order, of the rows of at least this tier. */
  function Pool(rows: seq<Row>, tier: nat): seq<nat> {
    if rows == [] then []
    else Pool(rows[..|rows| - 1], tier) + (if Tier(rows[|rows| - 1]) >= tier then [|rows| - 1] else [])
  }

  lemma {:induction false} PoolSound(rows: seq<Row>, tier: nat)
    ensures forall k | 0 <= k < |Pool(rows, tier)| :: Pool(rows, tier)[k] < |rows| && Tier(rows[Pool(rows, tier)[k]]) >= tier
    ensures forall k, l | 0 <= k < l < |Pool(rows, tier)| :: Pool(rows, tier)[k] < Pool(rows, tier)[l]
  {
    if rows != [] {
      var init := Pool(rows[..|rows| - 1], tier);
      PoolSound(rows[..|rows| - 1], tier);
      assert forall k | 0 <= k < |init| :: rows[..|rows| - 1][init[k]] == rows[init[k]];
    }
  }

  lemma {:induction false} PoolComplete(rows: seq<Row>, tier: nat, i: nat)
    requires i < |rows| && Tier(rows[i]) >= tier
    ensures i in Pool(rows, tier)
  {
    if i < |rows| - 1 {
      assert rows[..|rows| - 1][i] == rows[i];
      PoolComplete(rows[..|rows| - 1], tier, i);
    }
  }

  /** The winner: of the best tier there is, with the largest key of that tier, the first such. */
  ghost predicate Wins(rows: seq<Row>, mode: SelectionMode, w: int) {
    && 0 <= w < |rows| && Tier(rows[w]) >= Competing(rows)
    && (forall j | 0 <= j < |rows| && Tier(rows[j]) >= Competing(rows) ::
          !Below(SelectionKey(rows[w], mode), SelectionKey(rows[j], mode)))
    && (forall j | 0 <= j < w && Tier(rows[j]) >= Competing(rows) ::
          Below(SelectionKey(rows[j], mode), SelectionKey(rows[w], mode)))
  }

  lemma PoolIsEmpty(rows: seq<Row>, tier: nat)
    ensures Pool(rows, tier) != [] <==> AnyAtLeast(rows, tier)
  {
    var pool := Pool(rows, tier);
    PoolSound(rows, tier);
    hide Pool;
    if pool != [] { assert Tier(rows[pool[0]]) >= tier; }
    if i :| 0 <= i < |rows| && Tier(rows[i]) >= tier { PoolComplete(rows, tier, i); }
  }

  lemma PoolIsCompeting(rows: seq<Row>)
    ensures var scored, routed := Pool(rows, 2), Pool(rows, 1);
      var pool := if scored != [] then scored else if routed != [] then routed else Pool(rows, 0);
      pool == Pool(rows, Competing(rows)) && (rows != [] ==> pool != [])
  {
    PoolIsEmpty(rows, 2);
    PoolIsEmpty(rows, 1);
    PoolIsEmpty(rows, 0);
    if rows != [] { assert Tier(rows[0]) >= 0 && AnyAtLeast(rows, 0); }
    hide Pool, AnyAtLeast, Tier;
  }

  /** The best of the pool's rows is the winner of all the rows. */
  lemma BestOfPoolWins(rows: seq<Row>, mode: SelectionMode, among: seq<Row>, j: int)
    requires var pool := Pool(rows, Competing(rows));
      |among| == |pool| && (forall k | 0 <= k < |pool| :: pool[k] < |rows| && among[k] == rows[pool[k]]) && FirstBest(among, mode, j)
    ensures Wins(rows, mode, Pool(rows, Competing(rows))[j])
  {
    var tier := Competing(rows);
    var pool := Pool(rows, tier);
    var w := pool[j];
    PoolSound(rows, tier);
    hide Pool, Competing, Below, SelectionKey;
    forall i | 0 <= i < |rows| && Tier(rows[i]) >= tier
      ensures !Below(SelectionKey(rows[w], mode), SelectionKey(rows[i], mode))
      ensures i < w ==> Below(SelectionKey(rows[i], mode), SelectionKey(rows[w], mode))
    {
      PoolComplete(rows, tier, i);
      var k :| 0 <= k < |pool| && pool[k] == i;
      assert among[k] == rows[i] && among[j] == rows[w];
      if j < k { assert pool[j] < pool[k]; }
    }
  }

  /** Field by field: no row is of a better tier, no row of the same tier beats row `w`, and each one before it is
      beaten. */
  ghost predicate HoldsInTier(rows: seq<Row>, mode: SelectionMode, w: int) {
    && 0 <= w < |rows|
    && forall j | 0 <= j < |rows| ::
         && Tier(rows[j]) <= Tier(rows[w])
         && (Tier(rows[j]) == Tier(rows[w]) ==> Holds(rows[w], rows[j], mode) && (j < w ==> !Holds(rows[j], rows[w], mode)))
  }

  /** The winner is the row of the best tier that no row of that tier beats on the fields themselves. */
  lemma WinnerOnFields(rows: seq<Row>, mode: SelectionMode, w: int)
    requires Wins(rows, mode, w)
    ensures HoldsInTier(rows, mode, w)
  {
    CompetingIsBest(rows, w);
    forall j | 0 <= j < |rows|
      ensures Holds(rows[w], rows[j], mode) <==> !Below(SelectionKey(rows[w], mode), SelectionKey(rows[j], mode))
      ensures Holds(rows[j], rows[w], mode) <==> !Below(SelectionKey(rows[j], mode), SelectionKey(rows[w], mode))
    {
      KeyTells(rows[w], rows[j], mode);
      KeyTells(rows[j], rows[w], mode);
    }
    hide Holds, Below, SelectionKey, Tier, Competing;
  }

  lemma CompetingIsBest(rows: seq<Row>, w: int)
    requires 0 <= w < |rows| && Tier(rows[w]) >= Competing(rows)
    ensures Tier(rows[w]) == Competing(rows)
    ensures forall j | 0 <= j < |rows| :: Tier(rows[j]) <= Tier(rows[w])
  {
    forall j | 0 <= j < |rows| ensures Tier(rows[j]) <= Competing(rows) {
      assert Tier(rows[j]) >= 2 ==> AnyAtLeast(rows, 2);
      assert Tier(rows[j]) >= 1 ==> AnyAtLeast(rows, 1);
    }
  }

  /** `_select_routed_first` */
  method SelectRoutedFirst(rows: seq<Row>, mode: SelectionMode) returns (w: int)
    ensures rows == [] ==> w == -1
    ensures rows != [] ==> Wins(rows, mode, w) && HoldsInTier(rows, mode, w)
  {
    if rows == [] {
      return -1;
    }
    PoolIsCompeting(rows);
    PoolSound(rows, Competing(rows));
    var routed := Pool(rows, 1);
    var scored := Pool(rows, 2);
    var pool := if scored != [] then scored else if routed != [] then routed else Pool(rows, 0);
    hide Pool, Competing, Below, SelectionKey, FirstBest, FirstHolding, Wins, HoldsInTier;
    var among := seq(|pool|, k requires 0 <= k < |pool| => rows[pool[k]]);
    var j := SelectBestInBoard(among, mode);
    BestOfPoolWins(rows, mode, among, j);
    FirstBestInRange(among, mode, j);
    w := pool[j];
    WinnerOnFields(rows, mode, w);
  }

  lemma FirstBestInRange(rows: seq<Row>, mode: SelectionMode, w: int)
    requires FirstBest(rows, mode, w)
    ensures 0 <= w < |rows|
  {
  }

  /** A failed attempt wins only over failed attempts; a routed one whose scoring failed only when none was
      scored. */
  lemma WinnerIsOfTheBestTier(rows: seq<Row>, mode: SelectionMode, w: int)
    requires Wins(rows, mode, w)
    ensures (exists i :: 0 <= i < |rows| && !rows[i].failed) ==> !rows[w].failed
    ensures (exists i :: 0 <= i < |rows| && !rows[i].failed && !rows[i].evalStatus.EvalError?) ==>
      !rows[w].failed && !rows[w].evalStatus.EvalError?
  {
    if i :| 0 <= i < |rows| && !rows[i].failed {
      assert Tier(rows[i]) >= 1;
    }
    if i :| 0 <= i < |rows| && !rows[i].failed && !rows[i].evalStatus.EvalError? {
      assert Tier(rows[i]) >= 2;
    }
  }

  /** There is one winner. */
  lemma WinnerIsUnique(rows: seq<Row>, mode: SelectionMode, v: int, w: int)
    requires Wins(rows, mode, v) && Wins(rows, mode, w)
    ensures v == w
  {
    BelowIsTotal(SelectionKey(rows[v], mode), SelectionKey(rows[w], mode));
  }
}
