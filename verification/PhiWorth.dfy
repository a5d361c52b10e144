/** What each part of Φ is worth, on Φ itself and the fields of a snapshot. */
module PhiWorth {
  import opened Decimal
  import opened Rewards

  ghost predicate Usable(k: Knobs) { k.logOffset > 0.0 && k.saturationOffset > 0.0 }

  predicate Flat(k: Knobs) { k.sizeLogScale <= 0.0 && k.sizeLinearScale <= 0.0 }

  /** Φ of the second state less Φ of the first; both are defined. */
  ghost predicate Gains(k: Knobs, log1p: real -> real, b: Bound, s: RewardState, s': RewardState, gain: real)
    requires Usable(k)
  {
    && Phi(k, log1p, b, s).Some? && Phi(k, log1p, b, s').Some?
    && Phi(k, log1p, b, s').value - Phi(k, log1p, b, s).value == gain
  }

  // --- the parts of Φ ---------------------------------------------------------------------------------------------------

  ghost function Value(x: Option<real>): real { if x.Some? then x.value else 0.0 }

  ghost function OpenPart(k: Knobs, b: Bound, s: RewardState): real {
    -k.unconnectedPenalty * s.unconnected as real + if s.unconnected == 0 then b.completionBonus else 0.0
  }

  ghost function CleanBoard(k: Knobs, b: Bound, s: RewardState): real {
    if SeverityCounts(k, s).0 == 0 then b.cleanCompletionBonus else 0.0
  }

  ghost predicate LadderDefined(k: Knobs, b: Bound, s: RewardState) {
    || (k.netCompletionBonus == 0.0 && k.netCleanBonus == 0.0 && b.cleanCompletionBonus == 0.0)
    || (!(SizeWeighted(k) && b.byCode.None?) && CompletionTerm(k, b, s).Some? && CleanTerm(k, b, s).Some?)
  }

  lemma PhiIs(k: Knobs, log1p: real -> real, b: Bound, s: RewardState)
    requires Usable(k)
    ensures Phi(k, log1p, b, s).Some? <==> LadderDefined(k, b, s)
    ensures LadderDefined(k, b, s) ==>
      Phi(k, log1p, b, s).value
      == OpenPart(k, b, s) - DrcPenalty(k, log1p, s) + Value(CompletionTerm(k, b, s)) + Value(CleanTerm(k, b, s))
         + CleanBoard(k, b, s) + PhiWireVia(k, b, s)
  {
    LadderOff(k, b, s);
    hide DrcPenalty, CompletionTerm, CleanTerm, SizeWeighted, SeverityCounts, PhiWireVia;
  }

  lemma LadderOff(k: Knobs, b: Bound, s: RewardState)
    ensures k.netCompletionBonus == 0.0 ==> CompletionTerm(k, b, s) == Some(0.0)
    ensures k.netCleanBonus == 0.0 ==> CleanTerm(k, b, s) == Some(0.0)
  {
    hide SizeWeighted, SeverityCounts, OpenWeight, Total, DirtyWeight, DirtyNets;
  }

  /** Two values of Φ differ by the differences of their parts. */
  lemma Differ(k: Knobs, log1p: real -> real, b: Bound, s: RewardState, k': Knobs, b': Bound, s': RewardState)
    requires Usable(k) && Usable(k') && Phi(k, log1p, b, s).Some? && LadderDefined(k', b', s')
    ensures Phi(k', log1p, b', s').Some?
    ensures Phi(k', log1p, b', s').value - Phi(k, log1p, b, s).value
            == (OpenPart(k', b', s') - OpenPart(k, b, s)) - (DrcPenalty(k', log1p, s') - DrcPenalty(k, log1p, s))
               + (Value(CompletionTerm(k', b', s')) - Value(CompletionTerm(k, b, s)))
               + (Value(CleanTerm(k', b', s')) - Value(CleanTerm(k, b, s)))
               + (CleanBoard(k', b', s') - CleanBoard(k, b, s)) + (PhiWireVia(k', b', s') - PhiWireVia(k, b, s))
  {
    PhiIs(k, log1p, b, s);
    PhiIs(k', log1p, b', s');
    hide Phi, LadderDefined, OpenPart, DrcPenalty, CompletionTerm, CleanTerm, CleanBoard, PhiWireVia, Value;
  }

  /** The two ladders read the bonus, the weighting, the bound weights, and the connected or the violating nets. */
  lemma SameLadders(k: Knobs, b: Bound, s: RewardState, k0: Knobs, b0: Bound, s0: RewardState)
    requires SizeWeighted(k0) == SizeWeighted(k) && k0.severity == k.severity && b0.byCode == b.byCode && b0.byName == b.byName
    ensures k0.netCompletionBonus == k.netCompletionBonus && s0.connectedNetCount == s.connectedNetCount
            && s0.unconnectedNetCodes == s.unconnectedNetCodes ==>
      CompletionTerm(k0, b0, s0).Some? == CompletionTerm(k, b, s).Some? && Value(CompletionTerm(k0, b0, s0)) == Value(CompletionTerm(k, b, s))
    ensures k0.netCleanBonus == k.netCleanBonus && SeverityCounts(k, s0) == SeverityCounts(k, s)
            && s0.targetNetCount == s.targetNetCount ==>
      CleanTerm(k0, b0, s0).Some? == CleanTerm(k, b, s).Some? && Value(CleanTerm(k0, b0, s0)) == Value(CleanTerm(k, b, s))
  {
    assert SeverityCounts(k0, s0) == SeverityCounts(k, s0);
    hide SizeWeighted, SeverityCounts;
  }

  /** What the violations decide: the penalty, the clean ladder and the clean-board bonus. */
  ghost predicate SameDrc(k: Knobs, log1p: real -> real, b: Bound, s: RewardState, s': RewardState)
    requires Usable(k)
  {
    && DrcPenalty(k, log1p, s') == DrcPenalty(k, log1p, s) && CleanTerm(k, b, s').Some? == CleanTerm(k, b, s).Some?
    && Value(CleanTerm(k, b, s')) == Value(CleanTerm(k, b, s)) && CleanBoard(k, b, s') == CleanBoard(k, b, s)
  }

  lemma DrcUntouched(k: Knobs, log1p: real -> real, b: Bound, s: RewardState, s': RewardState)
    requires Usable(k)
    requires s' == s.(unconnected := s'.unconnected, wirelength := s'.wirelength, viaCount := s'.viaCount,
                      connectedNetCount := s'.connectedNetCount, unconnectedNetCodes := s'.unconnectedNetCodes)
    ensures SameDrc(k, log1p, b, s, s')
  {
    assert SeverityCounts(k, s') == SeverityCounts(k, s);
    SameLadders(k, b, s, k, b, s');
    hide SeverityCounts, BoardTerm, NetPenalties, CleanTerm, Value, SizeWeighted;
  }

  // --- connections, wire and vias --------------------------------------------------------------------------------------

  lemma Times(x: real, y: real, d: real)
    ensures x * (y + d) == x * y + x * d
  {
  }

  /** A state that differs only in its open connections, its wire and its vias. */
  lemma CopperDiffers(k: Knobs, log1p: real -> real, b: Bound, s: RewardState, s': RewardState)
    requires Usable(k) && Phi(k, log1p, b, s).Some?
    requires s' == s.(unconnected := s'.unconnected, wirelength := s'.wirelength, viaCount := s'.viaCount)
    ensures Phi(k, log1p, b, s').Some?
    ensures Phi(k, log1p, b, s').value - Phi(k, log1p, b, s).value
            == (OpenPart(k, b, s') - OpenPart(k, b, s)) + (PhiWireVia(k, b, s') - PhiWireVia(k, b, s))
  {
    DrcUntouched(k, log1p, b, s, s');
    SameLadders(k, b, s, k, b, s');
    PhiIs(k, log1p, b, s);
    hide Phi, OpenPart, DrcPenalty, CompletionTerm, CleanTerm, CleanBoard, PhiWireVia, Value, SizeWeighted;
    Differ(k, log1p, b, s, k, b, s');
  }

  /** An open connection more costs its penalty; closing the last one pays the completion bonus as well. */
  lemma OpenConnectionCosts(k: Knobs, log1p: real -> real, b: Bound, s: RewardState)
    requires Usable(k) && Phi(k, log1p, b, s).Some?
    ensures s.unconnected > 0 ==> Gains(k, log1p, b, s, s.(unconnected := s.unconnected + 1), -k.unconnectedPenalty)
    ensures s.unconnected == 0 ==> Gains(k, log1p, b, s, s.(unconnected := 1), -k.unconnectedPenalty - b.completionBonus)
  {
    var s' := s.(unconnected := s.unconnected + 1);
    hide Phi;
    CopperDiffers(k, log1p, b, s, s');
    ConnectionPart(k, b, s);
    hide PhiWireVia, OpenPart;
  }

  lemma ConnectionPart(k: Knobs, b: Bound, s: RewardState)
    ensures var s' := s.(unconnected := s.unconnected + 1);
      && OpenPart(k, b, s') - OpenPart(k, b, s) == -k.unconnectedPenalty - (if s.unconnected == 0 then b.completionBonus else 0.0)
      && PhiWireVia(k, b, s') == PhiWireVia(k, b, s)
  {
    Times(-k.unconnectedPenalty, s.unconnected as real, 1.0);
    assert (s.unconnected + 1) as real == s.unconnected as real + 1.0;
  }

  /** A via costs its penalty, and wire its bound price by length. */
  lemma WireAndViasCost(k: Knobs, log1p: real -> real, b: Bound, s: RewardState, length: real)
    requires Usable(k) && Phi(k, log1p, b, s).Some?
    ensures Gains(k, log1p, b, s, s.(viaCount := s.viaCount + 1), -k.viaPenalty)
    ensures Gains(k, log1p, b, s, s.(wirelength := s.wirelength + length), -b.wirelengthPenalty * length)
  {
    hide Phi;
    CopperDiffers(k, log1p, b, s, s.(viaCount := s.viaCount + 1));
    CopperDiffers(k, log1p, b, s, s.(wirelength := s.wirelength + length));
    ViaPart(k, b, s);
    WirePart(k, b, s, length);
    hide PhiWireVia, OpenPart;
  }

  lemma ViaPart(k: Knobs, b: Bound, s: RewardState)
    ensures var s' := s.(viaCount := s.viaCount + 1);
      OpenPart(k, b, s') == OpenPart(k, b, s) && PhiWireVia(k, b, s') - PhiWireVia(k, b, s) == -k.viaPenalty
  {
    Times(k.viaPenalty, s.viaCount as real, 1.0);
    assert (s.viaCount + 1) as real == s.viaCount as real + 1.0;
  }

  lemma WirePart(k: Knobs, b: Bound, s: RewardState, length: real)
    ensures var s' := s.(wirelength := s.wirelength + length);
      OpenPart(k, b, s') == OpenPart(k, b, s) && PhiWireVia(k, b, s') - PhiWireVia(k, b, s) == -b.wirelengthPenalty * length
  {
    Times(b.wirelengthPenalty, s.wirelength, length);
    Times(-b.wirelengthPenalty, 0.0, length);
    var p, l := b.wirelengthPenalty, length;
    assert -p * l == -(p * l);
  }

  // --- the completion ladder --------------------------------------------------------------------------------------------

  /** A state that differs only in the nets it has connected. */
  lemma CompletionDiffers(k: Knobs, log1p: real -> real, b: Bound, s: RewardState, s': RewardState)
    requires Usable(k) && Phi(k, log1p, b, s).Some?
    requires s' == s.(connectedNetCount := s'.connectedNetCount, unconnectedNetCodes := s'.unconnectedNetCodes)
    requires CompletionTerm(k, b, s).Some? ==> CompletionTerm(k, b, s').Some?
    ensures Phi(k, log1p, b, s').Some?
    ensures Phi(k, log1p, b, s').value - Phi(k, log1p, b, s).value
            == Value(CompletionTerm(k, b, s')) - Value(CompletionTerm(k, b, s))
  {
    DrcUntouched(k, log1p, b, s, s');
    PhiIs(k, log1p, b, s);
    assert OpenPart(k, b, s') == OpenPart(k, b, s) && PhiWireVia(k, b, s') == PhiWireVia(k, b, s);
    hide Phi, OpenPart, DrcPenalty, CompletionTerm, CleanTerm, CleanBoard, PhiWireVia, Value, SizeWeighted;
    Differ(k, log1p, b, s, k, b, s');
  }

  /** In the flat ladder one more connected net pays the bonus. */
  lemma ConnectedNetPays(k: Knobs, log1p: real -> real, b: Bound, s: RewardState)
    requires Usable(k) && Flat(k) && Phi(k, log1p, b, s).Some? && s.connectedNetCount >= 0
    ensures Gains(k, log1p, b, s, s.(connectedNetCount := s.connectedNetCount + 1), k.netCompletionBonus)
  {
    var s' := s.(connectedNetCount := s.connectedNetCount + 1);
    hide Phi;
    CompletionDiffers(k, log1p, b, s, s');
    Times(k.netCompletionBonus, s.connectedNetCount as real, 1.0);
    assert s'.connectedNetCount as real == s.connectedNetCount as real + 1.0;
  }

  predicate DistinctCodes(w: seq<(int, real)>) { forall i, j | 0 <= i < j < |w| :: w[i].0 != w[j].0 }

  lemma {:induction false} ClosingOne(w: seq<(int, real)>, open: set<int>, c: int)
    requires DistinctCodes(w) && c in open
    ensures forall i | 0 <= i < |w| && w[i].0 == c :: OpenWeight(w, open - {c}) == OpenWeight(w, open) + w[i].1
    ensures (forall i | 0 <= i < |w| :: w[i].0 != c) ==> OpenWeight(w, open - {c}) == OpenWeight(w, open)
  {
    if w != [] {
      var init, last := w[..|w| - 1], w[|w| - 1];
      assert forall i | 0 <= i < |init| :: init[i] == w[i];
      ClosingOne(init, open, c);
    }
  }

  /** In the weighted ladder closing a net pays the bonus times the net's weight, and a net without one nothing. */
  lemma ClosedNetPays(k: Knobs, log1p: real -> real, b: Bound, s: RewardState, c: int)
    requires Usable(k) && !Flat(k) && Phi(k, log1p, b, s).Some?
    requires b.byCode.Some? && DistinctCodes(b.byCode.value) && s.unconnectedNetCodes.Some? && c in s.unconnectedNetCodes.value
    ensures var w, s' := b.byCode.value, s.(unconnectedNetCodes := Some(s.unconnectedNetCodes.value - {c}));
      && (forall i | 0 <= i < |w| && w[i].0 == c :: Gains(k, log1p, b, s, s', k.netCompletionBonus * w[i].1))
      && ((forall i | 0 <= i < |w| :: w[i].0 != c) ==> Gains(k, log1p, b, s, s', 0.0))
  {
    hide Phi, OpenWeight, DistinctCodes, Flat;
    var w, open := b.byCode.value, s.unconnectedNetCodes.value;
    ClosingOne(w, open, c);
    if i :| 0 <= i < |w| && w[i].0 == c {
      ClosedNetGains(k, log1p, b, s, c, w[i].1);
    } else {
      ClosedNetGains(k, log1p, b, s, c, 0.0);
      Congruent(k.netCompletionBonus, 0.0, 0.0);
    }
    forall i | 0 <= i < |w| && w[i].0 == c
      ensures Gains(k, log1p, b, s, s.(unconnectedNetCodes := Some(open - {c})), k.netCompletionBonus * w[i].1)
    {
      ClosedNetGains(k, log1p, b, s, c, w[i].1);
    }
  }

  lemma ClosedNetGains(k: Knobs, log1p: real -> real, b: Bound, s: RewardState, c: int, more: real)
    requires Usable(k) && !Flat(k) && Phi(k, log1p, b, s).Some? && b.byCode.Some? && s.unconnectedNetCodes.Some?
    requires var w, open := b.byCode.value, s.unconnectedNetCodes.value; OpenWeight(w, open - {c}) == OpenWeight(w, open) + more
    ensures Gains(k, log1p, b, s, s.(unconnectedNetCodes := Some(s.unconnectedNetCodes.value - {c})), k.netCompletionBonus * more)
  {
    hide *;
    var w, open := b.byCode.value, s.unconnectedNetCodes.value;
    var s' := s.(unconnectedNetCodes := Some(open - {c}));
    WeightedCompletionTerm(k, b, s);
    WeightedCompletionTerm(k, b, s');
    Distributes(k.netCompletionBonus, OpenWeight(w, open), more, OpenWeight(w, open - {c}));
    LadderGains(k, log1p, b, s, s', k.netCompletionBonus * more);
  }

  lemma LadderGains(k: Knobs, log1p: real -> real, b: Bound, s: RewardState, s': RewardState, gain: real)
    requires Usable(k) && Phi(k, log1p, b, s).Some?
    requires s' == s.(connectedNetCount := s'.connectedNetCount, unconnectedNetCodes := s'.unconnectedNetCodes)
    requires CompletionTerm(k, b, s).Some? && CompletionTerm(k, b, s').Some?
    requires CompletionTerm(k, b, s').value == CompletionTerm(k, b, s).value + gain
    ensures Gains(k, log1p, b, s, s', gain)
  {
    hide Phi, CompletionTerm;
    CompletionDiffers(k, log1p, b, s, s');
  }

  lemma WeightedCompletionTerm(k: Knobs, b: Bound, s: RewardState)
    requires !Flat(k) && b.byCode.Some? && s.unconnectedNetCodes.Some?
    ensures CompletionTerm(k, b, s).Some?
    ensures CompletionTerm(k, b, s).value == k.netCompletionBonus * OpenWeight(b.byCode.value, s.unconnectedNetCodes.value)
  {
    hide OpenWeight;
  }

  lemma Distributes(a: real, x: real, y: real, sum: real)
    requires sum == x + y
    ensures a * sum == a * x + a * y
  {
  }

  // --- the clean ladder -------------------------------------------------------------------------------------------------

  /** The violation counts the reward reads. */
  function PerNet(k: Knobs, s: RewardState): Counts {
    if k.severity == ErrorsOnly then s.drcErrorsPerNet
    else if k.severity == ErrorsAndPromoted then s.drcPromotedPerNet
    else s.drcViolationsPerNet
  }

  /** Φ without the clean ladder. */
  function NoCleanLadder(k: Knobs): Knobs { k.(netCleanBonus := 0.0) }

  lemma {:induction false} SamePenalties(k: Knobs, log1p: real -> real, per: Counts)
    requires Usable(k)
    ensures NetPenalties(NoCleanLadder(k), log1p, per) == NetPenalties(k, log1p, per)
  {
    if per != [] {
      SamePenalties(k, log1p, per[..|per| - 1]);
      SameNetTerm(k, log1p, per[|per| - 1].1 as real);
      hide NetTerm, NoCleanLadder;
    }
  }

  lemma SameNetTerm(k: Knobs, log1p: real -> real, x: real)
    requires Usable(k) && x >= 0.0
    ensures NetTerm(NoCleanLadder(k), log1p, x) == NetTerm(k, log1p, x)
  {
  }

  lemma SameButForCleanLadder(k: Knobs, log1p: real -> real, b: Bound, s: RewardState)
    requires Usable(k)
    ensures var k0 := NoCleanLadder(k);
      && DrcPenalty(k0, log1p, s) == DrcPenalty(k, log1p, s) && CleanBoard(k0, b, s) == CleanBoard(k, b, s)
      && OpenPart(k0, b, s) == OpenPart(k, b, s) && PhiWireVia(k0, b, s) == PhiWireVia(k, b, s)
      && SizeWeighted(k0) == SizeWeighted(k) && k0.netCompletionBonus == k.netCompletionBonus && k0.severity == k.severity
      && k0.netCleanBonus == 0.0 && Usable(k0)
  {
    SamePenalties(k, log1p, SeverityCounts(k, s).1);
    SameBoardTerm(k, log1p, |SeverityCounts(k, s).1| as real);
    hide NetPenalties, BoardTerm;
  }

  lemma SameBoardTerm(k: Knobs, log1p: real -> real, x: real)
    requires Usable(k) && x >= 0.0
    ensures BoardTerm(NoCleanLadder(k), log1p, x) == BoardTerm(k, log1p, x)
  {
  }

  /** What the clean ladder adds to Φ. */
  lemma CleanPart(k: Knobs, log1p: real -> real, b: Bound, s: RewardState)
    requires Usable(k) && Phi(k, log1p, b, s).Some?
    ensures Phi(NoCleanLadder(k), log1p, b, s).Some?
    ensures Phi(k, log1p, b, s).value - Phi(NoCleanLadder(k), log1p, b, s).value == Value(CleanTerm(k, b, s))
  {
    SameButForCleanLadder(k, log1p, b, s);
    hide Phi, OpenPart, DrcPenalty, CompletionTerm, CleanTerm, CleanBoard, PhiWireVia, NoCleanLadder, SizeWeighted;
    SameLadders(k, b, s, NoCleanLadder(k), b, s);
    LadderOff(NoCleanLadder(k), b, s);
    PhiIs(k, log1p, b, s);
    Differ(k, log1p, b, s, NoCleanLadder(k), b, s);
  }

  /** The named nets with a violation; orphan violations have no net. */
  predicate NamesDirty(per: Counts, i: int)
    requires 0 <= i < |per|
  {
    per[i].1 > 0 && per[i].0 != "<orphan>"
  }

  function Dirty(per: Counts): set<string> { set i | 0 <= i < |per| && NamesDirty(per, i) :: per[i].0 }

  lemma DirtyGrows(init: Counts, last: (string, nat))
    ensures Dirty(init + [last]) == if last.1 > 0 && last.0 != "<orphan>" then Dirty(init) + {last.0} else Dirty(init)
  {
    var per := init + [last];
    assert per[|init|] == last && forall i | 0 <= i < |init| :: per[i] == init[i] && NamesDirty(per, i) == NamesDirty(init, i);
    assert last.1 > 0 && last.0 != "<orphan>" <==> NamesDirty(per, |init|);
    forall n | n in Dirty(per) ensures n in Dirty(init) || (last.1 > 0 && last.0 != "<orphan>" && n == last.0) {
      var i :| 0 <= i < |per| && NamesDirty(per, i) && per[i].0 == n;
    }
    forall n | n in Dirty(init) ensures n in Dirty(per) {
      var i :| 0 <= i < |init| && NamesDirty(init, i) && init[i].0 == n;
      assert NamesDirty(per, i);
    }
  }

  lemma {:induction false} DirtyCount(per: Counts)
    requires DistinctNames(per)
    ensures DirtyNets(per) == |Dirty(per)|
  {
    if per != [] {
      var init, last := per[..|per| - 1], per[|per| - 1];
      assert forall i | 0 <= i < |init| :: init[i] == per[i];
      DirtyCount(init);
      DirtyGrows(init, last);
      assert per == init + [last];
      FreshName(init, last);
      hide Dirty, DistinctNames;
    }
  }

  lemma FreshName(init: Counts, last: (string, nat))
    requires DistinctNames(init + [last])
    ensures last.0 !in Dirty(init)
  {
    assert (init + [last])[|init|] == last && forall i | 0 <= i < |init| :: (init + [last])[i] == init[i];
  }

  /** The flat clean ladder pays its bonus for every target net without a violation. */
  lemma CleanLadderIs(k: Knobs, log1p: real -> real, b: Bound, s: RewardState)
    requires Usable(k) && Flat(k) && Phi(k, log1p, b, s).Some? && DistinctNames(PerNet(k, s))
    ensures Phi(NoCleanLadder(k), log1p, b, s).Some?
    ensures s.targetNetCount >= 0 ==>
      Phi(k, log1p, b, s).value - Phi(NoCleanLadder(k), log1p, b, s).value
      == k.netCleanBonus * (s.targetNetCount - |Dirty(PerNet(k, s))|) as real
  {
    CleanPart(k, log1p, b, s);
    PhiIs(k, log1p, b, s);
    if s.targetNetCount >= 0 { FlatCleanTerm(k, b, s); }
    hide Phi, CleanTerm, Dirty, PerNet, NoCleanLadder, DistinctNames, LadderDefined;
  }

  lemma FlatCleanTerm(k: Knobs, b: Bound, s: RewardState)
    requires Flat(k) && DistinctNames(PerNet(k, s)) && s.targetNetCount >= 0
    ensures CleanTerm(k, b, s).Some?
    ensures CleanTerm(k, b, s).value == k.netCleanBonus * (s.targetNetCount - |Dirty(PerNet(k, s))|) as real
  {
    assert SeverityCounts(k, s).1 == PerNet(k, s);
    DirtyCount(PerNet(k, s));
    hide SeverityCounts, Dirty, DirtyNets, PerNet, DistinctNames;
  }

  /** The weighted one pays it times the weight of the nets without a violation. */
  lemma WeightedCleanLadderIs(k: Knobs, log1p: real -> real, b: Bound, s: RewardState)
    requires Usable(k) && !Flat(k) && Phi(k, log1p, b, s).Some? && DistinctNames(PerNet(k, s))
    requires b.byCode.Some? && b.byName.Some? && DistinctNames(b.byName.value)
    ensures Phi(NoCleanLadder(k), log1p, b, s).Some?
    ensures Phi(k, log1p, b, s).value - Phi(NoCleanLadder(k), log1p, b, s).value
            == k.netCleanBonus * CleanWeight(b.byName.value, PerNet(k, s))
  {
    CleanPart(k, log1p, b, s);
    PhiIs(k, log1p, b, s);
    WeightedCleanTerm(k, b, s);
    hide Phi, PerNet, CleanTerm, CleanWeight, NoCleanLadder, DistinctNames, LadderDefined;
  }

  lemma WeightedCleanTerm(k: Knobs, b: Bound, s: RewardState)
    requires !Flat(k) && DistinctNames(PerNet(k, s)) && b.byCode.Some? && b.byName.Some? && DistinctNames(b.byName.value)
    ensures CleanTerm(k, b, s).Some? && CleanTerm(k, b, s).value == k.netCleanBonus * CleanWeight(b.byName.value, PerNet(k, s))
  {
    assert SeverityCounts(k, s).1 == PerNet(k, s);
    CleanIsTotalMinusDirty(b.byName.value, PerNet(k, s));
    Congruent(k.netCleanBonus, Total(b.byName.value) - DirtyWeight(b.byName.value, PerNet(k, s)),
              CleanWeight(b.byName.value, PerNet(k, s)));
    hide SeverityCounts, PerNet, CleanWeight, Total, DirtyWeight, DistinctNames;
  }

  lemma Congruent(a: real, x: real, y: real)
    requires x == y
    ensures a * x == a * y
  {
  }

  /** A state with other violation counts per net, as the severity reads them. */
  function WithPerNet(k: Knobs, s: RewardState, per: Counts): RewardState {
    if k.severity == ErrorsOnly then s.(drcErrorsPerNet := per)
    else if k.severity == ErrorsAndPromoted then s.(drcPromotedPerNet := per)
    else s.(drcViolationsPerNet := per)
  }

  /** One more net with violations. */
  function Dirtied(k: Knobs, s: RewardState, name: string, x: nat): RewardState {
    WithPerNet(k, s, PerNet(k, s) + [(name, x)])
  }

  lemma DirtiedCounts(k: Knobs, s: RewardState, name: string, x: nat)
    requires DistinctNames(PerNet(k, s) + [(name, x)])
    ensures PerNet(k, Dirtied(k, s, name, x)) == PerNet(k, s) + [(name, x)] && DistinctNames(PerNet(k, s))
    ensures Dirtied(k, s, name, x).targetNetCount == s.targetNetCount
    ensures forall i | 0 <= i < |PerNet(k, s)| :: PerNet(k, s)[i].0 != name
  {
    var per := PerNet(k, s);
    var more := per + [(name, x)];
    assert more[|per|] == (name, x) && forall i | 0 <= i < |per| :: more[i] == per[i];
    hide PerNet;
    assert DistinctNames(per);
    assert PerNet(k, Dirtied(k, s, name, x)) == more by { PerNetIs(k, s, more); }
  }

  lemma PerNetIs(k: Knobs, s: RewardState, per: Counts)
    ensures PerNet(k, WithPerNet(k, s, per)) == per
  {
  }

  /** What the flat clean ladder adds to Φ falls by its bonus when one more net has violations, and not at all for
      violations without a net. */
  lemma CleanNetPays(k: Knobs, log1p: real -> real, b: Bound, s: RewardState, name: string, x: nat)
    requires Usable(k) && Flat(k) && x > 0 && s.targetNetCount >= 0 && DistinctNames(PerNet(k, s) + [(name, x)])
    requires Phi(k, log1p, b, s).Some? && Phi(k, log1p, b, Dirtied(k, s, name, x)).Some?
    ensures var s', k0 := Dirtied(k, s, name, x), NoCleanLadder(k);
      && Phi(k0, log1p, b, s).Some? && Phi(k0, log1p, b, s').Some?
      && (Phi(k, log1p, b, s).value - Phi(k0, log1p, b, s).value) - (Phi(k, log1p, b, s').value - Phi(k0, log1p, b, s').value)
         == if name == "<orphan>" then 0.0 else k.netCleanBonus
  {
    hide *;
    var s' := Dirtied(k, s, name, x);
    DirtiedCounts(k, s, name, x);
    OneMoreDirty(PerNet(k, s), name, x);
    CleanLadderIs(k, log1p, b, s);
    CleanLadderIs(k, log1p, b, s');
    OneLess(k.netCleanBonus, s.targetNetCount - |Dirty(PerNet(k, s))|);
  }

  lemma OneMoreDirty(per: Counts, name: string, x: nat)
    requires x > 0 && forall i | 0 <= i < |per| :: per[i].0 != name
    ensures |Dirty(per + [(name, x)])| == |Dirty(per)| + if name == "<orphan>" then 0 else 1
  {
    DirtyGrows(per, (name, x));
    assert name !in Dirty(per);
  }

  lemma OneLess(a: real, n: int)
    ensures a * n as real - a * (n - 1) as real == a
  {
    assert (n - 1) as real == n as real - 1.0;
    Times(a, n as real, -1.0);
  }

  /** Weighted, it falls by the bonus times the net's weight. */
  lemma WeightedCleanNetPays(k: Knobs, log1p: real -> real, b: Bound, s: RewardState, name: string, x: nat)
    requires Usable(k) && !Flat(k) && x > 0 && DistinctNames(PerNet(k, s) + [(name, x)])
    requires b.byCode.Some? && b.byName.Some? && DistinctNames(b.byName.value)
    requires Phi(k, log1p, b, s).Some? && Phi(k, log1p, b, Dirtied(k, s, name, x)).Some?
    ensures var s', k0, w := Dirtied(k, s, name, x), NoCleanLadder(k), b.byName.value;
      && Phi(k0, log1p, b, s).Some? && Phi(k0, log1p, b, s').Some?
      && forall i | 0 <= i < |w| && w[i].0 == name ::
           (Phi(k, log1p, b, s).value - Phi(k0, log1p, b, s).value) - (Phi(k, log1p, b, s').value - Phi(k0, log1p, b, s').value)
           == k.netCleanBonus * w[i].1
  {
    hide *;
    var per, w := PerNet(k, s), b.byName.value;
    var s' := Dirtied(k, s, name, x);
    DirtiedCounts(k, s, name, x);
    OneMoreEntry(w, per, name, x);
    WeightedCleanLadderIs(k, log1p, b, s);
    WeightedCleanLadderIs(k, log1p, b, s');
    forall i | 0 <= i < |w| && w[i].0 == name
      ensures k.netCleanBonus * CleanWeight(w, per) == k.netCleanBonus * CleanWeight(w, per + [(name, x)]) + k.netCleanBonus * w[i].1
    {
      WeightIs(w, i);
      Distributes(k.netCleanBonus, CleanWeight(w, per + [(name, x)]), w[i].1, CleanWeight(w, per));
    }
  }

  /** Where the penalty counts violations and not nets, that is all of Φ's difference. */
  lemma CleanNetGains(k: Knobs, log1p: real -> real, b: Bound, s: RewardState, name: string, x: nat)
    requires Usable(k) && Flat(k) && k.drcShape.Linear? && x > 0 && s.targetNetCount >= 0
    requires DistinctNames(PerNet(k, s) + [(name, x)]) && Phi(k, log1p, b, s).Some?
    ensures Gains(k, log1p, b, Dirtied(k, s, name, x), s, if name == "<orphan>" then 0.0 else k.netCleanBonus)
  {
    var s' := Dirtied(k, s, name, x);
    assert DistinctNames(PerNet(k, s)) && DistinctNames(PerNet(k, s')) && s'.targetNetCount == s.targetNetCount by {
      DirtiedCounts(k, s, name, x);
    }
    LinearUntouched(k, log1p, s, name, x);
    CountUntouched(k, b, s, name, x);
    hide DistinctNames, Flat, Dirtied, Phi, PerNet, OpenPart, DrcPenalty, CleanTerm, CompletionTerm, CleanBoard, PhiWireVia, SizeWeighted;
    FlatCleanTerm(k, b, s);
    FlatCleanTerm(k, b, s');
    PhiIs(k, log1p, b, s);
    Differ(k, log1p, b, s, k, b, s');
    CleanNetPays(k, log1p, b, s, name, x);
    CleanPart(k, log1p, b, s);
    CleanPart(k, log1p, b, s');
  }

  lemma LinearUntouched(k: Knobs, log1p: real -> real, s: RewardState, name: string, x: nat)
    requires Usable(k) && k.drcShape.Linear?
    ensures DrcPenalty(k, log1p, Dirtied(k, s, name, x)) == DrcPenalty(k, log1p, s)
  {
    assert SeverityCounts(k, Dirtied(k, s, name, x)).0 == SeverityCounts(k, s).0;
    hide SeverityCounts, NetPenalties, BoardTerm;
  }

  lemma {:induction false} WeightIs(w: seq<(string, real)>, i: nat)
    requires DistinctNames(w) && i < |w|
    ensures WeightOf(w, w[i].0) == w[i].1
  {
    if i < |w| - 1 {
      assert w[..|w| - 1][i] == w[i];
      WeightIs(w[..|w| - 1], i);
    }
  }

  // --- violations -------------------------------------------------------------------------------------------------------

  /** The number of violations the reward reads. */
  function Violations(k: Knobs, s: RewardState): nat {
    if k.severity == ErrorsOnly then s.drcErrors else if k.severity == ErrorsAndPromoted then s.drcPromoted else s.drcViolations
  }

  /** A board without violations gets the clean-board bonus, any other none. */
  lemma CleanBoardPays(k: Knobs, log1p: real -> real, b: Bound, s: RewardState)
    requires Usable(k) && Phi(k, log1p, b, s).Some?
    ensures var b0 := b.(cleanCompletionBonus := 0.0);
      && Phi(k, log1p, b0, s).Some?
      && Phi(k, log1p, b, s).value - Phi(k, log1p, b0, s).value == if Violations(k, s) == 0 then b.cleanCompletionBonus else 0.0
  {
    var b0 := b.(cleanCompletionBonus := 0.0);
    assert Violations(k, s) == SeverityCounts(k, s).0;
    SameLadders(k, b, s, k, b0, s);
    assert OpenPart(k, b0, s) == OpenPart(k, b, s) && PhiWireVia(k, b0, s) == PhiWireVia(k, b, s);
    PhiIs(k, log1p, b, s);
    hide Phi, OpenPart, DrcPenalty, CompletionTerm, CleanTerm, PhiWireVia, SeverityCounts, Violations, SizeWeighted;
    Differ(k, log1p, b, s, k, b0, s);
  }

  /** The linear shape charges its penalty for every violation. */
  lemma LinearPenaltyIs(k: Knobs, log1p: real -> real, b: Bound, s: RewardState)
    requires Usable(k) && k.drcShape.Linear? && Phi(k, log1p, b, s).Some?
    ensures var k0 := k.(drcPenalty := 0.0);
      && Phi(k0, log1p, b, s).Some?
      && Phi(k, log1p, b, s).value - Phi(k0, log1p, b, s).value == -k.drcPenalty * Violations(k, s) as real
  {
    var k0 := k.(drcPenalty := 0.0);
    LinearPart(k, log1p, s);
    SameButForPenalty(k, b, s);
    SameLadders(k, b, s, k0, b, s);
    PhiIs(k, log1p, b, s);
    hide Phi, OpenPart, DrcPenalty, CompletionTerm, CleanTerm, PhiWireVia, CleanBoard, Violations, SizeWeighted;
    Differ(k, log1p, b, s, k0, b, s);
  }

  lemma LinearPart(k: Knobs, log1p: real -> real, s: RewardState)
    requires Usable(k) && k.drcShape.Linear?
    ensures DrcPenalty(k.(drcPenalty := 0.0), log1p, s) == 0.0
    ensures DrcPenalty(k, log1p, s) == -(-k.drcPenalty * Violations(k, s) as real)
  {
    var p, n := k.drcPenalty, Violations(k, s) as real;
    assert -p * n == -(p * n);
    hide NetPenalties, BoardTerm;
  }

  lemma SameButForPenalty(k: Knobs, b: Bound, s: RewardState)
    ensures var k0 := k.(drcPenalty := 0.0);
      && CleanBoard(k0, b, s) == CleanBoard(k, b, s) && OpenPart(k0, b, s) == OpenPart(k, b, s)
      && PhiWireVia(k0, b, s) == PhiWireVia(k, b, s) && SizeWeighted(k0) == SizeWeighted(k)
  {
  }

  /** The two curves of the penalty: saturating at `a`, half of it at `o`; and logarithmic. */
  function Saturated(a: real, o: real, x: nat): real
    requires o > 0.0
  {
    if x == 0 then 0.0 else a * x as real / (x as real + o)
  }

  function Logged(a: real, o: real, log1p: real -> real, x: nat): real
    requires o > 0.0
  {
    if x == 0 then 0.0 else a * log1p(x as real / o)
  }

  /** In the saturating and the logarithmic shape, with no clean ladder, one more net with x violations costs its own
      term and what the board's term grows by. */
  lemma DirtyNetCosts(k: Knobs, log1p: real -> real, b: Bound, s: RewardState, name: string, x: nat)
    requires Usable(k) && k.netCleanBonus == 0.0 && Phi(k, log1p, b, s).Some?
    ensures var s', n, o, l := Dirtied(k, s, name, x), |PerNet(k, s)|, k.saturationOffset, k.logOffset;
      && (k.drcShape.Saturating? ==>
            Gains(k, log1p, b, s, s', -(Saturated(k.perNetScale, o, x)
                                        + (Saturated(k.aggregateScale, o, n + 1) - Saturated(k.aggregateScale, o, n)))))
      && (k.drcShape.LogPerNet? ==>
            Gains(k, log1p, b, s, s', -(Logged(k.logScale, l, log1p, x)
                                        + (if k.logAggScale <= 0.0 then 0.0
                                           else Logged(k.logAggScale, l, log1p, n + 1) - Logged(k.logAggScale, l, log1p, n)))))
  {
    hide *;
    if !k.drcShape.Linear? {
      TermsArePaid(k, log1p, b, s, name, x);
    }
    NetTermIs(k, log1p, x);
    BoardTermIs(k, log1p, |PerNet(k, s)|);
    BoardTermIs(k, log1p, |PerNet(k, s)| + 1);
  }

  lemma NetTermIs(k: Knobs, log1p: real -> real, x: nat)
    requires Usable(k)
    ensures k.drcShape.Saturating? ==> NetTerm(k, log1p, x as real) == Saturated(k.perNetScale, k.saturationOffset, x)
    ensures k.drcShape.LogPerNet? ==> NetTerm(k, log1p, x as real) == Logged(k.logScale, k.logOffset, log1p, x)
  {
  }

  lemma BoardTermIs(k: Knobs, log1p: real -> real, x: nat)
    requires Usable(k)
    ensures k.drcShape.Saturating? ==> BoardTerm(k, log1p, x as real) == Saturated(k.aggregateScale, k.saturationOffset, x)
    ensures k.drcShape.LogPerNet? ==>
      BoardTerm(k, log1p, x as real) == if k.logAggScale <= 0.0 then 0.0 else Logged(k.logAggScale, k.logOffset, log1p, x)
  {
  }

  lemma TermsArePaid(k: Knobs, log1p: real -> real, b: Bound, s: RewardState, name: string, x: nat)
    requires Usable(k) && !k.drcShape.Linear? && k.netCleanBonus == 0.0 && Phi(k, log1p, b, s).Some?
    ensures var n := |PerNet(k, s)|;
      Gains(k, log1p, b, s, Dirtied(k, s, name, x),
            -(NetTerm(k, log1p, x as real) + (BoardTerm(k, log1p, (n + 1) as real) - BoardTerm(k, log1p, n as real))))
  {
    var s' := Dirtied(k, s, name, x);
    NetTermIsPaid(k, log1p, s, name, x);
    CountUntouched(k, b, s, name, x);
    LadderOff(k, b, s);
    LadderOff(k, b, s');
    PhiIs(k, log1p, b, s);
    hide Dirtied, Phi, PerNet, OpenPart, DrcPenalty, CleanTerm, CompletionTerm, CleanBoard, PhiWireVia, SizeWeighted, NetTerm, BoardTerm;
    Differ(k, log1p, b, s, k, b, s');
  }

  lemma NetTermIsPaid(k: Knobs, log1p: real -> real, s: RewardState, name: string, x: nat)
    requires Usable(k) && !k.drcShape.Linear?
    ensures var s', n := Dirtied(k, s, name, x), |PerNet(k, s)|;
      DrcPenalty(k, log1p, s') - DrcPenalty(k, log1p, s)
      == NetTerm(k, log1p, x as real) + (BoardTerm(k, log1p, (n + 1) as real) - BoardTerm(k, log1p, n as real))
  {
    var s', per := Dirtied(k, s, name, x), PerNet(k, s);
    PerNetIs(k, s, per + [(name, x)]);
    assert SeverityCounts(k, s).1 == per && SeverityCounts(k, s').1 == PerNet(k, s') == per + [(name, x)];
    assert (per + [(name, x)])[..|per|] == per;
    hide SeverityCounts, PerNet, NetTerm, BoardTerm, Dirtied;
  }

  lemma CountUntouched(k: Knobs, b: Bound, s: RewardState, name: string, x: nat)
    ensures var s' := Dirtied(k, s, name, x);
      && CleanBoard(k, b, s') == CleanBoard(k, b, s)
      && OpenPart(k, b, s') == OpenPart(k, b, s) && PhiWireVia(k, b, s') == PhiWireVia(k, b, s)
      && CompletionTerm(k, b, s').Some? == CompletionTerm(k, b, s).Some?
      && Value(CompletionTerm(k, b, s')) == Value(CompletionTerm(k, b, s))
  {
    var s' := Dirtied(k, s, name, x);
    SameLadders(k, b, s, k, b, s');
    assert SeverityCounts(k, s').0 == SeverityCounts(k, s).0;
    hide SeverityCounts, CompletionTerm, Value;
  }
}
