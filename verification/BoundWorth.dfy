/** What a bind makes of the board: the bonuses, the wire price and the weights that Φ then pays. */
module BoundWorth {
  import opened Decimal
  import opened IntSets
  import opened Rewards
  import opened PhiWorth

  /** The pad groups of the routable nets. */
  ghost function AllGroups(f: ResetFacts): nat
    requires AllGrouped(Ascending(f.routable), f.padGroups)
  {
    TotalGroups(Ascending(f.routable), f.padGroups)
  }

  /** A net's weight: by its pad groups when a linear scale is set, else by their logarithm. */
  function SizeOf(k: Knobs, log1p: real -> real, groups: nat): real {
    if k.sizeLinearScale > 0.0 then k.sizeLinearScale * groups as real else k.sizeLogScale * log1p(groups as real)
  }

  /** A bonus by the pad groups, else by the net count, else as configured. */
  function BonusOf(padScale: Option<real>, logScale: Option<real>, configured: real, groups: nat, log: real): real {
    if padScale.Some? then padScale.value * groups as real
    else if logScale.Some? then logScale.value * log
    else configured
  }

  /** A bound reward: each bonus at its own scale, and wire priced by the longer edge of the board. */
  lemma BoundAre(k: Knobs, log1p: real -> real, st: StaticFacts, f: ResetFacts)
    requires BindStatic(k, log1p, Unbound(k), st).1 && BindReset(k, log1p, BindStatic(k, log1p, Unbound(k), st).0, f).1
    ensures var b := BindReset(k, log1p, BindStatic(k, log1p, Unbound(k), st).0, f).0;
      var longer := if st.bboxW < st.bboxH then st.bboxH else st.bboxW;
      var groups := if AllGrouped(Ascending(f.routable), f.padGroups) then AllGroups(f) else 0;
      && b.completionBonus == BonusOf(k.completionPadScale, k.completionLogScale, k.completionBonus, groups, log1p(st.netCount as real))
      && b.cleanCompletionBonus == BonusOf(k.cleanPadScale, k.cleanLogScale, k.cleanCompletionBonus, groups, log1p(st.netCount as real))
      && (k.bboxNormalize ==> longer > 0.0 && b.wirelengthPenalty == k.wirelengthPenalty / longer)
      && (!k.bboxNormalize ==> b.wirelengthPenalty == k.wirelengthPenalty)
  {
    hide NamesOk, Weights, AllGrouped, TotalGroups;
  }

  /** The weights of a bind: every routable net once, by its code and by its own name. */
  ghost predicate Weighs(k: Knobs, log1p: real -> real, f: ResetFacts, b: Bound) {
    && b.byCode.Some? && b.byName.Some? && |b.byName.value| == |b.byCode.value|
    && DistinctCodes(b.byCode.value) && DistinctNames(b.byName.value)
    && (forall c | c in f.routable :: c in f.padGroups && c in f.netNames && (c, SizeOf(k, log1p, f.padGroups[c])) in b.byCode.value)
    && (forall i | 0 <= i < |b.byCode.value| ::
          && b.byCode.value[i].0 in f.routable && b.byCode.value[i].0 in f.netNames
          && b.byName.value[i] == (f.netNames[b.byCode.value[i].0], b.byCode.value[i].1))
  }

  lemma BindWeighs(k: Knobs, log1p: real -> real, b: Bound, f: ResetFacts)
    requires SizeWeighted(k) && BindReset(k, log1p, b, f).1
    ensures Weighs(k, log1p, f, BindReset(k, log1p, b, f).0)
  {
    hide Scaled, NamesDistinct, DistinctCodes, DistinctNames, SizeOf, NetWeight, Ascending;
    var b1, nets := BindReset(k, log1p, b, f).0, Ascending(f.routable);
    var codes := WeightsByCode(k, log1p, nets, f.padGroups);
    assert b1.byCode == Some(codes) && b1.byName == Some(WeightsByName(codes, f.netNames));
    hide BindReset, WeightsByCode, WeightsByName, Weights, SizeWeighted, BoardTotal;
    WeighsCodes(k, log1p, f, codes);
    WeighsNames(f, codes);
  }

  lemma SizeIs(k: Knobs, log1p: real -> real, g: nat)
    ensures NetWeight(k, log1p, g) == SizeOf(k, log1p, g)
  {
  }

  lemma WeighsCodes(k: Knobs, log1p: real -> real, f: ResetFacts, codes: seq<(int, real)>)
    requires AllGrouped(Ascending(f.routable), f.padGroups) && AllNamed(Ascending(f.routable), f.netNames)
    requires codes == WeightsByCode(k, log1p, Ascending(f.routable), f.padGroups)
    ensures DistinctCodes(codes)
    ensures forall c | c in f.routable :: c in f.padGroups && c in f.netNames && (c, SizeOf(k, log1p, f.padGroups[c])) in codes
    ensures forall i | 0 <= i < |codes| :: codes[i].0 in f.routable
  {
    var nets := Ascending(f.routable);
    forall c | c in f.routable
      ensures c in f.padGroups && c in f.netNames && (c, SizeOf(k, log1p, f.padGroups[c])) in codes
    {
      var i :| 0 <= i < |nets| && nets[i] == c;
      SizeIs(k, log1p, f.padGroups[c]);
      assert codes[i] == (c, NetWeight(k, log1p, f.padGroups[c]));
    }
    assert forall i | 0 <= i < |nets| :: nets[i] in f.routable;
    hide WeightsByCode, NetWeight, SizeOf, Ascending;
  }

  lemma WeighsNames(f: ResetFacts, codes: seq<(int, real)>)
    requires NamesOk(f) && |codes| == |Ascending(f.routable)|
    requires forall i | 0 <= i < |codes| :: codes[i].0 == Ascending(f.routable)[i] && codes[i].0 in f.netNames
    ensures DistinctNames(WeightsByName(codes, f.netNames))
  {
    hide Ascending;
  }

  /** In a bound reward with size weights, closing a net raises Φ by the completion bonus times the net's size. */
  lemma ClosedNetPaysItsSize(k: Knobs, log1p: real -> real, b: Bound, f: ResetFacts, s: RewardState, c: int)
    requires Usable(k) && SizeWeighted(k) && BindReset(k, log1p, b, f).1 && FromSnapshot(s)
    requires c in f.routable && c in s.unconnectedNetCodes.value
    ensures c in f.padGroups
    ensures Gains(k, log1p, BindReset(k, log1p, b, f).0, s, s.(unconnectedNetCodes := Some(s.unconnectedNetCodes.value - {c})),
                  k.netCompletionBonus * SizeOf(k, log1p, f.padGroups[c]))
  {
    hide BindReset, Phi, SizeOf, OpenWeight, DistinctCodes, Flat, SizeWeighted, FromSnapshot, Weighs, Usable;
    BindWeighs(k, log1p, b, f);
    BoundPhi(k, log1p, b, f, s);
    NotFlat(k);
    CodesRead(s);
    var b1 := BindReset(k, log1p, b, f).0;
    var i := WeightAt(k, log1p, f, b1, c);
    ClosingOne(b1.byCode.value, s.unconnectedNetCodes.value, c);
    ClosedNetGains(k, log1p, b1, s, c, SizeOf(k, log1p, f.padGroups[c]));
  }

  lemma BoundPhi(k: Knobs, log1p: real -> real, b: Bound, f: ResetFacts, s: RewardState)
    requires Usable(k) && BindReset(k, log1p, b, f).1 && FromSnapshot(s)
    ensures Phi(k, log1p, BindReset(k, log1p, b, f).0, s).Some?
  {
    PhiDefined(k, log1p, b, f, s);
  }

  lemma NotFlat(k: Knobs)
    ensures SizeWeighted(k) <==> !Flat(k)
  {
  }

  lemma CodesRead(s: RewardState)
    requires FromSnapshot(s)
    ensures s.unconnectedNetCodes.Some?
  {
  }

  lemma WeightAt(k: Knobs, log1p: real -> real, f: ResetFacts, b: Bound, c: int) returns (i: nat)
    requires Weighs(k, log1p, f, b) && c in f.routable
    ensures b.byCode.Some? && b.byName.Some? && DistinctCodes(b.byCode.value) && DistinctNames(b.byName.value)
    ensures c in f.padGroups && c in f.netNames && i < |b.byCode.value| == |b.byName.value|
    ensures b.byCode.value[i].0 == c && b.byCode.value[i].1 == SizeOf(k, log1p, f.padGroups[c])
    ensures b.byName.value[i].0 == f.netNames[c] && b.byName.value[i].1 == SizeOf(k, log1p, f.padGroups[c])
  {
    hide SizeOf, DistinctCodes, DistinctNames;
    i :| 0 <= i < |b.byCode.value| && b.byCode.value[i] == (c, SizeOf(k, log1p, f.padGroups[c]));
  }

  /** And a net of its own name that gets violations lowers what the clean ladder adds by the clean bonus times its
      size. */
  lemma DirtiedNetCostsItsSize(k: Knobs, log1p: real -> real, b: Bound, f: ResetFacts, s: RewardState, c: int, x: nat)
    requires Usable(k) && SizeWeighted(k) && BindReset(k, log1p, b, f).1 && FromSnapshot(s) && x > 0
    requires c in f.routable && c in f.netNames && DistinctNames(PerNet(k, s) + [(f.netNames[c], x)])
    ensures c in f.padGroups
    ensures var b1, s', k0 := BindReset(k, log1p, b, f).0, Dirtied(k, s, f.netNames[c], x), NoCleanLadder(k);
      && Phi(k, log1p, b1, s).Some? && Phi(k, log1p, b1, s').Some? && Phi(k0, log1p, b1, s).Some? && Phi(k0, log1p, b1, s').Some?
      && (Phi(k, log1p, b1, s).value - Phi(k0, log1p, b1, s).value) - (Phi(k, log1p, b1, s').value - Phi(k0, log1p, b1, s').value)
         == k.netCleanBonus * SizeOf(k, log1p, f.padGroups[c])
  {
    hide *;
    DirtiedIsRead(k, s, f.netNames[c], x);
    BindWeighs(k, log1p, b, f);
    BoundPhi(k, log1p, b, f, s);
    BoundPhi(k, log1p, b, f, Dirtied(k, s, f.netNames[c], x));
    NotFlat(k);
    var i := WeightAt(k, log1p, f, BindReset(k, log1p, b, f).0, c);
    WeightedCleanNetPays(k, log1p, BindReset(k, log1p, b, f).0, s, f.netNames[c], x);
  }

  lemma DirtiedIsRead(k: Knobs, s: RewardState, name: string, x: nat)
    ensures FromSnapshot(Dirtied(k, s, name, x)) == FromSnapshot(s)
  {
  }

  // --- the penalties that survive a truncation ---------------------------------------------------------------------------

  /** Φ with every bonus and every wire and via price left out. */
  lemma PenaltiesArePhi(k: Knobs, log1p: real -> real, b: Bound, s: RewardState)
    requires Usable(k)
    ensures var bare, unpaid := k.(netCompletionBonus := 0.0, netCleanBonus := 0.0, viaPenalty := 0.0),
                                b.(completionBonus := 0.0, cleanCompletionBonus := 0.0, wirelengthPenalty := 0.0);
      Phi(bare, log1p, unpaid, s) == Some(PotentialOf(k, log1p, b).penalties(s))
  {
    var bare, unpaid := k.(netCompletionBonus := 0.0, netCleanBonus := 0.0, viaPenalty := 0.0),
                        b.(completionBonus := 0.0, cleanCompletionBonus := 0.0, wirelengthPenalty := 0.0);
    BarePenalty(k, bare, log1p, s);
    assert PhiWireVia(bare, unpaid, s) == 0.0;
    hide DrcPenalty, PhiWireVia;
    assert Phi(bare, log1p, unpaid, s).Some? && Phi(bare, log1p, unpaid, s).value == PotentialOf(k, log1p, b).penalties(s);
  }

  lemma BarePenalty(k: Knobs, bare: Knobs, log1p: real -> real, s: RewardState)
    requires Usable(k) && bare == k.(netCompletionBonus := 0.0, netCleanBonus := 0.0, viaPenalty := 0.0)
    ensures DrcPenalty(bare, log1p, s) == DrcPenalty(k, log1p, s)
  {
    var per := SeverityCounts(k, s).1;
    BareNets(k, bare, log1p, per);
    BareTerms(k, bare, log1p, |per| as real);
    hide NetPenalties, BoardTerm;
  }

  lemma {:induction false} BareNets(k: Knobs, bare: Knobs, log1p: real -> real, per: Counts)
    requires Usable(k) && bare == k.(netCompletionBonus := 0.0, netCleanBonus := 0.0, viaPenalty := 0.0)
    ensures NetPenalties(bare, log1p, per) == NetPenalties(k, log1p, per)
  {
    if per != [] {
      BareNets(k, bare, log1p, per[..|per| - 1]);
      BareTerms(k, bare, log1p, per[|per| - 1].1 as real);
      hide NetTerm;
    }
  }

  lemma BareTerms(k: Knobs, bare: Knobs, log1p: real -> real, x: real)
    requires Usable(k) && bare == k.(netCompletionBonus := 0.0, netCleanBonus := 0.0, viaPenalty := 0.0) && x >= 0.0
    ensures NetTerm(bare, log1p, x) == NetTerm(k, log1p, x) && BoardTerm(bare, log1p, x) == BoardTerm(k, log1p, x)
  {
  }
}
