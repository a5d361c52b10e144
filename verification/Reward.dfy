/** The potential-based reward: `PotentialReward`.  `log1p` is an arbitrary function on the reals;
    a Python dict summed over is a sequence of (key, value) pairs with distinct keys. */
module Rewards {
  import opened Decimal
  import opened IntSets

  datatype Severity = ErrorsOnly | ErrorsAndWarnings | ErrorsAndPromoted
  datatype DrcShape = Linear | Saturating | LogPerNet
  datatype Emission = PerStep | OnNetEnd
  datatype TruncationMode = NoReward | PenaltyOnly | FullReward

  type Counts = seq<(string, nat)>

  datatype RewardState = RewardState(
    unconnected: nat, wirelength: real, trackCount: nat, viaCount: nat,
    drcViolations: nat, drcViolationsPerNet: Counts, drcErrors: nat, drcErrorsPerNet: Counts,
    drcPromoted: nat, drcPromotedPerNet: Counts,
    connectedNetCount: int, targetNetCount: int, unconnectedNetCodes: Option<set<int>>)

  /** The constructor arguments: fixed for the object's life. */
  datatype Knobs = Knobs(
    completionBonus: real, unconnectedPenalty: real, wirelengthPenalty: real, bboxNormalize: bool,
    netCompletionBonus: real, netCleanBonus: real, cleanCompletionBonus: real,
    completionLogScale: Option<real>, completionPadScale: Option<real>,
    cleanLogScale: Option<real>, cleanPadScale: Option<real>,
    sizeLogScale: real, sizeLinearScale: real,
    drcShape: DrcShape, drcPenalty: real, aggregateScale: real, perNetScale: real, saturationOffset: real,
    logScale: real, logOffset: real, logAggScale: real, severity: Severity,
    viaPenalty: real, stepPenalty: real, emission: Emission, truncation: TruncationMode,
    jumanjiDense: bool, jumanjiFlat: bool, jumanjiWirelength: bool)

  /** What `bind_board` resolves. */
  datatype Bound = Bound(completionBonus: real, cleanCompletionBonus: real, wirelengthPenalty: real,
                         byCode: Option<seq<(int, real)>>, byName: Option<seq<(string, real)>>)

  datatype StaticFacts = StaticFacts(netCount: nat, bboxW: real, bboxH: real)
  datatype ResetFacts = ResetFacts(padGroups: map<int, nat>, netNames: map<int, string>, routable: set<int>)

  function Unbound(k: Knobs): Bound {
    Bound(k.completionBonus, k.cleanCompletionBonus, k.wirelengthPenalty, None, None)
  }

  // --- binding ------------------------------------------------------------------------------------

  predicate SizeWeighted(k: Knobs) { k.sizeLogScale > 0.0 || k.sizeLinearScale > 0.0 }

  predicate PadScaled(k: Knobs) { k.completionPadScale.Some? || k.cleanPadScale.Some? }

  function MaxR(a: real, b: real): real { if a < b then b else a }

  /** A bonus that is rescaled only when its scale is configured. */
  function Scaled(scale: Option<real>, x: real, was: real): real {
    if scale.Some? then scale.value * x else was
  }

  /** The static group.  A bad bounding box is refused after the bonuses were already overwritten. */
  function BindStatic(k: Knobs, log1p: real -> real, b: Bound, f: StaticFacts): (r: (Bound, bool)) {
    var l := log1p(f.netCount as real);
    var b1 := b.(completionBonus := Scaled(k.completionLogScale, l, b.completionBonus),
                 cleanCompletionBonus := Scaled(k.cleanLogScale, l, b.cleanCompletionBonus));
    if !k.bboxNormalize then (b1, true)
    else if MaxR(f.bboxW, f.bboxH) <= 0.0 then (b1, false)
    else (b1.(wirelengthPenalty := k.wirelengthPenalty / MaxR(f.bboxW, f.bboxH)), true)
  }

  predicate AllNamed(nets: seq<int>, names: map<int, string>) {
    forall i | 0 <= i < |nets| :: nets[i] in names
  }

  predicate NamesDistinct(nets: seq<int>, names: map<int, string>)
    requires AllNamed(nets, names)
  {
    forall i, j | 0 <= i < j < |nets| :: names[nets[i]] != names[nets[j]]
  }

  predicate AllGrouped(nets: seq<int>, groups: map<int, nat>) {
    forall i | 0 <= i < |nets| :: nets[i] in groups
  }

  function TotalGroups(nets: seq<int>, groups: map<int, nat>): nat
    requires AllGrouped(nets, groups)
  {
    if nets == [] then 0 else TotalGroups(nets[..|nets| - 1], groups) + groups[nets[|nets| - 1]]
  }

  function NetWeight(k: Knobs, log1p: real -> real, g: nat): real {
    if k.sizeLinearScale > 0.0 then k.sizeLinearScale * g as real else k.sizeLogScale * log1p(g as real)
  }

  function WeightsByCode(k: Knobs, log1p: real -> real, nets: seq<int>, groups: map<int, nat>): (w: seq<(int, real)>)
    requires AllGrouped(nets, groups)
    ensures |w| == |nets| && forall i | 0 <= i < |nets| :: w[i] == (nets[i], NetWeight(k, log1p, groups[nets[i]]))
  {
    seq(|nets|, i requires 0 <= i < |nets| => (nets[i], NetWeight(k, log1p, groups[nets[i]])))
  }

  function WeightsByName(byCode: seq<(int, real)>, names: map<int, string>): (w: seq<(string, real)>)
    requires forall i | 0 <= i < |byCode| :: byCode[i].0 in names
    ensures |w| == |byCode| && forall i | 0 <= i < |byCode| :: w[i] == (names[byCode[i].0], byCode[i].1)
  {
    seq(|byCode|, i requires 0 <= i < |byCode| => (names[byCode[i].0], byCode[i].1))
  }

  /** Every weighted net has a name. */
  lemma Namable(nets: seq<int>, names: map<int, string>, codes: seq<(int, real)>)
    requires AllNamed(nets, names) && |codes| == |nets| && forall i | 0 <= i < |nets| :: codes[i].0 == nets[i]
    ensures forall i | 0 <= i < |codes| :: codes[i].0 in names
  {
  }

  predicate AllPositive(w: seq<(int, real)>) {
    forall i | 0 <= i < |w| :: w[i].1 > 0.0
  }

  /** Every routable net has a name of its own. */
  predicate NamesOk(f: ResetFacts) {
    var nets := Ascending(f.routable);
    AllNamed(nets, f.netNames) && NamesDistinct(nets, f.netNames)
  }

  /** The board's pad groups, counted over the routable nets; None when a net has none. */
  function BoardTotal(f: ResetFacts): Option<nat> {
    var nets := Ascending(f.routable);
    if AllGrouped(nets, f.padGroups) then Some(TotalGroups(nets, f.padGroups)) else None
  }

  /** The ladder weights by code and by name; None when some weight is not positive. */
  function Weights(k: Knobs, log1p: real -> real, f: ResetFacts): Option<(seq<(int, real)>, seq<(string, real)>)>
    requires NamesOk(f) && BoardTotal(f).Some?
  {
    var byCode := WeightsByCode(k, log1p, Ascending(f.routable), f.padGroups);
    if AllPositive(byCode) then Some((byCode, WeightsByName(byCode, f.netNames))) else None
  }

  /** The per-reset group.  Names are checked before pad groups, the board bonuses are overwritten
      before the weights, and the weights are installed only when every one is positive. */
  function BindReset(k: Knobs, log1p: real -> real, b: Bound, f: ResetFacts): (r: (Bound, bool)) {
    if (SizeWeighted(k) || k.netCleanBonus != 0.0) && !NamesOk(f) then (b, false)
    else if !SizeWeighted(k) && !PadScaled(k) then (b, true)
    else match BoardTotal(f)
      case None => (b, false)
      case Some(total) =>
        var b1 := b.(completionBonus := Scaled(k.completionPadScale, total as real, b.completionBonus),
                     cleanCompletionBonus := Scaled(k.cleanPadScale, total as real, b.cleanCompletionBonus));
        if !SizeWeighted(k) then (b1, true)
        else match Weights(k, log1p, f)
          case None => (b1, false)
          case Some(w) => (b1.(byCode := Some(w.0), byName := Some(w.1)), true)
  }

  datatype BindCall = BindCall(st: Option<StaticFacts>, rs: Option<ResetFacts>)

  /** One `bind_board` call: the static phase, then (if it did not raise) the per-reset phase. */
  function Bind(k: Knobs, log1p: real -> real, b: Bound, c: BindCall): (r: (Bound, bool)) {
    if c.st.None? && c.rs.None? then (b, false) else
      var (b1, ok1) := if c.st.Some? then BindStatic(k, log1p, b, c.st.value) else (b, true);
      if !ok1 || c.rs.None? then (b1, ok1) else BindReset(k, log1p, b1, c.rs.value)
  }

  /** Any sequence of calls, failed ones included. */
  function BindAll(k: Knobs, log1p: real -> real, b: Bound, calls: seq<BindCall>): Bound {
    if calls == [] then b else Bind(k, log1p, BindAll(k, log1p, b, calls[..|calls| - 1]), calls[|calls| - 1]).0
  }

  // --- the potential -----------------------------------------------------------------------------------

  function SeverityCounts(k: Knobs, s: RewardState): (nat, Counts) {
    match k.severity
    case ErrorsAndWarnings => (s.drcViolations, s.drcViolationsPerNet)
    case ErrorsAndPromoted => (s.drcPromoted, s.drcPromotedPerNet)
    case ErrorsOnly => (s.drcErrors, s.drcErrorsPerNet)
  }

  /** One net's penalty, from its violation count. */
  function NetTerm(k: Knobs, log1p: real -> real, x: real): real
    requires x >= 0.0 && k.logOffset > 0.0 && k.saturationOffset > 0.0
  {
    if x == 0.0 then 0.0
    else if k.drcShape.LogPerNet? then k.logScale * log1p(x / k.logOffset)
    else k.perNetScale * x / (x + k.saturationOffset)
  }

  /** The board's penalty, from the number of offending nets. */
  function BoardTerm(k: Knobs, log1p: real -> real, x: real): real
    requires x >= 0.0 && k.logOffset > 0.0 && k.saturationOffset > 0.0
  {
    if x == 0.0 then 0.0
    else if !k.drcShape.LogPerNet? then k.aggregateScale * x / (x + k.saturationOffset)
    else if k.logAggScale > 0.0 then k.logAggScale * log1p(x / k.logOffset)
    else 0.0
  }

  function NetPenalties(k: Knobs, log1p: real -> real, per: Counts): real
    requires k.logOffset > 0.0 && k.saturationOffset > 0.0
  {
    if per == [] then 0.0
    else NetPenalties(k, log1p, per[..|per| - 1]) + NetTerm(k, log1p, per[|per| - 1].1 as real)
  }

  function DrcPenalty(k: Knobs, log1p: real -> real, s: RewardState): real
    requires k.logOffset > 0.0 && k.saturationOffset > 0.0
  {
    var (count, per) := SeverityCounts(k, s);
    if k.drcShape.Linear? then k.drcPenalty * count as real
    else BoardTerm(k, log1p, |per| as real) + NetPenalties(k, log1p, per)
  }

  function OpenWeight(w: seq<(int, real)>, open: set<int>): real {
    if w == [] then 0.0 else
      OpenWeight(w[..|w| - 1], open) + (if w[|w| - 1].0 !in open then w[|w| - 1].1 else 0.0)
  }

  function Total<K>(w: seq<(K, real)>): real {
    if w == [] then 0.0 else Total(w[..|w| - 1]) + w[|w| - 1].1
  }

  function WeightOf(w: seq<(string, real)>, name: string): real {
    if w == [] then 0.0 else if w[|w| - 1].0 == name then w[|w| - 1].1 else WeightOf(w[..|w| - 1], name)
  }

  /** The weight of the violating nets, as the code sums it: over the violation dict. */
  function DirtyWeight(w: seq<(string, real)>, per: Counts): real {
    if per == [] then 0.0 else
      DirtyWeight(w, per[..|per| - 1]) + (if per[|per| - 1].1 > 0 then WeightOf(w, per[|per| - 1].0) else 0.0)
  }

  const ORPHAN_NET := "<orphan>"

  function DirtyNets(per: Counts): nat {
    if per == [] then 0 else
      DirtyNets(per[..|per| - 1]) + (if per[|per| - 1].1 > 0 && per[|per| - 1].0 != ORPHAN_NET then 1 else 0)
  }

  /** The completion ladder; None where the code refuses. */
  function CompletionTerm(k: Knobs, b: Bound, s: RewardState): Option<real> {
    if k.netCompletionBonus == 0.0 then Some(0.0)
    else if SizeWeighted(k) then
      if b.byCode.None? || s.unconnectedNetCodes.None? then None
      else Some(k.netCompletionBonus * OpenWeight(b.byCode.value, s.unconnectedNetCodes.value))
    else if s.connectedNetCount < 0 then None
    else Some(k.netCompletionBonus * s.connectedNetCount as real)
  }

  function CleanTerm(k: Knobs, b: Bound, s: RewardState): Option<real> {
    var per := SeverityCounts(k, s).1;
    if k.netCleanBonus == 0.0 then Some(0.0)
    else if SizeWeighted(k) then
      if b.byName.None? || b.byCode.None? then None
      else Some(k.netCleanBonus * (Total(b.byName.value) - DirtyWeight(b.byName.value, per)))
    else if s.targetNetCount < 0 then None
    else Some(k.netCleanBonus * (s.targetNetCount - DirtyNets(per)) as real)
  }

  /** `_phi_main`; None where the code raises. */
  function PhiMain(k: Knobs, log1p: real -> real, b: Bound, s: RewardState): Option<real>
    requires k.logOffset > 0.0 && k.saturationOffset > 0.0
  {
    var base := -k.unconnectedPenalty * s.unconnected as real
                + (if s.unconnected == 0 then b.completionBonus else 0.0) - DrcPenalty(k, log1p, s);
    var ladder := k.netCompletionBonus != 0.0 || k.netCleanBonus != 0.0 || b.cleanCompletionBonus != 0.0;
    if !ladder then Some(base)
    else if SizeWeighted(k) && b.byCode.None? then None
    else if CompletionTerm(k, b, s).None? || CleanTerm(k, b, s).None? then None
    else Some(base + CompletionTerm(k, b, s).value + CleanTerm(k, b, s).value
              + (if b.cleanCompletionBonus != 0.0 && SeverityCounts(k, s).0 == 0 then b.cleanCompletionBonus else 0.0))
  }

  function PhiWireVia(k: Knobs, b: Bound, s: RewardState): real {
    -(b.wirelengthPenalty * s.wirelength + k.viaPenalty * s.viaCount as real)
  }

  function Phi(k: Knobs, log1p: real -> real, b: Bound, s: RewardState): Option<real>
    requires k.logOffset > 0.0 && k.saturationOffset > 0.0
  {
    match PhiMain(k, log1p, b, s) case None => None case Some(m) => Some(m + PhiWireVia(k, b, s))
  }

  // --- rewards of one step ------------------------------------------------------------------------

  /** A bound potential, as the environment consumes it: the two pieces of Φ, the part of Φ that
      survives a penalty-only truncation, and the bound wirelength price. */
  datatype Potential = Potential(main: RewardState -> real, wireVia: RewardState -> real,
                                 penalties: RewardState -> real, wirelengthPenalty: real)
  {
    function Phi(s: RewardState): real { main(s) + wireVia(s) }
  }

  predicate Jumanji(k: Knobs) { k.jumanjiDense || k.jumanjiFlat || k.jumanjiWirelength }

  function JumanjiDense(k: Knobs, p: Potential, before: RewardState, after: RewardState): real {
    var connected := (before.unconnected - after.unconnected) as real;
    if k.jumanjiWirelength then connected - p.wirelengthPenalty * (after.wirelength - before.wirelength)
    else if k.jumanjiFlat then connected - k.stepPenalty
    else connected - k.stepPenalty * before.unconnected as real
  }

  function ComputeDense(k: Knobs, p: Potential, before: RewardState, after: RewardState): real {
    if Jumanji(k) then JumanjiDense(k, p, before, after)
    else p.Phi(after) - p.Phi(before) - k.stepPenalty
  }

  /** The wire and via part is held back until a flush; the second component is the next reference. */
  function ComputeDenseNetEnd(k: Knobs, p: Potential, before: RewardState, after: RewardState,
                              reference: RewardState, flush: bool): (real, RewardState)
  {
    if Jumanji(k) then (ComputeDense(k, p, before, after), reference)
    else
      var reward := p.main(after) - p.main(before) - k.stepPenalty;
      if flush then (reward + (p.wireVia(after) - p.wireVia(reference)), after) else (reward, reference)
  }

  function ComputeTruncation(k: Knobs, p: Potential, s: RewardState): real {
    match k.truncation
    case NoReward => 0.0
    case PenaltyOnly => p.penalties(s)
    case FullReward => p.Phi(s)
  }

  // --- the object ------------------------------------------------------------------------------------------

  class PotentialReward {
    const k: Knobs
    const log1p: real -> real
    var completionBonus: real
    var cleanCompletionBonus: real
    var wirelengthPenalty: real
    var byCode: Option<seq<(int, real)>>
    var byName: Option<seq<(string, real)>>

    function Abs(): Bound
      reads this
    {
      Bound(completionBonus, cleanCompletionBonus, wirelengthPenalty, byCode, byName)
    }

    constructor (k: Knobs, log1p: real -> real)
      ensures this.k == k && this.log1p == log1p && Abs() == Unbound(k)
    {
      this.k, this.log1p := k, log1p;
      completionBonus, cleanCompletionBonus, wirelengthPenalty := k.completionBonus, k.cleanCompletionBonus, k.wirelengthPenalty;
      byCode, byName := None, None;
    }

    method SetNetSizeWeights(codes: seq<(int, real)>, names: seq<(string, real)>) returns (ok: bool)
      modifies this`byCode, this`byName
      ensures ok <==> |codes| == |names| && AllPositive(codes)
      ensures ok ==> byCode == Some(codes) && byName == Some(names)
      ensures !ok ==> byCode == old(byCode) && byName == old(byName)
    {
      if |codes| != |names| {
        return false;
      }
      for i := 0 to |codes|
        invariant AllPositive(codes[..i])
        invariant byCode == old(byCode) && byName == old(byName)
      {
        if !(codes[i].1 > 0.0) {
          return false;
        }
      }
      assert codes[..|codes|] == codes;
      byCode, byName := Some(codes), Some(names);
      ok := true;
    }

    method BindStaticGroup(netCount: nat, bboxW: real, bboxH: real) returns (ok: bool)
      modifies this
      ensures Abs() == BindStatic(k, log1p, old(Abs()), StaticFacts(netCount, bboxW, bboxH)).0
      ensures ok == BindStatic(k, log1p, old(Abs()), StaticFacts(netCount, bboxW, bboxH)).1
    {
      if k.completionLogScale.Some? {
        completionBonus := k.completionLogScale.value * log1p(netCount as real);
      }
      if k.cleanLogScale.Some? {
        cleanCompletionBonus := k.cleanLogScale.value * log1p(netCount as real);
      }
      ok := true;
      if k.bboxNormalize {
        var longEdge := MaxR(bboxW, bboxH);
        if longEdge <= 0.0 {
          ok := false;
        } else {
          wirelengthPenalty := k.wirelengthPenalty / longEdge;
        }
      }
      ghost var r := BindStatic(k, log1p, old(Abs()), StaticFacts(netCount, bboxW, bboxH)).0;
      assert completionBonus == r.completionBonus && wirelengthPenalty == r.wirelengthPenalty;
    }

    static method SumGroups(nets: seq<int>, padGroups: map<int, nat>) returns (total: nat)
      requires AllGrouped(nets, padGroups)
      ensures total == TotalGroups(nets, padGroups)
    {
      total := 0;
      for i := 0 to |nets|
        invariant AllGrouped(nets[..i], padGroups) && total == TotalGroups(nets[..i], padGroups)
      {
        assert nets[..i + 1][..i] == nets[..i];
        total := total + padGroups[nets[i]];
      }
      assert nets[..|nets|] == nets;
    }

    method BindResetGroup(padGroups: map<int, nat>, netNames: map<int, string>, routable: set<int>) returns (ok: bool)
      modifies this
      ensures Abs() == BindReset(k, log1p, old(Abs()), ResetFacts(padGroups, netNames, routable)).0
      ensures ok == BindReset(k, log1p, old(Abs()), ResetFacts(padGroups, netNames, routable)).1
    {
      hide Ascending, AllNamed, NamesDistinct, AllGrouped, TotalGroups, AllPositive, NetWeight;
      var nets := Ascending(routable);
      if SizeWeighted(k) || k.netCleanBonus != 0.0 {
        if !AllNamed(nets, netNames) {
          return false;
        }
        if !NamesDistinct(nets, netNames) {
          return false;
        }
      }
      if !SizeWeighted(k) && !PadScaled(k) {
        return true;
      }
      if !AllGrouped(nets, padGroups) {
        return false;
      }
      if PadScaled(k) {
        var total := SumGroups(nets, padGroups);
        if k.completionPadScale.Some? {
          completionBonus := k.completionPadScale.value * total as real;
        }
        if k.cleanPadScale.Some? {
          cleanCompletionBonus := k.cleanPadScale.value * total as real;
        }
      }
      ok := true;
      if SizeWeighted(k) {
        var codes := WeightsByCode(k, log1p, nets, padGroups);
        Namable(nets, netNames, codes);
        var names := WeightsByName(codes, netNames);
        hide WeightsByCode, WeightsByName;
        ok := SetNetSizeWeights(codes, names);
      }
    }

    /** `bind_board`: each keyword group is all or nothing, and one of them must be there. */
    method BindBoard(netCount: Option<nat>, bboxW: Option<real>, bboxH: Option<real>,
                     padGroups: Option<map<int, nat>>, netNames: Option<map<int, string>>, routable: Option<set<int>>)
      returns (ok: bool)
      modifies this
      ensures var whole := (netCount.Some? <==> bboxW.Some?) && (bboxW.Some? <==> bboxH.Some?)
                           && (padGroups.Some? <==> netNames.Some?) && (netNames.Some? <==> routable.Some?);
        var r :=
          if !whole then (old(Abs()), false)
          else Bind(k, log1p, old(Abs()),
                    BindCall(if netCount.Some? then Some(StaticFacts(netCount.value, bboxW.value, bboxH.value)) else None,
                             if padGroups.Some? then Some(ResetFacts(padGroups.value, netNames.value, routable.value)) else None));
        Abs() == r.0 && ok == r.1
    {
      hide BindStatic, BindReset;
      var st := (if netCount.Some? then 1 else 0) + (if bboxW.Some? then 1 else 0) + (if bboxH.Some? then 1 else 0);
      var rs := (if padGroups.Some? then 1 else 0) + (if netNames.Some? then 1 else 0) + (if routable.Some? then 1 else 0);
      if (st != 0 && st != 3) || (rs != 0 && rs != 3) {
        return false;
      }
      if st == 0 && rs == 0 {
        return false;
      }
      ok := true;
      if st == 3 {
        ok := BindStaticGroup(netCount.value, bboxW.value, bboxH.value);
      }
      if ok && rs == 3 {
        ok := BindResetGroup(padGroups.value, netNames.value, routable.value);
      }
    }
  }

  /** Per-reset calls in a row, refused ones included. */
  function ResetAll(k: Knobs, log1p: real -> real, b: Bound, resets: seq<ResetFacts>): Bound {
    if resets == [] then b else BindReset(k, log1p, ResetAll(k, log1p, b, resets[..|resets| - 1]), resets[|resets| - 1]).0
  }

  /** What no per-reset call touches, or none that is governed by these knobs. */
  ghost predicate SameButReset(k: Knobs, a: Bound, b: Bound) {
    && a.wirelengthPenalty == b.wirelengthPenalty
    && (k.completionPadScale.None? ==> a.completionBonus == b.completionBonus)
    && (k.cleanPadScale.None? ==> a.cleanCompletionBonus == b.cleanCompletionBonus)
    && (!SizeWeighted(k) ==> a.byCode == b.byCode && a.byName == b.byName)
    && (!SizeWeighted(k) && !PadScaled(k) ==> a == b)
  }

  lemma {:induction false} ResetsTouchTheirOwn(k: Knobs, log1p: real -> real, b: Bound, resets: seq<ResetFacts>)
    ensures SameButReset(k, ResetAll(k, log1p, b, resets), b)
  {
    if resets != [] { ResetsTouchTheirOwn(k, log1p, b, resets[..|resets| - 1]); }
    hide NamesOk, BoardTotal, Weights;
  }

  /** The environment binds the static group once and the per-reset group at every reset: after any earlier
      resets, refused ones included, a reset's bind succeeds and binds exactly as it would have as the first. */
  lemma ResetsLeaveNoTrace(k: Knobs, log1p: real -> real, b: Bound, resets: seq<ResetFacts>, f: ResetFacts)
    ensures BindReset(k, log1p, ResetAll(k, log1p, b, resets), f).1 == BindReset(k, log1p, b, f).1
    ensures BindReset(k, log1p, b, f).1 ==> BindReset(k, log1p, ResetAll(k, log1p, b, resets), f) == BindReset(k, log1p, b, f)
  {
    ResetsTouchTheirOwn(k, log1p, b, resets);
    hide NamesOk, BoardTotal, Weights, ResetAll;
  }

  // --- binding forgets the past --------------------------------------------------------------------------

  /** Fields no phase governs under these knobs still hold their constructor values. */
  ghost predicate UngovernedFresh(k: Knobs, b: Bound) {
    && (k.completionLogScale.None? && k.completionPadScale.None? ==> b.completionBonus == k.completionBonus)
    && (k.cleanLogScale.None? && k.cleanPadScale.None? ==> b.cleanCompletionBonus == k.cleanCompletionBonus)
    && (!k.bboxNormalize ==> b.wirelengthPenalty == k.wirelengthPenalty)
    && (!SizeWeighted(k) ==> b.byCode == None && b.byName == None)
  }

  lemma BindKeepsUngoverned(k: Knobs, log1p: real -> real, b: Bound, c: BindCall)
    requires UngovernedFresh(k, b)
    ensures UngovernedFresh(k, Bind(k, log1p, b, c).0)
  {
    hide NamesOk, BoardTotal, Weights;
  }

  lemma {:induction false} HistoryKeepsUngoverned(k: Knobs, log1p: real -> real, calls: seq<BindCall>)
    ensures UngovernedFresh(k, BindAll(k, log1p, Unbound(k), calls))
  {
    if calls != [] {
      HistoryKeepsUngoverned(k, log1p, calls[..|calls| - 1]);
      BindKeepsUngoverned(k, log1p, BindAll(k, log1p, Unbound(k), calls[..|calls| - 1]), calls[|calls| - 1]);
    }
  }

  /** A static bind and a per-reset bind that succeed leave the object exactly as they leave a fresh
      one, whatever was bound before, failed calls included: no board leaks into the next. */
  lemma BindingIsHistoryFree(k: Knobs, log1p: real -> real, calls: seq<BindCall>, st: StaticFacts, rs: ResetFacts)
    requires BindStatic(k, log1p, Unbound(k), st).1
    requires BindReset(k, log1p, BindStatic(k, log1p, Unbound(k), st).0, rs).1
    ensures var was := BindAll(k, log1p, Unbound(k), calls);
      && BindStatic(k, log1p, was, st).1
      && BindReset(k, log1p, BindStatic(k, log1p, was, st).0, rs)
         == BindReset(k, log1p, BindStatic(k, log1p, Unbound(k), st).0, rs)
  {
    HistoryKeepsUngoverned(k, log1p, calls);
    hide NamesOk, BoardTotal, Weights, BindAll;
  }

  ghost predicate AgreeOnRoutable(a: ResetFacts, b: ResetFacts) {
    && a.routable == b.routable
    && (forall c | c in a.routable :: (c in a.padGroups <==> c in b.padGroups) && (c in a.netNames <==> c in b.netNames))
    && (forall c | c in a.routable && c in a.padGroups :: a.padGroups[c] == b.padGroups[c])
    && (forall c | c in a.routable && c in a.netNames :: a.netNames[c] == b.netNames[c])
  }

  lemma {:induction false} SameTotal(nets: seq<int>, a: map<int, nat>, b: map<int, nat>)
    requires AllGrouped(nets, a) && AllGrouped(nets, b)
    requires forall i | 0 <= i < |nets| :: a[nets[i]] == b[nets[i]]
    ensures TotalGroups(nets, a) == TotalGroups(nets, b)
  {
    if nets != [] { SameTotal(nets[..|nets| - 1], a, b); }
  }

  lemma SameNamesAndTotals(a: ResetFacts, b: ResetFacts)
    requires AgreeOnRoutable(a, b)
    ensures NamesOk(a) == NamesOk(b) && BoardTotal(a) == BoardTotal(b)
  {
    var nets := Ascending(a.routable);
    assert forall i | 0 <= i < |nets| :: nets[i] in a.routable;
    if AllGrouped(nets, a.padGroups) {
      SameTotal(nets, a.padGroups, b.padGroups);
    }
  }

  lemma SameWeights(k: Knobs, log1p: real -> real, a: ResetFacts, b: ResetFacts)
    requires AgreeOnRoutable(a, b) && NamesOk(a) && NamesOk(b) && BoardTotal(a).Some? && BoardTotal(b).Some?
    ensures Weights(k, log1p, a) == Weights(k, log1p, b)
  {
    var nets := Ascending(a.routable);
    assert forall i | 0 <= i < |nets| :: nets[i] in a.routable;
    var codes := WeightsByCode(k, log1p, nets, a.padGroups);
    assert codes == WeightsByCode(k, log1p, nets, b.padGroups);
    if AllPositive(codes) {
      assert WeightsByName(codes, a.netNames) == WeightsByName(codes, b.netNames);
    }
  }

  /** The environment (target-scoped names) and the scorer (every net's name) bind the same reward
      when their pad groups and names agree on the routable nets. */
  lemma BindingIsRouteFree(k: Knobs, log1p: real -> real, b: Bound, env: ResetFacts, scorer: ResetFacts)
    requires AgreeOnRoutable(env, scorer)
    ensures BindReset(k, log1p, b, env) == BindReset(k, log1p, b, scorer)
  {
    SameNamesAndTotals(env, scorer);
    if NamesOk(env) && BoardTotal(env).Some? {
      SameWeights(k, log1p, env, scorer);
    }
    hide NamesOk, BoardTotal, Weights, AgreeOnRoutable, Scaled;
  }

  // --- what the ladder weights mean -------------------------------------------------------------------------

  ghost predicate DistinctNames<V>(w: seq<(string, V)>) {
    forall i, j | 0 <= i < j < |w| :: w[i].0 != w[j].0
  }

  lemma {:induction false} SameTotals(byCode: seq<(int, real)>, names: map<int, string>)
    requires forall i | 0 <= i < |byCode| :: byCode[i].0 in names
    ensures Total(WeightsByName(byCode, names)) == Total(byCode)
  {
    if byCode != [] {
      var init := byCode[..|byCode| - 1];
      SameTotals(init, names);
      assert WeightsByName(byCode, names)[..|byCode| - 1] == WeightsByName(init, names);
    }
  }

  predicate IsDirty(per: Counts, name: string) {
    exists i :: 0 <= i < |per| && per[i].0 == name && per[i].1 > 0
  }

  /** The weight of the nets without a violation. */
  ghost function CleanWeight(w: seq<(string, real)>, per: Counts): real {
    if w == [] then 0.0 else
      CleanWeight(w[..|w| - 1], per) + (if IsDirty(per, w[|w| - 1].0) then 0.0 else w[|w| - 1].1)
  }

  lemma {:induction false} NoViolations(w: seq<(string, real)>)
    ensures CleanWeight(w, []) == Total(w)
  {
    if w != [] { NoViolations(w[..|w| - 1]); }
  }

  lemma {:induction false} UnknownName(w: seq<(string, real)>, name: string)
    requires forall i | 0 <= i < |w| :: w[i].0 != name
    ensures WeightOf(w, name) == 0.0
  {
    if w != [] { UnknownName(w[..|w| - 1], name); }
  }

  /** One more violation entry makes exactly its own net dirty. */
  lemma {:induction false} OneMoreEntry(w: seq<(string, real)>, per: Counts, name: string, x: nat)
    requires DistinctNames(w) && forall i | 0 <= i < |per| :: per[i].0 != name
    ensures CleanWeight(w, per + [(name, x)]) == CleanWeight(w, per) - (if x > 0 then WeightOf(w, name) else 0.0)
  {
    if w != [] {
      var init, last := w[..|w| - 1], w[|w| - 1];
      var more := per + [(name, x)];
      OneMoreEntry(init, per, name, x);
      assert more[|per|] == (name, x);
      assert IsDirty(more, last.0) <==> IsDirty(per, last.0) || (last.0 == name && x > 0) by {
        if IsDirty(per, last.0) {
          var i :| 0 <= i < |per| && per[i].0 == last.0 && per[i].1 > 0;
          assert more[i] == per[i];
        }
        if IsDirty(more, last.0) {
          var i :| 0 <= i < |more| && more[i].0 == last.0 && more[i].1 > 0;
          if i < |per| { assert more[i] == per[i]; }
        }
      }
      if last.0 == name {
        UnknownName(init, name);
      }
    }
  }

  /** Total minus dirty, summed over two different dicts, is the weight of the clean nets. */
  lemma {:induction false} CleanIsTotalMinusDirty(w: seq<(string, real)>, per: Counts)
    requires DistinctNames(w) && DistinctNames(per)
    ensures Total(w) - DirtyWeight(w, per) == CleanWeight(w, per)
  {
    if per == [] {
      NoViolations(w);
    } else {
      var init, last := per[..|per| - 1], per[|per| - 1];
      CleanIsTotalMinusDirty(w, init);
      OneMoreEntry(w, init, last.0, last.1);
      assert per == init + [(last.0, last.1)];
    }
  }

  lemma {:induction false} CleanWeightNonNegative(w: seq<(string, real)>, per: Counts)
    requires forall i | 0 <= i < |w| :: w[i].1 > 0.0
    ensures 0.0 <= CleanWeight(w, per) <= Total(w)
  {
    if w != [] { CleanWeightNonNegative(w[..|w| - 1], per); }
  }

  /** After a successful weighted bind the code-keyed and the name-keyed weights have one total, and on
      every state the weighted clean term is the bonus times the weight of the nets without a
      violation: never negative, never above the total. */
  lemma WeightsAreSound(k: Knobs, log1p: real -> real, b: Bound, f: ResetFacts, s: RewardState)
    requires SizeWeighted(k) && BindReset(k, log1p, b, f).1 && DistinctNames(SeverityCounts(k, s).1)
    ensures var b1, per := BindReset(k, log1p, b, f).0, SeverityCounts(k, s).1;
      && b1.byCode.Some? && b1.byName.Some?
      && Total(b1.byCode.value) == Total(b1.byName.value)
      && Total(b1.byName.value) - DirtyWeight(b1.byName.value, per) == CleanWeight(b1.byName.value, per)
      && 0.0 <= CleanWeight(b1.byName.value, per) <= Total(b1.byName.value)
  {
    var b1, per, nets := BindReset(k, log1p, b, f).0, SeverityCounts(k, s).1, Ascending(f.routable);
    var codes := WeightsByCode(k, log1p, nets, f.padGroups);
    var names := WeightsByName(codes, f.netNames);
    assert b1.byCode == Some(codes) && b1.byName == Some(names);
    hide Ascending, BindReset;
    SameTotals(codes, f.netNames);
    assert DistinctNames(names);
    CleanIsTotalMinusDirty(names, per);
    CleanWeightNonNegative(names, per);
  }

  // --- the penalty and where the potential is defined ---------------------------------------------------

  ghost predicate NonNegativeDrc(k: Knobs, log1p: real -> real) {
    && k.drcPenalty >= 0.0 && k.aggregateScale >= 0.0 && k.perNetScale >= 0.0 && k.logScale >= 0.0
    && k.logOffset > 0.0 && k.saturationOffset > 0.0 && forall x | x >= 0.0 :: log1p(x) >= 0.0
  }

  lemma Product(a: real, x: real)
    requires a >= 0.0 && x >= 0.0
    ensures a * x >= 0.0
    ensures x <= 1.0 ==> a * x <= a
  {
  }

  lemma SaturatingFraction(a: real, x: real, o: real)
    requires a >= 0.0 && x >= 0.0 && o > 0.0
    ensures 0.0 <= a * x / (x + o) <= a
  {
    Product(a, x / (x + o));
    assert a * x / (x + o) == a * (x / (x + o));
  }

  lemma TermsBounded(k: Knobs, log1p: real -> real, x: real)
    requires NonNegativeDrc(k, log1p) && x >= 0.0
    ensures 0.0 <= NetTerm(k, log1p, x) && 0.0 <= BoardTerm(k, log1p, x)
    ensures !k.drcShape.LogPerNet? ==> NetTerm(k, log1p, x) <= k.perNetScale && BoardTerm(k, log1p, x) <= k.aggregateScale
  {
    if k.drcShape.LogPerNet? {
      var l := log1p(x / k.logOffset);
      assert l >= 0.0;
      Product(k.logScale, l);
      if k.logAggScale > 0.0 { Product(k.logAggScale, l); }
    } else {
      SaturatingFraction(k.perNetScale, x, k.saturationOffset);
      SaturatingFraction(k.aggregateScale, x, k.saturationOffset);
    }
  }

  lemma OneMore(a: real, n: nat)
    ensures a * (n + 1) as real == a * n as real + a
  {
    assert (n + 1) as real == n as real + 1.0;
  }

  lemma {:induction false} NetPenaltiesBounded(k: Knobs, log1p: real -> real, per: Counts)
    requires NonNegativeDrc(k, log1p)
    ensures 0.0 <= NetPenalties(k, log1p, per)
    ensures !k.drcShape.LogPerNet? ==> NetPenalties(k, log1p, per) <= k.perNetScale * |per| as real
  {
    if per != [] {
      NetPenaltiesBounded(k, log1p, per[..|per| - 1]);
      TermsBounded(k, log1p, per[|per| - 1].1 as real);
      OneMore(k.perNetScale, |per| - 1);
      hide NetTerm;
    }
  }

  /** The penalty is a magnitude, and the saturating shape never exceeds its aggregate scale plus one
      per-net scale for every offending net, however many violations there are. */
  lemma DrcPenaltyBounded(k: Knobs, log1p: real -> real, s: RewardState)
    requires NonNegativeDrc(k, log1p)
    ensures 0.0 <= DrcPenalty(k, log1p, s)
    ensures k.drcShape.Saturating? ==>
      DrcPenalty(k, log1p, s) <= k.aggregateScale + k.perNetScale * |SeverityCounts(k, s).1| as real
  {
    var (count, per) := SeverityCounts(k, s);
    hide NetTerm, BoardTerm, NetPenalties;
    if k.drcShape.Linear? {
      Product(k.drcPenalty, count as real);
    } else {
      NetPenaltiesBounded(k, log1p, per);
      TermsBounded(k, log1p, |per| as real);
    }
  }

  /** The per-net facts a snapshot of the live engine always carries. */
  predicate FromSnapshot(s: RewardState) {
    s.connectedNetCount >= 0 && s.targetNetCount >= 0 && s.unconnectedNetCodes.Some?
  }

  /** After a successful per-reset bind Φ is defined on every state read off the engine; before any
      bind it is undefined exactly when the size-weighted ladder is in use. */
  lemma PhiDefined(k: Knobs, log1p: real -> real, b: Bound, f: ResetFacts, s: RewardState)
    requires k.logOffset > 0.0 && k.saturationOffset > 0.0 && FromSnapshot(s)
    ensures BindReset(k, log1p, b, f).1 ==> Phi(k, log1p, BindReset(k, log1p, b, f).0, s).Some?
    ensures Phi(k, log1p, Unbound(k), s).None? <==>
      SizeWeighted(k) && (k.netCompletionBonus != 0.0 || k.netCleanBonus != 0.0 || k.cleanCompletionBonus != 0.0)
  {
    hide DrcPenalty, OpenWeight, DirtyWeight, Total, DirtyNets, Scaled, NamesOk, BoardTotal, Weights, SeverityCounts;
  }

  /** The potential of a bound object, total by reading an undefined Φ as 0 (`PhiDefined` says when). */
  function PotentialOf(k: Knobs, log1p: real -> real, b: Bound): Potential
    requires k.logOffset > 0.0 && k.saturationOffset > 0.0
  {
    Potential(
      (s: RewardState) => match PhiMain(k, log1p, b, s) { case None => 0.0 case Some(m) => m },
      (s: RewardState) => PhiWireVia(k, b, s),
      (s: RewardState) => -k.unconnectedPenalty * s.unconnected as real - DrcPenalty(k, log1p, s),
      b.wirelengthPenalty)
  }

  /** The reported breakdown of Φ (`_phi_components`). */
  datatype Components = Components(completion: real, unconnected: real, drc: real, wire: real, via: real)
  {
    function Total(): real { completion + unconnected + drc + wire + via }
  }

  function PhiComponents(k: Knobs, log1p: real -> real, b: Bound, s: RewardState): Components
    requires k.logOffset > 0.0 && k.saturationOffset > 0.0
  {
    Components(if s.unconnected == 0 then b.completionBonus else 0.0, -k.unconnectedPenalty * s.unconnected as real,
               -DrcPenalty(k, log1p, s), -b.wirelengthPenalty * s.wirelength, -k.viaPenalty * s.viaCount as real)
  }

  /** The breakdown leaves the ladder out: its total is Φ less the completion, clean and clean-board terms,
      so it is Φ exactly when those add up to zero. */
  lemma BreakdownLeavesTheLadderOut(k: Knobs, log1p: real -> real, b: Bound, s: RewardState)
    requires k.logOffset > 0.0 && k.saturationOffset > 0.0 && Phi(k, log1p, b, s).Some?
    ensures k.netCompletionBonus == 0.0 && k.netCleanBonus == 0.0 && b.cleanCompletionBonus == 0.0 ==>
      PhiComponents(k, log1p, b, s).Total() == Phi(k, log1p, b, s).value
    ensures k.netCompletionBonus != 0.0 || k.netCleanBonus != 0.0 || b.cleanCompletionBonus != 0.0 ==>
      && CompletionTerm(k, b, s).Some? && CleanTerm(k, b, s).Some?
      && Phi(k, log1p, b, s).value - PhiComponents(k, log1p, b, s).Total()
         == CompletionTerm(k, b, s).value + CleanTerm(k, b, s).value
            + (if b.cleanCompletionBonus != 0.0 && SeverityCounts(k, s).0 == 0 then b.cleanCompletionBonus else 0.0)
  {
    hide DrcPenalty, CompletionTerm, CleanTerm;
  }
}
