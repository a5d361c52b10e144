/** The pad-group routability of a routed board. */
module Routability {
  import opened Decimal
  import opened Dicts
  import opened Copper

  /** Pad-group counts by net code. */
  type Groups = Dict<int, nat>

  /** `routed.get(net, 0)` */
  function GroupsOf(routed: Groups, net: int): nat { match Get(routed, net) case None => 0 case Some(g) => g }

  function Required(initial: Groups): int {
    if initial == [] then 0 else Required(initial[..|initial| - 1]) + initial[|initial| - 1].1 - 1
  }

  function Made(initial: Groups, routed: Groups): int {
    if initial == [] then 0 else
      Made(initial[..|initial| - 1], routed) + initial[|initial| - 1].1 - GroupsOf(routed, initial[|initial| - 1].0)
  }

  predicate Regressed(initial: Groups, routed: Groups) {
    exists i :: 0 <= i < |initial| && GroupsOf(routed, initial[i].0) > initial[i].1
  }

  predicate Success(initial: Groups, routed: Groups) {
    forall i | 0 <= i < |initial| :: GroupsOf(routed, initial[i].0) == 1
  }

  /** None where the code refuses to score. */
  function Score(initial: Groups, routed: Groups): Option<real> {
    if Regressed(initial, routed) then None
    else if Required(initial) == 0 then Some(1.0)
    else Some(Made(initial, routed) as real / Required(initial) as real)
  }

  /** A net with pads has a pad group at least. */
  predicate Padded(initial: Groups) { forall i | 0 <= i < |initial| :: initial[i].1 >= 1 }

  /** The routed counts have every net. */
  predicate NoneMissing(initial: Groups, routed: Groups) { forall i | 0 <= i < |initial| :: GroupsOf(routed, initial[i].0) >= 1 }

  /** The pad groups left on the nets of the initial board. */
  function Left(initial: Groups, routed: Groups): nat {
    if initial == [] then 0 else Left(initial[..|initial| - 1], routed) + GroupsOf(routed, initial[|initial| - 1].0)
  }

  /** What was made exceeds what had to be made by the nets less the groups left on them. */
  lemma {:induction false} Balance(initial: Groups, routed: Groups)
    ensures Made(initial, routed) - Required(initial) == |initial| - Left(initial, routed)
  {
    if initial != [] { Balance(initial[..|initial| - 1], routed); }
  }

  lemma {:induction false} Bounds(initial: Groups, routed: Groups)
    requires Padded(initial) && !Regressed(initial, routed)
    ensures 0 <= Made(initial, routed) && 0 <= Required(initial)
    ensures NoneMissing(initial, routed) ==>
      Left(initial, routed) >= |initial| && (Left(initial, routed) == |initial| <==> Success(initial, routed))
    ensures NoneMissing(initial, routed) && Required(initial) == 0 ==> Success(initial, routed)
  {
    if initial != [] {
      var init, last := initial[..|initial| - 1], initial[|initial| - 1];
      assert forall i | 0 <= i < |init| :: init[i] == initial[i];
      Bounds(init, routed);
      assert GroupsOf(routed, last.0) <= last.1;
      assert Success(initial, routed) <==> Success(init, routed) && GroupsOf(routed, last.0) == 1;
      assert NoneMissing(initial, routed) <==> NoneMissing(init, routed) && GroupsOf(routed, last.0) >= 1;
    }
  }

  lemma Ratio(x: real, q: real)
    requires q > 0.0
    ensures (x * q <= q <==> x <= 1.0) && (x * q == q <==> x == 1.0) && (x * q >= 0.0 <==> x >= 0.0)
  {
    assert (x - 1.0) * q == x * q - q;
    if x > 1.0 { assert (x - 1.0) * q > 0.0; } else if x < 1.0 { assert (1.0 - x) * q > 0.0; }
  }

  lemma Fraction(made: int, required: int)
    requires 0 <= made && required > 0
    ensures 0.0 <= made as real / required as real
    ensures made as real / required as real <= 1.0 <==> made <= required
    ensures made as real / required as real == 1.0 <==> made == required
  {
    var x, q := made as real / required as real, required as real;
    assert x * q == made as real;
    Ratio(x, q);
  }

  /** What the code does on any counts, a missing net read as no group: the score is refused exactly on a
      regression and is never negative; it is at most 1 exactly when nothing had to be made or at least as
      many groups are left as there are nets; and it tells success exactly when no net is missing, or
      something had to be made and the groups left are not as many as the nets. */
  lemma ScoreExactly(initial: Groups, routed: Groups)
    requires Padded(initial)
    ensures Score(initial, routed).None? <==> Regressed(initial, routed)
    ensures Score(initial, routed).Some? ==> Score(initial, routed).value >= 0.0
    ensures Score(initial, routed).Some? ==>
      (Score(initial, routed).value <= 1.0 <==> Required(initial) == 0 || Left(initial, routed) >= |initial|)
    ensures Score(initial, routed).Some? ==>
      ((Score(initial, routed).value == 1.0 <==> Success(initial, routed))
       <==> NoneMissing(initial, routed) || (Required(initial) > 0 && Left(initial, routed) != |initial|))
  {
    if !Regressed(initial, routed) {
      Bounds(initial, routed);
      Balance(initial, routed);
      assert Success(initial, routed) ==> NoneMissing(initial, routed);
      if Required(initial) != 0 { Fraction(Made(initial, routed), Required(initial)); }
      hide Made, Required, Left, Regressed, Success, NoneMissing, Padded;
    }
  }

  /** So on counts that have every net the score lies in [0, 1], and it is 1 exactly on success. */
  lemma ScoreIsAFraction(initial: Groups, routed: Groups)
    requires Padded(initial) && NoneMissing(initial, routed)
    ensures Score(initial, routed).None? <==> Regressed(initial, routed)
    ensures Score(initial, routed).Some? ==>
      && 0.0 <= Score(initial, routed).value <= 1.0
      && (Score(initial, routed).value == 1.0 <==> Success(initial, routed))
  {
    ScoreExactly(initial, routed);
    if !Regressed(initial, routed) { Bounds(initial, routed); }
    hide Score, Left, Required, Success;
  }

  lemma OneNet(net: int, groups: nat, routed: Groups)
    ensures var initial: Groups := [(net, groups)];
      && Made(initial, routed) == groups - GroupsOf(routed, net) && Required(initial) == groups - 1
      && Left(initial, routed) == GroupsOf(routed, net)
  {
    var initial: Groups := [(net, groups)];
    assert initial[..0] == [] && initial[0] == (net, groups);
  }

  /** A missing net with two groups scores 2; one with a single group scores 1 without a success. */
  lemma MissingNetMisleads()
    ensures var initial: Groups := [(1, 2)]; Score(initial, []) == Some(2.0) && !Success(initial, [])
    ensures var initial: Groups := [(1, 1)]; Score(initial, []) == Some(1.0) && !Success(initial, [])
  {
    OneNet(1, 2, []);
    OneNet(1, 1, []);
    var one: Groups := [(1, 1)];
    var two: Groups := [(1, 2)];
    assert one[0] == (1, 1) && two[0] == (1, 2);
    hide Made, Required;
  }

  // --- on copper ------------------------------------------------------------------------------------------------------

  /** One net's copper: its items, how they touch, which are pads. */
  datatype Net = Net(items: nat, edges: Touches, pads: set<nat>)

  ghost predicate NetOk(x: Net) { InRange(x.items, x.edges) && x.pads != {} && forall p | p in x.pads :: p < x.items }

  ghost function GroupsIn(x: Net): nat
    requires NetOk(x)
  {
    PadGroups(x.items, x.edges, x.pads)
  }

  /** Routing a net adds touches and removes nothing. */
  ghost predicate Routes(x: Net, y: Net) {
    && y.items == x.items && y.pads == x.pads
    && |y.edges| >= |x.edges| && y.edges[..|x.edges|] == x.edges
  }

  /** The counts of a board before and after routing. */
  ghost predicate CountsOf(nets: seq<(int, Net)>, counts: Groups) {
    && |counts| == |nets|
    && forall i | 0 <= i < |nets| :: NetOk(nets[i].1) && counts[i] == (nets[i].0, GroupsIn(nets[i].1))
  }

  ghost predicate RoutesAll(before: seq<(int, Net)>, after: seq<(int, Net)>) {
    |after| == |before| && forall i | 0 <= i < |before| :: after[i].0 == before[i].0 && Routes(before[i].1, after[i].1)
  }

  lemma RoutingJoins(x: Net, y: Net)
    requires NetOk(x) && NetOk(y) && Routes(x, y)
    ensures 1 <= GroupsIn(y) <= GroupsIn(x)
  {
    var more := y.edges[|x.edges|..];
    assert y.edges == x.edges + more;
    forall k | 0 <= k < |more| ensures more[k].0 < x.items && more[k].1 < x.items { assert more[k] == y.edges[|x.edges| + k]; }
    AddedCopperOnlyJoins(x.items, x.edges, more, x.pads);
    AddedCopperOnlyJoins(x.items, x.edges, [], x.pads);
  }

  /** A board routed by adding copper is always scored, between 0 and 1, and 1 exactly when the pads of every
      net are connected. */
  lemma RoutedBoardIsScored(before: seq<(int, Net)>, after: seq<(int, Net)>, initial: Groups, routed: Groups)
    requires RoutesAll(before, after) && CountsOf(before, initial) && CountsOf(after, routed) && Keyed(routed)
    ensures Score(initial, routed).Some? && 0.0 <= Score(initial, routed).value <= 1.0
    ensures Score(initial, routed).value == 1.0 <==>
      forall i | 0 <= i < |after| :: forall p, q | p in after[i].1.pads && q in after[i].1.pads :: Connected(after[i].1.edges, p, q)
  {
    forall i | 0 <= i < |before|
      ensures 1 <= GroupsOf(routed, initial[i].0) <= initial[i].1
      ensures GroupsOf(routed, initial[i].0) == 1 <==>
        forall p, q | p in after[i].1.pads && q in after[i].1.pads :: Connected(after[i].1.edges, p, q)
    {
      EntryIsGot(routed, i);
      RoutingJoins(before[i].1, after[i].1);
      OneGroupIsWhole(after[i].1.items, after[i].1.edges, after[i].1.pads);
    }
    ScoreIsAFraction(initial, routed);
    hide Score, Connected, PadGroups;
  }

  // --- the destructive baseline -----------------------------------------------------------------------------------------

  /** A board one can delete from: the count, and what deleting the first item leaves (or a refusal). */
  datatype Deletable<!B> = Deletable(count: B -> nat, deleteFirst: B -> Option<B>)

  /** Deletions that take place lower the count, as far as it goes. */
  ghost predicate Stripped<B(!new)>(e: Deletable<B>, b: B, out: B) {
    e.count(out) == 0 && exists chain: seq<B> :: Chain(e, chain) && chain[0] == b && chain[|chain| - 1] == out
  }

  ghost predicate Chain<B(!new)>(e: Deletable<B>, chain: seq<B>) {
    chain != [] && forall i | 0 <= i < |chain| - 1 :: e.deleteFirst(chain[i]) == Some(chain[i + 1])
  }

  /** One loop of `_delete_all_tracks_vias`: it ends on every engine, with nothing left or a refusal, never
      spinning on an engine whose deletions do not lower the count. */
  method DeleteAll<B(!new)>(e: Deletable<B>, b: B) returns (out: Option<B>)
    ensures out.Some? ==> Stripped(e, b, out.value)
    ensures (forall x :: e.count(x) > 0 ==> e.deleteFirst(x).Some? && e.count(e.deleteFirst(x).value) < e.count(x)) ==> out.Some?
  {
    var now := b;
    var remaining := e.count(b);
    ghost var chain := [b];
    while remaining > 0
      invariant remaining == e.count(now)
      invariant Chain(e, chain) && chain[0] == b && chain[|chain| - 1] == now
      decreases remaining
    {
      var next := e.deleteFirst(now);
      if next.None? || e.count(next.value) >= remaining {
        return None;
      }
      ghost var longer := chain + [next.value];
      forall i | 0 <= i < |longer| - 1 ensures e.deleteFirst(longer[i]) == Some(longer[i + 1]) {
        if i < |chain| - 1 { assert e.deleteFirst(chain[i]) == Some(chain[i + 1]); }
      }
      chain := longer;
      now, remaining := next.value, e.count(next.value);
    }
    return Some(now);
  }
}
