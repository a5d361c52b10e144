/** When an episode ends, what its end pays, and what a step shows, on the fields of the world and the results. */
module StepLaws {
  import opened Decimal
  import opened Masking
  import opened Rewards
  import opened IntSets
  import opened EnvSpec
  import opened SearchRuns
  import opened SearchInvariants
  import opened RewardLaw

  // --- what the mask grants ----------------------------------------------------------------------------------------------

  /** The action's number in the registry, by which a rule names it. */
  function NumberOf(a: Action): nat {
    if a.NetSelect? then 0 else if a.StartRoute? then 1 else if a.NetEnd? then 2 else if a.MakeLine? then 3
    else if a.MakeVia? then 4 else if a.Finish? then 5 else 6
  }

  /** A condition of a rule, read off the world. */
  predicate Met(c: Config, w: World, k: Condition) {
    match k
    case HasNet(flag) => w.net.Some? <==> flag
    case IsRouting(flag) => c.engine.routing(w.board) <==> flag
    case NetFullyConnected(flag) => (w.net.Some? && w.net.value !in c.engine.ratsnest(w.board)) <==> flag
    case StepCount(n) => w.steps == n
    case MaxSteps(n) => c.maxSteps == n
    case UnroutedCount(n) => c.engine.unrouted(w.board) == n
  }

  /** An action is granted by an entry of its own number whose conditions the world meets. */
  lemma GrantsAre(c: Config, w: World, a: Action)
    ensures Allowed(c, w, a) <==>
      exists k :: 0 <= k < |c.rule| && c.rule[k].action == NumberOf(a) && forall i | 0 <= i < |c.rule[k].conditions| :: Met(c, w, c.rule[k].conditions[i])
  {
    forall k | 0 <= k < |c.rule|
      ensures Matches(c.rule[k], Context(c, w)) <==> forall i | 0 <= i < |c.rule[k].conditions| :: Met(c, w, c.rule[k].conditions[i])
    {
      forall i | 0 <= i < |c.rule[k].conditions|
        ensures Holds(c.rule[k].conditions[i], Context(c, w)) <==> Met(c, w, c.rule[k].conditions[i])
      {
      }
      hide Holds, Met, Context;
    }
    assert Index(a) == NumberOf(a);
    hide Matches, Met, Context, NumberOf;
  }

  /** Under the shipped rule a net is selected when none is, a route starts for a net that is not finished, a net ends
      outside a session, lines and vias are made inside one, and nothing else is ever granted. */
  lemma ShippedGrants(c: Config, w: World, a: Action)
    requires c.rule == SHIPPED
    ensures Allowed(c, w, a) <==>
      match a
      case NetSelect(_) => w.net.None? && !c.engine.routing(w.board)
      case StartRoute(_, _, _) => w.net.Some? && !c.engine.routing(w.board) && w.net.value in c.engine.ratsnest(w.board)
      case NetEnd => w.net.Some? && !c.engine.routing(w.board)
      case MakeLine(_, _, _) => c.engine.routing(w.board)
      case MakeVia(_, _, _) => c.engine.routing(w.board)
      case Finish(_) => false
      case Idle(_) => false
  {
    var ctx := Context(c, w);
    assert Matches(SHIPPED[0], ctx) <==> !ctx.hasNet && !ctx.isRouting by { Pair(SHIPPED[0], ctx); }
    assert Matches(SHIPPED[2], ctx) <==> ctx.hasNet && !ctx.isRouting by { Pair(SHIPPED[2], ctx); }
    assert Matches(SHIPPED[1], ctx) <==> ctx.hasNet && !ctx.isRouting && !ctx.netFullyConnected by { Triple(SHIPPED[1], ctx); }
    assert Matches(SHIPPED[3], ctx) <==> ctx.isRouting by { Single(SHIPPED[3], ctx); }
    assert Matches(SHIPPED[4], ctx) <==> ctx.isRouting by { Single(SHIPPED[4], ctx); }
    hide Matches;
  }

  lemma Single(e: Entry, ctx: MaskContext)
    requires |e.conditions| == 1
    ensures Matches(e, ctx) <==> Holds(e.conditions[0], ctx)
  {
  }

  lemma Pair(e: Entry, ctx: MaskContext)
    requires |e.conditions| == 2
    ensures Matches(e, ctx) <==> Holds(e.conditions[0], ctx) && Holds(e.conditions[1], ctx)
  {
  }

  lemma Triple(e: Entry, ctx: MaskContext)
    requires |e.conditions| == 3
    ensures Matches(e, ctx) <==> Holds(e.conditions[0], ctx) && Holds(e.conditions[1], ctx) && Holds(e.conditions[2], ctx)
  {
  }

  // --- what an action does ----------------------------------------------------------------------------------------------

  /** A board without its open session. */
  function Dropped(e: Engine, b: Board): Board { if e.routing(b) then e.cancel(b) else b }

  /** The handlers: a net is selected only while it has open connections, a route starts only outside a session and on
      a layer of the board, a line or via is refused at a blocked pad, and a via also when none was placed; via placement does not
      outlive the action, and no session outlives a failure or a finish. */
  lemma HandlersAre(e: Engine, h: Hand, a: Action)
    ensures var (h', ok) := Dispatch(e, h, a);
      && (a.NetSelect? ==> (ok <==> a.netId in e.ratsnest(h.board)) && h' == if ok then h.(net := Some(a.netId)) else h)
      && (a.StartRoute? ==>
            && (ok ==> !e.routing(h.board) && 1 <= a.layer <= e.maxLayer && e.startRoute(h.board, a.x, a.y, a.layer).1)
            && (!e.routing(h.board) && 1 <= a.layer <= e.maxLayer ==>
                  h' == h.(board := e.startRoute(h.board, a.x, a.y, a.layer).0) && ok == e.startRoute(h.board, a.x, a.y, a.layer).1)
            && (e.routing(h.board) || !(1 <= a.layer <= e.maxLayer) ==> h' == h))
      && (a.NetEnd? ==> (ok <==> h.net.Some?) && h' == if ok then h.(net := None, board := e.connect(h.board)) else h)
      && (a.MakeLine? ==>
            && (e.padBlocked(h.board, a.x, a.y, false) ==> !ok && h' == h.(board := Dropped(e, h.board), mode := a.mode))
            && (!e.padBlocked(h.board, a.x, a.y, false) ==>
                  var (b, routed) := e.fixRoute(e.setMode(h.board, a.mode), a.x, a.y, false);
                  ok == routed && h' == h.(board := if routed then b else Dropped(e, b), mode := a.mode)))
      && (a.MakeVia? ==>
            && (e.padBlocked(h.board, a.x, a.y, true) ==> !ok && h' == h.(board := Dropped(e, h.board), mode := a.mode))
            && (!e.padBlocked(h.board, a.x, a.y, true) ==>
                  var ready := e.setMode(h.board, a.mode);
                  var (b, routed) := e.fixRoute(e.setViaPlacement(ready, true), a.x, a.y, true);
                  var left := if e.routing(b) then e.setViaPlacement(b, false) else b;
                  ok == (routed && e.viaCount(b) > e.viaCount(ready)) && h' == h.(board := if ok then left else Dropped(e, left), mode := a.mode)))
      && (a.Finish? ==>
            var (b, done) := e.finish(e.setMode(h.board, a.mode));
            ok == done && h' == h.(board := Dropped(e, b), mode := a.mode))
      && (a.Idle? ==> !ok && h' == h)
  {
  }

  /** The closed nets after the action. */
  function ClosedAfter(c: Config, w: World, a: Action): set<int> {
    if a.Idle? || !GrantedAt(c, w, a) || !Dispatch(c.engine, HandOf(w), a).1 then w.closed
    else if a.NetEnd? && w.net.Some? then w.closed + {w.net.value}
    else if a.NetSelect? && c.reselect then w.closed - {a.netId}
    else w.closed
  }

  /** What the first stages leave for the later ones. */
  lemma AfterAct(c: Config, w: World, a: Action)
    ensures var w1 := w.(steps := w.steps + 1); var w2 := Act(c, w1, a).0;
      && w2.closed == ClosedAfter(c, w, a) && w2.steps == w.steps + 1 && w2.history == w.history && w2.best == w.best
      && w2.tracking == w.tracking && w2.stagnation == w.stagnation && w2.prevUnrouted == w.prevUnrouted && w2.prev == w.prev
      && w2.store == w.store
  {
    var w1 := w.(steps := w.steps + 1);
    PerformIs(c, w1, a);
    assert HandOf(w1) == HandOf(w);
    hide Perform, Dispatch, Snapshot, Allowed, NoDrc, Committed, MovesCopper;
  }

  // --- when an episode ends ---------------------------------------------------------------------------------------------

  /** The best-board stage leaves the early-stop counters alone. */
  lemma BestKeepsCounters(c: Config, w: World, o: Outcome, ended: bool)
    ensures var w' := Best7(c, w, o, ended);
      w'.stagnation == w.stagnation && w'.prevUnrouted == w.prevUnrouted && w'.tracking == w.tracking
  {
    hide Snapshot, RollsBack, RestoredHistory;
  }

  lemma MoveCounters(c: Config, w: World, a: Action)
    ensures var (w2, o) := Act(c, w.(steps := w.steps + 1), a);
      var w3 := Stagnate(c, w2, o);
      var (w6, m) := Move(c, w, a);
      && m.outcome == o && w6.stagnation == w3.stagnation && w6.prevUnrouted == w3.prevUnrouted && w6.tracking == w3.tracking
      && m.terminated == Terminated(c, w3, o) && m.truncated == Truncated(c, w3)
  {
    hide Act, Stagnate, Terminated, Truncated, EndBoard, FinalState, Shaping, ComputeTruncation, Push, NetContext;
  }

  lemma StepCounters(c: Config, w: World, a: Action)
    ensures var (w2, o) := Act(c, w.(steps := w.steps + 1), a);
      var w3 := Stagnate(c, w2, o);
      var (w', s) := Step(c, w, a);
      && s.outcome == o && w'.stagnation == w3.stagnation && w'.prevUnrouted == w3.prevUnrouted && w'.tracking == w3.tracking
      && s.terminated == Terminated(c, w3, o) && s.truncated == Truncated(c, w3)
  {
    MoveCounters(c, w, a);
    var (w6, m) := Move(c, w, a);
    BestKeepsCounters(c, w6, m.outcome, m.Ended());
    hide Move, Act, Stagnate, Terminated, Truncated, RollsBack, Best7, Restore, Observe, OtherPenalty, FinalPotential;
  }

  /** An episode terminates when the board has no open connection left or every routable net is closed, and is truncated
      at the step limit or when the stagnation count has reached the patience. */
  lemma EndsWhen(c: Config, w: World, a: Action)
    ensures var (w', s) := Step(c, w, a);
      && (s.terminated <==>
            || (s.outcome.after.Some? && s.outcome.after.value.unconnected == 0)
            || (c.routable != {} && c.routable <= ClosedAfter(c, w, a)))
      && (s.truncated <==> w.steps + 1 >= c.maxSteps || (c.patience > 0 && w.tracking && w'.stagnation >= c.patience))
  {
    StepCounters(c, w, a);
    AfterAct(c, w, a);
    var (w2, o) := Act(c, w.(steps := w.steps + 1), a);
    assert Stagnate(c, w2, o).closed == ClosedAfter(c, w, a) && Stagnate(c, w2, o).steps == w.steps + 1;
    hide Step, Act, ClosedAfter, Stagnate;
  }

  // --- a committed run ---------------------------------------------------------------------------------------------------

  /** The world and the results after a committed action sequence. */
  function Ran(c: Config, w: World, actions: seq<Action>): (r: (World, seq<StepResult>))
    ensures |r.1| == |actions|
    decreases |actions|
  {
    if actions == [] then (w, []) else
      var (v, out) := Ran(c, w, actions[..|actions| - 1]);
      var (v', s) := Step(c, v.(tracking := true), actions[|actions| - 1]);
      (v', out + [s])
  }

  /** The open connections last seen: a refused action sees nothing. */
  function OpenAfter(start: int, out: seq<StepResult>): int {
    if out == [] then start
    else if out[|out| - 1].outcome.after.Some? then out[|out| - 1].outcome.after.value.unconnected
    else OpenAfter(start, out[..|out| - 1])
  }

  /** Result j left the open connections as they were. */
  predicate Quiet(start: int, out: seq<StepResult>, j: nat)
    requires j < |out|
  {
    OpenAfter(start, out[..j + 1]) == OpenAfter(start, out[..j])
  }

  /** The last p results left the open connections as they were. */
  predicate Still(start: int, out: seq<StepResult>, p: nat)
    requires p <= |out|
  {
    forall j | |out| - p <= j < |out| :: Quiet(start, out, j)
  }

  lemma StillGrows(start: int, out: seq<StepResult>, s: StepResult, p: nat)
    requires p <= |out|
    ensures Still(start, out + [s], p + 1) <==> Still(start, out, p) && OpenAfter(start, out + [s]) == OpenAfter(start, out)
  {
    var more := out + [s];
    forall j | 0 <= j < |out| ensures Quiet(start, more, j) <==> Quiet(start, out, j) {
      assert more[..j] == out[..j] && more[..j + 1] == out[..j + 1];
    }
    assert more[..|out|] == out && more[..|out| + 1] == more;
    assert Quiet(start, more, |out|) <==> OpenAfter(start, more) == OpenAfter(start, out);
    hide OpenAfter, Quiet;
  }

  lemma OneMoreResult(start: int, out: seq<StepResult>, s: StepResult)
    ensures OpenAfter(start, out + [s]) == if s.outcome.after.Some? then s.outcome.after.value.unconnected else OpenAfter(start, out)
  {
    assert (out + [s])[..|out|] == out;
  }

  lemma StagnationStep(c: Config, w: World, a: Action)
    requires c.patience > 0 && w.tracking
    ensures var (w', s) := Step(c, w, a);
      var seen := if s.outcome.after.Some? then s.outcome.after.value.unconnected else w.prevUnrouted;
      w'.prevUnrouted == seen && w'.stagnation == if seen == w.prevUnrouted then w.stagnation + 1 else 0
  {
    StepCounters(c, w, a);
    AfterAct(c, w, a);
    hide Step, Act, Terminated, Truncated, ClosedAfter;
  }

  /** The stagnation count of a run is the number of its last steps that left the open connections as they were. */
  lemma {:induction false} StagnationCounts(c: Config, w: World, actions: seq<Action>)
    requires c.patience > 0 && w.stagnation == 0
    ensures var (v, out) := Ran(c, w, actions);
      && v.prevUnrouted == OpenAfter(w.prevUnrouted, out)
      && 0 <= v.stagnation <= |out|
      && forall p: nat | p <= |out| :: v.stagnation >= p <==> Still(w.prevUnrouted, out, p)
    decreases |actions|
  {
    if actions != [] {
      var init, last := actions[..|actions| - 1], actions[|actions| - 1];
      StagnationCounts(c, w, init);
      var (v, out) := Ran(c, w, init);
      var (v', s) := Step(c, v.(tracking := true), last);
      StagnationStep(c, v.(tracking := true), last);
      hide Step, Still;
      OneMoreResult(w.prevUnrouted, out, s);
      StillAll(w.prevUnrouted, out, s, v.stagnation, v'.stagnation);
    }
  }

  lemma StillAll(start: int, out: seq<StepResult>, s: StepResult, was: int, now: int)
    requires 0 <= was <= |out| && forall p: nat | p <= |out| :: was >= p <==> Still(start, out, p)
    requires now == if OpenAfter(start, out + [s]) == OpenAfter(start, out) then was + 1 else 0
    ensures forall p: nat | p <= |out| + 1 :: now >= p <==> Still(start, out + [s], p)
  {
    forall p: nat | p <= |out| + 1
      ensures now >= p <==> Still(start, out + [s], p)
    {
      if p > 0 {
        StillGrows(start, out, s, p - 1);
      } else {
        NothingMoved(start, out + [s]);
      }
      hide Still, OpenAfter;
    }
  }

  lemma NothingMoved(start: int, out: seq<StepResult>)
    ensures Still(start, out, 0)
  {
  }

  /** An episode without rollbacks is truncated at the step limit, or, with a patience, exactly when its last `patience`
      committed steps left the open connections as they were. */
  lemma TruncatedExactly(c: Config, live: Board, handle: int, actions: seq<Action>)
    requires actions != []
    ensures var w := Reset(c, live, handle);
      var before, (v, out) := Ran(c, w, actions[..|actions| - 1]).0, Ran(c, w, actions);
      out[|out| - 1].truncated <==>
        || before.steps + 1 >= c.maxSteps
        || (c.patience > 0 && c.patience <= |out| && Still(w.prevUnrouted, out, c.patience))
  {
    hide *;
    var w := Reset(c, live, handle);
    StartsFresh(c, live, handle);
    LastTruncated(c, w, actions);
    if c.patience > 0 {
      StagnationCounts(c, w, actions);
    }
  }

  lemma StartsFresh(c: Config, live: Board, handle: int)
    ensures Reset(c, live, handle).stagnation == 0
  {
    hide ResetBoard;
  }

  lemma LastTruncated(c: Config, w: World, actions: seq<Action>)
    requires actions != []
    ensures var before, (v, out) := Ran(c, w, actions[..|actions| - 1]).0, Ran(c, w, actions);
      out[|out| - 1].truncated <==> before.steps + 1 >= c.maxSteps || (c.patience > 0 && v.stagnation >= c.patience)
  {
    var before := Ran(c, w, actions[..|actions| - 1]).0;
    RanExtends(c, w, actions);
    hide Ran, Step, ClosedAfter;
    EndsWhen(c, before.(tracking := true), actions[|actions| - 1]);
  }

  // --- what the end pays --------------------------------------------------------------------------------------------------

  /** The reward state at the end of a terminal-mode episode: what the step saw, with the violations of a DRC run on the
      board it leaves, as the severity counts them. */
  ghost predicate EndsIn(c: Config, w: World, a: Action, last: RewardState) {
    var s, b := Step(c, w, a).1, Move(c, w, a).0.board;
    var seen := if s.outcome.after.Some? then s.outcome.after.value else NoDrc(c.engine.read(b));
    && last == seen.(drcViolations := last.drcViolations, drcViolationsPerNet := last.drcViolationsPerNet,
                     drcErrors := last.drcErrors, drcErrorsPerNet := last.drcErrorsPerNet,
                     drcPromoted := last.drcPromoted, drcPromotedPerNet := last.drcPromotedPerNet)
    && SeverityCounts(c.knobs, last) == if c.drcActive then SeverityCounts(c.knobs, c.engine.read(b)) else (0, [])
  }

  lemma FinalStateIs(c: Config, b: Board, o: Outcome)
    ensures var last, seen := FinalState(c, b, o), if o.after.Some? then o.after.value else NoDrc(c.engine.read(b));
      && last == seen.(drcViolations := last.drcViolations, drcViolationsPerNet := last.drcViolationsPerNet,
                       drcErrors := last.drcErrors, drcErrorsPerNet := last.drcErrorsPerNet,
                       drcPromoted := last.drcPromoted, drcPromotedPerNet := last.drcPromotedPerNet)
      && SeverityCounts(c.knobs, last) == if c.drcActive then SeverityCounts(c.knobs, c.engine.read(b)) else (0, [])
  {
  }

  /** The step's move: what it pays and the state it ends in. */
  lemma MovePays(c: Config, w: World, a: Action)
    ensures var (w6, m) := Move(c, w, a); var s := Step(c, w, a).1;
      && s.outcome == m.outcome && s.potentialDiff == m.diff && s.terminated == m.terminated && s.truncated == m.truncated
      && s.finalPotential == FinalPotential(c, w6, m) && s.rolledBack == RollsBack(c, w6, m.outcome, m.Ended())
      && m.final == FinalState(c, w6.board, m.outcome)
      && (!c.perStep ==> m.diff == if m.terminated then c.potential.Phi(m.final)
                                   else if m.truncated then ComputeTruncation(c.knobs, c.potential, m.final) else 0.0)
      && w6.best == w.best && w6.tracking == w.tracking
  {
    AfterAct(c, w, a);
    hide Act, Best7, RollsBack, Observe, Restore, OtherPenalty, FinalState, EndBoard, ComputeTruncation, Shaping, Push, Terminated, Truncated,
         ClosedAfter;
  }

  /** In terminal mode a step pays nothing until the end; there a termination pays Φ of the board it ends in, and a
      truncation nothing, the penalties, or all of Φ, as configured. */
  lemma TerminalPays(c: Config, w: World, a: Action)
    requires !c.perStep
    ensures var s, last := Step(c, w, a).1, Move(c, w, a).1.final;
      && EndsIn(c, w, a, last)
      && s.potentialDiff == if s.terminated then c.potential.Phi(last)
                            else if !s.truncated || c.knobs.truncation == NoReward then 0.0
                            else if c.knobs.truncation == PenaltyOnly then c.potential.penalties(last)
                            else c.potential.Phi(last)
  {
    MovePays(c, w, a);
    FinalStateIs(c, Move(c, w, a).0.board, Move(c, w, a).1.outcome);
    hide Step, Move, FinalState, FinalPotential, RollsBack, NoDrc, SeverityCounts;
  }

  /** The potential reported at the end: the kept board's after a rollback, else Φ of the state the last action left, or
      where it was refused, or in terminal mode, Φ of the board with its end DRC run. */
  lemma EndReports(c: Config, w: World, a: Action)
    ensures var s, last := Step(c, w, a).1, Move(c, w, a).1.final;
      && EndsIn(c, w, a, last)
      && (s.finalPotential.Some? <==> s.terminated || s.truncated)
      && (s.rolledBack ==> w.best.Some? && s.finalPotential == Some(w.best.value.phi))
      && ((s.terminated || s.truncated) && !s.rolledBack ==>
            s.finalPotential == Some(c.potential.Phi(if c.perStep && s.outcome.after.Some? then s.outcome.after.value else last)))
      && (s.rolledBack <==>
            && c.outputBest && w.tracking && s.outcome.after.Some? && (s.terminated || s.truncated) && w.best.Some?
            && c.potential.Phi(s.outcome.after.value) < w.best.value.phi - 0.000000001)
  {
    MovePays(c, w, a);
    FinalStateIs(c, Move(c, w, a).0.board, Move(c, w, a).1.outcome);
    hide Step, Move, FinalState, NoDrc, SeverityCounts;
  }

  /** The jumanji baselines pay the connections a carried-out action closed, less the wire it added, a flat step price, or
      a step price for every connection that was open. */
  lemma JumanjiPays(c: Config, w: World, a: Action)
    requires c.perStep && Jumanji(c.knobs) && Step(c, w, a).1.outcome.after.Some?
    ensures var s, k := Step(c, w, a).1, c.knobs;
      var after := s.outcome.after.value;
      var closed := (w.prev.unconnected - after.unconnected) as real;
      s.potentialDiff - k.stepPenalty
      == if k.jumanjiWirelength then closed - c.potential.wirelengthPenalty * (after.wirelength - w.prev.wirelength)
         else if k.jumanjiFlat then closed - k.stepPenalty
         else closed - k.stepPenalty * w.prev.unconnected as real
  {
    hide *;
    MovePays(c, w, a);
    JumanjiMove(c, w, a);
    JumanjiDenseIs(c.knobs, c.potential, w.prev, Step(c, w, a).1.outcome.after.value);
  }

  lemma JumanjiDenseIs(k: Knobs, p: Potential, before: RewardState, after: RewardState)
    ensures var closed := (before.unconnected - after.unconnected) as real;
      JumanjiDense(k, p, before, after)
      == if k.jumanjiWirelength then closed - p.wirelengthPenalty * (after.wirelength - before.wirelength)
         else if k.jumanjiFlat then closed - k.stepPenalty
         else closed - k.stepPenalty * before.unconnected as real
  {
  }

  lemma JumanjiMove(c: Config, w: World, a: Action)
    requires c.perStep && Jumanji(c.knobs) && Move(c, w, a).1.outcome.after.Some?
    ensures var (w6, m) := Move(c, w, a);
      m.diff == JumanjiDense(c.knobs, c.potential, w.prev, m.outcome.after.value) + c.knobs.stepPenalty
  {
    var w1 := w.(steps := w.steps + 1);
    ActKind(c, w, a);
    PerformIs(c, w1, a);
    AfterAct(c, w, a);
    assert Act(c, w1, a).1.kind.Valid();
    hide Act, Perform, Dispatch, Snapshot, Bookkeep, Best7, RollsBack, Observe, Restore, OtherPenalty, FinalState, EndBoard, Push, Terminated,
         Truncated, ClosedAfter, JumanjiDense, Jumanji, GrantedAt, Refused, ParseFails;
  }

  // --- what a step shows and records ---------------------------------------------------------------------------------------

  /** A history cut to its limit. */
  function Cut(h: seq<Record>, limit: nat): seq<Record> { if |h| <= limit then h else h[..limit] }

  /** A step that does not roll back shows the board, the step, the net, the mode, the history and the closed nets, in
      ascending order, of the world it leaves. */
  lemma ShowsTheWorld(c: Config, w: World, a: Action)
    requires !Step(c, w, a).1.rolledBack
    ensures var (w', s) := Step(c, w, a); var seen := s.observed;
      && seen.board == w'.board && seen.steps == w'.steps == w.steps + 1 && seen.net == w'.net && seen.mode == w'.mode
      && seen.history == w'.history && w'.closed == ClosedAfter(c, w, a)
      && (forall n :: n in seen.closed <==> n in w'.closed)
      && (forall i, j | 0 <= i < j < |seen.closed| :: seen.closed[i] < seen.closed[j])
      && w'.history == Cut([Record(a, s.outcome.success, if a.NetSelect? then Some(a.netId) else w.net)] + w.history, c.historyLen)
  {
    MoveLeaves(c, w, a);
    MovePays(c, w, a);
    var (w6, m) := Move(c, w, a);
    BestKeepsPlace(c, w6, m.outcome, m.Ended());
    assert Step(c, w, a).0 == Best7(c, w6, m.outcome, m.Ended());
    assert Step(c, w, a).1.observed == Observe(w6);
    hide Step, Move, Best7, RollsBack, FinalPotential, FinalState, ClosedAfter, Cut;
  }

  /** The world after a move, before the best-board stage. */
  lemma MoveLeaves(c: Config, w: World, a: Action)
    ensures var (w6, m) := Move(c, w, a);
      && w6.steps == w.steps + 1 && w6.closed == ClosedAfter(c, w, a)
      && w6.history == Cut([Record(a, m.outcome.success, if a.NetSelect? then Some(a.netId) else w.net)] + w.history, c.historyLen)
  {
    AfterAct(c, w, a);
    hide Act, FinalState, EndBoard, Terminated, Truncated, ClosedAfter, Shaping, ComputeTruncation;
  }

  lemma BestKeepsPlace(c: Config, w: World, o: Outcome, ended: bool)
    ensures var w' := Best7(c, w, o, ended);
      !RollsBack(c, w, o, ended) ==>
        && w'.board == w.board && w'.steps == w.steps && w'.net == w.net && w'.mode == w.mode
        && w'.history == w.history && w'.closed == w.closed
  {
    hide RollsBack, Snapshot, RestoredHistory;
  }

  /** What the actions of a run record, the newest first. */
  function Records(c: Config, w: World, actions: seq<Action>): seq<Record>
    decreases |actions|
  {
    if actions == [] then [] else
      var init, last := actions[..|actions| - 1], actions[|actions| - 1];
      var v := Ran(c, w, init).0;
      [Record(last, Step(c, v.(tracking := true), last).1.outcome.success, if last.NetSelect? then Some(last.netId) else v.net)]
      + Records(c, w, init)
  }

  lemma RanExtends(c: Config, w: World, actions: seq<Action>)
    requires actions != []
    ensures var (v, out) := Ran(c, w, actions[..|actions| - 1]);
      var (v', s) := Step(c, v.(tracking := true), actions[|actions| - 1]);
      && Ran(c, w, actions) == (v', out + [s]) && Ran(c, w, actions).1[|actions| - 1] == s
      && forall i | 0 <= i < |actions| - 1 :: Ran(c, w, actions).1[i] == out[i]
  {
    hide Step;
  }

  lemma CutAgain(r: Record, h: seq<Record>, limit: nat)
    ensures Cut([r] + Cut(h, limit), limit) == Cut([r] + h, limit)
  {
  }

  /** The history after a run without rollbacks: its records, the newest first, then what was there, cut to the limit. */
  lemma {:induction false} HistoryOfRun(c: Config, w: World, actions: seq<Action>)
    requires |w.history| <= c.historyLen
    requires forall i | 0 <= i < |actions| :: !Ran(c, w, actions).1[i].rolledBack
    ensures Ran(c, w, actions).0.history == Cut(Records(c, w, actions) + w.history, c.historyLen)
    decreases |actions|
  {
    hide *;
    if actions == [] {
      NothingRecorded(c, w, actions);
    } else {
      var init := actions[..|actions| - 1];
      RanExtends(c, w, actions);
      HistoryOfRun(c, w, init);
      HistoryStep(c, w, actions);
      CutAgain(LastRecord(c, w, actions), Records(c, w, init) + w.history, c.historyLen);
      RecordsExtend(c, w, actions);
    }
  }

  lemma NothingRecorded(c: Config, w: World, actions: seq<Action>)
    requires actions == [] && |w.history| <= c.historyLen
    ensures Ran(c, w, actions).0.history == Cut(Records(c, w, actions) + w.history, c.historyLen)
  {
    assert Records(c, w, actions) + w.history == w.history;
  }

  function LastRecord(c: Config, w: World, actions: seq<Action>): Record
    requires actions != []
  {
    var v, last := Ran(c, w, actions[..|actions| - 1]).0, actions[|actions| - 1];
    Record(last, Step(c, v.(tracking := true), last).1.outcome.success, if last.NetSelect? then Some(last.netId) else v.net)
  }

  lemma RecordsExtend(c: Config, w: World, actions: seq<Action>)
    requires actions != []
    ensures var older := Records(c, w, actions[..|actions| - 1]) + w.history;
      Records(c, w, actions) + w.history == [LastRecord(c, w, actions)] + older
  {
    hide Step, Ran;
  }

  lemma HistoryStep(c: Config, w: World, actions: seq<Action>)
    requires actions != [] && !Ran(c, w, actions).1[|actions| - 1].rolledBack
    ensures Ran(c, w, actions).0.history
            == Cut([LastRecord(c, w, actions)] + Ran(c, w, actions[..|actions| - 1]).0.history, c.historyLen)
  {
    RanExtends(c, w, actions);
    hide Step, Ran, Cut, ClosedAfter;
    ShowsTheWorld(c, Ran(c, w, actions[..|actions| - 1]).0.(tracking := true), actions[|actions| - 1]);
  }

  // --- the best board --------------------------------------------------------------------------------------------------------

  /** Before the end a committed step keeps the board it leaves exactly when that scores higher than the kept one; ties
      keep the earlier board, and a refused action keeps what is kept. */
  lemma BestMoves(c: Config, w: World, a: Action)
    requires c.outputBest && w.tracking && w.best.Some? && !Step(c, w, a).1.terminated && !Step(c, w, a).1.truncated
    ensures var (w', s) := Step(c, w, a);
      if s.outcome.after.Some? && c.potential.Phi(s.outcome.after.value) > w.best.value.phi then
        && w'.best.Some? && w'.best.value.phi == c.potential.Phi(s.outcome.after.value)
        && w'.best.value.saved.handle in w'.store && w'.store[w'.best.value.saved.handle] == w'.board
      else w'.best == w.best && w'.store == w.store
  {
    StepIs(c, w, a);
    AfterAct(c, w, a);
    hide Act, RollsBack, FinalState, EndBoard, Terminated, Truncated, ClosedAfter, Shaping, ComputeTruncation, Push, Observe;
  }

  // --- a new episode -----------------------------------------------------------------------------------------------------------

  /** The board a new episode starts from: the open session dropped, the routing stripped, connectivity rebuilt, the
      routing mode back to 2 and the DRC cache emptied. */
  function BareBoard(e: Engine, live: Board): Board {
    e.clearDrc(e.setMode(e.connect(e.strip(if e.routing(live) then e.cancel(live) else live)), 2))
  }

  /** A new episode: nothing done, nothing recorded, exactly the routable nets without open connections closed, Φ₀ that of
      the bare board with its violations, and in terminal mode those forgotten again; it is the first best board. */
  lemma StartsFrom(c: Config, live: Board, handle: int)
    ensures var w, e, bare := Reset(c, live, handle), c.engine, BareBoard(c.engine, live);
      && w.board == (if !c.drcActive then bare else if c.perStep then e.runDrc(bare) else e.clearDrc(e.runDrc(bare)))
      && w.prev == (if c.drcActive then e.read(e.runDrc(bare)) else NoDrc(e.read(bare)))
      && w.steps == 0 && w.net == None && w.mode == 2 && w.history == [] && w.reopens == 0 && w.reference == None
      && w.stagnation == 0 && w.prevUnrouted == w.prev.unconnected && w.tracking && w.initialUnconnected == w.prev.unconnected
      && w.initialPhi == c.potential.Phi(w.prev) && w.bornClosed == w.closed
      && (forall n :: n in w.closed <==> n in c.routable && n !in e.ratsnest(w.board))
      && (!c.outputBest ==> w.best == None && w.store == map[] && w.nextHandle == handle)
      && (c.outputBest ==> w.best.Some? && w.best.value.phi == w.initialPhi && w.best.value.saved.handle == handle
                           && w.store == map[handle := w.board] && w.nextHandle == handle + 1)
  {
  }

  /** No session outlives a reset. */
  lemma NoSessionAfterReset(c: Config, live: Board, handle: int)
    requires SessionsHonest(c.engine)
    ensures !c.engine.routing(Reset(c, live, handle).board)
  {
    var e, bare := c.engine, BareBoard(c.engine, live);
    StartsFrom(c, live, handle);
    var dropped := if e.routing(live) then e.cancel(live) else live;
    assert !e.routing(dropped) && !e.routing(e.strip(dropped)) && !e.routing(e.connect(e.strip(dropped)));
    assert !e.routing(e.setMode(e.connect(e.strip(dropped)), 2)) && !e.routing(bare);
    assert !e.routing(e.runDrc(bare)) && !e.routing(e.clearDrc(e.runDrc(bare)));
    hide Reset;
  }
}
