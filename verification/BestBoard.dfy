/** `output_best_board`: the board an episode ends on is as good as the best it has seen. */
module BestBoards {
  import opened Decimal
  import opened Masking
  import opened Rewards
  import opened EnvSpec
  import opened SearchRuns
  import opened SearchInvariants
  import opened EpisodeTheorems

  /** While the episode runs, the tracked checkpoint is the peak: Φ of the reset board and of every
      after-state of a committed step is at most its value. */
  ghost predicate BestIsPeak(c: Config, r: Run) {
    && r.w.best.Some?
    && r.w.best.value.phi == c.potential.Phi(r.w.best.value.saved.prev)
    && r.w.best.value.phi == r.peak
  }

  predicate Tracks(c: Config) { c.outputBest && c.perStep }

  lemma ResetIsPeak(c: Config, live: Board, handle: int)
    requires Tracks(c)
    ensures BestIsPeak(c, Start(Reset(c, live, handle)))
  {
  }

  /** Stages 1 to 6, as the tracking sees them. */
  lemma MoveForTracking(c: Config, w: World, a: Action)
    requires c.perStep
    ensures var (w', m) := Move(c, w, a);
      && w'.best == w.best && w'.tracking == w.tracking
      && w'.prev == (if m.outcome.after.Some? then m.outcome.after.value else w.prev)
      && m.outcome == Act(c, w.(steps := w.steps + 1), a).1
      && (m.outcome.after.None? ==> w'.board == w.board)
  {
    MoveAfterAct(c, w, a);
    MoveScores(c, w, a);
    ActKeeps(c, w.(steps := w.steps + 1), a);
    hide Move, Act, Shaping, Snapshot;
  }

  lemma SearchKeepsBest(c: Config, r: Run, a: Action)
    requires Tracks(c) && BestIsPeak(c, r)
    ensures BestIsPeak(c, Stepped(c, r, false, a)) && !Stepped(c, r, false, a).over
  {
    MoveForTracking(c, r.w.(tracking := false), a);
    hide Move, Act, Restore, Observe, FinalPotential, OtherPenalty, KeepBest;
  }

  /** A committed step: the peak is kept, or the episode ends. */
  lemma CommitKeepsBest(c: Config, r: Run, a: Action)
    requires Tracks(c) && BestIsPeak(c, r)
    ensures var r' := Stepped(c, r, true, a);
      if !r'.over then BestIsPeak(c, r')
      else
        var s := Step(c, r.w.(tracking := true), a).1;
        if s.outcome.after.Some? then
          c.potential.Phi(r'.w.prev) >= r'.peak - TOLERANCE && s.finalPotential == Some(c.potential.Phi(r'.w.prev))
        else r'.w.prev == r.w.prev && r'.w.board == r.w.board && r'.peak == r.peak
  {
    var w := r.w.(tracking := true);
    MoveForTracking(c, w, a);
    var (w6, m) := Move(c, w, a);
    hide Move, Act, Observe, OtherPenalty, Push, Snapshot;
  }

  lemma OthersKeepBest(c: Config, r: Run, op: Op)
    requires Tracks(c) && BestIsPeak(c, r) && !op.Commit?
    ensures BestIsPeak(c, Apply(c, r, op)) && Apply(c, r, op).over == r.over
  {
    match op
    case Search(a) => SearchKeepsBest(c, r, a); hide Stepped, BestIsPeak;
    case _ => hide Stepped, Push;
  }

  lemma ApplyKeepsBest(c: Config, r: Run, op: Op)
    requires Tracks(c) && (r.over || BestIsPeak(c, r))
    ensures Apply(c, r, op).over || BestIsPeak(c, Apply(c, r, op))
  {
    if !r.over {
      if op.Commit? {
        CommitKeepsBest(c, r, op.action);
        hide Stepped, BestIsPeak, Step;
      } else {
        OthersKeepBest(c, r, op);
      }
    }
  }

  lemma {:induction false} RunKeepsBest(c: Config, r: Run, ops: seq<Op>)
    requires Tracks(c) && (r.over || BestIsPeak(c, r))
    ensures RunOps(c, r, ops).over || BestIsPeak(c, RunOps(c, r, ops))
  {
    hide Apply, BestIsPeak;
    if ops != [] {
      RunKeepsBest(c, r, ops[..|ops| - 1]);
      ApplyKeepsBest(c, RunOps(c, r, ops[..|ops| - 1]), ops[|ops| - 1]);
    }
  }

  /** While an episode runs, the kept checkpoint holds a board whose score, taken now, is the recorded
      value, and no tracked board scored higher. */
  lemma KeptBoardIsThePeak(c: Config, live: Board, handle: int, ops: seq<Op>)
    requires Tracks(c) && DrcRepeatable(c.engine)
    requires !Episode(c, live, handle, ops).over
    ensures var r := Episode(c, live, handle, ops);
      && r.w.best.Some? && r.w.best.value.saved.handle in r.w.store
      && r.w.best.value.phi == r.peak == Score(c, r.w.store[r.w.best.value.saved.handle])
  {
    ResetIsPeak(c, live, handle);
    RunKeepsBest(c, Start(Reset(c, live, handle)), ops);
    EpisodeInvariant(c, live, handle, ops);
    hide Reset, RunOps, StoreOk, Telescopes, SessionHasNet, ClosedCounted, Snapshot;
  }

  /** A step's action is carried out exactly when it is not idle and the mask, at the step it makes, grants it. */
  lemma CarriedOut(c: Config, w: World, a: Action)
    ensures Step(c, w.(tracking := true), a).1.outcome.after.Some? <==> !a.Idle? && Allowed(c, w.(steps := w.steps + 1), a)
  {
    var w0 := w.(tracking := true);
    StepIs(c, w0, a);
    assert Context(c, w0.(steps := w0.steps + 1)) == Context(c, w.(steps := w.steps + 1));
    hide Step, Perform, Snapshot, Dispatch, Bookkeep, Context, Stagnate, Terminated, Truncated, Pay, EndBoard, RollsBack, Best7, Restore, Observe, OtherPenalty;
    ActReaches(c, w0.(steps := w0.steps + 1), a);
  }

  lemma ActReaches(c: Config, w: World, a: Action)
    ensures Act(c, w, a).1.after.Some? <==> !a.Idle? && Allowed(c, w, a)
  {
    hide Snapshot, Dispatch, Bookkeep, Allowed;
  }

  /** The board an episode ends on scores at least the peak, less the tolerance, exactly when the last
      action is one the mask grants or the board it is taken on already does; a refused last action never
      rolls back. */
  lemma EndsOnTheBestBoard(c: Config, live: Board, handle: int, ops: seq<Op>, a: Action)
    requires Tracks(c) && DrcRepeatable(c.engine)
    requires !Episode(c, live, handle, ops).over && Apply(c, Episode(c, live, handle, ops), Commit(a)).over
    ensures var r := Episode(c, live, handle, ops);
      var r', s := Apply(c, r, Commit(a)), Step(c, r.w.(tracking := true), a).1;
      var granted := !a.Idle? && Allowed(c, r.w.(steps := r.w.steps + 1), a);
      && (Score(c, r'.w.board) >= r'.peak - TOLERANCE <==> granted || Score(c, r.w.board) >= r.peak - TOLERANCE)
      && (granted ==> s.finalPotential == Some(Score(c, r'.w.board)))
  {
    CarriedOut(c, Episode(c, live, handle, ops).w, a);
    var r := Episode(c, live, handle, ops);
    var r' := Apply(c, r, Commit(a));
    ResetIsPeak(c, live, handle);
    RunKeepsBest(c, Start(Reset(c, live, handle)), ops);
    CommitKeepsBest(c, r, a);
    var root := Reset(c, live, handle);
    EpisodeInvariant(c, live, handle, ops);
    ApplyInvariant(c, root, r, Commit(a));
    hide Reset, RunOps, StoreOk, SavedGood, Telescopes, SessionHasNet, ClosedCounted, Snapshot, Stepped, Step, BestIsPeak;
  }

  // --- a refused last action leaves a worse board live ------------------------------------------------------

  function Blank(wire: real): RewardState {
    RewardState(1, wire, 0, 0, 0, [], 0, [], 0, [], 0, 1, Some({1}))
  }

  /** A router whose only move, `start_route`, turns one board into another with a longer wire. */
  ghost function TwoBoards(good: Board, bad: Board): Engine {
    Engine((b: Board) => false, (b: Board) => {1}, (b: Board) => 1, (b: Board) => 0, 2,
           (b: Board) => Blank(if b == bad then 1.0 else 0.0),
           (b: Board) => b, (b: Board) => b, (b: Board) => b, (b: Board, m: int) => b, (b: Board, on: bool) => b,
           (b: Board, x: real, y: real, via: bool) => true,
           (b: Board, x: real, y: real, layer: int) => (bad, true),
           (b: Board, x: real, y: real, via: bool) => (b, false),
           (b: Board) => (b, false), (b: Board) => b, (b: Board) => b)
  }

  ghost function PlainKnobs(): Knobs {
    Knobs(0.0, 0.0, 1.0, false, 0.0, 0.0, 0.0, None, None, None, None, 0.0, 0.0, Linear, 0.0, 0.0, 0.0, 1.0,
          0.0, 1.0, 0.0, ErrorsOnly, 0.0, 0.0, PerStep, FullReward, false, false, false)
  }

  ghost function RefusingConfig(good: Board, bad: Board): Config {
    Config(TwoBoards(good, bad), [Entry(1, [])], {1}, 2, 0, true, false, true, false, 1, PlainKnobs(),
           Potential((s: RewardState) => -s.wirelength, (s: RewardState) => 0.0, (s: RewardState) => 0.0, 1.0), 0.0, 0.0, 0.0)
  }

  /** Starting a route lowers Φ from 0 to -1. */
  lemma WorseAfterOneStep(good: Board, bad: Board)
    requires good != bad
    ensures var c := RefusingConfig(good, bad);
      var r := Apply(c, Start(Reset(c, good, 0)), Commit(StartRoute(0.0, 0.0, 1)));
      r.w.board == bad && !r.over && r.peak == 0.0 && r.w.steps == 1
  {
    var c := RefusingConfig(good, bad);
    var w := Reset(c, good, 0);
    assert w.prev == Blank(0.0);
    assert Granted(c.rule, Context(c, w.(steps := 1)), 1) by {
      assert c.rule[0].action == 1 && Matches(c.rule[0], Context(c, w.(steps := 1)));
    }
    hide Observe, Push;
  }

  lemma RefusalEnds(good: Board, bad: Board, r: Run)
    requires good != bad && r.w.board == bad && !r.over && r.w.steps == 1
    ensures var r' := Apply(RefusingConfig(good, bad), r, Commit(Idle(true)));
      r'.over && r'.w.board == bad && r'.peak == r.peak
  {
    hide Observe, Push;
  }

  /** Two steps: start a route, then an unparsable reply that uses up the budget.  The episode ends on the
      worse board. */
  lemma RefusedEndingKeepsTheWorseBoard(good: Board, bad: Board)
    requires good != bad
    ensures exists c: Config, ops: seq<Op> ::
      && Tracks(c) && DrcRepeatable(c.engine)
      && var r := Episode(c, good, 0, ops);
         r.over && Score(c, r.w.board) == r.peak - 1.0
  {
    var c := RefusingConfig(good, bad);
    var ops := [Commit(StartRoute(0.0, 0.0, 1)), Commit(Idle(true))];
    var r0 := Start(Reset(c, good, 0));
    WorseAfterOneStep(good, bad);
    RefusalEnds(good, bad, Apply(c, r0, ops[0]));
    assert Score(c, bad) == -1.0 && Tracks(c) && DrcRepeatable(c.engine);
    hide Apply, Reset, RefusingConfig, Tracks, DrcRepeatable, Score;
    assert ops[..1] == [ops[0]] && ops[..1][..0] == [];
    assert RunOps(c, r0, []) == r0;
    assert RunOps(c, r0, ops[..1]) == Apply(c, r0, ops[0]);
    var r := Episode(c, good, 0, ops);
    assert r == Apply(c, Apply(c, r0, ops[0]), ops[1]);
  }
}
