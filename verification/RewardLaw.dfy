/** What a step pays, on the action, the mask and the two snapshots. */
module RewardLaw {
  import opened Decimal
  import opened Masking
  import opened Rewards
  import opened EnvSpec
  import opened SearchRuns
  import opened SearchInvariants
  import opened EpisodeTheorems
  import opened Excursions

  /** The mask grants the action at the step it makes. */
  predicate GrantedAt(c: Config, w: World, a: Action) { Allowed(c, w.(steps := w.steps + 1), a) }

  predicate ParseFails(a: Action) { a.Idle? && a.parseInvalid }

  predicate Refused(c: Config, w: World, a: Action) { !a.Idle? && !GrantedAt(c, w, a) }

  /** The reward state before an action that is carried out. */
  function Before(c: Config, w: World): RewardState { if c.perStep then w.prev else NoDrc(c.engine.read(w.board)) }

  /** A granted action that fails, or a line, via or finish after which the track count, the via count and the
      wirelength are what they were. */
  predicate Wasted(c: Config, w: World, a: Action, s: StepResult) {
    && !a.Idle? && GrantedAt(c, w, a)
    && (!Dispatch(c.engine, HandOf(w), a).1
        || ((a.MakeLine? || a.MakeVia? || a.Finish?) && s.outcome.after.Some?
            && s.outcome.after.value.trackCount == Before(c, w).trackCount
            && s.outcome.after.value.viaCount == Before(c, w).viaCount
            && s.outcome.after.value.wirelength == Before(c, w).wirelength))
  }

  /** The state after an action that is carried out is a snapshot of the board it leaves. */
  lemma AfterIs(c: Config, w: World, a: Action)
    ensures var s := Step(c, w, a).1;
      var board := Dispatch(c.engine, HandOf(w), a).0.board;
      var built := if a.StartRoute? || a.MakeLine? || a.MakeVia? || a.Finish? then c.engine.connect(board) else board;
      s.outcome.after == if a.Idle? || !GrantedAt(c, w, a) then None
                         else Some(Snapshot(c.engine, built, c.perStep && c.drcActive).1)
  {
    StepIs(c, w, a);
    var w1 := w.(steps := w.steps + 1);
    PerformIs(c, w1, a);
    hide Step, Perform, Snapshot, Dispatch, Bookkeep, Stagnate, Terminated, Truncated, Pay, EndBoard, RollsBack, Best7, Restore, Observe,
         OtherPenalty, Allowed;
  }

  lemma ActKind(c: Config, w: World, a: Action)
    ensures var w1 := w.(steps := w.steps + 1);
      var o := Act(c, w1, a).1;
      && (o.kind.ParseFail? <==> ParseFails(a)) && (o.kind.MaskReject? <==> Refused(c, w, a))
      && (!a.Idle? && GrantedAt(c, w, a) <==> o.after.Some?)
      && (o.after.Some? ==> o == Perform(c, w1, a).1)
      && (o.after.None? ==> !o.kind.DispatchFail? && !o.kind.Empty?)
  {
    PerformIs(c, w.(steps := w.steps + 1), a);
    hide Perform, Dispatch, Snapshot, Bookkeep, Allowed, NoDrc;
  }

  lemma ActWastes(c: Config, w: World, a: Action)
    ensures var o := Act(c, w.(steps := w.steps + 1), a).1;
      o.kind.DispatchFail? || o.kind.Empty? <==>
        && !a.Idle? && GrantedAt(c, w, a)
        && (!Dispatch(c.engine, HandOf(w), a).1
            || ((a.MakeLine? || a.MakeVia? || a.Finish?) && o.after.Some?
                && o.after.value.trackCount == Before(c, w).trackCount
                && o.after.value.viaCount == Before(c, w).viaCount
                && o.after.value.wirelength == Before(c, w).wirelength))
  {
    var w1 := w.(steps := w.steps + 1);
    ActKind(c, w, a);
    PerformIs(c, w1, a);
    assert HandOf(w1) == HandOf(w) && Before(c, w1) == Before(c, w);
    hide Act, Perform, Dispatch, Snapshot, Bookkeep, GrantedAt, Refused, ParseFails, NoDrc;
  }

  lemma StepOutcome(c: Config, w: World, a: Action)
    ensures var s, o := Step(c, w, a).1, Act(c, w.(steps := w.steps + 1), a).1;
      && s.outcome == o
      && s.reward == s.potentialDiff - c.knobs.stepPenalty + OtherPenalty(c, o.kind, s.terminated || s.truncated)
  {
    StepIs(c, w, a);
    hide Step, Act, Stagnate, Terminated, Truncated, Pay, EndBoard, RollsBack, Best7, Restore, Observe, OtherPenalty, NetContext;
  }

  /** One step: the Φ difference, less the step penalty, less what its kind costs; a wasted action costs nothing
      on the last step of a terminal-mode episode. */
  lemma StepPays(c: Config, w: World, a: Action)
    ensures var s := Step(c, w, a).1;
      s.reward == s.potentialDiff - c.knobs.stepPenalty
                  - (if ParseFails(a) then c.parseFailPenalty else 0.0)
                  - (if Refused(c, w, a) then c.maskRejectPenalty else 0.0)
                  - (if Charged(c, w, a, s) then c.invalidPenalty else 0.0)
  {
    StepOutcome(c, w, a);
    ActKind(c, w, a);
    ActWastes(c, w, a);
    hide Step, Act, Dispatch, GrantedAt, Refused, ParseFails, Before, Perform;
  }

  // --- a committed run ------------------------------------------------------------------------------------------------

  /** What a run has collected: rewards and Φ differences, and how often each penalty was due. */
  datatype Tally = Tally(reward: real, diff: real, steps: nat, parseFails: nat, refusals: nat, wasted: nat)

  function One(b: bool): nat { if b then 1 else 0 }

  /** A committed run, step after step. */
  function Tallied(c: Config, w: World, actions: seq<Action>): Tally
    decreases |actions|
  {
    if actions == [] then Tally(0.0, 0.0, 0, 0, 0, 0) else
      var v := w.(tracking := true);
      var (w', s) := Step(c, v, actions[0]);
      Next(Tallied(c, w', actions[1..]), s, ParseFails(actions[0]), Refused(c, v, actions[0]), Charged(c, v, actions[0], s))
  }

  /** One step more. */
  function Next(t: Tally, s: StepResult, parse: bool, refused: bool, wasted: bool): Tally {
    Tally(t.reward + s.reward, t.diff + s.potentialDiff, t.steps + 1,
          t.parseFails + One(parse), t.refusals + One(refused), t.wasted + One(wasted))
  }

  /** A wasted action that is paid for: the last step of a terminal-mode episode is not. */
  predicate Charged(c: Config, w: World, a: Action, s: StepResult) {
    Wasted(c, w, a, s) && (c.perStep || !(s.terminated || s.truncated))
  }

  lemma PenaltyStep(p: real, n: nat, b: bool)
    ensures p * (n + One(b)) as real == p * n as real + (if b then p else 0.0)
  {
  }

  lemma AddUp(step: real, parse: real, refuse: real, waste: real, t: Tally, reward: real, diff: real, b: bool, d: bool, e: bool)
    requires t.reward == t.diff - step * t.steps as real - parse * t.parseFails as real - refuse * t.refusals as real - waste * t.wasted as real
    requires reward == diff - step - (if b then parse else 0.0) - (if d then refuse else 0.0) - (if e then waste else 0.0)
    ensures t.reward + reward == t.diff + diff - step * (t.steps + 1) as real - parse * (t.parseFails + One(b)) as real
                                 - refuse * (t.refusals + One(d)) as real - waste * (t.wasted + One(e)) as real
  {
    PenaltyStep(step, t.steps, true);
    PenaltyStep(parse, t.parseFails, b);
    PenaltyStep(refuse, t.refusals, d);
    PenaltyStep(waste, t.wasted, e);
    assert One(true) == 1;
    hide One;
  }

  predicate Balanced(c: Config, t: Tally) {
    t.reward == t.diff - c.knobs.stepPenalty * t.steps as real - c.parseFailPenalty * t.parseFails as real
                - c.maskRejectPenalty * t.refusals as real - c.invalidPenalty * t.wasted as real
  }

  lemma NextBalanced(c: Config, t: Tally, s: StepResult, parse: bool, refused: bool, wasted: bool)
    requires Balanced(c, t)
    requires s.reward == s.potentialDiff - c.knobs.stepPenalty - (if parse then c.parseFailPenalty else 0.0)
                         - (if refused then c.maskRejectPenalty else 0.0) - (if wasted then c.invalidPenalty else 0.0)
    ensures Balanced(c, Next(t, s, parse, refused, wasted))
  {
    hide One;
    AddUp(c.knobs.stepPenalty, c.parseFailPenalty, c.maskRejectPenalty, c.invalidPenalty, t, s.reward, s.potentialDiff, parse, refused, wasted);
  }

  lemma OneMoreStep(c: Config, w: World, actions: seq<Action>)
    requires actions != [] && Balanced(c, Tallied(c, Step(c, w.(tracking := true), actions[0]).0, actions[1..]))
    ensures Balanced(c, Tallied(c, w, actions))
  {
    hide Step, Wasted, Refused, ParseFails, Balanced, Next, One;
    var v, a := w.(tracking := true), actions[0];
    StepPays(c, v, a);
    NextBalanced(c, Tallied(c, Step(c, v, a).0, actions[1..]), Step(c, v, a).1,
                 ParseFails(a), Refused(c, v, a), Charged(c, v, a, Step(c, v, a).1));
  }

  lemma {:induction false} RunIsBalanced(c: Config, w: World, actions: seq<Action>)
    ensures Tallied(c, w, actions).steps == |actions| && Balanced(c, Tallied(c, w, actions))
    decreases |actions|
  {
    if actions == [] {
    } else {
      hide Balanced, Step, Wasted, Refused, ParseFails, One;
      RunIsBalanced(c, Step(c, w.(tracking := true), actions[0]).0, actions[1..]);
      OneMoreStep(c, w, actions);
    }
  }

  /** The rewards of a committed run add up to its Φ differences, less the step penalty for every step, the
      parse-fail penalty for every unreadable reply, the mask-reject penalty for every action the mask refused, and
      the invalid-action penalty for every action it granted in vain. */
  lemma RunPays(c: Config, w: World, actions: seq<Action>)
    ensures var t := Tallied(c, w, actions);
      && t.steps == |actions|
      && t.reward == t.diff - c.knobs.stepPenalty * t.steps as real - c.parseFailPenalty * t.parseFails as real
                     - c.maskRejectPenalty * t.refusals as real - c.invalidPenalty * t.wasted as real
  {
    hide Tallied;
    RunIsBalanced(c, w, actions);
  }

  /** The tally is that of the results the run returns. */
  lemma {:induction false} TallyIsOfTheTrace(c: Config, w: World, actions: seq<Action>)
    ensures var t, trace := Tallied(c, w, actions), Trace(c, w, actions);
      t.reward == Sum(trace, (s: StepResult) => s.reward) && t.diff == Sum(trace, (s: StepResult) => s.potentialDiff)
    decreases |actions|
  {
    if actions != [] {
      var (w', s) := Step(c, w.(tracking := true), actions[0]);
      TallyIsOfTheTrace(c, w', actions[1..]);
      assert Trace(c, w, actions)[1..] == Trace(c, w', actions[1..]);
      hide Step, Wasted, Refused, ParseFails;
    }
  }

  function Sum(trace: seq<StepResult>, f: StepResult -> real): real {
    if trace == [] then 0.0 else f(trace[0]) + Sum(trace[1..], f)
  }
}
