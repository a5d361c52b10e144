/** The episode's rewards in terms of the reward object as the environment binds it: once for the board, and
    again at every reset. */
module BoundEpisodes {
  import opened Decimal
  import opened Masking
  import opened Rewards
  import opened EnvSpec
  import opened SearchRuns
  import opened SearchInvariants
  import opened EpisodeTheorems

  /** Every state read off the engine carries the per-net facts. */
  ghost predicate ReadsComplete(e: Engine) { forall b: Board :: FromSnapshot(e.read(b)) }

  /** The reward state of a board, scored now. */
  function Scored(c: Config, b: Board): RewardState { Snapshot(c.engine, b, c.drcActive).1 }

  ghost predicate OffsetsOk(k: Knobs) { k.logOffset > 0.0 && k.saturationOffset > 0.0 }

  /** The fields of the reward object in an episode: the static bind, then the binds of all resets so far. */
  function BoundNow(k: Knobs, log1p: real -> real, st: StaticFacts, resets: seq<ResetFacts>, f: ResetFacts): Bound {
    BindReset(k, log1p, ResetAll(k, log1p, BindStatic(k, log1p, Unbound(k), st).0, resets), f).0
  }

  /** The fields of a fresh object bound to this episode alone. */
  function BoundFresh(k: Knobs, log1p: real -> real, st: StaticFacts, f: ResetFacts): Bound {
    BindReset(k, log1p, BindStatic(k, log1p, Unbound(k), st).0, f).0
  }

  /** The episode's potential is the bound object's Φ. */
  ghost predicate Plays(c: Config, log1p: real -> real, st: StaticFacts, resets: seq<ResetFacts>, f: ResetFacts) {
    && OffsetsOk(c.knobs) && ReadsComplete(c.engine)
    && BindReset(c.knobs, log1p, BindStatic(c.knobs, log1p, Unbound(c.knobs), st).0, f).1
    && c.potential == PotentialOf(c.knobs, log1p, BoundNow(c.knobs, log1p, st, resets, f))
  }

  lemma ScoredComplete(c: Config, b: Board)
    requires ReadsComplete(c.engine)
    ensures FromSnapshot(Scored(c, b))
  {
    assert FromSnapshot(c.engine.read(b)) && FromSnapshot(c.engine.read(c.engine.runDrc(b)));
  }

  /** On any state the engine gives, the potential is the Φ of a fresh object bound to this episode, and that
      Φ is defined. */
  lemma PotentialIsPhi(c: Config, log1p: real -> real, st: StaticFacts, resets: seq<ResetFacts>, f: ResetFacts, s: RewardState)
    requires Plays(c, log1p, st, resets, f) && FromSnapshot(s)
    ensures var b := BoundFresh(c.knobs, log1p, st, f);
      && PhiMain(c.knobs, log1p, b, s) == Some(c.potential.main(s))
      && Phi(c.knobs, log1p, b, s) == Some(c.potential.Phi(s))
  {
    var b0 := BindStatic(c.knobs, log1p, Unbound(c.knobs), st).0;
    ResetsLeaveNoTrace(c.knobs, log1p, b0, resets, f);
    PhiDefined(c.knobs, log1p, b0, f, s);
    hide BindReset, BindStatic, Unbound, ResetAll, PhiMain, PhiWireVia, DrcPenalty, ReadsComplete, FromSnapshot;
  }

  lemma WireViaIs(c: Config, log1p: real -> real, st: StaticFacts, resets: seq<ResetFacts>, f: ResetFacts, s: RewardState)
    requires Plays(c, log1p, st, resets, f)
    ensures c.potential.wireVia(s) == PhiWireVia(c.knobs, BoundFresh(c.knobs, log1p, st, f), s)
  {
    ResetsLeaveNoTrace(c.knobs, log1p, BindStatic(c.knobs, log1p, Unbound(c.knobs), st).0, resets, f);
    hide BindReset, BindStatic, Unbound, ResetAll, PhiMain, PhiWireVia, DrcPenalty, ReadsComplete, FromSnapshot;
  }

  /** Per-step emission, in any episode of an environment: the rewards on the path to the live board sum to Φ
      of that board minus Φ of the reset board, Φ being that of a fresh object bound to this episode. */
  lemma BoundRewardsTelescope(c: Config, log1p: real -> real, st: StaticFacts, resets: seq<ResetFacts>, f: ResetFacts,
                              live: Board, handle: int, ops: seq<Op>)
    requires Plays(c, log1p, st, resets, f)
    requires c.perStep && !Jumanji(c.knobs) && c.knobs.emission.PerStep? && DrcRepeatable(c.engine)
    ensures var b, r := BoundFresh(c.knobs, log1p, st, f), Episode(c, live, handle, ops);
      var now, start := Phi(c.knobs, log1p, b, Scored(c, r.w.board)), Phi(c.knobs, log1p, b, Scored(c, Reset(c, live, handle).board));
      now.Some? && start.Some? && r.account.phi == now.value - start.value
  {
    hide *;
    RewardsTelescope(c, live, handle, ops);
    PlaysMeans(c, log1p, st, resets, f);
    BoardPhi(c, log1p, st, resets, f, Episode(c, live, handle, ops).w.board);
    BoardPhi(c, log1p, st, resets, f, Reset(c, live, handle).board);
  }

  lemma PlaysMeans(c: Config, log1p: real -> real, st: StaticFacts, resets: seq<ResetFacts>, f: ResetFacts)
    requires Plays(c, log1p, st, resets, f)
    ensures OffsetsOk(c.knobs) && ReadsComplete(c.engine) && c.knobs.logOffset > 0.0 && c.knobs.saturationOffset > 0.0
  {
  }

  lemma BoardPhi(c: Config, log1p: real -> real, st: StaticFacts, resets: seq<ResetFacts>, f: ResetFacts, board: Board)
    requires Plays(c, log1p, st, resets, f)
    ensures c.knobs.logOffset > 0.0 && c.knobs.saturationOffset > 0.0
    ensures Phi(c.knobs, log1p, BoundFresh(c.knobs, log1p, st, f), Scored(c, board)) == Some(Score(c, board))
  {
    ScoredComplete(c, board);
    PotentialIsPhi(c, log1p, st, resets, f, Scored(c, board));
    hide Phi, BoundFresh, Snapshot, ReadsComplete;
  }

  /** In a per-step episode the cached reward state is what scoring the live board gives. */
  lemma CachedStates(c: Config, live: Board, handle: int, ops: seq<Op>)
    requires c.perStep && DrcRepeatable(c.engine)
    ensures Episode(c, live, handle, ops).w.prev == Scored(c, Episode(c, live, handle, ops).w.board)
    ensures Reset(c, live, handle).prev == Scored(c, Reset(c, live, handle).board)
  {
    EpisodeInvariant(c, live, handle, ops);
    ResetPlace(c, live, handle);
    hide Episode, Reset, StoreOk, SavedGood, Snapshot, Telescopes, SessionHasNet, ClosedCounted;
  }

  /** Held-back emission: the main part up to the live board, the wire and via part up to the last flush; the
      whole difference in Φ when that is now. */
  lemma BoundHeldBackRewardsTelescope(c: Config, log1p: real -> real, st: StaticFacts, resets: seq<ResetFacts>, f: ResetFacts,
                                      live: Board, handle: int, ops: seq<Op>)
    requires Plays(c, log1p, st, resets, f)
    requires c.perStep && !Jumanji(c.knobs) && c.knobs.emission.OnNetEnd? && DrcRepeatable(c.engine)
    ensures var k, b, r := c.knobs, BoundFresh(c.knobs, log1p, st, f), Episode(c, live, handle, ops);
      var now, start := Scored(c, r.w.board), Scored(c, Reset(c, live, handle).board);
      var last := if r.w.reference.Some? then r.w.reference.value else now;
      && PhiMain(k, log1p, b, now).Some? && PhiMain(k, log1p, b, start).Some?
      && r.account.phi == PhiMain(k, log1p, b, now).value - PhiMain(k, log1p, b, start).value
                          + PhiWireVia(k, b, last) - PhiWireVia(k, b, start)
      && (r.w.reference == Some(now) ==>
            && Phi(k, log1p, b, now).Some? && Phi(k, log1p, b, start).Some?
            && r.account.phi == Phi(k, log1p, b, now).value - Phi(k, log1p, b, start).value)
  {
    hide *;
    HeldBackRewardsTelescope(c, live, handle, ops);
    CachedStates(c, live, handle, ops);
    PlaysMeans(c, log1p, st, resets, f);
    var r, w0 := Episode(c, live, handle, ops), Reset(c, live, handle);
    ScoredComplete(c, r.w.board);
    ScoredComplete(c, w0.board);
    PotentialIsPhi(c, log1p, st, resets, f, r.w.prev);
    PotentialIsPhi(c, log1p, st, resets, f, w0.prev);
    var last := if r.w.reference.Some? then r.w.reference.value else r.w.prev;
    WireViaIs(c, log1p, st, resets, f, last);
    WireViaIs(c, log1p, st, resets, f, w0.prev);
  }
}
