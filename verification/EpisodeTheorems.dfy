/** The episode-level promises: telescoping rewards, session safety, closed-net accounting. */
module EpisodeTheorems {
  import opened Decimal
  import opened Masking
  import opened Rewards
  import opened EnvSpec
  import opened SearchRuns
  import opened SearchInvariants

  /** Φ of a board, scored now. */
  function Score(c: Config, b: Board): real { c.potential.Phi(Snapshot(c.engine, b, c.drcActive).1) }

  // --- telescoping ------------------------------------------------------------------------------------------

  /** Per-step emission: after any operations the potential differences collected on the path to the live
      board sum to its Φ minus the Φ of the reset board, as scored on the boards themselves. */
  lemma RewardsTelescope(c: Config, live: Board, handle: int, ops: seq<Op>)
    requires c.perStep && !Jumanji(c.knobs) && c.knobs.emission.PerStep? && DrcRepeatable(c.engine)
    ensures var r := Episode(c, live, handle, ops);
      r.account.phi == Score(c, r.w.board) - Score(c, Reset(c, live, handle).board)
  {
    EpisodeInvariant(c, live, handle, ops);
    hide Episode, Reset, StoreOk, SavedGood, Jumanji, Snapshot;
    ResetPlace(c, live, handle);
  }

  /** Held-back emission: the sum is the Φ_main difference plus the Φ_wire_via difference between the last
      flushed state and the root; when the path ends on a flush that is the whole difference. */
  lemma HeldBackRewardsTelescope(c: Config, live: Board, handle: int, ops: seq<Op>)
    requires c.perStep && !Jumanji(c.knobs) && c.knobs.emission.OnNetEnd?
    ensures var w0, r := Reset(c, live, handle), Episode(c, live, handle, ops);
      var last := if r.w.reference.Some? then r.w.reference.value else r.w.prev;
      && r.account.phi == c.potential.main(r.w.prev) - c.potential.main(w0.prev)
                          + c.potential.wireVia(last) - c.potential.wireVia(w0.prev)
      && (r.w.reference == Some(r.w.prev) ==> r.account.phi == c.potential.Phi(r.w.prev) - c.potential.Phi(w0.prev))
  {
    EpisodeInvariant(c, live, handle, ops);
    assert Reset(c, live, handle).reference == None;
    hide Episode, Reset, StoreOk, SavedGood, Jumanji, InView, SessionHasNet, ClosedCounted;
  }

  /** A valid step that ends a net or completes the board leaves nothing held back; any other leaves the last flushed
      state, or the one before it when there is none yet. */
  lemma FlushSettles(c: Config, w: World, a: Action)
    requires c.perStep && !Jumanji(c.knobs) && c.knobs.emission.OnNetEnd?
    requires !Step(c, w, a).1.rolledBack && Step(c, w, a).1.outcome.after.Some?
    ensures var (w', s) := Step(c, w, a);
      w'.reference == if a.NetEnd? || s.outcome.after.value.unconnected == 0 then Some(w'.prev)
                      else if w.reference.Some? then w.reference else Some(w.prev)
  {
    MoveScores(c, w, a);
    var (w6, m) := Move(c, w, a);
    ActKeeps(c, w.(steps := w.steps + 1), a);
    MoveAfterAct(c, w, a);
    Best7Cases(c, w6, m.outcome, m.Ended());
    hide Move, Act, Best7, RollsBack, Snapshot, Observe, FinalPotential, OtherPenalty, Jumanji;
  }

  /** Between any two of a driver's checkpoints the collected sums differ by the difference in Φ of the
      boards they hold, however the search went from one to the other. */
  lemma CheckpointsTelescope(c: Config, live: Board, handle: int, ops: seq<Op>, i: nat, j: nat)
    requires c.perStep && !Jumanji(c.knobs) && c.knobs.emission.PerStep? && DrcRepeatable(c.engine)
    requires var r := Episode(c, live, handle, ops);
      i < |r.nodes| && j < |r.nodes| && r.nodes[i].live && r.nodes[j].live
    ensures var r := Episode(c, live, handle, ops);
      && r.nodes[i].saved.handle in r.w.store && r.nodes[j].saved.handle in r.w.store
      && r.nodes[j].account.phi - r.nodes[i].account.phi
         == Score(c, r.w.store[r.nodes[j].saved.handle]) - Score(c, r.w.store[r.nodes[i].saved.handle])
  {
    EpisodeInvariant(c, live, handle, ops);
    var root, r := Reset(c, live, handle), Episode(c, live, handle, ops);
    assert SavedGood(c, root, r.w.store, r.nodes[i].saved, r.nodes[i].account);
    assert SavedGood(c, root, r.w.store, r.nodes[j].saved, r.nodes[j].account);
    hide Episode, Reset, StoreOk, Jumanji, Snapshot, SessionHasNet, ClosedCounted;
  }

  // --- routing sessions -------------------------------------------------------------------------------------

  /** In every reachable state, the driver's checkpoints included, an open routing session has a net. */
  lemma OpenSessionHasNet(c: Config, live: Board, handle: int, ops: seq<Op>)
    requires SessionsHonest(c.engine) && GrantsSafely(c.rule)
    ensures var r := Episode(c, live, handle, ops);
      && (c.engine.routing(r.w.board) ==> r.w.net.Some?)
      && forall i | 0 <= i < |r.nodes| && r.nodes[i].live ::
           r.nodes[i].saved.handle in r.w.store
           && (c.engine.routing(r.w.store[r.nodes[i].saved.handle]) ==> r.nodes[i].saved.net.Some?)
  {
    EpisodeInvariant(c, live, handle, ops);
    var root, r := Reset(c, live, handle), Episode(c, live, handle, ops);
    hide Episode, Reset, GrantsSafely, StoreOk, Telescopes, InView, ClosedCounted;
    forall i | 0 <= i < |r.nodes| && r.nodes[i].live
      ensures r.nodes[i].saved.handle in r.w.store
              && (c.engine.routing(r.w.store[r.nodes[i].saved.handle]) ==> r.nodes[i].saved.net.Some?)
    {
      assert SavedGood(c, root, r.w.store, r.nodes[i].saved, r.nodes[i].account);
    }
  }

  /** An idle, a masked or an unselectable action cannot touch the board or the dispatcher. */
  lemma RefusedActionsDoNothing(c: Config, w: World, a: Action)
    requires a.Idle? || !Allowed(c, w, a)
    ensures Act(c, w, a).0 == w && !Act(c, w, a).1.kind.Valid()
  {
    hide Perform, Allowed;
  }

  /** A dispatched `finish`, and a dispatched line or via that fails, leaves no session open. */
  lemma NoSessionSurvives(c: Config, w: World, a: Action)
    requires SessionsHonest(c.engine) && Allowed(c, w, a)
    requires a.Finish? || a.MakeLine? || a.MakeVia?
    ensures var (w', o) := Act(c, w, a); a.Finish? || !o.success ==> !c.engine.routing(w'.board)
  {
    DispatchKeepsSession(c.engine, HandOf(w), a);
    hide Dispatch, Bookkeep, Allowed;
  }

  // --- closed nets ------------------------------------------------------------------------------------------

  /** The closed set holds the nets born closed plus one for every first closing on the path, less one for
      every reopening; without reselect nothing is ever reopened and no born-closed net is lost. */
  lemma ClosedNetsAddUp(c: Config, live: Board, handle: int, ops: seq<Op>)
    ensures var w0, r := Reset(c, live, handle), Episode(c, live, handle, ops);
      && |r.w.closed| == |w0.bornClosed| + r.account.closings - r.w.reopens
      && (!c.reselect ==> w0.bornClosed <= r.w.closed && r.w.reopens == 0)
  {
    EpisodeInvariant(c, live, handle, ops);
    ResetPlace(c, live, handle);
    hide Episode, Reset, StoreOk, SavedGood, Telescopes, InView, SessionHasNet;
  }

  /** One action on the closed set: at most one net enters, by `net_end` on the selected net; at most one
      leaves, only under reselect, and only a net that still has ratsnest edges. */
  lemma ClosedSetMoves(c: Config, w: World, a: Action)
    ensures var (w', o) := Act(c, w, a);
      && (!c.reselect ==> w.closed <= w'.closed)
      && (forall n | n in w'.closed && n !in w.closed :: a.NetEnd? && w.net == Some(n) && o.success)
      && (forall n | n in w.closed && n !in w'.closed ::
            c.reselect && a == NetSelect(n) && n in c.engine.ratsnest(w.board) && w'.reopens == w.reopens + 1)
  {
    hide Snapshot, Allowed, LineRoute, ViaRoute, DropSession;
  }

  // --- the checkpoint store ---------------------------------------------------------------------------------

  /** The engine holds the driver's live checkpoints, each still restorable, and at most one more. */
  lemma AtMostOneBestBoard(c: Config, live: Board, handle: int, ops: seq<Op>)
    ensures var r := Episode(c, live, handle, ops);
      forall h, k | h in r.w.store && k in r.w.store && !OwnedByNode(r.nodes, h) && !OwnedByNode(r.nodes, k) :: h == k
    ensures var r := Episode(c, live, handle, ops);
      forall i | 0 <= i < |r.nodes| && r.nodes[i].live :: r.nodes[i].saved.handle in r.w.store
  {
    EpisodeInvariant(c, live, handle, ops);
    hide Episode, OwnedByNode, Good, Reset;
  }
}
