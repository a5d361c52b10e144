/** What holds after any sequence of committed steps, search steps, checkpoints, restores and releases. */
module SearchInvariants {
  import opened Decimal
  import opened Masking
  import opened Rewards
  import opened EnvSpec
  import opened SearchRuns

  /** The engine's store holds exactly the driver's live checkpoints and at most one best board. */
  ghost predicate StoreOk(r: Run) {
    var store := r.w.store;
    && (forall h | h in store :: h < r.w.nextHandle)
    && (forall i | 0 <= i < |r.nodes| && r.nodes[i].live :: r.nodes[i].saved.handle in store)
    && (forall i, j | 0 <= i < j < |r.nodes| && r.nodes[i].live && r.nodes[j].live ::
          r.nodes[i].saved.handle != r.nodes[j].saved.handle)
    && (r.w.best.Some? ==>
          && r.w.best.value.saved.handle in store
          && forall i | 0 <= i < |r.nodes| && r.nodes[i].live :: r.nodes[i].saved.handle != r.w.best.value.saved.handle)
    && (forall h | h in store :: OwnedByNode(r.nodes, h) || (r.w.best.Some? && h == r.w.best.value.saved.handle))
  }

  ghost predicate OwnedByNode(nodes: seq<Node>, h: int) {
    exists i :: 0 <= i < |nodes| && nodes[i].live && nodes[i].saved.handle == h
  }

  ghost predicate SavedGood(c: Config, root: World, store: map<int, Board>, s: Saved, account: Account) {
    s.handle in store && Good(c, root.bornClosed, PlaceOf(root), PlaceAt(store, s), account)
  }

  ghost predicate Invariant(c: Config, root: World, r: Run) {
    && StoreOk(r)
    && Good(c, root.bornClosed, PlaceOf(root), PlaceOf(r.w), r.account)
    && (forall i | 0 <= i < |r.nodes| && r.nodes[i].live :: SavedGood(c, root, r.w.store, r.nodes[i].saved, r.nodes[i].account))
    && (r.w.best.Some? ==> SavedGood(c, root, r.w.store, r.w.best.value.saved, r.bestAccount))
  }

  // --- the root -------------------------------------------------------------------------------------------

  lemma ResetPlace(c: Config, live: Board, handle: int)
    ensures var w := Reset(c, live, handle);
      && Good(c, w.bornClosed, PlaceOf(w), PlaceOf(w), Account(0.0, 0))
      && w.net == None && w.steps == 0 && w.closed == w.bornClosed && w.reopens == 0 && w.initialPhi == c.potential.Phi(w.prev)
      && (SessionsHonest(c.engine) ==> !c.engine.routing(w.board))
  {
    var e := c.engine;
    var stripped := e.connect(e.strip(DropSession(e, live)));
    if SessionsHonest(e) {
      assert !e.routing(DropSession(e, live));
      assert !e.routing(stripped);
    }
  }

  lemma ResetInvariant(c: Config, live: Board, handle: int)
    ensures var w := Reset(c, live, handle); Invariant(c, w, Start(w))
  {
    ResetPlace(c, live, handle);
    hide Good, Snapshot;
  }

  // --- the moves --------------------------------------------------------------------------------------------

  lemma GoodAfterSnapshot(c: Config, born: set<int>, root: Place, p: Place, account: Account)
    requires Good(c, born, root, p, account)
    ensures Good(c, born, root, p.(board := Snapshot(c.engine, p.board, c.drcActive).0), account)
  {
    hide GrantsSafely;
  }

  /** The three things stage 7 can do. */
  lemma Best7Cases(c: Config, w: World, o: Outcome, ended: bool)
    ensures var w' := Best7(c, w, o, ended);
      || (w' == w && !RollsBack(c, w, o, ended))
      || (c.outputBest && w.tracking && !ended && o.after.Some? && !RollsBack(c, w, o, ended)
          && w' == KeepBest(c, w, c.potential.Phi(o.after.value)))
      || (RollsBack(c, w, o, ended)
          && var w1 := Restore(c, w, w.best.value.saved, None); w' == w1.(board := Snapshot(c.engine, w1.board, c.drcActive).0))
  {
    hide KeepBest, Restore, Snapshot;
  }

  /** Replacing the best board: the driver's checkpoints keep their boards. */
  lemma KeepBestKeeps(c: Config, root: World, r: Run, phi: real, account: Account)
    requires Invariant(c, root, r)
    requires Good(c, root.bornClosed, PlaceOf(root), PlaceOf(r.w), account)
    ensures var w' := KeepBest(c, r.w, phi);
      Invariant(c, root, r.(w := w', account := account, bestAccount := if w'.best != r.w.best then account else r.bestAccount))
  {
    var w' := KeepBest(c, r.w, phi);
    hide Good;
    if w'.best != r.w.best {
      assert w'.best.value.saved == SavedNow(r.w);
      assert PlaceAt(w'.store, w'.best.value.saved) == PlaceOf(r.w);
      assert PlaceOf(w') == PlaceOf(r.w);
      forall i | 0 <= i < |r.nodes| && r.nodes[i].live
        ensures SavedGood(c, root, w'.store, r.nodes[i].saved, r.nodes[i].account)
      {
        assert PlaceAt(w'.store, r.nodes[i].saved) == PlaceAt(r.w.store, r.nodes[i].saved);
      }
    }
  }

  /** A rollback goes back to the best board's place. */
  lemma RollbackKeeps(c: Config, root: World, r: Run)
    requires Invariant(c, root, r) && r.w.best.Some?
    ensures var w1 := Restore(c, r.w, r.w.best.value.saved, None);
      Invariant(c, root, r.(w := w1.(board := Snapshot(c.engine, w1.board, c.drcActive).0), account := r.bestAccount))
  {
    var s := r.w.best.value.saved;
    GoodAfterSnapshot(c, root.bornClosed, PlaceOf(root), PlaceAt(r.w.store, s), r.bestAccount);
    hide Good, Snapshot, OwnedByNode;
  }

  /** Stages 1 to 6 of a step of a run. */
  function AfterMove(c: Config, r: Run, tracking: bool, a: Action): Run {
    var (w', m) := Move(c, r.w.(tracking := tracking), a);
    r.(w := w', account := Account(r.account.phi + m.diff, r.account.closings + if m.outcome.newlyClosed then 1 else 0))
  }

  lemma MovedInvariant(c: Config, root: World, r: Run, tracking: bool, a: Action)
    requires Invariant(c, root, r)
    ensures Invariant(c, root, AfterMove(c, r, tracking, a))
  {
    var w := r.w.(tracking := tracking);
    assert PlaceOf(w) == PlaceOf(r.w);
    MoveKeeps(c, root.bornClosed, PlaceOf(root), w, a, r.account);
    MoveAfterAct(c, w, a);
    hide Move, Good, PlaceAt, OwnedByNode, Act, EndBoard;
  }

  lemma InvariantIgnores(c: Config, root: World, r: Run, peak: real, over: bool)
    ensures Invariant(c, root, r) == Invariant(c, root, r.(peak := peak, over := over))
  {
    hide Good;
  }

  /** Stage 7 of a step of a run. */
  function Settle(c: Config, moved: Run, o: Outcome, ended: bool): Run {
    var w' := Best7(c, moved.w, o, ended);
    var account := if RollsBack(c, moved.w, o, ended) then moved.bestAccount else moved.account;
    moved.(w := w', account := account, bestAccount := if w'.best != moved.w.best then account else moved.bestAccount)
  }

  lemma SteppedIs(c: Config, r: Run, tracking: bool, a: Action)
    ensures var m := Move(c, r.w.(tracking := tracking), a).1;
      var r' := Stepped(c, r, tracking, a);
      r' == Settle(c, AfterMove(c, r, tracking, a), m.outcome, m.Ended()).(peak := r'.peak, over := r'.over)
  {
    MoveAfterAct(c, r.w.(tracking := tracking), a);
    hide Move, Act, EndBoard, Best7, RollsBack, Observe, FinalPotential, OtherPenalty, Restore;
  }

  lemma SettleInvariant(c: Config, root: World, moved: Run, o: Outcome, ended: bool)
    requires Invariant(c, root, moved)
    ensures Invariant(c, root, Settle(c, moved, o, ended))
  {
    Best7Cases(c, moved.w, o, ended);
    assert Good(c, root.bornClosed, PlaceOf(root), PlaceOf(moved.w), moved.account);
    if RollsBack(c, moved.w, o, ended) {
      RollbackKeeps(c, root, moved);
      assert Best7(c, moved.w, o, ended).best == moved.w.best;
      hide Best7, RollsBack, Invariant, Restore, Snapshot;
    } else if Best7(c, moved.w, o, ended) != moved.w {
      KeepBestKeeps(c, root, moved, c.potential.Phi(o.after.value), moved.account);
      hide Best7, RollsBack, Invariant, KeepBest;
    } else {
      hide Best7, RollsBack, Invariant;
    }
  }

  lemma SteppedInvariant(c: Config, root: World, r: Run, tracking: bool, a: Action)
    requires Invariant(c, root, r)
    ensures Invariant(c, root, Stepped(c, r, tracking, a))
  {
    hide *;
    var m := Move(c, r.w.(tracking := tracking), a).1;
    MovedInvariant(c, root, r, tracking, a);
    SettleInvariant(c, root, AfterMove(c, r, tracking, a), m.outcome, m.Ended());
    SteppedIs(c, r, tracking, a);
    var r' := Stepped(c, r, tracking, a);
    InvariantIgnores(c, root, Settle(c, AfterMove(c, r, tracking, a), m.outcome, m.Ended()), r'.peak, r'.over);
  }

  lemma SaveInvariant(c: Config, root: World, r: Run)
    requires Invariant(c, root, r)
    ensures Invariant(c, root, r.(w := Checkpoint(r.w).0, nodes := r.nodes + [Node(SavedNow(r.w), r.account, true)]))
  {
    var (w', s) := Checkpoint(r.w);
    var nodes' := r.nodes + [Node(s, r.account, true)];
    hide Good;
    assert PlaceAt(w'.store, s) == PlaceOf(r.w) == PlaceOf(w');
    forall t: Saved | t.handle in r.w.store
      ensures PlaceAt(w'.store, t) == PlaceAt(r.w.store, t)
    {
    }
    forall h | h in w'.store
      ensures OwnedByNode(nodes', h) || (r.w.best.Some? && h == r.w.best.value.saved.handle)
    {
      if h == s.handle {
        assert nodes'[|r.nodes|].saved.handle == h;
      } else if OwnedByNode(r.nodes, h) {
        var i :| 0 <= i < |r.nodes| && r.nodes[i].live && r.nodes[i].saved.handle == h;
        assert nodes'[i] == r.nodes[i];
      }
    }
  }

  lemma BackInvariant(c: Config, root: World, r: Run, i: nat, edge: Option<(Action, bool)>)
    requires Invariant(c, root, r) && i < |r.nodes| && r.nodes[i].live
    ensures Invariant(c, root, r.(w := Restore(c, r.w, r.nodes[i].saved, edge), account := r.nodes[i].account))
  {
    assert SavedGood(c, root, r.w.store, r.nodes[i].saved, r.nodes[i].account);
    assert PlaceOf(Restore(c, r.w, r.nodes[i].saved, edge)) == PlaceAt(r.w.store, r.nodes[i].saved);
    hide Good, OwnedByNode, Push;
  }

  lemma DropInvariant(c: Config, root: World, r: Run, i: nat)
    requires Invariant(c, root, r) && i < |r.nodes| && r.nodes[i].live
    ensures Invariant(c, root, r.(w := Release(r.w, r.nodes[i].saved), nodes := r.nodes[i := r.nodes[i].(live := false)]))
  {
    var s := r.nodes[i].saved;
    var w' := Release(r.w, s);
    var nodes' := r.nodes[i := r.nodes[i].(live := false)];
    hide Good;
    forall t: Saved | t.handle in w'.store
      ensures PlaceAt(w'.store, t) == PlaceAt(r.w.store, t)
    {
    }
    assert PlaceOf(w') == PlaceOf(r.w);
    forall j | 0 <= j < |nodes'| && nodes'[j].live
      ensures nodes'[j] == r.nodes[j] && nodes'[j].saved.handle != s.handle
    {
      assert j != i;
      if j < i { assert r.nodes[j].saved.handle != r.nodes[i].saved.handle; }
      else { assert r.nodes[i].saved.handle != r.nodes[j].saved.handle; }
    }
    forall h | h in w'.store
      ensures OwnedByNode(nodes', h) || (r.w.best.Some? && h == r.w.best.value.saved.handle)
    {
      if OwnedByNode(r.nodes, h) {
        var j :| 0 <= j < |r.nodes| && r.nodes[j].live && r.nodes[j].saved.handle == h;
        assert nodes'[j] == r.nodes[j];
      }
    }
  }

  lemma ApplyInvariant(c: Config, root: World, r: Run, op: Op)
    requires Invariant(c, root, r)
    ensures Invariant(c, root, Apply(c, r, op))
  {
    hide Invariant, Stepped, Restore;
    if !r.over {
      match op
      case Commit(a) => SteppedInvariant(c, root, r, true, a);
      case Search(a) => SteppedInvariant(c, root, r, false, a);
      case Save => SaveInvariant(c, root, r);
      case Back(i, edge) => if i < |r.nodes| && r.nodes[i].live { BackInvariant(c, root, r, i, edge); }
      case Drop(i) => if i < |r.nodes| && r.nodes[i].live { DropInvariant(c, root, r, i); }
    }
  }

  lemma {:induction false} RunKeepsInvariant(c: Config, root: World, r: Run, ops: seq<Op>)
    requires Invariant(c, root, r)
    ensures Invariant(c, root, RunOps(c, r, ops))
  {
    hide Invariant, Apply;
    if ops != [] {
      RunKeepsInvariant(c, root, r, ops[..|ops| - 1]);
      ApplyInvariant(c, root, RunOps(c, r, ops[..|ops| - 1]), ops[|ops| - 1]);
    }
  }

  /** The run of an episode: any operations after a reset. */
  function Episode(c: Config, live: Board, handle: int, ops: seq<Op>): Run {
    RunOps(c, Start(Reset(c, live, handle)), ops)
  }

  lemma EpisodeInvariant(c: Config, live: Board, handle: int, ops: seq<Op>)
    ensures Invariant(c, Reset(c, live, handle), Episode(c, live, handle, ops))
  {
    ResetInvariant(c, live, handle);
    RunKeepsInvariant(c, Reset(c, live, handle), Start(Reset(c, live, handle)), ops);
  }
}
