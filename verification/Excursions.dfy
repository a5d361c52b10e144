/** Search excursions are invisible: checkpoint, search, restore, and the episode goes on as if nothing
    had happened. */
module Excursions {
  import opened Decimal
  import opened Masking
  import opened Rewards
  import opened EnvSpec
  import opened SearchRuns
  import opened SearchInvariants

  /** A world without the engine's handle numbers; `tracking` is set anew by the driver at every step. */
  function Visible(w: World): World { w.(store := map[], nextHandle := 0, tracking := true, best := None) }

  function KeptBoard(w: World, h: int): Option<Board> { if h in w.store then Some(w.store[h]) else None }

  /** Two worlds that differ in handle numbers only: every episode field is the same, the live boards are
      the same, and so are the kept best boards. */
  ghost predicate Alike(w1: World, w2: World) {
    && Visible(w1) == Visible(w2)
    && (w1.best.Some? <==> w2.best.Some?)
    && (w1.best.Some? ==>
          var b1, b2 := w1.best.value, w2.best.value;
          && b1.phi == b2.phi && b1.saved.(handle := 0) == b2.saved.(handle := 0)
          && KeptBoard(w1, b1.saved.handle) == KeptBoard(w2, b2.saved.handle)
          && KeptBoard(w1, b1.saved.handle).Some?)
  }

  // --- alike worlds have the same future ----------------------------------------------------------------------

  function Reseat(w: World, store: map<int, Board>, next: int, best: Option<Best>): World {
    w.(store := store, nextHandle := next, best := best)
  }

  lemma PerformIgnoresStore(c: Config, w: World, a: Action, store: map<int, Board>, next: int, best: Option<Best>)
    ensures var w' := Reseat(w, store, next, best);
      Perform(c, w', a).0 == Reseat(Perform(c, w, a).0, store, next, best) && Perform(c, w', a).1 == Perform(c, w, a).1
  {
    var w' := Reseat(w, store, next, best);
    assert HandOf(w') == HandOf(w);
    var success := Dispatch(c.engine, HandOf(w), a).1;
    assert Bookkeep(c, w', a, success) == Bookkeep(c, w, a, success);
    hide Dispatch, Bookkeep, Snapshot, HandOf, NoDrc, MovesCopper, StepDrc;
  }

  lemma ActIgnoresStore(c: Config, w: World, a: Action, store: map<int, Board>, next: int, best: Option<Best>)
    ensures var w' := Reseat(w, store, next, best);
      Act(c, w', a).0 == Reseat(Act(c, w, a).0, store, next, best) && Act(c, w', a).1 == Act(c, w, a).1
  {
    var w' := Reseat(w, store, next, best);
    assert Context(c, w') == Context(c, w);
    assert Allowed(c, w', a) == Allowed(c, w, a);
    PerformIgnoresStore(c, w, a, store, next, best);
    hide Perform, Allowed;
  }

  lemma EndingIgnoresStore(c: Config, w: World, o: Outcome, store: map<int, Board>, next: int, best: Option<Best>)
    ensures Stagnate(c, Reseat(w, store, next, best), o) == Reseat(Stagnate(c, w, o), store, next, best)
    ensures Terminated(c, Reseat(w, store, next, best), o) == Terminated(c, w, o)
    ensures Truncated(c, Reseat(w, store, next, best)) == Truncated(c, w)
  {
  }

  lemma PayIgnoresStore(c: Config, w: World, o: Outcome, a: Action, net: Option<int>, t: bool, u: bool,
                        store: map<int, Board>, next: int, best: Option<Best>)
    ensures var w' := Reseat(w, store, next, best);
      Pay(c, w', o, a, net, t, u).0 == Reseat(Pay(c, w, o, a, net, t, u).0, store, next, best)
      && Pay(c, w', o, a, net, t, u).1 == Pay(c, w, o, a, net, t, u).1
  {
    hide Shaping, FinalState, Push;
  }

  lemma ConcludeIs(c: Config, w2: World, o: Outcome, a: Action, net: Option<int>)
    ensures var w3 := Stagnate(c, w2, o);
      var t, u := Terminated(c, w3, o), Truncated(c, w3);
      Conclude(c, w2, o, a, net) == Pay(c, w3.(board := if t || u then EndBoard(c, w3.board) else w3.board), o, a, net, t, u)
  {
    hide Stagnate, Terminated, Truncated, Pay, EndBoard;
  }

  lemma MoveIs(c: Config, w: World, a: Action)
    ensures var (w2, o) := Act(c, w.(steps := w.steps + 1), a); Move(c, w, a) == Conclude(c, w2, o, a, NetContext(a, w.net))
  {
    hide Act, Conclude, NetContext;
  }

  lemma ConcludeIgnoresStore(c: Config, w2: World, o: Outcome, a: Action, net: Option<int>,
                             store: map<int, Board>, next: int, best: Option<Best>)
    ensures var w' := Reseat(w2, store, next, best);
      Conclude(c, w', o, a, net).0 == Reseat(Conclude(c, w2, o, a, net).0, store, next, best)
      && Conclude(c, w', o, a, net).1 == Conclude(c, w2, o, a, net).1
  {
    var w' := Reseat(w2, store, next, best);
    var w3 := Stagnate(c, w2, o);
    var t, u := Terminated(c, w3, o), Truncated(c, w3);
    var w4 := w3.(board := if t || u then EndBoard(c, w3.board) else w3.board);
    assert Reseat(w3, store, next, best).(board := w4.board) == Reseat(w4, store, next, best);
    assert Reseat(w3, store, next, best).board == w3.board;
    hide *;
    EndingIgnoresStore(c, w2, o, store, next, best);
    EndingIgnoresStore(c, w3, o, store, next, best);
    PayIgnoresStore(c, w4, o, a, net, t, u, store, next, best);
    ConcludeIs(c, w2, o, a, net);
    ConcludeIs(c, w', o, a, net);
  }

  lemma MoveIgnoresStore(c: Config, w: World, a: Action, store: map<int, Board>, next: int, best: Option<Best>)
    ensures var w' := Reseat(w, store, next, best);
      Move(c, w', a).0 == Reseat(Move(c, w, a).0, store, next, best) && Move(c, w', a).1 == Move(c, w, a).1
  {
    var w', w1 := Reseat(w, store, next, best), w.(steps := w.steps + 1);
    assert w'.(steps := w'.steps + 1) == Reseat(w1, store, next, best) && w'.net == w.net;
    hide *;
    ActIgnoresStore(c, w1, a, store, next, best);
    var (w2, o) := Act(c, w1, a);
    ConcludeIgnoresStore(c, w2, o, a, NetContext(a, w.net), store, next, best);
    MoveIs(c, w, a);
    MoveIs(c, w', a);
  }

  lemma MoveAlike(c: Config, w1: World, w2: World, a: Action)
    requires Alike(w1, w2) && w1.tracking == w2.tracking
    ensures Alike(Move(c, w1, a).0, Move(c, w2, a).0) && Move(c, w1, a).1 == Move(c, w2, a).1
    ensures Move(c, w1, a).0.tracking == Move(c, w2, a).0.tracking
  {
    assert w2 == Reseat(w1, w2.store, w2.nextHandle, w2.best);
    MoveIgnoresStore(c, w1, a, w2.store, w2.nextHandle, w2.best);
    MoveAfterAct(c, w1, a);
    hide Move, Act, EndBoard;
  }

  lemma Best7Alike(c: Config, w1: World, w2: World, o: Outcome, ended: bool)
    requires Alike(w1, w2) && w1.tracking == w2.tracking
    ensures Alike(Best7(c, w1, o, ended), Best7(c, w2, o, ended))
    ensures RollsBack(c, w1, o, ended) == RollsBack(c, w2, o, ended)
    ensures RollsBack(c, w1, o, ended) ==>
      Observe(Restore(c, w1, w1.best.value.saved, None)) == Observe(Restore(c, w2, w2.best.value.saved, None))
  {
    hide Snapshot;
  }

  lemma FinalAlike(c: Config, w1: World, w2: World, m: Moved)
    requires Alike(w1, w2) && RollsBack(c, w1, m.outcome, true) == RollsBack(c, w2, m.outcome, true)
    ensures FinalPotential(c, w1, m) == FinalPotential(c, w2, m) && Observe(w1) == Observe(w2)
  {
  }

  /** One step on alike worlds: the same observation, reward, flags and terminal facts, and alike worlds. */
  lemma StepAlike(c: Config, w1: World, w2: World, a: Action)
    requires Alike(w1, w2) && w1.tracking == w2.tracking
    ensures Step(c, w1, a).1 == Step(c, w2, a).1 && Alike(Step(c, w1, a).0, Step(c, w2, a).0)
  {
    MoveAlike(c, w1, w2, a);
    var ((v1, m), v2) := (Move(c, w1, a), Move(c, w2, a).0);
    Best7Alike(c, v1, v2, m.outcome, m.Ended());
    Best7Alike(c, v1, v2, m.outcome, true);
    FinalAlike(c, v1, v2, m);
    hide Move, Best7, RollsBack, Alike, Restore, Observe, OtherPenalty, FinalPotential;
  }

  /** The results of a committed action sequence. */
  function Trace(c: Config, w: World, actions: seq<Action>): seq<StepResult>
    decreases |actions|
  {
    if actions == [] then []
    else var (w', s) := Step(c, w.(tracking := true), actions[0]); [s] + Trace(c, w', actions[1..])
  }

  lemma {:induction false} SameFuture(c: Config, w1: World, w2: World, actions: seq<Action>)
    requires Alike(w1, w2)
    ensures Trace(c, w1, actions) == Trace(c, w2, actions)
    decreases |actions|
  {
    if actions != [] {
      var v1, v2 := w1.(tracking := true), w2.(tracking := true);
      assert Alike(v1, v2);
      hide Step, Alike;
      StepAlike(c, v1, v2, actions[0]);
      SameFuture(c, Step(c, v1, actions[0]).0, Step(c, v2, actions[0]).0, actions[1..]);
    }
  }

  // --- excursions ---------------------------------------------------------------------------------------------

  /** A search move that leaves checkpoint `k` alive. */
  predicate Excursive(op: Op, k: nat) { !op.Commit? && op != Drop(k) }

  /** What no search move changes. */
  ghost predicate Kept(was: Run, now: Run) {
    && now.w.best == was.w.best && now.w.stagnation == was.w.stagnation && now.w.prevUnrouted == was.w.prevUnrouted
    && now.w.bornClosed == was.w.bornClosed && now.w.initialPhi == was.w.initialPhi
    && now.w.initialUnconnected == was.w.initialUnconnected
    && now.peak == was.peak && now.over == was.over
    && now.w.nextHandle >= was.w.nextHandle
    && (forall h | h in was.w.store && h in now.w.store :: now.w.store[h] == was.w.store[h])
    && (forall h | h in now.w.store && h < was.w.nextHandle :: h in was.w.store)
    && |now.nodes| >= |was.nodes|
    && (forall i | 0 <= i < |was.nodes| :: now.nodes[i].(live := true) == was.nodes[i].(live := true))
    && (forall i | 0 <= i < |was.nodes| && now.nodes[i].live :: was.nodes[i].live)
  }

  lemma SearchStepKeeps(c: Config, r: Run, a: Action)
    ensures var r' := Stepped(c, r, false, a);
      r'.w.store == r.w.store && r'.w.nextHandle == r.w.nextHandle && r'.nodes == r.nodes && Kept(r.(over := false), r')
  {
    MoveAfterAct(c, r.w.(tracking := false), a);
    hide Move, Act, EndBoard, Observe, FinalPotential, OtherPenalty;
  }

  lemma ApplyKeeps(c: Config, r: Run, op: Op, k: nat)
    requires StoreOk(r) && !r.over && Excursive(op, k) && k < |r.nodes| && r.nodes[k].live
    ensures var r' := Apply(c, r, op); Kept(r, r') && r'.nodes[k].live
  {
    hide OwnedByNode;
    match op
    case Search(a) => SearchStepKeeps(c, r, a); hide Stepped;
    case _ => hide Stepped, Push;
  }

  lemma KeptChain(a: Run, b: Run, c: Run)
    requires StoreOk(a) && Kept(a, b) && Kept(b, c)
    ensures Kept(a, c)
  {
    hide OwnedByNode;
    forall i | 0 <= i < |a.nodes|
      ensures c.nodes[i].(live := true) == a.nodes[i].(live := true) && (c.nodes[i].live ==> a.nodes[i].live)
    {
      assert b.nodes[i].(live := true) == a.nodes[i].(live := true);
    }
  }

  lemma {:induction false} ExcursionKeeps(c: Config, root: World, r: Run, ops: seq<Op>, k: nat)
    requires Invariant(c, root, r) && !r.over && k < |r.nodes| && r.nodes[k].live
    requires forall i | 0 <= i < |ops| :: Excursive(ops[i], k)
    ensures var r' := RunOps(c, r, ops); Kept(r, r') && r'.nodes[k].live && Invariant(c, root, r')
  {
    if ops != [] {
      var init := ops[..|ops| - 1];
      ExcursionKeeps(c, root, r, init, k);
      var r1 := RunOps(c, r, init);
      ApplyKeeps(c, r1, ops[|ops| - 1], k);
      ApplyInvariant(c, root, r1, ops[|ops| - 1]);
      hide Apply;
      KeptChain(r, r1, Apply(c, r1, ops[|ops| - 1]));
    }
  }

  /** Checkpoint, search at will (steps, nested checkpoints, restores and releases), restore: the world is
      alike to what it was, the driver's other live checkpoints still hold their boards, and the checkpoint
      can be restored again. */
  lemma ExcursionIsInvisible(c: Config, root: World, r: Run, ops: seq<Op>)
    requires Invariant(c, root, r) && !r.over
    requires forall i | 0 <= i < |ops| :: Excursive(ops[i], |r.nodes|)
    ensures var away := RunOps(c, Apply(c, r, Save), ops);
      var back := Apply(c, away, Back(|r.nodes|, None));
      && Alike(r.w, back.w) && back.account == r.account && back.peak == r.peak && !back.over
      && |back.nodes| > |r.nodes| && back.nodes[|r.nodes|].live
      && (forall i | 0 <= i < |r.nodes| && back.nodes[i].live ::
            r.nodes[i] == back.nodes[i] && KeptBoard(back.w, back.nodes[i].saved.handle) == KeptBoard(r.w, r.nodes[i].saved.handle))
  {
    var k := |r.nodes|;
    var r1 := Apply(c, r, Save);
    ApplyInvariant(c, root, r, Save);
    ExcursionKeeps(c, root, r1, ops, k);
    var away := RunOps(c, r1, ops);
    assert away.nodes[k].(live := true) == r1.nodes[k] == Node(SavedNow(r.w), r.account, true);
    assert r1.w.store[SavedNow(r.w).handle] == r.w.board;
    assert StoreOk(r) && StoreOk(away);
    hide RunOps, Good, SavedGood, Stepped, OwnedByNode, Invariant;
    forall i | 0 <= i < k && away.nodes[i].live
      ensures r.nodes[i] == away.nodes[i] && KeptBoard(away.w, away.nodes[i].saved.handle) == KeptBoard(r.w, r.nodes[i].saved.handle)
    {
      assert r1.nodes[i] == r.nodes[i];
    }
  }

  /** So every committed continuation after the excursion gives the results it would have given before. */
  lemma ExcursionChangesNoResult(c: Config, root: World, r: Run, ops: seq<Op>, actions: seq<Action>)
    requires Invariant(c, root, r) && !r.over
    requires forall i | 0 <= i < |ops| :: Excursive(ops[i], |r.nodes|)
    ensures var away := RunOps(c, Apply(c, r, Save), ops);
      Trace(c, Apply(c, away, Back(|r.nodes|, None)).w, actions) == Trace(c, r.w, actions)
  {
    ExcursionIsInvisible(c, root, r, ops);
    hide Apply, RunOps, Alike, Trace;
    SameFuture(c, r.w, Apply(c, RunOps(c, Apply(c, r, Save), ops), Back(|r.nodes|, None)).w, actions);
  }
}
