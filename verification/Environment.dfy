/** The environment as the code has it: an engine, a dispatcher and an episode, updated in place.  Every
    method is proved to do what `EnvSpec` says, aliasing included. */
module Environment {
  import opened Decimal
  import opened Masking
  import opened Rewards
  import opened IntSets
  import opened EnvSpec

  /** The router, with its checkpoint store. */
  class KiCadEngine {
    const ops: Engine
    var board: Board
    var store: map<int, Board>
    var nextHandle: int

    constructor (ops: Engine, board: Board)
      ensures this.ops == ops && this.board == board && store == map[]
    {
      this.ops, this.board := ops, board;
      store, nextHandle := map[], 0;
    }

    method GetRewardSnapshot(runDrc: bool) returns (s: RewardState)
      modifies this`board
      ensures (board, s) == Snapshot(ops, old(board), runDrc)
    {
      if runDrc {
        board := ops.runDrc(board);
        s := ops.read(board);
      } else {
        s := NoDrc(ops.read(board));
      }
    }

    method Checkpoint() returns (handle: int)
      modifies this`store, this`nextHandle
      ensures handle == old(nextHandle) && nextHandle == old(nextHandle) + 1 && store == old(store)[handle := board]
    {
      handle := nextHandle;
      store, nextHandle := store[handle := board], nextHandle + 1;
    }

    /** False for a stale handle; the board is then left as it is. */
    method RestoreIncremental(handle: int) returns (ok: bool)
      modifies this`board
      ensures ok <==> handle in store
      ensures board == if ok then store[handle] else old(board)
    {
      ok := handle in store;
      if ok {
        board := store[handle];
      }
    }

    method ReleaseCheckpoint(handle: int)
      modifies this`store
      ensures store == old(store) - {handle}
    {
      store := store - {handle};
    }

    method CancelIfRouting()
      modifies this`board
      ensures board == DropSession(ops, old(board))
    {
      if ops.routing(board) {
        board := ops.cancel(board);
      }
    }
  }

  class ActionDispatcher {
    var currentNetId: Option<int>
    var routingMode: int

    constructor ()
      ensures currentNetId == None && routingMode == 2
    {
      currentNetId, routingMode := None, 2;
    }

    function Now(engine: KiCadEngine): Hand
      reads this, engine
    {
      Hand(engine.board, currentNetId, routingMode)
    }

    method DoNetSelect(engine: KiCadEngine, netId: int) returns (ok: bool)
      modifies this`currentNetId
      ensures (Now(engine), ok) == EnvSpec.Dispatch(engine.ops, old(Now(engine)), NetSelect(netId))
    {
      ok := netId in engine.ops.ratsnest(engine.board);
      if ok {
        currentNetId := Some(netId);
      }
    }

    method DoStartRoute(engine: KiCadEngine, x: real, y: real, layer: int) returns (ok: bool)
      modifies engine`board
      ensures (Now(engine), ok) == EnvSpec.Dispatch(engine.ops, old(Now(engine)), StartRoute(x, y, layer))
    {
      if engine.ops.routing(engine.board) {
        return false;
      }
      if layer < 1 || layer > engine.ops.maxLayer {
        return false;
      }
      var r := engine.ops.startRoute(engine.board, x, y, layer);
      engine.board := r.0;
      ok := r.1;
    }

    method DoNetEnd(engine: KiCadEngine) returns (ok: bool)
      modifies this`currentNetId, engine`board
      ensures (Now(engine), ok) == EnvSpec.Dispatch(engine.ops, old(Now(engine)), NetEnd)
    {
      if currentNetId.None? {
        return false;
      }
      engine.board := engine.ops.connect(engine.board);
      currentNetId := None;
      ok := true;
    }

    method DoMakeLine(engine: KiCadEngine, x: real, y: real, mode: int) returns (ok: bool)
      modifies this`routingMode, engine`board
      ensures (Now(engine), ok) == EnvSpec.Dispatch(engine.ops, old(Now(engine)), MakeLine(x, y, mode))
    {
      routingMode := mode;
      ok := false;
      if !engine.ops.padBlocked(engine.board, x, y, false) {
        engine.board := engine.ops.setMode(engine.board, mode);
        var r := engine.ops.fixRoute(engine.board, x, y, false);
        engine.board := r.0;
        ok := r.1;
      }
      if !ok {
        engine.CancelIfRouting();
      }
    }

    method DoMakeVia(engine: KiCadEngine, x: real, y: real, mode: int) returns (ok: bool)
      modifies this`routingMode, engine`board
      ensures (Now(engine), ok) == EnvSpec.Dispatch(engine.ops, old(Now(engine)), MakeVia(x, y, mode))
    {
      routingMode := mode;
      ok := false;
      if !engine.ops.padBlocked(engine.board, x, y, true) {
        engine.board := engine.ops.setMode(engine.board, mode);
        var viasBefore := engine.ops.viaCount(engine.board);
        engine.board := engine.ops.setViaPlacement(engine.board, true);
        var r := engine.ops.fixRoute(engine.board, x, y, true);
        engine.board := r.0;
        ok := r.1 && engine.ops.viaCount(engine.board) > viasBefore;
        if engine.ops.routing(engine.board) {
          engine.board := engine.ops.setViaPlacement(engine.board, false);
        }
      }
      if !ok {
        engine.CancelIfRouting();
      }
    }

    method DoFinish(engine: KiCadEngine, mode: int) returns (ok: bool)
      modifies this`routingMode, engine`board
      ensures (Now(engine), ok) == EnvSpec.Dispatch(engine.ops, old(Now(engine)), Finish(mode))
    {
      routingMode := mode;
      engine.board := engine.ops.setMode(engine.board, mode);
      var r := engine.ops.finish(engine.board);
      engine.board := r.0;
      ok := r.1;
      engine.CancelIfRouting();
    }

    method Dispatch(engine: KiCadEngine, a: Action) returns (ok: bool)
      modifies this, engine`board
      ensures (Now(engine), ok) == EnvSpec.Dispatch(engine.ops, old(Now(engine)), a)
    {
      match a
      case NetSelect(n) => ok := DoNetSelect(engine, n);
      case StartRoute(x, y, layer) => ok := DoStartRoute(engine, x, y, layer);
      case NetEnd => ok := DoNetEnd(engine);
      case MakeLine(x, y, mode) => ok := DoMakeLine(engine, x, y, mode);
      case MakeVia(x, y, mode) => ok := DoMakeVia(engine, x, y, mode);
      case Finish(mode) => ok := DoFinish(engine, mode);
      case Idle(_) => ok := false;
    }
  }

  /** A checkpoint node: what was saved, and whether the engine's copy has been freed. */
  class Checkpoint {
    const saved: Saved
    var released: bool

    constructor (saved: Saved)
      ensures this.saved == saved && !released
    {
      this.saved, released := saved, false;
    }

    /** Frees the engine's copy, once. */
    method Release(engine: KiCadEngine)
      modifies this`released, engine`store
      ensures released
      ensures engine.store == if old(released) then old(engine.store) else old(engine.store) - {saved.handle}
    {
      if !released {
        engine.ReleaseCheckpoint(saved.handle);
        released := true;
      }
    }
  }

  lemma RollsBackToABest(c: Config, w: World, o: Outcome, ended: bool)
    ensures RollsBack(c, w, o, ended) ==> w.best.Some?
  {
  }

  lemma BookkeepReads(c: Config, w: World, a: Action, success: bool)
    ensures forall v: World | v.closed == w.closed && v.reopens == w.reopens && v.net == w.net ::
      Bookkeep(c, v, a, success) == Bookkeep(c, w, a, success)
  {
  }

  class PCBWorld {
    const c: Config
    const engine: KiCadEngine
    const dispatcher: ActionDispatcher
    var stepCount: int
    var closed: set<int>
    var reopenCount: int
    var history: seq<Record>
    var prevState: RewardState
    var wireViaRef: Option<RewardState>
    var ratsStagnation: int
    var prevUnrouted: int
    var trackBestActive: bool
    var bestCkpt: Checkpoint?
    var bestPotential: real
    var bornClosed: set<int>
    var initialUnconnected: int
    var initialPotential: real

    constructor (c: Config, board: Board)
      requires Masking.Valid(c.rule)
      ensures Valid() && this.c == c && fresh(engine) && fresh(dispatcher) && bestCkpt == null
      ensures engine.board == board && engine.store == map[]
    {
      this.c := c;
      engine := new KiCadEngine(c.engine, board);
      dispatcher := new ActionDispatcher();
      closed := {};
      stepCount, reopenCount, history := 0, 0, [];
      prevState, wireViaRef := NoDrc(c.engine.read(board)), None;
      ratsStagnation, prevUnrouted, trackBestActive := 0, 0, true;
      bestCkpt, bestPotential := null, 0.0;
      bornClosed, initialUnconnected, initialPotential := {}, 0, 0.0;
    }

    /** The engine is the configured one, and a freed best checkpoint is gone from its store. */
    ghost predicate Valid()
      reads this, engine, bestCkpt
    {
      && engine.ops == c.engine && Masking.Valid(c.rule)
      && (bestCkpt != null ==> bestCkpt.saved.handle < engine.nextHandle)
      && (bestCkpt != null && bestCkpt.released ==> bestCkpt.saved.handle !in engine.store)
    }

    function Abs(): World
      reads this, engine, dispatcher
    {
      World(engine.board, engine.store, engine.nextHandle, dispatcher.currentNetId, dispatcher.routingMode,
            stepCount, closed, reopenCount, history, prevState, wireViaRef, ratsStagnation, prevUnrouted,
            trackBestActive, if bestCkpt == null then None else Some(Best(bestCkpt.saved, bestPotential)),
            bornClosed, initialUnconnected, initialPotential)
    }

    method TakeCheckpoint() returns (k: Checkpoint)
      requires Valid()
      modifies engine`store, engine`nextHandle
      ensures Valid() && fresh(k) && !k.released
      ensures (Abs(), k.saved) == EnvSpec.Checkpoint(old(Abs()))
    {
      var handle := engine.Checkpoint();
      k := new Checkpoint(Saved(handle, stepCount, dispatcher.currentNetId, dispatcher.routingMode, history,
                                closed, reopenCount, prevState, wireViaRef));
    }

    method EdgeHistory(k: Checkpoint, edge: Option<(Action, bool)>) returns (h: seq<Record>)
      ensures h == RestoredHistory(c, k.saved, edge)
    {
      h := k.saved.history;
      if edge.Some? {
        h := Push(k.saved.history, Record(edge.value.0, edge.value.1, NetContext(edge.value.0, k.saved.net)), c.historyLen);
      }
    }

    /** `restore`.  The checkpoint itself is not in the frame: it can be restored again. */
    method RestoreFrom(k: Checkpoint, edge: Option<(Action, bool)>)
      requires Valid()
      modifies this`stepCount, this`closed, this`reopenCount, this`history, this`prevState, this`wireViaRef,
               engine`board, dispatcher
      ensures Valid()
      ensures Abs() == Restore(c, old(Abs()), k.saved, edge)
    {
      hide RestoredHistory, Masking.Valid;
      var ok := engine.RestoreIncremental(k.saved.handle);
      var t := k.saved;
      dispatcher.currentNetId, dispatcher.routingMode := t.net, t.mode;
      stepCount, closed, reopenCount, prevState, wireViaRef := t.steps, t.closed, t.reopens, t.prev, t.reference;
      history := EdgeHistory(k, edge);
    }

    /** Reset of the engine: the live session dropped, the routing stripped, the checkpoints forgotten. */
    method ResetEngine()
      requires Valid()
      modifies this`prevState, this`bestCkpt, engine`board, engine`store
      ensures Valid() && engine.store == map[] && bestCkpt == null
      ensures (engine.board, prevState) == ResetBoard(c, old(engine.board))
    {
      engine.CancelIfRouting();
      engine.board := c.engine.connect(c.engine.strip(engine.board));
      engine.board := c.engine.clearDrc(c.engine.setMode(engine.board, 2));
      engine.store := map[];
      bestCkpt := null;
      prevState := engine.GetRewardSnapshot(c.drcActive);
      if c.drcActive && !c.perStep {
        engine.board := c.engine.clearDrc(engine.board);
      }
    }

    /** Reset of the episode state, from the board and the reward state the engine part left. */
    method ClearEpisode()
      requires Valid() && bestCkpt == null && engine.store == map[]
      modifies this`stepCount, this`wireViaRef, this`history, this`bornClosed, this`closed, this`reopenCount, this`initialUnconnected,
               this`initialPotential, this`ratsStagnation, this`prevUnrouted, this`trackBestActive, dispatcher
      ensures Valid() && Abs() == NewEpisode(c, engine.board, prevState, engine.nextHandle)
    {
      hide Masking.Valid;
      ghost var w := NewEpisode(c, engine.board, prevState, engine.nextHandle);
      dispatcher.currentNetId, dispatcher.routingMode := None, 2;
      bornClosed := c.routable - c.engine.ratsnest(engine.board);
      stepCount, wireViaRef, history, closed, reopenCount := 0, None, [], bornClosed, 0;
      initialUnconnected, initialPotential := prevState.unconnected, c.potential.Phi(prevState);
      ratsStagnation, prevUnrouted, trackBestActive := 0, initialUnconnected, true;
      assert bornClosed == w.bornClosed && initialPotential == w.initialPhi;
    }

    method KeepFirst()
      requires Valid() && bestCkpt == null
      modifies this`bestCkpt, this`bestPotential, engine`store, engine`nextHandle
      ensures Valid() && Abs() == ArmBest(c, old(Abs()))
    {
      if c.outputBest {
        bestPotential := initialPotential;
        bestCkpt := TakeCheckpoint();
      }
    }

    /** The episode part of `reset`. */
    method Reset()
      requires Valid()
      modifies this, engine, dispatcher
      ensures Valid() && Abs() == EnvSpec.Reset(c, old(engine.board), old(engine.nextHandle))
    {
      hide ResetBoard, NewEpisode, ArmBest, Valid, Abs;
      ResetEngine();
      ClearEpisode();
      KeepFirst();
    }

    method ActionMask() returns (mask: array<bool>)
      requires Valid()
      ensures fresh(mask) && mask.Length == NUM_ACTIONS
      ensures forall a: Action :: mask[Index(a)] <==> Allowed(c, Abs(), a)
    {
      mask := BuildMask(c.rule, Context(c, Abs()));
    }

    /** Dispatch, then connectivity for the actions that may have changed copper. */
    method DispatchAndConnect(a: Action) returns (success: bool)
      requires Valid()
      modifies engine`board, dispatcher
      ensures Valid()
      ensures var w := old(Abs());
        var (h, ok) := EnvSpec.Dispatch(c.engine, HandOf(w), a);
        && success == ok
        && Abs() == w.(board := if a.StartRoute? || MovesCopper(a) then c.engine.connect(h.board) else h.board, net := h.net, mode := h.mode)
    {
      hide EnvSpec.Dispatch;
      success := dispatcher.Dispatch(engine, a);
      if a.StartRoute? || MovesCopper(a) {
        engine.board := c.engine.connect(engine.board);
      }
    }

    /** `net_end` closes the net that was selected; under reselect, `net_select` reopens a closed one. */
    method CloseOrReopen(a: Action, success: bool, selected: Option<int>)
      requires Valid()
      modifies this`closed, this`reopenCount
      ensures Valid()
      ensures var w := old(Abs());
        var r := Bookkeep(c, w.(net := selected), a, success); Abs() == w.(closed := r.0, reopens := r.1)
    {
      if success && a.NetEnd? {
        if selected.Some? {
          closed := closed + {selected.value};
        }
      } else if success && c.reselect && a.NetSelect? && a.netId in closed {
        closed := closed - {a.netId};
        reopenCount := reopenCount + 1;
      }
    }

    method Score() returns (s: RewardState)
      requires Valid()
      modifies engine`board
      ensures Valid()
      ensures Abs() == old(Abs()).(board := Snapshot(c.engine, old(Abs()).board, StepDrc(c)).0)
      ensures s == Snapshot(c.engine, old(Abs()).board, StepDrc(c)).1
    {
      s := engine.GetRewardSnapshot(StepDrc(c));
    }

    lemma Fields()
      ensures var w := Abs();
        && w.net == dispatcher.currentNetId && w.board == engine.board && w.prev == prevState
        && w.closed == closed && w.reopens == reopenCount && w.steps == stepCount
        && (w.best.Some? ==> w.best.value.phi == bestPotential)
    {
    }

    /** Stage 2 of a step, for an action the mask grants. */
    method PerformAction(a: Action) returns (o: Outcome)
      requires Valid()
      modifies this`reopenCount, this`closed, engine`board, dispatcher
      ensures Valid()
      ensures (Abs(), o) == Perform(c, old(Abs()), a)
    {
      hide *;
      ghost var w := Abs();
      Fields();
      PerformIs(c, w, a);
      var before := if c.perStep then prevState else NoDrc(c.engine.read(engine.board));
      var selected := dispatcher.currentNetId;
      var success := DispatchAndConnect(a);
      ghost var w1 := Abs();
      BookkeepReads(c, w, a, success);
      var wasClosed, wasReopened := closed, reopenCount;
      CloseOrReopen(a, success, selected);
      Fields();
      var after := Score();
      Fields();
      o := Outcome(if !success then DispatchFail else if Committed(a, before, after) then Effective else Empty,
                   success, before, Some(after), !(closed <= wasClosed), reopenCount != wasReopened);
    }

    /** Stages 1 and 2 of a step. */
    method ActStage(a: Action) returns (o: Outcome)
      requires Valid()
      modifies this`reopenCount, this`closed, engine`board, dispatcher
      ensures Valid()
      ensures (Abs(), o) == Act(c, old(Abs()), a)
    {
      hide Perform, Allowed;
      if a.Idle? {
        return Outcome(if a.parseInvalid then ParseFail else Idling, false, prevState, None, false, false);
      }
      var mask := ActionMask();
      if !mask[Index(a)] {
        return Outcome(MaskReject, false, prevState, None, false, false);
      }
      o := PerformAction(a);
    }

    /** Stage 3: the stagnation counter. */
    method CountStagnation(o: Outcome)
      requires Valid()
      modifies this`ratsStagnation, this`prevUnrouted
      ensures Valid() && Abs() == Stagnate(c, old(Abs()), o)
    {
      if c.patience > 0 && trackBestActive {
        var cur := if o.after.Some? then o.after.value.unconnected else prevUnrouted;
        if cur == prevUnrouted {
          ratsStagnation := ratsStagnation + 1;
        } else {
          ratsStagnation := 0;
        }
        prevUnrouted := cur;
      }
    }

    /** Stage 3: the end of the episode. */
    method Ending(o: Outcome) returns (terminated: bool, truncated: bool)
      ensures terminated == Terminated(c, Abs(), o) && truncated == Truncated(c, Abs())
    {
      var allClosed := c.routable != {} && c.routable <= closed;
      terminated := (o.after.Some? && o.after.value.unconnected == 0) || allClosed;
      truncated := stepCount >= c.maxSteps;
      if c.patience > 0 && trackBestActive && ratsStagnation >= c.patience {
        truncated := true;
      }
    }

    /** Stage 4: the episode-end DRC run of terminal mode. */
    method EndDrc(ended: bool)
      requires Valid()
      modifies engine`board
      ensures Valid()
      ensures var w := old(Abs()); Abs() == w.(board := if ended then EndBoard(c, w.board) else w.board)
    {
      if ended && c.drcActive && !StepDrc(c) {
        engine.board := c.engine.runDrc(engine.board);
      }
    }

    /** Stage 5: the Φ difference. */
    method RewardStage(o: Outcome, a: Action, terminated: bool, truncated: bool, final: RewardState) returns (diff: real)
      requires Valid()
      modifies this`prevState, this`wireViaRef
      ensures Valid() && (Abs(), diff) == Reward(c, old(Abs()), a, o, terminated, truncated, final)
    {
      hide Shaping, ComputeTruncation;
      diff := 0.0;
      if c.perStep {
        if o.kind.Valid() && o.after.Some? {
          var r := Shaping(c, wireViaRef, a, o.before, o.after.value);
          diff, wireViaRef := r.0, r.1;
          prevState := o.after.value;
        }
      } else if terminated {
        diff := c.potential.Phi(final);
      } else if truncated {
        diff := ComputeTruncation(c.knobs, c.potential, final);
      }
    }

    /** Stages 5 and 6. */
    method PayStage(o: Outcome, a: Action, net: Option<int>, terminated: bool, truncated: bool) returns (m: Moved)
      requires Valid()
      modifies this`prevState, this`wireViaRef, this`history
      ensures Valid() && (Abs(), m) == Pay(c, old(Abs()), o, a, net, terminated, truncated)
    {
      hide Reward, FinalState, Push;
      var final := FinalState(c, engine.board, o);
      var diff := RewardStage(o, a, terminated, truncated, final);
      history := Push(history, Record(a, o.success, net), c.historyLen);
      m := Moved(o, terminated, truncated, diff, final);
    }

    /** Stage 7: keep the best board, or go back to it. */
    method BestStage(o: Outcome, ended: bool) returns (observed: Observed, rolledBack: bool)
      requires Valid()
      modifies this, engine, dispatcher, bestCkpt
      ensures Valid()
      ensures var w := old(Abs());
        && Abs() == Best7(c, w, o, ended)
        && rolledBack == RollsBack(c, w, o, ended)
        && observed == Observe(if rolledBack then Restore(c, w, w.best.value.saved, None) else w)
    {
      hide Snapshot, Ascending;
      observed, rolledBack := Observe(Abs()), false;
      if c.outputBest && trackBestActive && o.after.Some? {
        var phi := c.potential.Phi(o.after.value);
        if !ended {
          if bestCkpt == null || phi > bestPotential {
            if bestCkpt != null {
              bestCkpt.Release(engine);
            }
            bestCkpt := null;
            bestCkpt := TakeCheckpoint();
            bestPotential := phi;
          }
        } else if bestCkpt != null && phi < bestPotential - TOLERANCE {
          RestoreFrom(bestCkpt, None);
          observed, rolledBack := Observe(Abs()), true;
          var st := engine.GetRewardSnapshot(c.drcActive);
        }
      }
    }

    method CountStep()
      requires Valid()
      modifies this`stepCount
      ensures Valid() && Abs() == old(Abs()).(steps := old(Abs()).steps + 1)
    {
      stepCount := stepCount + 1;
    }

    method StepOnce(a: Action) returns (s: StepResult)
      requires Valid()
      modifies this, engine, dispatcher, bestCkpt
      ensures Valid()
      ensures (Abs(), s) == Step(c, old(Abs()), a)
    {
      hide *;
      StepIs(c, Abs(), a);
      Fields();
      var net := NetContext(a, dispatcher.currentNetId);
      CountStep();
      var o := ActStage(a);
      CountStagnation(o);
      var terminated, truncated := Ending(o);
      var ended := terminated || truncated;
      EndDrc(ended);
      var m := PayStage(o, a, net, terminated, truncated);
      var bestWas := bestPotential;
      Fields();
      RollsBackToABest(c, Abs(), o, ended);
      var observed, rolledBack := BestStage(o, ended);
      var finalPotential :=
        if !ended then None
        else if rolledBack then Some(bestWas)
        else if c.perStep && o.after.Some? then Some(c.potential.Phi(o.after.value))
        else Some(c.potential.Phi(m.final));
      s := StepResult(observed, -c.knobs.stepPenalty + m.diff + OtherPenalty(c, o.kind, ended), m.diff,
                      terminated, truncated, o, finalPotential, rolledBack);
    }
  }
}
