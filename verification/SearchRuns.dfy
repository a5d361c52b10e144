/** Runs of the environment under a tree search: committed steps, search steps, checkpoints, restores
    and releases in any order.  One invariant, kept by every operation, gives the telescoping of the
    potential differences, the session safety and the closed-net accounting. */
module SearchRuns {
  import opened Decimal
  import opened Masking
  import opened Rewards
  import opened EnvSpec

  /** A search driver's moves.  `Search` is a step with the episode-level tracking switched off. */
  datatype Op = Commit(action: Action) | Search(action: Action) | Save | Back(i: nat, edge: Option<(Action, bool)>) | Drop(i: nat)

  /** What has been collected along the path from the root to a place: the sum of the potential
      differences and the number of nets newly closed. */
  datatype Account = Account(phi: real, closings: int)

  datatype Node = Node(saved: Saved, account: Account, live: bool)

  /** `peak` is the largest Φ among the root and the after-states of committed steps. */
  datatype Run = Run(w: World, account: Account, nodes: seq<Node>, bestAccount: Account, peak: real, over: bool)

  function Start(w: World): Run { Run(w, Account(0.0, 0), [], Account(0.0, 0), w.initialPhi, false) }

  function Charge(r: Account, s: StepResult): Account {
    Account(r.phi + s.potentialDiff, r.closings + if s.outcome.newlyClosed then 1 else 0)
  }

  function Max(x: real, y: real): real { if x < y then y else x }

  /** One step; a rollback moves the run back to the best board's place. */
  function Stepped(c: Config, r: Run, tracking: bool, a: Action): Run {
    var (w, s) := Step(c, r.w.(tracking := tracking), a);
    var account := if s.rolledBack then r.bestAccount else Charge(r.account, s);
    r.(w := w, account := account,
       bestAccount := if w.best != r.w.best then account else r.bestAccount,
       peak := if tracking && s.outcome.after.Some? then Max(r.peak, c.potential.Phi(s.outcome.after.value)) else r.peak,
       over := tracking && s.Ended())
  }

  /** A finished episode takes no further moves. */
  function Apply(c: Config, r: Run, op: Op): Run {
    if r.over then r else
    match op
    case Commit(a) => Stepped(c, r, true, a)
    case Search(a) => Stepped(c, r, false, a)
    case Save =>
      var (w, saved) := Checkpoint(r.w);
      r.(w := w, nodes := r.nodes + [Node(saved, r.account, true)])
    case Back(i, edge) =>
      if i < |r.nodes| && r.nodes[i].live
      then r.(w := Restore(c, r.w, r.nodes[i].saved, edge), account := r.nodes[i].account) else r
    case Drop(i) =>
      if i < |r.nodes| && r.nodes[i].live
      then r.(w := Release(r.w, r.nodes[i].saved), nodes := r.nodes[i := r.nodes[i].(live := false)]) else r
  }

  function RunOps(c: Config, r: Run, ops: seq<Op>): Run {
    if ops == [] then r else Apply(c, RunOps(c, r, ops[..|ops| - 1]), ops[|ops| - 1])
  }

  // --- places -----------------------------------------------------------------------------------------

  /** The part of a state that a path leads to: the world's own, or a checkpoint's. */
  datatype Place = Place(board: Board, net: Option<int>, closed: set<int>, reopens: int,
                         prev: RewardState, reference: Option<RewardState>)

  function PlaceOf(w: World): Place { Place(w.board, w.net, w.closed, w.reopens, w.prev, w.reference) }

  function PlaceAt(store: map<int, Board>, s: Saved): Place
    requires s.handle in store
  {
    Place(store[s.handle], s.net, s.closed, s.reopens, s.prev, s.reference)
  }

  /** The potential a path has emitted: Φ of the last state, or under held-back emission Φ_main of the
      last state and Φ_wire_via of the last flushed one. */
  function Emitted(c: Config, p: Place): real {
    if c.knobs.emission.PerStep? then c.potential.Phi(p.prev)
    else c.potential.main(p.prev) + c.potential.wireVia(if p.reference.Some? then p.reference.value else p.prev)
  }

  ghost predicate Telescopes(c: Config, root: Place, p: Place, account: Account) {
    c.perStep && !Jumanji(c.knobs) ==> account.phi == Emitted(c, p) - Emitted(c, root)
  }

  /** The cached reward state is what scoring the board would give. */
  ghost predicate InView(c: Config, p: Place) {
    c.perStep && DrcRepeatable(c.engine) ==> p.prev == Snapshot(c.engine, p.board, c.drcActive).1
  }

  ghost predicate SessionHasNet(c: Config, p: Place) {
    SessionsHonest(c.engine) && GrantsSafely(c.rule) ==> (c.engine.routing(p.board) ==> p.net.Some?)
  }

  ghost predicate ClosedCounted(c: Config, born: set<int>, root: Place, p: Place, account: Account) {
    && |p.closed| + p.reopens == |root.closed| + root.reopens + account.closings
    && (!c.reselect && born <= root.closed ==> born <= p.closed && p.reopens == root.reopens)
  }

  ghost predicate Good(c: Config, born: set<int>, root: Place, p: Place, account: Account) {
    && Telescopes(c, root, p, account)
    && InView(c, p)
    && SessionHasNet(c, p)
    && ClosedCounted(c, born, root, p, account)
  }

  // --- one move keeps a place good ------------------------------------------------------------------------

  lemma DispatchKeepsSession(e: Engine, h: Hand, a: Action)
    requires SessionsHonest(e)
    ensures !a.StartRoute? && e.routing(Dispatch(e, h, a).0.board) ==> e.routing(h.board)
    ensures Dispatch(e, h, a).0.net == h.net || a.NetSelect? || a.NetEnd?
    ensures a.NetSelect? && h.net.Some? ==> Dispatch(e, h, a).0.net.Some?
    ensures a.Finish? || ((a.MakeLine? || a.MakeVia?) && !Dispatch(e, h, a).1) ==> !e.routing(Dispatch(e, h, a).0.board)
  {
  }

  lemma OneLess(s: set<int>, x: int)
    requires x in s
    ensures |s - {x}| == |s| - 1
  {
    assert s == (s - {x}) + {x};
  }

  lemma BookkeepCounts(c: Config, w: World, a: Action, success: bool, born: set<int>)
    ensures var (closed, reopens) := Bookkeep(c, w, a, success);
      && |closed| + reopens == |w.closed| + w.reopens + (if closed <= w.closed then 0 else 1)
      && (!c.reselect ==> w.closed <= closed && reopens == w.reopens)
  {
    var (closed, reopens) := Bookkeep(c, w, a, success);
    if success && a.NetEnd? && w.net.Some? {
      var n := w.net.value;
      if n in w.closed {
        assert closed == w.closed;
      } else {
        assert n in closed;
        OneLess(closed, n);
        assert closed - {n} == w.closed;
      }
    } else if success && a.NetSelect? && c.reselect && a.netId in w.closed {
      OneLess(w.closed, a.netId);
    }
  }

  lemma PerformKeeps(c: Config, w: World, a: Action)
    requires Allowed(c, w, a)
    ensures var (w', o) := Perform(c, w, a);
      && (c.perStep ==> o.before == w.prev && o.kind.Valid())
      && (DrcRepeatable(c.engine) && c.perStep ==> o.after == Some(Snapshot(c.engine, w'.board, c.drcActive).1))
      && |w'.closed| + w'.reopens == |w.closed| + w.reopens + (if o.newlyClosed then 1 else 0)
      && (!c.reselect ==> w.closed <= w'.closed && w'.reopens == w.reopens)
  {
    var success := Dispatch(c.engine, HandOf(w), a).1;
    BookkeepCounts(c, w, a, success, {});
    hide Dispatch, Bookkeep, Allowed;
  }

  lemma PerformKeepsSession(c: Config, w: World, a: Action)
    requires Allowed(c, w, a) && SessionsHonest(c.engine) && GrantsSafely(c.rule)
    requires c.engine.routing(w.board) ==> w.net.Some?
    ensures var (w', o) := Perform(c, w, a);
      && (c.engine.routing(w'.board) ==> w'.net.Some?)
      && (a.Finish? || ((a.MakeLine? || a.MakeVia?) && !o.success) ==> !c.engine.routing(w'.board))
  {
    DispatchKeepsSession(c.engine, HandOf(w), a);
    var ctx := Context(c, w);
    assert a.StartRoute? ==> Granted(c.rule, ctx, 1);
    assert a.NetEnd? ==> Granted(c.rule, ctx, 2);
    hide Dispatch, Bookkeep, Granted;
  }

  /** `Act` reads and writes the board, the dispatcher and the closed nets only. */
  lemma ActFrame(c: Config, w: World, a: Action)
    ensures var w' := Act(c, w, a).0;
      w' == w.(board := w'.board, net := w'.net, mode := w'.mode, closed := w'.closed, reopens := w'.reopens)
  {
    hide Dispatch, Bookkeep, Granted, Snapshot;
  }

  /** What the later stages do to the world `Act` leaves. */
  lemma MoveAfterAct(c: Config, w: World, a: Action)
    ensures var (w2, o) := Act(c, w.(steps := w.steps + 1), a);
      var (w', m) := Move(c, w, a);
      && m.outcome == o
      && w'.net == w2.net && w'.closed == w2.closed && w'.reopens == w2.reopens
      && w'.board == (if m.Ended() then EndBoard(c, w2.board) else w2.board)
      && w'.store == w.store && w'.nextHandle == w.nextHandle && w'.best == w.best && w'.tracking == w.tracking
      && w'.bornClosed == w.bornClosed && w'.initialPhi == w.initialPhi && w'.initialUnconnected == w.initialUnconnected
      && (!w.tracking ==> w'.stagnation == w.stagnation && w'.prevUnrouted == w.prevUnrouted)
  {
    ActFrame(c, w.(steps := w.steps + 1), a);
    hide Act, Shaping, FinalState, Terminated, Truncated, Push, EndBoard;
  }

  lemma MoveScores(c: Config, w: World, a: Action)
    requires c.perStep
    ensures var (w2, o) := Act(c, w.(steps := w.steps + 1), a);
      var (w', m) := Move(c, w, a);
      if o.kind.Valid() && o.after.Some? then
        w'.prev == o.after.value && (m.diff, w'.reference) == Shaping(c, w.reference, a, o.before, o.after.value)
      else w'.prev == w.prev && w'.reference == w.reference && m.diff == 0.0
  {
    ActFrame(c, w.(steps := w.steps + 1), a);
    hide Act, Shaping, FinalState, Terminated, Truncated, Push, EndBoard;
  }

  /** What `Act` hands to the later stages. */
  lemma ActKeeps(c: Config, w: World, a: Action)
    ensures var (w', o) := Act(c, w, a);
      && (o.kind.Valid() <==> o.after.Some?)
      && (c.perStep ==> o.before == w.prev)
      && (DrcRepeatable(c.engine) && c.perStep && o.after.Some? ==> o.after.value == Snapshot(c.engine, w'.board, c.drcActive).1)
      && (o.after.None? ==> w' == w)
      && |w'.closed| + w'.reopens == |w.closed| + w.reopens + (if o.newlyClosed then 1 else 0)
      && (!c.reselect ==> w.closed <= w'.closed && w'.reopens == w.reopens)
  {
    if !a.Idle? && Allowed(c, w, a) {
      PerformKeeps(c, w, a);
    }
    hide Perform, Allowed, Snapshot;
  }

  lemma ShapingTelescopes(c: Config, p: Place, a: Action, after: RewardState)
    requires c.perStep && !Jumanji(c.knobs)
    ensures var (diff, reference) := Shaping(c, p.reference, a, p.prev, after);
      diff == Emitted(c, p.(prev := after, reference := reference)) - Emitted(c, p)
  {
  }

  lemma MoveKeepsScore(c: Config, born: set<int>, root: Place, w: World, a: Action, account: Account)
    requires Good(c, born, root, PlaceOf(w), account)
    ensures var (w', m) := Move(c, w, a);
      var after := Account(account.phi + m.diff, account.closings + if m.outcome.newlyClosed then 1 else 0);
      Telescopes(c, root, PlaceOf(w'), after) && InView(c, PlaceOf(w')) && ClosedCounted(c, born, root, PlaceOf(w'), after)
  {
    MoveAfterAct(c, w, a);
    ActKeeps(c, w.(steps := w.steps + 1), a);
    if c.perStep {
      MoveScores(c, w, a);
      var o := Move(c, w, a).1.outcome;
      if o.after.Some? && !Jumanji(c.knobs) {
        ShapingTelescopes(c, PlaceOf(w), a, o.after.value);
      }
    }
    hide Move, Act, Shaping, Snapshot, Jumanji, SessionHasNet;
  }

  lemma MoveKeepsSession(c: Config, w: World, a: Action)
    requires SessionHasNet(c, PlaceOf(w))
    ensures SessionHasNet(c, PlaceOf(Move(c, w, a).0))
  {
    if SessionsHonest(c.engine) && GrantsSafely(c.rule) {
      MoveAfterAct(c, w, a);
      var w1 := w.(steps := w.steps + 1);
      if !a.Idle? && Allowed(c, w1, a) {
        PerformKeepsSession(c, w1, a);
      }
      hide Move, Perform, Allowed, GrantsSafely;
    }
  }

  lemma MoveKeeps(c: Config, born: set<int>, root: Place, w: World, a: Action, account: Account)
    requires Good(c, born, root, PlaceOf(w), account)
    ensures var (w', m) := Move(c, w, a);
      Good(c, born, root, PlaceOf(w'), Account(account.phi + m.diff, account.closings + if m.outcome.newlyClosed then 1 else 0))
  {
    MoveKeepsScore(c, born, root, w, a, account);
    MoveKeepsSession(c, w, a);
    hide Move, Telescopes, InView, ClosedCounted, SessionHasNet;
  }
}
