/** The environment as a state machine on values: what one step, checkpoint, restore and reset do.
    `Environment` implements it on mutable objects; the theorems about runs are about these functions. */
module EnvSpec {
  import opened Decimal
  import opened Masking
  import opened Rewards
  import opened IntSets

  // --- the foreign engine ---------------------------------------------------------------------------

  /** Everything the router holds: board, configuration, routing session, DRC cache, id stream. */
  type Board(!new)

  /** The engine calls the environment makes.  `read` is a reward snapshot with the cached DRC counts. */
  datatype Engine = Engine(
    routing: Board -> bool,
    ratsnest: Board -> set<int>,
    unrouted: Board -> int,
    viaCount: Board -> nat,
    maxLayer: int,
    read: Board -> RewardState,
    runDrc: Board -> Board,
    clearDrc: Board -> Board,
    connect: Board -> Board,
    setMode: (Board, int) -> Board,
    setViaPlacement: (Board, bool) -> Board,
    padBlocked: (Board, real, real, bool) -> bool,
    startRoute: (Board, real, real, int) -> (Board, bool),
    fixRoute: (Board, real, real, bool) -> (Board, bool),
    finish: Board -> (Board, bool),
    cancel: Board -> Board,
    strip: Board -> Board)

  /** Only `startRoute` opens a session, and `cancel` ends it. */
  ghost predicate SessionsHonest(e: Engine) {
    && (forall b :: !e.routing(e.cancel(b)))
    && (forall b :: e.routing(e.strip(b)) ==> e.routing(b))
    && (forall b :: e.routing(e.runDrc(b)) ==> e.routing(b))
    && (forall b :: e.routing(e.clearDrc(b)) ==> e.routing(b))
    && (forall b :: e.routing(e.connect(b)) ==> e.routing(b))
    && (forall b, m :: e.routing(e.setMode(b, m)) ==> e.routing(b))
    && (forall b, on :: e.routing(e.setViaPlacement(b, on)) ==> e.routing(b))
    && (forall b, x, y, via :: e.routing(e.fixRoute(b, x, y, via).0) ==> e.routing(b))
    && (forall b :: e.routing(e.finish(b).0) ==> e.routing(b))
  }

  /** A DRC run repeated on an unchanged board reports the same counts. */
  ghost predicate DrcRepeatable(e: Engine) {
    forall b :: e.read(e.runDrc(e.runDrc(b))) == e.read(e.runDrc(b))
  }

  function NoDrc(s: RewardState): RewardState {
    s.(drcViolations := 0, drcViolationsPerNet := [], drcErrors := 0, drcErrorsPerNet := [], drcPromoted := 0, drcPromotedPerNet := [])
  }

  /** `get_reward_snapshot`: without a DRC run the DRC counts read zero. */
  function Snapshot(e: Engine, b: Board, drc: bool): (Board, RewardState) {
    if drc then (e.runDrc(b), e.read(e.runDrc(b))) else (b, NoDrc(e.read(b)))
  }

  // --- the dispatcher ---------------------------------------------------------------------------------

  /** What an action handler reads and writes. */
  datatype Hand = Hand(board: Board, net: Option<int>, mode: int)

  function DropSession(e: Engine, b: Board): Board { if e.routing(b) then e.cancel(b) else b }

  function LineRoute(e: Engine, b: Board, x: real, y: real, mode: int): (Board, bool) {
    if e.padBlocked(b, x, y, false) then (b, false) else e.fixRoute(e.setMode(b, mode), x, y, false)
  }

  /** A via action succeeds only if the route was fixed and the via count grew; via placement is
      turned off again whenever a session survives. */
  function ViaRoute(e: Engine, b: Board, x: real, y: real, mode: int): (Board, bool) {
    if e.padBlocked(b, x, y, true) then (b, false) else
      var ready := e.setMode(b, mode);
      var (b1, routed) := e.fixRoute(e.setViaPlacement(ready, true), x, y, true);
      var placed := e.viaCount(b1) > e.viaCount(ready);
      (if e.routing(b1) then e.setViaPlacement(b1, false) else b1, routed && placed)
  }

  function Dispatch(e: Engine, h: Hand, a: Action): (Hand, bool) {
    match a
    case NetSelect(n) => if n in e.ratsnest(h.board) then (h.(net := Some(n)), true) else (h, false)
    case StartRoute(x, y, layer) =>
      if e.routing(h.board) || layer < 1 || layer > e.maxLayer then (h, false)
      else var (b, ok) := e.startRoute(h.board, x, y, layer); (h.(board := b), ok)
    case NetEnd => if h.net.None? then (h, false) else (h.(board := e.connect(h.board), net := None), true)
    case MakeLine(x, y, mode) =>
      var (b, ok) := LineRoute(e, h.board, x, y, mode);
      (h.(board := if ok then b else DropSession(e, b), mode := mode), ok)
    case MakeVia(x, y, mode) =>
      var (b, ok) := ViaRoute(e, h.board, x, y, mode);
      (h.(board := if ok then b else DropSession(e, b), mode := mode), ok)
    case Finish(mode) =>
      var (b, ok) := e.finish(e.setMode(h.board, mode));
      (h.(board := DropSession(e, b), mode := mode), ok)
    case Idle(_) => (h, false)
  }

  // --- the episode state --------------------------------------------------------------------------------

  datatype Config = Config(
    engine: Engine, rule: Rule, routable: set<int>, maxSteps: int, patience: int,
    outputBest: bool, reselect: bool, perStep: bool, drcActive: bool, historyLen: nat,
    knobs: Knobs, potential: Potential,
    parseFailPenalty: real, maskRejectPenalty: real, invalidPenalty: real)

  datatype Record = Record(action: Action, success: bool, net: Option<int>)

  /** A checkpoint: the engine handle and the Python episode state the handle does not cover. */
  datatype Saved = Saved(handle: int, steps: int, net: Option<int>, mode: int, history: seq<Record>,
                         closed: set<int>, reopens: int, prev: RewardState, reference: Option<RewardState>)

  datatype Best = Best(saved: Saved, phi: real)

  /** `store` holds the engine's checkpoints; handles are never reused.  `reference` is the wire and
      via baseline of the `on_net_end` emission. */
  datatype World = World(
    board: Board, store: map<int, Board>, nextHandle: int,
    net: Option<int>, mode: int,
    steps: int, closed: set<int>, reopens: int, history: seq<Record>,
    prev: RewardState, reference: Option<RewardState>,
    stagnation: int, prevUnrouted: int, tracking: bool, best: Option<Best>,
    bornClosed: set<int>, initialUnconnected: int, initialPhi: real)

  function HandOf(w: World): Hand { Hand(w.board, w.net, w.mode) }

  predicate NetConnected(e: Engine, b: Board, net: Option<int>) { net.Some? && net.value !in e.ratsnest(b) }

  function Context(c: Config, w: World): MaskContext {
    MaskContext(w.net.Some?, c.engine.routing(w.board), NetConnected(c.engine, w.board, w.net),
                w.steps, c.maxSteps, c.engine.unrouted(w.board))
  }

  function NetContext(a: Action, net: Option<int>): Option<int> { if a.NetSelect? then Some(a.netId) else net }

  /** `deque.appendleft` with a maximal length. */
  function Push(history: seq<Record>, r: Record, limit: nat): (h: seq<Record>)
    ensures |h| <= limit
  {
    var longer := [r] + history;
    if |longer| <= limit then longer else longer[..limit]
  }

  // --- checkpoint, restore, release -----------------------------------------------------------------------

  function SavedNow(w: World): Saved {
    Saved(w.nextHandle, w.steps, w.net, w.mode, w.history, w.closed, w.reopens, w.prev, w.reference)
  }

  function Checkpoint(w: World): (World, Saved) {
    (w.(store := w.store[w.nextHandle := w.board], nextHandle := w.nextHandle + 1), SavedNow(w))
  }

  /** The checkpoint's history, with a record of the incoming edge on top when one is given. */
  function RestoredHistory(c: Config, s: Saved, edge: Option<(Action, bool)>): seq<Record> {
    match edge
    case None => s.history
    case Some(e) => Push(s.history, Record(e.0, e.1, NetContext(e.0, s.net)), c.historyLen)
  }

  /** A stale handle leaves the board as it is; the Python fields are restored all the same. */
  function Restore(c: Config, w: World, s: Saved, edge: Option<(Action, bool)>): World {
    w.(board := if s.handle in w.store then w.store[s.handle] else w.board,
       steps := s.steps, net := s.net, mode := s.mode, closed := s.closed, reopens := s.reopens,
       prev := s.prev, reference := s.reference,
       history := RestoredHistory(c, s, edge))
  }

  function Release(w: World, s: Saved): World { w.(store := w.store - {s.handle}) }

  // --- one step ---------------------------------------------------------------------------------------------

  datatype ActionClass = ParseFail | Idling | MaskReject | DispatchFail | Empty | Effective
  {
    predicate Valid() { DispatchFail? || Empty? || Effective? }
  }

  predicate Allowed(c: Config, w: World, a: Action) { Granted(c.rule, Context(c, w), Index(a)) }

  /** What happened to the board: `after` is absent when the action never reached the engine. */
  datatype Outcome = Outcome(kind: ActionClass, success: bool, before: RewardState, after: Option<RewardState>,
                             newlyClosed: bool, reopened: bool)

  predicate MovesCopper(a: Action) { a.MakeLine? || a.MakeVia? || a.Finish? }

  function StepDrc(c: Config): bool { c.perStep && c.drcActive }

  /** The closed set and the reopen count after a dispatched action. */
  function Bookkeep(c: Config, w: World, a: Action, success: bool): (set<int>, int) {
    if success && a.NetEnd? && w.net.Some? then (w.closed + {w.net.value}, w.reopens)
    else if success && a.NetSelect? && c.reselect && a.netId in w.closed then (w.closed - {a.netId}, w.reopens + 1)
    else (w.closed, w.reopens)
  }

  /** A copper action that leaves the counts and the wirelength as they were has committed nothing. */
  predicate Committed(a: Action, before: RewardState, after: RewardState) {
    !(MovesCopper(a) && after.trackCount == before.trackCount && after.viaCount == before.viaCount
      && after.wirelength == before.wirelength)
  }

  /** Dispatch, connectivity, closed nets, snapshot, and the refined class. */
  function Perform(c: Config, w: World, a: Action): (World, Outcome) {
    var before := if c.perStep then w.prev else NoDrc(c.engine.read(w.board));
    var (h, success) := Dispatch(c.engine, HandOf(w), a);
    var board := if a.StartRoute? || MovesCopper(a) then c.engine.connect(h.board) else h.board;
    var (closed, reopens) := Bookkeep(c, w, a, success);
    var (board2, after) := Snapshot(c.engine, board, StepDrc(c));
    (w.(board := board2, net := h.net, mode := h.mode, closed := closed, reopens := reopens),
     Outcome(if !success then DispatchFail else if Committed(a, before, after) then Effective else Empty,
             success, before, Some(after), !(closed <= w.closed), reopens != w.reopens))
  }

  /** Stages 1 and 2 of a step; the step counter has been advanced. */
  function Act(c: Config, w: World, a: Action): (World, Outcome) {
    if a.Idle? then (w, Outcome(if a.parseInvalid then ParseFail else Idling, false, w.prev, None, false, false))
    else if !Allowed(c, w, a) then (w, Outcome(MaskReject, false, w.prev, None, false, false))
    else Perform(c, w, a)
  }

  predicate AllClosed(c: Config, w: World) { c.routable != {} && c.routable <= w.closed }

  predicate Terminated(c: Config, w: World, o: Outcome) {
    (o.after.Some? && o.after.value.unconnected == 0) || AllClosed(c, w)
  }

  /** The stagnation counter of the early stop; it rests while a search is under way. */
  function Stagnate(c: Config, w: World, o: Outcome): World {
    if c.patience > 0 && w.tracking then
      var cur := if o.after.Some? then o.after.value.unconnected else w.prevUnrouted;
      w.(stagnation := if cur == w.prevUnrouted then w.stagnation + 1 else 0, prevUnrouted := cur)
    else w
  }

  predicate Truncated(c: Config, w: World) {
    w.steps >= c.maxSteps || (c.patience > 0 && w.tracking && w.stagnation >= c.patience)
  }

  /** The episode-end DRC counts laid over a snapshot. */
  function Overlay(c: Config, base: RewardState, drc: RewardState): RewardState {
    if !c.drcActive then NoDrc(base) else
      base.(drcViolations := SeverityCounts(c.knobs, drc).0, drcViolationsPerNet := SeverityCounts(c.knobs, drc).1,
            drcErrors := drc.drcErrors, drcErrorsPerNet := drc.drcErrorsPerNet,
            drcPromoted := drc.drcPromoted, drcPromotedPerNet := drc.drcPromotedPerNet)
  }

  /** A step-free DRC run happens at the end of a terminal-mode episode only. */
  function EndBoard(c: Config, b: Board): Board { if c.drcActive && !StepDrc(c) then c.engine.runDrc(b) else b }

  function FinalState(c: Config, b: Board, o: Outcome): RewardState {
    Overlay(c, if o.after.Some? then o.after.value else NoDrc(c.engine.read(b)), c.engine.read(b))
  }

  predicate Flushes(a: Action, after: RewardState) { a.NetEnd? || after.unconnected == 0 }

  /** The Φ component of a per-step reward, and the next wire and via baseline. */
  function Shaping(c: Config, reference: Option<RewardState>, a: Action, before: RewardState, after: RewardState): (real, Option<RewardState>) {
    if c.knobs.emission.OnNetEnd? then
      var r := ComputeDenseNetEnd(c.knobs, c.potential, before, after,
                                  if reference.Some? then reference.value else before, Flushes(a, after));
      (r.0 + c.knobs.stepPenalty, Some(r.1))
    else (ComputeDense(c.knobs, c.potential, before, after) + c.knobs.stepPenalty, reference)
  }

  function OtherPenalty(c: Config, kind: ActionClass, ended: bool): real {
    match kind
    case ParseFail => -c.parseFailPenalty
    case MaskReject => -c.maskRejectPenalty
    case Empty => if !c.perStep && ended then 0.0 else -c.invalidPenalty
    case DispatchFail => if !c.perStep && ended then 0.0 else -c.invalidPenalty
    case Idling => 0.0
    case Effective => 0.0
  }

  /** What the observation is built from. */
  datatype Observed = Observed(board: Board, steps: int, net: Option<int>, mode: int, history: seq<Record>, closed: seq<int>)

  function Observe(w: World): Observed {
    Observed(w.board, w.steps, w.net, w.mode, w.history, Ascending(w.closed))
  }

  datatype StepResult = StepResult(
    observed: Observed, reward: real, potentialDiff: real, terminated: bool, truncated: bool,
    outcome: Outcome, finalPotential: Option<real>, rolledBack: bool)
  {
    predicate Ended() { terminated || truncated }
  }

  /** Stage 5: the Φ difference of the step. */
  function Reward(c: Config, w: World, a: Action, o: Outcome, terminated: bool, truncated: bool, final: RewardState): (World, real) {
    if c.perStep then
      if o.kind.Valid() && o.after.Some? then
        var (diff, reference) := Shaping(c, w.reference, a, o.before, o.after.value);
        (w.(prev := o.after.value, reference := reference), diff)
      else (w, 0.0)
    else (w, if terminated then c.potential.Phi(final) else if truncated then ComputeTruncation(c.knobs, c.potential, final) else 0.0)
  }

  const TOLERANCE := 0.000000001

  /** Stage 7, before the end: keep a checkpoint of the best board seen. */
  function KeepBest(c: Config, w: World, phi: real): World {
    if w.best.None? || phi > w.best.value.phi then
      var w1 := if w.best.Some? then Release(w, w.best.value.saved) else w;
      var (w2, saved) := Checkpoint(w1);
      w2.(best := Some(Best(saved, phi)))
    else w
  }

  predicate RollsBack(c: Config, w: World, o: Outcome, ended: bool) {
    && c.outputBest && w.tracking && o.after.Some? && ended && w.best.Some?
    && c.potential.Phi(o.after.value) < w.best.value.phi - TOLERANCE
  }

  /** Stage 7: track the best board, or roll the live board back to it. */
  function Best7(c: Config, w: World, o: Outcome, ended: bool): World {
    if !c.outputBest || !w.tracking || o.after.None? then w
    else if !ended then KeepBest(c, w, c.potential.Phi(o.after.value))
    else if RollsBack(c, w, o, ended) then
      var w1 := Restore(c, w, w.best.value.saved, None);
      w1.(board := Snapshot(c.engine, w1.board, c.drcActive).0)
    else w
  }

  /** Stages 1 to 6, up to the history record; the store and the best board are not touched. */
  datatype Moved = Moved(outcome: Outcome, terminated: bool, truncated: bool, diff: real, final: RewardState)
  {
    predicate Ended() { terminated || truncated }
  }

  /** Stages 5 and 6: the reward and the history record. */
  function Pay(c: Config, w4: World, o: Outcome, a: Action, net: Option<int>, terminated: bool, truncated: bool): (World, Moved) {
    var final := FinalState(c, w4.board, o);
    var (w5, diff) := Reward(c, w4, a, o, terminated, truncated, final);
    (w5.(history := Push(w5.history, Record(a, o.success, net), c.historyLen)),
     Moved(o, terminated, truncated, diff, final))
  }

  /** Stages 3 to 6. */
  function Conclude(c: Config, w2: World, o: Outcome, a: Action, net: Option<int>): (World, Moved) {
    var w3 := Stagnate(c, w2, o);
    var terminated, truncated := Terminated(c, w3, o), Truncated(c, w3);
    var board := if terminated || truncated then EndBoard(c, w3.board) else w3.board;
    Pay(c, w3.(board := board), o, a, net, terminated, truncated)
  }

  function Move(c: Config, w: World, a: Action): (World, Moved) {
    var (w2, o) := Act(c, w.(steps := w.steps + 1), a);
    Conclude(c, w2, o, a, NetContext(a, w.net))
  }

  function FinalPotential(c: Config, w: World, m: Moved): Option<real> {
    if !m.Ended() then None
    else if RollsBack(c, w, m.outcome, true) then Some(w.best.value.phi)
    else if c.perStep && m.outcome.after.Some? then Some(c.potential.Phi(m.outcome.after.value))
    else Some(c.potential.Phi(m.final))
  }

  /** A rollback re-derives the observation before its snapshot refreshes the DRC cache. */
  function Step(c: Config, w: World, a: Action): (World, StepResult) {
    var (w6, m) := Move(c, w, a);
    var rolled := RollsBack(c, w6, m.outcome, m.Ended());
    (Best7(c, w6, m.outcome, m.Ended()),
     StepResult(Observe(if rolled then Restore(c, w6, w6.best.value.saved, None) else w6),
                -c.knobs.stepPenalty + m.diff + OtherPenalty(c, m.outcome.kind, m.Ended()), m.diff,
                m.terminated, m.truncated, m.outcome, FinalPotential(c, w6, m), rolled))
  }

  // --- reset ------------------------------------------------------------------------------------------------

  /** Φ₀'s snapshot; terminal mode drops its DRC counts again. */
  function FirstSnapshot(c: Config, b: Board): (Board, RewardState) {
    var (b1, prev) := Snapshot(c.engine, b, c.drcActive);
    (if c.drcActive && !c.perStep then c.engine.clearDrc(b1) else b1, prev)
  }

  /** The engine part of `reset`: the live session is dropped, the routing stripped, Φ₀'s snapshot taken. */
  function ResetBoard(c: Config, live: Board): (Board, RewardState) {
    var stripped := c.engine.connect(c.engine.strip(DropSession(c.engine, live)));
    FirstSnapshot(c, c.engine.clearDrc(c.engine.setMode(stripped, 2)))
  }

  /** A new episode on a reset board, with the checkpoints forgotten; `handle` is the engine's next handle. */
  function NewEpisode(c: Config, board: Board, prev: RewardState, handle: int): World {
    var born := c.routable - c.engine.ratsnest(board);
    World(board, map[], handle, None, 2, 0, born, 0, [], prev, None, 0, prev.unconnected, true, None,
          born, prev.unconnected, c.potential.Phi(prev))
  }

  /** The reset board is the first best board. */
  function ArmBest(c: Config, w: World): World {
    if c.outputBest then
      var (w1, saved) := Checkpoint(w);
      w1.(best := Some(Best(saved, w.initialPhi)))
    else w
  }

  /** The episode part of `reset`. */
  function Reset(c: Config, live: Board, handle: int): World {
    var (board, prev) := ResetBoard(c, live);
    ArmBest(c, NewEpisode(c, board, prev, handle))
  }

  // --- a step, stage by stage -------------------------------------------------------------------------------

  lemma StepIs(c: Config, w: World, a: Action)
    ensures var (w2, o) := Act(c, w.(steps := w.steps + 1), a);
      var w3 := Stagnate(c, w2, o);
      var t, u := Terminated(c, w3, o), Truncated(c, w3);
      var (w6, m) := Pay(c, w3.(board := if t || u then EndBoard(c, w3.board) else w3.board), o, a, NetContext(a, w.net), t, u);
      var rolled := RollsBack(c, w6, o, t || u);
      Step(c, w, a) ==
        (Best7(c, w6, o, t || u),
         StepResult(Observe(if rolled then Restore(c, w6, w6.best.value.saved, None) else w6),
                    -c.knobs.stepPenalty + m.diff + OtherPenalty(c, o.kind, t || u), m.diff, t, u, o,
                    if !(t || u) then None
                    else if rolled then Some(w6.best.value.phi)
                    else if c.perStep && o.after.Some? then Some(c.potential.Phi(o.after.value))
                    else Some(c.potential.Phi(m.final)), rolled))
  {
    hide Act, Stagnate, Terminated, Truncated, EndBoard, FinalState, Reward, Best7, RollsBack, Observe, Restore, OtherPenalty, NetContext;
  }

  lemma PerformIs(c: Config, w: World, a: Action)
    ensures var before := if c.perStep then w.prev else NoDrc(c.engine.read(w.board));
      var (h, success) := Dispatch(c.engine, HandOf(w), a);
      var board := if a.StartRoute? || MovesCopper(a) then c.engine.connect(h.board) else h.board;
      var (closed, reopens) := Bookkeep(c, w, a, success);
      var (board2, after) := Snapshot(c.engine, board, StepDrc(c));
      Perform(c, w, a).0 == w.(board := board2, net := h.net, mode := h.mode, closed := closed, reopens := reopens)
      && Perform(c, w, a).1 ==
         Outcome(if !success then DispatchFail else if Committed(a, before, after) then Effective else Empty,
                 success, before, Some(after), !(closed <= w.closed), reopens != w.reopens)
  {
    hide Dispatch, Bookkeep, Snapshot, NoDrc, HandOf, Committed, MovesCopper, StepDrc;
  }
}
