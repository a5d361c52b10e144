/** Which boards each training iteration gets: `BoardScheduler`.  The random generator is any pair of
    functions on an opaque state whose `shuffle` returns a permutation and whose `randrange` stays in
    range. */
module BoardScheduling {
  import opened Decimal

  datatype Mode = Single | RoundRobin | PerEnvRandom | PerEnvEpoch

  datatype Rng<!S> = Rng(randrange: (S, nat) -> (nat, S), shuffle: (S, seq<nat>) -> (seq<nat>, S))

  ghost predicate Lawful<S(!new)>(rng: Rng<S>) {
    && (forall s, n: nat | n > 0 :: rng.randrange(s, n).0 < n)
    && (forall s, xs: seq<nat> :: multiset(rng.shuffle(s, xs).0) == multiset(xs))
  }

  datatype State<S> = State(iterIdx: int, rng: S, epochOrder: seq<nat>, epochPos: nat, epochsCompleted: nat)

  function Range(n: nat): (r: seq<nat>)
    ensures |r| == n && forall i | 0 <= i < n :: r[i] == i
  {
    seq(n, i => i)
  }

  // --- dealing -------------------------------------------------------------------------------

  /** One draw of `per_env_epoch`: a fresh shuffled epoch when the current one is used up. */
  function DrawEpoch<S>(rng: Rng<S>, n: nat, st: State<S>): (r: (nat, State<S>))
    requires n > 0
  {
    var st1 := if st.epochPos >= |st.epochOrder| then
                 var (order, s) := rng.shuffle(st.rng, Range(n));
                 st.(epochOrder := order, rng := s, epochPos := 0, epochsCompleted := st.epochsCompleted + 1)
               else st;
    var board := if st1.epochPos < |st1.epochOrder| then st1.epochOrder[st1.epochPos] else 0;
    (board, st1.(epochPos := st1.epochPos + 1))
  }

  function DrawRandom<S>(rng: Rng<S>, n: nat, st: State<S>): (r: (nat, State<S>)) {
    var (i, s) := rng.randrange(st.rng, n);
    (i, st.(rng := s))
  }

  function Draw<S>(mode: Mode, rng: Rng<S>, n: nat, st: State<S>): (r: (nat, State<S>))
    requires n > 0
  {
    if mode.PerEnvEpoch? then DrawEpoch(rng, n, st) else DrawRandom(rng, n, st)
  }

  /** k draws in a row. */
  function Deal<S>(mode: Mode, rng: Rng<S>, n: nat, st: State<S>, k: nat): (r: (seq<nat>, State<S>))
    requires n > 0
    ensures |r.0| == k && r.1.iterIdx == st.iterIdx
  {
    if k == 0 then ([], st) else
      var (out, st1) := Deal(mode, rng, n, st, k - 1);
      var (board, st2) := Draw(mode, rng, n, st1);
      (out + [board], st2)
  }

  function Repeat(x: nat, k: nat): (r: seq<nat>)
    ensures |r| == k && forall i | 0 <= i < k :: r[i] == x
  {
    seq(k, i => x)
  }

  /** `next_indices(count)` for a positive count. */
  function Next<S>(mode: Mode, rng: Rng<S>, n: nat, st: State<S>, count: nat): (r: (seq<nat>, State<S>))
    requires n > 0
    ensures |r.0| == count && r.1.iterIdx == st.iterIdx + 1
  {
    var st1 := st.(iterIdx := st.iterIdx + 1);
    match mode
    case Single => (Repeat(0, count), st1)
    case RoundRobin => (Repeat(st1.iterIdx % n, count), st1)
    case _ => Deal(mode, rng, n, st1, count)
  }

  // --- the class --------------------------------------------------------------------------------

  /** A saved state dict: an older file may lack every key but `iter_idx`. */
  datatype StateDict<S> = StateDict(iterIdx: int, rngState: Option<S>, epochOrder: Option<seq<nat>>,
                                    epochPos: Option<nat>, epochsCompleted: Option<nat>)

  function Save<S>(st: State<S>): StateDict<S> {
    StateDict(st.iterIdx, Some(st.rng), Some(st.epochOrder), Some(st.epochPos), Some(st.epochsCompleted))
  }

  function OrElse<T>(o: Option<T>, old_: T): T {
    match o case Some(v) => v case None => old_
  }

  function Load<S>(st: State<S>, d: StateDict<S>): State<S> {
    State(d.iterIdx, OrElse(d.rngState, st.rng), OrElse(d.epochOrder, st.epochOrder), OrElse(d.epochPos, st.epochPos),
          OrElse(d.epochsCompleted, st.epochsCompleted))
  }

  class BoardScheduler<S(!new)> {
    const mode: Mode
    const numBoards: nat
    const gen: Rng<S>
    var iterIdx: int
    var rng: S
    var epochOrder: seq<nat>
    var epochPos: nat
    var epochsCompleted: nat

    function Abs(): State<S>
      reads this
    {
      State(iterIdx, rng, epochOrder, epochPos, epochsCompleted)
    }

    ghost predicate Valid()
      reads this
    {
      numBoards > 0 && Lawful(gen)
    }

    constructor (mode: Mode, numBoards: nat, gen: Rng<S>, seed: S)
      requires numBoards > 0 && Lawful(gen)
      ensures Valid() && this.mode == mode && this.numBoards == numBoards && this.gen == gen
      ensures Abs() == State(-1, seed, [], 0, 0)
    {
      this.mode, this.numBoards, this.gen := mode, numBoards, gen;
      iterIdx, rng, epochOrder, epochPos, epochsCompleted := -1, seed, [], 0, 0;
    }

    /** `next_indices`; a non-positive count is refused before anything changes. */
    method NextIndices(count: int) returns (out: Option<seq<nat>>)
      requires Valid()
      modifies this
      ensures count <= 0 ==> out == None && Abs() == old(Abs())
      ensures count > 0 ==> out == Some(Next(mode, gen, numBoards, old(Abs()), count).0)
      ensures count > 0 ==> Abs() == Next(mode, gen, numBoards, old(Abs()), count).1
      ensures Valid()
    {
      if count <= 0 {
        return None;
      }
      iterIdx := iterIdx + 1;
      var deal: seq<nat> := [];
      match mode
      case Single => return Some(Repeat(0, count));
      case RoundRobin => return Some(Repeat(iterIdx % numBoards, count));
      case _ =>
        ghost var start := Abs();
        hide Draw;
        for i := 0 to count
          invariant Valid() && (deal, Abs()) == Deal(mode, gen, numBoards, start, i)
        {
          var board := DrawOne();
          deal := deal + [board];
        }
      out := Some(deal);
    }

    /** One draw of the per-env modes. */
    method DrawOne() returns (board: nat)
      requires Valid() && (mode.PerEnvRandom? || mode.PerEnvEpoch?)
      modifies this
      ensures Valid() && (board, Abs()) == Draw(mode, gen, numBoards, old(Abs()))
    {
      if mode.PerEnvRandom? {
        var (b, s) := gen.randrange(rng, numBoards);
        board, rng := b, s;
        return;
      }
      if epochPos >= |epochOrder| {
        var (order, s) := gen.shuffle(rng, Range(numBoards));
        ShuffleKeepsLength(gen, rng, numBoards);
        epochOrder, rng := order, s;
        epochPos := 0;
        epochsCompleted := epochsCompleted + 1;
      }
      board := epochOrder[epochPos];
      epochPos := epochPos + 1;
    }

    method StateDictOf() returns (d: StateDict<S>)
      ensures d == Save(Abs())
    {
      d := StateDict(iterIdx, Some(rng), Some(epochOrder), Some(epochPos), Some(epochsCompleted));
    }

    /** `load_state_dict`: a key the dict lacks keeps this scheduler's value. */
    method LoadStateDict(d: StateDict<S>)
      requires Valid()
      modifies this
      ensures Valid() && Abs() == Load(old(Abs()), d)
    {
      iterIdx := d.iterIdx;
      if d.rngState.Some? { rng := d.rngState.value; }
      if d.epochOrder.Some? { epochOrder := d.epochOrder.value; }
      if d.epochPos.Some? { epochPos := d.epochPos.value; }
      if d.epochsCompleted.Some? { epochsCompleted := d.epochsCompleted.value; }
    }
  }

  lemma ShuffleKeepsLength<S(!new)>(rng: Rng<S>, s: S, n: nat)
    requires Lawful(rng)
    ensures |rng.shuffle(s, Range(n)).0| == n
  {
    var order := rng.shuffle(s, Range(n)).0;
    assert |multiset(order)| == |order| && |multiset(Range(n))| == n;
  }

  // --- batching -------------------------------------------------------------------------------------

  lemma {:induction false} DealSplits<S>(mode: Mode, rng: Rng<S>, n: nat, st: State<S>, a: nat, b: nat)
    requires n > 0
    ensures var (out1, st1) := Deal(mode, rng, n, st, a);
      var (out2, st2) := Deal(mode, rng, n, st1, b);
      Deal(mode, rng, n, st, a + b) == (out1 + out2, st2)
  {
    if b == 0 {
      assert Deal(mode, rng, n, st, a).0 + [] == Deal(mode, rng, n, st, a).0;
    } else {
      DealSplits(mode, rng, n, st, a, b - 1);
      var (out1, st1) := Deal(mode, rng, n, st, a);
      var (out2, st2) := Deal(mode, rng, n, st1, b - 1);
      var (board, st3) := Draw(mode, rng, n, st2);
      assert (out1 + out2) + [board] == out1 + (out2 + [board]);
    }
  }

  /** The iteration counter only counts calls: it plays no part in a draw. */
  lemma {:induction false} DealIgnoresIteration<S>(mode: Mode, rng: Rng<S>, n: nat, st: State<S>, i: int, k: nat)
    requires n > 0
    ensures Deal(mode, rng, n, st.(iterIdx := i), k) == (Deal(mode, rng, n, st, k).0, Deal(mode, rng, n, st, k).1.(iterIdx := i))
  {
    if k > 0 { DealIgnoresIteration(mode, rng, n, st, i, k - 1); }
  }

  /** Asking for a boards and then b boards deals what asking for a + b deals, across epoch ends too,
      and leaves the same state but for the call counter — in every mode but round robin over more
      than one board, where every call moves to the next board. */
  lemma BatchingExactly<S>(mode: Mode, rng: Rng<S>, n: nat, st: State<S>, a: nat, b: nat)
    requires n > 0 && a > 0 && b > 0
    ensures var (out1, st1) := Next(mode, rng, n, st, a);
      var (out2, st2) := Next(mode, rng, n, st1, b);
      var (out, end) := Next(mode, rng, n, st, a + b);
      && st2 == end.(iterIdx := end.iterIdx + 1)
      && (out1 + out2 == out <==> mode != RoundRobin || n == 1)
  {
    var (out1, st1) := Next(mode, rng, n, st, a);
    var (out2, st2) := Next(mode, rng, n, st1, b);
    var (out, end) := Next(mode, rng, n, st, a + b);
    var st0 := st.(iterIdx := st.iterIdx + 1);
    match mode
    case Single =>
      assert out1 + out2 == out;
    case RoundRobin =>
      var i := st.iterIdx + 1;
      assert (out1 + out2)[a] == (i + 1) % n && out[a] == i % n;
      NextBoardDiffers(i, n);
      if n == 1 { assert out1 + out2 == out; }
    case _ =>
      DealSplits(mode, rng, n, st0, a, b);
      DealIgnoresIteration(mode, rng, n, st1, st.iterIdx + 2, b);
  }

  lemma NextBoardDiffers(i: int, n: nat)
    requires n > 0
    ensures (i + 1) % n == i % n <==> n == 1
  {
    if n > 1 {
      var q, r := i / n, i % n;
      if r + 1 < n {
        assert i + 1 == q * n + (r + 1);
        ModIs(i + 1, q, r + 1, n);
      } else {
        assert i + 1 == q * n + n == (q + 1) * n;
        ModIs(i + 1, q + 1, 0, n);
      }
    }
  }

  lemma ModIs(x: int, q: int, r: nat, n: nat)
    requires n > 0 && r < n && x == q * n + r
    ensures x % n == r && x / n == q
  {
    var d := x / n - q;
    assert x == (x / n) * n + x % n;
    assert d * n == r - x % n;
    MulLeq(1, d, n);
    MulLeq(d, -1, n);
  }

  lemma MulLeq(x: int, y: int, n: nat)
    ensures x <= y ==> x * n <= y * n
  {
  }

  // --- fairness --------------------------------------------------------------------------------------

  function Fresh<S>(seed: S): State<S> { State(-1, seed, [], 0, 0) }

  ghost predicate Permutation(xs: seq<nat>, n: nat) {
    multiset(xs) == multiset(Range(n))
  }

  lemma {:induction false} RangeCounts(n: nat, b: nat)
    ensures multiset(Range(n))[b] == if b < n then 1 else 0
  {
    if n > 0 {
      RangeCounts(n - 1, b);
      assert Range(n) == Range(n - 1) + [n - 1];
    }
  }

  /** How often a permutation's prefix names a board: not at all or once, once when complete. */
  lemma PrefixCounts(order: seq<nat>, n: nat, pos: nat, b: nat)
    requires Permutation(order, n) && pos <= |order| && b < n
    ensures |order| == n
    ensures 0 <= multiset(order[..pos])[b] <= 1
    ensures pos == n ==> multiset(order[..pos])[b] == 1
  {
    RangeCounts(n, b);
    assert |multiset(order)| == |order| && |multiset(Range(n))| == n;
    assert order == order[..pos] + order[pos..];
    assert multiset(order)[b] == multiset(order[..pos])[b] + multiset(order[pos..])[b];
    if pos == n { assert order[..pos] == order; }
  }

  /** Block e of the draws is a permutation of all boards. */
  ghost predicate Epoch(out: seq<nat>, n: nat, e: nat) {
    (e + 1) * n <= |out| && Permutation(out[e * n..(e + 1) * n], n)
  }

  /** Every block that ends within the first k draws is a whole epoch. */
  ghost predicate EpochsDone(out: seq<nat>, n: nat, k: nat) {
    forall e: nat :: (e + 1) * n > k || Epoch(out, n, e)
  }

  /** After k > 0 draws: whole epochs, then the dealt prefix of the current one. */
  ghost predicate Current<S>(n: nat, out: seq<nat>, st: State<S>, k: nat) {
    && |out| == k && Permutation(st.epochOrder, n) && |st.epochOrder| == n && 0 < st.epochPos <= n && st.epochsCompleted > 0
    && k == (st.epochsCompleted - 1) * n + st.epochPos
    && out[(st.epochsCompleted - 1) * n..] == st.epochOrder[..st.epochPos]
  }

  ghost predicate Dealt<S>(n: nat, out: seq<nat>, st: State<S>, k: nat) {
    && |out| == k
    && (k == 0 ==> st.epochsCompleted == 0 && st.epochPos == 0 && st.epochOrder == [])
    && (k > 0 ==> Current(n, out, st, k))
    && EpochsDone(out, n, k)
    && (forall b: nat | b < n ::
          multiset(out)[b] == (if k == 0 then 0 else st.epochsCompleted - 1 + multiset(st.epochOrder[..st.epochPos])[b]))
  }

  lemma EpochsGoOn<S>(n: nat, out: seq<nat>, board: nat, st1: State<S>, k: nat)
    requires n > 0 && |out| == k && Current(n, out + [board], st1, k + 1)
    requires EpochsDone(out, n, k)
    ensures EpochsDone(out + [board], n, k + 1)
  {
    forall e: nat | (e + 1) * n <= k + 1 ensures Epoch(out + [board], n, e) {
      MulLeq(e, e + 1, n);
      assert e * n <= (e + 1) * n;
      if (e + 1) * n <= k {
        assert Epoch(out, n, e);
        assert (out + [board])[e * n..(e + 1) * n] == out[e * n..(e + 1) * n];
      } else {
        var c := st1.epochsCompleted - 1;
        assert e * n + n == c * n + st1.epochPos;
        SameMultiple(e, c, n, st1.epochPos);
        assert (out + [board])[e * n..(e + 1) * n] == (out + [board])[c * n..];
        assert st1.epochOrder[..st1.epochPos] == st1.epochOrder;
      }
    }
  }

  lemma SameMultiple(e: nat, c: nat, n: nat, pos: nat)
    requires e * n + n == c * n + pos && 0 < pos <= n
    ensures e == c && pos == n
  {
    MulLeq(e + 1, c, n);
    MulLeq(c + 1, e, n);
  }

  /** A used-up epoch: the draws so far are whole epochs. */
  lemma UsedUp<S>(n: nat, out: seq<nat>, st: State<S>, k: nat)
    requires n > 0 && Dealt(n, out, st, k) && st.epochPos >= |st.epochOrder|
    ensures k == st.epochsCompleted * n && |out| == k
    ensures forall b: nat | b < n :: multiset(out)[b] == st.epochsCompleted
  {
    hide EpochsDone;
    if k > 0 {
      assert (st.epochsCompleted - 1) * n + n == st.epochsCompleted * n;
      forall b: nat | b < n ensures multiset(st.epochOrder[..st.epochPos])[b] == 1 {
        PrefixCounts(st.epochOrder, n, n, b);
      }
    }
  }

  lemma StartsEpoch<S>(n: nat, out: seq<nat>, st: State<S>, order: seq<nat>, k: nat)
    requires n > 0 && |order| == n && Permutation(order, n) && |out| == k
    requires st.epochOrder == order && st.epochPos == 1 && st.epochsCompleted > 0 && k == (st.epochsCompleted - 1) * n
    ensures Current(n, out + [order[0]], st, k + 1)
  {
    hide Permutation;
    var c := st.epochsCompleted - 1;
    assert (out + [order[0]])[c * n..] == [order[0]] == order[..1];
  }

  lemma FirstOfEpoch<S(!new)>(rng: Rng<S>, n: nat, out: seq<nat>, st: State<S>, k: nat)
    requires n > 0 && Lawful(rng) && Dealt(n, out, st, k) && st.epochPos >= |st.epochOrder|
    ensures var (board, st1) := DrawEpoch(rng, n, st); Dealt(n, out + [board], st1, k + 1)
  {
    var order := rng.shuffle(st.rng, Range(n)).0;
    ShuffleKeepsLength(rng, st.rng, n);
    assert Permutation(order, n);
    UsedUp(n, out, st, k);
    hide Lawful, Permutation, EpochsDone, Current, Range;
    var (board, st1) := DrawEpoch(rng, n, st);
    assert st1.epochOrder == order && st1.epochPos == 1 && board == order[0] && st1.epochsCompleted - 1 == st.epochsCompleted;
    StartsEpoch(n, out, st1, order, k);
    EpochsGoOn(n, out, board, st1, k);
    assert order[..1] == [board];
  }

  lemma WithinEpoch<S(!new)>(rng: Rng<S>, n: nat, out: seq<nat>, st: State<S>, k: nat)
    requires n > 0 && Lawful(rng) && Dealt(n, out, st, k) && st.epochPos < |st.epochOrder|
    ensures var (board, st1) := DrawEpoch(rng, n, st); Dealt(n, out + [board], st1, k + 1)
  {
    var (board, st1) := DrawEpoch(rng, n, st);
    var at := (st.epochsCompleted - 1) * n;
    assert (out + [board])[at..] == out[at..] + [board];
    assert st.epochOrder[..st.epochPos + 1] == st.epochOrder[..st.epochPos] + [board];
    EpochsGoOn(n, out, board, st1, k);
  }

  lemma {:induction false} DealIsDealt<S(!new)>(rng: Rng<S>, n: nat, seed: S, k: nat)
    requires n > 0 && Lawful(rng)
    ensures var (out, st) := Deal(PerEnvEpoch, rng, n, Fresh(seed), k); Dealt(n, out, st, k)
  {
    if k > 0 {
      DealIsDealt(rng, n, seed, k - 1);
      var (out, st) := Deal(PerEnvEpoch, rng, n, Fresh(seed), k - 1);
      if st.epochPos >= |st.epochOrder| {
        FirstOfEpoch(rng, n, out, st, k - 1);
      } else {
        WithinEpoch(rng, n, out, st, k - 1);
      }
    } else {
      forall e: nat ensures (e + 1) * n > 0 || Epoch([], n, e) { MulLeq(1, e + 1, n); }
    }
  }

  /** Fairness after any number of draws, whatever permutations the shuffle returns: every completed
      epoch deals every board exactly once, no two boards' deal counts ever differ by more than one
      (not at all when the draws end an epoch), and `epochs_completed` is the ceiling of draws over
      boards — it counts epochs begun. */
  lemma Fair<S(!new)>(rng: Rng<S>, n: nat, seed: S, k: nat)
    requires n > 0 && Lawful(rng)
    ensures var (out, st) := Deal(PerEnvEpoch, rng, n, Fresh(seed), k);
      && EpochsDone(out, n, k)
      && (forall a: nat, b: nat | a < n && b < n :: multiset(out)[a] <= multiset(out)[b] + 1)
      && (k % n == 0 ==> forall b: nat | b < n :: multiset(out)[b] == k / n)
      && st.epochsCompleted == (k + n - 1) / n
  {
    var (out, st) := Deal(PerEnvEpoch, rng, n, Fresh(seed), k);
    DealIsDealt(rng, n, seed, k);
    hide EpochsDone, Permutation;
    if k > 0 {
      var c, pos := st.epochsCompleted - 1, st.epochPos;
      forall b: nat | b < n
        ensures c <= multiset(out)[b] <= c + 1
        ensures pos == n ==> multiset(out)[b] == c + 1
      {
        PrefixCounts(st.epochOrder, n, pos, b);
      }
      CeilIs(k, c, pos, n);
    } else {
      ModIs(n - 1, 0, n - 1, n);
      ModIs(0, 0, 0, n);
    }
  }

  lemma CeilIs(k: nat, c: nat, pos: nat, n: nat)
    requires n > 0 && 0 < pos <= n && k == c * n + pos
    ensures (k + n - 1) / n == c + 1
    ensures k % n == 0 ==> pos == n && k / n == c + 1
  {
    ModIs(k + n - 1, c + 1, pos - 1, n);
    if pos == n { ModIs(k, c + 1, 0, n); } else { ModIs(k, c, pos, n); }
  }

  // --- whole runs and resuming ---------------------------------------------------------------------------

  /** A run: one call per count. */
  function Run<S>(mode: Mode, rng: Rng<S>, n: nat, st: State<S>, counts: seq<nat>): (r: (seq<seq<nat>>, State<S>))
    requires n > 0
    decreases |counts|
  {
    if counts == [] then ([], st) else
      var (out, st1) := Next(mode, rng, n, st, counts[0]);
      var (rest, end) := Run(mode, rng, n, st1, counts[1..]);
      ([out] + rest, end)
  }

  /** Stopping after any calls, saving, loading into any other scheduler of the same configuration and
      going on gives the calls of the uninterrupted run. */
  lemma {:induction false} ResumeGoesOn<S>(mode: Mode, rng: Rng<S>, n: nat, st: State<S>, other: State<S>, before: seq<nat>, after: seq<nat>)
    requires n > 0
    ensures var (out1, mid) := Run(mode, rng, n, st, before);
      var (out2, end) := Run(mode, rng, n, Load(other, Save(mid)), after);
      Run(mode, rng, n, st, before + after) == (out1 + out2, end)
    decreases |before|
  {
    if before == [] {
      assert before + after == after && Load(other, Save(st)) == st;
      var out2 := Run(mode, rng, n, st, after).0;
      assert [] + out2 == out2;
    } else {
      var (out, st1) := Next(mode, rng, n, st, before[0]);
      ResumeGoesOn(mode, rng, n, st1, other, before[1..], after);
      assert (before + after)[1..] == before[1..] + after;
      var rest1 := Run(mode, rng, n, st1, before[1..]).0;
      var mid := Run(mode, rng, n, st1, before[1..]).1;
      var out2 := Run(mode, rng, n, Load(other, Save(mid)), after).0;
      assert ([out] + rest1) + out2 == [out] + (rest1 + out2);
    }
  }

  function Total(counts: seq<nat>): nat {
    if counts == [] then 0 else counts[0] + Total(counts[1..])
  }

  function Joined(outs: seq<seq<nat>>): seq<nat> {
    if outs == [] then [] else outs[0] + Joined(outs[1..])
  }

  /** The calls of a run deal one stream: fairness of draws is fairness of calls. */
  lemma {:induction false} RunIsDeal<S>(mode: Mode, rng: Rng<S>, n: nat, st: State<S>, counts: seq<nat>)
    requires n > 0 && (mode.PerEnvRandom? || mode.PerEnvEpoch?)
    ensures var (outs, end) := Run(mode, rng, n, st, counts);
      var (out, st1) := Deal(mode, rng, n, st, Total(counts));
      Joined(outs) == out && end == st1.(iterIdx := end.iterIdx)
    decreases |counts|
  {
    if counts != [] {
      var st0 := st.(iterIdx := st.iterIdx + 1);
      var (out, st1) := Deal(mode, rng, n, st0, counts[0]);
      RunIsDeal(mode, rng, n, st1, counts[1..]);
      DealSplits(mode, rng, n, st0, counts[0], Total(counts[1..]));
      DealIgnoresIteration(mode, rng, n, st, st.iterIdx + 1, Total(counts));
    }
  }

  /** Fairness of a whole run of `next_indices` calls, batched in any way. */
  lemma RunIsFair<S(!new)>(rng: Rng<S>, n: nat, seed: S, counts: seq<nat>)
    requires n > 0 && Lawful(rng)
    ensures var (outs, end) := Run(PerEnvEpoch, rng, n, Fresh(seed), counts);
      && EpochsDone(Joined(outs), n, Total(counts))
      && (forall a: nat, b: nat | a < n && b < n :: multiset(Joined(outs))[a] <= multiset(Joined(outs))[b] + 1)
      && end.epochsCompleted == (Total(counts) + n - 1) / n
  {
    RunIsDeal(PerEnvEpoch, rng, n, Fresh(seed), counts);
    Fair(rng, n, seed, Total(counts));
  }

  // --- which numbers are drawn ------------------------------------------------------------------------------

  /** The generator after e shuffles of the boards. */
  ghost function Reshuffled<S>(rng: Rng<S>, s: S, n: nat, e: nat): S {
    if e == 0 then s else rng.shuffle(Reshuffled(rng, s, n, e - 1), Range(n)).1
  }

  lemma {:induction false} OrderIsShuffled<S>(rng: Rng<S>, n: nat, seed: S, k: nat)
    requires n > 0
    ensures var st := Deal(PerEnvEpoch, rng, n, Fresh(seed), k).1;
      && st.rng == Reshuffled(rng, seed, n, st.epochsCompleted)
      && (st.epochsCompleted > 0 ==> st.epochOrder == rng.shuffle(Reshuffled(rng, seed, n, st.epochsCompleted - 1), Range(n)).0)
  {
    if k > 0 {
      OrderIsShuffled(rng, n, seed, k - 1);
      hide Range;
    }
  }

  lemma {:induction false} DealIsPrefix<S>(mode: Mode, rng: Rng<S>, n: nat, st: State<S>, i: nat, k: nat)
    requires n > 0 && i <= k
    ensures Deal(mode, rng, n, st, k).0[..i] == Deal(mode, rng, n, st, i).0
  {
    if i < k { DealIsPrefix(mode, rng, n, st, i, k - 1); }
  }

  /** Epoch e deals the boards in the order of the e-th shuffle, each shuffle going on from where the one before it
      left the generator. */
  lemma EpochDraws<S(!new)>(rng: Rng<S>, n: nat, seed: S, k: nat, i: nat)
    requires n > 0 && Lawful(rng) && i < k
    ensures var order := rng.shuffle(Reshuffled(rng, seed, n, i / n), Range(n)).0;
      i % n < |order| && Deal(PerEnvEpoch, rng, n, Fresh(seed), k).0[i] == order[i % n]
  {
    hide *;
    var (out, st) := Deal(PerEnvEpoch, rng, n, Fresh(seed), i + 1);
    OrderIsShuffled(rng, n, seed, i + 1);
    DealIsDealt(rng, n, seed, i + 1);
    LastDraw(n, out, st, i);
    DealIsPrefix(PerEnvEpoch, rng, n, Fresh(seed), i + 1, k);
    assert Deal(PerEnvEpoch, rng, n, Fresh(seed), k).0[..i + 1][i] == out[i];
  }

  lemma LastDraw<S>(n: nat, out: seq<nat>, st: State<S>, i: nat)
    requires n > 0 && Dealt(n, out, st, i + 1)
    ensures |out| == i + 1 && st.epochsCompleted == i / n + 1 && i % n < |st.epochOrder| && out[i] == st.epochOrder[i % n]
  {
    var c, pos := st.epochsCompleted - 1, st.epochPos;
    assert Current(n, out, st, i + 1) by { hide Permutation, EpochsDone; }
    hide Dealt, Permutation;
    ModIs(i, c, pos - 1, n);
    assert out[c * n..][pos - 1] == st.epochOrder[..pos][pos - 1];
  }

  /** The generator after k numbers below n. */
  ghost function Advanced<S>(rng: Rng<S>, s: S, n: nat, k: nat): S {
    if k == 0 then s else rng.randrange(Advanced(rng, s, n, k - 1), n).1
  }

  lemma {:induction false} RandomDraws<S(!new)>(rng: Rng<S>, n: nat, st: State<S>, k: nat)
    requires n > 0 && Lawful(rng)
    ensures var (out, end) := Deal(PerEnvRandom, rng, n, st, k);
      && end == st.(rng := Advanced(rng, st.rng, n, k))
      && forall i | 0 <= i < k :: out[i] == rng.randrange(Advanced(rng, st.rng, n, i), n).0 && out[i] < n
  {
    if k > 0 { RandomDraws(rng, n, st, k - 1); }
  }

  /** A run in the random mode, batched in any way, draws one number below n per board, each from where the one before
      it left the generator. */
  lemma RandomRun<S(!new)>(rng: Rng<S>, n: nat, seed: S, counts: seq<nat>)
    requires n > 0 && Lawful(rng)
    ensures var (outs, end) := Run(PerEnvRandom, rng, n, Fresh(seed), counts); var out := Joined(outs);
      && |out| == Total(counts) && end.rng == Advanced(rng, seed, n, Total(counts))
      && forall i | 0 <= i < |out| :: out[i] == rng.randrange(Advanced(rng, seed, n, i), n).0 && out[i] < n
  {
    RunIsDeal(PerEnvRandom, rng, n, Fresh(seed), counts);
    RandomDraws(rng, n, Fresh(seed), Total(counts));
  }

  /** In round robin call j of a run gets board j, counted around, and in the single mode board 0. */
  lemma {:induction false} RoundRobinTurns<S>(mode: Mode, rng: Rng<S>, n: nat, st: State<S>, counts: seq<nat>, j: nat)
    requires n > 0 && (mode.Single? || mode.RoundRobin?) && j < |counts|
    ensures var outs := Run(mode, rng, n, st, counts).0;
      && |outs| == |counts| && |outs[j]| == counts[j]
      && forall i | 0 <= i < counts[j] :: outs[j][i] == if mode.Single? then 0 else (st.iterIdx + 1 + j) % n
    decreases |counts|
  {
    var (out, st1) := Next(mode, rng, n, st, counts[0]);
    RunLength(mode, rng, n, st1, counts[1..]);
    if j > 0 {
      RoundRobinTurns(mode, rng, n, st1, counts[1..], j - 1);
    }
  }

  lemma {:induction false} RunLength<S>(mode: Mode, rng: Rng<S>, n: nat, st: State<S>, counts: seq<nat>)
    requires n > 0
    ensures |Run(mode, rng, n, st, counts).0| == |counts|
    decreases |counts|
  {
    if counts != [] { RunLength(mode, rng, n, Next(mode, rng, n, st, counts[0]).1, counts[1..]); }
  }
}
