/** `flatten_rollout_artifacts`: Stage 1's boards moved into the cell grammar, over a map of files. */
module Flatten {
  import opened Decimal
  import opened CellNames

  /** The columns the step reads and writes; `ckpt` is None when blank, `rollout` None when unreadable. */
  datatype Row = Row(ckpt: Option<int>, artifact: string, boardId: string, rollout: Option<int>, routedPcb: string)

  /** A resolved cell directory, its last component, and the checkpoint's training seed. */
  datatype Cell = Cell(dir: string, name: string, seed: nat)

  type Content(!new, ==)

  /** What the step works on. */
  datatype State = State(rows: seq<Row>, files: map<string, Content>, moved: nat)

  /** `f"{i:02d}"` */
  function Fmt2(i: int): string { if i >= 0 then Pad2(i) else "-" + Print(-i) }

  function Resolve(cell: Cell, path: string): string {
    if path != [] && path[0] == '/' then path else cell.dir + "/" + path
  }

  function Target(cell: Cell, bid: string, rollout: int): string {
    cell.dir + "/boards/" + (bid + Tail(cell.name, Pad2(cell.seed), Fmt2(rollout)))
  }

  /** The row names a board outside the grammar and says where it belongs. */
  predicate InStaging(cell: Cell, r: Row) {
    r.artifact != "" && ParseArtifact(r.artifact, cell.name).None? && r.rollout.Some? && r.boardId != ""
  }

  /** The row names a board outside the grammar, and it can be moved. */
  predicate Moves(cell: Cell, files: map<string, Content>, r: Row) {
    InStaging(cell, r) && Resolve(cell, r.artifact) in files
  }

  function Stamp(cell: Cell, r: Row): Row { if r.ckpt.None? then r.(ckpt := Some(cell.seed)) else r }

  function Renamed(cell: Cell, r: Row): Row
    requires r.rollout.Some?
  {
    var dst := Target(cell, r.boardId, r.rollout.value);
    r.(artifact := dst, routedPcb := if r.routedPcb == r.artifact then dst else r.routedPcb)
  }

  /** `src.replace(dst)`: whatever was at `dst` is gone. */
  function Replace(files: map<string, Content>, src: string, dst: string): map<string, Content>
    requires src in files
  {
    (files - {src})[dst := files[src]]
  }

  function FlattenRow(cell: Cell, s: State, i: nat): State
    requires i < |s.rows|
  {
    var r := Stamp(cell, s.rows[i]);
    if Moves(cell, s.files, r) then
      State(s.rows[i := Renamed(cell, r)],
            Replace(s.files, Resolve(cell, r.artifact), Target(cell, r.boardId, r.rollout.value)), s.moved + 1)
    else s.(rows := s.rows[i := r])
  }

  /** The first `i` rows done. */
  function FlattenUpTo(cell: Cell, s: State, i: nat): (t: State)
    requires i <= |s.rows|
    ensures |t.rows| == |s.rows| && forall k | i <= k < |s.rows| :: t.rows[k] == s.rows[k]
  {
    if i == 0 then s else FlattenRow(cell, FlattenUpTo(cell, s, i - 1), i - 1)
  }

  function FlattenAll(cell: Cell, s: State): State { FlattenUpTo(cell, s, |s.rows|) }

  method FlattenRolloutArtifacts(cell: Cell, rows: seq<Row>, files: map<string, Content>) returns (outRows: seq<Row>, outFiles: map<string, Content>, moved: nat)
    ensures State(outRows, outFiles, moved) == FlattenAll(cell, State(rows, files, 0))
  {
    outRows, outFiles, moved := rows, files, 0;
    hide ParseArtifact, Resolve, Target;
    for i := 0 to |rows|
      invariant State(outRows, outFiles, moved) == FlattenUpTo(cell, State(rows, files, 0), i)
    {
      var r := outRows[i];
      if r.ckpt.None? {
        r := r.(ckpt := Some(cell.seed));
      }
      outRows := outRows[i := r];
      if Moves(cell, outFiles, r) {
        var src, dst := Resolve(cell, r.artifact), Target(cell, r.boardId, r.rollout.value);
        outFiles := Replace(outFiles, src, dst);
        if r.routedPcb == r.artifact {
          r := r.(routedPcb := dst);
        }
        outRows := outRows[i := r.(artifact := dst)];
        moved := moved + 1;
      }
    }
  }

  // --- the names it writes --------------------------------------------------------------------------------------------

  /** The boards still in staging have ids and rollouts whose names survive the grammar. */
  predicate Nameable(cell: Cell, rows: seq<Row>) {
    && '/' !in cell.name
    && forall i | 0 <= i < |rows| && InStaging(cell, rows[i]) :: GoodId(rows[i].boardId) && rows[i].rollout.value >= 0
  }

  lemma TargetParses(cell: Cell, bid: string, rollout: nat)
    requires '/' !in cell.name && GoodId(bid)
    ensures ParseArtifact(Target(cell, bid, rollout), cell.name) == Some((bid, cell.seed, rollout))
  {
    var dir := cell.dir + "/boards/";
    assert dir[|dir| - 1] == '/';
    NameRoundTrip(dir, bid, cell.name, cell.seed, rollout);
  }

  lemma {:induction false} BaseNameOfJoin(dir: string, path: string)
    ensures BaseName(dir + "/" + path) == BaseName(path)
  {
    if path == [] {
      assert dir + "/" + path == dir + "/";
    } else {
      assert (dir + "/" + path)[..|dir + "/" + path| - 1] == dir + "/" + path[..|path| - 1];
      BaseNameOfJoin(dir, path[..|path| - 1]);
    }
  }

  /** A path parses as it does resolved. */
  lemma ResolvedParses(cell: Cell, path: string)
    ensures ParseArtifact(Resolve(cell, path), cell.name) == ParseArtifact(path, cell.name)
  {
    BaseNameOfJoin(cell.dir, path);
    hide ParseWhole;
  }

  // --- what the step keeps ----------------------------------------------------------------------------------------------

  /** Every file outside the grammar was there before. */
  ghost predicate NoNewStrays(cell: Cell, was: map<string, Content>, now: map<string, Content>) {
    forall p | p in now && ParseArtifact(p, cell.name).None? :: p in was
  }

  lemma RowKeepsNameable(cell: Cell, s: State, i: nat)
    requires i < |s.rows| && Nameable(cell, s.rows)
    ensures Nameable(cell, FlattenRow(cell, s, i).rows) && NoNewStrays(cell, s.files, FlattenRow(cell, s, i).files)
  {
    var r := Stamp(cell, s.rows[i]);
    assert r.boardId == s.rows[i].boardId && r.rollout == s.rows[i].rollout;
    if Moves(cell, s.files, r) {
      TargetParses(cell, r.boardId, r.rollout.value);
    }
    hide ParseArtifact, Resolve, Target, GoodId;
  }

  /** A row is settled when another pass leaves it alone. */
  ghost predicate Settled(cell: Cell, files: map<string, Content>, r: Row) { r.ckpt.Some? && !Moves(cell, files, r) }

  lemma RowSettles(cell: Cell, s: State, i: nat)
    requires i < |s.rows| && Nameable(cell, s.rows)
    ensures var t := FlattenRow(cell, s, i); Settled(cell, t.files, t.rows[i])
    ensures forall r: Row | Settled(cell, s.files, r) :: Settled(cell, FlattenRow(cell, s, i).files, r)
  {
    var r := Stamp(cell, s.rows[i]);
    if Moves(cell, s.files, r) {
      TargetParses(cell, r.boardId, r.rollout.value);
    }
    RowKeepsNameable(cell, s, i);
    var t := FlattenRow(cell, s, i);
    forall q: Row | Settled(cell, s.files, q)
      ensures Settled(cell, t.files, q)
    {
      ResolvedParses(cell, q.artifact);
    }
    hide ParseArtifact, Resolve, Target, GoodId;
  }

  /** The first `n` rows are settled. */
  ghost predicate SettledUpTo(cell: Cell, s: State, n: nat) {
    n <= |s.rows| && forall k | 0 <= k < n :: Settled(cell, s.files, s.rows[k])
  }

  lemma OneMoreSettled(cell: Cell, s: State, i: nat)
    requires i < |s.rows| && Nameable(cell, s.rows) && SettledUpTo(cell, s, i)
    ensures SettledUpTo(cell, FlattenRow(cell, s, i), i + 1) && Nameable(cell, FlattenRow(cell, s, i).rows)
  {
    RowKeepsNameable(cell, s, i);
    RowSettles(cell, s, i);
    var t := FlattenRow(cell, s, i);
    assert |t.rows| == |s.rows| && forall k | 0 <= k < i :: t.rows[k] == s.rows[k];
    hide FlattenRow, Settled, Nameable;
  }

  lemma {:induction false} PassSettles(cell: Cell, s: State, i: nat)
    requires i <= |s.rows| && Nameable(cell, s.rows)
    ensures SettledUpTo(cell, FlattenUpTo(cell, s, i), i) && Nameable(cell, FlattenUpTo(cell, s, i).rows)
  {
    hide FlattenRow, Settled, Nameable, SettledUpTo;
    if i > 0 {
      PassSettles(cell, s, i - 1);
      OneMoreSettled(cell, FlattenUpTo(cell, s, i - 1), i - 1);
    } else {
      NothingToSettle(cell, s);
    }
  }

  lemma NothingToSettle(cell: Cell, s: State)
    ensures SettledUpTo(cell, s, 0)
  {
  }

  lemma {:induction false} SettledPassDoesNothing(cell: Cell, s: State, i: nat)
    requires i <= |s.rows| && forall k | 0 <= k < |s.rows| :: Settled(cell, s.files, s.rows[k])
    ensures FlattenUpTo(cell, s, i) == s
  {
    if i > 0 {
      SettledPassDoesNothing(cell, s, i - 1);
      assert Settled(cell, s.files, s.rows[i - 1]);
    }
  }

  /** A second run changes nothing and moves nothing. */
  lemma FlatteningIsIdempotent(cell: Cell, s: State)
    requires Nameable(cell, s.rows)
    ensures FlattenAll(cell, FlattenAll(cell, s)) == FlattenAll(cell, s)
  {
    PassSettles(cell, s, |s.rows|);
    SettledPassDoesNothing(cell, FlattenAll(cell, s), |s.rows|);
  }

  // --- when a board is lost ---------------------------------------------------------------------------------------------

  function Source(cell: Cell, r: Row): string { Resolve(cell, r.artifact) }

  function TargetOf(cell: Cell, r: Row): string
    requires r.rollout.Some?
  {
    Target(cell, r.boardId, r.rollout.value)
  }

  /** Some of the first `i` rows can be moved and names the file `p`. */
  ghost predicate Taken(cell: Cell, s: State, i: nat, p: string)
    requires i <= |s.rows|
  {
    exists j | 0 <= j < i :: Moves(cell, s.files, s.rows[j]) && Source(cell, s.rows[j]) == p
  }

  /** The row is moved: it can be, and no row before it names the same file. */
  ghost predicate Mover(cell: Cell, s: State, k: nat)
    requires k < |s.rows|
  {
    Moves(cell, s.files, s.rows[k]) && !Taken(cell, s, k, Source(cell, s.rows[k]))
  }

  /** One of the first `i` rows is moved to `p`. */
  ghost predicate Arrived(cell: Cell, s: State, i: nat, p: string)
    requires i <= |s.rows|
  {
    exists j | 0 <= j < i :: Mover(cell, s, j) && TargetOf(cell, s.rows[j]) == p
  }

  /** The row is moved onto a file that was there before, or onto one moved there before it. */
  ghost predicate Collides(cell: Cell, s: State, k: nat)
    requires k < |s.rows|
  {
    Mover(cell, s, k) && (TargetOf(cell, s.rows[k]) in s.files || Arrived(cell, s, k, TargetOf(cell, s.rows[k])))
  }

  /** Where the files are after `i` rows. */
  ghost predicate FilesAt(cell: Cell, s: State, i: nat, files: map<string, Content>)
    requires i <= |s.rows|
  {
    forall p: string :: p in files <==> (p in s.files && !Taken(cell, s, i, p)) || Arrived(cell, s, i, p)
  }

  lemma ArrivedParses(cell: Cell, s: State, i: nat, p: string)
    requires i <= |s.rows| && Nameable(cell, s.rows) && Arrived(cell, s, i, p)
    ensures ParseArtifact(p, cell.name).Some?
  {
    var j :| 0 <= j < i && Mover(cell, s, j) && TargetOf(cell, s.rows[j]) == p;
    TargetParses(cell, s.rows[j].boardId, s.rows[j].rollout.value);
  }

  lemma TakenDoesNotParse(cell: Cell, s: State, i: nat, p: string)
    requires i <= |s.rows| && Taken(cell, s, i, p)
    ensures ParseArtifact(p, cell.name).None?
  {
    var j :| 0 <= j < i && Moves(cell, s.files, s.rows[j]) && Source(cell, s.rows[j]) == p;
    ResolvedParses(cell, s.rows[j].artifact);
  }

  /** The row whose turn it is moves if it is a mover, and overwrites a file if it collides. */
  lemma TurnIs(cell: Cell, s: State, i: nat, files: map<string, Content>)
    requires i < |s.rows| && Nameable(cell, s.rows) && FilesAt(cell, s, i, files)
    ensures Moves(cell, files, s.rows[i]) <==> Mover(cell, s, i)
    ensures Mover(cell, s, i) ==>
      && TargetOf(cell, s.rows[i]) != Source(cell, s.rows[i])
      && (TargetOf(cell, s.rows[i]) in files <==> Collides(cell, s, i))
  {
    var r := s.rows[i];
    ResolvedParses(cell, r.artifact);
    if Arrived(cell, s, i, Source(cell, r)) { ArrivedParses(cell, s, i, Source(cell, r)); }
    if Mover(cell, s, i) {
      TargetParses(cell, r.boardId, r.rollout.value);
      if Taken(cell, s, i, TargetOf(cell, r)) { TakenDoesNotParse(cell, s, i, TargetOf(cell, r)); }
    }
    hide ParseArtifact, Resolve, Target, Taken, Arrived, GoodId, Nameable;
  }

  lemma OneMoreTaken(cell: Cell, s: State, i: nat, p: string)
    requires i < |s.rows|
    ensures Taken(cell, s, i + 1, p) <==> Taken(cell, s, i, p) || (Mover(cell, s, i) && Source(cell, s.rows[i]) == p)
    ensures Arrived(cell, s, i + 1, p) <==> Arrived(cell, s, i, p) || (Mover(cell, s, i) && TargetOf(cell, s.rows[i]) == p)
  {
    hide Moves, Source, TargetOf;
  }

  lemma FilesAfterTurn(cell: Cell, s: State, i: nat, files: map<string, Content>)
    requires i < |s.rows| && Nameable(cell, s.rows) && FilesAt(cell, s, i, files)
    ensures Mover(cell, s, i) ==> Source(cell, s.rows[i]) in files
    ensures FilesAt(cell, s, i + 1, if Mover(cell, s, i) then Replace(files, Source(cell, s.rows[i]), TargetOf(cell, s.rows[i])) else files)
  {
    TurnIs(cell, s, i, files);
    var after := if Mover(cell, s, i) then Replace(files, Source(cell, s.rows[i]), TargetOf(cell, s.rows[i])) else files;
    forall p: string
      ensures p in after <==> (p in s.files && !Taken(cell, s, i + 1, p)) || Arrived(cell, s, i + 1, p)
    {
      OneMoreTaken(cell, s, i, p);
      if Arrived(cell, s, i, p) { ArrivedParses(cell, s, i, p); }
      if Mover(cell, s, i) { ResolvedParses(cell, s.rows[i].artifact); }
      hide ParseArtifact, Resolve, Target, Taken, Arrived, GoodId, Nameable;
    }
  }

  /** As many files, and the same contents. */
  ghost predicate SameContents(was: map<string, Content>, now: map<string, Content>) {
    |now| == |was| && now.Values == was.Values
  }

  /** A move onto a free place keeps every content; a move onto another file loses that file. */
  lemma ReplaceKeepsContents(files: map<string, Content>, src: string, dst: string)
    requires src in files && src != dst
    ensures dst !in files ==> SameContents(files, Replace(files, src, dst))
    ensures dst in files ==> |Replace(files, src, dst)| == |files| - 1
  {
    var now := Replace(files, src, dst);
    assert files.Keys == (files.Keys - {src}) + {src};
    assert now.Keys == (files.Keys - {src}) + {dst};
    assert |files| == |files.Keys| && |now| == |now.Keys|;
    if dst in files {
      assert now.Keys == files.Keys - {src};
    } else {
      forall v ensures v in files.Values <==> v in now.Values {
        if v in files.Values {
          var p :| p in files && files[p] == v;
          if p == src { assert now[dst] == v; } else { assert now[p] == v; }
        }
        if v in now.Values {
          var q :| q in now && now[q] == v;
          if q == dst { assert files[src] == v; } else { assert files[q] == v; }
        }
      }
    }
  }

  /** None of the first `i` rows collides. */
  ghost predicate NoCollision(cell: Cell, s: State, i: nat)
    requires i <= |s.rows|
  {
    forall k | 0 <= k < i :: !Collides(cell, s, k)
  }

  /** What `i` rows have done to the files. */
  ghost predicate Tally(cell: Cell, s: State, i: nat, files: map<string, Content>)
    requires i <= |s.rows|
  {
    && FilesAt(cell, s, i, files)
    && (NoCollision(cell, s, i) ==> SameContents(s.files, files))
    && (!NoCollision(cell, s, i) ==> |files| < |s.files|)
  }

  lemma TallyStarts(cell: Cell, s: State)
    ensures Tally(cell, s, 0, s.files)
  {
  }

  lemma TallyStep(cell: Cell, s: State, i: nat, files: map<string, Content>)
    requires i < |s.rows| && Nameable(cell, s.rows) && Tally(cell, s, i, files)
    ensures Mover(cell, s, i) ==> Source(cell, s.rows[i]) in files
    ensures Tally(cell, s, i + 1, if Mover(cell, s, i) then Replace(files, Source(cell, s.rows[i]), TargetOf(cell, s.rows[i])) else files)
  {
    hide FilesAt, Mover, Source, TargetOf, Replace, Nameable, Arrived;
    FilesAfterTurn(cell, s, i, files);
    TurnIs(cell, s, i, files);
    assert NoCollision(cell, s, i + 1) <==> NoCollision(cell, s, i) && !Collides(cell, s, i);
    if Mover(cell, s, i) {
      ReplaceKeepsContents(files, Source(cell, s.rows[i]), TargetOf(cell, s.rows[i]));
    } else {
      assert !Collides(cell, s, i);
    }
  }

  lemma TurnFiles(cell: Cell, s: State, t: State, i: nat)
    requires i < |s.rows| == |t.rows| && t.rows[i] == s.rows[i] && Nameable(cell, s.rows) && FilesAt(cell, s, i, t.files)
    ensures Mover(cell, s, i) ==> Source(cell, s.rows[i]) in t.files
    ensures FlattenRow(cell, t, i).files ==
      if Mover(cell, s, i) then Replace(t.files, Source(cell, s.rows[i]), TargetOf(cell, s.rows[i])) else t.files
  {
    TurnIs(cell, s, i, t.files);
    hide ParseArtifact, Resolve, Target, FilesAt, Nameable, Mover, Replace;
  }

  lemma TurnTally(cell: Cell, s: State, t: State, i: nat)
    requires i < |s.rows| == |t.rows| && t.rows[i] == s.rows[i] && Nameable(cell, s.rows) && Tally(cell, s, i, t.files)
    ensures Tally(cell, s, i + 1, FlattenRow(cell, t, i).files)
  {
    hide FilesAt, NoCollision, SameContents, Nameable, Mover, FlattenRow, Replace, Source, TargetOf;
    TurnFiles(cell, s, t, i);
    TallyStep(cell, s, i, t.files);
    hide *;
  }

  lemma {:induction false} PassTally(cell: Cell, s: State, i: nat)
    requires i <= |s.rows| && Nameable(cell, s.rows)
    ensures Tally(cell, s, i, FlattenUpTo(cell, s, i).files)
  {
    hide Nameable, Tally, FlattenRow;
    if i == 0 {
      TallyStarts(cell, s);
    } else {
      PassTally(cell, s, i - 1);
      TurnTally(cell, s, FlattenUpTo(cell, s, i - 1), i - 1);
    }
  }

  /** The step keeps every board exactly when no row is moved onto a file that stands there already, or
      onto the target of a row moved before it; otherwise there are fewer files than there were. */
  lemma NothingIsLostExactly(cell: Cell, s: State)
    requires Nameable(cell, s.rows)
    ensures SameContents(s.files, FlattenAll(cell, s).files) <==> NoCollision(cell, s, |s.rows|)
    ensures !NoCollision(cell, s, |s.rows|) ==> |FlattenAll(cell, s).files| < |s.files|
  {
    PassTally(cell, s, |s.rows|);
    hide NoCollision, FilesAt;
  }

  /** Two rows in staging name different boards or rollouts. */
  predicate Apart(cell: Cell, rows: seq<Row>) {
    forall i, j | 0 <= i < j < |rows| && InStaging(cell, rows[i]) && InStaging(cell, rows[j]) ::
      rows[i].boardId != rows[j].boardId || rows[i].rollout != rows[j].rollout
  }

  /** No file is where a row that is still in staging would be moved to. */
  ghost predicate Vacant(cell: Cell, s: State) {
    forall k | 0 <= k < |s.rows| && Moves(cell, s.files, s.rows[k]) :: TargetOf(cell, s.rows[k]) !in s.files
  }

  lemma TargetsDiffer(cell: Cell, rows: seq<Row>, j: nat, k: nat)
    requires Nameable(cell, rows) && j < k < |rows| && InStaging(cell, rows[j]) && InStaging(cell, rows[k])
    requires rows[j].boardId != rows[k].boardId || rows[j].rollout != rows[k].rollout
    ensures TargetOf(cell, rows[j]) != TargetOf(cell, rows[k])
  {
    TargetParses(cell, rows[j].boardId, rows[j].rollout.value);
    TargetParses(cell, rows[k].boardId, rows[k].rollout.value);
    hide ParseArtifact, Target;
  }

  lemma ApartDoNotCollide(cell: Cell, s: State, k: nat)
    requires k < |s.rows| && Nameable(cell, s.rows) && Apart(cell, s.rows) && Vacant(cell, s)
    ensures !Collides(cell, s, k)
  {
    hide Nameable, Taken, Resolve, ParseArtifact, TargetOf, Source;
    if Mover(cell, s, k) && Arrived(cell, s, k, TargetOf(cell, s.rows[k])) {
      var j :| 0 <= j < k && Mover(cell, s, j) && TargetOf(cell, s.rows[j]) == TargetOf(cell, s.rows[k]);
      TargetsDiffer(cell, s.rows, j, k);
    }
  }

  /** Attempts that differ in board or rollout, moved to free places, are all kept. */
  lemma NoBoardIsLost(cell: Cell, s: State)
    requires Nameable(cell, s.rows) && Apart(cell, s.rows) && Vacant(cell, s)
    ensures SameContents(s.files, FlattenAll(cell, s).files)
  {
    hide Nameable, Apart, Vacant, Collides, SameContents, FlattenAll;
    forall k: nat | k < |s.rows|
      ensures !Collides(cell, s, k)
    {
      ApartDoNotCollide(cell, s, k);
    }
    NothingIsLostExactly(cell, s);
  }

  lemma ShortNameDoesNotParse(path: string, cell: string)
    requires |BaseName(path)| < |SUFFIX|
    ensures ParseArtifact(path, cell).None?
  {
    hide BaseName, Number;
  }

  lemma StagedNameDoesNotParse(cell: string)
    ensures ParseArtifact("/a", cell).None?
  {
    BaseNameIs("/", "a");
    assert "/" + "a" == "/a" && |SUFFIX| == 10;
    hide *;
    ShortNameDoesNotParse("/a", cell);
  }

  lemma OntoAFile(cell: Cell, s: State)
    requires |s.rows| == 1 && Moves(cell, s.files, s.rows[0]) && TargetOf(cell, s.rows[0]) in s.files
    ensures !NoCollision(cell, s, 1)
  {
    hide Moves, TargetOf;
    assert Collides(cell, s, 0);
  }

  function Staged(): Row { Row(Some(0), "/a", "x", Some(0), "") }

  lemma StagedMoves(cell: Cell, files: map<string, Content>)
    requires '/' !in cell.name && "/a" in files
    ensures Moves(cell, files, Staged()) && Nameable(cell, [Staged()]) && Apart(cell, [Staged()])
  {
    StagedNameDoesNotParse(cell.name);
    hide ParseArtifact;
    assert Resolve(cell, "/a") == "/a";
  }

  /** A board to be moved to a place where another file stands. */
  function Occupied(cell: Cell, one: Content, two: Content): State {
    State([Staged()], map["/a" := one][TargetOf(cell, Staged()) := two], 0)
  }

  lemma OccupiedIs(cell: Cell, one: Content, two: Content)
    ensures var s := Occupied(cell, one, two);
      s.rows == [Staged()] && "/a" in s.files && TargetOf(cell, Staged()) in s.files && Staged().rollout.Some?
  {
    hide TargetOf;
  }

  /** Attempts that differ are not enough: a file left where a board goes is lost. */
  lemma OccupiedPlaceLosesABoard(cell: Cell, one: Content, two: Content)
    requires '/' !in cell.name
    ensures var s := Occupied(cell, one, two);
      Nameable(cell, s.rows) && Apart(cell, s.rows) && |FlattenAll(cell, s).files| < |s.files|
  {
    hide *;
    var s := Occupied(cell, one, two);
    OccupiedIs(cell, one, two);
    StagedMoves(cell, s.files);
    OntoAFile(cell, s);
    NothingIsLostExactly(cell, s);
  }
}
