/** The cell grammar of routed-board file names: `parse_cell_artifact` and the name Stage 1 prints. */
module CellNames {
  import opened Decimal

  const SUFFIX := ".kicad_pcb"

  /** The text around the board id. */
  function Tail(cell: string, seed: string, rollout: string): string {
    "_" + cell + "_s" + seed + "_r" + rollout + SUFFIX
  }

  function PrintName(bid: string, cell: string, seed: nat, rollout: nat): string {
    bid + Tail(cell, Pad2(seed), Pad2(rollout))
  }

  // --- the parser, read from the right ------------------------------------------------------------------------

  /** The length of `s` without its last run of digits. */
  function BeforeDigits(s: string): (n: nat)
    ensures n <= |s| && AllDigits(s[n..]) && (n > 0 ==> !IsDigit(s[n - 1]))
  {
    if s == [] || !IsDigit(s[|s| - 1]) then |s|
    else
      var n := BeforeDigits(s[..|s| - 1]);
      assert s[n..] == s[..|s| - 1][n..] + [s[|s| - 1]];
      n
  }

  predicate EndsWith(s: string, t: string) { |t| <= |s| && s[|s| - |t|..] == t }

  function Without(s: string, t: string): string
    requires EndsWith(s, t)
  {
    s[..|s| - |t|]
  }

  /** A number at the end of `s` behind `mark`: what precedes the mark, and the number's digits. */
  function Number(s: string, mark: string): Option<(string, string)> {
    var n := BeforeDigits(s);
    if n == |s| || !EndsWith(s[..n], mark) then None else Some((Without(s[..n], mark), s[n..]))
  }

  /** `Path(name).name` of a path that does not end in a slash. */
  function BaseName(path: string): string {
    if path == [] || path[|path| - 1] == '/' then [] else BaseName(path[..|path| - 1]) + [path[|path| - 1]]
  }

  predicate OneLine(s: string) { '\n' !in s }

  /** The match up to the end of the string. */
  function ParseWhole(name: string, cell: string): Option<(string, nat, nat)> {
    if !EndsWith(name, SUFFIX) then None else
    match Number(Without(name, SUFFIX), "_r")
    case None => None
    case Some((front, rollout)) =>
      match Number(front, "_s")
      case None => None
      case Some((stem, seed)) =>
        if !EndsWith(stem, "_" + cell) then None else
          var bid := Without(stem, "_" + cell);
          if bid == [] || !OneLine(bid) then None else Some((bid, Value(seed), Value(rollout)))
  }

  /** `parse_cell_artifact`; the pattern's end also matches before one final newline. */
  function ParseArtifact(path: string, cell: string): Option<(string, nat, nat)> {
    var name := BaseName(path);
    if EndsWith(name, "\n") then ParseWhole(Without(name, "\n"), cell) else ParseWhole(name, cell)
  }

  // --- the pattern, declaratively ---------------------------------------------------------------------------------

  /** `name` matches `<bid>_<cell>_s<seed>_r<rollout>.kicad_pcb` with these digit strings. */
  predicate Matches(name: string, cell: string, bid: string, seed: string, rollout: string) {
    && name == bid + Tail(cell, seed, rollout)
    && bid != [] && OneLine(bid)
    && seed != [] && AllDigits(seed) && rollout != [] && AllDigits(rollout)
  }

  lemma {:induction false} DigitsAtEnd(front: string, digits: string)
    requires AllDigits(digits) && (front != [] ==> !IsDigit(front[|front| - 1]))
    ensures BeforeDigits(front + digits) == |front|
  {
    if digits == [] {
      assert front + digits == front;
    } else {
      DigitsAtEnd(front, digits[..|digits| - 1]);
      assert (front + digits)[..|front + digits| - 1] == front + digits[..|digits| - 1];
    }
  }

  lemma NumberAtEnd(front: string, mark: string, digits: string)
    requires digits != [] && AllDigits(digits) && mark != [] && !IsDigit(mark[|mark| - 1])
    ensures Number(front + mark + digits, mark) == Some((front, digits))
  {
    DigitsAtEnd(front + mark, digits);
    assert (front + mark + digits)[..|front + mark|] == front + mark;
    assert (front + mark + digits)[|front + mark|..] == digits;
    assert (front + mark)[|front|..] == mark;
  }

  lemma NumberSplits(s: string, mark: string)
    requires Number(s, mark).Some?
    ensures var (front, digits) := Number(s, mark).value; s == front + mark + digits && digits != [] && AllDigits(digits)
  {
    var n := BeforeDigits(s);
    assert s == s[..n] + s[n..];
    assert s[..n] == Without(s[..n], mark) + mark;
  }

  lemma Pieces(bid: string, cell: string, seed: string, rollout: string)
    ensures bid + Tail(cell, seed, rollout) == (bid + ("_" + cell) + "_s" + seed) + "_r" + rollout + SUFFIX
  {
  }

  /** A match is what the parser returns: the parse is unambiguous, whatever the board id contains. */
  lemma MatchIsParsed(name: string, cell: string, bid: string, seed: string, rollout: string)
    requires Matches(name, cell, bid, seed, rollout)
    ensures ParseWhole(name, cell) == Some((bid, Value(seed), Value(rollout)))
  {
    var stem := bid + ("_" + cell);
    var front := stem + "_s" + seed;
    Pieces(bid, cell, seed, rollout);
    assert name == front + "_r" + rollout + SUFFIX;
    assert Without(name, SUFFIX) == front + "_r" + rollout;
    NumberAtEnd(front, "_r", rollout);
    NumberAtEnd(stem, "_s", seed);
    assert Without(stem, "_" + cell) == bid;
    hide Number;
  }

  /** What the parser returns is a match. */
  lemma ParsedIsMatch(name: string, cell: string)
    requires ParseWhole(name, cell).Some?
    ensures exists seed, rollout ::
      && Matches(name, cell, ParseWhole(name, cell).value.0, seed, rollout)
      && ParseWhole(name, cell).value == (ParseWhole(name, cell).value.0, Value(seed), Value(rollout))
  {
    var body := Without(name, SUFFIX);
    assert name == body + SUFFIX;
    var (front, rollout) := Number(body, "_r").value;
    NumberSplits(body, "_r");
    var (stem, seed) := Number(front, "_s").value;
    NumberSplits(front, "_s");
    var bid := Without(stem, "_" + cell);
    assert stem == bid + ("_" + cell);
    Pieces(bid, cell, seed, rollout);
    assert Matches(name, cell, bid, seed, rollout);
  }

  // --- the round trip ------------------------------------------------------------------------------------------------

  lemma {:induction false} BaseNameIs(dir: string, name: string)
    requires '/' !in name && (dir != [] ==> dir[|dir| - 1] == '/')
    ensures BaseName(dir + name) == name
  {
    if name == [] {
      assert dir + name == dir;
    } else {
      BaseNameIs(dir, name[..|name| - 1]);
      assert (dir + name)[..|dir + name| - 1] == dir + name[..|name| - 1];
    }
  }

  /** A board id that survives the file name. */
  predicate GoodId(bid: string) { bid != [] && OneLine(bid) && '/' !in bid }

  lemma {:induction false} DigitsHaveNoSlash(s: string)
    requires AllDigits(s)
    ensures '/' !in s
  {
  }

  lemma SuffixIsLast(front: string)
    ensures !EndsWith(front + SUFFIX, "\n")
  {
    var name := front + SUFFIX;
    assert name[|name| - 1] == SUFFIX[|SUFFIX| - 1];
    assert name[|name| - 1..] == [SUFFIX[|SUFFIX| - 1]] && SUFFIX[|SUFFIX| - 1] == 'b';
    assert "b"[0] != "\n"[0];
  }

  lemma NoNewlineEnd(bid: string, cell: string, seed: nat, rollout: nat)
    ensures !EndsWith(PrintName(bid, cell, seed, rollout), "\n")
  {
    var front := (bid + ("_" + cell) + "_s" + Pad2(seed)) + "_r" + Pad2(rollout);
    Pieces(bid, cell, Pad2(seed), Pad2(rollout));
    SuffixIsLast(front);
  }

  lemma {:induction false} BaseNameHasNoSlash(path: string)
    ensures '/' !in BaseName(path)
  {
    if path != [] && path[|path| - 1] != '/' { BaseNameHasNoSlash(path[..|path| - 1]); }
  }

  /** A printed name, in whatever directory, parses back to its board id, seed and rollout. */
  lemma NameRoundTrip(dir: string, bid: string, cell: string, seed: nat, rollout: nat)
    requires dir != [] ==> dir[|dir| - 1] == '/'
    requires GoodId(bid) && '/' !in cell
    ensures ParseArtifact(dir + PrintName(bid, cell, seed, rollout), cell) == Some((bid, seed, rollout))
  {
    var name := PrintName(bid, cell, seed, rollout);
    DigitsHaveNoSlash(Pad2(seed));
    DigitsHaveNoSlash(Pad2(rollout));
    BaseNameIs(dir, name);
    NoNewlineEnd(bid, cell, seed, rollout);
    MatchIsParsed(name, cell, bid, Pad2(seed), Pad2(rollout));
  }

  /** Every id the parser returns is good. */
  lemma ParsedIdIsGood(path: string, cell: string)
    requires ParseArtifact(path, cell).Some?
    ensures GoodId(ParseArtifact(path, cell).value.0)
  {
    var base := BaseName(path);
    var whole := if EndsWith(base, "\n") then Without(base, "\n") else base;
    ParsedIsMatch(whole, cell);
    var bid := ParseArtifact(path, cell).value.0;
    var s, r :| Matches(whole, cell, bid, s, r);
    BaseNameHasNoSlash(path);
    forall i | 0 <= i < |bid|
      ensures bid[i] != '/'
    {
      assert bid[i] == whole[i] == base[i];
    }
  }

  /** Exactly the good ids come back: an empty id, a slash or a newline in it breaks the name. */
  lemma RoundTripExactly(bid: string, cell: string, seed: nat, rollout: nat)
    requires '/' !in cell
    ensures ParseArtifact(PrintName(bid, cell, seed, rollout), cell) == Some((bid, seed, rollout)) <==> GoodId(bid)
  {
    var name := PrintName(bid, cell, seed, rollout);
    if GoodId(bid) {
      NameRoundTrip("", bid, cell, seed, rollout);
      assert "" + name == name;
    }
    hide PrintName, ParseArtifact, GoodId;
    if ParseArtifact(name, cell).Some? {
      ParsedIdIsGood(name, cell);
    }
  }
}
