/** The fill tables themselves: which sibling of `"*"` is harmless, and that the shipped tables have none. */
module LegacyFillTables {
  import opened Decimal
  import opened Dicts
  import opened LegacyFill
  import opened LegacyFillLaws

  // --- a sibling behind "*" -------------------------------------------------------------------------------------------

  function Siblings(value: Yaml, k: string, filled: Yaml): Yaml { Map([(STAR, value), (k, filled)]) }

  /** Filling a second time changes nothing and reports nothing. */
  ghost predicate Twice(raw: Yaml, table: Yaml) {
    var once := Fill(raw, table, "").0; Fill(once, table, "") == (once, [])
  }

  function StarOut(d: Dict<string, Yaml>, value: Yaml): Progress {
    StarSteps(Progress(d, []), value, KeysOf(d), |d|, "")
  }

  lemma FillOfSiblings(d: Dict<string, Yaml>, value: Yaml, k: string, filled: Yaml)
    requires k != STAR
    ensures var p := Step(StarOut(d, value), false, filled, k, "");
      Fill(Map(d), Siblings(value, k, filled), "") == (Map(p.out), p.keys)
  {
    var table := Siblings(value, k, filled);
    assert FillUpTo(d, table, 0, "") == Progress(d, []);
    assert FillUpTo(d, table, 1, "") == StarOut(d, value);
    hide Step, StarSteps;
  }

  /** What `"*"` makes of each entry. */
  ghost predicate StarDid(d: Dict<string, Yaml>, value: Yaml, p: Progress) {
    && Keyed(p.out)
    && (forall j: string :: Get(p.out, j) == if Get(d, j).Some? then One(value, true, Get(d, j), j).0 else None)
    && (p.keys == [] <==> forall j: string | Get(d, j).Some? :: One(value, true, Get(d, j), j).1 == [])
    && ((forall j: string | Get(d, j).Some? :: One(value, true, Get(d, j), j).0 == Get(d, j)) ==> p.out == d)
  }

  lemma StarEach(d: Dict<string, Yaml>, value: Yaml)
    requires Keyed(d)
    ensures StarDid(d, value, StarOut(d, value))
  {
    var items := seq(|d|, i requires 0 <= i < |d| => Item(d[i].0, true, value));
    LegacyFillLaws.DistinctKeys(d);
    StarIsRun(d, value, items, |d|, "");
    RunIsEachOne(d, items, |d|, "");
    hide Ran, Run, StarDid, Get, Keyed;
    RanForStar(d, value, items, StarOut(d, value));
  }

  lemma ItemIsEntry(d: Dict<string, Yaml>, value: Yaml, items: seq<Item>, i: nat)
    requires Keyed(d) && i < |d| == |items| && items[i] == Item(d[i].0, true, value)
    ensures Get(d, items[i].target).Some? && OneOf(d, items[i], "") == One(value, true, Get(d, items[i].target), items[i].target)
  {
    EntryIsGot(d, i);
    assert "" + d[i].0 == d[i].0;
    hide One, Get, Keyed;
  }

  lemma RanForStar(d: Dict<string, Yaml>, value: Yaml, items: seq<Item>, p: Progress)
    requires Keyed(d) && |d| == |items| && (forall i | 0 <= i < |d| :: items[i] == Item(d[i].0, true, value))
    requires Ran(d, items, |d|, "", p)
    ensures StarDid(d, value, p)
  {
    hide One, OneOf, Get, Keyed;
    forall i | 0 <= i < |d|
      ensures Get(d, items[i].target).Some?
      ensures OneOf(d, items[i], "") == One(value, true, Get(d, items[i].target), items[i].target)
    {
      ItemIsEntry(d, value, items, i);
    }
    forall j: string | Get(d, j).Some?
      ensures exists i :: 0 <= i < |d| && items[i].target == j
    {
      KeyHasEntry(d, j);
      var i :| 0 <= i < |d| && d[i].0 == j;
      assert items[i].target == j;
    }
    forall j: string
      ensures Get(p.out, j) == if Get(d, j).Some? then One(value, true, Get(d, j), j).0 else None
    {
      if Get(d, j).Some? {
        var i :| 0 <= i < |d| && items[i].target == j;
        assert Get(p.out, items[i].target) == OneOf(d, items[i], "").0;
      }
    }
  }

  /** The entry of a sibling that was absent. */
  lemma FillAbsent(p: Progress, k: string, filled: Yaml)
    requires !IsTable(filled) && !filled.Null?
    ensures Step(p, false, filled, k, "") ==
      if Get(p.out, k).None? then Progress(Put(p.out, k, filled), p.keys + [k]) else p
  {
    assert "" + k == k;
  }

  /** `"*"` leaves a filled sibling as it is, and says nothing of it. */
  predicate Harmless(value: Yaml, k: string, filled: Yaml) { One(value, true, Some(filled), k) == (Some(filled), []) }

  lemma SettledEntries(d: Dict<string, Yaml>, value: Yaml, k: string, filled: Yaml, once: Dict<string, Yaml>)
    requires Keyed(d) && Lonely(value) && Proper(value) && Harmless(value, k, filled) && Proper(Map(d))
    requires var p := StarOut(d, value); once == if Get(p.out, k).None? then Put(p.out, k, filled) else p.out
    ensures Keyed(once) && forall j: string | Get(once, j).Some? :: One(value, true, Get(once, j), j) == (Get(once, j), [])
  {
    StarEach(d, value);
    var out := StarOut(d, value).out;
    hide One, StarOut;
    PutAt(out, k, filled);
    forall j: string | Get(once, j).Some?
      ensures One(value, true, Get(once, j), j) == (Get(once, j), [])
    {
      if j == k && Get(out, k).None? {
      } else {
        ProperEntry(Map(d), j);
        OneTwice(value, true, Get(d, j), j, j);
      }
    }
  }

  lemma HarmlessSettles(d: Dict<string, Yaml>, value: Yaml, k: string, filled: Yaml)
    requires k != STAR && Proper(Map(d)) && Lonely(value) && Proper(value) && !IsTable(filled) && !filled.Null?
    requires Harmless(value, k, filled)
    ensures Twice(Map(d), Siblings(value, k, filled))
  {
    var p := StarOut(d, value);
    FillOfSiblings(d, value, k, filled);
    FillAbsent(p, k, filled);
    var once := Step(p, false, filled, k, "").out;
    SettledEntries(d, value, k, filled, once);
    StarEach(once, value);
    FillOfSiblings(once, value, k, filled);
    FillAbsent(StarOut(once, value), k, filled);
    StarEach(d, value);
    assert Get(once, k).Some? by { if Get(p.out, k).None? { PutAt(p.out, k, filled); } }
    hide Fill, Step, StarSteps, One, Proper, Lonely, Get, Put, StarOut;
    assert StarOut(once, value).out == once && StarOut(once, value).keys == [];
  }

  lemma StarOnOne(value: Yaml, k: string, filled: Yaml)
    ensures var d: Dict<string, Yaml> := [(k, filled)];
      var p := StarOut(d, value);
      Keyed(d) && Get(d, k) == Some(filled) && Keyed(p.out)
      && Get(p.out, k) == One(value, true, Some(filled), k).0
      && (p.keys == [] <==> One(value, true, Some(filled), k).1 == [])
  {
    var d: Dict<string, Yaml> := [(k, filled)];
    assert d[..0] == [];
    assert forall j: string :: Get(d, j).Some? <==> j == k;
    StarEach(d, value);
    hide One, StarSteps;
  }

  lemma EmptyFilled(value: Yaml, k: string, filled: Yaml)
    requires k != STAR && !IsTable(filled) && !filled.Null?
    ensures Fill(Map([]), Siblings(value, k, filled), "").0 == Map([(k, filled)])
  {
    FillOfSiblings([], value, k, filled);
    var none: Dict<string, Yaml> := [];
    assert StarOut(none, value) == Progress(none, []);
    FillAbsent(Progress(none, []), k, filled);
  }

  lemma HarmfulShows(value: Yaml, k: string, filled: Yaml)
    requires k != STAR && !IsTable(filled) && !filled.Null? && !Harmless(value, k, filled)
    ensures !Twice(Map([]), Siblings(value, k, filled))
  {
    EmptyFilled(value, k, filled);
    StarOnOne(value, k, filled);
    var d: Dict<string, Yaml> := [(k, filled)];
    FillOfSiblings(d, value, k, filled);
    var p := StarOut(d, value);
    FillAbsent(p, k, filled);
    hide Fill, Step, One, StarOut;
    assert |p.keys + [k]| > 0;
  }

  /** A value filled beside `"*"` is harmless, on every file, exactly when `"*"` itself would leave it as it
      is: a scalar or an empty mapping that its table neither drops nor adds to. */
  lemma SiblingIsHarmlessExactly(value: Yaml, k: string, filled: Yaml)
    requires k != STAR && Lonely(value) && Proper(value) && !IsTable(filled) && !filled.Null?
    ensures (forall raw: Yaml | Proper(raw) :: Twice(raw, Siblings(value, k, filled))) <==> Harmless(value, k, filled)
  {
    if Harmless(value, k, filled) {
      forall raw: Yaml | Proper(raw)
        ensures Twice(raw, Siblings(value, k, filled))
      {
        if raw.Map? { HarmlessSettles(raw.entries, value, k, filled); }
      }
    } else {
      HarmfulShows(value, k, filled);
      assert Proper(Map([]));
    }
    hide Twice, Harmless, Siblings, Lonely;
  }

  // --- the shipped tables -----------------------------------------------------------------------------------------------

  const REWARD_POTENTIAL := Map([("step_penalty", Scalar("0.01")), ("invalid_action_penalty", Scalar("0.01")),
                                 ("parse_fail_penalty", Scalar("0.2")), ("mask_reject_penalty", Scalar("0.09")), ("use_drc", Null)])
  const REWARD_FILL := Map([("name", Scalar("yaml_custom")), ("mode", Scalar("terminal")), ("potential", REWARD_POTENTIAL)])
  const MASKING_ACTION := Map([("when", Map([]))])
  const MASKING_ACTIONS := Map([(STAR, MASKING_ACTION)])
  const MASKING_FILL := Map([("name", Scalar("yaml_custom")), ("actions", MASKING_ACTIONS)])

  /** Keys told apart by their first characters, none of them `"*"`. */
  predicate Initials(d: Dict<string, Yaml>) {
    && (forall i | 0 <= i < |d| :: d[i].0 != "" && d[i].0[0] != '*')
    && (forall i, j | 0 <= i < j < |d| :: d[i].0 != "" && d[j].0 != "" && d[i].0[0] != d[j].0[0])
  }

  lemma {:induction false} AbsentFrom(d: Dict<string, Yaml>, k: string)
    requires forall i | 0 <= i < |d| :: d[i].0 != k
    ensures Get(d, k).None?
  {
    if d != [] { AbsentFrom(d[..|d| - 1], k); }
  }

  lemma {:induction false} InitialsKeyed(d: Dict<string, Yaml>)
    requires Initials(d)
    ensures Keyed(d) && Get(d, STAR).None?
  {
    AbsentFrom(d, STAR);
    if d != [] {
      InitialsKeyed(d[..|d| - 1]);
      AbsentFrom(d[..|d| - 1], d[|d| - 1].0);
    }
  }

  lemma FlatTable(d: Dict<string, Yaml>)
    requires Initials(d) && forall i | 0 <= i < |d| :: Lonely(d[i].1) && Proper(d[i].1)
    ensures Lonely(Map(d)) && Proper(Map(d))
  {
    InitialsKeyed(d);
  }

  lemma PotentialIsFlat()
    ensures Lonely(REWARD_POTENTIAL) && Proper(REWARD_POTENTIAL)
  {
    FlatTable(REWARD_POTENTIAL.entries);
    hide Lonely, Proper;
  }

  lemma ActionsAreLonely()
    ensures Lonely(MASKING_ACTIONS) && Proper(MASKING_ACTIONS)
  {
    var none: Dict<string, Yaml> := [];
    FlatTable(none);
    FlatTable(MASKING_ACTION.entries);
    var star: Dict<string, Yaml> := [(STAR, MASKING_ACTION)];
    assert star[..0] == none;
  }

  lemma ShippedFillsAreLonely()
    ensures Lonely(REWARD_FILL) && Proper(REWARD_FILL) && Lonely(MASKING_FILL) && Proper(MASKING_FILL)
  {
    PotentialIsFlat();
    ActionsAreLonely();
    LeafIsFlat("yaml_custom");
    LeafIsFlat("terminal");
    hide Lonely, Proper;
    FlatTable(REWARD_FILL.entries);
    FlatTable(MASKING_FILL.entries);
  }

  lemma LeafIsFlat(text: string)
    ensures Lonely(Scalar(text)) && Proper(Scalar(text))
  {
  }

  /** The shipped tables: a migrated rule file is left alone, and nothing is reported of it. */
  lemma ShippedFillsTwice(raw: Yaml)
    requires Proper(raw)
    ensures Twice(raw, REWARD_FILL) && Twice(raw, MASKING_FILL)
  {
    hide Fill, Proper, Lonely;
    ShippedFillsAreLonely();
    FillTwice(raw, REWARD_FILL, "", "");
    FillTwice(raw, MASKING_FILL, "", "");
  }
}
