/** What the legacy fill promises: a second application changes nothing, and its report is faithful. */
module LegacyFillLaws {
  import opened Decimal
  import opened Dicts
  import opened LegacyFill

  /** Mappings have distinct keys, at every level. */
  ghost predicate Proper(y: Yaml) {
    y.Map? ==> Keyed(y.entries) && forall i | 0 <= i < |y.entries| :: Proper(y.entries[i].1)
  }

  /** In a table, at every level, `"*"` has no siblings. */
  ghost predicate Lonely(table: Yaml) {
    table.Map? ==>
      && (Get(table.entries, STAR).Some? ==> |table.entries| == 1)
      && forall i | 0 <= i < |table.entries| :: Lonely(table.entries[i].1)
  }

  // --- one key at a time ------------------------------------------------------------------------------------------------

  /** A table entry aimed at a key. */
  datatype Item = Item(target: string, star: bool, value: Yaml)

  /** What an entry makes of the value at its key, and what it reports. */
  function One(value: Yaml, star: bool, cur: Option<Yaml>, name: string): (Option<Yaml>, seq<string>) {
    if IsTable(value) then
      var cur1 := if IsCollection(value) && cur.None? then Some(Map([])) else cur;
      if cur1.None? then (None, []) else
        var (filled, sub) := Fill(if star && cur1 == Some(Null) then Map([]) else cur1.value, value, name + ".");
        (Some(filled), (if IsCollection(value) && cur.None? then [name] else []) + sub)
    else if value.Null? then (None, if cur.Some? then [name] else [])
    else if cur.None? then (Some(value), [name])
    else (cur, [])
  }

  function StepItem(p: Progress, item: Item, prefix: string): Progress { Step(p, item.star, item.value, item.target, prefix) }

  function Run(raw: Dict<string, Yaml>, items: seq<Item>, m: nat, prefix: string): Progress
    requires m <= |items|
  {
    if m == 0 then Progress(raw, []) else StepItem(Run(raw, items, m - 1, prefix), items[m - 1], prefix)
  }

  lemma {:induction false} GetAfterRemove(d: Dict<string, Yaml>, k: string, j: string)
    requires Keyed(d)
    ensures Get(Remove(d, k), j) == if j == k then None else Get(d, j)
    ensures Keyed(Remove(d, k))
  {
    if d != [] {
      var init, last := d[..|d| - 1], d[|d| - 1];
      if last.0 != k {
        GetAfterRemove(init, k, j);
        GetAfterRemove(init, k, last.0);
        assert (Remove(init, k) + [last])[..|Remove(init, k)|] == Remove(init, k);
      }
    }
  }

  lemma {:induction false} PutSame(d: Dict<string, Yaml>, k: string, v: Yaml)
    requires Get(d, k) == Some(v)
    ensures Put(d, k, v) == d
  {
    var init, last := d[..|d| - 1], d[|d| - 1];
    if last.0 == k {
      assert d == init + [(k, v)];
    } else {
      PutSame(init, k, v);
      assert d == init + [last];
    }
  }

  /** `d'` is `d` with the value at `t` set, or removed. */
  ghost predicate At(d': Dict<string, Yaml>, d: Dict<string, Yaml>, t: string, v: Option<Yaml>) {
    Keyed(d') && forall j: string :: Get(d', j) == if j == t then v else Get(d, j)
  }

  lemma PutAt(d: Dict<string, Yaml>, t: string, v: Yaml)
    requires Keyed(d)
    ensures At(Put(d, t, v), d, t, Some(v))
  {
    GetAfterPut(d, t, v, t);
    forall j: string ensures Get(Put(d, t, v), j) == if j == t then Some(v) else Get(d, j) { GetAfterPut(d, t, v, j); }
  }

  lemma RemoveAt(d: Dict<string, Yaml>, t: string)
    requires Keyed(d)
    ensures At(Remove(d, t), d, t, None)
  {
    GetAfterRemove(d, t, t);
    forall j: string ensures Get(Remove(d, t), j) == if j == t then None else Get(d, j) { GetAfterRemove(d, t, j); }
  }

  lemma TableStepIsOne(p: Progress, item: Item, prefix: string)
    requires Keyed(p.out) && IsTable(item.value)
    ensures var p' := StepItem(p, item, prefix);
      var one := OneOf(p.out, item, prefix);
      At(p'.out, p.out, item.target, one.0) && p'.keys == p.keys + one.1 && (one.0 == Get(p.out, item.target) ==> p'.out == p.out)
  {
    var t, cur, one := item.target, Get(p.out, item.target), OneOf(p.out, item, prefix);
    var added := IsCollection(item.value) && cur.None?;
    var d1 := if added then Put(p.out, t, Map([])) else p.out;
    PutAt(p.out, t, Map([]));
    assert Keyed(d1) && Get(d1, t) == if added then Some(Map([])) else cur;
    assert forall j: string | j != t :: Get(d1, j) == Get(p.out, j);
    assert p.keys + [] == p.keys;
    if one.0.Some? {
      var v := one.0.value;
      PutAt(d1, t, v);
      if one.0 == cur { PutSame(p.out, t, v); }
      assert StepItem(p, item, prefix).out == Put(d1, t, v);
      hide Get, Keyed, Put, StepItem, One;
    }
  }

  /** A step changes its own key, as `One` says, and no other. */
  lemma StepIsOne(p: Progress, item: Item, prefix: string)
    requires Keyed(p.out)
    ensures var p' := StepItem(p, item, prefix);
      var one := OneOf(p.out, item, prefix);
      At(p'.out, p.out, item.target, one.0) && p'.keys == p.keys + one.1 && (one.0 == Get(p.out, item.target) ==> p'.out == p.out)
  {
    assert p.keys + [] == p.keys;
    if IsTable(item.value) {
      TableStepIsOne(p, item, prefix);
    } else if item.value.Null? {
      RemoveAt(p.out, item.target);
    } else {
      PutAt(p.out, item.target, item.value);
    }
  }

  ghost predicate Distinct(items: seq<Item>) { forall i, j | 0 <= i < j < |items| :: items[i].target != items[j].target }

  function OneOf(raw: Dict<string, Yaml>, item: Item, prefix: string): (Option<Yaml>, seq<string>) {
    One(item.value, item.star, Get(raw, item.target), prefix + item.target)
  }

  /** After `m` items: each of their keys as `One` says, every other key as it was. */
  ghost predicate Ran(raw: Dict<string, Yaml>, items: seq<Item>, m: nat, prefix: string, p: Progress)
    requires m <= |items|
  {
    && Keyed(p.out)
    && (forall i | 0 <= i < m :: Get(p.out, items[i].target) == OneOf(raw, items[i], prefix).0)
    && (forall j: string | (forall i | 0 <= i < m :: items[i].target != j) :: Get(p.out, j) == Get(raw, j))
    && (p.keys == [] <==> forall i | 0 <= i < m :: OneOf(raw, items[i], prefix).1 == [])
    && ((forall i | 0 <= i < m :: OneOf(raw, items[i], prefix).0 == Get(raw, items[i].target)) ==> p.out == raw)
  }

  lemma OneMoreItem(raw: Dict<string, Yaml>, items: seq<Item>, m: nat, prefix: string, p: Progress)
    requires m < |items| && Distinct(items) && Ran(raw, items, m, prefix, p)
    ensures Ran(raw, items, m + 1, prefix, StepItem(p, items[m], prefix))
  {
    var item, p' := items[m], StepItem(p, items[m], prefix);
    assert forall i | 0 <= i < m :: items[i].target != item.target;
    assert Get(p.out, item.target) == Get(raw, item.target);
    StepIsOne(p, item, prefix);
    assert OneOf(p.out, item, prefix) == OneOf(raw, item, prefix);
    hide One, StepItem, Get, Keyed, OneOf;
    forall j: string | (forall i | 0 <= i < m + 1 :: items[i].target != j)
      ensures Get(p'.out, j) == Get(raw, j)
    {
      assert items[m].target != j;
    }
  }

  lemma NothingRan(raw: Dict<string, Yaml>, items: seq<Item>, prefix: string)
    requires Keyed(raw)
    ensures Ran(raw, items, 0, prefix, Progress(raw, []))
  {
    hide OneOf, Get, Keyed;
  }

  /** Steps on distinct keys do not see each other. */
  lemma {:induction false} RunIsEachOne(raw: Dict<string, Yaml>, items: seq<Item>, m: nat, prefix: string)
    requires m <= |items| && Distinct(items) && Keyed(raw)
    ensures Ran(raw, items, m, prefix, Run(raw, items, m, prefix))
  {
    hide Ran, StepItem, Keyed;
    if m > 0 {
      RunIsEachOne(raw, items, m - 1, prefix);
      OneMoreItem(raw, items, m - 1, prefix, Run(raw, items, m - 1, prefix));
    } else {
      NothingRan(raw, items, prefix);
    }
  }

  // --- a table as a list of items ----------------------------------------------------------------------------------------

  /** The items of a table with its own keys, or of a `"*"` table over the keys that are there. */
  function Plan(raw: Dict<string, Yaml>, table: Yaml): (items: seq<Item>)
    requires table.Map?
  {
    if |table.entries| == 1 && table.entries[0].0 == STAR then
      seq(|raw|, i requires 0 <= i < |raw| => Item(raw[i].0, true, table.entries[0].1))
    else
      seq(|table.entries|, i requires 0 <= i < |table.entries| => Item(table.entries[i].0, false, table.entries[i].1))
  }

  lemma {:induction false} StarIsRun(raw: Dict<string, Yaml>, value: Yaml, items: seq<Item>, m: nat, prefix: string)
    requires m <= |raw| == |items| && forall i | 0 <= i < |raw| :: items[i] == Item(raw[i].0, true, value)
    ensures StarSteps(Progress(raw, []), value, KeysOf(raw), m, prefix) == Run(raw, items, m, prefix)
  {
    if m > 0 { StarIsRun(raw, value, items, m - 1, prefix); }
  }

  lemma {:induction false} EntriesAreRun(raw: Dict<string, Yaml>, table: Yaml, items: seq<Item>, n: nat, prefix: string)
    requires table.Map? && n <= |table.entries| == |items| && Get(table.entries, STAR).None?
    requires forall i | 0 <= i < |items| :: items[i] == Item(table.entries[i].0, false, table.entries[i].1)
    requires forall i | 0 <= i < |items| :: table.entries[i].0 != STAR
    ensures FillUpTo(raw, table, n, prefix) == Run(raw, items, n, prefix)
  {
    if n > 0 { EntriesAreRun(raw, table, items, n - 1, prefix); }
  }

  lemma {:induction false} AbsentKey(d: Dict<string, Yaml>, k: string)
    requires Get(d, k).None?
    ensures forall i | 0 <= i < |d| :: d[i].0 != k
  {
    if d != [] { AbsentKey(d[..|d| - 1], k); }
  }

  lemma {:induction false} DistinctKeys(d: Dict<string, Yaml>)
    requires Keyed(d)
    ensures forall i, j | 0 <= i < j < |d| :: d[i].0 != d[j].0
  {
    if d != [] {
      DistinctKeys(d[..|d| - 1]);
      AbsentKey(d[..|d| - 1], d[|d| - 1].0);
    }
  }

  lemma SingleKey(d: Dict<string, Yaml>, k: string)
    ensures |d| == 1 && Get(d, k).Some? ==> d[0].0 == k
  {
    if |d| == 1 { assert d[..0] == [] && Get(d[..0], k).None?; }
  }

  /** A well-formed table acts item by item. */
  lemma FillIsRun(raw: Dict<string, Yaml>, table: Yaml, prefix: string)
    requires table.Map? && Lonely(table) && Proper(table) && Keyed(raw)
    ensures var items := Plan(raw, table);
      Distinct(items) && FillUpTo(raw, table, |table.entries|, prefix) == Run(raw, items, |items|, prefix)
  {
    var items := Plan(raw, table);
    if |table.entries| == 1 && table.entries[0].0 == STAR {
      DistinctKeys(raw);
      StarIsRun(raw, table.entries[0].1, items, |raw|, prefix);
      assert FillUpTo(raw, table, 0, prefix) == Progress(raw, []);
    } else {
      DistinctKeys(table.entries);
      SingleKey(table.entries, STAR);
      AbsentKey(table.entries, STAR);
      EntriesAreRun(raw, table, items, |items|, prefix);
    }
  }

  // --- idempotence ----------------------------------------------------------------------------------------------------------

  /** Applied to its own result, an entry makes no change and no report. */
  lemma {:induction false} OneTwice(value: Yaml, star: bool, cur: Option<Yaml>, name: string, name': string)
    requires Lonely(value) && Proper(value) && (cur.Some? ==> Proper(cur.value))
    ensures var once := One(value, star, cur, name).0; One(value, star, once, name') == (once, [])
    decreases value, 1
  {
    var once := One(value, star, cur, name).0;
    if IsTable(value) && once.Some? {
      var entry := if IsCollection(value) && cur.None? then Map([]) else if star && cur == Some(Null) then Map([]) else cur.value;
      assert once == Some(Fill(entry, value, name + ".").0);
      FillTwice(entry, value, name + ".", name' + ".");
      assert entry.Map? ==> once.value.Map?;
      var none: seq<string> := [];
      assert none + none == none;
    }
  }

  /** A second fill changes nothing and reports nothing. */
  lemma {:induction false} FillTwice(raw: Yaml, table: Yaml, prefix: string, prefix': string)
    requires Lonely(table) && Proper(table) && Proper(raw)
    ensures var once := Fill(raw, table, prefix).0; Fill(once, table, prefix') == (once, [])
    decreases table, 0
  {
    if raw.Map? && table.Map? {
      var d := raw.entries;
      var items := Plan(d, table);
      FillIsRun(d, table, prefix);
      RunIsEachOne(d, items, |items|, prefix);
      var out := Fill(raw, table, prefix).0.entries;
      assert out == Run(d, items, |items|, prefix).out;
      var again := Plan(out, table);
      FillIsRun(out, table, prefix');
      RunIsEachOne(out, again, |again|, prefix');
      forall k | 0 <= k < |again|
        ensures OneOf(out, again[k], prefix') == (Get(out, again[k].target), [])
      {
        PlannedTwice(d, out, table, items, prefix, k);
        var i :| 0 <= i < |items| && items[i] == again[k];
        var item := items[i];
        ValueInTable(table, d, i);
        if Get(d, item.target).Some? { ProperEntry(raw, item.target); }
        OneTwice(item.value, item.star, Get(d, item.target), prefix + item.target, prefix' + item.target);
        assert OneOf(d, item, prefix).0 == Get(out, item.target);
      }
    }
  }

  lemma ProperEntry(raw: Yaml, k: string)
    requires Proper(raw) && raw.Map? && Get(raw.entries, k).Some?
    ensures Proper(Get(raw.entries, k).value)
  {
    GotIsEntry(raw.entries, k);
  }

  lemma ValueInTable(table: Yaml, d: Dict<string, Yaml>, i: nat)
    requires table.Map? && Lonely(table) && Proper(table) && i < |Plan(d, table)|
    ensures Plan(d, table)[i].value < table && Lonely(Plan(d, table)[i].value) && Proper(Plan(d, table)[i].value)
  {
    if |table.entries| == 1 && table.entries[0].0 == STAR {
      assert table.entries[0].1 < table;
    } else {
      assert table.entries[i].1 < table;
    }
  }

  lemma KeyHasEntry(d: Dict<string, Yaml>, k: string)
    ensures Get(d, k).None? || exists i :: 0 <= i < |d| && d[i].0 == k
  {
    if Get(d, k).Some? { GotIsEntry(d, k); }
  }

  /** The second application has the same items: `"*"` adds no key. */
  lemma PlannedTwice(d: Dict<string, Yaml>, out: Dict<string, Yaml>, table: Yaml, items: seq<Item>, prefix: string, k: nat)
    requires table.Map? && Keyed(d) && items == Plan(d, table) && out == Run(d, items, |items|, prefix).out
    requires Ran(d, items, |items|, prefix, Run(d, items, |items|, prefix)) && k < |Plan(out, table)|
    ensures exists i :: 0 <= i < |items| && items[i] == Plan(out, table)[k]
  {
    var again := Plan(out, table);
    if |table.entries| == 1 && table.entries[0].0 == STAR {
      EntryIsGot(out, k);
      var t := out[k].0;
      KeyHasEntry(d, t);
      assert forall i | 0 <= i < |d| :: items[i].target == d[i].0;
      var i :| 0 <= i < |items| && items[i].target == t;
      assert items[i] == again[k];
    } else {
      assert items[k] == again[k];
    }
  }

  // --- the report -----------------------------------------------------------------------------------------------------------

  /** No entry that a `"*"` table reads is null. */
  ghost predicate NoNullEntry(raw: Yaml, table: Yaml)
    decreases table
  {
    raw.Map? && table.Map? ==>
      forall i | 0 <= i < |Plan(raw.entries, table)| ::
        var item := Plan(raw.entries, table)[i];
        item.value < table && IsTable(item.value) && Get(raw.entries, item.target).Some? ==>
          && !(item.star && Get(raw.entries, item.target) == Some(Null))
          && NoNullEntry(Get(raw.entries, item.target).value, item.value)
  }

  /** What `NoNullEntry` says of one item. */
  ghost predicate ItemNotNull(value: Yaml, star: bool, cur: Option<Yaml>) {
    IsTable(value) && cur.Some? ==> !(star && cur == Some(Null)) && NoNullEntry(cur.value, value)
  }

  lemma {:induction false} OneIsReported(value: Yaml, star: bool, cur: Option<Yaml>, name: string)
    requires Lonely(value) && Proper(value) && (cur.Some? ==> Proper(cur.value))
    ensures One(value, star, cur, name).0 == cur <==> One(value, star, cur, name).1 == [] && ItemNotNull(value, star, cur)
    decreases value, 1
  {
    if IsTable(value) && cur.Some? && !(star && cur == Some(Null)) {
      FillIsReported(cur.value, value, name + ".");
      var none: seq<string> := [];
      var r := Fill(cur.value, value, name + ".");
      assert One(value, star, cur, name) == (Some(r.0), none + r.1) && none + r.1 == r.1;
    } else if IsTable(value) && cur.Some? {
      assert One(value, star, cur, name).0.value.Map?;
    }
  }

  /** The result equals the input exactly when nothing is reported and no entry a `"*"` table reads is null:
      a null entry is read as empty without a report. */
  lemma {:induction false} FillIsReported(raw: Yaml, table: Yaml, prefix: string)
    requires Lonely(table) && Proper(table) && Proper(raw)
    ensures Fill(raw, table, prefix).0 == raw <==> Fill(raw, table, prefix).1 == [] && NoNullEntry(raw, table)
    decreases table, 0
  {
    if raw.Map? && table.Map? {
      var d := raw.entries;
      var items := Plan(d, table);
      FillIsRun(d, table, prefix);
      RunIsEachOne(d, items, |items|, prefix);
      forall i | 0 <= i < |items|
        ensures items[i].value < table
        ensures OneOf(d, items[i], prefix).0 == Get(d, items[i].target) <==>
          OneOf(d, items[i], prefix).1 == [] && ItemNotNull(items[i].value, items[i].star, Get(d, items[i].target))
      {
        ValueInTable(table, d, i);
        if Get(d, items[i].target).Some? { ProperEntry(raw, items[i].target); }
        OneIsReported(items[i].value, items[i].star, Get(d, items[i].target), prefix + items[i].target);
      }
      assert NoNullEntry(raw, table) <==>
        forall i | 0 <= i < |items| :: ItemNotNull(items[i].value, items[i].star, Get(d, items[i].target));
      var p := Run(d, items, |items|, prefix);
      assert Fill(raw, table, prefix) == (Map(p.out), p.keys);
      hide NoNullEntry, ItemNotNull, One, Fill, Run, Plan, Get, Keyed;
    }
  }

  // --- where the conditions come from -----------------------------------------------------------------------------------------

  const LEAF := Scalar("1")
  const ONE_KEY := Map([("k", LEAF)])
  const WITH_SIBLING := Map([(STAR, ONE_KEY), ("b", Map([]))])

  lemma SingleTable(k: string, v: Yaml)
    requires k != STAR
    ensures IsTable(Map([(k, v)])) && !IsCollection(Map([(k, v)]))
  {
    var d: Dict<string, Yaml> := [(k, v)];
    assert d[..|d| - 1] == [] && Get(d, STAR) == Get(d[..|d| - 1], STAR);
  }

  lemma OneEntry(raw: Dict<string, Yaml>, key: string, value: Yaml, prefix: string)
    requires key != STAR
    ensures Fill(Map(raw), Map([(key, value)]), prefix).0 == Map(Step(Progress(raw, []), false, value, key, prefix).out)
  {
    var table := Map([(key, value)]);
    assert FillUpTo(raw, table, 0, prefix) == Progress(raw, []);
    hide Step;
  }

  lemma TwoEntries(raw: Dict<string, Yaml>)
    ensures var p := StarSteps(Progress(raw, []), ONE_KEY, KeysOf(raw), |raw|, "");
      Fill(Map(raw), WITH_SIBLING, "").0 == Map(Step(p, false, Map([]), "b", "").out)
  {
    assert FillUpTo(raw, WITH_SIBLING, 0, "") == Progress(raw, []);
    assert FillUpTo(raw, WITH_SIBLING, 1, "") == StarSteps(Progress(raw, []), ONE_KEY, KeysOf(raw), |raw|, "");
    hide Step, StarSteps;
  }

  const B_ENTRY: Dict<string, Yaml> := [("b", Map([]))]
  const B_FILLED: Dict<string, Yaml> := [("b", Map([("k", LEAF)]))]

  lemma FillOfEmpty()
    ensures Fill(Map([]), ONE_KEY, "" + "b" + ".").0 == Map([("k", LEAF)])
  {
    assert "k"[0] != STAR[0];
    OneEntry([], "k", LEAF, "" + "b" + ".");
  }

  /** `"*"` over the one entry `b`. */
  lemma StarOnB()
    ensures KeysOf(B_ENTRY) == ["b"]
    ensures StarSteps(Progress(B_ENTRY, []), ONE_KEY, KeysOf(B_ENTRY), 1, "").out == B_FILLED
  {
    assert "k"[0] != STAR[0];
    SingleTable("k", LEAF);
    FillOfEmpty();
    var p := Progress(B_ENTRY, []);
    assert KeysOf(B_ENTRY) == ["b"] && StarSteps(p, ONE_KEY, ["b"], 0, "") == p;
    assert Get(B_ENTRY, "b") == Some(Map([]));
    hide Fill, IsTable, IsCollection, KeysOf;
    assert Step(p, true, ONE_KEY, "b", "").out == Put(B_ENTRY, "b", Map([("k", LEAF)]));
    assert Put(B_ENTRY, "b", Map([("k", LEAF)])) == B_FILLED by { assert B_ENTRY[..0] == []; }
  }

  lemma SecondEntry()
    ensures Step(Progress([], []), false, Map([]), "b", "").out == B_ENTRY
    ensures forall keys :: Step(Progress(B_FILLED, keys), false, Map([]), "b", "").out == B_FILLED
  {
    assert Get(B_FILLED, "b").Some?;
  }

  /** A sibling of `"*"` filled as an empty mapping is itself an entry the next time. */
  lemma SiblingsBreakIdempotence()
    ensures var once := Fill(Map([]), WITH_SIBLING, "").0;
      once == Map([("b", Map([]))]) && Fill(once, WITH_SIBLING, "").0 != once
  {
    StarOnB();
    SecondEntry();
    TwoEntries([]);
    TwoEntries(B_ENTRY);
    assert StarSteps(Progress([], []), ONE_KEY, KeysOf([]), 0, "") == Progress([], []);
    hide *;
    assert Fill(Map([]), WITH_SIBLING, "").0 == Map(B_ENTRY);
    assert Fill(Map(B_ENTRY), WITH_SIBLING, "").0 == Map(B_FILLED);
    assert B_ENTRY[0].1 != B_FILLED[0].1 by { assert |Map([("k", LEAF)]).entries| == 1; }
  }

  const NESTED := Map([("k", ONE_KEY)])

  /** A null entry under `"*"` becomes a mapping, and nothing is reported. */
  lemma NullIsReadSilently()
    ensures var raw, table := Map([("a", Null)]), Map([(STAR, NESTED)]);
      Fill(raw, table, "").1 == [] && Fill(raw, table, "").0 != raw
  {
    var d: Dict<string, Yaml> := [("a", Null)];
    var none: Dict<string, Yaml> := [];
    var table := Map([(STAR, NESTED)]);
    assert d[..0] == none;
    assert "k"[0] != STAR[0];
    SingleTable("k", LEAF);
    SingleTable("k", ONE_KEY);
    assert Step(Progress(none, []), false, ONE_KEY, "k", "a.") == Progress(none, []);
    assert FillUpTo(none, NESTED, 0, "a.") == Progress(none, []);
    assert Fill(Map([]), NESTED, "a.") == (Map([]), []);
    assert "" + "a" + "." == "a." && Get(d, "a") == Some(Null);
    var p := Step(Progress(d, []), true, NESTED, "a", "");
    assert p.out == Put(d, "a", Map([])) && p.keys == [];
    assert KeysOf(d) == ["a"];
    assert StarSteps(Progress(d, []), NESTED, ["a"], 0, "") == Progress(d, []);
    assert FillUpTo(d, table, 0, "") == Progress(d, []);
    assert FillUpTo(d, table, 1, "") == p;
    GetAfterPut(d, "a", Map([]), "a");
  }
}
