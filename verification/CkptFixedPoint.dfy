/** Migration is a fixed point: what a load resolved, written back, loads as itself. */
module CkptFixedPoint {
  import opened Decimal
  import opened PyValues
  import opened CkptConfig

  /** Keys no writer stores any more. */
  const RETIRED: set<string> :=
    {GRID, YAML_FALLBACK, REMOVED, "no_truncation_bootstrap", "no_norm_reward", "no_normalize_adv"}

  const DERIVED: set<string> :=
    {"shape_obs", "legacy_edge_encoding", "legacy_action_history", "use_critic", "n_max_slots", "action_history_len",
     "legacy_pad_layer_encoding", "legacy_net_encoding"}

  function FormFields(forms: seq<(string, string)>): set<string> { set i | 0 <= i < |forms| :: forms[i].0 }
  function LegacyKeys(legacy: seq<(string, LegacyEntry)>): set<string> { set i | 0 <= i < |legacy| :: legacy[i].0 }

  ghost predicate FormsOk(forms: seq<(string, string)>) {
    && (forall i, j | 0 <= i < j < |forms| :: forms[i].0 != forms[j].0)
    && (forall i | 0 <= i < |forms| :: forms[i].1 !in FormFields(forms))
  }

  /** The tables do not overlap: no table sets a retired key, and nothing fills an inverted dest. */
  ghost predicate TablesOk(t: Tables) {
    && t.fields !! RETIRED && RULES_SOURCE in t.fields
    && FormsOk(t.cliForms) && FormFields(t.cliForms) <= t.fields
    && LegacyKeys(t.legacy) !! RETIRED
    && (forall i | 0 <= i < |t.cliForms| :: t.cliForms[i].1 !in DERIVED + LegacyKeys(t.legacy))
  }

  /** Values a load leaves alone. */
  ghost predicate Stable(t: Tables, w: Weights, v: Values) {
    && RETIRED !! v.Keys
    && (forall i | 0 <= i < |t.cliForms| && t.cliForms[i].1 in v ::
          t.cliForms[i].0 in v && v[t.cliForms[i].0] == Flag(!Truthy(v[t.cliForms[i].1])))
    && DeriveFor(w, v).Some?
    && (forall i | 0 <= i < |DeriveFor(w, v).value| ::
          DeriveFor(w, v).value[i].0 in v && PyEq(v[DeriveFor(w, v).value[i].0], DeriveFor(w, v).value[i].1))
    && LegacyKeys(t.legacy) <= v.Keys && t.fields <= v.Keys && GoodCorner(v)
  }

  // --- what each stage does -------------------------------------------------------------------------------------------------

  /** `now` has everything `was` has, and beyond it only keys in `extra`. */
  ghost predicate Extends(was: Values, now: Values, extra: set<string>) {
    (forall k | k in was :: k in now && now[k] == was[k]) && now.Keys <= was.Keys + extra
  }

  lemma {:induction false} FormsStage(r: Resolved, forms: seq<(string, string)>)
    requires FormsOk(forms)
    ensures var v := CliForms(r, forms).values;
      && r.values.Keys <= v.Keys <= r.values.Keys + FormFields(forms)
      && (forall k | k in v && k !in FormFields(forms) :: k in r.values && v[k] == r.values[k])
      && (forall i | 0 <= i < |forms| && forms[i].1 in v :: forms[i].0 in v && v[forms[i].0] == Flag(!Truthy(v[forms[i].1])))
  {
    if forms != [] {
      var init, last := forms[..|forms| - 1], forms[|forms| - 1];
      assert forall i | 0 <= i < |init| :: init[i] == forms[i];
      assert forall k | k in FormFields(init) :: k in FormFields(forms);
      assert last.0 in FormFields(forms);
      FormsStage(r, init);
    }
  }

  lemma {:induction false} DerivedStage(r: Resolved, derived: seq<(string, Val)>)
    requires AddDerived(r, derived).Some?
    ensures var v := AddDerived(r, derived).value.values;
      && Extends(r.values, v, set i | 0 <= i < |derived| :: derived[i].0)
      && (forall i | 0 <= i < |derived| :: derived[i].0 in v && PyEq(v[derived[i].0], derived[i].1))
  {
    if derived != [] {
      Reflexive(derived[|derived| - 1].1);
      var init, last := derived[..|derived| - 1], derived[|derived| - 1];
      assert forall i | 0 <= i < |init| :: init[i] == derived[i];
      DerivedStage(r, init);
      var keys := set i | 0 <= i < |derived| :: derived[i].0;
      assert last.0 in keys;
      assert forall k | k in (set i | 0 <= i < |init| :: init[i].0) :: k in keys;
    }
  }

  lemma {:induction false} LegacyStage(stored: Values, r: Resolved, legacy: seq<(string, LegacyEntry)>)
    ensures var v := FillLegacy(stored, r, legacy).values; Extends(r.values, v, LegacyKeys(legacy)) && LegacyKeys(legacy) <= v.Keys
  {
    if legacy != [] {
      var init, last := legacy[..|legacy| - 1], legacy[|legacy| - 1];
      assert forall i | 0 <= i < |init| :: init[i] == legacy[i];
      LegacyStage(stored, r, init);
      assert last.0 in LegacyKeys(legacy);
      assert LegacyKeys(legacy) == LegacyKeys(init) + {last.0};
    }
  }

  lemma DerivedKeysAre(w: Weights, coord: Option<Val>, nFreq: Option<Val>, dModel: Option<Val>)
    ensures Derive(w, coord, nFreq, dModel).Some? ==>
      && coord.Some? && nFreq.Some? && dModel.Some?
      && forall i | 0 <= i < |Derive(w, coord, nFreq, dModel).value| :: Derive(w, coord, nFreq, dModel).value[i].0 in DERIVED
  {
    hide HasCritic;
  }

  lemma {:induction false} InvertedStage(r: Resolved, renames: seq<(string, string)>)
    requires RenameInverted(r, renames).Some?
    requires forall i, j | 0 <= i < |renames| && 0 <= j < |renames| :: renames[i].0 != renames[j].1
    ensures var v := RenameInverted(r, renames).value.values;
      && (forall i | 0 <= i < |renames| :: renames[i].0 !in v)
      && v.Keys <= r.values.Keys + set i | 0 <= i < |renames| :: renames[i].1
  {
    if renames != [] {
      var init, last := renames[..|renames| - 1], renames[|renames| - 1];
      assert forall i | 0 <= i < |init| :: init[i] == renames[i];
      InvertedStage(r, init);
      var names := set i | 0 <= i < |renames| :: renames[i].1;
      assert last.1 in names;
      assert forall k | k in (set i | 0 <= i < |init| :: init[i].1) :: k in names;
    }
  }

  lemma GridAndFallbackRetire(r: Resolved)
    requires RenameGrid(r).Some? && RenameFallback(RenameGrid(r).value).Some?
    ensures var v := RenameFallback(RenameGrid(r).value).value.values; GRID !in v && YAML_FALLBACK !in v
  {
    assert GRID[0] == 'd' && YAML_FALLBACK[0] == 'u' && RULES_SOURCE[0] == 'r';
    assert GRID[12] != CANDIDATES[12];
    hide IntOf, IsOffText;
  }

  lemma RenamesRetire(r: Resolved)
    requires Renames(r).Some?
    ensures RETIRED !! Renames(r).value.values.Keys
  {
    var r2 := RenameFallback(RenameGrid(r).value).value;
    var r3 := RenameInverted(r2, INVERTED_RENAMES).value;
    GridAndFallbackRetire(r);
    InvertedNames();
    InvertedStage(r2, INVERTED_RENAMES);
    assert Renames(r).value.values == r3.values - {REMOVED};
    assert INVERTED_RENAMES[0].0 !in r3.values && INVERTED_RENAMES[1].0 !in r3.values && INVERTED_RENAMES[2].0 !in r3.values;
    hide RenameInverted, RenameGrid, RenameFallback, Renames;
  }

  lemma InvertedNames()
    ensures forall i, j | 0 <= i < |INVERTED_RENAMES| && 0 <= j < |INVERTED_RENAMES| :: INVERTED_RENAMES[i].0 != INVERTED_RENAMES[j].1
    ensures GRID !in (set i | 0 <= i < |INVERTED_RENAMES| :: INVERTED_RENAMES[i].1)
    ensures YAML_FALLBACK !in (set i | 0 <= i < |INVERTED_RENAMES| :: INVERTED_RENAMES[i].1)
  {
    assert "no_truncation_bootstrap"[0] == 'n' && "no_truncation_bootstrap"[1] == 'o';
    assert "truncation_bootstrap"[0] == 't';
    assert "no_norm_reward"[2] == '_' && "norm_reward"[2] == 'r' && "normalize_adv"[2] == 'r' && "no_normalize_adv"[2] == '_';
    assert "no_norm_reward"[1] == 'o' && "no_normalize_adv"[1] == 'o' && "no_truncation_bootstrap"[2] == '_';
    assert GRID[0] == 'd' && YAML_FALLBACK[0] == 'u' && "norm_reward"[0] == 'n' && "normalize_adv"[0] == 'n';
  }

  // --- loading an old checkpoint leaves stable values ---------------------------------------------------------------------------

  lemma DerivedIgnoresMore(w: Weights, was: Values, now: Values, extra: set<string>)
    requires DeriveFor(w, was).Some? && Extends(was, now, extra)
    ensures DeriveFor(w, now) == DeriveFor(w, was)
  {
    DerivedKeysAre(w, Lookup(was, "coord_encoding"), Lookup(was, "n_freq"), Lookup(was, "d_model"));
    hide Derive;
  }

  /** A completed load, stage by stage. */
  lemma CompleteStages(t: Tables, p: Payload, renamed: Resolved)
    requires TablesOk(t) && p.config.None? && Complete(t, p, renamed).Some?
    ensures var v1, v3 := CliForms(renamed, t.cliForms).values, Complete(t, p, renamed).value.values;
      && DeriveFor(p.weights, v1).Some?
      && Extends(v1, v3, DERIVED + LegacyKeys(t.legacy))
      && LegacyKeys(t.legacy) <= v3.Keys && t.fields <= v3.Keys && GoodCorner(v3)
      && forall i | 0 <= i < |DeriveFor(p.weights, v1).value| ::
           DeriveFor(p.weights, v1).value[i].0 in v3 && PyEq(v3[DeriveFor(p.weights, v1).value[i].0], DeriveFor(p.weights, v1).value[i].1)
  {
    var r1 := CliForms(renamed, t.cliForms);
    var derived := DeriveFor(p.weights, r1.values).value;
    DerivedKeysAre(p.weights, Lookup(r1.values, "coord_encoding"), Lookup(r1.values, "n_freq"), Lookup(r1.values, "d_model"));
    var r2 := AddDerived(r1, derived).value;
    DerivedStage(r1, derived);
    LegacyStage(Stored(p), r2, t.legacy);
    hide CliForms, AddDerived, FillLegacy, Derive, DeriveFor, GoodCorner, TablesOk, PyEq;
    assert (set i | 0 <= i < |derived| :: derived[i].0) <= DERIVED;
  }

  lemma OldLoadIsStable(t: Tables, p: Payload)
    requires TablesOk(t) && p.config.None? && Load(t, p).Some?
    ensures Stable(t, p.weights, Load(t, p).value.values)
  {
    var start := Resolved(Stored(p), FirstSources(t, p).value);
    var renamed := Renames(start).value;
    RenamesRetire(start);
    assert Load(t, p) == Complete(t, p, renamed);
    CompleteStages(t, p, renamed);
    FormsStage(renamed, t.cliForms);
    var v1, v3 := CliForms(renamed, t.cliForms).values, Load(t, p).value.values;
    DerivedIgnoresMore(p.weights, v1, v3, DERIVED + LegacyKeys(t.legacy));
    DerivedNotRetired();
    hide Renames, CliForms, Derive, DeriveFor, FirstSources, Load, Complete, GoodCorner, PyEq, LegacyKeys;
    assert RETIRED !! v1.Keys;
    assert RETIRED !! v3.Keys;
  }

  lemma DerivedNotRetired()
    ensures DERIVED !! RETIRED
  {
  }

  // --- stable values load as themselves -------------------------------------------------------------------------------------------

  lemma {:induction false} FormsAgain(v: Values, sources: Sources, forms: seq<(string, string)>)
    requires forall i | 0 <= i < |forms| && forms[i].1 in v :: forms[i].0 in v && v[forms[i].0] == Flag(!Truthy(v[forms[i].1]))
    ensures CliForms(Resolved(v, sources), forms).values == v
    ensures (forall i | 0 <= i < |forms| :: forms[i].0 in sources && sources[forms[i].0] == "ckpt") ==>
      CliForms(Resolved(v, sources), forms) == Resolved(v, sources)
  {
    if forms != [] {
      var init := forms[..|forms| - 1];
      assert forall i | 0 <= i < |init| :: init[i] == forms[i];
      FormsAgain(v, sources, init);
    }
  }

  lemma {:induction false} DerivedAgain(r: Resolved, derived: seq<(string, Val)>)
    requires forall i | 0 <= i < |derived| :: derived[i].0 in r.values && PyEq(r.values[derived[i].0], derived[i].1)
    ensures AddDerived(r, derived) == Some(r)
  {
    if derived != [] {
      assert forall i | 0 <= i < |derived| - 1 :: derived[..|derived| - 1][i] == derived[i];
      DerivedAgain(r, derived[..|derived| - 1]);
    }
  }

  lemma {:induction false} LegacyAgain(stored: Values, r: Resolved, legacy: seq<(string, LegacyEntry)>)
    requires forall i | 0 <= i < |legacy| :: legacy[i].0 in r.values
    ensures FillLegacy(stored, r, legacy) == r
  {
    if legacy != [] {
      assert forall i | 0 <= i < |legacy| - 1 :: legacy[..|legacy| - 1][i] == legacy[i];
      LegacyAgain(stored, r, legacy[..|legacy| - 1]);
    }
  }

  lemma {:induction false} InvertedAgain(r: Resolved, renames: seq<(string, string)>)
    requires forall i | 0 <= i < |renames| :: renames[i].0 !in r.values
    ensures RenameInverted(r, renames) == Some(r)
  {
    if renames != [] {
      assert forall i | 0 <= i < |renames| - 1 :: renames[..|renames| - 1][i] == renames[i];
      InvertedAgain(r, renames[..|renames| - 1]);
    }
  }

  /** The mirror key goes in and comes out. */
  lemma RenamesAgain(v: Values, args: Values, sources: Sources)
    requires RETIRED !! v.Keys && LegacyArgs(v) == Some(args)
    ensures Renames(Resolved(args, sources)) == Some(Resolved(v, sources))
  {
    assert GRID !in args;
    assert args - {YAML_FALLBACK} == v;
    assert RenameFallback(Resolved(args, sources)) == Some(Resolved(v, sources));
    assert forall i | 0 <= i < |INVERTED_RENAMES| :: INVERTED_RENAMES[i].0 in RETIRED;
    InvertedAgain(Resolved(v, sources), INVERTED_RENAMES);
    assert v - {REMOVED} == v;
  }

  function AllFromCkpt(t: Tables): Sources { map k | k in t.fields :: "ckpt" }

  lemma StableCompletes(t: Tables, p: Payload, v: Values)
    requires TablesOk(t) && Stable(t, p.weights, v) && p.config.None?
    ensures Complete(t, p, Resolved(v, AllFromCkpt(t))) == Some(Resolved(v, AllFromCkpt(t)))
  {
    var sources := AllFromCkpt(t);
    assert forall i | 0 <= i < |t.cliForms| :: t.cliForms[i].0 in FormFields(t.cliForms);
    FormsAgain(v, sources, t.cliForms);
    DerivedAgain(Resolved(v, sources), DeriveFor(p.weights, v).value);
    assert forall i | 0 <= i < |t.legacy| :: t.legacy[i].0 in LegacyKeys(t.legacy);
    LegacyAgain(Stored(p), Resolved(v, sources), t.legacy);
    assert GoodCorner(v) && t.fields <= v.Keys;
    hide CliForms, AddDerived, FillLegacy, Derive, DeriveFor, GoodCorner, Stable, TablesOk, FormFields, LegacyKeys;
  }

  /** Stable values, written as arguments, load as themselves, every field from the checkpoint. */
  lemma StableReloads(t: Tables, w: Weights, v: Values, trainer: Option<string>)
    requires TablesOk(t) && Stable(t, w, v) && LegacyArgs(v).Some? && (trainer.Some? ==> trainer.value in TRAINERS)
    ensures Load(t, Payload(trainer, None, LegacyArgs(v), w)) == Some(Resolved(v, AllFromCkpt(t)))
  {
    var args := LegacyArgs(v).value;
    var p := Payload(trainer, None, Some(args), w);
    var sources := AllFromCkpt(t);
    assert FirstSources(t, p).value == sources;
    RenamesAgain(v, args, sources);
    StableCompletes(t, p, v);
    assert Stored(p) == args;
    hide Renames, Complete, Stable, TablesOk, LegacyArgs, FirstSources, AllFromCkpt;
  }

  /** Loading an old checkpoint, writing its resolved values back as arguments and loading again gives the
      same values, now with every field recorded. */
  lemma MigrationIsAFixedPoint(t: Tables, p: Payload)
    requires TablesOk(t) && p.config.None? && Load(t, p).Some? && LegacyArgs(Load(t, p).value.values).Some?
    ensures var v := Load(t, p).value.values;
      Load(t, p.(args := LegacyArgs(v))) == Some(Resolved(v, AllFromCkpt(t)))
  {
    OldLoadIsStable(t, p);
    var v := Load(t, p).value.values;
    assert p.(args := LegacyArgs(v)) == Payload(p.trainer, None, LegacyArgs(v), p.weights);
    StableReloads(t, p.weights, v, p.trainer);
    hide Load, Stable, TablesOk;
  }

  /** The rewriting is refused exactly for a rules source older loaders have no value for. */
  lemma WritableExactly(v: Values)
    requires RULES_SOURCE in v
    ensures LegacyArgs(v).Some? <==> v[RULES_SOURCE] in {Text("board"), Text("board_or_yaml")}
  {
  }

  predicate AllRecorded(t: Tables, r: Resolved) { forall k | k in r.sources :: r.sources[k] == "ckpt" }

  /** `ckpt_migrate`: a checkpoint with every source `ckpt` is left alone, any other gets its values written. */
  function Migrate(t: Tables, p: Payload): Option<Payload> {
    match Load(t, p)
    case None => None
    case Some(r) =>
      if AllRecorded(t, r) then Some(p)
      else match LegacyArgs(r.values) case None => None case Some(args) => Some(p.(args := Some(args)))
  }

  /** A migrated checkpoint is complete: a second run leaves it alone. */
  lemma MigratingTwice(t: Tables, p: Payload)
    requires TablesOk(t) && p.config.None? && Migrate(t, p).Some?
    ensures Migrate(t, Migrate(t, p).value) == Migrate(t, p)
  {
    var r := Load(t, p).value;
    if !AllRecorded(t, r) {
      MigrationIsAFixedPoint(t, p);
    }
    hide Load, TablesOk;
  }

  // --- the order of the table -----------------------------------------------------------------------------------------------------

  ghost predicate DistinctKeys(legacy: seq<(string, LegacyEntry)>) { forall i, j | 0 <= i < j < |legacy| :: legacy[i].0 != legacy[j].0 }

  lemma {:induction false} FillAtEntry(stored: Values, r: Resolved, legacy: seq<(string, LegacyEntry)>, i: nat)
    requires DistinctKeys(legacy) && i < |legacy| && legacy[i].0 !in r.values
    ensures var f, k := FillLegacy(stored, r, legacy), legacy[i].0;
      k in f.values && k in f.sources && (f.values[k], f.sources[k]) == LegacyValue(stored, legacy[i].1)
  {
    var init, last := legacy[..|legacy| - 1], legacy[|legacy| - 1];
    if i < |init| {
      assert init[i] == legacy[i] && legacy[i].0 != last.0;
      FillAtEntry(stored, r, init, i);
    } else {
      assert forall j | 0 <= j < |init| :: init[j].0 != last.0;
      FillAtOther(stored, r, init, last.0);
    }
  }

  lemma {:induction false} FillAtOther(stored: Values, r: Resolved, legacy: seq<(string, LegacyEntry)>, k: string)
    requires k in r.values || forall j | 0 <= j < |legacy| :: legacy[j].0 != k
    ensures var f := FillLegacy(stored, r, legacy); Lookup(f.values, k) == Lookup(r.values, k) && SourceOf(f, k) == SourceOf(r, k)
  {
    if legacy != [] {
      assert forall j | 0 <= j < |legacy| - 1 :: legacy[..|legacy| - 1][j] == legacy[j];
      FillAtOther(stored, r, legacy[..|legacy| - 1], k);
      hide LegacyValue;
    }
  }

  function SourceOf(r: Resolved, k: string): Option<string> { if k in r.sources then Some(r.sources[k]) else None }

  lemma SameAt(stored: Values, r: Resolved, legacy: seq<(string, LegacyEntry)>, shuffled: seq<(string, LegacyEntry)>, k: string)
    requires DistinctKeys(legacy) && DistinctKeys(shuffled) && forall e :: e in legacy <==> e in shuffled
    ensures var f, g := FillLegacy(stored, r, legacy), FillLegacy(stored, r, shuffled);
      Lookup(f.values, k) == Lookup(g.values, k) && SourceOf(f, k) == SourceOf(g, k)
  {
    hide FillLegacy, LegacyValue, DistinctKeys;
    if i :| 0 <= i < |legacy| && legacy[i].0 == k && k !in r.values {
      FillAtEntry(stored, r, legacy, i);
      assert legacy[i] in shuffled;
      var j :| 0 <= j < |shuffled| && shuffled[j] == legacy[i];
      FillAtEntry(stored, r, shuffled, j);
    } else {
      forall j | 0 <= j < |shuffled| && k !in r.values
        ensures shuffled[j].0 != k
      {
        assert shuffled[j] in legacy;
      }
      FillAtOther(stored, r, legacy, k);
      FillAtOther(stored, r, shuffled, k);
    }
  }

  /** The fill does not depend on the order of the table. */
  lemma TableOrderIsFree(stored: Values, r: Resolved, legacy: seq<(string, LegacyEntry)>, shuffled: seq<(string, LegacyEntry)>)
    requires DistinctKeys(legacy) && DistinctKeys(shuffled) && forall e :: e in legacy <==> e in shuffled
    ensures FillLegacy(stored, r, legacy) == FillLegacy(stored, r, shuffled)
  {
    var f, g := FillLegacy(stored, r, legacy), FillLegacy(stored, r, shuffled);
    forall k: string
      ensures (k in f.values <==> k in g.values) && (k in f.values ==> f.values[k] == g.values[k])
      ensures (k in f.sources <==> k in g.sources) && (k in f.sources ==> f.sources[k] == g.sources[k])
    {
      SameAt(stored, r, legacy, shuffled, k);
      assert Lookup(f.values, k) == Lookup(g.values, k) && SourceOf(f, k) == SourceOf(g, k);
    }
    hide FillLegacy, DistinctKeys;
    assert f.values == g.values && f.sources == g.sources;
  }

  /** Reading a proxy among the values filled so far, as the code does not, would make the order matter. */
  function FillReadingValues(r: Resolved, legacy: seq<(string, LegacyEntry)>): Resolved {
    if legacy == [] then r else
      var r1 := FillReadingValues(r, legacy[..|legacy| - 1]);
      var (key, entry) := legacy[|legacy| - 1];
      if key in r1.values then r1 else Set(r1, key, LegacyValue(r1.values, entry).0, LegacyValue(r1.values, entry).1)
  }

  lemma OrderWouldMatter()
    ensures var limit := ("shove_iter_limit", Fixed(Num(250), None));
      var stuck := ("reject_if_stuck", ByProxy("shove_iter_limit", Flag(true), Flag(false)));
      var r := Resolved(map[], map[]);
      FillReadingValues(r, [limit, stuck]) != FillReadingValues(r, [stuck, limit])
  {
    var limit := ("shove_iter_limit", Fixed(Num(250), None));
    var stuck := ("reject_if_stuck", ByProxy("shove_iter_limit", Flag(true), Flag(false)));
    var r := Resolved(map[], map[]);
    assert "shove_iter_limit"[0] == 's' && "reject_if_stuck"[0] == 'r';
    assert [limit, stuck][..1] == [limit] && [stuck, limit][..1] == [stuck];
    assert [limit][..0] == [] && [stuck][..0] == [];
    assert FillReadingValues(r, [limit]).values == map["shove_iter_limit" := Num(250)];
    assert FillReadingValues(r, [stuck]).values == map["reject_if_stuck" := Flag(false)];
    assert FillReadingValues(r, [limit, stuck]).values["reject_if_stuck"] == Flag(true);
    assert FillReadingValues(r, [stuck, limit]).values["reject_if_stuck"] == Flag(false);
  }
}
