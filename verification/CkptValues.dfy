/** Where each value of a loaded old checkpoint comes from. */
module CkptValues {
  import opened Decimal
  import opened PyValues
  import opened CkptConfig
  import opened CkptFixedPoint

  /** The fields a retired key was renamed to. */
  const RENAMED_TO: set<string> := {CANDIDATES, RULES_SOURCE, "truncation_bootstrap", "norm_reward", "normalize_adv"}

  // --- renames ------------------------------------------------------------------------------------------------------------

  /** A retired `no_x` gives the field x its negation. */
  ghost predicate Negates(stored: Values, v: Values, dest: string, field: string) {
    dest in stored ==> field in v && v[field] == Flag(!Truthy(stored[dest]))
  }

  ghost predicate GridTells(stored: Values, v: Values) {
    GRID in stored && (CANDIDATES !in stored || (stored[GRID] != Nil && IsOffText(stored[CANDIDATES]))) ==>
      && CANDIDATES in v
      && (stored[GRID] == Nil ==> v[CANDIDATES] == Nil)
      && (stored[GRID] != Nil ==> IntOf(stored[GRID]).Some? && v[CANDIDATES] == Text("grid" + PrintInt(IntOf(stored[GRID]).value)))
  }

  ghost predicate FallbackTells(stored: Values, v: Values) {
    YAML_FALLBACK in stored ==>
      RULES_SOURCE in v && v[RULES_SOURCE] == Text(if Truthy(stored[YAML_FALLBACK]) then "board_or_yaml" else "board")
  }

  ghost predicate SameAsStored(stored: Values, v: Values, k: string) { Lookup(v, k) == Lookup(stored, k) }

  lemma GridStage(r: Resolved)
    requires RenameGrid(r).Some?
    ensures var v := RenameGrid(r).value.values;
      && GridTells(r.values, v)
      && forall k | k != GRID && k != CANDIDATES :: SameAsStored(r.values, v, k)
    ensures GRID !in r.values ==> RenameGrid(r).value == r
  {
    assert GRID[12] != CANDIDATES[12];
    hide IntOf, IsOffText;
  }

  lemma FallbackStage(r: Resolved)
    requires RenameFallback(r).Some?
    ensures var v := RenameFallback(r).value.values;
      && FallbackTells(r.values, v)
      && forall k | k != YAML_FALLBACK && k != RULES_SOURCE :: SameAsStored(r.values, v, k)
    ensures YAML_FALLBACK !in r.values ==> RenameFallback(r).value == r
  {
    assert YAML_FALLBACK[0] != RULES_SOURCE[0];
    hide Truthy;
  }

  ghost predicate Separate(renames: seq<(string, string)>) {
    && (forall i, j | 0 <= i < |renames| && 0 <= j < |renames| :: renames[i].0 != renames[j].1)
    && (forall i, j | 0 <= i < j < |renames| :: renames[i].0 != renames[j].0 && renames[i].1 != renames[j].1)
  }

  ghost predicate Untouched(renames: seq<(string, string)>, k: string) {
    forall i | 0 <= i < |renames| :: renames[i].0 != k && renames[i].1 != k
  }

  lemma {:induction false} InvertedElsewhere(r: Resolved, renames: seq<(string, string)>, k: string)
    requires RenameInverted(r, renames).Some? && Untouched(renames, k)
    ensures SameAsStored(r.values, RenameInverted(r, renames).value.values, k)
  {
    if renames != [] {
      assert forall i | 0 <= i < |renames| - 1 :: renames[..|renames| - 1][i] == renames[i];
      InvertedElsewhere(r, renames[..|renames| - 1], k);
      hide Truthy;
    }
  }

  lemma {:induction false} InvertedTells(r: Resolved, renames: seq<(string, string)>, i: nat)
    requires Separate(renames) && RenameInverted(r, renames).Some? && i < |renames|
    ensures var v := RenameInverted(r, renames).value.values;
      && Negates(r.values, v, renames[i].0, renames[i].1)
      && (renames[i].0 !in r.values ==> SameAsStored(r.values, v, renames[i].1))
  {
    var init, last := renames[..|renames| - 1], renames[|renames| - 1];
    assert forall i | 0 <= i < |init| :: init[i] == renames[i];
    hide Truthy;
    if i < |init| {
      InvertedTells(r, init, i);
    } else {
      InvertedElsewhere(r, init, last.0);
      InvertedElsewhere(r, init, last.1);
    }
  }

  lemma NamesSeparate()
    ensures Separate(INVERTED_RENAMES)
    ensures forall k | k in {GRID, CANDIDATES, YAML_FALLBACK, RULES_SOURCE} :: Untouched(INVERTED_RENAMES, k)
    ensures REMOVED !in RENAMED_TO && GRID !in {YAML_FALLBACK, RULES_SOURCE} && CANDIDATES !in {YAML_FALLBACK, RULES_SOURCE}
    ensures forall i | 0 <= i < |INVERTED_RENAMES| :: INVERTED_RENAMES[i].0 in RETIRED && INVERTED_RENAMES[i].1 in RENAMED_TO
    ensures forall i | 0 <= i < |INVERTED_RENAMES| :: INVERTED_RENAMES[i].0 !in {GRID, CANDIDATES, YAML_FALLBACK, RULES_SOURCE, REMOVED}
  {
    InvertedNames();
    assert |"no_truncation_bootstrap"| == 23 && |"no_norm_reward"| == 14 && |"no_normalize_adv"| == 16;
    assert |"truncation_bootstrap"| == 20 && |"norm_reward"| == 11 && |"normalize_adv"| == 13;
    assert |GRID| == 21 && |CANDIDATES| == 22 && |YAML_FALLBACK| == 21 && |RULES_SOURCE| == 12 && |REMOVED| == 24;
    assert GRID[0] == 'd' && YAML_FALLBACK[0] == 'u';
  }

  /** What the renames make of the stored values. */
  ghost predicate RenamesTell(stored: Values, v: Values) {
    && Negates(stored, v, "no_truncation_bootstrap", "truncation_bootstrap")
    && Negates(stored, v, "no_norm_reward", "norm_reward")
    && Negates(stored, v, "no_normalize_adv", "normalize_adv")
    && GridTells(stored, v) && FallbackTells(stored, v)
    && forall k | k !in RETIRED && k !in RENAMED_TO :: SameAsStored(stored, v, k)
  }

  lemma RenamesAre(r: Resolved)
    requires Renames(r).Some?
    ensures RenamesTell(r.values, Renames(r).value.values)
  {
    var r1 := RenameGrid(r).value;
    var r2 := RenameFallback(r1).value;
    var r3 := RenameInverted(r2, INVERTED_RENAMES).value;
    NamesSeparate();
    GridStage(r);
    FallbackStage(r1);
    assert Renames(r).value.values == r3.values - {REMOVED};
    hide RenameGrid, RenameFallback, RenameInverted, Renames, Separate, Truthy, IsOffText, IntOf;
    forall i | 0 <= i < |INVERTED_RENAMES|
      ensures Negates(r2.values, r3.values, INVERTED_RENAMES[i].0, INVERTED_RENAMES[i].1)
    {
      InvertedTells(r2, INVERTED_RENAMES, i);
    }
    forall k | Untouched(INVERTED_RENAMES, k)
      ensures SameAsStored(r2.values, r3.values, k)
    {
      InvertedElsewhere(r2, INVERTED_RENAMES, k);
    }
    assert INVERTED_RENAMES[0] == ("no_truncation_bootstrap", "truncation_bootstrap");
    assert INVERTED_RENAMES[1] == ("no_norm_reward", "norm_reward");
    assert INVERTED_RENAMES[2] == ("no_normalize_adv", "normalize_adv");
    var v := Renames(r).value.values;
    forall i | 0 <= i < |INVERTED_RENAMES|
      ensures Negates(r.values, v, INVERTED_RENAMES[i].0, INVERTED_RENAMES[i].1)
    {
      var dest := INVERTED_RENAMES[i].0;
      assert SameAsStored(r.values, r1.values, dest) && SameAsStored(r1.values, r2.values, dest);
      assert INVERTED_RENAMES[i].1 in RENAMED_TO;
    }
    assert GridTells(r.values, v) by {
      assert SameAsStored(r1.values, r2.values, CANDIDATES) && SameAsStored(r2.values, r3.values, CANDIDATES);
    }
    assert FallbackTells(r.values, v) by {
      assert SameAsStored(r2.values, r3.values, RULES_SOURCE) && SameAsStored(r.values, r1.values, YAML_FALLBACK);
    }
    forall k | k !in RETIRED && k !in RENAMED_TO
      ensures SameAsStored(r.values, v, k)
    {
      assert SameAsStored(r.values, r1.values, k) && SameAsStored(r1.values, r2.values, k);
      assert Untouched(INVERTED_RENAMES, k);
    }
  }

  // --- off ----------------------------------------------------------------------------------------------------------------

  ghost predicate Spaces(s: string) { forall i | 0 <= i < |s| :: IsSpace(s[i]) }

  lemma {:induction false} StripsSpaces(a: string, t: string, b: string)
    requires Spaces(a) && Spaces(b) && (t != "" ==> !IsSpace(t[0]) && !IsSpace(t[|t| - 1]))
    ensures Stripped(a + t + b) == t
    decreases |a| + |b|
  {
    var s := a + t + b;
    if a != "" {
      assert s[0] == a[0] && s[1..] == a[1..] + t + b;
      StripsSpaces(a[1..], t, b);
    } else if t == "" {
      if b != "" {
        assert s[0] == b[0] && s[1..] == "" + t + b[1..];
        StripsSpaces("", t, b[1..]);
      }
    } else {
      assert s[0] == t[0];
      if b != "" {
        assert s[|s| - 1] == b[|b| - 1] && s[..|s| - 1] == "" + t + b[..|b| - 1];
        StripsSpaces("", t, b[..|b| - 1]);
      } else {
        assert s == t;
      }
    }
  }

  /** Off, in a text: nothing but spaces, or `none` or `off` in any case between spaces. */
  lemma OffTextIs(a: string, t: string, b: string)
    requires Spaces(a) && Spaces(b) && (t != "" ==> !IsSpace(t[0]) && !IsSpace(t[|t| - 1]))
    ensures IsOffText(Text(a + t + b)) <==> t == "" || Lower(t) == "none" || Lower(t) == "off"
    ensures IsOffText(Nil) && Lower("OFF") == "off" && Lower("None") == "none" && Lower("grid200") == "grid200"
  {
    StripsSpaces(a, t, b);
    assert |Lower(t)| == |t|;
    hide Stripped;
  }

  // --- the loaded values ----------------------------------------------------------------------------------------------------

  /** A completed load of an old checkpoint leaves what the renames made, but for the fields of the inverted forms. */
  lemma CompleteKeeps(t: Tables, p: Payload, renamed: Resolved, k: string)
    requires TablesOk(t) && p.config.None? && Complete(t, p, renamed).Some?
    requires k in renamed.values && k !in FormFields(t.cliForms)
    ensures var v := Complete(t, p, renamed).value.values; k in v && v[k] == renamed.values[k]
  {
    CompleteStages(t, p, renamed);
    FormsStage(renamed, t.cliForms);
    hide Complete, CliForms, Derive, DeriveFor, GoodCorner, PyEq, LegacyKeys, FormFields;
  }

  lemma LoadIsComplete(t: Tables, p: Payload)
    requires p.config.None? && Load(t, p).Some?
    ensures p.args.Some? && Stored(p) == p.args.value
    ensures exists r :: Renames(r).Some? && r.values == Stored(p) && Load(t, p) == Complete(t, p, Renames(r).value)
  {
    var r := Resolved(Stored(p), FirstSources(t, p).value);
    assert Renames(r).Some? && r.values == Stored(p);
    hide Renames, Complete, FirstSources;
  }

  /** Every value an old checkpoint stores is the value it loads with; a retired key gives its field the renamed one —
      `no_x` the negation — and an inverted form gives its field the negation of the stored dest. */
  lemma StoredIsLoaded(t: Tables, p: Payload)
    requires TablesOk(t) && p.config.None? && Load(t, p).Some? && RENAMED_TO !! FormFields(t.cliForms)
    ensures p.args.Some?
    ensures var stored, v := p.args.value, Load(t, p).value.values;
      && Negates(stored, v, "no_truncation_bootstrap", "truncation_bootstrap")
      && Negates(stored, v, "no_norm_reward", "norm_reward")
      && Negates(stored, v, "no_normalize_adv", "normalize_adv")
      && GridTells(stored, v) && FallbackTells(stored, v)
      && (forall k | k in stored && k !in RETIRED && k !in RENAMED_TO && k !in FormFields(t.cliForms) :: k in v && v[k] == stored[k])
      && (forall i | 0 <= i < |t.cliForms| && t.cliForms[i].1 !in RETIRED && t.cliForms[i].1 !in RENAMED_TO ::
            Negates(stored, v, t.cliForms[i].1, t.cliForms[i].0))
  {
    LoadIsComplete(t, p);
    var stored, v := p.args.value, Load(t, p).value.values;
    var r :| Renames(r).Some? && r.values == Stored(p) && Load(t, p) == Complete(t, p, Renames(r).value);
    var renamed := Renames(r).value;
    RenamesAre(r);
    OldLoadIsStable(t, p);
    hide *;
    forall k | k in renamed.values && k !in FormFields(t.cliForms)
      ensures k in v && v[k] == renamed.values[k]
    {
      CompleteKeeps(t, p, renamed, k);
    }
    StoredCarries(t, p.weights, stored, renamed.values, v);
  }

  /** From the renamed values to the loaded ones. */
  lemma StoredCarries(t: Tables, w: Weights, stored: Values, renamed: Values, v: Values)
    requires TablesOk(t) && RENAMED_TO !! FormFields(t.cliForms) && RenamesTell(stored, renamed) && Stable(t, w, v)
    requires forall k | k in renamed && k !in FormFields(t.cliForms) :: k in v && v[k] == renamed[k]
    ensures Negates(stored, v, "no_truncation_bootstrap", "truncation_bootstrap")
    ensures Negates(stored, v, "no_norm_reward", "norm_reward")
    ensures Negates(stored, v, "no_normalize_adv", "normalize_adv")
    ensures GridTells(stored, v) && FallbackTells(stored, v)
    ensures forall k | k in stored && k !in RETIRED && k !in RENAMED_TO && k !in FormFields(t.cliForms) :: k in v && v[k] == stored[k]
    ensures forall i | 0 <= i < |t.cliForms| && t.cliForms[i].1 !in RETIRED && t.cliForms[i].1 !in RENAMED_TO ::
              Negates(stored, v, t.cliForms[i].1, t.cliForms[i].0)
  {
    hide Truthy, IsOffText, IntOf, FormFields, LegacyKeys, DeriveFor, GoodCorner, PyEq;
    forall k | k in stored && k !in RETIRED && k !in RENAMED_TO
      ensures k in renamed && renamed[k] == stored[k]
    {
      assert SameAsStored(stored, renamed, k);
    }
    assert forall i | 0 <= i < |t.cliForms| :: t.cliForms[i].1 !in FormFields(t.cliForms);
    assert "truncation_bootstrap" in RENAMED_TO && "norm_reward" in RENAMED_TO && "normalize_adv" in RENAMED_TO;
    assert CANDIDATES in RENAMED_TO && RULES_SOURCE in RENAMED_TO;
  }

  // --- what the weights decide ----------------------------------------------------------------------------------------------

  /** A loaded value that equals what the weights show. */
  ghost predicate Shows(v: Values, key: string, value: Val) { key in v && PyEq(v[key], value) }

  ghost predicate WeightsTell(w: Weights, v: Values) {
    && Shows(v, "shape_obs", Flag("tokenizer.vocab.shape_embed.weight" in w.keys))
    && Shows(v, "legacy_edge_encoding", Flag("tokenizer.vocab.edge_mid_proj.weight" !in w.keys))
    && Shows(v, "legacy_action_history", Flag("tokenizer.vocab.history_age_proj.weight" !in w.keys))
    && ("tokenizer.vocab.history_age_proj.weight" !in w.keys ==> Shows(v, "action_history_len", Num(1)))
    && Shows(v, "use_critic", Flag(exists k | k in w.keys :: "critic_head." <= k))
    && "tokenizer.vocab.slot_emb_table" in w.shapes
    && Shows(v, "n_max_slots", Num(w.shapes["tokenizer.vocab.slot_emb_table"].0))
  }

  /** The widths of the tokenizer's inputs tell the two layouts apart. */
  ghost predicate WidthsTell(w: Weights, v: Values, width: int) {
    && "tokenizer.vocab.pad_proj.weight" in w.shapes && "tokenizer.vocab.net_proj.weight" in w.shapes
    && var pad, net := w.shapes["tokenizer.vocab.pad_proj.weight"].1, w.shapes["tokenizer.vocab.net_proj.weight"].1;
       && (pad == 5 * width + 1 || pad == 6 * width + 1) && (net == 3 * width || net == 4 * width)
       && Shows(v, "legacy_pad_layer_encoding", Flag(pad == 5 * width + 1))
       && Shows(v, "legacy_net_encoding", Flag(net == 3 * width))
  }

  /** A token's width: four numbers a frequency, or the model's width. */
  ghost function WidthOf(v: Values): Option<int> {
    if "coord_encoding" !in v || "n_freq" !in v || "d_model" !in v then None
    else if v["coord_encoding"] == Text("fourier") then
      (if IntOf(v["n_freq"]).None? then None else Some(4 * IntOf(v["n_freq"]).value))
    else IntOf(v["d_model"])
  }

  /** The layout fields of a loaded checkpoint agree with its weights: a module that is there is on, one that is not
      is off, and the input widths are those of one of the two layouts, the one the field names. */
  lemma WeightsDecide(t: Tables, p: Payload)
    requires TablesOk(t) && p.config.None? && Load(t, p).Some?
    ensures var v := Load(t, p).value.values;
      WeightsTell(p.weights, v) && WidthOf(v).Some? && WidthsTell(p.weights, v, WidthOf(v).value)
  {
    OldLoadIsStable(t, p);
    hide *;
    StableShows(t, p.weights, Load(t, p).value.values);
  }

  lemma DerivedHas(w: Weights, coord: Option<Val>, nFreq: Option<Val>, dModel: Option<Val>)
    requires Derive(w, coord, nFreq, dModel).Some?
    ensures TokenWidth(coord, nFreq, dModel).Some?
    ensures forall k | k in {"tokenizer.vocab.slot_emb_table", "tokenizer.vocab.pad_proj.weight", "tokenizer.vocab.net_proj.weight"} :: k in w.shapes
    ensures var d, f := Derive(w, coord, nFreq, dModel).value, TokenWidth(coord, nFreq, dModel).value;
      var pad, net := w.shapes["tokenizer.vocab.pad_proj.weight"].1, w.shapes["tokenizer.vocab.net_proj.weight"].1;
      && ("shape_obs", Flag("tokenizer.vocab.shape_embed.weight" in w.keys)) in d
      && ("legacy_edge_encoding", Flag("tokenizer.vocab.edge_mid_proj.weight" !in w.keys)) in d
      && ("legacy_action_history", Flag("tokenizer.vocab.history_age_proj.weight" !in w.keys)) in d
      && ("tokenizer.vocab.history_age_proj.weight" !in w.keys ==> ("action_history_len", Num(1)) in d)
      && ("use_critic", Flag(exists k | k in w.keys :: "critic_head." <= k)) in d
      && ("n_max_slots", Num(w.shapes["tokenizer.vocab.slot_emb_table"].0)) in d
      && (pad == 5 * f + 1 || pad == 6 * f + 1) && (net == 3 * f || net == 4 * f)
      && ("legacy_pad_layer_encoding", Flag(pad == 5 * f + 1)) in d && ("legacy_net_encoding", Flag(net == 3 * f)) in d
  {
    hide TokenWidth;
    var d := Derive(w, coord, nFreq, dModel).value;
    assert d[0].0 == "shape_obs" && d[1].0 == "legacy_edge_encoding" && d[2].0 == "legacy_action_history";
    assert d[3].0 == "use_critic" && d[4].0 == "n_max_slots";
    assert "tokenizer.vocab.history_age_proj.weight" !in w.keys ==> d[5].0 == "action_history_len";
    assert d[|d| - 2].0 == "legacy_pad_layer_encoding" && d[|d| - 1].0 == "legacy_net_encoding";
  }

  lemma StableShows(t: Tables, w: Weights, v: Values)
    requires Stable(t, w, v)
    ensures WeightsTell(w, v) && WidthOf(v).Some? && WidthsTell(w, v, WidthOf(v).value)
  {
    var derived := DeriveFor(w, v).value;
    var coord, nFreq, dModel := Lookup(v, "coord_encoding"), Lookup(v, "n_freq"), Lookup(v, "d_model");
    DerivedHas(w, coord, nFreq, dModel);
    assert forall i | 0 <= i < |derived| :: Shows(v, derived[i].0, derived[i].1);
    assert forall e | e in derived :: Shows(v, e.0, e.1);
    WidthIs(v);
    hide PyEq, IntOf, Stable, Shows, Derive, WidthOf, TokenWidth;
  }

  lemma WidthIs(v: Values)
    ensures WidthOf(v) == TokenWidth(Lookup(v, "coord_encoding"), Lookup(v, "n_freq"), Lookup(v, "d_model"))
  {
    hide IntOf;
  }

  // --- what the table fills in ----------------------------------------------------------------------------------------------

  /** A field with no stored, renamed, inverted or derived value takes its table value — for a proxied entry the one
      that says whether the checkpoint stored the proxy — and its source says so. */
  lemma AbsentIsFilled(t: Tables, p: Payload, i: nat)
    requires TablesOk(t) && p.config.None? && Load(t, p).Some? && DistinctKeys(t.legacy) && i < |t.legacy|
    requires var key := t.legacy[i].0;
      key !in p.args.value && key !in RENAMED_TO && key !in DERIVED && key !in FormFields(t.cliForms)
    ensures var key, r := t.legacy[i].0, Load(t, p).value;
      && key in r.values && key in r.sources
      && match t.legacy[i].1
         case Fixed(value, _) => r.values[key] == value && r.sources[key] == "legacy"
         case ByProxy(proxy, there, absent) =>
           if proxy in p.args.value then r.values[key] == there && r.sources[key] == "legacy:proxy"
           else r.values[key] == absent && r.sources[key] == "legacy:partial"
  {
    LoadIsComplete(t, p);
    var r :| Renames(r).Some? && r.values == Stored(p) && Load(t, p) == Complete(t, p, Renames(r).value);
    RenamesAre(r);
    RenamesRetire(r);
    hide Load, Renames, TablesOk;
    var key, renamed := t.legacy[i].0, Renames(r).value;
    assert key !in renamed.values by { if key !in RETIRED { assert SameAsStored(r.values, renamed.values, key); } }
    FilledIn(t, p, renamed, i);
  }

  lemma FilledIn(t: Tables, p: Payload, renamed: Resolved, i: nat)
    requires TablesOk(t) && p.config.None? && Complete(t, p, renamed).Some? && DistinctKeys(t.legacy) && i < |t.legacy|
    requires t.legacy[i].0 !in renamed.values && t.legacy[i].0 !in DERIVED && t.legacy[i].0 !in FormFields(t.cliForms)
    ensures var key, r := t.legacy[i].0, Complete(t, p, renamed).value;
      key in r.values && key in r.sources && (r.values[key], r.sources[key]) == LegacyValue(Stored(p), t.legacy[i].1)
  {
    var key := t.legacy[i].0;
    var r1 := CliForms(renamed, t.cliForms);
    var derived := DeriveFor(p.weights, r1.values).value;
    DerivedKeysAre(p.weights, Lookup(r1.values, "coord_encoding"), Lookup(r1.values, "n_freq"), Lookup(r1.values, "d_model"));
    var r2 := AddDerived(r1, derived).value;
    FormsStage(renamed, t.cliForms);
    DerivedStage(r1, derived);
    hide CliForms, AddDerived, Derive, DeriveFor, GoodCorner, TablesOk, PyEq, FillLegacy, FormFields, LegacyValue, DistinctKeys;
    assert key !in r1.values;
    assert forall k | k in (set j | 0 <= j < |derived| :: derived[j].0) :: k in DERIVED;
    assert key !in r2.values;
    FillAtEntry(Stored(p), r2, t.legacy, i);
  }

  // --- schema 2 ----------------------------------------------------------------------------------------------------------------

  /** The table's value of a field that the named trainers record and this one does not. */
  predicate Silent(e: (string, LegacyEntry), trainer: string, key: string, v: Val) {
    e.0 == key && e.1.Fixed? && e.1.value == v && e.1.trainers.Some? && trainer !in e.1.trainers.value
  }

  /** Where a schema-2 checkpoint says a value is from: an estimate stays one, also where it came from the base it was
      initialized from; anything else is the checkpoint's own. */
  ghost function SourceSaid(cfg: SchemaTwo, k: string): string {
    var said := if k in cfg.sources && cfg.sources[k] != "init_from" then cfg.sources[k]
                else if k in cfg.sources && cfg.initFrom.Some? && k in cfg.initFrom.value then cfg.initFrom.value[k] else "";
    if said == "legacy" || "legacy:" <= said then said else "ckpt"
  }

  ghost predicate NeverRecords(t: Tables, trainer: Option<string>, key: string, v: Val) {
    trainer.Some? && exists i :: 0 <= i < |t.legacy| && Silent(t.legacy[i], trainer.value, key, v)
  }

  /** A loaded checkpoint has every field, and its corners are of 45 or 90 degrees. */
  lemma LoadedIsWhole(t: Tables, p: Payload)
    requires Load(t, p).Some?
    ensures var v := Load(t, p).value.values;
      t.fields <= v.Keys && "corner_mode" in v && (PyEq(v["corner_mode"], Num(45)) || PyEq(v["corner_mode"], Num(90)))
    ensures p.trainer.Some? ==> p.trainer.value in {"ppo", "grpo", "bc"}
  {
    hide Renames, FirstSources, CliForms, DeriveFor, AddDerived, FillLegacy, FillUnrecorded, PyEq;
  }

  /** A schema-2 checkpoint loads what it stores; what it lacks comes from its weights, from an inverted form, or is a
      field its writer never records and then has the table's value. */
  lemma SchemaTwoIsLoaded(t: Tables, p: Payload, k: string)
    requires TablesOk(t) && p.config.Some? && Load(t, p).Some? && k !in FormFields(t.cliForms)
    ensures var stored, v := p.config.value.values, Load(t, p).value.values;
      && (k in stored ==> k in v && v[k] == stored[k])
      && (k in v && k !in stored && k !in DERIVED ==> k in t.fields && NeverRecords(t, p.trainer, k, v[k]))
  {
    var r := Resolved(Stored(p), FirstSources(t, p).value);
    var r1 := CliForms(r, t.cliForms);
    var r2 := AddDerived(r1, DeriveFor(p.weights, r1.values).value).value;
    assert Load(t, p).value == FillUnrecorded(t, p.trainer, r2);
    UpToDerived(t, p.weights, r, k);
    if Unrecorded(t, p.trainer, k).Some? { NeverRecorded(t, p.trainer, k); }
    hide NeverRecords, CliForms, AddDerived, DeriveFor, TablesOk, FormFields, Unrecorded, FirstSources, Load;
  }

  /** The source of a stored field is what the checkpoint says it is. */
  lemma SchemaTwoSources(t: Tables, p: Payload, k: string)
    requires TablesOk(t) && p.config.Some? && Load(t, p).Some? && k !in FormFields(t.cliForms)
    requires k in p.config.value.values && k in t.fields
    ensures SourceOf(Load(t, p).value, k) == Some(SourceSaid(p.config.value, k))
  {
    var r := Resolved(Stored(p), FirstSources(t, p).value);
    var r1 := CliForms(r, t.cliForms);
    var r2 := AddDerived(r1, DeriveFor(p.weights, r1.values).value).value;
    assert Load(t, p).value == FillUnrecorded(t, p.trainer, r2);
    FirstSourceIs(t, p, k);
    UpToDerived(t, p.weights, r, k);
    SourcesKept(t, p.weights, r, k);
    hide SourceSaid, CliForms, AddDerived, DeriveFor, TablesOk, FormFields, Unrecorded, FirstSources, Load;
  }

  lemma FirstSourceIs(t: Tables, p: Payload, k: string)
    requires p.config.Some? && FirstSources(t, p).Some? && k in Stored(p) && k in t.fields
    ensures var sources := FirstSources(t, p).value; k in sources && sources[k] == SourceSaid(p.config.value, k)
  {
  }

  lemma {:induction false} FormsKeepSources(r: Resolved, forms: seq<(string, string)>, k: string)
    requires k !in FormFields(forms)
    ensures SourceOf(CliForms(r, forms), k) == SourceOf(r, k)
  {
    if forms != [] {
      assert forms[|forms| - 1].0 in FormFields(forms);
      forall x | x in FormFields(forms[..|forms| - 1]) ensures x in FormFields(forms) {
        var i :| 0 <= i < |forms| - 1 && forms[..|forms| - 1][i].0 == x;
        assert forms[i].0 == x;
      }
      FormsKeepSources(r, forms[..|forms| - 1], k);
    }
  }

  lemma {:induction false} DerivedKeepsSources(r: Resolved, derived: seq<(string, Val)>, k: string)
    requires AddDerived(r, derived).Some? && k in r.values
    ensures k in AddDerived(r, derived).value.values && SourceOf(AddDerived(r, derived).value, k) == SourceOf(r, k)
  {
    if derived != [] { DerivedKeepsSources(r, derived[..|derived| - 1], k); }
  }

  lemma SourcesKept(t: Tables, w: Weights, r: Resolved, k: string)
    requires TablesOk(t) && k !in FormFields(t.cliForms)
    requires var r1 := CliForms(r, t.cliForms); DeriveFor(w, r1.values).Some? && AddDerived(r1, DeriveFor(w, r1.values).value).Some?
    ensures var r1 := CliForms(r, t.cliForms);
      k in r.values ==> SourceOf(AddDerived(r1, DeriveFor(w, r1.values).value).value, k) == SourceOf(r, k)
  {
    var r1 := CliForms(r, t.cliForms);
    FormsKeepSources(r, t.cliForms, k);
    FormsStage(r, t.cliForms);
    hide CliForms, DeriveFor, TablesOk, AddDerived, FormFields;
    if k in r.values { DerivedKeepsSources(r1, DeriveFor(w, r1.values).value, k); }
  }

  lemma NeverRecorded(t: Tables, trainer: Option<string>, k: string)
    requires Unrecorded(t, trainer, k).Some?
    ensures NeverRecords(t, trainer, k, Unrecorded(t, trainer, k).value)
  {
    UnrecordedIs(t.legacy, trainer, k);
    hide Silent, UnrecordedIn;
  }

  lemma {:induction false} UnrecordedIs(legacy: seq<(string, LegacyEntry)>, trainer: Option<string>, key: string)
    requires trainer.Some? && UnrecordedIn(legacy, trainer.value, key).Some?
    ensures exists i :: 0 <= i < |legacy| && Silent(legacy[i], trainer.value, key, UnrecordedIn(legacy, trainer.value, key).value)
  {
    var init := legacy[..|legacy| - 1];
    if legacy[|legacy| - 1].0 != key {
      UnrecordedIs(init, trainer, key);
      var i :| 0 <= i < |init| && Silent(init[i], trainer.value, key, UnrecordedIn(init, trainer.value, key).value);
      assert legacy[i] == init[i];
    }
  }

  /** The inverted forms and the weights leave what is there. */
  lemma UpToDerived(t: Tables, w: Weights, r: Resolved, k: string)
    requires TablesOk(t) && k !in FormFields(t.cliForms)
    requires var r1 := CliForms(r, t.cliForms); DeriveFor(w, r1.values).Some? && AddDerived(r1, DeriveFor(w, r1.values).value).Some?
    ensures var r1 := CliForms(r, t.cliForms); var v := AddDerived(r1, DeriveFor(w, r1.values).value).value.values;
      (k in r.values ==> k in v && v[k] == r.values[k]) && (k in v && k !in r.values ==> k in DERIVED)
  {
    var r1 := CliForms(r, t.cliForms);
    var derived := DeriveFor(w, r1.values).value;
    DerivedKeysAre(w, Lookup(r1.values, "coord_encoding"), Lookup(r1.values, "n_freq"), Lookup(r1.values, "d_model"));
    FormsStage(r, t.cliForms);
    DerivedStage(r1, derived);
    hide CliForms, AddDerived, Derive, DeriveFor, TablesOk, PyEq, FormFields;
    assert forall k | k in (set j | 0 <= j < |derived| :: derived[j].0) :: k in DERIVED;
  }
}
