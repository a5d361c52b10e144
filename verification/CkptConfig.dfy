/** Reading a checkpoint's configuration: `load_ckpt_config` and the entries a writer stores. */
module CkptConfig {
  import opened Decimal
  import opened PyValues

  type Values = map<string, Val>
  type Sources = map<string, string>

  // --- tables ---------------------------------------------------------------------------------------------------------

  datatype LegacyEntry = Fixed(value: Val, trainers: Option<set<string>>) | ByProxy(proxy: string, ifPresent: Val, ifAbsent: Val)

  /** `fields`: every field a checkpoint must yield; `cliForms`: field and the inverted dest it is stored
      under; `legacy`: the pre-knob value of a key an old checkpoint lacks. */
  datatype Tables = Tables(fields: set<string>, cliForms: seq<(string, string)>, legacy: seq<(string, LegacyEntry)>)

  const TRAINERS: set<string> := {"ppo", "grpo", "bc"}
  const INVERTED_RENAMES: seq<(string, string)> :=
    [("no_truncation_bootstrap", "truncation_bootstrap"), ("no_norm_reward", "norm_reward"), ("no_normalize_adv", "normalize_adv")]
  const REMOVED := "allow_incomplete_net_end"
  const GRID := "directional_grid_size"
  const CANDIDATES := "directional_candidates"
  const YAML_FALLBACK := "use_yaml_drc_fallback"
  const RULES_SOURCE := "rules_source"

  function RulesSourceOf(fallback: bool): Val { Text(if fallback then "board_or_yaml" else "board") }

  /** The mirror key an older loader reads; None for a rules source it has no value for. */
  function FallbackOf(rules: Val): Option<Val> {
    if rules == Text("board") then Some(Flag(false)) else if rules == Text("board_or_yaml") then Some(Flag(true)) else None
  }

  /** What a training checkpoint's weights show. */
  datatype Weights = Weights(keys: set<string>, shapes: map<string, (int, int)>)

  datatype SchemaTwo = SchemaTwo(values: Values, sources: Sources, initFrom: Option<Sources>)

  datatype Payload = Payload(trainer: Option<string>, config: Option<SchemaTwo>, args: Option<Values>, weights: Weights)

  /** The values and, per field, where each came from. */
  datatype Resolved = Resolved(values: Values, sources: Sources)

  function Set(r: Resolved, key: string, v: Val, source: string): Resolved {
    Resolved(r.values[key := v], r.sources[key := source])
  }

  // --- 1. renames ---------------------------------------------------------------------------------------------------------

  predicate IsSpace(c: char) { c == ' ' || c == '\n' || '\t' <= c <= '\r' }

  /** `s.strip()` */
  function Stripped(s: string): string
    decreases |s|
  {
    if s == "" then "" else if IsSpace(s[0]) then Stripped(s[1..])
    else if IsSpace(s[|s| - 1]) then Stripped(s[..|s| - 1]) else s
  }

  /** `s.lower()` of ASCII letters. */
  function Lower(s: string): string {
    seq(|s|, i requires 0 <= i < |s| => if 'A' <= s[i] <= 'Z' then (s[i] as int + 32) as char else s[i])
  }

  /** `_none_if_off(v) is None` */
  predicate IsOffText(v: Val) { v.Nil? || (v.Text? && Lower(Stripped(v.s)) in {"none", "off", ""}) }

  /** The int grid size became the "grid<N>" mode; a newer key wins unless it is off and the grid is not. */
  function RenameGrid(r: Resolved): Option<Resolved> {
    if GRID !in r.values then Some(r) else
      var grid := r.values[GRID];
      var r1 := r.(values := r.values - {GRID});
      if CANDIDATES !in r1.values || (!grid.Nil? && IsOffText(r1.values[CANDIDATES])) then
        if grid.Nil? then Some(Set(r1, CANDIDATES, Nil, "renamed"))
        else if IntOf(grid).None? then None
        else Some(Set(r1, CANDIDATES, Text("grid" + PrintInt(IntOf(grid).value)), "renamed"))
      else Some(r1)
  }

  function RenameFallback(r: Resolved): Option<Resolved> {
    if YAML_FALLBACK !in r.values then Some(r) else
      var mirrored := RulesSourceOf(Truthy(r.values[YAML_FALLBACK]));
      var r1 := r.(values := r.values - {YAML_FALLBACK});
      if RULES_SOURCE !in r1.values then Some(Set(r1, RULES_SOURCE, mirrored, "renamed"))
      else if r1.values[RULES_SOURCE] != mirrored then None
      else Some(r1)
  }

  function RenameInverted(r: Resolved, renames: seq<(string, string)>): Option<Resolved> {
    if renames == [] then Some(r) else
      match RenameInverted(r, renames[..|renames| - 1])
      case None => None
      case Some(r1) =>
        var (dest, name) := renames[|renames| - 1];
        if dest !in r1.values then Some(r1) else
          var value := Flag(!Truthy(r1.values[dest]));
          var r2 := r1.(values := r1.values - {dest});
          if name in r2.values && !PyEq(r2.values[name], value) then None else Some(Set(r2, name, value, "renamed"))
  }

  function Renames(r: Resolved): Option<Resolved> {
    match RenameGrid(r)
    case None => None
    case Some(r1) =>
      match RenameFallback(r1)
      case None => None
      case Some(r2) =>
        match RenameInverted(r2, INVERTED_RENAMES)
        case None => None
        case Some(r3) => Some(r3.(values := r3.values - {REMOVED}))
  }

  /** A field stored under its inverted dest is added beside it. */
  function CliForms(r: Resolved, forms: seq<(string, string)>): Resolved {
    if forms == [] then r else
      var r1 := CliForms(r, forms[..|forms| - 1]);
      var (field, dest) := forms[|forms| - 1];
      if dest in r1.values then Set(r1, field, Flag(!Truthy(r1.values[dest])), "ckpt") else r1
  }

  // --- 2. derived ---------------------------------------------------------------------------------------------------------

  function Lookup(values: Values, key: string): Option<Val> { if key in values then Some(values[key]) else None }

  predicate Shaped(w: Weights, key: string) { key in w.keys && key in w.shapes }

  predicate HasCritic(w: Weights) { exists k | k in w.keys :: "critic_head." <= k }

  /** The tokenizer's width; None when the arguments that fix it are missing. */
  function TokenWidth(coord: Option<Val>, nFreq: Option<Val>, dModel: Option<Val>): Option<int> {
    if coord.None? || nFreq.None? || dModel.None? then None
    else if coord.value == Text("fourier") then (match IntOf(nFreq.value) case None => None case Some(n) => Some(4 * n))
    else IntOf(dModel.value)
  }

  /** The values the weights fix, in the order they are compared; None raises. */
  function Derive(w: Weights, coord: Option<Val>, nFreq: Option<Val>, dModel: Option<Val>): Option<seq<(string, Val)>> {
    var slots, padProj, netProj := "tokenizer.vocab.slot_emb_table", "tokenizer.vocab.pad_proj.weight", "tokenizer.vocab.net_proj.weight";
    if !Shaped(w, slots) || !Shaped(w, padProj) || !Shaped(w, netProj) then None
    else match TokenWidth(coord, nFreq, dModel)
      case None => None
      case Some(f) =>
        var pad, net := w.shapes[padProj].1, w.shapes[netProj].1;
        if (pad != 5 * f + 1 && pad != 6 * f + 1) || (net != 3 * f && net != 4 * f) then None else
          var legacyHistory := "tokenizer.vocab.history_age_proj.weight" !in w.keys;
          Some([("shape_obs", Flag("tokenizer.vocab.shape_embed.weight" in w.keys)),
                ("legacy_edge_encoding", Flag("tokenizer.vocab.edge_mid_proj.weight" !in w.keys)),
                ("legacy_action_history", Flag(legacyHistory)),
                ("use_critic", Flag(HasCritic(w))),
                ("n_max_slots", Num(w.shapes[slots].0))]
               + (if legacyHistory then [("action_history_len", Num(1))] else [])
               + [("legacy_pad_layer_encoding", Flag(pad == 5 * f + 1)), ("legacy_net_encoding", Flag(net == 3 * f))])
  }

  function DeriveFor(w: Weights, values: Values): Option<seq<(string, Val)>> {
    Derive(w, Lookup(values, "coord_encoding"), Lookup(values, "n_freq"), Lookup(values, "d_model"))
  }

  /** A stored value that contradicts the weights is refused; a missing one is added. */
  function AddDerived(r: Resolved, derived: seq<(string, Val)>): Option<Resolved> {
    if derived == [] then Some(r) else
      match AddDerived(r, derived[..|derived| - 1])
      case None => None
      case Some(r1) =>
        var (key, value) := derived[|derived| - 1];
        if key in r1.values then (if PyEq(r1.values[key], value) then Some(r1) else None)
        else Some(Set(r1, key, value, "derived"))
  }

  // --- 3. legacy -----------------------------------------------------------------------------------------------------------

  function LegacyValue(stored: Values, e: LegacyEntry): (Val, string) {
    match e
    case Fixed(v, _) => (v, "legacy")
    case ByProxy(proxy, present, absent) => if proxy in stored then (present, "legacy:proxy") else (absent, "legacy:partial")
  }

  /** `_fill_legacy`: a proxy is looked up in the stored arguments, not among the values filled so far. */
  function FillLegacy(stored: Values, r: Resolved, legacy: seq<(string, LegacyEntry)>): Resolved {
    if legacy == [] then r else
      var r1 := FillLegacy(stored, r, legacy[..|legacy| - 1]);
      var (key, entry) := legacy[|legacy| - 1];
      if key in r1.values then r1 else Set(r1, key, LegacyValue(stored, entry).0, LegacyValue(stored, entry).1)
  }

  /** The table value of a field the writer of a schema-2 checkpoint never records. */
  function Unrecorded(t: Tables, trainer: Option<string>, key: string): Option<Val> {
    if trainer.None? then None else UnrecordedIn(t.legacy, trainer.value, key)
  }

  function UnrecordedIn(legacy: seq<(string, LegacyEntry)>, trainer: string, key: string): Option<Val> {
    if legacy == [] then None
    else if legacy[|legacy| - 1].0 != key then UnrecordedIn(legacy[..|legacy| - 1], trainer, key)
    else match legacy[|legacy| - 1].1
      case ByProxy(_, _, _) => None
      case Fixed(v, trainers) => if trainers.Some? && trainer !in trainers.value then Some(v) else None
  }

  function FillUnrecorded(t: Tables, trainer: Option<string>, r: Resolved): Resolved {
    var added := map k | k in t.fields && k !in r.values && Unrecorded(t, trainer, k).Some? :: Unrecorded(t, trainer, k).value;
    Resolved(r.values + added, r.sources + map k | k in added :: "legacy")
  }

  // --- the loader -----------------------------------------------------------------------------------------------------------

  predicate IsLegacySource(s: string) { s == "legacy" || "legacy:" <= s }

  /** `_recorded_source`; None is a writer bug. */
  function RecordedSource(cfg: SchemaTwo, key: string): Option<string> {
    var src :=
      if key in cfg.sources && cfg.sources[key] == "init_from" then
        (if cfg.initFrom.None? || key !in cfg.initFrom.value then None else Some(cfg.initFrom.value[key]))
      else if key in cfg.sources then Some(cfg.sources[key]) else None;
    match src case None => None case Some(s) => Some(if IsLegacySource(s) then s else "ckpt")
  }

  /** Where each stored field says it came from; None is a writer bug. */
  function FirstSources(t: Tables, p: Payload): Option<Sources> {
    match p.config
    case None => (match p.args case None => None case Some(stored) => Some(map k | k in t.fields && k in stored :: "ckpt"))
    case Some(cfg) =>
      if exists k | k in t.fields && k in cfg.values :: RecordedSource(cfg, k).None? then None
      else Some(map k | k in t.fields && k in cfg.values :: (match RecordedSource(cfg, k) { case None => "" case Some(s) => s }))
  }

  function Stored(p: Payload): Values {
    match p.config case Some(cfg) => cfg.values case None => (match p.args case Some(a) => a case None => map[])
  }

  predicate GoodCorner(values: Values) { "corner_mode" in values && (PyEq(values["corner_mode"], Num(45)) || PyEq(values["corner_mode"], Num(90))) }

  /** Steps 2 to 4, from the renamed values. */
  function Complete(t: Tables, p: Payload, renamed: Resolved): Option<Resolved> {
    var r1 := CliForms(renamed, t.cliForms);
    match DeriveFor(p.weights, r1.values)
    case None => None
    case Some(derived) =>
      match AddDerived(r1, derived)
      case None => None
      case Some(r2) =>
        var r3 := if p.config.None? then FillLegacy(Stored(p), r2, t.legacy) else FillUnrecorded(t, p.trainer, r2);
        if !(t.fields <= r3.values.Keys) || !GoodCorner(r3.values) then None else Some(r3)
  }

  /** `load_ckpt_config`, not strict; None raises. */
  function Load(t: Tables, p: Payload): Option<Resolved> {
    if (p.trainer.Some? && p.trainer.value !in TRAINERS) || (p.config.None? && p.args.None?) then None
    else match FirstSources(t, p)
      case None => None
      case Some(sources) =>
        match (if p.config.None? then Renames(Resolved(Stored(p), sources)) else Some(Resolved(Stored(p), sources)))
        case None => None
        case Some(r) => Complete(t, p, r)
  }

  /** The resolved values as an older loader reads them; None where the mirror key has no value. */
  function LegacyArgs(values: Values): Option<Values> {
    if RULES_SOURCE !in values || FallbackOf(values[RULES_SOURCE]).None? then None
    else Some(values[YAML_FALLBACK := FallbackOf(values[RULES_SOURCE]).value])
  }

  // --- the loader, step by step -----------------------------------------------------------------------------------------------

  method FillFromTable(stored: Values, start: Resolved, legacy: seq<(string, LegacyEntry)>) returns (values: Values, sources: Sources)
    ensures Resolved(values, sources) == FillLegacy(stored, start, legacy)
  {
    values, sources := start.values, start.sources;
    for i := 0 to |legacy|
      invariant Resolved(values, sources) == FillLegacy(stored, start, legacy[..i])
    {
      var (key, entry) := legacy[i];
      assert legacy[..i + 1][..i] == legacy[..i];
      if key !in values {
        match entry
        case ByProxy(proxy, present, absent) =>
          var there := proxy in stored;
          values := values[key := if there then present else absent];
          sources := sources[key := if there then "legacy:proxy" else "legacy:partial"];
        case Fixed(v, _) =>
          values, sources := values[key := v], sources[key := "legacy"];
      }
    }
    assert legacy[..|legacy|] == legacy;
  }

  method CompareDerived(start: Resolved, derived: seq<(string, Val)>) returns (r: Option<Resolved>)
    ensures r == AddDerived(start, derived)
  {
    var values, sources := start.values, start.sources;
    for i := 0 to |derived|
      invariant Some(Resolved(values, sources)) == AddDerived(start, derived[..i])
    {
      var (key, value) := derived[i];
      assert derived[..i + 1][..i] == derived[..i];
      if key in values {
        if !PyEq(values[key], value) {
          RefusedForGood(start, derived, i + 1);
          return None;
        }
      } else {
        values, sources := values[key := value], sources[key := "derived"];
      }
    }
    assert derived[..|derived|] == derived;
    return Some(Resolved(values, sources));
  }

  lemma {:induction false} RefusedForGood(start: Resolved, derived: seq<(string, Val)>, i: nat)
    requires i <= |derived| && AddDerived(start, derived[..i]).None?
    ensures AddDerived(start, derived).None?
    decreases |derived| - i
  {
    if i == |derived| {
      assert derived[..i] == derived;
    } else {
      assert derived[..i + 1][..i] == derived[..i];
      RefusedForGood(start, derived, i + 1);
    }
  }

  method AddCliForms(start: Resolved, forms: seq<(string, string)>) returns (r: Resolved)
    ensures r == CliForms(start, forms)
  {
    r := start;
    for i := 0 to |forms|
      invariant r == CliForms(start, forms[..i])
    {
      var (field, dest) := forms[i];
      assert forms[..i + 1][..i] == forms[..i];
      if dest in r.values {
        r := Set(r, field, Flag(!Truthy(r.values[dest])), "ckpt");
      }
    }
    assert forms[..|forms|] == forms;
  }

  method LoadCkptConfig(t: Tables, p: Payload) returns (r: Option<Resolved>)
    ensures r == Load(t, p)
  {
    hide Renames, CliForms, AddDerived, FillLegacy, FillUnrecorded, Derive, FirstSources, GoodCorner;
    if (p.trainer.Some? && p.trainer.value !in TRAINERS) || (p.config.None? && p.args.None?) {
      return None;
    }
    var sources := FirstSources(t, p);
    if sources.None? {
      return None;
    }
    var now := Some(Resolved(Stored(p), sources.value));
    if p.config.None? {
      now := Renames(now.value);
    }
    if now.None? {
      return None;
    }
    var cur := AddCliForms(now.value, t.cliForms);
    var derived := DeriveFor(p.weights, cur.values);
    if derived.None? {
      return None;
    }
    var compared := CompareDerived(cur, derived.value);
    if compared.None? {
      return None;
    }
    cur := compared.value;
    if p.config.None? {
      var values, filled := FillFromTable(Stored(p), cur, t.legacy);
      cur := Resolved(values, filled);
    } else {
      cur := FillUnrecorded(t, p.trainer, cur);
    }
    if !(t.fields <= cur.values.Keys) || !GoodCorner(cur.values) {
      return None;
    }
    return Some(cur);
  }
}
