/** One run's configuration from its layers: `resolve`, and what the scope and mode table guarantees. */
module Resolve {
  import opened Decimal
  import opened Dicts
  import opened PyValues
  import opened CkptConfig

  datatype Scope = Arch | Experiment | Runtime
  datatype Policy = Policy(scope: Scope, resumeMutable: bool, evalOverride: bool)
  datatype Mode = Fresh | Resume | InitCkpt | Eval

  /** One source of values; `wheres` and `sources` refine it per key. */
  datatype Layer = Layer(source: string, values: Dict<string, Val>, wheres: map<string, string>, sources: map<string, string>)

  /** What one layer says of one key. */
  datatype Link = Link(source: string, value: Val, place: string)

  datatype Entry = Entry(value: Val, source: string, place: string, chain: seq<Link>)

  datatype Run = Run(mode: Mode, provenance: map<string, Entry>)

  const PROCESS_OPTIONS: set<string> := {"recipe", "expect", "strict_ckpt", "dump_config_only"}
  const RUN_CONFIG_ATTRS: set<string> := {"resolve_mode", "ckpt_meta", "provenance", "values", "ckpt_config"}

  // --- equal as a setting -------------------------------------------------------------------------------------------------

  predicate IsOff(v: Val) { v in {Nil, Flag(false), Text(""), Text("none"), Text("off")} }

  predicate SameValue(a: Val, b: Val) {
    if IsOff(a) || IsOff(b) then IsOff(a) && IsOff(b) else PyEq(a, b) || Str(a) == Str(b)
  }

  // --- one key --------------------------------------------------------------------------------------------------------------

  function LinkOf(l: Layer, key: string): Option<Link> {
    match Get(l.values, key)
    case None => None
    case Some(v) => Some(Link(if key in l.sources then l.sources[key] else l.source, v, if key in l.wheres then l.wheres[key] else l.source))
  }

  predicate MayChange(mode: Mode, pol: Policy) {
    pol.scope.Runtime? || mode.Fresh? ||
    (pol.scope.Experiment? && match mode case Resume => pol.resumeMutable case InitCkpt => true case Eval => pol.evalOverride case Fresh => true)
  }

  /** A checkpoint value stands unless the mode frees the key: a run from an initial checkpoint takes its
      arch keys only. */
  predicate Pinned(mode: Mode, pol: Policy, ckpt: Option<Layer>, key: string) {
    ckpt.Some? && LinkOf(ckpt.value, key).Some? && key !in PROCESS_OPTIONS && (!mode.InitCkpt? || pol.scope.Arch?)
  }

  predicate Estimated(l: Link) { l.source == "legacy" || "legacy:" <= l.source }

  /** The override of an estimated arch value that a run from an initial checkpoint may make. */
  predicate Waived(mode: Mode, strict: bool, kept: Link) { mode.InitCkpt? && !strict && Estimated(kept) }

  /** A user value that the table refuses. */
  predicate Forbidden(mode: Mode, strict: bool, pol: Policy, ckpt: Option<Layer>, key: string, got: Link) {
    && Pinned(mode, pol, ckpt, key)
    && !SameValue(got.value, LinkOf(ckpt.value, key).value.value)
    && !MayChange(mode, pol) && !Waived(mode, strict, LinkOf(ckpt.value, key).value)
  }

  /** The links of the layers that set the key, in order. */
  function Links(layers: seq<Layer>, key: string): seq<Link> {
    if layers == [] then [] else
      Links(layers[..|layers| - 1], key)
      + match LinkOf(layers[|layers| - 1], key) case None => [] case Some(l) => [l]
  }

  /** The checkpoint's link, when it is pinned. */
  function Kept(mode: Mode, pol: Policy, ckpt: Option<Layer>, key: string): seq<Link> {
    if Pinned(mode, pol, ckpt, key) then [LinkOf(ckpt.value, key).value] else []
  }

  function Chain(mode: Mode, pol: Policy, defaults: seq<Layer>, ckpt: Option<Layer>, user: seq<Layer>, key: string): seq<Link> {
    Links(defaults, key) + Kept(mode, pol, ckpt, key) + Links(user, key)
  }

  function EntryOf(chain: seq<Link>): Entry
    requires chain != []
  {
    var last := chain[|chain| - 1];
    Entry(last.value, last.source, last.place, chain)
  }

  predicate AnyForbidden(mode: Mode, strict: bool, pol: Policy, ckpt: Option<Layer>, user: seq<Layer>, key: string) {
    exists i :: 0 <= i < |user| && LinkOf(user[i], key).Some? && Forbidden(mode, strict, pol, ckpt, key, LinkOf(user[i], key).value)
  }

  method CollectLinks(layers: seq<Layer>, key: string) returns (links: seq<Link>)
    ensures links == Links(layers, key)
  {
    links := [];
    for i := 0 to |layers|
      invariant links == Links(layers[..i], key)
    {
      assert layers[..i + 1][..i] == layers[..i];
      var link := LinkOf(layers[i], key);
      if link.Some? {
        links := links + [link.value];
      }
    }
    assert layers[..|layers|] == layers;
  }

  /** The chain of one key, or None when some user layer may not set it. */
  method ResolveKey(mode: Mode, strict: bool, pol: Policy, defaults: seq<Layer>, ckpt: Option<Layer>, user: seq<Layer>, key: string)
    returns (chain: Option<seq<Link>>)
    ensures chain == if AnyForbidden(mode, strict, pol, ckpt, user, key) then None else Some(Chain(mode, pol, defaults, ckpt, user, key))
  {
    var links := CollectLinks(defaults, key);
    if Pinned(mode, pol, ckpt, key) {
      links := links + [LinkOf(ckpt.value, key).value];
    }
    assert links == Links(defaults, key) + Kept(mode, pol, ckpt, key);
    hide Forbidden, Pinned, Kept, LinkOf;
    ghost var start := links;
    for i := 0 to |user|
      invariant links == start + Links(user[..i], key)
      invariant forall k | 0 <= k < i && LinkOf(user[k], key).Some? :: !Forbidden(mode, strict, pol, ckpt, key, LinkOf(user[k], key).value)
    {
      assert user[..i + 1][..i] == user[..i];
      var link := LinkOf(user[i], key);
      if link.Some? {
        if Forbidden(mode, strict, pol, ckpt, key, link.value) {
          return None;
        }
        links := links + [link.value];
      }
    }
    assert user[..|user|] == user;
    return Some(links);
  }

  // --- the whole configuration ------------------------------------------------------------------------------------------------

  predicate SetsUnknown(keys: Dict<string, Val>, l: Layer) { exists i :: 0 <= i < |l.values| && Get(keys, l.values[i].0).None? }

  function FirstCli(user: seq<Layer>): Dict<string, Val> {
    if user == [] then []
    else if FirstCliIndex(user) < |user| then user[FirstCliIndex(user)].values
    else []
  }

  function FirstCliIndex(user: seq<Layer>): (i: nat)
    ensures i <= |user|
  {
    if user == [] then 0
    else if FirstCliIndex(user[..|user| - 1]) < |user| - 1 then FirstCliIndex(user[..|user| - 1])
    else if user[|user| - 1].source == "cli" then |user| - 1
    else |user|
  }

  /** A key given both on the command line and by code. */
  predicate GivenTwice(user: seq<Layer>) {
    exists i, k :: 0 <= i < |user| && "code:" <= user[i].source && 0 <= k < |user[i].values|
                   && Get(FirstCli(user), user[i].values[k].0).Some?
  }

  /** The checks made before any key is looked at. */
  predicate WellFormed(mode: Mode, policies: map<string, Policy>, defaults: seq<Layer>, ckpt: Option<Layer>, user: seq<Layer>)
    requires defaults != []
  {
    var keys := defaults[0].values;
    && (ckpt.None? <==> mode.Fresh?)
    && (forall i | 0 <= i < |keys| :: keys[i].0 !in RUN_CONFIG_ATTRS && keys[i].0 in policies)
    && (forall i | 1 <= i < |defaults| :: !SetsUnknown(keys, defaults[i]))
    && (forall i | 0 <= i < |user| :: !SetsUnknown(keys, user[i]))
    && !GivenTwice(user)
  }

  /** What the checks look for: a key the first defaults layer does not list, and a key that both the first command-line
      layer and a layer of code set. */
  lemma ChecksAre(keys: Dict<string, Val>, l: Layer, user: seq<Layer>, c: nat)
    requires c < |user| && user[c].source == "cli" && forall i | 0 <= i < c :: user[i].source != "cli"
    ensures SetsUnknown(keys, l) <==> exists k: string :: Get(l.values, k).Some? && Get(keys, k).None?
    ensures GivenTwice(user) <==>
      exists i, k: string :: 0 <= i < |user| && "code:" <= user[i].source && Get(user[i].values, k).Some? && Get(user[c].values, k).Some?
  {
    FirstCliIs(user, c);
    hide Get, FirstCli, GivenTwice;
    if i :| 0 <= i < |l.values| && Get(keys, l.values[i].0).None? { KeyIsListed(l.values, i); }
    if k: string :| Get(l.values, k).Some? && Get(keys, k).None? { GotIsEntry(l.values, k); }
    if GivenTwice(user) { Twice(user); }
    if i, key: string :| 0 <= i < |user| && "code:" <= user[i].source && Get(user[i].values, key).Some? && Get(user[c].values, key).Some? {
      IsTwice(user, i, key);
    }
  }

  lemma Twice(user: seq<Layer>)
    requires GivenTwice(user)
    ensures exists i, key: string ::
      0 <= i < |user| && "code:" <= user[i].source && Get(user[i].values, key).Some? && Get(FirstCli(user), key).Some?
  {
    var i, k :| 0 <= i < |user| && "code:" <= user[i].source && 0 <= k < |user[i].values| && Get(FirstCli(user), user[i].values[k].0).Some?;
    hide Get, FirstCli;
    var key := user[i].values[k].0;
    KeyIsListed(user[i].values, k);
    assert Get(user[i].values, key).Some? && Get(FirstCli(user), key).Some?;
  }

  lemma IsTwice(user: seq<Layer>, i: nat, key: string)
    requires i < |user| && "code:" <= user[i].source && Get(user[i].values, key).Some? && Get(FirstCli(user), key).Some?
    ensures GivenTwice(user)
  {
    GotIsEntry(user[i].values, key);
    hide Get, FirstCli;
    var k :| 0 <= k < |user[i].values| && user[i].values[k] == (key, Get(user[i].values, key).value);
    assert Get(FirstCli(user), user[i].values[k].0).Some?;
  }

  lemma {:induction false} FirstCliIndexIs(user: seq<Layer>, c: nat)
    requires c < |user| && user[c].source == "cli" && forall i | 0 <= i < c :: user[i].source != "cli"
    ensures FirstCliIndex(user) == c
  {
    var init := user[..|user| - 1];
    assert forall i | 0 <= i < |init| :: init[i] == user[i];
    if c < |init| { FirstCliIndexIs(init, c); } else { NoCli(init); }
  }

  lemma {:induction false} NoCli(user: seq<Layer>)
    requires forall i | 0 <= i < |user| :: user[i].source != "cli"
    ensures FirstCliIndex(user) == |user|
  {
    if user != [] {
      assert forall i | 0 <= i < |user| - 1 :: user[..|user| - 1][i] == user[i];
      NoCli(user[..|user| - 1]);
    }
  }

  lemma FirstCliIs(user: seq<Layer>, c: nat)
    requires c < |user| && user[c].source == "cli" && forall i | 0 <= i < c :: user[i].source != "cli"
    ensures FirstCli(user) == user[c].values
  {
    FirstCliIndexIs(user, c);
  }

  /** The entry of a key: the last of its chain, and the chain. */
  ghost predicate Decided(mode: Mode, policies: map<string, Policy>, defaults: seq<Layer>, ckpt: Option<Layer>, user: seq<Layer>,
                          k: string, e: Entry)
  {
    && k in policies
    && var chain := Chain(mode, policies[k], defaults, ckpt, user, k); chain != [] && e == EntryOf(chain)
  }

  /** What a resolved run is. */
  ghost predicate Resolves(mode: Mode, strict: bool, policies: map<string, Policy>, defaults: seq<Layer>, ckpt: Option<Layer>,
                           user: seq<Layer>, run: Run)
    requires defaults != []
  {
    var keys := defaults[0].values;
    && run.mode == mode
    && (forall k :: k in run.provenance <==> Get(keys, k).Some?)
    && forall k | k in run.provenance :: Decided(mode, policies, defaults, ckpt, user, k, run.provenance[k])
  }

  predicate KeyRefused(mode: Mode, strict: bool, policies: map<string, Policy>, ckpt: Option<Layer>, user: seq<Layer>, key: string) {
    key in policies && AnyForbidden(mode, strict, policies[key], ckpt, user, key)
  }

  predicate Refused(mode: Mode, strict: bool, policies: map<string, Policy>, keys: Dict<string, Val>, ckpt: Option<Layer>, user: seq<Layer>) {
    exists i :: 0 <= i < |keys| && KeyRefused(mode, strict, policies, ckpt, user, keys[i].0)
  }

  lemma {:induction false} KeyIsListed(d: Dict<string, Val>, i: nat)
    requires i < |d|
    ensures Get(d, d[i].0).Some?
  {
    if i < |d| - 1 {
      assert d[..|d| - 1][i] == d[i];
      KeyIsListed(d[..|d| - 1], i);
    }
  }

  lemma FirstLayerStarts(mode: Mode, pol: Policy, defaults: seq<Layer>, ckpt: Option<Layer>, user: seq<Layer>, key: string)
    requires defaults != [] && Get(defaults[0].values, key).Some?
    ensures Chain(mode, pol, defaults, ckpt, user, key) != []
  {
    LinksStart(defaults, key);
  }

  lemma {:induction false} LinksStart(layers: seq<Layer>, key: string)
    requires layers != [] && LinkOf(layers[0], key).Some?
    ensures Links(layers, key) != []
  {
    if |layers| > 1 {
      LinksStart(layers[..|layers| - 1], key);
    }
  }

  method DecideKey(mode: Mode, strict: bool, policies: map<string, Policy>, defaults: seq<Layer>, ckpt: Option<Layer>, user: seq<Layer>, key: string)
    returns (e: Option<Entry>)
    requires defaults != [] && key in policies && Get(defaults[0].values, key).Some?
    ensures e.None? <==> KeyRefused(mode, strict, policies, ckpt, user, key)
    ensures e.Some? ==> Decided(mode, policies, defaults, ckpt, user, key, e.value)
  {
    hide AnyForbidden, Chain;
    var chain := ResolveKey(mode, strict, policies[key], defaults, ckpt, user, key);
    if chain.None? {
      return None;
    }
    FirstLayerStarts(mode, policies[key], defaults, ckpt, user, key);
    return Some(EntryOf(chain.value));
  }

  /** Every key, in the order of the first defaults layer. */
  method DecideKeys(mode: Mode, strict: bool, policies: map<string, Policy>, defaults: seq<Layer>, ckpt: Option<Layer>, user: seq<Layer>)
    returns (provenance: Option<map<string, Entry>>)
    requires defaults != [] && forall i | 0 <= i < |defaults[0].values| :: defaults[0].values[i].0 in policies
    ensures provenance.None? <==> Refused(mode, strict, policies, defaults[0].values, ckpt, user)
    ensures provenance.Some? ==>
      && (forall k :: k in provenance.value <==> Get(defaults[0].values, k).Some?)
      && forall k | k in provenance.value :: Decided(mode, policies, defaults, ckpt, user, k, provenance.value[k])
  {
    hide KeyRefused, Decided;
    var keys := defaults[0].values;
    var done: map<string, Entry> := map[];
    for i := 0 to |keys|
      invariant forall k :: k in done <==> Get(keys[..i], k).Some?
      invariant forall j | 0 <= j < i :: !KeyRefused(mode, strict, policies, ckpt, user, keys[j].0)
      invariant forall k | k in done :: Decided(mode, policies, defaults, ckpt, user, k, done[k])
    {
      var key := keys[i].0;
      KeyIsListed(keys, i);
      var e := DecideKey(mode, strict, policies, defaults, ckpt, user, key);
      if e.None? {
        return None;
      }
      done := done[key := e.value];
      assert keys[..i + 1][..i] == keys[..i];
    }
    assert keys[..|keys|] == keys;
    return Some(done);
  }

  lemma KeysHavePolicies(mode: Mode, policies: map<string, Policy>, defaults: seq<Layer>, ckpt: Option<Layer>, user: seq<Layer>)
    requires defaults != [] && WellFormed(mode, policies, defaults, ckpt, user)
    ensures forall i | 0 <= i < |defaults[0].values| :: defaults[0].values[i].0 in policies
    ensures ckpt.None? <==> mode.Fresh?
  {
    hide GivenTwice, SetsUnknown;
  }

  // --- the table, read off the inputs ------------------------------------------------------------------------------------------

  /** The mode takes the key from the checkpoint and lets no user change it. */
  predicate CkptFixes(mode: Mode, pol: Policy) {
    || (mode.Resume? && (pol.scope.Arch? || (pol.scope.Experiment? && !pol.resumeMutable)))
    || (mode.Eval? && (pol.scope.Arch? || (pol.scope.Experiment? && !pol.evalOverride)))
    || (mode.InitCkpt? && pol.scope.Arch?)
  }

  /** Where the checkpoint's value of a key comes from: written in it, or estimated on loading. */
  predicate Recorded(ckpt: Layer, key: string) {
    var source := if key in ckpt.sources then ckpt.sources[key] else ckpt.source;
    source != "legacy" && !("legacy:" <= source)
  }

  /** The layer gives a key stored in the checkpoint another value, where the mode fixes the key. */
  predicate Breaks(mode: Mode, strict: bool, pol: Policy, ckpt: Option<Layer>, l: Layer, key: string) {
    && key !in PROCESS_OPTIONS && ckpt.Some? && Get(ckpt.value.values, key).Some? && Get(l.values, key).Some?
    && !SameValue(Get(l.values, key).value, Get(ckpt.value.values, key).value)
    && CkptFixes(mode, pol) && (mode.InitCkpt? ==> strict || Recorded(ckpt.value, key))
  }

  predicate SomeLayerBreaks(mode: Mode, strict: bool, policies: map<string, Policy>, keys: Dict<string, Val>, ckpt: Option<Layer>,
                            user: seq<Layer>)
  {
    exists i, j :: 0 <= i < |keys| && keys[i].0 in policies && 0 <= j < |user|
                   && Breaks(mode, strict, policies[keys[i].0], ckpt, user[j], keys[i].0)
  }

  lemma ForbiddenIsBreaking(mode: Mode, strict: bool, pol: Policy, ckpt: Option<Layer>, l: Layer, key: string)
    requires ckpt.None? <==> mode.Fresh?
    ensures Breaks(mode, strict, pol, ckpt, l, key) <==> LinkOf(l, key).Some? && Forbidden(mode, strict, pol, ckpt, key, LinkOf(l, key).value)
  {
    hide SameValue, Get;
  }

  lemma RefusedIsBroken(mode: Mode, strict: bool, policies: map<string, Policy>, keys: Dict<string, Val>, ckpt: Option<Layer>, user: seq<Layer>)
    requires ckpt.None? <==> mode.Fresh?
    ensures Refused(mode, strict, policies, keys, ckpt, user) <==> SomeLayerBreaks(mode, strict, policies, keys, ckpt, user)
  {
    forall i, j | 0 <= i < |keys| && keys[i].0 in policies && 0 <= j < |user|
      ensures var key, pol := keys[i].0, policies[keys[i].0];
        Breaks(mode, strict, pol, ckpt, user[j], key)
        <==> LinkOf(user[j], key).Some? && Forbidden(mode, strict, pol, ckpt, key, LinkOf(user[j], key).value)
    {
      ForbiddenIsBreaking(mode, strict, policies[keys[i].0], ckpt, user[j], keys[i].0);
    }
    hide Breaks, LinkOf, Forbidden;
    if i, j :| 0 <= i < |keys| && keys[i].0 in policies && 0 <= j < |user| && Breaks(mode, strict, policies[keys[i].0], ckpt, user[j], keys[i].0) {
      assert KeyRefused(mode, strict, policies, ckpt, user, keys[i].0);
    }
  }

  /** `resolve`: None when a check fails or the table refuses a user value. */
  method ResolveConfig(mode: Mode, strict: bool, policies: map<string, Policy>, defaults: seq<Layer>, ckpt: Option<Layer>, user: seq<Layer>)
    returns (run: Option<Run>)
    requires defaults != []
    ensures run.None? <==>
      !WellFormed(mode, policies, defaults, ckpt, user) || SomeLayerBreaks(mode, strict, policies, defaults[0].values, ckpt, user)
    ensures run.Some? ==> Resolves(mode, strict, policies, defaults, ckpt, user, run.value)
  {
    hide WellFormed, Refused, SomeLayerBreaks, Decided, Get;
    if !WellFormed(mode, policies, defaults, ckpt, user) {
      return None;
    }
    KeysHavePolicies(mode, policies, defaults, ckpt, user);
    RefusedIsBroken(mode, strict, policies, defaults[0].values, ckpt, user);
    var provenance := DecideKeys(mode, strict, policies, defaults, ckpt, user);
    if provenance.None? {
      return None;
    }
    return Some(Run(mode, provenance.value));
  }
}
