/** The table-driven migration of rule files: `_legacy_fill`. */
module LegacyFill {
  import opened Decimal
  import opened Dicts

  /** A parsed YAML value; every non-mapping but null is a scalar here. */
  datatype Yaml = Null | Scalar(text: string) | Map(entries: Dict<string, Yaml>)

  datatype Progress = Progress(out: Dict<string, Yaml>, keys: seq<string>)

  const STAR := "*"

  function Remove(d: Dict<string, Yaml>, k: string): Dict<string, Yaml> {
    if d == [] then []
    else if d[|d| - 1].0 == k then d[..|d| - 1]
    else Remove(d[..|d| - 1], k) + [d[|d| - 1]]
  }

  function KeysOf(d: Dict<string, Yaml>): (ks: seq<string>)
    ensures |ks| == |d| && forall i | 0 <= i < |d| :: ks[i] == d[i].0
  {
    seq(|d|, i requires 0 <= i < |d| => d[i].0)
  }

  predicate IsTable(value: Yaml) { value.Map? && value.entries != [] }

  predicate IsCollection(value: Yaml) { value.Map? && Get(value.entries, STAR).Some? }

  /** One table entry applied to one key. */
  function Step(p: Progress, star: bool, value: Yaml, target: string, prefix: string): Progress
    decreases value, 2
  {
    if IsTable(value) then
      var p1 := if IsCollection(value) && Get(p.out, target).None? then Progress(Put(p.out, target, Map([])), p.keys + [prefix + target]) else p;
      if Get(p1.out, target).None? then p1 else
        var entry := if star && Get(p1.out, target) == Some(Null) then Map([]) else Get(p1.out, target).value;
        var (filled, sub) := Fill(entry, value, prefix + target + ".");
        Progress(Put(p1.out, target, filled), p1.keys + sub)
    else if value.Null? then
      if Get(p.out, target).Some? then Progress(Remove(p.out, target), p.keys + [prefix + target]) else p
    else if Get(p.out, target).None? then Progress(Put(p.out, target, value), p.keys + [prefix + target])
    else p
  }

  /** `"*"`: the entry applied to the first `m` keys listed beforehand. */
  function StarSteps(p: Progress, value: Yaml, targets: seq<string>, m: nat, prefix: string): Progress
    requires m <= |targets|
    decreases value, 3, m
  {
    if m == 0 then p else Step(StarSteps(p, value, targets, m - 1, prefix), true, value, targets[m - 1], prefix)
  }

  /** The first `n` entries of a table. */
  function FillUpTo(raw: Dict<string, Yaml>, table: Yaml, n: nat, prefix: string): Progress
    requires table.Map? && n <= |table.entries|
    decreases table, 0, n
  {
    if n == 0 then Progress(raw, []) else
      var p := FillUpTo(raw, table, n - 1, prefix);
      var (key, value) := table.entries[n - 1];
      if key == STAR then StarSteps(p, value, KeysOf(p.out), |KeysOf(p.out)|, prefix)
      else Step(p, false, value, key, prefix)
  }

  /** A copy of `raw` migrated by `table`, and the dotted names of the keys it changed. */
  function Fill(raw: Yaml, table: Yaml, prefix: string): (Yaml, seq<string>)
    decreases table, 1
  {
    if !raw.Map? || !table.Map? then (raw, []) else
      var p := FillUpTo(raw.entries, table, |table.entries|, prefix);
      (Map(p.out), p.keys)
  }

  /** `_legacy_fill` */
  method ApplyLegacyFill(raw: Yaml, table: Yaml, prefix: string) returns (out: Yaml, keys: seq<string>)
    ensures (out, keys) == Fill(raw, table, prefix)
    decreases table
  {
    if !raw.Map? || !table.Map? {
      return raw, [];
    }
    var d := raw.entries;
    keys := [];
    for n := 0 to |table.entries|
      invariant Progress(d, keys) == FillUpTo(raw.entries, table, n, prefix)
    {
      var (key, value) := table.entries[n];
      assert table.entries[n].1 == value;
      var targets := if key == STAR then KeysOf(d) else [key];
      ghost var before := Progress(d, keys);
      for m := 0 to |targets|
        invariant Progress(d, keys) ==
          if key == STAR then StarSteps(before, value, targets, m, prefix)
          else if m == 0 then before else Step(before, false, value, key, prefix)
      {
        var target := targets[m];
        if IsTable(value) {
          if IsCollection(value) && Get(d, target).None? {
            d := Put(d, target, Map([]));
            keys := keys + [prefix + target];
          }
          if Get(d, target).Some? {
            var entry := if key == STAR && Get(d, target) == Some(Null) then Map([]) else Get(d, target).value;
            var filled, sub := ApplyLegacyFill(entry, value, prefix + target + ".");
            d := Put(d, target, filled);
            keys := keys + sub;
          }
        } else if value.Null? {
          if Get(d, target).Some? {
            d := Remove(d, target);
            keys := keys + [prefix + target];
          }
        } else if Get(d, target).None? {
          d := Put(d, target, value);
          keys := keys + [prefix + target];
        }
      }
    }
    out := Map(d);
  }
}
