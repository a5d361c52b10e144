/** What a resolved run guarantees about its checkpoint. */
module ResolveLaws {
  import opened Decimal
  import opened Dicts
  import FloatText
  import opened PyValues
  import opened CkptConfig
  import opened Resolve

  // --- pinned keys ------------------------------------------------------------------------------------------------------------

  lemma {:induction false} LastLink(layers: seq<Layer>, key: string)
    requires Links(layers, key) != []
    ensures exists i :: 0 <= i < |layers| && LinkOf(layers[i], key) == Some(Links(layers, key)[|Links(layers, key)| - 1])
  {
    var init := layers[..|layers| - 1];
    if LinkOf(layers[|layers| - 1], key).None? {
      LastLink(init, key);
      var i :| 0 <= i < |init| && LinkOf(init[i], key) == Some(Links(init, key)[|Links(init, key)| - 1]);
      assert layers[i] == init[i];
    }
  }

  lemma SameAsItself(v: Val)
    ensures SameValue(v, v)
  {
  }

  lemma LastOfThree(a: seq<Link>, b: seq<Link>, c: seq<Link>)
    requires a != []
    ensures var all := a + b + c;
      all[|all| - 1] == if c != [] then c[|c| - 1] else if b != [] then b[|b| - 1] else a[|a| - 1]
  {
  }

  /** The checkpoint's say: on every stored key but the process options, and on arch keys only in a run from an
      initial checkpoint. */
  ghost function KeptLinks(mode: Mode, pol: Policy, ckpt: Option<Layer>, key: string): seq<Link> {
    if ckpt.None? || Get(ckpt.value.values, key).None? || key in PROCESS_OPTIONS || (mode.InitCkpt? && !pol.scope.Arch?) then []
    else
      var l := ckpt.value;
      [Link(if key in l.sources then l.sources[key] else l.source, Get(l.values, key).value,
            if key in l.wheres then l.wheres[key] else l.source)]
  }

  lemma KeptIs(mode: Mode, pol: Policy, ckpt: Option<Layer>, key: string)
    ensures Kept(mode, pol, ckpt, key) == KeptLinks(mode, pol, ckpt, key)
  {
  }

  /** The recorded chain is every layer that set the key, in order, and the entry is its last link: the user's
      last word if there is one, else the pinned checkpoint value, else the last default. */
  lemma LastLayerDecides(mode: Mode, strict: bool, policies: map<string, Policy>, defaults: seq<Layer>, ckpt: Option<Layer>,
                         user: seq<Layer>, run: Run, key: string)
    requires defaults != [] && Resolves(mode, strict, policies, defaults, ckpt, user, run) && key in run.provenance
    ensures key in policies && Links(defaults, key) != []
    ensures var e, own, kept := run.provenance[key], Links(user, key), KeptLinks(mode, policies[key], ckpt, key);
      && e.chain == Links(defaults, key) + kept + own
      && Link(e.source, e.value, e.place) ==
           (if own != [] then own[|own| - 1]
            else if kept != [] then kept[|kept| - 1]
            else Links(defaults, key)[|Links(defaults, key)| - 1])
  {
    LinksStart(defaults, key);
    assert Decided(mode, policies, defaults, ckpt, user, key, run.provenance[key]);
    KeptIs(mode, policies[key], ckpt, key);
    hide Links, Kept, KeptLinks, LinkOf, Resolves, Get;
    LastOfThree(Links(defaults, key), Kept(mode, policies[key], ckpt, key), Links(user, key));
  }

  /** Some user layer set the key to this value. */
  ghost predicate SetByUser(user: seq<Layer>, key: string, v: Val) {
    exists i :: 0 <= i < |user| && Get(user[i].values, key) == Some(v)
  }

  /** A stored key that the mode fixes ends equal, as a setting, to the checkpoint's value; the one exception is an arch
      key whose value the checkpoint does not record, overridden by the user in a run from an initial checkpoint that
      is not strict. */
  lemma PinnedKeysHold(mode: Mode, strict: bool, policies: map<string, Policy>, defaults: seq<Layer>, ckpt: Layer,
                       user: seq<Layer>, run: Run, key: string)
    requires defaults != [] && Resolves(mode, strict, policies, defaults, Some(ckpt), user, run) && key in run.provenance
    requires !SomeLayerBreaks(mode, strict, policies, defaults[0].values, Some(ckpt), user)
    requires key in policies && key !in PROCESS_OPTIONS && Get(ckpt.values, key).Some?
    requires CkptFixes(mode, policies[key])
    ensures var e := run.provenance[key];
      || SameValue(e.value, Get(ckpt.values, key).value)
      || (mode.InitCkpt? && !strict && !Recorded(ckpt, key) && SetByUser(user, key, e.value))
  {
    hide *;
    LastLayerDecides(mode, strict, policies, defaults, Some(ckpt), user, run, key);
    ResolvedKeyIsListed(mode, strict, policies, defaults, Some(ckpt), user, run, key);
    KeptIsStored(mode, policies[key], ckpt, key);
    var own := Links(user, key);
    SameAsItself(Get(ckpt.values, key).value);
    if own != [] {
      LastLink(user, key);
      var i :| 0 <= i < |user| && LinkOf(user[i], key) == Some(own[|own| - 1]);
      LayerSets(user, key, i);
      NothingBreaks(mode, strict, policies, defaults[0].values, ckpt, user, key, i);
    }
  }

  lemma KeptIsStored(mode: Mode, pol: Policy, ckpt: Layer, key: string)
    requires key !in PROCESS_OPTIONS && Get(ckpt.values, key).Some? && CkptFixes(mode, pol)
    ensures var kept := KeptLinks(mode, pol, Some(ckpt), key); |kept| == 1 && kept[0].value == Get(ckpt.values, key).value
  {
  }

  lemma LayerSets(user: seq<Layer>, key: string, i: nat)
    requires i < |user| && LinkOf(user[i], key).Some?
    ensures Get(user[i].values, key) == Some(LinkOf(user[i], key).value.value)
    ensures SetByUser(user, key, LinkOf(user[i], key).value.value)
  {
  }

  /** What a layer may say of a fixed key. */
  lemma NothingBreaks(mode: Mode, strict: bool, policies: map<string, Policy>, keys: Dict<string, Val>, ckpt: Layer,
                      user: seq<Layer>, key: string, i: nat)
    requires !SomeLayerBreaks(mode, strict, policies, keys, Some(ckpt), user) && Get(keys, key).Some? && key in policies
    requires key !in PROCESS_OPTIONS && Get(ckpt.values, key).Some? && i < |user| && Get(user[i].values, key).Some?
    requires CkptFixes(mode, policies[key])
    ensures || SameValue(Get(user[i].values, key).value, Get(ckpt.values, key).value)
            || (mode.InitCkpt? && !strict && !Recorded(ckpt, key))
  {
    GotIsEntry(keys, key);
    assert !Breaks(mode, strict, policies[key], Some(ckpt), user[i], key);
    hide SameValue, Recorded, Get;
  }

  lemma ResolvedKeyIsListed(mode: Mode, strict: bool, policies: map<string, Policy>, defaults: seq<Layer>, ckpt: Option<Layer>,
                            user: seq<Layer>, run: Run, key: string)
    requires defaults != [] && Resolves(mode, strict, policies, defaults, ckpt, user, run) && key in run.provenance
    ensures Get(defaults[0].values, key).Some?
  {
    hide Get, Decided;
  }

  // --- writing a checkpoint and resuming -------------------------------------------------------------------------------------------

  /** The run's values as a checkpoint layer: `ckpt_config`, loaded back. */
  ghost predicate CheckpointOf(run: Run, ckpt: Layer) {
    forall k :: (k in run.provenance <==> Get(ckpt.values, k).Some?)
                && (k in run.provenance ==> Get(ckpt.values, k) == Some(run.provenance[k].value))
  }

  lemma {:induction false} NoUserLinks(key: string)
    ensures Links([], key) == []
  {
  }

  /** Resuming what a run wrote, with nothing said by the user, gives every key its value again, but for the
      options that steer the process. */
  lemma ResumeReproduces(mode: Mode, strict: bool, policies: map<string, Policy>, defaults: seq<Layer>, ckpt: Option<Layer>,
                         user: seq<Layer>, run: Run, defaults': seq<Layer>, strict': bool, wrote: Layer, resumed: Run, key: string)
    requires defaults != [] && Resolves(mode, strict, policies, defaults, ckpt, user, run)
    requires defaults' != [] && Resolves(Resume, strict', policies, defaults', Some(wrote), [], resumed)
    requires CheckpointOf(run, wrote) && key in run.provenance && key in resumed.provenance && key !in PROCESS_OPTIONS
    ensures resumed.provenance[key].value == run.provenance[key].value
  {
    assert LinkOf(wrote, key).value.value == run.provenance[key].value;
    LastLayerDecides(Resume, strict', policies, defaults', Some(wrote), [], resumed, key);
    NoUserLinks(key);
    hide Resolves, Links;
  }

  // --- equality as a setting --------------------------------------------------------------------------------------------------------

  /** Off is no number: its spellings equal each other and nothing else, zero included.  A number equals its print. */
  lemma OffIsNoNumber(a: Val, b: Val, n: int)
    ensures a in {Nil, Flag(false), Text(""), Text("none"), Text("off")} ==>
      (SameValue(a, b) <==> b in {Nil, Flag(false), Text(""), Text("none"), Text("off")})
    ensures SameValue(Num(n), Text(PrintInt(n))) && SameValue(Text(PrintInt(n)), Num(n)) && !SameValue(Num(n), Flag(false)) && !SameValue(Num(n), Nil)
  {
    PrintIsOn(n);
    hide PrintInt;
  }

  lemma PrintIsOn(n: int)
    ensures PrintInt(n) != "" && PrintInt(n) != "none" && PrintInt(n) != "off"
  {
    ParsePrintInt(n);
    assert ParseInt("none").None? && ParseInt("off").None? && ParseInt("").None?;
  }

  // --- equality as a setting does not chain -------------------------------------------------------------------------------------------

  /** `a` and `b` are equal but print differently, and `c` is the text that `b` prints as. */
  predicate PrintGap(a: Val, b: Val, c: Val) {
    !a.Text? && !b.Text? && PyEq(a, b) && Str(a) != Str(b) && c == Text(Str(b))
  }

  lemma OffPrints(b: Val)
    requires IsOff(b) && !b.Text?
    ensures !IsOff(Text(Str(b)))
  {
    assert "None"[0] == 'N' && "False"[0] == 'F';
  }

  /** Equality as a setting chains through every middle but one: a value other than a text, with an equal
      value of another print at one end and its own print at the other. */
  lemma ChainsUnlessAPrintMeetsAnEqual(a: Val, b: Val, c: Val)
    requires SameValue(a, b) && SameValue(b, c)
    ensures !SameValue(a, c) <==> PrintGap(a, b, c) || PrintGap(c, b, a)
  {
    hide Repr, ItemsFrom, NumberIn;
    if IsOff(b) {
      if !b.Text? { OffPrints(b); }
    } else {
      if PyEq(a, b) { Symmetric(a, b); TextEqualsItself(a, b); }
      if PyEq(b, c) { Symmetric(b, c); TextEqualsItself(b, c); }
      if PyEq(a, b) && PyEq(b, c) { Transitive(a, b, c); }
      if !a.Text? && !b.Text? && Str(a) == Str(b) { PrintTells(a, b); }
      if !b.Text? && !c.Text? && Str(b) == Str(c) { PrintTells(b, c); }
      if !a.Text? && !c.Text? && Str(a) == Str(c) { PrintTells(a, c); }
      if PyEq(a, c) { TextEqualsItself(a, c); }
    }
  }

  predicate Simple(v: Val) { v.Nil? || v.Flag? || v.Num? || v.Text? }

  /** `"True"`, `True`, `1`, `"1"`: each equals its neighbours only. */
  predicate Apart(a: Val, b: Val, c: Val) {
    || (b == Flag(true) && ((a == Text("True") && c == Num(1)) || (a == Num(1) && c == Text("True"))))
    || (b == Num(1) && ((a == Flag(true) && c == Text("1")) || (a == Text("1") && c == Flag(true))))
  }

  lemma {:induction false} NormIsOne(n: int, e: nat)
    ensures FloatText.Norm(n, e) == FloatText.Dec(1, 0) <==> n == 1 && e == 0
    ensures FloatText.Norm(n, e) == FloatText.Dec(0, 0) <==> n == 0
    decreases if n < 0 then -n else n
  {
    if n != 0 && n % 10 == 0 { NormIsOne(n / 10, e + 1); }
  }

  /** Integers that are equal as numbers are equal. */
  lemma {:induction false} NormTells(m: int, n: int, e: int)
    requires FloatText.Norm(m, e) == FloatText.Norm(n, e)
    ensures m == n
    decreases (if m < 0 then -m else m) + (if n < 0 then -n else n)
  {
    NormExponent(m, e);
    NormExponent(n, e);
    if m != 0 && n != 0 && m % 10 == 0 && n % 10 == 0 {
      NormTells(m / 10, n / 10, e + 1);
    } else if m != 0 && m % 10 == 0 {
      NormExponent(m / 10, e + 1);
    } else if n != 0 && n % 10 == 0 {
      NormExponent(n / 10, e + 1);
    }
  }

  lemma {:induction false} NormExponent(m: int, e: int)
    ensures m != 0 ==> FloatText.Norm(m, e).e >= e && FloatText.Norm(m, e).m != 0
    decreases if m < 0 then -m else m
  {
    if m != 0 && m % 10 == 0 { NormExponent(m / 10, e + 1); }
  }

  /** Among flags and integers two equal values print differently only as a flag and its number. */
  lemma EqualSimple(a: Val, b: Val)
    requires Simple(a) && Simple(b) && !a.Text? && !b.Text? && PyEq(a, b) && a != b
    ensures (a == Flag(true) && b == Num(1)) || (a == Num(1) && b == Flag(true)) || (a == Flag(false) && b == Num(0)) || (a == Num(0) && b == Flag(false))
  {
    if a.Num? { NormIsOne(a.n, 0); }
    if b.Num? { NormIsOne(b.n, 0); }
    if a.Num? && b.Num? { NormTells(a.n, b.n, 0); }
  }

  lemma OneAndTrue()
    ensures Str(Num(1)) == "1" && Str(Flag(true)) == "True" && PyEq(Flag(true), Num(1)) && PyEq(Num(1), Flag(true))
  {
    assert Print(1) == [DigitChar(1)];
  }

  /** For flags, integers and texts that gap is the one between the spellings of a flag and the number one:
      `"True"` equals `True` and `True` equals `1`, but `"True"` does not equal `1`. */
  lemma ChainsExceptForOne(a: Val, b: Val, c: Val)
    requires Simple(a) && Simple(b) && Simple(c) && SameValue(a, b) && SameValue(b, c)
    ensures !SameValue(a, c) <==> Apart(a, b, c)
  {
    ChainsUnlessAPrintMeetsAnEqual(a, b, c);
    OneAndTrue();
    if PrintGap(a, b, c) { EqualSimple(a, b); }
    if PrintGap(c, b, a) { EqualSimple(c, b); }
    assert "1" != "True" by { assert |"1"| == 1; }
    hide Repr, PyEq;
  }

  const FORTY_FIVE: FloatText.Float := FloatText.Dec(45, 0)

  lemma FloatPrint()
    ensures Str(Real(FORTY_FIVE)) == "45.0" && Str(Num(45)) == "45" && PyEq(Real(FORTY_FIVE), Num(45))
  {
    assert Print(4) == "4" && Print(45) == Print(4) + [DigitChar(5)];
    assert Print(45) == "45";
    assert FloatText.Zeros(0) == "";
  }

  lemma ListPrint()
    ensures Str(List([Flag(true)])) == "[True]" && Str(List([Num(1)])) == "[1]" && PyEq(List([Flag(true)]), List([Num(1)]))
  {
    OneAndTrue();
    assert ItemsFrom(List([Flag(true)]), 0) == "True" + "]";
    assert ItemsFrom(List([Num(1)]), 0) == "1" + "]";
  }

  /** Floats and lists have the gap too: `"45.0"` is `45.0` and `45.0` is `45`, `"[True]"` is `[True]` and that is `[1]`. */
  lemma FloatsAndListsHaveTheGap()
    ensures var t, x, n := Text("45.0"), Real(FORTY_FIVE), Num(45); SameValue(t, x) && SameValue(x, n) && !SameValue(t, n)
    ensures var t, x, n := Text("[True]"), List([Flag(true)]), List([Num(1)]); SameValue(t, x) && SameValue(x, n) && !SameValue(t, n)
  {
    FloatPrint();
    ListPrint();
    assert "45.0" != "45" by { assert |"45"| == 2; }
    assert "[True]" != "[1]" by { assert |"[1]"| == 3; }
    assert "45.0"[0] == '4' && "[True]"[0] == '[';
    hide Repr, PyEq;
  }
}
