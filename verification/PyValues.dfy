/** The values a configuration holds: Python's `==`, `str`, `int` and truth of them. */
module PyValues {
  import opened Decimal
  import FloatText

  datatype Val =
    | Nil
    | Flag(b: bool)
    | Num(n: int)
    | Real(x: FloatText.Float)
    | Text(s: string)
    | List(items: seq<Val>)

  predicate Truthy(v: Val) {
    match v
    case Nil => false
    case Flag(b) => b
    case Num(n) => n != 0
    case Real(x) => x.m != 0
    case Text(s) => s != ""
    case List(items) => items != []
  }

  /** What a flag or a number counts as. */
  function NumberIn(v: Val): Option<FloatText.Float> {
    match v
    case Flag(b) => Some(FloatText.Norm(if b then 1 else 0, 0))
    case Num(n) => Some(FloatText.Norm(n, 0))
    case Real(x) => Some(x)
    case _ => None
  }

  /** `==`: flags, integers and floats are compared as numbers, lists item by item. */
  predicate PyEq(a: Val, b: Val) {
    if NumberIn(a).Some? || NumberIn(b).Some? then NumberIn(a) == NumberIn(b)
    else if a.List? && b.List? then |a.items| == |b.items| && forall i | 0 <= i < |a.items| :: PyEq(a.items[i], b.items[i])
    else a == b
  }

  /** `n` divided by ten `k` times, cut off towards zero. */
  function Cut(n: nat, k: nat): nat { if k == 0 then n else Cut(n / 10, k - 1) }

  function Tens(n: int, k: nat): int
    decreases k
  {
    if k == 0 then n else Tens(10 * n, k - 1)
  }

  /** `int(x)` of a float. */
  function Truncated(x: FloatText.Float): int {
    if x.e >= 0 then Tens(x.m, x.e) else if x.m < 0 then 0 - Cut(0 - x.m, 0 - x.e) else Cut(x.m, 0 - x.e)
  }

  /** `int(v)`; None raises. */
  function IntOf(v: Val): Option<int> {
    match v
    case Num(n) => Some(n)
    case Flag(b) => Some(if b then 1 else 0)
    case Real(x) => Some(Truncated(x))
    case Text(s) => ParseInt(s)
    case Nil => None
    case List(_) => None
  }

  /** A value counts as false exactly when it is none, equals zero, or is empty. */
  lemma FalseIsZeroOrEmpty(v: Val)
    ensures !Truthy(v) <==> v == Nil || PyEq(v, Num(0)) || v == Text("") || v == List([])
  {
    if v.Num? && v.n != 0 { NormIsZero(v.n, 0); }
  }

  lemma {:induction false} NormIsZero(m: int, e: int)
    ensures FloatText.Norm(m, e).m == 0 <==> m == 0
    decreases if m < 0 then -m else m
  {
    if m != 0 && m % 10 == 0 { NormIsZero(m / 10, e + 1); }
  }

  /** `int` of an integer, of its print and of the float equal to it is the integer. */
  lemma IntReads(n: int)
    ensures IntOf(Num(n)) == Some(n) && IntOf(Text(PrintInt(n))) == Some(n) && IntOf(Real(FloatText.Norm(n, 0))) == Some(n)
  {
    ParsePrintInt(n);
    NormScales(n, 0);
  }

  lemma {:induction false} NormScales(m: int, e: nat)
    ensures FloatText.Norm(m, e).e >= 0 && (m != 0 ==> Tens(FloatText.Norm(m, e).m, FloatText.Norm(m, e).e) == Tens(m, e))
    ensures m == 0 ==> FloatText.Norm(m, e) == FloatText.Dec(0, 0)
    decreases if m < 0 then -m else m
  {
    if m != 0 && m % 10 == 0 {
      NormScales(m / 10, e + 1);
      assert m == 10 * (m / 10);
    }
  }

  // --- str and repr -------------------------------------------------------------------------------------------------------

  function Escaped(c: char, quote: char): string {
    if c == '\\' || c == quote then ['\\', c]
    else if c == '\n' then ['\\', 'n']
    else if c == '\r' then ['\\', 'r']
    else if c == '\t' then ['\\', 't']
    else [c]
  }

  function EscapedAll(s: string, quote: char): string {
    if s == "" then "" else Escaped(s[0], quote) + EscapedAll(s[1..], quote)
  }

  function QuoteFor(s: string): char { if '\'' in s && '"' !in s then '"' else '\'' }

  /** `repr(v)`, as `str` of a list prints its items. */
  function Repr(v: Val): string
    decreases v, if v.List? then |v.items| + 1 else 0
  {
    match v
    case Nil => "None"
    case Flag(b) => if b then "True" else "False"
    case Num(n) => PrintInt(n)
    case Real(x) => FloatText.Text(x)
    case Text(s) => [QuoteFor(s)] + EscapedAll(s, QuoteFor(s)) + [QuoteFor(s)]
    case List(_) => "[" + ItemsFrom(v, 0)
  }

  /** The items from the `i`th on, and the closing bracket. */
  function ItemsFrom(v: Val, i: nat): string
    requires v.List? && i <= |v.items|
    decreases v, |v.items| - i
  {
    if i == |v.items| then "]"
    else Repr(v.items[i]) + if i + 1 == |v.items| then "]" else ", " + ItemsFrom(v, i + 1)
  }

  /** `str(v)` */
  function Str(v: Val): string { if v.Text? then v.s else Repr(v) }

  // --- == is an equivalence ---------------------------------------------------------------------------------------------

  lemma {:induction false} Reflexive(a: Val)
    ensures PyEq(a, a)
  {
    if a.List? {
      forall i | 0 <= i < |a.items| ensures PyEq(a.items[i], a.items[i]) { Reflexive(a.items[i]); }
    }
  }

  lemma {:induction false} Symmetric(a: Val, b: Val)
    requires PyEq(a, b)
    ensures PyEq(b, a)
  {
    if a.List? && b.List? {
      forall i | 0 <= i < |a.items| ensures PyEq(b.items[i], a.items[i]) { Symmetric(a.items[i], b.items[i]); }
    }
  }

  lemma {:induction false} Transitive(a: Val, b: Val, c: Val)
    requires PyEq(a, b) && PyEq(b, c)
    ensures PyEq(a, c)
  {
    if a.List? && b.List? && c.List? {
      forall i | 0 <= i < |a.items| ensures PyEq(a.items[i], c.items[i]) { Transitive(a.items[i], b.items[i], c.items[i]); }
    }
  }

  /** Two values that are equal as texts or not at all: a text equals itself only. */
  lemma TextEqualsItself(a: Val, b: Val)
    requires PyEq(a, b)
    ensures a.Text? || b.Text? ==> a == b
  {
  }

  // --- a print tells its value ------------------------------------------------------------------------------------------

  /** What may follow an item: nothing, or a comma, or the closing bracket. */
  predicate Stops(r: string) { r == "" || r[0] == ',' || r[0] == ']' }

  predicate Plain(s: string) { ',' !in s && ']' !in s }

  lemma PlainDoesNotStop(b: string, t: string)
    ensures b != "" && Plain(b) ==> !Stops(b + t)
  {
    if b != "" { assert (b + t)[0] == b[0]; }
  }

  lemma {:induction false} CutAtStop(a: string, b: string, r: string, t: string)
    requires Plain(a) && Plain(b) && Stops(r) && Stops(t) && a + r == b + t
    ensures a == b && r == t
    decreases |a|
  {
    PlainDoesNotStop(a, r);
    PlainDoesNotStop(b, t);
    if a == "" || b == "" {
      assert "" + r == r && "" + t == t;
    } else {
      assert (a + r)[0] == a[0] && (b + t)[0] == b[0];
      assert (a + r)[1..] == a[1..] + r && (b + t)[1..] == b[1..] + t;
      CutAtStop(a[1..], b[1..], r, t);
      assert a == [a[0]] + a[1..] && b == [b[0]] + b[1..];
    }
  }

  lemma IntLooks(n: int)
    ensures PrintInt(n) != "" && (IsDigit(PrintInt(n)[0]) || PrintInt(n)[0] == '-')
    ensures Plain(PrintInt(n)) && '.' !in PrintInt(n) && 'e' !in PrintInt(n)
  {
    ParsePrint(if n < 0 then 0 - n else n);
    FloatText.DigitsAvoid(Print(if n < 0 then 0 - n else n));
  }

  predicate Scalar(v: Val) { !v.Text? && !v.List? }

  lemma ScalarLooks(v: Val)
    requires Scalar(v)
    ensures Plain(Repr(v)) && Repr(v) != "" && Repr(v)[0] !in {'[', '\'', '"', ',', ']'}
    ensures v.Nil? <==> Repr(v)[0] == 'N'
    ensures v.Flag? && v.b <==> Repr(v)[0] == 'T'
    ensures v.Flag? && !v.b <==> Repr(v)[0] == 'F'
    ensures v.Real? ==> '.' in Repr(v) || 'e' in Repr(v)
    ensures v.Num? ==> '.' !in Repr(v) && 'e' !in Repr(v)
  {
    if v.Num? {
      IntLooks(v.n);
    } else if v.Real? {
      FloatText.TextLooks(v.x);
    }
  }

  lemma ScalarPrint(v: Val, w: Val)
    requires Scalar(v) && Scalar(w) && Repr(v) == Repr(w)
    ensures v == w
  {
    ScalarLooks(v);
    ScalarLooks(w);
    if v.Num? && w.Num? {
      ParsePrintInt(v.n);
      ParsePrintInt(w.n);
    } else if v.Real? && w.Real? {
      FloatText.ReadText(v.x);
      FloatText.ReadText(w.x);
    }
  }

  lemma FirstChar(v: Val)
    ensures Repr(v) != "" && (v.List? <==> Repr(v)[0] == '[') && (v.Text? <==> Repr(v)[0] in {'\'', '"'}) && Repr(v)[0] != ']'
  {
    if Scalar(v) { ScalarLooks(v); }
  }

  /** The quoted part ends where the text does. */
  lemma {:induction false} EscapedEnds(s: string, z: string, quote: char, r: string, t: string)
    requires quote in {'\'', '"'}
    requires EscapedAll(s, quote) + [quote] + r == EscapedAll(z, quote) + [quote] + t
    ensures s == z && r == t
    decreases |s|
  {
    EscapedStart(s, quote, r);
    EscapedStart(z, quote, t);
    if s != "" && z != "" {
      var more, most := EscapedAll(s[1..], quote) + [quote] + r, EscapedAll(z[1..], quote) + [quote] + t;
      hide EscapedAll, Escaped;
      EscapedFirst(s[0], z[0], quote, more, most);
      EscapedEnds(s[1..], z[1..], quote, r, t);
      assert s == [s[0]] + s[1..] && z == [z[0]] + z[1..];
    }
  }

  lemma EscapedStart(s: string, quote: char, r: string)
    requires quote in {'\'', '"'}
    ensures var left := EscapedAll(s, quote) + [quote] + r;
      && left != "" && (left[0] == quote <==> s == "")
      && (if s == "" then left[1..] == r else left == Escaped(s[0], quote) + (EscapedAll(s[1..], quote) + [quote] + r))
  {
    if s != "" {
      EscapedChar(s[0], quote);
      var first, rest := Escaped(s[0], quote), EscapedAll(s[1..], quote);
      assert EscapedAll(s, quote) == first + rest;
      hide Escaped, EscapedAll;
      Regroup(first, rest, [quote], r);
    }
  }

  lemma EscapedChar(c: char, quote: char)
    requires quote in {'\'', '"'}
    ensures Escaped(c, quote) != "" && Escaped(c, quote)[0] != quote
  {
  }

  lemma Regroup(a: string, b: string, c: string, d: string)
    requires a != ""
    ensures a + b + c + d == a + (b + c + d) && (a + (b + c + d))[0] == a[0]
  {
  }

  lemma EscapedFirst(c: char, d: char, quote: char, more: string, most: string)
    requires quote in {'\'', '"'} && Escaped(c, quote) + more == Escaped(d, quote) + most
    ensures c == d && more == most
  {
    var left, right := Escaped(c, quote) + more, Escaped(d, quote) + most;
    assert left[0] == right[0];
    assert |Escaped(c, quote)| == 2 <==> left[0] == '\\';
    assert |Escaped(d, quote)| == 2 <==> right[0] == '\\';
    if left[0] == '\\' { assert left[1] == right[1]; }
    assert more == left[|Escaped(c, quote)|..] && most == right[|Escaped(d, quote)|..];
  }

  lemma FirstOfBoth(v: Val, r: string)
    ensures Repr(v) != "" && (Repr(v) + r)[0] == Repr(v)[0]
    ensures (v.List? <==> Repr(v)[0] == '[') && (v.Text? <==> Repr(v)[0] in {'\'', '"'})
    ensures v.List? ==> (Repr(v) + r)[1..] == ItemsFrom(v, 0) + r
  {
    FirstChar(v);
    hide ItemsFrom;
    if !v.List? { hide Repr; }
  }

  lemma ScalarEnds(v: Val, w: Val, r: string, t: string)
    requires Scalar(v) && Scalar(w) && Stops(r) && Stops(t) && Repr(v) + r == Repr(w) + t
    ensures v == w && r == t
  {
    hide Repr;
    ScalarLooks(v);
    ScalarLooks(w);
    CutAtStop(Repr(v), Repr(w), r, t);
    ScalarPrint(v, w);
  }

  lemma {:induction false} ReprEnds(v: Val, w: Val, r: string, t: string)
    requires Stops(r) && Stops(t) && Repr(v) + r == Repr(w) + t
    ensures v == w && r == t
    decreases v, if v.List? then |v.items| + 1 else 0
  {
    hide Repr, ItemsFrom, Stops;
    FirstOfBoth(v, r);
    FirstOfBoth(w, t);
    if Scalar(v) {
      ScalarEnds(v, w, r, t);
    } else if v.Text? {
      TextEnds(v.s, w.s, r, t);
    } else {
      ItemsEnd(v, w, 0, r, t);
    }
  }

  lemma TextEnds(s: string, z: string, r: string, t: string)
    requires Repr(Text(s)) + r == Repr(Text(z)) + t
    ensures s == z && r == t
  {
    var left, right := Repr(Text(s)) + r, Repr(Text(z)) + t;
    assert left[0] == QuoteFor(s) && right[0] == QuoteFor(z);
    assert left[1..] == EscapedAll(s, QuoteFor(s)) + [QuoteFor(s)] + r;
    assert right[1..] == EscapedAll(z, QuoteFor(z)) + [QuoteFor(z)] + t;
    EscapedEnds(s, z, QuoteFor(s), r, t);
  }

  /** What follows the `i`th item. */
  function After(v: Val, i: nat): string
    requires v.List? && i < |v.items|
  {
    if i + 1 == |v.items| then "]" else ", " + ItemsFrom(v, i + 1)
  }

  lemma ItemAndAfter(v: Val, i: nat, r: string)
    requires v.List? && i < |v.items|
    ensures ItemsFrom(v, i) + r == Repr(v.items[i]) + (After(v, i) + r)
  {
    hide Repr;
    assert ItemsFrom(v, i) == Repr(v.items[i]) + After(v, i);
  }

  lemma AfterLooks(v: Val, i: nat, r: string)
    requires v.List? && i < |v.items|
    ensures var after := After(v, i) + r;
      && Stops(after) && after != "" && (after[0] == ']' <==> i + 1 == |v.items|)
      && (if i + 1 == |v.items| then after[1..] == r else |after| >= 2 && after[2..] == ItemsFrom(v, i + 1) + r)
  {
    hide ItemsFrom, Repr;
  }

  /** The closing bracket comes where no item is left. */
  lemma ClosingLooks(v: Val, i: nat, r: string)
    requires v.List? && i <= |v.items|
    ensures var all := ItemsFrom(v, i) + r; all != "" && (all[0] == ']' <==> i == |v.items|) && (i == |v.items| ==> all[1..] == r)
  {
    if i < |v.items| {
      FirstChar(v.items[i]);
      ItemAndAfter(v, i, r);
      hide Repr, After, ItemsFrom;
    }
  }

  lemma {:induction false} ItemsEnd(v: Val, w: Val, i: nat, r: string, t: string)
    requires v.List? && w.List? && i <= |v.items| && i <= |w.items| && v.items[..i] == w.items[..i]
    requires ItemsFrom(v, i) + r == ItemsFrom(w, i) + t && Stops(r) && Stops(t)
    ensures v == w && r == t
    decreases v, |v.items| - i
  {
    hide Repr, ItemsFrom, After, Stops;
    ClosingLooks(v, i, r);
    ClosingLooks(w, i, t);
    if i < |v.items| {
      ItemAndAfter(v, i, r);
      ItemAndAfter(w, i, t);
      AfterLooks(v, i, r);
      AfterLooks(w, i, t);
      ReprEnds(v.items[i], w.items[i], After(v, i) + r, After(w, i) + t);
      OneItemMore(v, w, i);
      if i + 1 < |v.items| {
        ItemsEnd(v, w, i + 1, r, t);
      } else {
        AllItems(v, w);
      }
    } else {
      AllItems(v, w);
    }
  }

  lemma OneItemMore(v: Val, w: Val, i: nat)
    requires v.List? && w.List? && i < |v.items| && i < |w.items|
    requires v.items[..i] == w.items[..i] && v.items[i] == w.items[i]
    ensures v.items[..i + 1] == w.items[..i + 1]
  {
    assert v.items[..i + 1] == v.items[..i] + [v.items[i]] && w.items[..i + 1] == w.items[..i] + [w.items[i]];
  }

  lemma AllItems(v: Val, w: Val)
    requires v.List? && w.List? && |v.items| == |w.items| && v.items[..|v.items|] == w.items[..|w.items|]
    ensures v == w
  {
    assert v.items == v.items[..|v.items|] && w.items == w.items[..|w.items|];
  }

  /** Values other than texts that print alike are one value. */
  lemma PrintTells(v: Val, w: Val)
    requires !v.Text? && !w.Text? && Str(v) == Str(w)
    ensures v == w
  {
    assert Repr(v) + "" == Repr(v) && Repr(w) + "" == Repr(w);
    ReprEnds(v, w, "", "");
  }
}
