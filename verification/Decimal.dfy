/** Decimal text of natural numbers: the digits inside the ids `P12`, the keys `net_7` and the
    zero-padded fields of cell artifact names. */
module Decimal {

  datatype Option<+T> = None | Some(value: T)

  predicate IsDigit(c: char) {
    '0' <= c <= '9'
  }

  predicate AllDigits(s: string) {
    forall i | 0 <= i < |s| :: IsDigit(s[i])
  }

  function DigitChar(d: nat): (c: char)
    requires d < 10
    ensures IsDigit(c) && DigitValue(c) == d
  {
    ('0' as int + d) as char
  }

  function DigitValue(c: char): (d: nat)
    requires IsDigit(c)
    ensures d < 10
  {
    c as int - '0' as int
  }

  /** The shortest decimal text of n, Python's `str(n)`. */
  function Print(n: nat): string {
    if n < 10 then [DigitChar(n)] else Print(n / 10) + [DigitChar(n % 10)]
  }

  function Value(s: string): nat
    requires AllDigits(s)
  {
    if s == "" then 0 else 10 * Value(s[..|s| - 1]) + DigitValue(s[|s| - 1])
  }

  /** Python's `int(s)` on a run of ASCII digits; any other text is refused. */
  function Parse(s: string): Option<nat> {
    if s != "" && AllDigits(s) then Some(Value(s)) else None
  }

  lemma {:induction false} ParsePrint(n: nat)
    ensures Print(n) != "" && AllDigits(Print(n))
    ensures Parse(Print(n)) == Some(n)
  {
    if n >= 10 {
      ParsePrint(n / 10);
      var s := Print(n);
      assert s[..|s| - 1] == Print(n / 10);
    } else {
      assert Print(n)[..0] == "";
      assert Value("") == 0;
    }
  }

  lemma PrintInjective(m: nat, n: nat)
    requires Print(m) == Print(n)
    ensures m == n
  {
    ParsePrint(m);
    ParsePrint(n);
  }

  /** Python's `f"{i}"` of an integer. */
  function PrintInt(i: int): string {
    if i < 0 then "-" + Print(-i) else Print(i)
  }

  function ParseInt(s: string): Option<int> {
    var digits := if s != "" && s[0] == '-' then s[1..] else s;
    if Parse(digits).None? then None
    else if digits == s then Some(Parse(digits).value)
    else Some(0 - Parse(digits).value)
  }

  lemma ParsePrintInt(i: int)
    ensures ParseInt(PrintInt(i)) == Some(i)
  {
    if i < 0 {
      ParsePrint(-i);
      assert PrintInt(i)[1..] == Print(-i);
    } else {
      ParsePrint(i);
      assert IsDigit(Print(i)[0]);
    }
  }

  /** `f"{n:02d}"` of a non-negative number. */
  function Pad2(n: nat): (s: string)
    ensures AllDigits(s) && s != [] && Value(s) == n
  {
    ParsePrint(n);
    if n < 10 then
      var s := "0" + Print(n);
      PadValue(Print(n));
      s
    else Print(n)
  }

  lemma {:induction false} PadValue(s: string)
    requires AllDigits(s)
    ensures AllDigits("0" + s) && Value("0" + s) == Value(s)
  {
    if s != [] {
      PadValue(s[..|s| - 1]);
      assert ("0" + s)[..|s|] == "0" + s[..|s| - 1];
    } else {
      assert "0" + s == "0" && "0"[..0] == [];
    }
  }
}
