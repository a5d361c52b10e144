/** Floats as the decimals Python prints them as: `str` of a float, and that it can be read back. */
module FloatText {
  import opened Decimal

  /** `m` times ten to the power `e`. */
  datatype Dec = Dec(m: int, e: int)

  /** Every decimal has one form without trailing zeros in `m`. */
  predicate Canonical(d: Dec) { d.m % 10 != 0 || d == Dec(0, 0) }

  type Float = d: Dec | Canonical(d) witness Dec(0, 0)

  function Norm(m: int, e: int): (d: Float)
    decreases if m < 0 then -m else m
  {
    if m == 0 then Dec(0, 0) else if m % 10 != 0 then Dec(m, e) else Norm(m / 10, e + 1)
  }

  function Zeros(k: nat): (s: string)
    ensures |s| == k && AllDigits(s)
  {
    seq(k, i => '0')
  }

  function ExponentText(k: int): string { if k < 0 then "-" + Pad2(-k) else "+" + Pad2(k) }

  /** `str(x)` of a positive float: positional from 0.0001 up to sixteen digits before the point. */
  function PositiveText(m: nat, e: int): string {
    var digits := Print(m);
    var point := |digits| + e;
    if 0 < point <= 16 && point < |digits| then digits[..point] + "." + digits[point..]
    else if 0 < point <= 16 then digits + Zeros(point - |digits|) + ".0"
    else if -4 < point <= 0 then "0." + Zeros(-point) + digits
    else ParsePrint(m); Lead(digits) + "e" + ExponentText(point - 1)
  }

  /** `str(x)` */
  function Text(x: Float): string {
    if x.m < 0 then "-" + PositiveText(-x.m, x.e) else if x.m == 0 then "0.0" else PositiveText(x.m, x.e)
  }

  // --- reading it back --------------------------------------------------------------------------------------------------

  /** The first place of `c` in `s`, or the length. */
  function FirstOf(s: string, c: char): (i: nat)
    ensures i <= |s| && c !in s[..i] && (i < |s| ==> s[i] == c)
  {
    if s == "" || s[0] == c then 0 else
      var i := FirstOf(s[1..], c);
      assert s[..i + 1] == [s[0]] + s[1..][..i];
      i + 1
  }

  function NumberOf(digits: string): nat { if AllDigits(digits) then Value(digits) else 0 }

  /** The digits of a positional number and how many of them stand behind the point. */
  function ReadDigits(s: string): (string, nat) {
    var i := FirstOf(s, '.');
    if i == |s| then (s, 0) else (s[..i] + s[i + 1..], |s| - i - 1)
  }

  function ReadExponent(s: string): int {
    if s == "" then 0 else if s[0] == '-' then 0 - NumberOf(s[1..]) else NumberOf(s[1..])
  }

  function Signed(neg: bool, n: nat): int { if neg then 0 - n else n }

  function ReadPositive(s: string, neg: bool): Float {
    var i := FirstOf(s, 'e');
    var (digits, behind) := ReadDigits(s[..i]);
    Norm(Signed(neg, NumberOf(digits)), (if i == |s| then 0 else ReadExponent(s[i + 1..])) - behind)
  }

  /** `float(s)` of a printed float. */
  function Read(s: string): Float {
    if s != "" && s[0] == '-' then ReadPositive(s[1..], true) else ReadPositive(s, false)
  }

  lemma {:induction false} FirstIs(a: string, c: char, b: string)
    requires c !in a
    ensures FirstOf(a + [c] + b, c) == |a| && (a + [c] + b)[..|a|] == a && (a + [c] + b)[|a| + 1..] == b
  {
    if a != "" {
      FirstIs(a[1..], c, b);
      assert (a + [c] + b)[1..] == a[1..] + [c] + b;
    }
  }

  lemma NoneOf(a: string, c: char)
    requires c !in a
    ensures FirstOf(a, c) == |a| && a[..|a|] == a
  {
  }

  lemma DigitsAvoid(s: string)
    requires AllDigits(s)
    ensures 'e' !in s && '.' !in s && '-' !in s && ',' !in s && ']' !in s
  {
  }

  lemma NoExponent(s: string, neg: bool)
    requires 'e' !in s
    ensures var (digits, behind) := ReadDigits(s); ReadPositive(s, neg) == Norm(Signed(neg, NumberOf(digits)), 0 - behind)
  {
    hide ReadDigits, FirstOf, Norm, NumberOf;
    NoneOf(s, 'e');
  }

  lemma PointedDigits(digits: string, front: string, back: string)
    requires AllDigits(digits) && digits == front + back
    ensures 'e' !in front + ['.'] + back && '.' !in front && NumberOf(digits) == Value(digits)
  {
    DigitsAvoid(digits);
    assert forall c :: c in front ==> c in digits;
    assert forall c :: c in back ==> c in digits;
    hide Value, AllDigits;
  }

  lemma ReadsPlain(digits: string, front: string, back: string, neg: bool)
    requires AllDigits(digits) && digits == front + back
    ensures ReadPositive(front + "." + back, neg) == Norm(Signed(neg, Value(digits)), 0 - |back|)
  {
    hide *;
    PointedDigits(digits, front, back);
    ReadsPoint(front, back);
    NoExponent(front + ['.'] + back, neg);
    assert front + ['.'] + back == front + "." + back;
  }

  /** The part before the exponent: one digit, and the others behind a point. */
  function Lead(digits: string): string
    requires digits != ""
  {
    digits[..1] + (if |digits| > 1 then "." + digits[1..] else "")
  }

  lemma PartsOf(digits: string, i: nat)
    requires AllDigits(digits) && i <= |digits|
    ensures AllDigits(digits[..i]) && AllDigits(digits[i..]) && digits == digits[..i] + digits[i..]
  {
    assert forall k | 0 <= k < |digits| - i :: digits[i..][k] == digits[i + k];
  }

  lemma ReadsPoint(front: string, back: string)
    requires '.' !in front
    ensures ReadDigits(front + ['.'] + back) == (front + back, |back|)
  {
    hide FirstOf;
    FirstIs(front, '.', back);
  }

  lemma LeadReads(digits: string)
    requires AllDigits(digits) && digits != ""
    ensures ReadDigits(Lead(digits)) == (digits, |digits| - 1) && NumberOf(digits) == Value(digits)
    ensures 'e' !in Lead(digits) && ',' !in Lead(digits) && ']' !in Lead(digits)
  {
    hide FirstOf, Value, AllDigits, ReadDigits;
    PartsOf(digits, 1);
    DigitsAvoid(digits[..1]);
    DigitsAvoid(digits[1..]);
    if |digits| > 1 {
      ReadsPoint(digits[..1], digits[1..]);
      assert Lead(digits) == digits[..1] + ['.'] + digits[1..];
    } else {
      assert Lead(digits) == digits[..1] == digits;
      NoPoint(digits);
    }
  }

  lemma NoPoint(s: string)
    requires '.' !in s
    ensures ReadDigits(s) == (s, 0)
  {
    NoneOf(s, '.');
  }

  lemma ExponentReads(k: int)
    ensures ReadExponent(ExponentText(k)) == k
  {
    assert ExponentText(k)[1..] == if k < 0 then Pad2(-k) else Pad2(k);
  }

  lemma ReadsAround(front: string, exp: string, neg: bool)
    requires 'e' !in front
    ensures var (digits, behind) := ReadDigits(front);
      ReadPositive(front + ['e'] + exp, neg) == Norm(Signed(neg, NumberOf(digits)), ReadExponent(exp) - behind)
  {
    FirstIs(front, 'e', exp);
    hide ReadDigits, ReadExponent, Norm, NumberOf, FirstOf;
  }

  lemma ReadsScientific(digits: string, k: int, neg: bool)
    requires AllDigits(digits) && digits != ""
    ensures ReadPositive(Lead(digits) + "e" + ExponentText(k), neg) == Norm(Signed(neg, Value(digits)), k - |digits| + 1)
  {
    hide *;
    LeadReads(digits);
    ExponentReads(k);
    ReadsAround(Lead(digits), ExponentText(k), neg);
    assert "e" == ['e'];
  }

  lemma NormTen(m: int, e: int)
    ensures Norm(10 * m, e) == Norm(m, e + 1)
  {
    assert (10 * m) / 10 == m && (10 * m) % 10 == 0;
  }

  lemma OneZeroMore(t: string)
    requires AllDigits(t)
    ensures AllDigits(t + "0") && Value(t + "0") == 10 * Value(t)
  {
    assert (t + "0")[..|t|] == t;
  }

  /** Trailing zeros go into the exponent. */
  lemma {:induction false} ZerosBehind(s: string, k: nat, neg: bool, e: int)
    requires AllDigits(s)
    ensures AllDigits(s + Zeros(k)) && Norm(Signed(neg, Value(s + Zeros(k))), e) == Norm(Signed(neg, Value(s)), e + k)
  {
    hide Norm, Value;
    if k == 0 {
      assert s + Zeros(k) == s;
    } else {
      ZerosBehind(s, k - 1, neg, e + 1);
      var t := s + Zeros(k - 1);
      assert s + Zeros(k) == t + "0";
      OneZeroMore(t);
      NormTen(Signed(neg, Value(t)), e);
    }
  }

  lemma {:induction false} ZerosInFront(k: nat, s: string)
    requires AllDigits(s)
    ensures AllDigits(Zeros(k) + s) && Value(Zeros(k) + s) == Value(s)
  {
    if k == 0 {
      assert Zeros(k) + s == s;
    } else {
      ZerosInFront(k - 1, s);
      PadValue(Zeros(k - 1) + s);
      assert Zeros(k) + s == "0" + (Zeros(k - 1) + s);
    }
  }

  lemma ReadsInside(digits: string, point: int, neg: bool)
    requires AllDigits(digits) && 0 < point < |digits|
    ensures ReadPositive(digits[..point] + "." + digits[point..], neg) == Norm(Signed(neg, Value(digits)), point - |digits|)
  {
    hide *;
    assert digits == digits[..point] + digits[point..];
    ReadsPlain(digits, digits[..point], digits[point..], neg);
  }

  lemma ReadsWhole(digits: string, k: nat, neg: bool)
    requires AllDigits(digits)
    ensures ReadPositive(digits + Zeros(k) + ".0", neg) == Norm(Signed(neg, Value(digits)), k)
  {
    hide *;
    var front := digits + Zeros(k);
    ZerosBehind(digits, k + 1, neg, 0 - 1);
    OneMoreZero(digits, k);
    ReadsPlain(front + "0", front, "0", neg);
    assert front + "." + "0" == front + ".0";
  }

  lemma OneMoreZero(digits: string, k: nat)
    ensures digits + Zeros(k + 1) == digits + Zeros(k) + "0"
  {
  }

  lemma ReadsFraction(digits: string, k: nat, neg: bool)
    requires AllDigits(digits)
    ensures ReadPositive("0." + Zeros(k) + digits, neg) == Norm(Signed(neg, Value(digits)), 0 - k - |digits|)
  {
    hide *;
    var back := Zeros(k) + digits;
    ZerosInFront(k, digits);
    PadValue(back);
    ReadsPlain("0" + back, "0", back, neg);
    assert "0" + "." + back == "0." + Zeros(k) + digits;
  }

  lemma ReadsPositive(m: nat, e: int, neg: bool)
    ensures ReadPositive(PositiveText(m, e), neg) == Norm(Signed(neg, m), e)
  {
    ParsePrint(m);
    var digits := Print(m);
    var point := |digits| + e;
    hide ReadPositive, Norm, Zeros, ExponentText, Print, AllDigits, Value;
    if 0 < point <= 16 && point < |digits| {
      ReadsInside(digits, point, neg);
    } else if 0 < point <= 16 {
      ReadsWhole(digits, point - |digits|, neg);
    } else if -4 < point <= 0 {
      ReadsFraction(digits, -point, neg);
    } else {
      ReadsScientific(digits, point - 1, neg);
    }
  }

  lemma StartsWithDigit(m: nat, e: int)
    ensures PositiveText(m, e) != "" && IsDigit(PositiveText(m, e)[0])
  {
    ParsePrint(m);
  }

  lemma ReadZero()
    ensures Read("0.0") == Dec(0, 0)
  {
    hide ReadPositive, Norm;
    PadValue("0");
    PadValue("");
    assert "0" + "0" == "00" && "0" + "" == "0" && "0" + "." + "0" == "0.0";
    ReadsPlain("00", "0", "0", false);
    assert Norm(0, 0 - 1) == Dec(0, 0) by { NormOfZero(0 - 1); }
  }

  lemma NormOfZero(e: int)
    ensures Norm(0, e) == Dec(0, 0)
  {
  }

  lemma NormOfFloat(x: Float)
    ensures x.m != 0 ==> Norm(x.m, x.e) == x
  {
  }

  /** A printed float reads back as itself, so two floats that print alike are one. */
  lemma ReadText(x: Float)
    ensures Read(Text(x)) == x
  {
    hide PositiveText, ReadPositive, Norm;
    var m: nat := if x.m < 0 then 0 - x.m else x.m;
    if x.m == 0 {
      ReadZero();
    } else {
      StartsWithDigit(m, x.e);
      ReadsPositive(m, x.e, x.m < 0);
      NormOfFloat(x);
      assert ("-" + PositiveText(m, x.e))[1..] == PositiveText(m, x.e);
    }
  }

  /** The characters a float is printed with; one of them no integer has. */
  lemma TextLooks(x: Float)
    ensures Text(x) != "" && (IsDigit(Text(x)[0]) || Text(x)[0] == '-')
    ensures ',' !in Text(x) && ']' !in Text(x)
    ensures '.' in Text(x) || 'e' in Text(x)
  {
    var m: nat := if x.m < 0 then -x.m else x.m;
    StartsWithDigit(m, x.e);
    PositiveLooks(m, x.e);
  }

  lemma Looks(front: string, c: char, back: string)
    requires ',' !in front && ']' !in front && ',' !in back && ']' !in back && c != ',' && c != ']'
    ensures ',' !in front + [c] + back && ']' !in front + [c] + back && c in front + [c] + back
  {
    assert (front + [c] + back)[|front|] == c;
  }

  lemma PositiveLooks(m: nat, e: int)
    ensures ',' !in PositiveText(m, e) && ']' !in PositiveText(m, e)
    ensures '.' in PositiveText(m, e) || 'e' in PositiveText(m, e)
  {
    ParsePrint(m);
    var digits := Print(m);
    var point := |digits| + e;
    DigitsAvoid(digits);
    if 0 < point <= 16 && point < |digits| {
      Looks(digits[..point], '.', digits[point..]);
    } else if 0 < point <= 16 {
      DigitsAvoid(Zeros(point - |digits|));
      Looks(digits + Zeros(point - |digits|), '.', "0");
      assert digits + Zeros(point - |digits|) + ['.'] + "0" == PositiveText(m, e);
    } else if -4 < point <= 0 {
      DigitsAvoid(Zeros(-point));
      Looks("0", '.', Zeros(-point) + digits);
      assert "0" + ['.'] + (Zeros(-point) + digits) == PositiveText(m, e);
    } else {
      LeadReads(digits);
      ExponentLooks(point - 1);
      Looks(Lead(digits), 'e', ExponentText(point - 1));
    }
  }

  lemma ExponentLooks(k: int)
    ensures ',' !in ExponentText(k) && ']' !in ExponentText(k)
  {
    DigitsAvoid(if k < 0 then Pad2(-k) else Pad2(k));
  }
}
