/** Canonical decimal text: the unsigned-integer spellings shared by every CloudLink and Integration message, and the
    arbitrary-precision decimals of the Integration contract. */
module Decimals {

  import opened Wrappers

  const MAX_DECIMAL_CHARS: nat := 96

  datatype NumberError = OutOfRange | NonCanonical | FieldBound

  // ---------------------------------------------------------------- digits

  predicate IsDigit(c: char) {
    '0' <= c <= '9'
  }

  predicate AllDigits(s: string) {
    forall i | 0 <= i < |s| :: IsDigit(s[i])
  }

  function DigitValue(c: char): nat
    requires IsDigit(c)
  {
    c as int - '0' as int
  }

  function DigitChar(d: nat): (c: char)
    requires d < 10
    ensures IsDigit(c) && DigitValue(c) == d
  {
    ('0' as int + d) as char
  }

  function Pow10(n: nat): (p: nat)
    ensures p >= 1
  {
    if n == 0 then 1 else 10 * Pow10(n - 1)
  }

  /** The number a digit string denotes, most significant digit first. */
  function Value(s: string): nat
    requires AllDigits(s)
  {
    if s == "" then 0 else 10 * Value(s[..|s| - 1]) + DigitValue(s[|s| - 1])
  }

  /** Rust's `to_string` on an unsigned integer. */
  function Print(n: nat): (s: string)
    ensures s != "" && AllDigits(s)
  {
    if n < 10 then [DigitChar(n)] else Print(n / 10) + [DigitChar(n % 10)]
  }

  /** No leading zero, except for the one-digit numeral of zero itself. */
  predicate Numeral(s: string) {
    s != "" && AllDigits(s) && (s == "0" || s[0] != '0')
  }

  lemma {:induction false} PrintIsNumeral(n: nat)
    ensures Numeral(Print(n)) && Value(Print(n)) == n
    ensures n > 0 ==> Print(n)[0] != '0'
  {
    if n < 10 {
      assert Print(n)[..0] == "";
    } else {
      PrintIsNumeral(n / 10);
      var s := Print(n);
      assert s[..|s| - 1] == Print(n / 10);
      assert s[0] == Print(n / 10)[0];
    }
  }

  lemma {:induction false} ValueBounds(s: string)
    requires AllDigits(s)
    ensures Value(s) < Pow10(|s|)
    ensures s != "" && s[0] != '0' ==> Value(s) >= Pow10(|s| - 1)
  {
    if |s| > 1 {
      ValueBounds(s[..|s| - 1]);
    } else if |s| == 1 {
      assert s[..0] == "";
    }
  }

  /** Digit strings of one length that denote the same number are the same string. */
  lemma {:induction false} ValueInjective(a: string, b: string)
    requires AllDigits(a) && AllDigits(b) && |a| == |b| && Value(a) == Value(b)
    ensures a == b
  {
    if a != "" {
      var n := |a| - 1;
      ValueInjective(a[..n], b[..n]);
      assert a == a[..n] + [a[n]] && b == b[..n] + [b[n]];
    }
  }

  lemma {:induction false} Pow10Monotone(m: nat, n: nat)
    requires m <= n
    ensures Pow10(m) <= Pow10(n)
  {
    if m < n { Pow10Monotone(m, n - 1); }
  }

  lemma ShorterIsSmaller(a: string, b: string)
    requires AllDigits(a) && Numeral(b) && |a| < |b|
    ensures b != "0" ==> Value(a) < Value(b)
  {
    ValueBounds(a);
    ValueBounds(b);
    Pow10Monotone(|a|, |b| - 1);
  }

  lemma NumeralInjective(a: string, b: string)
    requires Numeral(a) && Numeral(b) && Value(a) == Value(b)
    ensures a == b
  {
    ZeroNumeral(a);
    ZeroNumeral(b);
    if |a| < |b| {
      ShorterIsSmaller(a, b);
      assert false;
    } else if |b| < |a| {
      ShorterIsSmaller(b, a);
      assert false;
    }
    ValueInjective(a, b);
  }

  lemma ZeroNumeral(a: string)
    requires Numeral(a)
    ensures Value(a) == 0 <==> a == "0"
  {
    ValueBounds(a);
    assert "0"[..0] == "";
    assert Value("0") == 0;
  }

  // -------------------------------------------------- canonical u64 spellings

  /** `str::parse::<u64>` on a string of decimal digits. */
  function ParseU64(s: string): Result<nat, NumberError>
    requires s != "" && AllDigits(s)
  {
    if Value(s) <= U64_MAX then Ok(Value(s)) else Err(OutOfRange)
  }

  /** The validator of the CloudLink crate. */
  function CloudLinkU64(s: string): Result<nat, NumberError> {
    if s == "0" || (s != "" && s[0] != '0' && AllDigits(s)) then ParseU64(s) else Err(NonCanonical)
  }

  /** The validator of the Integration contract crate: a length bound comes first. */
  function ContractU64(s: string): Result<nat, NumberError> {
    if |s| > 20 then Err(OutOfRange)
    else if s == "" || !AllDigits(s) || (|s| > 1 && s[0] == '0') then Err(NonCanonical)
    else ParseU64(s)
  }

  lemma NumeralSpellsNumber(s: string, n: nat)
    ensures Numeral(s) && Value(s) == n <==> s == Print(n)
  {
    PrintIsNumeral(n);
    if Numeral(s) && Value(s) == n { NumeralInjective(s, Print(n)); }
  }

  lemma TenToTheTwenty()
    ensures Pow10(20) == 100_000_000_000_000_000_000
  {
    assert Pow10(5) == 100_000;
    Pow10Sum(5, 5);
    Pow10Sum(10, 10);
  }

  lemma U64HasTwentyDigits(s: string)
    requires Numeral(s) && Value(s) <= U64_MAX
    ensures |s| <= 20
  {
    ValueBounds(s);
    TenToTheTwenty();
    if |s| > 20 {
      Pow10Monotone(20, |s| - 1);
      assert false;
    }
  }

  /** Both validators accept exactly the printed form of the 64-bit numbers, so the two crates agree on every string
      although they reject for different reasons. */
  lemma U64SpellingsUnique(s: string, n: nat)
    ensures CloudLinkU64(s) == Ok(n) <==> s == Print(n) && n <= U64_MAX
    ensures ContractU64(s) == Ok(n) <==> s == Print(n) && n <= U64_MAX
    ensures n <= U64_MAX ==> |Print(n)| <= 20
  {
    NumeralSpellsNumber(s, n);
    PrintIsNumeral(n);
    if n <= U64_MAX { U64HasTwentyDigits(Print(n)); }
    assert |s| > 1 ==> s != "0";
  }

  // ------------------------------------------------------ arbitrary decimals

  /** A decimal text taken apart: sign, the text before the first point, and the text after it. */
  datatype Parts = Parts(negative: bool, integer: string, fraction: Option<string>)

  function IndexOf(s: string, c: char): (i: nat)
    ensures i <= |s|
    ensures forall j | 0 <= j < i :: s[j] != c
    ensures i < |s| ==> s[i] == c
  {
    if s == "" || s[0] == c then 0 else 1 + IndexOf(s[1..], c)
  }

  function Split(s: string): Parts {
    var negative := s != "" && s[0] == '-';
    var unsigned := Unsigned(s);
    var point := IndexOf(unsigned, '.');
    if point == |unsigned| then Parts(negative, unsigned, None)
    else Parts(negative, unsigned[..point], Some(unsigned[point + 1..]))
  }

  function Join(p: Parts): string {
    var unsigned := if p.fraction.Some? then p.integer + ("." + p.fraction.value) else p.integer;
    if p.negative then "-" + unsigned else unsigned
  }

  function Unsigned(s: string): string {
    if s != "" && s[0] == '-' then s[1..] else s
  }

  lemma SplitJoin(s: string)
    ensures Join(Split(s)) == s
  {
    var unsigned := Unsigned(s);
    var point := IndexOf(unsigned, '.');
    var tail := Join(Split(s).(negative := false));
    assert tail == unsigned by {
      if point < |unsigned| { RejoinAt(unsigned, point); }
    }
    if Split(s).negative {
      assert Join(Split(s)) == "-" + tail;
      RejoinHead(s);
    }
  }

  lemma RejoinHead(s: string)
    requires s != "" && s[0] == '-'
    ensures "-" + s[1..] == s
  {}

  lemma RejoinAt(s: string, i: nat)
    requires i < |s| && s[i] == '.'
    ensures s[..i] + ("." + s[i + 1..]) == s
  {}

  /** The validator of the Integration contract (`matches('.').count() > 1` is the second-point test). */
  function CanonicalDecimal(s: string): Result<(), NumberError> {
    if |s| > MAX_DECIMAL_CHARS then Err(FieldBound)
    else if s == "" then Err(NonCanonical)
    else if s == "0" then Ok(())
    else
      var p := Split(s);
      var integerOk := p.integer != "" && AllDigits(p.integer) && (p.integer == "0" || p.integer[0] != '0');
      var fractionOk := p.fraction.None?
        || (p.fraction.value != "" && AllDigits(p.fraction.value) && p.fraction.value[|p.fraction.value| - 1] != '0');
      var negativeZero := p.negative && p.integer == "0"
        && (p.fraction.None? || forall i | 0 <= i < |p.fraction.value| :: p.fraction.value[i] == '0');
      var secondPoint := p.fraction.Some? && IndexOf(p.fraction.value, '.') < |p.fraction.value|;
      if !integerOk || !fractionOk || negativeZero || secondPoint then Err(NonCanonical) else Ok(())
  }

  /** The looser check of the domain crate. */
  predicate DomainDecimal(s: string) {
    var p := Split(s);
    && Unsigned(s) != ""
    && (p.fraction.Some? ==> IndexOf(p.fraction.value, '.') == |p.fraction.value|)
    && p.integer != "" && AllDigits(p.integer)
    && !(|p.integer| > 1 && p.integer[0] == '0')
    && !(p.negative && p.integer == "0" && p.fraction.None?)
    && (p.fraction.Some? ==> p.fraction.value != "" && AllDigits(p.fraction.value))
  }

  function Fraction(p: Parts): string {
    if p.fraction.Some? then p.fraction.value else ""
  }

  /** The integer obtained by dropping the point, and the power of ten it has to be divided by. */
  function Digits(s: string): nat
    requires DomainDecimal(s)
  {
    var p := Split(s);
    assert AllDigits(p.integer + Fraction(p));
    Value(p.integer + Fraction(p))
  }

  function Scale(s: string): nat {
    |Fraction(Split(s))|
  }

  /** The rational number a decimal text denotes. */
  function Denotes(s: string): real
    requires DomainDecimal(s)
  {
    var magnitude := Digits(s) as real / Pow10(Scale(s)) as real;
    if Split(s).negative then -magnitude else magnitude
  }

  /** Exactly which domain decimals are also contract decimals. */
  lemma ContractDecimalExactly(s: string)
    ensures CanonicalDecimal(s).Ok? <==>
              && DomainDecimal(s)
              && |s| <= MAX_DECIMAL_CHARS
              && (var f := Fraction(Split(s)); f == "" || f[|f| - 1] != '0')
  {
    var p := Split(s);
    if s == "0" { assert IndexOf("0", '.') == 1; }
    if p.fraction.Some? && AllDigits(p.fraction.value) {
      assert IndexOf(p.fraction.value, '.') == |p.fraction.value|;
    }
  }

  lemma CrossMultiply(a: nat, b: nat, p: nat, q: nat)
    requires p > 0 && q > 0
    requires a as real / p as real == b as real / q as real
    ensures a * q == b * p
  {
    var x, y := a as real / p as real, b as real / q as real;
    assert x * p as real == a as real && y * q as real == b as real;
    assert a as real * q as real == x * p as real * q as real == y * q as real * p as real == b as real * p as real;
    assert (a * q) as real == (b * p) as real;
  }

  lemma {:induction false} Pow10Sum(m: nat, n: nat)
    ensures Pow10(m + n) == Pow10(m) * Pow10(n)
  {
    if m > 0 { Pow10Sum(m - 1, n); }
  }

  lemma TenfoldShift(x: nat, p: nat)
    ensures 10 * (x * p) == x * (10 * p)
  {}

  lemma {:induction false} ValueConcat(a: string, b: string)
    requires AllDigits(a) && AllDigits(b)
    ensures AllDigits(a + b) && Value(a + b) == Value(a) * Pow10(|b|) + Value(b)
  {
    if b == "" {
      assert a + b == a;
    } else {
      var n := |b| - 1;
      ValueConcat(a, b[..n]);
      assert (a + b)[..|a + b| - 1] == a + b[..n];
      assert Value(a + b) == 10 * Value(a + b[..n]) + DigitValue(b[n]);
      TenfoldShift(Value(a), Pow10(n));
    }
  }

  /** If one denotation needs more places than an equal one, its last digit is zero. */
  lemma LongerScaleEndsInZero(a: string, b: string)
    requires DomainDecimal(a) && DomainDecimal(b) && Scale(a) < Scale(b)
    requires Digits(a) * Pow10(Scale(b)) == Digits(b) * Pow10(Scale(a))
    ensures var f := Fraction(Split(b)); f[|f| - 1] == '0'
  {
    hide Split, Pow10, DomainDecimal, Digits, Value, Fraction;
    TenDivides(Digits(a), Digits(b), Scale(a), Scale(b));
    LastDigitOf(b);
  }

  lemma LastDigitOf(s: string)
    requires DomainDecimal(s) && Scale(s) > 0
    ensures Digits(s) % 10 == DigitValue(Fraction(Split(s))[Scale(s) - 1])
    ensures Digits(s) % 10 == 0 ==> Fraction(Split(s))[Scale(s) - 1] == '0'
  {
    var t := Split(s).integer + Fraction(Split(s));
    assert t[|t| - 1] == Fraction(Split(s))[Scale(s) - 1];
    assert Digits(s) == Value(t);
  }

  lemma TenDivides(k: nat, m: nat, e: nat, f: nat)
    requires e < f && k * Pow10(f) == m * Pow10(e)
    ensures m % 10 == 0
  {
    var p, q := Pow10(f - e - 1), Pow10(e);
    assert Pow10(f) == 10 * p * q by {
      Pow10Sum(f - e, e);
    }
    Regroup(k, p, q);
    CancelFactor(10 * (k * p), m, q);
  }

  lemma Regroup(k: nat, p: nat, q: nat)
    ensures k * (10 * p * q) == 10 * (k * p) * q
  {}

  lemma MultiplyStrict(x: nat, y: nat, q: nat)
    requires x < y && q > 0
    ensures x * q + q <= y * q
  {
    assert (x + 1) * q <= y * q;
  }

  lemma CancelFactor(x: nat, y: nat, q: nat)
    requires q > 0 && x * q == y * q
    ensures x == y
  {
    if x < y {
      MultiplyStrict(x, y, q);
      assert false;
    } else if y < x {
      MultiplyStrict(y, x, q);
      assert false;
    }
  }

  lemma SameScaleSameText(a: string, b: string)
    requires CanonicalDecimal(a).Ok? && CanonicalDecimal(b).Ok?
    requires DomainDecimal(a) && DomainDecimal(b) && Scale(a) == Scale(b)
    requires Digits(a) == Digits(b) && Split(a).negative == Split(b).negative
    ensures a == b
  {
    var p, q := Split(a), Split(b);
    ValueConcat(p.integer, Fraction(p));
    ValueConcat(q.integer, Fraction(q));
    ValueBounds(Fraction(p));
    ValueBounds(Fraction(q));
    SplitAtPower(Value(p.integer), Value(Fraction(p)), Value(q.integer), Value(Fraction(q)), Pow10(Scale(a)));
    NumeralInjective(p.integer, q.integer);
    ValueInjective(Fraction(p), Fraction(q));
    ContractDecimalExactly(a);
    ContractDecimalExactly(b);
    assert p.fraction.Some? <==> q.fraction.Some?;
    SplitJoin(a);
    SplitJoin(b);
  }

  lemma SplitAtPower(x: nat, r: nat, y: nat, t: nat, p: nat)
    requires r < p && t < p && x * p + r == y * p + t
    ensures x == y && r == t
  {
    if x < y {
      MultiplyStrict(x, y, p);
      assert false;
    } else if y < x {
      MultiplyStrict(y, x, p);
      assert false;
    }
  }

  lemma NegativeIsNotZero(s: string)
    requires CanonicalDecimal(s).Ok? && DomainDecimal(s) && Split(s).negative
    ensures Digits(s) != 0
  {
    var p := Split(s);
    ValueConcat(p.integer, Fraction(p));
    ZeroNumeral(p.integer);
    ContractDecimalExactly(s);
    var f := Fraction(p);
    if p.integer != "0" {
      MultiplyStrict(0, Value(p.integer), Pow10(Scale(s)));
    } else {
      assert Value(f) % 10 == DigitValue(f[|f| - 1]);
    }
  }

  /** Contract decimals are unique: accepted texts that denote the same rational are the same text. Every one of them is
      accepted by the domain check as well. */
  lemma ContractDecimalsUnique(a: string, b: string)
    requires CanonicalDecimal(a).Ok? && CanonicalDecimal(b).Ok?
    ensures DomainDecimal(a) && DomainDecimal(b)
    ensures Denotes(a) == Denotes(b) ==> a == b
  {
    ContractDecimalExactly(a);
    ContractDecimalExactly(b);
    if Denotes(a) == Denotes(b) {
      SameSign(a, b);
      CrossMultiply(Digits(a), Digits(b), Pow10(Scale(a)), Pow10(Scale(b)));
      if Scale(a) < Scale(b) {
        LongerScaleEndsInZero(a, b);
        assert false;
      } else if Scale(b) < Scale(a) {
        LongerScaleEndsInZero(b, a);
        assert false;
      }
      CancelFactor(Digits(a), Digits(b), Pow10(Scale(a)));
      SameScaleSameText(a, b);
    }
  }

  lemma SameSign(a: string, b: string)
    requires CanonicalDecimal(a).Ok? && CanonicalDecimal(b).Ok?
    requires DomainDecimal(a) && DomainDecimal(b) && Denotes(a) == Denotes(b)
    ensures Split(a).negative == Split(b).negative
    ensures Digits(a) as real / Pow10(Scale(a)) as real == Digits(b) as real / Pow10(Scale(b)) as real
  {
    if Split(a).negative { NegativeIsNotZero(a); PositiveQuotient(Digits(a), Pow10(Scale(a))); }
    if Split(b).negative { NegativeIsNotZero(b); PositiveQuotient(Digits(b), Pow10(Scale(b))); }
    NonNegativeQuotient(Digits(a), Pow10(Scale(a)));
    NonNegativeQuotient(Digits(b), Pow10(Scale(b)));
  }

  lemma PositiveQuotient(a: nat, p: nat)
    requires a > 0 && p > 0
    ensures a as real / p as real > 0.0
  {}

  lemma NonNegativeQuotient(a: nat, p: nat)
    requires p > 0
    ensures a as real / p as real >= 0.0
  {}

  /** The domain check alone does not give unique spellings. */
  lemma DomainDecimalsNotUnique()
    ensures DomainDecimal("1") && DomainDecimal("1.0") && Denotes("1") == Denotes("1.0")
  {
    hide Split, DomainDecimal;
    PlainOne();
    OneAndZero();
  }

  lemma PlainOne()
    ensures Split("1") == Parts(false, "1", None) && DomainDecimal("1") && Digits("1") == 1 && Pow10(0) == 1
  {
    assert Value("1") == 1 by { assert "1"[..0] == ""; }
    assert "1" + "" == "1";
  }

  lemma OneAndZero()
    ensures Split("1.0") == Parts(false, "1", Some("0")) && DomainDecimal("1.0") && Digits("1.0") == 10
      && Pow10(1) == 10
  {
    var b := "1.0";
    assert b[..1] == "1" && b[2..] == "0";
    assert IndexOf(b, '.') == 1 by { assert b[1..][0] == '.'; }
    assert Split(b) == Parts(false, "1", Some("0"));
    assert IndexOf("0", '.') == 1;
    assert "10"[..1] == "1" && Value("10") == 10;
    assert "1" + "0" == "10";
  }
}
