/**
 * Java's 32-bit `int` and its decimal text forms: `Integer.parseInt(String)` (radix 10) and
 * `Integer.toString(int)` (the conversion used by string concatenation).
 */
module JavaInt {
  import opened Wrappers

  const MinValue: int := -0x8000_0000
  const MaxValue: int := 0x7fff_ffff

  /** The values of Java's `int`. */
  type Int32 = n: int | MinValue <= n <= MaxValue

  predicate IsDigit(c: char) {
    '0' <= c <= '9'
  }

  predicate AllDigits(s: string) {
    forall i :: 0 <= i < |s| ==> IsDigit(s[i])
  }

  predicate IsSign(c: char) {
    c == '-' || c == '+'
  }

  function DigitValue(c: char): (d: nat)
    requires IsDigit(c)
    ensures d < 10
  {
    c as int - '0' as int
  }

  function DigitChar(d: nat): (c: char)
    requires d < 10
    ensures IsDigit(c) && DigitValue(c) == d
  {
    ('0' as int + d) as char
  }

  /** The value of a string of decimal digits, most significant digit first. */
  function DigitsValue(ds: string): (v: nat)
    requires AllDigits(ds)
  {
    if ds == [] then 0 else DigitsValue(ds[..|ds| - 1]) * 10 + DigitValue(ds[|ds| - 1])
  }

  /**
   * `Integer.parseInt(s)`: an optional single leading '-' or '+', then one or more decimal
   * digits, denoting a value in [MinValue, MaxValue]. `None` stands for the
   * NumberFormatException thrown on every other string (empty, a sign alone, any other
   * character, or a value that does not fit in 32 bits).
   */
  function ParseInt(s: string): (r: Option<Int32>)
    ensures r.Some? ==> |s| > 0 && (IsDigit(s[0]) || (IsSign(s[0]) && |s| > 1))
    ensures r.Some? ==> forall i :: 0 < i < |s| ==> IsDigit(s[i])
  {
    if s == [] then None
    else
      var digits := if IsSign(s[0]) then s[1..] else s;
      if digits == [] || !AllDigits(digits) then None
      else
        var magnitude := DigitsValue(digits);
        var v: int := if s[0] == '-' then -(magnitude as int) else magnitude;
        if MinValue <= v <= MaxValue then Some(v) else None
  }

  /** The shortest decimal numeral of `k`: no leading zeros, "0" for zero. */
  function NatToString(k: nat): (s: string)
    ensures s != [] && AllDigits(s)
  {
    if k < 10 then [DigitChar(k)] else NatToString(k / 10) + [DigitChar(k % 10)]
  }

  /** `Integer.toString(n)`: a '-' before the magnitude of a negative `n`, no '+' ever. */
  function IntToString(n: int): (s: string)
    ensures s != [] && (s[0] == '-' <==> n < 0)
    ensures forall c :: c in s ==> IsDigit(c) || c == '-'
  {
    if n < 0 then "-" + NatToString(-n) else NatToString(n)
  }

  /** The numerals `Integer.toString` produces: "0", or a non-zero leading digit, optionally after '-'. */
  predicate IsCanonical(s: string) {
    s == "0" || IsPositiveNumeral(s) || (|s| > 1 && s[0] == '-' && IsPositiveNumeral(s[1..]))
  }

  predicate IsPositiveNumeral(ds: string) {
    ds != [] && AllDigits(ds) && ds[0] != '0'
  }

  /** Reading back the numeral of `k` gives `k`. */
  lemma {:induction false} NatToStringValue(k: nat)
    ensures DigitsValue(NatToString(k)) == k
  {
    if k >= 10 {
      var p := NatToString(k / 10);
      var s := p + [DigitChar(k % 10)];
      assert s[..|s| - 1] == p;
      NatToStringValue(k / 10);
    }
  }

  /** The numeral of a positive number does not start with '0'. */
  lemma {:induction false} NatToStringLeading(k: nat)
    requires k > 0
    ensures IsPositiveNumeral(NatToString(k))
  {
    if k >= 10 {
      NatToStringLeading(k / 10);
    }
  }

  /** A digit string with a non-zero leading digit denotes a positive number. */
  lemma {:induction false} PositiveNumeralValue(ds: string)
    requires IsPositiveNumeral(ds)
    ensures DigitsValue(ds) > 0
  {
    var p := ds[..|ds| - 1];
    if p != [] {
      assert p[0] == ds[0];
      PositiveNumeralValue(p);
    }
  }

  /** Every digit string without a superfluous leading zero is the numeral of its own value. */
  lemma {:induction false} NumeralOfValue(ds: string)
    requires ds == "0" || IsPositiveNumeral(ds)
    ensures NatToString(DigitsValue(ds)) == ds
  {
    var p := ds[..|ds| - 1];
    var d := ds[|ds| - 1];
    if p == [] {
      assert ds == [d];
    } else {
      assert p[0] == ds[0];
      PositiveNumeralValue(p);
      NumeralOfValue(p);
      var k := DigitsValue(ds);
      assert k / 10 == DigitsValue(p) && k % 10 == DigitValue(d);
      assert ds == p + [d];
    }
  }

  /** `Integer.toString` produces canonical numerals only. */
  lemma IntToStringCanonical(n: int)
    ensures IsCanonical(IntToString(n))
  {
    if n < 0 {
      NatToStringLeading(-n);
      assert IntToString(n)[1..] == NatToString(-n);
    } else if n > 0 {
      NatToStringLeading(n);
    }
  }

  /**
   * Round trip: `Integer.parseInt(Integer.toString(n))` gives back `n` exactly when `n`
   * fits in an `int`, and throws otherwise.
   */
  lemma ParseIntOfToString(n: int)
    ensures ParseInt(IntToString(n)) == if MinValue <= n <= MaxValue then Some(n) else None
  {
    var s := IntToString(n);
    if n < 0 {
      NatToStringValue(-n);
      assert s[1..] == NatToString(-n);
    } else {
      NatToStringValue(n);
    }
  }

  /** Round trip the other way: a canonical numeral that parses is what `Integer.toString` prints. */
  lemma ToStringOfParseInt(s: string)
    requires IsCanonical(s) && ParseInt(s).Some?
    ensures IntToString(ParseInt(s).value) == s
  {
    if s[0] == '-' {
      var ds := s[1..];
      NumeralOfValue(ds);
      PositiveNumeralValue(ds);
      assert s == "-" + ds;
    } else {
      NumeralOfValue(s);
    }
  }

  /** Distinct numbers have distinct numerals. */
  lemma IntToStringInjective(a: int, b: int)
    requires IntToString(a) == IntToString(b)
    ensures a == b
  {
    if a < 0 {
      assert NatToString(-a) == IntToString(a)[1..] == NatToString(-b);
      NatToStringValue(-a);
      NatToStringValue(-b);
    } else {
      NatToStringValue(a);
      NatToStringValue(b);
    }
  }
}
