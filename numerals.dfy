/** Number printing and parsing as JavaScript does it for the values the
    dashboard handles: `n.toString(radix)` for non-negative integers,
    `parseInt(s, radix)`, and `padStart`. */
module Numerals {
  import opened Text

  /** The digit `d` as `toString` prints it (lower-case letters above 9). */
  function DigitChar(d: nat): (c: char)
    requires d < 16
    ensures DigitValue(c) == Some(d)
  {
    if d < 10 then ('0' as int + d) as char else ('a' as int + d - 10) as char
  }

  /** The value `parseInt` gives one digit character, letters in either case. */
  function DigitValue(c: char): (r: Option<nat>)
    ensures r.Some? ==> r.value < 16
  {
    if '0' <= c <= '9' then Some(c as int - '0' as int)
    else if 'a' <= c <= 'f' then Some(c as int - 'a' as int + 10)
    else if 'A' <= c <= 'F' then Some(c as int - 'A' as int + 10)
    else None
  }

  predicate IsDigit(c: char, base: nat) {
    DigitValue(c).Some? && DigitValue(c).value < base
  }

  predicate AllDigits(s: string, base: nat) {
    forall i :: 0 <= i < |s| ==> IsDigit(s[i], base)
  }

  function Pow(b: nat, k: nat): nat {
    if k == 0 then 1 else b * Pow(b, k - 1)
  }

  /** `n.toString(base)` for a non-negative integer: no sign, no leading zero. */
  function ToBase(n: nat, base: nat): (s: string)
    requires 2 <= base <= 16
    ensures s != [] && AllDigits(s, base)
    decreases n
  {
    if n < base then [DigitChar(n)]
    else
      DivStep(n, base);
      ToBase(n / base, base) + [DigitChar(n % base)]
  }

  /** Euclidean division facts the digit recursions rely on. */
  lemma DivStep(n: nat, base: nat)
    requires 2 <= base <= n
    ensures n / base < n && n % base < base
    ensures n == (n / base) * base + n % base
  {
  }

  /** The number a string of digits denotes, most significant digit first. */
  function ValueOf(s: string, base: nat): nat
    requires AllDigits(s, base)
  {
    if s == [] then 0
    else ValueOf(s[..|s| - 1], base) * base + DigitValue(s[|s| - 1]).value
  }

  /** Printing then reading back gives the number again. */
  lemma {:induction false} ValueOfToBase(n: nat, base: nat)
    requires 2 <= base <= 16
    ensures ValueOf(ToBase(n, base), base) == n
    decreases n
  {
    if n >= base {
      var s := ToBase(n, base);
      DivStep(n, base);
      ValueOfToBase(n / base, base);
      assert s[..|s| - 1] == ToBase(n / base, base);
    }
  }

  /** A number below `base^k` prints with at most `k` digits. */
  lemma {:induction false} ToBaseLength(n: nat, base: nat, k: nat)
    requires 2 <= base <= 16 && 1 <= k && n < Pow(base, k)
    ensures |ToBase(n, base)| <= k
    decreases k
  {
    if n >= base {
      DivStep(n, base);
      assert Pow(base, k) == Pow(base, k - 1) * base;
      MulCancelLt(n / base, Pow(base, k - 1), base);
      ToBaseLength(n / base, base, k - 1);
    }
  }

  lemma MulCancelLt(q: nat, p: nat, b: nat)
    requires b > 0 && q * b < p * b
    ensures q < p
  {
  }

  lemma MulLe(a: nat, b: nat, c: nat)
    requires a <= b
    ensures a * c <= b * c
  {
  }

  /** The value of a digit string is below `base^|s|`. */
  lemma {:induction false} ValueOfBound(s: string, base: nat)
    requires 2 <= base <= 16 && AllDigits(s, base)
    ensures ValueOf(s, base) < Pow(base, |s|)
    decreases |s|
  {
    if s != [] {
      var init := s[..|s| - 1];
      ValueOfBound(init, base);
      var d := DigitValue(s[|s| - 1]).value;
      var v, p := ValueOf(init, base), Pow(base, |init|);
      assert ValueOf(s, base) == v * base + d;
      assert Pow(base, |s|) == base * p;
      DigitStepBound(v, p, d, base);
    }
  }

  lemma DigitStepBound(v: nat, p: nat, d: nat, b: nat)
    requires v < p && d < b
    ensures v * b + d < b * p
  {
    MulLe(v + 1, p, b);
    assert (v + 1) * b == v * b + b;
  }

  function Repeat(c: char, n: nat): (r: string)
    ensures |r| == n && forall i :: 0 <= i < n ==> r[i] == c
  {
    seq(n, _ => c)
  }

  /** `s.padStart(len, c)`. */
  function PadStart(s: string, len: nat, c: char): (r: string)
    ensures |r| == if |s| >= len then |s| else len
    ensures r == Repeat(c, |r| - |s|) + s
  {
    if |s| >= len then s else Repeat(c, len - |s|) + s
  }

  /** Leading zeros do not change the value of a digit string. */
  lemma {:induction false} ValueOfLeadingZeros(z: nat, s: string, base: nat)
    requires 2 <= base <= 16 && AllDigits(s, base)
    ensures AllDigits(Repeat('0', z) + s, base)
    ensures ValueOf(Repeat('0', z) + s, base) == ValueOf(s, base)
    decreases |s|
  {
    var t := Repeat('0', z) + s;
    assert AllDigits(t, base) by {
      forall i | 0 <= i < |t| ensures IsDigit(t[i], base) {
        if i >= z { assert t[i] == s[i - z]; }
      }
    }
    if s == [] {
      ZerosValue(z, base);
      assert t == Repeat('0', z);
    } else {
      ValueOfLeadingZeros(z, s[..|s| - 1], base);
      assert t[..|t| - 1] == Repeat('0', z) + s[..|s| - 1];
    }
  }

  lemma {:induction false} ZerosValue(z: nat, base: nat)
    requires 2 <= base <= 16
    ensures AllDigits(Repeat('0', z), base) && ValueOf(Repeat('0', z), base) == 0
  {
    if z > 0 {
      ZerosValue(z - 1, base);
      assert Repeat('0', z)[..z - 1] == Repeat('0', z - 1);
    }
  }

  /** The longest prefix of `s` made of digits of `base`. */
  function DigitPrefix(s: string, base: nat): (r: string)
    ensures AllDigits(r, base) && StartsWith(s, r)
    ensures |r| < |s| ==> !IsDigit(s[|r|], base)
  {
    if s != [] && IsDigit(s[0], base) then [s[0]] + DigitPrefix(s[1..], base) else []
  }

  /** `parseInt(s, 10)`: leading whitespace, an optional sign, then as many
      decimal digits as there are; None stands for NaN (no digit at all). */
  function ParseIntDecimal(s: string): (r: Option<int>)
  {
    var t := TrimStart(s);
    var negative := t != [] && t[0] == '-';
    var body := Unsigned(t);
    var ds := DigitPrefix(body, 10);
    var magnitude: int := if ds == [] then 0 else ValueOf(ds, 10);
    if ds == [] then None
    else Some(if negative then -magnitude else magnitude)
  }

  /** `parseInt(s, 10)` is NaN exactly when no digit follows the leading
      whitespace and the optional sign; otherwise it is the run of digits
      there, negated after a '-'. */
  lemma ParseIntDecimalSpec(s: string)
    ensures var body := Unsigned(TrimStart(s));
            ParseIntDecimal(s).None? <==> body == [] || !IsDigit(body[0], 10)
    ensures var t := TrimStart(s);
            var v: int := ValueOf(DigitPrefix(Unsigned(t), 10), 10);
            ParseIntDecimal(s).Some? ==> ParseIntDecimal(s).value == if t != [] && t[0] == '-' then -v else v
  {
  }

  /** The text after one leading sign, if there is one. */
  function Unsigned(t: string): (body: string)
    ensures t != [] && (t[0] == '+' || t[0] == '-') ==> body == t[1..]
    ensures !(t != [] && (t[0] == '+' || t[0] == '-')) ==> body == t
  {
    if t != [] && (t[0] == '+' || t[0] == '-') then t[1..] else t
  }

  /** What `parseInt` reads, stated on the shape of the input: leading
      whitespace, an optional sign, a run of digits, and a rest that does
      not start with a digit. The result is the signed value of the run,
      whatever the rest holds. */
  lemma {:induction false} ParseIntDecimalReads(ws: string, sign: string, ds: string, rest: string)
    requires AllWhitespace(ws)
    requires sign == "" || sign == "+" || sign == "-"
    requires ds != [] && AllDigits(ds, 10)
    requires rest == [] || !IsDigit(rest[0], 10)
    ensures var v: int := ValueOf(ds, 10);
            ParseIntDecimal(ws + sign + (ds + rest)) == Some(if sign == "-" then -v else v)
  {
    var x := ds + rest;
    assert x[0] == ds[0] && IsDigit(ds[0], 10);
    AfterWhitespaceAndSign(ws, sign, x);
    DigitPrefixOfRun(ds, rest);
  }

  /** With no digit after the whitespace and the optional sign, `parseInt`
      gives NaN, for example for "", "  ", "-" or "abc". */
  lemma {:induction false} ParseIntDecimalNaN(ws: string, sign: string, rest: string)
    requires AllWhitespace(ws)
    requires sign == "" || sign == "+" || sign == "-"
    requires rest == [] || (!IsDigit(rest[0], 10) && !IsWhitespace(rest[0]) && rest[0] != '+' && rest[0] != '-')
    ensures ParseIntDecimal(ws + sign + rest).None?
  {
    AfterWhitespaceAndSign(ws, sign, rest);
  }

  /** Whitespace and a sign are skipped when what follows is neither. */
  lemma {:induction false} AfterWhitespaceAndSign(ws: string, sign: string, x: string)
    requires AllWhitespace(ws)
    requires sign == "" || sign == "+" || sign == "-"
    requires x == [] || (!IsWhitespace(x[0]) && x[0] != '+' && x[0] != '-')
    ensures var t := TrimStart(ws + sign + x);
            Unsigned(t) == x && (t != [] && t[0] == '-' <==> sign == "-")
  {
    var t := sign + x;
    assert ws + sign + x == ws + t;
    TrimStartAfterWhitespace(ws, t);
    if sign == "" {
      assert t == x;
    } else {
      assert t[0] == sign[0] && t[1..] == x;
    }
  }

  lemma {:induction false} TrimStartAfterWhitespace(ws: string, t: string)
    requires AllWhitespace(ws)
    requires t == [] || !IsWhitespace(t[0])
    ensures TrimStart(ws + t) == t
  {
    if ws == [] {
      assert ws + t == t;
    } else {
      assert (ws + t)[0] == ws[0] && (ws + t)[1..] == ws[1..] + t;
      TrimStartAfterWhitespace(ws[1..], t);
    }
  }

  lemma {:induction false} DigitPrefixOfRun(ds: string, rest: string)
    requires AllDigits(ds, 10)
    requires rest == [] || !IsDigit(rest[0], 10)
    ensures DigitPrefix(ds + rest, 10) == ds
  {
    if ds == [] {
      assert ds + rest == rest;
    } else {
      assert (ds + rest)[0] == ds[0] && (ds + rest)[1..] == ds[1..] + rest;
      DigitPrefixOfRun(ds[1..], rest);
    }
  }

  /** A string of decimal digits parses to its value. */
  lemma DecimalDigitsParse(ds: string)
    requires ds != [] && AllDigits(ds, 10)
    ensures ParseIntDecimal(ds) == Some(ValueOf(ds, 10))
  {
    assert !IsWhitespace(ds[0]) && ds[0] != '+' && ds[0] != '-';
    DigitPrefixOfDigits(ds, 10);
  }

  lemma {:induction false} DigitPrefixOfDigits(s: string, base: nat)
    requires AllDigits(s, base)
    ensures DigitPrefix(s, base) == s
  {
    if s != [] {
      DigitPrefixOfDigits(s[1..], base);
    }
  }

  /** `n.toString()` for a non-negative integer. */
  function NatToString(n: nat): (s: string)
    ensures s != [] && AllDigits(s, 10)
  {
    ToBase(n, 10)
  }

  /** `parseInt` reads back what `toString` printed. */
  lemma ParseNatToString(n: nat)
    ensures ParseIntDecimal(NatToString(n)) == Some(n)
  {
    ValueOfToBase(n, 10);
    DecimalDigitsParse(NatToString(n));
  }

  /** `i.toString()` for any integer. */
  function IntToString(i: int): (s: string)
  {
    if i < 0 then "-" + ToBase(-i, 10) else NatToString(i)
  }
}
