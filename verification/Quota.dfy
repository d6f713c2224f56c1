/** The two quota parsers: `_parse_quota_gb` (enforcement) and `_zivpn_parse_quota` (daemon config). */
module Quota {
  import opened Text

  const GIB: real := 1073741824.0

  predicate IsDigit(c: char) {
    '0' <= c <= '9'
  }

  /** Length of the run of digits a string starts with. */
  function DigitRun(s: string): (n: nat)
    ensures n <= |s|
    ensures forall i :: 0 <= i < n ==> IsDigit(s[i])
    ensures n < |s| ==> !IsDigit(s[n])
  {
    if s == "" || !IsDigit(s[0]) then 0 else 1 + DigitRun(s[1..])
  }

  function Digit(c: char): nat
    requires IsDigit(c)
  {
    (c - '0') as nat
  }

  function Whole(digits: string): nat
    requires forall i :: 0 <= i < |digits| ==> IsDigit(digits[i])
  {
    if digits == "" then 0 else 10 * Whole(digits[..|digits| - 1]) + Digit(digits[|digits| - 1])
  }

  /** The value of ".ddd". */
  function Fraction(digits: string): (r: real)
    requires forall i :: 0 <= i < |digits| ==> IsDigit(digits[i])
    ensures 0.0 <= r < 1.0
  {
    if digits == "" then 0.0 else (Digit(digits[0]) as real + Fraction(digits[1..])) / 10.0
  }

  /** The decimals after the separator at `n`. */
  function Decimals(s: string, n: nat): (r: real)
    requires n < |s|
    ensures 0.0 <= r < 1.0
  {
    var rest := s[n + 1..];
    Fraction(rest[..DigitRun(rest)])
  }

  /** The float matched by `^(\d+(?:\.\d+)?)`, or 0 without a match. */
  function Number(s: string): (r: real)
    ensures 0.0 <= r
  {
    var n := DigitRun(s);
    if n == 0 then 0.0
    else if n < |s| && s[n] == '.' then
      Whole(s[..n]) as real + Decimals(s, n)
    else Whole(s[..n]) as real
  }

  /** `s.replace(",", ".")`. */
  function DotForComma(s: string): (r: string)
    ensures |r| == |s|
    ensures forall i :: 0 <= i < |s| ==> r[i] == if s[i] == ',' then '.' else s[i]
  {
    seq(|s|, i requires 0 <= i < |s| => if s[i] == ',' then '.' else s[i])
  }

  /** From here on `float(..)` is infinite: 2^1024 less half the last step below it. */
  const INFINITE: real := 179769313486231580793728971405303415079934132710037826936173778980444968292764750946649017977587207096330286416692887910946555547851940402630657488671505820681908902000708383676273854845817711531764475730270069855571366959622842914819860834936475292719074168444365510704342711559699508093042880177904174497792.0

  /** `_parse_quota_gb`: accepts a decimal comma, and takes an infinite value for none. */
  function PanelQuota(text: string): (q: real)
    ensures 0.0 <= q < INFINITE
  {
    var q := Number(DotForComma(Strip(text)));
    if q < INFINITE then q else 0.0
  }

  /** `_zivpn_parse_quota`: neither; an infinite value stands for itself here. */
  function DaemonQuota(text: string): (q: real)
    ensures 0.0 <= q
  {
    Number(Strip(text))
  }

  /** A quota field as its two readers see it, in GB. */
  datatype Limit = Limit(panel: real, daemon: real)

  function ReadLimit(text: string): Limit {
    Limit(PanelQuota(text), DaemonQuota(text))
  }

  /** The stripped text is a whole number, a comma, and decimals that are not all zero. */
  predicate CommaDecimal(s: string) {
    var n := DigitRun(s);
    0 < n < |s| && s[n] == ',' && Decimals(s, n) != 0.0
  }

  lemma {:induction false} DigitRunDotted(s: string)
    ensures DigitRun(DotForComma(s)) == DigitRun(s)
    ensures DotForComma(s)[..DigitRun(s)] == s[..DigitRun(s)]
  {
    if s != "" && IsDigit(s[0]) {
      assert DotForComma(s)[1..] == DotForComma(s[1..]);
      DigitRunDotted(s[1..]);
    }
  }

  lemma DecimalsDotted(s: string, n: nat)
    requires n < |s|
    ensures Decimals(DotForComma(s), n) == Decimals(s, n)
  {
    assert DotForComma(s)[n + 1..] == DotForComma(s[n + 1..]);
    DigitRunDotted(s[n + 1..]);
  }

  lemma NumberDotted(s: string)
    ensures Number(DotForComma(s)) ==
            if CommaDecimal(s) then Number(s) + Decimals(s, DigitRun(s)) else Number(s)
  {
    var n := DigitRun(s);
    DigitRunDotted(s);
    if n < |s| { DecimalsDotted(s, n); }
  }

  /** Enforcement and the daemon agree on a quota exactly when it is finite and has no decimal comma
      before a nonzero fraction. With the comma enforcement allows more than the daemon's
      configuration does; an infinite quota enforcement takes for none. */
  lemma ParsersAgree(text: string)
    ensures ReadLimit(text).panel == ReadLimit(text).daemon <==>
            !CommaDecimal(Strip(text)) && ReadLimit(text).daemon < INFINITE
    ensures 0.0 <= ReadLimit(text).daemon
    ensures if ReadLimit(text).daemon < INFINITE then ReadLimit(text).daemon <= ReadLimit(text).panel
            else ReadLimit(text).panel == 0.0
  {
    var s := Strip(text);
    NumberDotted(s);
    if CommaDecimal(s) {
      var n := Whole(s[..DigitRun(s)]);
      assert Number(s) == n as real;
      BelowTheNextWhole(n, Decimals(s, DigitRun(s)));
    }
  }

  /** `INFINITE` is whole, so a fraction does not carry a smaller whole number to it. */
  lemma BelowTheNextWhole(n: nat, r: real)
    requires 0.0 <= r < 1.0
    ensures n as real < INFINITE ==> n as real + r < INFINITE
  {
    var limit: nat := 179769313486231580793728971405303415079934132710037826936173778980444968292764750946649017977587207096330286416692887910946555547851940402630657488671505820681908902000708383676273854845817711531764475730270069855571366959622842914819860834936475292719074168444365510704342711559699508093042880177904174497792;
    assert limit as real == INFINITE;
    if n as real < INFINITE {
      assert n < limit;
      assert n + 1 <= limit;
      assert (n + 1) as real <= limit as real;
    }
  }

  // ---- what the parsers read ----

  predicate Digits(s: string) {
    forall i :: 0 <= i < |s| ==> IsDigit(s[i])
  }

  function Pow10(n: nat): nat {
    if n == 0 then 1 else 10 * Pow10(n - 1)
  }

  /** Decimal notation. */
  function Printed(n: nat): (s: string)
    ensures s != "" && Digits(s)
  {
    if n < 10 then [('0' as int + n) as char] else Printed(n / 10) + [('0' as int + n % 10) as char]
  }

  lemma {:induction false} PrintedIs(n: nat)
    ensures Whole(Printed(n)) == n
  {
    if n >= 10 {
      PrintedIs(n / 10);
      assert Printed(n)[..|Printed(n)| - 1] == Printed(n / 10);
    } else {
      assert Printed(n)[..0] == "";
    }
  }

  lemma {:induction false} WholeOfFirst(digits: string)
    requires Digits(digits) && digits != ""
    ensures Whole(digits) == Digit(digits[0]) * Pow10(|digits| - 1) + Whole(digits[1..])
  {
    var n := |digits| - 1;
    if n > 0 {
      var d := Digit(digits[0]);
      WholeOfFirst(digits[..n]);
      assert digits[..n][1..] == digits[1..][..n - 1];
      TenTimes(d, Pow10(n - 1));
    } else {
      assert digits[..0] == "" && digits[1..] == "";
    }
  }

  lemma TenTimes(d: nat, p: nat)
    ensures d * (10 * p) == 10 * (d * p)
  {
  }

  lemma AsReal(d: nat, p: nat)
    ensures (d * p) as real == d as real * p as real
  {
  }

  /** `f` is the fraction `w` over `p`. */
  predicate Over(f: real, p: nat, w: nat) {
    f * p as real == w as real
  }

  lemma OneMoreDigit(d: nat, f: real, p: nat, w: nat)
    requires Over(f, p, w)
    ensures Over((d as real + f) / 10.0, 10 * p, d * p + w)
  {
    var q := p as real;
    assert (10 * p) as real == 10.0 * q;
    assert (d as real + f) / 10.0 * (10.0 * q) == d as real * q + f * q;
    AsReal(d, p);
  }

  /** The digits after the point, divided by the power of ten they stand for. */
  lemma {:induction false} FractionIs(digits: string)
    requires Digits(digits)
    ensures Over(Fraction(digits), Pow10(|digits|), Whole(digits))
  {
    if digits == "" {
      assert Over(0.0, 1, 0);
    } else {
      var d, rest := Digit(digits[0]), digits[1..];
      assert |digits| - 1 == |rest| && Pow10(|digits|) == 10 * Pow10(|rest|);
      FractionIs(rest);
      WholeOfFirst(digits);
      OneMoreDigit(d, Fraction(rest), Pow10(|rest|), Whole(rest));
      assert Fraction(digits) == (d as real + Fraction(rest)) / 10.0;
    }
  }

  lemma {:induction false} DigitRunIs(digits: string, tail: string)
    requires Digits(digits) && (tail != "" ==> !IsDigit(tail[0]))
    ensures DigitRun(digits + tail) == |digits|
  {
    if digits == "" {
      assert digits + tail == tail;
    } else {
      assert (digits + tail)[1..] == digits[1..] + tail;
      DigitRunIs(digits[1..], tail);
    }
  }

  /** A printed whole number, whatever unit follows it, reads back as that number. */
  lemma WholeReadsBack(n: nat, unit: string)
    requires unit != "" ==> !IsDigit(unit[0]) && unit[0] != '.'
    ensures Number(Printed(n) + unit) == n as real
  {
    DigitRunIs(Printed(n), unit);
    PrintedIs(n);
    assert (Printed(n) + unit)[..|Printed(n)|] == Printed(n);
  }

  /** With decimals, as that number and the fraction the decimals are. */
  lemma DecimalReadsBack(n: nat, decimals: string, unit: string)
    requires Digits(decimals) && (unit != "" ==> !IsDigit(unit[0]))
    ensures Number(Printed(n) + ("." + (decimals + unit))) == n as real + Fraction(decimals)
  {
    var rest := "." + (decimals + unit);
    var s := Printed(n) + rest;
    DigitRunIs(Printed(n), rest);
    PrintedIs(n);
    assert s[..|Printed(n)|] == Printed(n) && s[|Printed(n)|] == '.';
    assert s[|Printed(n)| + 1..] == decimals + unit;
    DigitRunIs(decimals, unit);
    assert (decimals + unit)[..|decimals|] == decimals;
  }
}
