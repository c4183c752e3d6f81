/**
 * The two JavaScript string built-ins the scheduler relies on:
 * `String.prototype.trim` (used on the event title) and `parseInt(s, 10)`
 * (used on the lead time and on the minutes-from-now input), together with
 * the decimal rendering of a natural number, which is the partner that
 * `parseInt` inverts.
 */
module JsText {
  import opened Optional

  /** The WhiteSpace and LineTerminator code points of ECMAScript, which `trim` and `parseInt` skip. */
  predicate IsJsSpace(c: char) {
    || c == '\t' || c == '\n' || c == '\U{000B}' || c == '\U{000C}' || c == '\r' || c == ' '
    || c == '\U{00A0}' || c == '\U{1680}' || ('\U{2000}' <= c <= '\U{200A}')
    || c == '\U{2028}' || c == '\U{2029}' || c == '\U{202F}' || c == '\U{205F}'
    || c == '\U{3000}' || c == '\U{FEFF}'
  }

  predicate IsDigit(c: char) {
    '0' <= c <= '9'
  }

  predicate AllSpace(s: string) {
    forall k :: 0 <= k < |s| ==> IsJsSpace(s[k])
  }

  predicate AllDigits(s: string) {
    forall k :: 0 <= k < |s| ==> IsDigit(s[k])
  }

  /** Number of white-space characters at the front of `s`. */
  function LeadingSpaces(s: string): (n: nat)
    ensures n <= |s|
    ensures AllSpace(s[..n])
    ensures n < |s| ==> !IsJsSpace(s[n])
  {
    if |s| > 0 && IsJsSpace(s[0]) then
      var n := 1 + LeadingSpaces(s[1..]);
      assert s[..n] == [s[0]] + s[1..][..n - 1];
      n
    else 0
  }

  /** Number of white-space characters at the end of `s`. */
  function TrailingSpaces(s: string): (n: nat)
    ensures n <= |s|
    ensures AllSpace(s[|s| - n..])
    ensures n < |s| ==> !IsJsSpace(s[|s| - n - 1])
  {
    if |s| > 0 && IsJsSpace(s[|s| - 1]) then
      var n := 1 + TrailingSpaces(s[..|s| - 1]);
      assert s[|s| - n..] == s[..|s| - 1][|s| - n..] + [s[|s| - 1]];
      n
    else 0
  }

  /** `String.prototype.trim`: `s` without its leading and trailing white space. */
  function Trim(s: string): (r: string)
    ensures |r| <= |s|
    ensures r == [] || (!IsJsSpace(r[0]) && !IsJsSpace(r[|r| - 1]))
    ensures r == [] <==> AllSpace(s)
  {
    var i := LeadingSpaces(s);
    if i == |s| then []
    else
      var j := |s| - TrailingSpaces(s);
      assert !AllSpace(s) by { assert !IsJsSpace(s[i]); }
      s[i..j]
  }

  /** Trim only removes white space: `s` is white space, then `Trim(s)`, then white space. */
  lemma TrimSplits(s: string)
    ensures exists i, j :: 0 <= i <= j <= |s| && s[i..j] == Trim(s) && AllSpace(s[..i]) && AllSpace(s[j..])
  {
    var i := LeadingSpaces(s);
    if i == |s| {
      assert s[i..i] == Trim(s) && AllSpace(s[..i]) && AllSpace(s[i..]);
    } else {
      var j := |s| - TrailingSpaces(s);
      assert s[i..j] == Trim(s) && AllSpace(s[..i]) && AllSpace(s[j..]);
    }
  }

  /** Trimming twice is trimming once. */
  lemma TrimIdempotent(s: string)
    ensures Trim(Trim(s)) == Trim(s)
  {
    var t := Trim(s);
    if t != [] {
      assert LeadingSpaces(t) == 0;
      assert TrailingSpaces(t) == 0;
      assert t[0..|t|] == t;
    }
  }

  /** The value of a string of decimal digits, most significant first. */
  function DigitsValue(ds: string): (v: nat)
    requires AllDigits(ds)
  {
    if ds == [] then 0
    else DigitsValue(ds[..|ds| - 1]) * 10 + ((ds[|ds| - 1] as int) - ('0' as int))
  }

  /** Length of the longest all-digit prefix of `s`. */
  function DigitRun(s: string): (n: nat)
    ensures n <= |s|
    ensures AllDigits(s[..n])
    ensures n < |s| ==> !IsDigit(s[n])
  {
    if |s| > 0 && IsDigit(s[0]) then
      var n := 1 + DigitRun(s[1..]);
      assert s[..n] == [s[0]] + s[1..][..n - 1];
      n
    else 0
  }

  /**
   * `parseInt(s, 10)`: skip leading white space, read an optional sign and the
   * longest run of decimal digits; `None` stands for `NaN` (no digit there).
   * Whatever follows the digits is ignored.
   */
  function ParseInt(s: string): (r: Option<int>)
  {
    var t := s[LeadingSpaces(s)..];
    var negative := |t| > 0 && t[0] == '-';
    var body := if |t| > 0 && (t[0] == '-' || t[0] == '+') then t[1..] else t;
    var n := DigitRun(body);
    if n == 0 then None
    else
      var v := DigitsValue(body[..n]);
      Some(if negative then -(v as int) else v)
  }

  function DigitChar(d: nat): (c: char)
    requires d < 10
    ensures IsDigit(c)
  {
    ('0' as int + d) as char
  }

  /** The decimal digits of `n` (`String(n)` for `n` below 10^21). */
  function Decimal(n: nat): (s: string)
    ensures |s| > 0 && AllDigits(s)
  {
    if n < 10 then [DigitChar(n)] else Decimal(n / 10) + [DigitChar(n % 10)]
  }

  /** Reading back a rendered number gives the number. */
  lemma {:induction false} DecimalValue(n: nat)
    ensures DigitsValue(Decimal(n)) == n
  {
    if n >= 10 {
      var s := Decimal(n);
      assert s[..|s| - 1] == Decimal(n / 10);
      DecimalValue(n / 10);
    }
  }

  /** `parseInt` inverts `Decimal`, also when non-digit text follows the number. */
  lemma ParseDecimal(n: nat, rest: string)
    requires rest == [] || !IsDigit(rest[0])
    ensures ParseInt(Decimal(n) + rest) == Some(n)
  {
    var s := Decimal(n) + rest;
    assert LeadingSpaces(s) == 0 by {
      assert !IsJsSpace(s[0]) by { assert s[0] == Decimal(n)[0]; }
    }
    assert s[0..] == s;
    assert s[0] != '-' && s[0] != '+' by { assert s[0] == Decimal(n)[0]; }
    DigitRunOfNumber(Decimal(n), rest);
    assert s[..|Decimal(n)|] == Decimal(n);
    DecimalValue(n);
  }

  /** `parseInt` of a minus sign followed by a rendered number gives its negation. */
  lemma ParseNegativeDecimal(n: nat)
    ensures ParseInt("-" + Decimal(n)) == Some(-(n as int))
  {
    var s := "-" + Decimal(n);
    assert LeadingSpaces(s) == 0;
    assert s[0..] == s;
    assert s[1..] == Decimal(n) + [];
    DigitRunOfNumber(Decimal(n), []);
    assert Decimal(n)[..|Decimal(n)|] == Decimal(n);
    DecimalValue(n);
  }

  lemma {:induction false} DigitRunOfNumber(ds: string, rest: string)
    requires AllDigits(ds)
    requires rest == [] || !IsDigit(rest[0])
    ensures DigitRun(ds + rest) == |ds|
  {
    if ds != [] {
      assert (ds + rest)[1..] == ds[1..] + rest;
      DigitRunOfNumber(ds[1..], rest);
    }
  }
}
