/**
 * JavaScript's `parseInt(s, 10)` as the handshake uses it to read the
 * `playerID` query parameter: skip leading white space, read an optional
 * sign, then the longest run of decimal digits; no digit at all gives NaN
 * (here `None`). Trailing text after the digits is ignored.
 */
module JsParseInt {
  import opened Wrappers
  import opened Text

  /** The white space and line terminators that `parseInt` skips. */
  predicate IsJsSpace(c: char)
  {
    || c == '\t' || c == '\n' || c == '\U{000B}' || c == '\U{000C}' || c == '\r' || c == ' '
    || c == '\U{00A0}' || c == '\U{1680}' || ('\U{2000}' <= c <= '\U{200A}')
    || c == '\U{2028}' || c == '\U{2029}' || c == '\U{202F}' || c == '\U{205F}'
    || c == '\U{3000}' || c == '\U{FEFF}'
  }

  /** The input without its leading white space. */
  function TrimStart(s: string): (t: string)
    ensures |t| <= |s| && t == s[|s| - |t|..]
    ensures forall i :: 0 <= i < |s| - |t| ==> IsJsSpace(s[i])
    ensures t == [] || !IsJsSpace(t[0])
  {
    if s != [] && IsJsSpace(s[0]) then TrimStart(s[1..]) else s
  }

  /** How many decimal digits `s` starts with. */
  function DigitRun(s: string): (k: nat)
    ensures k <= |s|
    ensures forall i :: 0 <= i < k ==> IsDigit(s[i])
    ensures k == |s| || !IsDigit(s[k])
  {
    if s != [] && IsDigit(s[0]) then 1 + DigitRun(s[1..]) else 0
  }

  function DigitValue(c: char): int
  {
    c as int - '0' as int
  }

  /** The value of a string of decimal digits, most significant first. */
  function DigitsValue(ds: string): int
  {
    if ds == [] then 0 else DigitsValue(ds[..|ds| - 1]) * 10 + DigitValue(ds[|ds| - 1])
  }

  /** The sign and the text after it. */
  function Sign(t: string): (int, string)
  {
    if t != [] && t[0] == '-' then (-1, t[1..])
    else if t != [] && t[0] == '+' then (1, t[1..])
    else (1, t)
  }

  function ParseInt(s: string): Option<int>
  {
    var (sign, body) := Sign(TrimStart(s));
    var k := DigitRun(body);
    if k == 0 then None else Some(sign * DigitsValue(body[..k]))
  }

  function DigitChar(d: int): (c: char)
    requires 0 <= d < 10
    ensures IsDigit(c) && DigitValue(c) == d
  {
    ('0' as int + d) as char
  }

  /** `String(n)` for a non-negative integer: its decimal digits, no leading zero. */
  function Decimal(n: nat): (s: string)
    ensures s != []
    ensures forall i :: 0 <= i < |s| ==> IsDigit(s[i])
  {
    if n < 10 then [DigitChar(n)] else Decimal(n / 10) + [DigitChar(n % 10)]
  }

  /** `String(n)` for any integer. */
  function IntToString(n: int): string
  {
    if n < 0 then "-" + Decimal(-n) else Decimal(n)
  }

  lemma {:induction false} DecimalValue(n: nat)
    ensures DigitsValue(Decimal(n)) == n
  {
    if n >= 10 {
      var s := Decimal(n);
      assert s[..|s| - 1] == Decimal(n / 10);
      DecimalValue(n / 10);
    }
  }

  lemma DigitIsNotSpace(c: char)
    requires IsDigit(c)
    ensures !IsJsSpace(c)
  {
  }

  /** A run of digits, then anything that does not start with a digit, reads as the run's value. */
  lemma {:induction false} ParseDigits(d: string, rest: string)
    requires d != [] && forall i :: 0 <= i < |d| ==> IsDigit(d[i])
    requires rest == [] || !IsDigit(rest[0])
    ensures ParseInt(d + rest) == Some(DigitsValue(d))
  {
    var t := d + rest;
    assert t[0] == d[0];
    DigitIsNotSpace(t[0]);
    assert TrimStart(t) == t;
    assert Sign(t) == (1, t);
    DigitRunOf(d, rest);
    assert t[..|d|] == d;
  }

  /** A minus sign in front of a digit negates what follows. */
  lemma {:induction false} ParseMinus(t: string)
    requires t != [] && IsDigit(t[0])
    ensures ParseInt(t).Some?
    ensures ParseInt("-" + t) == Some(-ParseInt(t).value)
  {
    var u := "-" + t;
    assert u[0] == '-' && !IsJsSpace(u[0]);
    assert TrimStart(u) == u;
    assert u[1..] == t;
    assert Sign(u) == (-1, t);
    DigitIsNotSpace(t[0]);
    assert TrimStart(t) == t;
    assert Sign(t) == (1, t);
  }

  /** The same run of digits after a minus sign reads as its negation. */
  lemma {:induction false} ParseDigitsNegated(d: string, rest: string)
    requires d != [] && forall i :: 0 <= i < |d| ==> IsDigit(d[i])
    requires rest == [] || !IsDigit(rest[0])
    ensures ParseInt("-" + (d + rest)) == Some(-DigitsValue(d))
  {
    var t := d + rest;
    var u := "-" + t;
    assert u[0] == '-' && !IsJsSpace(u[0]);
    assert TrimStart(u) == u;
    assert u[1..] == t;
    assert Sign(u) == (-1, t);
    DigitRunOf(d, rest);
    assert t[..|d|] == d;
  }

  /** Reading stops at the first character that is not a digit, whatever follows. */
  lemma {:induction false} ParseIntStopsAtNonDigit(n: nat, rest: string)
    requires rest == [] || !IsDigit(rest[0])
    ensures ParseInt(Decimal(n) + rest) == Some(n)
    ensures ParseInt("-" + (Decimal(n) + rest)) == Some(-(n as int))
  {
    ParseDigits(Decimal(n), rest);
    ParseDigitsNegated(Decimal(n), rest);
    DecimalValue(n);
  }

  lemma {:induction false} DigitRunOf(d: string, rest: string)
    requires forall i :: 0 <= i < |d| ==> IsDigit(d[i])
    requires rest == [] || !IsDigit(rest[0])
    ensures DigitRun(d + rest) == |d|
  {
    if d != [] {
      assert (d + rest)[1..] == d[1..] + rest;
      DigitRunOf(d[1..], rest);
    } else {
      assert d + rest == rest;
    }
  }

  /** Printing an integer and parsing it back gives the integer. */
  lemma {:induction false} ParseIntRoundTrip(n: int)
    ensures ParseInt(IntToString(n)) == Some(n)
  {
    var m: nat := if n < 0 then -n else n;
    var d := Decimal(m);
    assert d + [] == d;
    DecimalValue(m);
    if n < 0 {
      ParseDigitsNegated(d, []);
    } else {
      ParseDigits(d, []);
    }
  }

  /** Leading white space is skipped. */
  lemma {:induction false} ParseIntSkipsSpace(c: char, s: string)
    requires IsJsSpace(c)
    ensures ParseInt([c] + s) == ParseInt(s)
  {
    assert ([c] + s)[1..] == s;
  }

  /** A string that, after white space and sign, does not start with a digit is NaN. */
  lemma {:induction false} ParseIntNaN(s: string)
    ensures ParseInt(s) == None <==>
      var body := Sign(TrimStart(s)).1;
      body == [] || !IsDigit(body[0])
  {
  }
}
