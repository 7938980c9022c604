/** The few pieces of JavaScript's string semantics the core relies on:
    `String.prototype.trim`, the regular-expression classes `\s` and `.`,
    and `parseInt(s, 10)`. Characters are Unicode scalar values. */
module JsText {
  import opened Wrappers

  /** ECMAScript WhiteSpace or LineTerminator: what `trim` strips and `\s` matches. */
  predicate IsWhite(c: char) {
    var n := c as int;
    n == 0x09 || n == 0x0A || n == 0x0B || n == 0x0C || n == 0x0D || n == 0x20
    || n == 0xA0 || n == 0x1680 || (0x2000 <= n <= 0x200A) || n == 0x2028
    || n == 0x2029 || n == 0x202F || n == 0x205F || n == 0x3000 || n == 0xFEFF
  }

  /** ECMAScript LineTerminator: the characters a regular-expression `.` does not match. */
  predicate IsLineTerminator(c: char) {
    c == '\n' || c == '\r' || c as int == 0x2028 || c as int == 0x2029
  }

  predicate AllWhite(s: string) {
    forall i :: 0 <= i < |s| ==> IsWhite(s[i])
  }

  /** A string that `trim` leaves alone: empty, or not white at either end. */
  predicate Trimmed(s: string) {
    s == [] || (!IsWhite(s[0]) && !IsWhite(s[|s| - 1]))
  }

  predicate StartsWith(s: string, prefix: string) {
    |prefix| <= |s| && s[..|prefix|] == prefix
  }

  predicate PaddedBy(s: string, front: string, r: string, back: string) {
    AllWhite(front) && AllWhite(back) && s == front + r + back
  }

  /** The number of white characters at the front of `s`. */
  function LeadingWhite(s: string): (n: nat)
    ensures n <= |s| && AllWhite(s[..n])
    ensures n < |s| ==> !IsWhite(s[n])
  {
    if s == [] || !IsWhite(s[0]) then 0 else 1 + LeadingWhite(s[1..])
  }

  /** The number of white characters at the end of `s`. */
  function TrailingWhite(s: string): (n: nat)
    ensures n <= |s| && AllWhite(s[|s| - n..])
    ensures n < |s| ==> !IsWhite(s[|s| - 1 - n])
  {
    if s == [] || !IsWhite(s[|s| - 1]) then 0 else 1 + TrailingWhite(s[..|s| - 1])
  }

  /** `s.trimStart()`: `s` with its leading white space removed. */
  function TrimStart(s: string): (r: string)
    ensures r == [] || !IsWhite(r[0])
  {
    s[LeadingWhite(s)..]
  }

  /** `s.trimEnd()`: `s` with its trailing white space removed. */
  function TrimEnd(s: string): (r: string)
    ensures r == [] || !IsWhite(r[|r| - 1])
  {
    s[..|s| - TrailingWhite(s)]
  }

  /** `s.trim()`. */
  function Trim(s: string): (r: string)
    ensures |r| <= |s|
    ensures r == [] || !IsWhite(r[|r| - 1])
  {
    TrimEnd(TrimStart(s))
  }

  /** `trim` leaves a trimmed string, and `s` is that string padded with white
      space on both sides. */
  lemma TrimSpec(s: string)
    ensures Trimmed(Trim(s))
    ensures exists front, back :: PaddedBy(s, front, Trim(s), back)
  {
    var t := TrimStart(s);
    var r := TrimEnd(t);
    assert r != [] ==> r[0] == t[0];
    var front := TrimStartSplit(s);
    var back := TrimEndSplit(t);
    assert s == front + r + back;
    assert PaddedBy(s, front, r, back);
  }

  /** What `TrimStart` removes is white space. */
  lemma TrimStartSplit(s: string) returns (front: string)
    ensures AllWhite(front) && s == front + TrimStart(s)
  {
    var a := LeadingWhite(s);
    front := s[..a];
    assert AllWhite(front);
    assert TrimStart(s) == s[a..];
    assert s == s[..a] + s[a..];
  }

  /** What `TrimEnd` removes is white space. */
  lemma TrimEndSplit(s: string) returns (back: string)
    ensures AllWhite(back) && s == TrimEnd(s) + back
  {
    var b := TrailingWhite(s);
    var k := |s| - b;
    back := s[k..];
    assert AllWhite(back);
    assert TrimEnd(s) == s[..k];
    assert s == s[..k] + s[k..];
  }

  lemma {:induction false} LeadingWhiteOfPadded(w: string, s: string)
    requires AllWhite(w) && (s == [] || !IsWhite(s[0]))
    ensures LeadingWhite(w + s) == |w|
  {
    if w != [] {
      assert (w + s)[1..] == w[1..] + s;
      LeadingWhiteOfPadded(w[1..], s);
    }
  }

  lemma {:induction false} TrailingWhiteOfPadded(s: string, w: string)
    requires AllWhite(w) && (s == [] || !IsWhite(s[|s| - 1]))
    ensures TrailingWhite(s + w) == |w|
  {
    if w != [] {
      assert (s + w)[..|s + w| - 1] == s + w[..|w| - 1];
      TrailingWhiteOfPadded(s, w[..|w| - 1]);
    }
  }

  lemma TrimEndSkipsWhite(s: string, w: string)
    requires AllWhite(w) && (s == [] || !IsWhite(s[|s| - 1]))
    ensures TrimEnd(s + w) == s
  {
    TrailingWhiteOfPadded(s, w);
    assert (s + w)[..|s|] == s;
  }

  lemma TrimStartSkipsWhite(w: string, s: string)
    requires AllWhite(w) && (s == [] || !IsWhite(s[0]))
    ensures TrimStart(w + s) == s
  {
    LeadingWhiteOfPadded(w, s);
    assert (w + s)[|w|..] == s;
  }

  /** Trimming removes exactly the white padding around a trimmed string:
      together with the contract of `Trim` this pins the result down. */
  lemma TrimOfPadded(front: string, t: string, back: string)
    requires AllWhite(front) && AllWhite(back) && Trimmed(t)
    ensures Trim(front + t + back) == t
  {
    var s := front + t + back;
    if t == [] {
      assert s == (front + back) + [];
      assert AllWhite(front + back);
      TrimStartSkipsWhite(front + back, []);
      assert TrimEnd([]) == [];
    } else {
      assert s == front + (t + back);
      TrimStartSkipsWhite(front, t + back);
      TrimEndSkipsWhite(t, back);
    }
  }

  lemma TrimIdempotent(s: string)
    ensures Trim(Trim(s)) == Trim(s)
  {
    var t := Trim(s);
    TrimSpec(s);
    assert [] + t + [] == t;
    TrimOfPadded([], t, []);
  }

  // ---------------------------------------------------------------------
  // parseInt(s, 10)

  predicate IsDigit(c: char) {
    '0' <= c <= '9'
  }

  predicate AllDigits(s: string) {
    forall i :: 0 <= i < |s| ==> IsDigit(s[i])
  }

  function DigitValue(c: char): nat
    requires IsDigit(c)
  {
    c as int - '0' as int
  }

  function DigitChar(d: nat): (c: char)
    requires d < 10
    ensures IsDigit(c) && DigitValue(c) == d
  {
    ('0' as int + d) as char
  }

  /** The number of decimal digits at the front of `s`. */
  function LeadingDigits(s: string): (n: nat)
    ensures n <= |s| && AllDigits(s[..n])
    ensures n < |s| ==> !IsDigit(s[n])
  {
    if s == [] || !IsDigit(s[0]) then 0 else 1 + LeadingDigits(s[1..])
  }

  /** The value of a string of decimal digits, most significant first. */
  function DigitsValue(d: string): nat
    requires AllDigits(d)
  {
    if d == [] then 0 else DigitsValue(d[..|d| - 1]) * 10 + DigitValue(d[|d| - 1])
  }

  /** The longest run of decimal digits at the front of `u`, as a number;
      `None` when `u` does not start with a digit. */
  function ReadDigits(u: string): Option<int> {
    var n := LeadingDigits(u);
    if n == 0 then None else Some(DigitsValue(u[..n]))
  }

  /** What `parseInt` reads once leading white space is gone: an optional
      sign, then the longest run of decimal digits. */
  function ParseSigned(t: string): Option<int> {
    if t != [] && t[0] == '-' then
      match ReadDigits(t[1..])
      case None => None
      case Some(m) => Some(-m)
    else if t != [] && t[0] == '+' then ReadDigits(t[1..])
    else ReadDigits(t)
  }

  /** `parseInt(s, 10)`: `None` is NaN (no digit after the white space and
      sign). JavaScript's -0 is returned as 0: both are falsy. */
  function ParseInt(s: string): (r: Option<int>)
    ensures var t := TrimStart(s);
      var u := if t != [] && (t[0] == '-' || t[0] == '+') then t[1..] else t;
      r.Some? <==> u != [] && IsDigit(u[0])
  {
    ParseSigned(TrimStart(s))
  }

  /** The shortest decimal spelling of `n`, as `String(n)` writes it. */
  function Decimal(n: nat): (s: string)
    ensures s != [] && AllDigits(s)
  {
    if n < 10 then [DigitChar(n)] else Decimal(n / 10) + [DigitChar(n % 10)]
  }

  lemma {:induction false} DecimalValue(n: nat)
    ensures DigitsValue(Decimal(n)) == n
  {
    if n >= 10 {
      var d := Decimal(n);
      assert d[..|d| - 1] == Decimal(n / 10);
      DecimalValue(n / 10);
    }
  }

  lemma {:induction false} LeadingDigitsOfDigits(d: string, rest: string)
    requires AllDigits(d) && (rest == [] || !IsDigit(rest[0]))
    ensures LeadingDigits(d + rest) == |d|
  {
    if d != [] {
      assert (d + rest)[1..] == d[1..] + rest;
      LeadingDigitsOfDigits(d[1..], rest);
    }
  }

  /** Leading white space does not change what `parseInt` reads. */
  lemma ParseIntSkipsWhite(front: string, s: string)
    requires AllWhite(front) && (s == [] || !IsWhite(s[0]))
    ensures ParseInt(front + s) == ParseSigned(s)
  {
    TrimStartSkipsWhite(front, s);
  }

  /** A sign as `parseInt` accepts it: none, `+` or `-`. */
  predicate IsSign(sign: string) {
    sign == "" || sign == "+" || sign == "-"
  }

  /** The value `v` with the sign applied. */
  function Signed(sign: string, v: int): int {
    if sign == "-" then -v else v
  }

  /** A run of digits is read in full, up to the first non-digit. */
  lemma ReadDigitsOf(d: string, rest: string)
    requires AllDigits(d) && |d| >= 1 && (rest == [] || !IsDigit(rest[0]))
    ensures ReadDigits(d + rest) == Some(DigitsValue(d))
  {
    LeadingDigitsOfDigits(d, rest);
    assert (d + rest)[..|d|] == d;
  }

  /** Without a sign, `ParseSigned` is `ReadDigits`. */
  lemma ParseSignedUnsigned(u: string)
    requires u != [] && IsDigit(u[0])
    ensures ParseSigned(u) == ReadDigits(u)
  {
  }

  /** After a sign, `ParseSigned` reads the digits that follow it. */
  lemma ParseSignedAfterSign(c: char, u: string)
    requires c == '-' || c == '+'
    ensures ParseSigned([c] + u) ==
      (if c == '+' then ReadDigits(u)
       else match ReadDigits(u) case None => None case Some(m) => Some(-m))
  {
    assert ([c] + u)[1..] == u;
  }

  lemma ParseSignedDigits(sign: string, u: string, v: int)
    requires IsSign(sign) && u != [] && IsDigit(u[0]) && ReadDigits(u) == Some(v)
    ensures ParseSigned(sign + u) == Some(Signed(sign, v))
  {
    if sign == "" {
      assert sign + u == u;
      ParseSignedUnsigned(u);
    } else {
      assert sign + u == [sign[0]] + u;
      ParseSignedAfterSign(sign[0], u);
    }
  }

  /** `parseInt` skips leading white space, takes an optional sign, reads the
      whole run of digits (leading zeros included) and ignores whatever
      follows it. */
  lemma ParseIntReadsDigits(front: string, sign: string, d: string, rest: string)
    requires AllWhite(front) && IsSign(sign)
    requires AllDigits(d) && |d| >= 1 && (rest == [] || !IsDigit(rest[0]))
    ensures ParseInt(front + sign + d + rest) == Some(Signed(sign, DigitsValue(d)))
  {
    var u := d + rest;
    ReadDigitsOf(d, rest);
    SignedDigitsStart(sign, d, rest);
    ParseSignedDigits(sign, u, DigitsValue(d));
    Associate(front, sign, d, rest);
    ParseIntSkipsWhite(front, sign + u);
  }

  lemma SignedDigitsStart(sign: string, d: string, rest: string)
    requires IsSign(sign) && |d| >= 1 && IsDigit(d[0])
    ensures (d + rest)[0] == d[0]
    ensures var t := sign + (d + rest); t != [] && !IsWhite(t[0])
  {
    var t := sign + (d + rest);
    assert t[0] == (if sign == "" then d[0] else sign[0]);
  }

  lemma Associate(front: string, sign: string, d: string, rest: string)
    ensures front + sign + d + rest == front + (sign + (d + rest))
  {
  }

  /** `parseInt` reads back what `Decimal` writes. */
  lemma ParseIntReadsDecimal(front: string, sign: string, n: nat, rest: string)
    requires AllWhite(front) && IsSign(sign) && (rest == [] || !IsDigit(rest[0]))
    ensures ParseInt(front + sign + Decimal(n) + rest) == Some(Signed(sign, n))
  {
    DecimalValue(n);
    ParseIntReadsDigits(front, sign, Decimal(n), rest);
  }

  /** Leading zeros are read as part of the number: "007" is 7 and "00" is 0. */
  lemma ParseIntLeadingZeros()
    ensures ParseInt("007") == Some(7)
    ensures ParseInt("00") == Some(0)
  {
    assert "007" == [] + "" + "007" + [];
    assert DigitsValue("007") == 7 by {
      assert "007"[..2] == "00" && "00"[..1] == "0" && "0"[..0] == "";
    }
    ParseIntReadsDigits([], "", "007", []);
    assert "00" == [] + "" + "00" + [];
    assert DigitsValue("00") == 0 by {
      assert "00"[..1] == "0" && "0"[..0] == "";
    }
    ParseIntReadsDigits([], "", "00", []);
  }

  lemma ParseIntDecimal(n: nat)
    ensures ParseInt(Decimal(n)) == Some(n)
  {
    ParseIntReadsDecimal([], "", n, []);
    assert [] + "" + Decimal(n) + [] == Decimal(n);
  }

  /** A string without any decimal digit parses to NaN. */
  lemma ParseIntWithoutDigits(s: string)
    requires forall i :: 0 <= i < |s| ==> !IsDigit(s[i])
    ensures ParseInt(s) == None
  {
    var t := TrimStart(s);
    var u := if t != [] && (t[0] == '-' || t[0] == '+') then t[1..] else t;
    var k := LeadingWhite(s);
    assert t == s[k..];
    assert u != [] ==> u[0] == s[|s| - |u|];
  }
}
