/**
 * The string operations the pages and forms rely on, restricted to ASCII:
 * `trim`, `toLowerCase`, `includes`, `parseInt`, the `Number(...)` conversion
 * that JavaScript applies when a string is compared with a number, and the
 * decimal rendering `String(n)` of an integer (how a numeric `Id` becomes the
 * `value` of a `<select>` option).
 */
module Text {
  import opened Wrappers

  /** The ASCII whitespace that `String.prototype.trim` removes (space, tab, LF, VT, FF, CR). */
  predicate IsSpace(c: char) {
    c == ' ' || (9 <= c as int <= 13)
  }

  predicate IsDigit(c: char) {
    '0' <= c <= '9'
  }

  predicate AllDigits(s: string) {
    forall i :: 0 <= i < |s| ==> IsDigit(s[i])
  }

  /** Drops leading whitespace. */
  function TrimStart(s: string): string {
    if s != [] && IsSpace(s[0]) then TrimStart(s[1..]) else s
  }

  /** Drops trailing whitespace. */
  function TrimEnd(s: string): string {
    if s != [] && IsSpace(s[|s| - 1]) then TrimEnd(s[..|s| - 1]) else s
  }

  /** `TrimStart` leaves the suffix that follows the leading spaces. */
  lemma {:induction false} TrimStartShape(s: string)
    ensures var r := TrimStart(s);
      && |r| <= |s| && r == s[|s| - |r|..]
      && (forall i :: 0 <= i < |s| - |r| ==> IsSpace(s[i]))
      && (r == [] || !IsSpace(r[0]))
  {
    if s != [] && IsSpace(s[0]) {
      var t := s[1..];
      TrimStartShape(t);
      var r := TrimStart(t);
      assert TrimStart(s) == r;
      assert t[|t| - |r|..] == s[|s| - |r|..];
      forall i | 0 <= i < |s| - |r|
        ensures IsSpace(s[i])
      {
        if i > 0 {
          assert s[i] == t[i - 1];
        }
      }
    }
  }

  /** `TrimEnd` leaves the prefix that precedes the trailing spaces. */
  lemma {:induction false} TrimEndShape(s: string)
    ensures var r := TrimEnd(s);
      && |r| <= |s| && r == s[..|r|]
      && (forall i :: |r| <= i < |s| ==> IsSpace(s[i]))
      && (r == [] || !IsSpace(r[|r| - 1]))
  {
    if s != [] && IsSpace(s[|s| - 1]) {
      TrimEndShape(s[..|s| - 1]);
      var r := TrimEnd(s[..|s| - 1]);
      assert r == s[..|s| - 1][..|r|];
    }
  }

  /** `s.trim()`: the whitespace at both ends removed. */
  function Trim(s: string): string {
    TrimEnd(TrimStart(s))
  }

  /** `!s.trim()`: nothing but whitespace. */
  predicate IsBlank(s: string) {
    Trim(s) == ""
  }

  lemma {:induction false} TrimStartOfBlank(s: string)
    requires forall i :: 0 <= i < |s| ==> IsSpace(s[i])
    ensures TrimStart(s) == ""
  {
    if s != [] {
      TrimStartOfBlank(s[1..]);
    }
  }

  lemma {:induction false} TrimStartKeepsNonSpace(s: string)
    requires s != [] && !IsSpace(s[0])
    ensures TrimStart(s) == s
  {
  }

  lemma {:induction false} TrimEndKeepsNonSpace(s: string)
    requires s != [] && !IsSpace(s[|s| - 1])
    ensures TrimEnd(s) == s
  {
  }

  /** A string is blank after trimming exactly when every character is whitespace. */
  lemma IsBlankIffAllSpace(s: string)
    ensures IsBlank(s) <==> forall i :: 0 <= i < |s| ==> IsSpace(s[i])
  {
    if forall i :: 0 <= i < |s| ==> IsSpace(s[i]) {
      TrimStartOfBlank(s);
    } else {
      var j :| 0 <= j < |s| && !IsSpace(s[j]);
      var t := TrimStart(s);
      TrimStartShape(s);
      TrimEndShape(t);
      var k := |s| - |t|;
      assert t[j - k] == s[j];
      var u := TrimEnd(t);
      assert j - k < |u|;
    }
  }

  /** Trimming a second time changes nothing. */
  lemma TrimIdempotent(s: string)
    ensures Trim(Trim(s)) == Trim(s)
  {
    var t := TrimStart(s);
    var u := TrimEnd(t);
    TrimStartShape(s);
    TrimEndShape(t);
    if u != [] {
      assert u[0] == t[0];
      TrimStartKeepsNonSpace(u);
      TrimEndKeepsNonSpace(u);
    }
  }

  function LowerChar(c: char): (d: char)
    ensures 'A' <= c <= 'Z' ==> d as int == c as int + 32
    ensures !('A' <= c <= 'Z') ==> d == c
  {
    if 'A' <= c <= 'Z' then (c as int + 32) as char else c
  }

  /** `s.toLowerCase()` on ASCII: each upper-case letter replaced by its lower-case one. */
  function Lower(s: string): (r: string)
    ensures |r| == |s|
  {
    seq(|s|, i requires 0 <= i < |s| => LowerChar(s[i]))
  }

  /** Lower-casing twice is lower-casing once. */
  lemma LowerIdempotent(s: string)
    ensures Lower(Lower(s)) == Lower(s)
  {
  }

  /** `n` occurs in `h` starting at position `i`. */
  predicate OccursAt(h: string, n: string, i: int) {
    0 <= i && i + |n| <= |h| && h[i..i + |n|] == n
  }

  /** `h.includes(n)`: `n` occurs in `h` as a contiguous piece. */
  predicate Contains(h: string, n: string) {
    exists i | 0 <= i <= |h| :: OccursAt(h, n, i)
  }

  /** Every string contains the empty string and itself; a longer string is never contained. */
  lemma ContainsBasics(h: string, n: string)
    ensures Contains(h, "")
    ensures Contains(h, h)
    ensures Contains(h, n) ==> |n| <= |h|
  {
    assert OccursAt(h, "", 0);
    assert OccursAt(h, h, 0);
  }

  /** The trimmed string is a piece of the original. */
  lemma TrimIsContained(s: string)
    ensures Contains(s, Trim(s))
  {
    var t := TrimStart(s);
    var k := |s| - |t|;
    var u := TrimEnd(t);
    TrimStartShape(s);
    TrimEndShape(t);
    assert s[k..k + |u|] == u;
    assert OccursAt(s, u, k);
  }

  /** Lowercasing both sides keeps an occurrence where it was. */
  lemma LowerKeepsContains(h: string, n: string)
    requires Contains(h, n)
    ensures Contains(Lower(h), Lower(n))
  {
    var i :| 0 <= i <= |h| && OccursAt(h, n, i);
    assert Lower(h)[i..i + |n|] == Lower(n) by {
      forall j | 0 <= j < |n|
        ensures Lower(h)[i..i + |n|][j] == Lower(n)[j]
      {
        assert h[i + j] == n[j];
      }
    }
    assert OccursAt(Lower(h), Lower(n), i);
  }

  /** The number of leading digits of `s`. */
  function LeadingDigits(s: string): (k: nat)
    ensures k <= |s|
    ensures AllDigits(s[..k])
    ensures k < |s| ==> !IsDigit(s[k])
  {
    if s != [] && IsDigit(s[0]) then
      var k := 1 + LeadingDigits(s[1..]);
      assert forall i :: 1 <= i < k ==> s[..k][i] == s[1..][..k - 1][i - 1];
      k
    else 0
  }

  function DigitValue(c: char): nat
    requires IsDigit(c)
  {
    c as int - '0' as int
  }

  /** The value of a string of decimal digits, most significant first. */
  function DigitsValue(s: string): nat
    requires AllDigits(s)
  {
    if s == [] then 0 else DigitsValue(s[..|s| - 1]) * 10 + DigitValue(s[|s| - 1])
  }

  /** Splits off one leading sign character: (negative?, rest). */
  function SplitSign(s: string): (bool, string) {
    if s != [] && (s[0] == '-' || s[0] == '+') then (s[0] == '-', s[1..]) else (false, s)
  }

  /** The value of the leading digits of `body`, negated when `negative`; `None` when there are none. */
  function SignedLeadingValue(negative: bool, body: string): (r: Option<int>)
    ensures r.None? <==> LeadingDigits(body) == 0
  {
    var k := LeadingDigits(body);
    if k == 0 then None
    else
      var v: int := DigitsValue(body[..k]);
      Some(if negative then -v else v)
  }

  /**
   * `parseInt(s)` in base ten: leading whitespace skipped, an optional sign, then the
   * longest run of digits; `None` stands for `NaN`, when no digit follows the sign.
   */
  function ParseInt(s: string): Option<int> {
    var t := SplitSign(TrimStart(s));
    SignedLeadingValue(t.0, t.1)
  }

  /** The value of the digits after a decimal point: "25" is 0.25. */
  function FractionValue(d: string): real
    requires AllDigits(d)
  {
    if d == [] then 0.0 else (DigitValue(d[0]) as real + FractionValue(d[1..])) / 10.0
  }

  /**
   * `Number(s)`, the conversion JavaScript applies when a string is compared with a
   * number (`s < 0`): the trimmed text must be an optionally signed decimal with an
   * optional fractional part; the empty text is 0; anything else is `NaN` (`None`).
   */
  function ToNumber(s: string): (r: Option<real>)
    ensures IsBlank(s) ==> r == Some(0.0)
  {
    var t := Trim(s);
    if t == "" then Some(0.0) else SignedMagnitude(SplitSign(t))
  }

  /** The magnitude of the body after the sign, negated when the sign was a minus. */
  function SignedMagnitude(signed: (bool, string)): Option<real> {
    match DecimalMagnitude(signed.1)
    case None => None
    case Some(m) => Some(if signed.0 then -m else m)
  }

  /** The value of unsigned decimal text `digits[.digits]` with at least one digit; `None` otherwise. */
  function DecimalMagnitude(body: string): Option<real> {
    var k := LeadingDigits(body);
    var whole := DigitsValue(body[..k]) as real;
    var rest := body[k..];
    if rest == "" then (if k == 0 then None else Some(whole))
    else if rest[0] == '.' && AllDigits(rest[1..]) && (k > 0 || |rest| > 1) then
      Some(whole + FractionValue(rest[1..]))
    else None
  }

  /**
   * The value of the longest decimal prefix `digits[.digits]` of `body`, with at
   * least one digit on either side of the point; `None` when there is none.
   */
  function LeadingDecimalValue(body: string): (r: Option<real>)
    ensures r.None? <==>
      (LeadingDigits(body) == 0 && (body == [] || body[0] != '.' || LeadingDigits(body[1..]) == 0))
  {
    var k := LeadingDigits(body);
    var rest := body[k..];
    var fraction := if rest != [] && rest[0] == '.' then rest[1..] else "";
    var f := LeadingDigits(fraction);
    if k == 0 && f == 0 then None
    else Some(DigitsValue(body[..k]) as real + FractionValue(fraction[..f]))
  }

  /**
   * `parseFloat(s)` without exponents or `Infinity`: leading whitespace skipped, an
   * optional sign, then the longest decimal prefix; `None` stands for `NaN`.
   */
  function ParseFloat(s: string): Option<real> {
    var t := SplitSign(TrimStart(s));
    match LeadingDecimalValue(t.1)
    case None => None
    case Some(m) => Some(if t.0 then -m else m)
  }

  /** `s < 0` where `s` is a string: false when the text is not a number. */
  predicate LessThanZero(s: string) {
    var n := ToNumber(s);
    n.Some? && n.value < 0.0
  }

  /** `s <= 0` where `s` is a string: false when the text is not a number. */
  predicate AtMostZero(s: string) {
    var n := ToNumber(s);
    n.Some? && n.value <= 0.0
  }

  function DigitChar(d: nat): (c: char)
    requires d < 10
    ensures IsDigit(c) && DigitValue(c) == d
  {
    ('0' as int + d) as char
  }

  /** The decimal digits of `n`, without leading zeros. */
  function NatDigits(n: nat): (s: string)
    ensures s != [] && AllDigits(s)
  {
    if n < 10 then [DigitChar(n)] else NatDigits(n / 10) + [DigitChar(n % 10)]
  }

  /** `String(n)`: the decimal rendering of an integer. */
  function DecimalString(n: int): string {
    if n < 0 then "-" + NatDigits(-n) else NatDigits(n)
  }

  lemma {:induction false} NatDigitsValue(n: nat)
    ensures DigitsValue(NatDigits(n)) == n
  {
    if n >= 10 {
      var s := NatDigits(n);
      assert s[..|s| - 1] == NatDigits(n / 10);
      NatDigitsValue(n / 10);
    }
  }

  lemma {:induction false} LeadingDigitsOfDigits(s: string)
    requires AllDigits(s)
    ensures LeadingDigits(s) == |s|
  {
    if s != [] {
      LeadingDigitsOfDigits(s[1..]);
    }
  }

  /** Text that starts with a digit or a minus sign is left alone by `trim`'s first half. */
  lemma SignedDigitsShape(negative: bool, d: string)
    requires d != [] && AllDigits(d)
    ensures var s := (if negative then "-" else "") + d;
      TrimStart(s) == s && TrimEnd(s) == s && SplitSign(s) == (negative, d)
  {
    var s := (if negative then "-" else "") + d;
    assert IsDigit(d[0]) && IsDigit(d[|d| - 1]);
    assert s[|s| - 1] == d[|d| - 1];
    if negative {
      assert s[0] == '-' && s[1..] == d;
    } else {
      assert s == d;
      assert d[0] != '-' && d[0] != '+';
    }
    TrimStartKeepsNonSpace(s);
    TrimEndKeepsNonSpace(s);
  }

  /** An optional minus sign followed by digits parses to the signed value of the digits. */
  lemma ParseIntSignedDigits(negative: bool, d: string)
    requires d != [] && AllDigits(d)
    ensures var v: int := DigitsValue(d);
      ParseInt((if negative then "-" else "") + d) == Some(if negative then -v else v)
  {
    SignedDigitsShape(negative, d);
    LeadingDigitsOfDigits(d);
    assert d[..|d|] == d;
  }

  lemma DecimalMagnitudeOfDigits(d: string)
    requires d != [] && AllDigits(d)
    ensures DecimalMagnitude(d) == Some(DigitsValue(d) as real)
  {
    LeadingDigitsOfDigits(d);
    assert d[..|d|] == d && d[|d|..] == "";
  }

  lemma SignedMagnitudeOfDigits(negative: bool, d: string)
    requires d != [] && AllDigits(d)
    ensures var v := DigitsValue(d) as real;
      SignedMagnitude((negative, d)) == Some(if negative then -v else v)
  {
    DecimalMagnitudeOfDigits(d);
  }

  /** An optional minus sign followed by digits converts to the signed value of the digits. */
  lemma ToNumberSignedDigits(negative: bool, d: string)
    requires d != [] && AllDigits(d)
    ensures var v := DigitsValue(d) as real;
      ToNumber((if negative then "-" else "") + d) == Some(if negative then -v else v)
  {
    var s := (if negative then "-" else "") + d;
    SignedDigitsShape(negative, d);
    assert Trim(s) == s && s != "";
    assert ToNumber(s) == SignedMagnitude((negative, d));
    SignedMagnitudeOfDigits(negative, d);
  }

  lemma DecimalStringIsSignedDigits(n: int)
    ensures DecimalString(n) == (if n < 0 then "-" else "") + NatDigits(if n < 0 then -n else n)
  {
  }

  /** `parseInt(String(n)) === n`: the rendering of an integer parses back to it. */
  lemma ParseIntDecimalString(n: int)
    ensures ParseInt(DecimalString(n)) == Some(n)
  {
    var m: nat := if n < 0 then -n else n;
    DecimalStringIsSignedDigits(n);
    ParseIntSignedDigits(n < 0, NatDigits(m));
    NatDigitsValue(m);
  }

  /** `Number(String(n)) === n`: the rendering of an integer converts back to it. */
  lemma ToNumberDecimalString(n: int)
    ensures ToNumber(DecimalString(n)) == Some(n as real)
  {
    var m: nat := if n < 0 then -n else n;
    var d := NatDigits(m);
    DecimalStringIsSignedDigits(n);
    ToNumberSignedDigits(n < 0, d);
    NatDigitsValue(m);
    var v := DigitsValue(d) as real;
    assert v == m as real;
    assert ToNumber(DecimalString(n)) == Some(if n < 0 then -v else v);
  }

  lemma LeadingDecimalValueOfDigits(d: string)
    requires d != [] && AllDigits(d)
    ensures LeadingDecimalValue(d) == Some(DigitsValue(d) as real)
  {
    LeadingDigitsOfDigits(d);
    var k := LeadingDigits(d);
    assert k == |d|;
    assert d[..k] == d && d[k..] == "";
    assert LeadingDigits("") == 0;
    assert DigitsValue(""[..0]) == 0;
  }

  /** `parseFloat(String(n)) === n`: the rendering of an integer parses back to it. */
  lemma ParseFloatDecimalString(n: int)
    ensures ParseFloat(DecimalString(n)) == Some(n as real)
  {
    var m: nat := if n < 0 then -n else n;
    var d := NatDigits(m);
    DecimalStringIsSignedDigits(n);
    SignedDigitsShape(n < 0, d);
    LeadingDecimalValueOfDigits(d);
    NatDigitsValue(m);
    var v := DigitsValue(d) as real;
    assert v == m as real;
  }
}
