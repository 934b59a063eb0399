/** JavaScript's `parseInt` without a radix, as the game applies it to URL parameters and to chart-feed ids:
    leading white space is skipped, one sign is read, a `0x` prefix selects base 16, and the longest run of digits
    is read. A string with no digits to read gives NaN, written `None`. */
module JsNumber {
  import opened Wrappers
  import opened Text

  predicate IsDigit(c: char) { '0' <= c <= '9' }

  predicate IsHexDigit(c: char) { IsDigit(c) || 'a' <= c <= 'f' || 'A' <= c <= 'F' }

  /** The longest prefix of `s` whose characters satisfy `p`. */
  function Run(s: string, p: char -> bool): (r: string)
    ensures |r| <= |s|
    ensures forall i :: 0 <= i < |r| ==> p(r[i])
    ensures |r| == |s| || !p(s[|r|])
  {
    if s == [] || !p(s[0]) then [] else [s[0]] + Run(s[1..], p)
  }

  /** The run is a prefix of the string it is read from. */
  lemma {:induction false} RunIsPrefix(s: string, p: char -> bool)
    ensures Run(s, p) == s[..|Run(s, p)|]
  {
    if s != [] && p(s[0]) {
      RunIsPrefix(s[1..], p);
      assert s == [s[0]] + s[1..];
    }
  }

  lemma {:induction false} RunOfPrefix(a: string, rest: string, p: char -> bool)
    requires forall i :: 0 <= i < |a| ==> p(a[i])
    requires rest == [] || !p(rest[0])
    ensures Run(a + rest, p) == a
  {
    if a != [] {
      assert (a + rest)[0] == a[0];
      assert (a + rest)[1..] == a[1..] + rest;
      RunOfPrefix(a[1..], rest, p);
      assert [a[0]] + a[1..] == a;
    }
  }

  function HexValue(c: char): nat
    requires IsHexDigit(c)
  {
    if IsDigit(c) then c as int - '0' as int
    else if 'a' <= c <= 'f' then c as int - 'a' as int + 10
    else c as int - 'A' as int + 10
  }

  function ParseHex(s: string): nat
    requires forall i :: 0 <= i < |s| ==> IsHexDigit(s[i])
  {
    if s == [] then 0 else 16 * ParseHex(s[..|s| - 1]) + HexValue(s[|s| - 1])
  }

  /** The digits after any sign: a `0x` or `0X` prefix selects base 16, and the longest run of digits after that
      is read; no digits at all is NaN (`None`). */
  function ParseUnsigned(u: string): Option<nat>
  {
    if |u| >= 2 && u[0] == '0' && (u[1] == 'x' || u[1] == 'X') then
      var h := Run(u[2..], IsHexDigit);
      if h == [] then None else Some(ParseHex(h))
    else
      var d := Run(u, IsDigit);
      if d == [] then None else Some(ParseDigits(d))
  }

  function ApplySign(negative: bool, v: Option<nat>): Option<int>
  {
    match v
    case None => None
    case Some(x) => if negative then Some(-(x as int)) else Some(x as int)
  }

  /** `parseInt(s)` without a radix: leading white space is skipped before the signed digits are read. */
  function ParseInt(s: string): (r: Option<int>)
    ensures AllSpace(s) ==> r.None?
  {
    if AllSpace(s) then None else ParseSigned(TrimStart(s))
  }

  /** One optional sign, then the digits. */
  function ParseSigned(t: string): Option<int>
  {
    if t == [] then None
    else if t[0] == '-' then ApplySign(true, ParseUnsigned(t[1..]))
    else if t[0] == '+' then ApplySign(false, ParseUnsigned(t[1..]))
    else ApplySign(false, ParseUnsigned(t))
  }

  /** A string that begins with a character other than white space is its own `TrimStart`. */
  lemma TrimStartNoSpace(s: string)
    requires s != [] && !IsSpace(s[0])
    ensures TrimStart(s) == s
  {
  }

  /** A decimal number followed by anything that does not continue it is read as that number. */
  lemma ParseUnsignedDecimal(n: nat, rest: string)
    requires rest == [] || (!IsDigit(rest[0]) && rest[0] != 'x' && rest[0] != 'X')
    ensures ParseUnsigned(NatToString(n) + rest) == Some(n)
  {
    var digits := NatToString(n);
    var u := digits + rest;
    assert !(|u| >= 2 && u[0] == '0' && (u[1] == 'x' || u[1] == 'X')) by {
      if |u| >= 2 {
        if |digits| >= 2 { assert u[1] == digits[1]; } else { assert u[1] == rest[0]; }
      }
    }
    assert Run(u, IsDigit) == digits by {
      RunOfPrefix(digits, rest, IsDigit);
    }
    NatToStringRoundTrip(n);
  }

  function SignPrefix(negative: bool, plus: bool): string
  {
    if negative then "-" else if plus then "+" else ""
  }

  /** Leading white space is skipped before the sign and digits are read. */
  lemma ParseIntAfterSpace(pre: string, t: string)
    requires AllSpace(pre) && t != [] && !IsSpace(t[0])
    ensures ParseInt(pre + t) == ParseSigned(t)
  {
    TrimStartPadded(pre, t);
    TrimStartNoSpace(t);
    assert (pre + t)[|pre|] == t[0];
  }

  /** An optional sign and a decimal number, followed by anything that does not continue it, read as that signed
      number. */
  lemma ParseSignedReads(negative: bool, plus: bool, n: nat, rest: string)
    requires rest == [] || (!IsDigit(rest[0]) && rest[0] != 'x' && rest[0] != 'X')
    ensures ParseSigned(SignPrefix(negative, plus) + NatToString(n) + rest) == Some(if negative then -(n as int) else n as int)
  {
    if negative {
      SignedReads('-', n, rest);
    } else if plus {
      SignedReads('+', n, rest);
    } else {
      UnsignedReads(n, rest);
    }
  }

  lemma SignedReads(c: char, n: nat, rest: string)
    requires c == '-' || c == '+'
    requires rest == [] || (!IsDigit(rest[0]) && rest[0] != 'x' && rest[0] != 'X')
    ensures ParseSigned([c] + NatToString(n) + rest) == Some(if c == '-' then -(n as int) else n as int)
  {
    var u := NatToString(n) + rest;
    var t := [c] + NatToString(n) + rest;
    assert t == [c] + u && t[0] == c && t[1..] == u;
    assert ParseSigned(t) == ApplySign(c == '-', ParseUnsigned(u));
    ParseUnsignedDecimal(n, rest);
  }

  lemma UnsignedReads(n: nat, rest: string)
    requires rest == [] || (!IsDigit(rest[0]) && rest[0] != 'x' && rest[0] != 'X')
    ensures ParseSigned("" + NatToString(n) + rest) == Some(n)
  {
    var digits := NatToString(n);
    var u := digits + rest;
    assert "" + digits + rest == u;
    assert ParseSigned(u) == ApplySign(false, ParseUnsigned(u)) by {
      assert u[0] == digits[0] && '0' <= digits[0] <= '9';
      ParseSignedBare(u);
    }
    ParseUnsignedDecimal(n, rest);
  }

  lemma ParseSignedBare(u: string)
    requires u != [] && IsDigit(u[0])
    ensures ParseSigned(u) == ApplySign(false, ParseUnsigned(u))
  {
  }

  /** The decimal rendering of a number is parsed back to it. */
  lemma ParseIntDecimal(n: nat)
    ensures ParseInt(NatToString(n)) == Some(n)
  {
    var digits := NatToString(n);
    ParseSignedReads(false, false, n, "");
    assert SignPrefix(false, false) + digits + "" == digits;
    assert "" + digits == digits;
    ParseIntAfterSpace("", digits);
  }

  /** A string that starts with neither white space, a sign nor a digit has no digits to read: it is NaN. */
  lemma ParseIntNaN(s: string)
    requires s != [] && !IsSpace(s[0]) && !IsDigit(s[0]) && s[0] != '-' && s[0] != '+'
    ensures ParseInt(s).None?
  {
    TrimStartNoSpace(s);
    assert Run(s, IsDigit) == [];
  }
}
