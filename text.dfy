/**
 * String helpers the voucher code relies on: Python's `str.lower()` on
 * addresses, `int(s)` and `str(n)` on decimal amounts, and the lower-case
 * hexadecimal rendering of signature bytes.
 */
module Text {
  import opened Wrappers

  // ---------------------------------------------------------------------
  // Case folding (addresses are ASCII, so only 'A'..'Z' change)

  function LowerChar(c: char): char
  {
    if 'A' <= c <= 'Z' then (c as int - 'A' as int + 'a' as int) as char else c
  }

  /** `s.lower()` for ASCII strings. */
  function Lower(s: string): string
  {
    seq(|s|, i requires 0 <= i < |s| => LowerChar(s[i]))
  }

  /** Two strings that are equal ignoring case. */
  predicate SameIgnoringCase(a: string, b: string)
  {
    Lower(a) == Lower(b)
  }

  // ---------------------------------------------------------------------
  // Decimal integers

  predicate IsDigit(c: char)
  {
    '0' as int <= c as int <= '9' as int
  }

  /** A non-empty run of ASCII decimal digits. */
  predicate IsDigits(s: string)
  {
    |s| > 0 && forall i :: 0 <= i < |s| ==> IsDigit(s[i])
  }

  /** The value of a run of digits, read most significant digit first. */
  function DigitsValue(s: string): nat
    requires forall i :: 0 <= i < |s| ==> IsDigit(s[i])
    decreases |s|
  {
    if s == [] then 0
    else
      assert IsDigit(s[|s| - 1]);
      10 * DigitsValue(s[..|s| - 1]) + (s[|s| - 1] as int - '0' as int)
  }

  function Digit(d: nat): char
    requires d < 10
  {
    ('0' as int + d) as char
  }

  /** `str(n)` for a non-negative integer: no sign, no leading zero. */
  function NatToString(n: nat): string
    decreases n
  {
    if n < 10 then [Digit(n)] else NatToString(n / 10) + [Digit(n % 10)]
  }

  /** Python's `str(i)` on an `int`. */
  function IntToString(i: int): string
  {
    if i < 0 then "-" + NatToString(-i) else NatToString(i)
  }

  /**
   * Python's `int(s)` on a decimal string: an optional sign followed by
   * digits; anything else raises, which is None here.
   */
  function ParseInt(s: string): Option<int>
  {
    if |s| > 0 && s[0] == '-' then
      if IsDigits(s[1..]) then Some(0 - DigitsValue(s[1..])) else None
    else if |s| > 0 && s[0] == '+' then
      if IsDigits(s[1..]) then Some(DigitsValue(s[1..])) else None
    else if IsDigits(s) then Some(DigitsValue(s))
    else None
  }

  /** The shape `str(i)` produces: "0", or a non-zero leading digit, maybe after "-". */
  predicate IsCanonicalDecimal(s: string)
  {
    (IsDigits(s) && (s[0] == '0' ==> |s| == 1))
    || (|s| > 1 && s[0] == '-' && IsDigits(s[1..]) && s[1] != '0')
  }

  lemma {:induction false} NatToStringDigits(n: nat)
    ensures IsDigits(NatToString(n))
    ensures DigitsValue(NatToString(n)) == n
    ensures NatToString(n)[0] == '0' ==> n == 0
    decreases n
  {
    if n >= 10 {
      var prefix := NatToString(n / 10);
      NatToStringDigits(n / 10);
      var s := prefix + [Digit(n % 10)];
      assert s[..|s| - 1] == prefix;
      assert s[0] == prefix[0];
    }
  }

  /** `int(str(i)) == i`, and `str` always produces the canonical form. */
  lemma IntToStringRoundTrip(i: int)
    ensures ParseInt(IntToString(i)) == Some(i)
    ensures IsCanonicalDecimal(IntToString(i))
  {
    if i < 0 {
      NatToStringDigits(-i);
      var s := IntToString(i);
      assert s[1..] == NatToString(-i);
    } else {
      NatToStringDigits(i);
    }
  }

  lemma {:induction false} DigitsValueLeadingZero(s: string)
    requires forall i :: 0 <= i < |s| ==> IsDigit(s[i])
    requires |s| > 0 && s[0] != '0'
    ensures DigitsValue(s) > 0
    decreases |s|
  {
    if |s| > 1 {
      var p := s[..|s| - 1];
      assert p[0] == s[0];
      DigitsValueLeadingZero(p);
    }
  }

  lemma {:induction false} DigitsValueInjective(s: string, n: nat)
    requires IsDigits(s) && (s[0] == '0' ==> |s| == 1)
    requires DigitsValue(s) == n
    ensures NatToString(n) == s
    decreases |s|
  {
    var last := s[|s| - 1];
    var p := s[..|s| - 1];
    if |s| == 1 {
      assert DigitsValue(p) == 0;
    } else {
      assert p[0] == s[0];
      DigitsValueLeadingZero(p);
      assert n >= 10;
      assert n / 10 == DigitsValue(p) && n % 10 == last as int - '0' as int;
      DigitsValueInjective(p, n / 10);
      assert s == p + [last];
    }
  }

  /** `str(int(s)) == s` exactly when `s` is already in canonical form. */
  lemma CanonicalRoundTrip(s: string)
    requires IsCanonicalDecimal(s)
    ensures ParseInt(s).Some? && IntToString(ParseInt(s).value) == s
  {
    if s[0] == '-' {
      var t := s[1..];
      assert t[0] == s[1];
      DigitsValueLeadingZero(t);
      DigitsValueInjective(t, DigitsValue(t));
      assert s == "-" + t;
    } else {
      DigitsValueInjective(s, DigitsValue(s));
    }
  }

  // ---------------------------------------------------------------------
  // Bytes and lower-case hexadecimal

  type Byte = b: int | 0 <= b < 256

  function HexDigit(d: int): char
    requires 0 <= d < 16
  {
    if d < 10 then ('0' as int + d) as char else ('a' as int + d - 10) as char
  }

  /** Two lower-case hex digits per byte, without a "0x" prefix. */
  function Hex(bs: seq<Byte>): (r: string)
    ensures |r| == 2 * |bs|
    ensures forall i :: 0 <= i < |r| ==> r[i] != 'x'
  {
    if bs == [] then "" else [HexDigit(bs[0] / 16), HexDigit(bs[0] % 16)] + Hex(bs[1..])
  }

  predicate StartsWith(s: string, prefix: string)
  {
    |prefix| <= |s| && s[..|prefix|] == prefix
  }

  /** A bare hex rendering never looks like it already carries the "0x" prefix. */
  lemma HexHasNoPrefix(bs: seq<Byte>)
    ensures !StartsWith(Hex(bs), "0x")
  {
    var h := Hex(bs);
    assert |h| >= 2 ==> h[1] != 'x';
  }
}
