/**
 * Python's `int(text)` on a port string: surrounding white space is skipped,
 * an optional sign is accepted, and the rest must be decimal digits; any
 * other text raises `ValueError`, modelled here as `None`.
 */
module Decimal {
  import opened Common

  predicate IsDigit(c: char) {
    '0' <= c <= '9'
  }

  /**
   * The white space `int()` skips in a `unicode` port string, restricted to
   * ASCII: space, tab, line feed, carriage return, vertical tab, form feed
   * and the four separators U+001C to U+001F.
   */
  predicate IsSpace(c: char) {
    c == ' ' || c == '\t' || c == '\n' || c == '\r' || c == '\U{000B}' || c == '\U{000C}' ||
    ('\U{001C}' <= c <= '\U{001F}')
  }

  predicate AllDigits(s: string) {
    forall i :: 0 <= i < |s| ==> IsDigit(s[i])
  }

  function DigitValue(c: char): (d: nat)
    requires IsDigit(c)
    ensures d < 10
  {
    (c as int) - ('0' as int)
  }

  function DigitChar(d: nat): (c: char)
    requires d < 10
    ensures IsDigit(c) && DigitValue(c) == d
  {
    (('0' as int) + d) as char
  }

  /** The value of a string of decimal digits, most significant first. */
  function DigitsValue(s: string): nat
    requires AllDigits(s)
  {
    if s == [] then 0 else DigitsValue(s[..|s| - 1]) * 10 + DigitValue(s[|s| - 1])
  }

  /** Drops leading white space. */
  function StripLeft(s: string): (r: string)
    ensures |r| <= |s| && r == s[|s| - |r|..]
  {
    if |s| > 0 && IsSpace(s[0]) then StripLeft(s[1..]) else s
  }

  /** Drops trailing white space. */
  function StripRight(s: string): (r: string)
    ensures |r| <= |s| && r == s[..|r|]
  {
    if |s| > 0 && IsSpace(s[|s| - 1]) then StripRight(s[..|s| - 1]) else s
  }

  /** Python's `str.strip()`. */
  function Strip(s: string): string {
    StripRight(StripLeft(s))
  }

  /** Python's `int(s)` in base 10; `None` where Python raises `ValueError`. */
  function ParseInt(s: string): (r: Option<int>)
    ensures r.Some? ==> |Strip(s)| > 0 && IsDigit(Strip(s)[|Strip(s)| - 1])
    ensures r.Some? ==> AllDigits(Strip(s)[1..])
    ensures r.Some? && r.value < 0 ==> Strip(s)[0] == '-'
  {
    var t := Strip(s);
    if |t| > 1 && (t[0] == '+' || t[0] == '-') && AllDigits(t[1..]) then
      var magnitude: int := DigitsValue(t[1..]);
      Some(if t[0] == '-' then -magnitude else magnitude)
    else if |t| > 0 && AllDigits(t) then
      Some(DigitsValue(t))
    else
      None
  }

  /** Stripping drops only white space and keeps the rest in place. */
  lemma StripKeeps(s: string)
    ensures forall c :: c in Strip(s) ==> c in s
    ensures forall c :: c in s && c !in Strip(s) ==> IsSpace(c)
  {
    var l := StripLeft(s);
    var t := StripRight(l);
    StripLeftDropsSpace(s);
    StripRightDropsSpace(l);
    forall c | c in s && c !in t
      ensures IsSpace(c)
    {
      var i :| 0 <= i < |s| && s[i] == c;
      if i >= |s| - |l| {
        assert l[i - (|s| - |l|)] == c;
      }
    }
  }

  lemma {:induction false} StripLeftDropsSpace(s: string)
    ensures forall i :: 0 <= i < |s| - |StripLeft(s)| ==> IsSpace(s[i])
  {
    if |s| > 0 && IsSpace(s[0]) {
      StripLeftDropsSpace(s[1..]);
    }
  }

  lemma {:induction false} StripRightDropsSpace(s: string)
    ensures forall i :: |StripRight(s)| <= i < |s| ==> IsSpace(s[i])
  {
    if |s| > 0 && IsSpace(s[|s| - 1]) {
      StripRightDropsSpace(s[..|s| - 1]);
    }
  }

  /**
   * A string `int()` accepts holds a digit and nothing but digits, signs
   * and white space.
   */
  lemma ParseIntAcceptsOnlyNumerals(s: string)
    requires ParseInt(s).Some?
    ensures forall c :: c in s ==> IsDigit(c) || IsSpace(c) || c == '+' || c == '-'
    ensures exists c :: c in s && IsDigit(c)
  {
    var t := Strip(s);
    StripKeeps(s);
    assert forall c :: c in t ==> IsDigit(c) || c == '+' || c == '-' by {
      forall c | c in t
        ensures IsDigit(c) || c == '+' || c == '-'
      {
        var i :| 0 <= i < |t| && t[i] == c;
        if i > 0 {
          assert t[1..][i - 1] == c;
        }
      }
    }
    assert t[|t| - 1] in t && IsDigit(t[|t| - 1]) by {
      if |t| > 1 && (t[0] == '+' || t[0] == '-') && AllDigits(t[1..]) {
        assert t[1..][|t| - 2] == t[|t| - 1];
      }
    }
  }

  /** The decimal text of a natural number, without leading zeros. */
  function FormatNat(n: nat): (s: string)
  {
    if n < 10 then [DigitChar(n)] else FormatNat(n / 10) + [DigitChar(n % 10)]
  }

  /** The decimal text of an integer, as Python's `str(n)` writes it. */
  function FormatInt(n: int): (s: string)
  {
    if n < 0 then "-" + FormatNat(-n) else FormatNat(n)
  }

  lemma {:induction false} FormatNatDigits(n: nat)
    ensures |FormatNat(n)| > 0 && AllDigits(FormatNat(n))
    ensures DigitsValue(FormatNat(n)) == n
  {
    if n >= 10 {
      FormatNatDigits(n / 10);
      var s := FormatNat(n);
      assert s[..|s| - 1] == FormatNat(n / 10);
    }
  }

  /** Parsing the text of a number gives the number back. */
  lemma ParseFormat(n: int)
    ensures ParseInt(FormatInt(n)) == Some(n)
  {
    var s := FormatInt(n);
    FormatNatDigits(if n < 0 then -n else n);
    assert !IsSpace(s[0]) && !IsSpace(s[|s| - 1]);
    assert StripLeft(s) == s;
    assert StripRight(s) == s;
    if n < 0 {
      assert s[1..] == FormatNat(-n);
    }
  }
}
