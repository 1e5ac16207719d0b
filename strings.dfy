/**
 * String helpers shared by the PHP and the JavaScript parts of the plugin:
 * trimming by a whitespace predicate (PHP's trim() and JavaScript's
 * String.prototype.trim differ only in that predicate) and decimal digits.
 */
module Strings {

  /** Drops the leading characters that satisfy `ws`. */
  function TrimLeft(s: string, ws: char -> bool): string {
    if s != [] && ws(s[0]) then TrimLeft(s[1..], ws) else s
  }

  /** Drops the trailing characters that satisfy `ws`. */
  function TrimRight(s: string, ws: char -> bool): string {
    if s != [] && ws(s[|s| - 1]) then TrimRight(s[..|s| - 1], ws) else s
  }

  /** Drops leading and trailing characters that satisfy `ws`. */
  function Trim(s: string, ws: char -> bool): string {
    TrimRight(TrimLeft(s, ws), ws)
  }

  // The facts about the three trims are lemmas rather than postconditions,
  // so that a caller pays for them only where it needs them.

  /** TrimLeft keeps a suffix, and what it drops is white space. */
  lemma {:induction false} TrimLeftSuffix(s: string, ws: char -> bool)
    ensures var r := TrimLeft(s, ws);
      && |r| <= |s| && r == s[|s| - |r|..]
      && (r != [] ==> !ws(r[0]))
      && (forall i :: 0 <= i < |s| - |r| ==> ws(s[i]))
  {
    if s != [] && ws(s[0]) {
      var r := TrimLeft(s[1..], ws);
      TrimLeftSuffix(s[1..], ws);
      assert TrimLeft(s, ws) == r;
      assert s[1..][|s| - 1 - |r|..] == s[|s| - |r|..];
      forall i | 0 < i < |s| - |r|
        ensures ws(s[i])
      {
        assert s[i] == s[1..][i - 1];
      }
    }
  }

  /** TrimRight keeps a prefix, and what it drops is white space. */
  lemma {:induction false} TrimRightPrefix(s: string, ws: char -> bool)
    ensures var r := TrimRight(s, ws);
      && |r| <= |s| && r == s[..|r|]
      && (r != [] ==> !ws(r[|r| - 1]))
      && (forall i :: |r| <= i < |s| ==> ws(s[i]))
  {
    if s != [] && ws(s[|s| - 1]) {
      var r := TrimRight(s[..|s| - 1], ws);
      TrimRightPrefix(s[..|s| - 1], ws);
      assert TrimRight(s, ws) == r;
      assert s[..|s| - 1][..|r|] == s[..|r|];
      forall i | |r| <= i < |s| - 1
        ensures ws(s[i])
      {
        assert s[i] == s[..|s| - 1][i];
      }
    }
  }

  /**
   * Trim keeps the infix s[n..n + |r|], where n is the length of the white
   * space prefix; everything outside it is white space, and the infix
   * neither starts nor ends with white space.
   */
  lemma TrimInfix(s: string, ws: char -> bool)
    ensures var r := Trim(s, ws); var n := |s| - |TrimLeft(s, ws)|;
      && (r != [] ==> !ws(r[0]) && !ws(r[|r| - 1]))
      && 0 <= n && n + |r| <= |s| && r == s[n..n + |r|]
      && (forall i :: 0 <= i < n ==> ws(s[i]))
      && (forall i :: n + |r| <= i < |s| ==> ws(s[i]))
  {
    var l := TrimLeft(s, ws);
    var r := TrimRight(l, ws);
    TrimLeftSuffix(s, ws);
    TrimRightPrefix(l, ws);
    var n := |s| - |l|;
    assert r == s[n..][..|r|] == s[n..n + |r|];
    forall i | n + |r| <= i < |s|
      ensures ws(s[i])
    {
      assert s[i] == l[i - n];
    }
  }

  /** Trimming introduces no character: whatever the result holds, the input held. */
  lemma TrimChars(s: string, ws: char -> bool)
    ensures forall c :: c in Trim(s, ws) ==> c in s
  {
    var r := Trim(s, ws);
    var n := |s| - |TrimLeft(s, ws)|;
    TrimInfix(s, ws);
    forall c | c in r
      ensures c in s
    {
      var k :| 0 <= k < |r| && r[k] == c;
      assert s[n + k] == c;
    }
  }

  predicate AllSatisfy(s: string, ws: char -> bool) {
    forall i :: 0 <= i < |s| ==> ws(s[i])
  }

  /** A string trims to nothing exactly when every character of it is white space. */
  lemma TrimEmptyIffAllSpace(s: string, ws: char -> bool)
    ensures Trim(s, ws) == [] <==> AllSatisfy(s, ws)
  {
    var l := TrimLeft(s, ws);
    TrimLeftSuffix(s, ws);
    TrimInfix(s, ws);
    if AllSatisfy(s, ws) {
      if l != [] {
        assert false;
      }
    }
  }

  /** Trimming a trimmed string changes nothing. */
  lemma TrimIdempotent(s: string, ws: char -> bool)
    ensures Trim(Trim(s, ws), ws) == Trim(s, ws)
  {
    var t := Trim(s, ws);
    TrimInfix(s, ws);
    if t != [] {
      assert TrimLeft(t, ws) == t;
      assert TrimRight(t, ws) == t;
    }
  }

  /** The character of a decimal digit `d`. */
  function DigitChar(d: nat): (c: char)
    requires d < 10
    ensures '0' <= c <= '9' && (c as int) - ('0' as int) == d
  {
    ('0' as int + d) as char
  }

  predicate IsDigit(c: char) {
    '0' <= c <= '9'
  }

  predicate AllDigits(s: string) {
    forall i :: 0 <= i < |s| ==> IsDigit(s[i])
  }

  /** The value of a string of decimal digits, most significant first. */
  function DigitsValue(s: string): nat
    requires AllDigits(s)
  {
    if s == [] then 0 else DigitsValue(s[..|s| - 1]) * 10 + ((s[|s| - 1] as int) - ('0' as int))
  }

  /** The decimal representation of a natural number, without leading zeros. */
  function Decimal(n: nat): (r: string)
    ensures r != [] && AllDigits(r)
    ensures |r| > 1 ==> r[0] != '0'
    ensures DigitsValue(r) == n
  {
    if n < 10 then [DigitChar(n)]
    else
      var p := Decimal(n / 10);
      var r := p + [DigitChar(n % 10)];
      assert r[..|r| - 1] == p;
      r
  }

  /** Decimal representation of an integer, with a leading '-' when negative. */
  function IntString(i: int): (r: string)
    ensures i >= 0 ==> r == Decimal(i)
    ensures i < 0 ==> r == "-" + Decimal(-i)
  {
    if i < 0 then "-" + Decimal(-i) else Decimal(i)
  }

  /** A number has at least k + 1 decimal digits once it reaches 10^k. */
  function Pow10(k: nat): (r: nat)
    ensures r >= 1
  {
    if k == 0 then 1 else 10 * Pow10(k - 1)
  }

  lemma {:induction false} DecimalLength(n: nat, k: nat)
    requires n >= Pow10(k)
    ensures |Decimal(n)| > k
  {
    if k > 0 {
      assert n / 10 >= Pow10(k - 1);
      DecimalLength(n / 10, k - 1);
    }
  }
}
