/**
 * The JavaScript string behaviour the chat widget relies on:
 * String.prototype.trim, the two validation regular expressions of the
 * lead form, and parseInt(s, 10).
 */
module JsText {
  import opened Wrappers
  import Strings

  /**
   * ECMAScript white space and line terminators: what trim() removes and
   * what `\s` matches in a regular expression.
   */
  predicate IsSpace(c: char) {
    c == '\t' || c == '\n' || c as int == 0x0B || c as int == 0x0C || c == '\r' || c == ' '
    || c as int == 0xA0 || c as int == 0x1680 || (0x2000 <= c as int <= 0x200A)
    || c as int == 0x2028 || c as int == 0x2029 || c as int == 0x202F || c as int == 0x205F
    || c as int == 0x3000 || c as int == 0xFEFF
  }

  /** String.prototype.trim. */
  function Trim(s: string): string {
    Strings.Trim(s, IsSpace)
  }

  // ---------------------------------------------------------------------
  // /^[^\s@]+@[^\s@]+\.[^\s@]+$/
  // ---------------------------------------------------------------------

  /** A run of `[^\s@]` characters (possibly empty). */
  predicate Plain(s: string) {
    forall k :: 0 <= k < |s| ==> !IsSpace(s[k]) && s[k] != '@'
  }

  /**
   * The language of the email expression: local '@' domain '.' tld, three
   * non-empty runs of characters that are neither white space nor '@'
   * (the domain and the tld may contain further dots).
   */
  ghost predicate EmailLanguage(s: string) {
    exists i, j :: 0 < i && i + 1 < j && j + 1 < |s| && s[i] == '@' && s[j] == '.'
      && Plain(s[..i]) && Plain(s[i + 1..j]) && Plain(s[j + 1..])
  }

  /** Index of the first occurrence of c, or |s| when there is none. */
  function IndexOf(s: string, c: char): (r: nat)
    ensures r <= |s|
    ensures r < |s| ==> s[r] == c
    ensures forall k :: 0 <= k < r ==> s[k] != c
  {
    if s == [] then 0 else if s[0] == c then 0 else 1 + IndexOf(s[1..], c)
  }

  /** Decides the email expression: no white space, a single '@' not in first place, and a dot strictly inside the part after it. */
  predicate EmailMatches(s: string) {
    var at := IndexOf(s, '@');
    && (forall k :: 0 <= k < |s| ==> !IsSpace(s[k]))
    && 0 < at < |s|
    && (forall k :: at < k < |s| ==> s[k] != '@')
    && (exists j :: at + 1 < j < |s| - 1 && s[j] == '.')
  }

  lemma EmailMatchesIsLanguage(s: string)
    ensures EmailMatches(s) <==> EmailLanguage(s)
  {
    if EmailMatches(s) {
      EmailMatchesInLanguage(s);
    }
    if EmailLanguage(s) {
      EmailLanguageMatches(s);
    }
  }

  /** The first '@' and any dot well after it split a matching string into the three runs. */
  lemma EmailMatchesInLanguage(s: string)
    requires EmailMatches(s)
    ensures EmailLanguage(s)
  {
    var i := IndexOf(s, '@');
    var j :| i + 1 < j < |s| - 1 && s[j] == '.';
    PlainSlice(s, 0, i);
    PlainSlice(s, i + 1, j);
    PlainSlice(s, j + 1, |s|);
  }

  /** A slice without white space or '@' is a plain run. */
  lemma PlainSlice(s: string, lo: nat, hi: nat)
    requires lo <= hi <= |s|
    requires forall k :: lo <= k < hi ==> !IsSpace(s[k]) && s[k] != '@'
    ensures Plain(s[lo..hi])
  {
    forall k | 0 <= k < hi - lo
      ensures !IsSpace(s[lo..hi][k]) && s[lo..hi][k] != '@'
    {
      assert s[lo..hi][k] == s[lo + k];
    }
  }

  /** The '@' of the language is the only one, so it is the first, and no run holds white space. */
  lemma EmailLanguageMatches(s: string)
    requires EmailLanguage(s)
    ensures EmailMatches(s)
  {
    var i, j :| 0 < i && i + 1 < j && j + 1 < |s| && s[i] == '@' && s[j] == '.'
      && Plain(s[..i]) && Plain(s[i + 1..j]) && Plain(s[j + 1..]);
    forall k | 0 <= k < |s|
      ensures !IsSpace(s[k])
      ensures k != i ==> s[k] != '@'
    {
      if k < i {
        assert s[k] == s[..i][k];
      } else if i < k < j {
        assert s[k] == s[i + 1..j][k - i - 1];
      } else if j < k {
        assert s[k] == s[j + 1..][k - j - 1];
      }
    }
    assert IndexOf(s, '@') == i;
  }

  // ---------------------------------------------------------------------
  // /^[+]?[\d\s-]{7,15}$/
  // ---------------------------------------------------------------------

  /** `[\d\s-]`: an ASCII digit, white space or a hyphen. */
  predicate PhoneChar(c: char) {
    Strings.IsDigit(c) || IsSpace(c) || c == '-'
  }

  predicate PhoneBody(b: string) {
    7 <= |b| <= 15 && forall k :: 0 <= k < |b| ==> PhoneChar(b[k])
  }

  /** The language of the phone expression: an optional '+' then 7 to 15 phone characters. */
  ghost predicate PhoneLanguage(s: string) {
    PhoneBody(s) || (s != [] && s[0] == '+' && PhoneBody(s[1..]))
  }

  /** Decides the phone expression: '+' is not a phone character, so a leading '+' must be the optional one. */
  predicate PhoneMatches(s: string) {
    var body := if s != [] && s[0] == '+' then s[1..] else s;
    PhoneBody(body)
  }

  lemma PhoneMatchesIsLanguage(s: string)
    ensures PhoneMatches(s) <==> PhoneLanguage(s)
  {
    if s != [] && s[0] == '+' {
      assert !PhoneChar(s[0]);
    }
  }

  // ---------------------------------------------------------------------
  // parseInt(s, 10)
  // ---------------------------------------------------------------------

  /** The longest prefix of decimal digits. */
  function LeadingDigits(s: string): (r: string)
    ensures Strings.AllDigits(r) && |r| <= |s| && r == s[..|r|]
    ensures |r| < |s| ==> !Strings.IsDigit(s[|r|])
  {
    if s != [] && Strings.IsDigit(s[0]) then [s[0]] + LeadingDigits(s[1..]) else []
  }

  /**
   * parseInt(s, 10): leading white space is skipped, an optional sign is
   * read, then the longest run of decimal digits; no digit gives NaN (None).
   */
  function ParseInt(s: string): (r: Option<int>)
  {
    var t := Strings.TrimLeft(s, IsSpace);
    var neg := t != [] && t[0] == '-';
    var u := if t != [] && (t[0] == '-' || t[0] == '+') then t[1..] else t;
    var d := LeadingDigits(u);
    if d == [] then None
    else if neg then Some(-(Strings.DigitsValue(d) as int))
    else Some(Strings.DigitsValue(d))
  }

  lemma {:induction false} LeadingDigitsOfDigits(s: string)
    requires Strings.AllDigits(s)
    ensures LeadingDigits(s) == s
  {
    if s != [] {
      LeadingDigitsOfDigits(s[1..]);
    }
  }

  /** parseInt reads back the decimal representation of a natural number. */
  lemma ParseIntDecimal(n: nat)
    ensures ParseInt(Strings.Decimal(n)) == Some(n)
  {
    var s := Strings.Decimal(n);
    assert Strings.TrimLeft(s, IsSpace) == s;
    LeadingDigitsOfDigits(s);
  }
}
