/**
 * escapeHtml of the chat widget: the five HTML-special characters become
 * entities, everything else is copied.
 */
module HtmlEscape {
  import opened Wrappers

  /** The five entities, as escapeHtml writes them. */
  const Amp := "&amp;"
  const Lt := "&lt;"
  const Gt := "&gt;"
  const Quot := "&quot;"
  const Apos := "&#39;"

  predicate Special(c: char) {
    c == '&' || c == '<' || c == '>' || c == '"' || c == '\''
  }

  /** The replacement for one character. */
  function EscapeChar(c: char): (r: string)
    ensures r != [] && (Special(c) <==> r[0] == '&') && (!Special(c) ==> r == [c])
    ensures forall k :: 0 <= k < |r| ==> r[k] != '<' && r[k] != '>' && r[k] != '"' && r[k] != '\''
  {
    match c
    case '&' => Amp
    case '<' => Lt
    case '>' => Gt
    case '"' => Quot
    case '\'' => Apos
    case _ => [c]
  }

  /** `str.replace(/[&<>"']/g, ...)`: every character replaced by its escape, in order. */
  function Escape(s: string): (r: string)
    ensures |r| >= |s|
    ensures forall k :: 0 <= k < |r| ==> r[k] != '<' && r[k] != '>' && r[k] != '"' && r[k] != '\''
  {
    if s == [] then [] else EscapeChar(s[0]) + Escape(s[1..])
  }

  /** escapeHtml(str): a falsy argument (null, undefined or '') gives ''. */
  function EscapeHtml(str: Option<string>): (r: string)
    ensures str.None? ==> r == ""
    ensures str.Some? ==> r == Escape(str.value)
  {
    if str.None? || str.value == "" then "" else Escape(str.value)
  }

  /** Escaping distributes over concatenation: each character is replaced where it stands. */
  lemma {:induction false} EscapeAppend(a: string, b: string)
    ensures Escape(a + b) == Escape(a) + Escape(b)
  {
    if a == [] {
      assert a + b == b;
    } else {
      assert (a + b)[0] == a[0] && (a + b)[1..] == a[1..] + b;
      EscapeAppend(a[1..], b);
    }
  }

  /** A string without special characters is copied unchanged. */
  lemma {:induction false} EscapePlain(s: string)
    requires forall k :: 0 <= k < |s| ==> !Special(s[k])
    ensures Escape(s) == s
  {
    if s != [] {
      EscapePlain(s[1..]);
    }
  }

  /** The entity s starts with, as the character it stands for and its length. */
  function Entity(s: string): (r: Option<(char, nat)>)
    ensures r.Some? ==> 0 < r.value.1 <= |s| && s[0] == '&'
  {
    if |s| >= 5 && s[..5] == Amp then Some(('&', 5))
    else if |s| >= 4 && s[..4] == Lt then Some(('<', 4))
    else if |s| >= 4 && s[..4] == Gt then Some(('>', 4))
    else if |s| >= 6 && s[..6] == Quot then Some(('"', 6))
    else if |s| >= 5 && s[..5] == Apos then Some(('\'', 5))
    else None
  }

  /** What an HTML parser does with the five entities escapeHtml produces (the inverse). */
  function Unescape(s: string): string
  {
    if s == [] then []
    else match Entity(s)
      case Some((c, n)) => [c] + Unescape(s[n..])
      case None => [s[0]] + Unescape(s[1..])
  }

  lemma EntityOfEscape(c: char, x: string)
    ensures Entity(EscapeChar(c) + x) == if Special(c) then Some((c, |EscapeChar(c)|)) else None
  {
    var e := EscapeChar(c);
    var s := e + x;
    if !Special(c) {
      assert s[0] == c;
    } else {
      assert s[..|e|] == e;
      assert s[1] == e[1];
      if c == '&' {
        assert s[..5] == Amp;
      } else if c == '<' {
        assert s[..4] == Lt && s[1] == 'l';
      } else if c == '>' {
        assert s[..4] == Gt && s[1] == 'g';
      } else if c == '"' {
        assert s[..6] == Quot && s[1] == 'q';
      } else {
        assert s[..5] == Apos && s[1] == '#';
      }
    }
  }

  lemma UnescapeChar(c: char, x: string)
    ensures Unescape(EscapeChar(c) + x) == [c] + Unescape(x)
  {
    var e := EscapeChar(c);
    var s := e + x;
    EntityOfEscape(c, x);
    assert s[|e|..] == x;
    if !Special(c) {
      assert s[0] == c && s[1..] == x;
    }
  }

  /** Escaping loses nothing: decoding the entities gives the original text back. */
  lemma {:induction false} UnescapeEscape(s: string)
    ensures Unescape(Escape(s)) == s
  {
    if s != [] {
      UnescapeChar(s[0], Escape(s[1..]));
      UnescapeEscape(s[1..]);
    }
  }
}
