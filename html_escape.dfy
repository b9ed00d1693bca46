/**
 * The three-step HTML escape used by the code-block fallback and by the
 * Markdown renderer: `&` to `&amp;`, then `<` to `&lt;`, then `>` to `&gt;`.
 */
module HtmlEscape {

  /** `s.replace(/c/g, r)` for a single character `c`. */
  function ReplaceAll(s: string, c: char, r: string): (t: string)
    decreases |s|
  {
    if s == [] then [] else (if s[0] == c then r else [s[0]]) + ReplaceAll(s[1..], c, r)
  }

  lemma {:induction false} ReplaceAllConcat(a: string, b: string, c: char, r: string)
    ensures ReplaceAll(a + b, c, r) == ReplaceAll(a, c, r) + ReplaceAll(b, c, r)
    decreases |a|
  {
    if a == [] {
      assert a + b == b;
    } else {
      assert (a + b)[1..] == a[1..] + b;
      ReplaceAllConcat(a[1..], b, c, r);
    }
  }

  /** Replacing a character the text does not hold changes nothing. */
  lemma {:induction false} ReplaceAbsent(s: string, c: char, r: string)
    requires forall i :: 0 <= i < |s| ==> s[i] != c
    ensures ReplaceAll(s, c, r) == s
    decreases |s|
  {
    if s != [] {
      ReplaceAbsent(s[1..], c, r);
      assert [s[0]] + s[1..] == s;
    }
  }

  /** The escape chain exactly as written: ampersands first. */
  function Escape(s: string): string {
    ReplaceAll(ReplaceAll(ReplaceAll(s, '&', "&amp;"), '<', "&lt;"), '>', "&gt;")
  }

  /** What one input character becomes. */
  function EscapeChar(c: char): string {
    if c == '&' then "&amp;" else if c == '<' then "&lt;" else if c == '>' then "&gt;" else [c]
  }

  /** Character-by-character escaping, the reference the chain is compared against. */
  function EscapeEach(s: string): string
    decreases |s|
  {
    if s == [] then [] else EscapeChar(s[0]) + EscapeEach(s[1..])
  }

  lemma ReplaceOne(x: char, c: char, r: string)
    ensures ReplaceAll([x], c, r) == if x == c then r else [x]
  {
    assert [x][1..] == [];
    assert ReplaceAll([], c, r) == [];
    var head := if x == c then r else [x];
    assert head + [] == head;
  }

  /** One character goes through the chain as `EscapeChar` says. */
  lemma EscapeOne(x: char)
    ensures Escape([x]) == EscapeChar(x)
  {
    ReplaceOne(x, '&', "&amp;");
    if x == '&' {
      ReplaceAbsent("&amp;", '<', "&lt;");
      ReplaceAbsent("&amp;", '>', "&gt;");
    } else if x == '<' {
      ReplaceOne(x, '<', "&lt;");
      ReplaceAbsent("&lt;", '>', "&gt;");
    } else {
      ReplaceOne(x, '<', "&lt;");
      ReplaceOne(x, '>', "&gt;");
    }
  }

  /** The chain works on the two halves of a text separately. */
  lemma EscapeConcat(a: string, b: string)
    ensures Escape(a + b) == Escape(a) + Escape(b)
  {
    ReplaceAllConcat(a, b, '&', "&amp;");
    var a1, b1 := ReplaceAll(a, '&', "&amp;"), ReplaceAll(b, '&', "&amp;");
    ReplaceAllConcat(a1, b1, '<', "&lt;");
    var a2, b2 := ReplaceAll(a1, '<', "&lt;"), ReplaceAll(b1, '<', "&lt;");
    ReplaceAllConcat(a2, b2, '>', "&gt;");
  }

  /**
   * Because `&` is replaced before the entities that contain `&` are produced,
   * the chain never re-escapes its own output: it equals character-wise escaping.
   */
  lemma {:induction false} EscapeIsCharwise(s: string)
    ensures Escape(s) == EscapeEach(s)
    decreases |s|
  {
    if s != [] {
      assert s == [s[0]] + s[1..];
      EscapeConcat([s[0]], s[1..]);
      EscapeOne(s[0]);
      EscapeIsCharwise(s[1..]);
    }
  }

  /** After escaping, no `<` or `>` of the input survives as markup. */
  lemma {:induction false} EscapedHasNoAngles(s: string)
    ensures forall i :: 0 <= i < |Escape(s)| ==> Escape(s)[i] != '<' && Escape(s)[i] != '>'
  {
    EscapeIsCharwise(s);
    EachHasNoAngles(s);
  }

  lemma {:induction false} EachHasNoAngles(s: string)
    ensures forall i :: 0 <= i < |EscapeEach(s)| ==> EscapeEach(s)[i] != '<' && EscapeEach(s)[i] != '>'
    decreases |s|
  {
    if s != [] {
      EachHasNoAngles(s[1..]);
    }
  }

  /** Decoding of the three entities, left to right; the partner of `Escape`. */
  function Unescape(t: string): string
    decreases |t|
  {
    if t == [] then []
    else if "&amp;" <= t then ['&'] + Unescape(t[5..])
    else if "&lt;" <= t then ['<'] + Unescape(t[4..])
    else if "&gt;" <= t then ['>'] + Unescape(t[4..])
    else [t[0]] + Unescape(t[1..])
  }

  /** Escaping loses nothing: the input is recovered from the output. */
  lemma {:induction false} UnescapeEscape(s: string)
    ensures Unescape(Escape(s)) == s
  {
    EscapeIsCharwise(s);
    UnescapeEach(s);
  }

  lemma {:induction false} UnescapeEach(s: string)
    ensures Unescape(EscapeEach(s)) == s
    decreases |s|
  {
    if s != [] {
      var x, t := s[0], s[1..];
      var e := EscapeChar(x) + EscapeEach(t);
      assert EscapeEach(s) == e;
      UnescapeEach(t);
      if x == '&' {
        assert "&amp;" <= e && e[5..] == EscapeEach(t);
        assert Unescape(e) == ['&'] + Unescape(e[5..]);
      } else if x == '<' {
        assert e[1] == 'l' && "&amp;"[1] == 'a';
        assert "&lt;" <= e && e[4..] == EscapeEach(t);
        assert Unescape(e) == ['<'] + Unescape(e[4..]);
      } else if x == '>' {
        assert e[1] == 'g' && "&amp;"[1] == 'a' && "&lt;"[1] == 'l';
        assert "&gt;" <= e && e[4..] == EscapeEach(t);
        assert Unescape(e) == ['>'] + Unescape(e[4..]);
      } else {
        assert e[0] == x && e[1..] == EscapeEach(t);
        assert Unescape(e) == [x] + Unescape(e[1..]);
      }
      assert s == [x] + t;
    }
  }
}
