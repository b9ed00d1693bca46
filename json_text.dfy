/**
 * How `JSON.stringify` writes a string, and enough of `JSON.parse` to read
 * one back: a quote, the characters with `"`, `\` and the control
 * characters escaped, and a closing quote.
 */
module JsonText {
  import opened Opt

  /** A lower-case hexadecimal digit, as `JSON.stringify` writes them. */
  function HexDigit(d: nat): (c: char)
    requires d < 16
  {
    if d < 10 then ('0' as int + d) as char else ('a' as int + d - 10) as char
  }

  /** The value of a hexadecimal digit of either case. */
  function HexValue(c: char): (r: Option<nat>)
    ensures r.Some? ==> r.value < 16
  {
    if '0' <= c <= '9' then Some(c as int - '0' as int)
    else if 'a' <= c <= 'f' then Some(c as int - 'a' as int + 10)
    else if 'A' <= c <= 'F' then Some(c as int - 'A' as int + 10)
    else None
  }

  lemma HexRoundTrip(d: nat)
    requires d < 16
    ensures HexValue(HexDigit(d)) == Some(d)
  {
  }

  /** What one character of a string becomes inside the quotes. */
  function EscapeChar(c: char): string {
    if c == '"' then "\\\""
    else if c == '\\' then "\\\\"
    else if c == '\U{0008}' then "\\b"
    else if c == '\U{000C}' then "\\f"
    else if c == '\n' then "\\n"
    else if c == '\r' then "\\r"
    else if c == '\t' then "\\t"
    else if (c as int) < 0x20 then "\\u00" + [HexDigit(c as int / 16), HexDigit(c as int % 16)]
    else [c]
  }

  function Escape(s: string): string
    decreases |s|
  {
    if s == [] then [] else EscapeChar(s[0]) + Escape(s[1..])
  }

  /** `JSON.stringify(s)` for a string `s`. */
  function Quote(s: string): string {
    "\"" + Escape(s) + "\""
  }

  /**
   * The escape after a backslash at the head of `t`: the character it
   * stands for and how many characters it takes up.
   */
  function UnescapeAt(t: string): (r: Option<(char, nat)>)
    ensures r.Some? ==> 1 <= r.value.1 <= |t|
  {
    if t == [] then None
    else if t[0] == '"' then Some(('"', 1))
    else if t[0] == '\\' then Some(('\\', 1))
    else if t[0] == '/' then Some(('/', 1))
    else if t[0] == 'b' then Some(('\U{0008}', 1))
    else if t[0] == 'f' then Some(('\U{000C}', 1))
    else if t[0] == 'n' then Some(('\n', 1))
    else if t[0] == 'r' then Some(('\r', 1))
    else if t[0] == 't' then Some(('\t', 1))
    else if t[0] == 'u' && |t| >= 5 then
      match (HexValue(t[1]), HexValue(t[2]), HexValue(t[3]), HexValue(t[4]))
      case (Some(a), Some(b), Some(c), Some(d)) =>
        var v := ((a * 16 + b) * 16 + c) * 16 + d;
        if v < 0xD800 then Some((v as char, 5)) else None
      case _ => None
    else None
  }

  /** The characters of a string up to its closing quote, and what follows the quote. */
  function ParseBody(t: string): Option<(string, string)>
    decreases |t|
  {
    if t == [] then None
    else if t[0] == '"' then Some(([], t[1..]))
    else if t[0] == '\\' then
      match UnescapeAt(t[1..])
      case None => None
      case Some((c, n)) =>
        match ParseBody(t[1 + n..])
        case None => None
        case Some((s, rest)) => Some(([c] + s, rest))
    else if (t[0] as int) < 0x20 then None
    else
      match ParseBody(t[1..])
      case None => None
      case Some((s, rest)) => Some(([t[0]] + s, rest))
  }

  /** A string literal at the head of `t`, and what follows it. */
  function ParseString(t: string): Option<(string, string)> {
    if t != [] && t[0] == '"' then ParseBody(t[1..]) else None
  }

  /** One escaped character is read back as itself, whatever follows it. */
  lemma UnescapeChar(c: char, more: string)
    ensures EscapeChar(c) != [] && (EscapeChar(c) == [c] || EscapeChar(c)[0] == '\\')
    ensures EscapeChar(c) == [c] ==> c != '"' && c != '\\' && (c as int) >= 0x20
    ensures EscapeChar(c) != [c] ==>
              UnescapeAt(EscapeChar(c)[1..] + more) == Some((c, |EscapeChar(c)| - 1))
  {
    if (c as int) < 0x20 && c != '\U{0008}' && c != '\U{000C}' && c != '\n' && c != '\r' && c != '\t' {
      var hi, lo := c as int / 16, c as int % 16;
      var e := EscapeChar(c)[1..] + more;
      HexRoundTrip(0);
      HexRoundTrip(hi);
      HexRoundTrip(lo);
      assert e[0] == 'u' && e[1] == '0' && e[2] == '0' && e[3] == HexDigit(hi) && e[4] == HexDigit(lo);
    }
  }

  /** An escaped character in front of a readable body is read back in front of it. */
  lemma ParseEscapedChar(c: char, tail: string, s: string, rest: string)
    requires ParseBody(tail) == Some((s, rest))
    ensures ParseBody(EscapeChar(c) + tail) == Some(([c] + s, rest))
  {
    var e := EscapeChar(c);
    var t := e + tail;
    UnescapeChar(c, tail);
    if e == [c] {
      assert t[0] == c && t[1..] == tail;
    } else {
      assert t[0] == '\\';
      assert t[1..] == e[1..] + tail;
      assert t[1 + (|e| - 1)..] == tail;
    }
  }

  /** `JSON.parse` undoes `JSON.stringify` on the body of a string. */
  lemma {:induction false} ParseEscaped(s: string, rest: string)
    ensures ParseBody(Escape(s) + "\"" + rest) == Some((s, rest))
    decreases |s|
  {
    if s == [] {
      assert Escape(s) + "\"" + rest == ['"'] + rest;
    } else {
      var tail := Escape(s[1..]) + "\"" + rest;
      assert Escape(s) + "\"" + rest == EscapeChar(s[0]) + tail;
      ParseEscaped(s[1..], rest);
      ParseEscapedChar(s[0], tail, s[1..], rest);
      assert s == [s[0]] + s[1..];
    }
  }

  /** A quoted string is read back, and what follows it is left over. */
  lemma ParseQuoted(s: string, rest: string)
    ensures ParseString(Quote(s) + rest) == Some((s, rest))
  {
    var body := Escape(s) + "\"" + rest;
    ParseEscaped(s, rest);
    assert Quote(s) + rest == ['"'] + body;
    assert (['"'] + body)[1..] == body;
  }

  /** Different strings are written differently. */
  lemma QuoteInjective(a: string, b: string)
    requires Quote(a) == Quote(b)
    ensures a == b
  {
    ParseQuoted(a, "");
    ParseQuoted(b, "");
    assert Quote(a) + "" == Quote(a) && Quote(b) + "" == Quote(b);
  }
}
