/**
 * The code block's own logic: the bounded cache of highlighted HTML and its
 * keys, the language label, the collapse rule, the expanded state and the
 * escaped fallback shown when highlighting fails.
 */
module CodeBlock {
  import opened Opt
  import opened JsText
  import opened Decimal
  import opened HtmlEscape
  import JsonText

  const MaxHtmlCacheEntries: nat := 64

  /** The fields a cache key is made of; `highlightLines` absent is `None` (written `null`). */
  datatype KeyFields = KeyFields(code: string, language: string, theme: string, lineNumbers: string,
                                 highlightLines: Option<seq<nat>>)

  /** The numbers of a JSON array, separated by commas. */
  function NumberList(ns: seq<nat>): string
    decreases |ns|
  {
    if ns == [] then ""
    else if |ns| == 1 then NatToString(ns[0])
    else NatToString(ns[0]) + "," + NumberList(ns[1..])
  }

  /** `highlightLines ?? null`, as `JSON.stringify` writes it. */
  function LinesJson(h: Option<seq<nat>>): string {
    match h
    case None => "null"
    case Some(ns) => "[" + NumberList(ns) + "]"
  }

  /** `getCacheKey`: the five fields as a JSON object, in this order. */
  function GetCacheKey(f: KeyFields): string {
    "{\"code\":" + JsonText.Quote(f.code)
    + (",\"language\":" + JsonText.Quote(f.language)
    + (",\"theme\":" + JsonText.Quote(f.theme)
    + (",\"lineNumbers\":" + JsonText.Quote(f.lineNumbers)
    + (",\"highlightLines\":" + (LinesJson(f.highlightLines) + "}")))))
  }

  /** `lit` at the head of `t`, and what follows it. */
  function Expect(lit: string, t: string): Option<string> {
    if lit <= t then Some(t[|lit|..]) else None
  }

  /** Numbers separated by commas up to a closing bracket, and what follows it. */
  function ParseNumbers(t: string): Option<(seq<nat>, string)>
    decreases |t|
  {
    var k := LeadingDigits(t);
    if k == 0 || k == |t| then None
    else
      var n := ParseDigits(t[..k]);
      if t[k] == ']' then Some(([n], t[k + 1..]))
      else if t[k] == ',' then
        match ParseNumbers(t[k + 1..])
        case None => None
        case Some((ns, rest)) => Some(([n] + ns, rest))
      else None
  }

  function ParseLines(t: string): Option<(Option<seq<nat>>, string)> {
    if "null" <= t then Some((None, t[4..]))
    else if "[]" <= t then Some((Some([]), t[2..]))
    else if "[" <= t then
      match ParseNumbers(t[1..])
      case None => None
      case Some((ns, rest)) => Some((Some(ns), rest))
    else None
  }

  /** A named string member, `name` then a string literal, and what follows it. */
  function Member(name: string, t: string): Option<(string, string)> {
    match Expect(name, t)
    case None => None
    case Some(u) => JsonText.ParseString(u)
  }

  /** Reads the fields back out of a cache key. */
  function ParseKey(key: string): Option<KeyFields> {
    match Member("{\"code\":", key)
    case None => None
    case Some((code, t2)) =>
    match Member(",\"language\":", t2)
    case None => None
    case Some((language, t4)) =>
    match Member(",\"theme\":", t4)
    case None => None
    case Some((theme, t6)) =>
    match Member(",\"lineNumbers\":", t6)
    case None => None
    case Some((lineNumbers, t8)) =>
    match Expect(",\"highlightLines\":", t8)
    case None => None
    case Some(t9) =>
    match ParseLines(t9)
    case None => None
    case Some((highlightLines, t10)) =>
      if t10 == "}" then Some(KeyFields(code, language, theme, lineNumbers, highlightLines)) else None
  }

  lemma ExpectLiteral(lit: string, rest: string)
    ensures Expect(lit, lit + rest) == Some(rest)
  {
    assert (lit + rest)[|lit|..] == rest;
  }

  lemma MemberOf(name: string, s: string, rest: string)
    ensures Member(name, name + JsonText.Quote(s) + rest) == Some((s, rest))
  {
    assert name + JsonText.Quote(s) + rest == name + (JsonText.Quote(s) + rest);
    ExpectLiteral(name, JsonText.Quote(s) + rest);
    JsonText.ParseQuoted(s, rest);
  }

  /** A printed number followed by `c` is read back as that number, the separator and the rest. */
  lemma NumberHead(n: nat, c: char, tail: string)
    requires !IsDigit(c)
    ensures var t := NatToString(n) + [c] + tail;
      var k := |NatToString(n)|;
      && LeadingDigits(t) == k && 0 < k < |t|
      && t[..k] == NatToString(n) && ParseDigits(t[..k]) == n
      && t[k] == c && t[k + 1..] == tail
  {
    var p := NatToString(n);
    var t := p + [c] + tail;
    assert t == p + ([c] + tail);
    LeadingDigitsOfPrinted(n, [c] + tail);
    ParseNatToString(n);
    assert t[..|p|] == p;
    assert t[|p| + 1..] == tail;
  }

  /** The last number of the list, then the closing bracket. */
  lemma ParseLastNumber(n: nat, rest: string)
    ensures ParseNumbers(NatToString(n) + "]" + rest) == Some(([n], rest))
  {
    assert NatToString(n) + "]" + rest == NatToString(n) + [']'] + rest;
    NumberHead(n, ']', rest);
  }

  /** A number, a comma, and a list that is read back. */
  lemma ParseNextNumber(n: nat, tail: string, ns: seq<nat>, rest: string)
    requires ParseNumbers(tail) == Some((ns, rest))
    ensures ParseNumbers(NatToString(n) + "," + tail) == Some(([n] + ns, rest))
  {
    assert NatToString(n) + "," + tail == NatToString(n) + [','] + tail;
    NumberHead(n, ',', tail);
  }

  lemma {:induction false} ParseNumberList(ns: seq<nat>, rest: string)
    requires ns != []
    ensures ParseNumbers(NumberList(ns) + "]" + rest) == Some((ns, rest))
    decreases |ns|
  {
    var p := NatToString(ns[0]);
    if |ns| == 1 {
      assert NumberList(ns) == p;
      ParseLastNumber(ns[0], rest);
      assert ns == [ns[0]];
    } else {
      var tail := NumberList(ns[1..]) + "]" + rest;
      assert NumberList(ns) + "]" + rest == p + "," + tail;
      ParseNumberList(ns[1..], rest);
      ParseNextNumber(ns[0], tail, ns[1..], rest);
      assert ns == [ns[0]] + ns[1..];
    }
  }

  /** A non-empty list starts with a digit. */
  lemma NumberListHead(ns: seq<nat>)
    requires ns != []
    ensures NumberList(ns) != [] && IsDigit(NumberList(ns)[0])
  {
    var p := NatToString(ns[0]);
    assert IsDigit(p[0]);
    if |ns| == 1 {
      assert NumberList(ns) == p;
    } else {
      var l := NumberList(ns);
      assert l == p + ("," + NumberList(ns[1..]));
      assert l[0] == p[0];
    }
  }

  /** An opening bracket not closed at once leads into the list of numbers. */
  lemma ParseOpenBracket(u: string)
    requires u != [] && IsDigit(u[0])
    ensures ParseLines("[" + u) == match ParseNumbers(u)
                                   case None => None
                                   case Some((ns, rest)) => Some((Some(ns), rest))
  {
    var t := "[" + u;
    assert t[1] == u[0];
    assert !("null" <= t) && !("[]" <= t) && "[" <= t;
    assert t[1..] == u;
  }

  /** A non-empty array is read back through its numbers. */
  lemma ParseNonEmptyLines(ns: seq<nat>, rest: string)
    requires ns != []
    ensures ParseLines("[" + NumberList(ns) + "]" + rest) == Some((Some(ns), rest))
  {
    var u := NumberList(ns) + "]" + rest;
    assert "[" + NumberList(ns) + "]" + rest == "[" + u;
    NumberListHead(ns);
    assert u[0] == NumberList(ns)[0];
    ParseOpenBracket(u);
    ParseNumberList(ns, rest);
  }

  lemma ParseLinesJson(h: Option<seq<nat>>, rest: string)
    ensures ParseLines(LinesJson(h) + rest) == Some((h, rest))
  {
    var t := LinesJson(h) + rest;
    match h
    case None =>
      assert t[4..] == rest;
    case Some(ns) =>
      if ns == [] {
        assert t == "[]" + rest;
        assert t[0] == '[' && !("null" <= t) && "[]" <= t;
        assert t[2..] == rest;
      } else {
        ParseNonEmptyLines(ns, rest);
      }
  }

  /** A key gives back the fields it was made from. */
  lemma ParseGetCacheKey(f: KeyFields)
    ensures ParseKey(GetCacheKey(f)) == Some(f)
  {
    var t9 := LinesJson(f.highlightLines) + "}";
    var t8 := ",\"highlightLines\":" + t9;
    var t6 := ",\"lineNumbers\":" + JsonText.Quote(f.lineNumbers) + t8;
    var t4 := ",\"theme\":" + JsonText.Quote(f.theme) + t6;
    var t2 := ",\"language\":" + JsonText.Quote(f.language) + t4;
    MemberOf("{\"code\":", f.code, t2);
    MemberOf(",\"language\":", f.language, t4);
    MemberOf(",\"theme\":", f.theme, t6);
    MemberOf(",\"lineNumbers\":", f.lineNumbers, t8);
    ExpectLiteral(",\"highlightLines\":", t9);
    ParseLinesJson(f.highlightLines, "}");
  }

  /** Different fields never share a key, so no entry is served for another block. */
  lemma GetCacheKeyInjective(f: KeyFields, g: KeyFields)
    requires GetCacheKey(f) == GetCacheKey(g)
    ensures f == g
  {
    ParseGetCacheKey(f);
    ParseGetCacheKey(g);
  }

  /** No key occurs twice. */
  predicate DistinctKeys(s: seq<string>) {
    forall i, j :: 0 <= i < j < |s| ==> s[i] != s[j]
  }

  /**
   * The cache (`order`, `entries`) after `key` is set to `html` in the cache
   * (`order0`, `entries0`): a known key gets the new HTML in place; a new key
   * goes last, after the oldest key is evicted when the cache is full.
   */
  ghost predicate CachedAfter(order0: seq<string>, entries0: map<string, string>, key: string, html: string,
                              order: seq<string>, entries: map<string, string>)
  {
    if key in entries0 then
      order == order0 && entries == entries0[key := html]
    else if |order0| < MaxHtmlCacheEntries then
      order == order0 + [key] && entries == entries0[key := html]
    else
      && |order0| > 0
      && order == order0[1..] + [key]
      && entries == (entries0 - {order0[0]})[key := html]
  }

  /** The module's `htmlCache`: a `Map`, whose keys keep their insertion order. */
  class HtmlCache {
    /** The keys, oldest first. */
    var order: seq<string>
    var entries: map<string, string>

    ghost predicate Valid()
      reads this
    {
      && DistinctKeys(order)
      && (forall k :: k in entries <==> k in order)
      && |order| <= MaxHtmlCacheEntries
    }

    constructor ()
      ensures Valid() && order == [] && entries == map[]
    {
      order := [];
      entries := map[];
    }

    function Get(key: string): (r: Option<string>)
      reads this
      ensures r.Some? <==> key in entries
      ensures r.Some? ==> r.value == entries[key]
    {
      if key in entries then Some(entries[key]) else None
    }

    /**
     * `setCachedHtml`: a known key gets the new HTML in place (no eviction,
     * no move); a new key goes last, after the oldest key is evicted when
     * the cache is full. The cache never holds more than 64 entries.
     */
    method SetCachedHtml(key: string, html: string)
      requires Valid()
      modifies this
      ensures Valid()
      ensures key in entries && entries[key] == html
      ensures CachedAfter(old(order), old(entries), key, html, order, entries)
    {
      if key in entries {
        entries := entries[key := html];
        return;
      }
      if |order| >= MaxHtmlCacheEntries {
        var oldest := order[0];
        assert forall k :: k in order[1..] ==> k != oldest;
        entries := entries - {oldest};
        order := order[1..];
      }
      entries := entries[key := html];
      order := order + [key];
    }
  }

  /** What the label expression evaluates to: a string, or an inherited member of `Object.prototype`. */
  datatype LabelValue = Text(s: string) | PrototypeMember(name: string)

  /** The own entries of the display-name table. */
  function DisplayName(key: string): Option<string> {
    match key
    case "typescript" => Some("TypeScript")
    case "javascript" => Some("JavaScript")
    case "python" => Some("Python")
    case "tsx" => Some("TSX")
    case "jsx" => Some("JSX")
    case "json" => Some("JSON")
    case "bash" => Some("Bash")
    case "shell" => Some("Shell")
    case "css" => Some("CSS")
    case "html" => Some("HTML")
    case "markdown" => Some("Markdown")
    case "sql" => Some("SQL")
    case "yaml" => Some("YAML")
    case "go" => Some("Go")
    case "rust" => Some("Rust")
    case "text" => Some("Plain Text")
    case _ => None
  }

  /**
   * The lower-case names an object literal inherits truthy values under:
   * `constructor` (the `Object` function) and `__proto__` (the prototype).
   */
  predicate IsInheritedKey(key: string) {
    key == "constructor" || key == "__proto__"
  }

  /**
   * `getLanguageDisplayName` as written: indexing the object literal finds
   * its own entries and also the inherited members, which are truthy and
   * so are returned instead of the upper-cased fallback.
   */
  function LanguageDisplayNameAsWritten(lang: string): LabelValue {
    var key := ToLower(lang);
    if DisplayName(key).Some? then Text(DisplayName(key).value)
    else if IsInheritedKey(key) then PrototypeMember(key)
    else Text(ToUpper(lang))
  }

  /** A language of "constructor" gets the `Object` function as its label, not a string. */
  lemma InheritedLabel()
    ensures LanguageDisplayNameAsWritten("constructor") == PrototypeMember("constructor")
    ensures LanguageDisplayNameAsWritten("__proto__") == PrototypeMember("__proto__")
  {
    assert ToLower("constructor") == "constructor";
    assert ToLower("__proto__") == "__proto__";
  }

  /** The label looked up among the table's own entries only, upper-casing anything else. */
  function LanguageDisplayName(lang: string): (r: string)
    ensures DisplayName(ToLower(lang)).Some? ==> r == DisplayName(ToLower(lang)).value
    ensures DisplayName(ToLower(lang)).None? ==> r == ToUpper(lang)
  {
    var key := ToLower(lang);
    if DisplayName(key).Some? then DisplayName(key).value else ToUpper(lang)
  }

  /**
   * The label is always text, and agrees with the code as written on every
   * language but the two inherited names.
   */
  lemma LabelAgreesOffPrototype(lang: string)
    ensures !IsInheritedKey(ToLower(lang)) ==> LanguageDisplayNameAsWritten(lang) == Text(LanguageDisplayName(lang))
    ensures LanguageDisplayName("constructor") == "CONSTRUCTOR"
  {
    assert ToLower("constructor") == "constructor";
    assert ToUpper("constructor") == "CONSTRUCTOR";
  }

  /** `code.split("\n").length`. */
  function LineCount(code: string): (n: nat)
    ensures n == Count(code, '\n') + 1
  {
    SplitCount(code, '\n');
    |Split(code, "\n")|
  }

  /** `!!maxCollapsedLines && lineCount > maxCollapsedLines`. */
  function ShouldCollapse(lineCount: nat, maxCollapsedLines: Option<int>): (r: bool)
    ensures r <==> maxCollapsedLines.Some? && maxCollapsedLines.value != 0 && lineCount > maxCollapsedLines.value
  {
    match maxCollapsedLines
    case None => false
    case Some(m) => m != 0 && lineCount > m
  }

  /** Code longer than the limit by at least one line collapses; a block within it never does. */
  lemma CollapseByLines(code: string, m: int)
    requires m >= 1
    ensures ShouldCollapse(LineCount(code), Some(m)) <==> Count(code, '\n') >= m
    ensures !ShouldCollapse(LineCount(code), None)
  {
  }

  function IsCollapsed(shouldCollapse: bool, expanded: bool): bool {
    shouldCollapse && !expanded
  }

  /** The HTML shown when highlighting throws: the escaped code in a `pre`. */
  function FallbackHtml(code: string): (html: string)
    ensures html == "<pre><code>" + Escape(code) + "</code></pre>"
    ensures forall i :: 0 <= i < |Escape(code)| ==> Escape(code)[i] != '<' && Escape(code)[i] != '>'
    ensures Unescape(html[11..|html| - 13]) == code
  {
    EscapedHasNoAngles(code);
    UnescapeEscape(code);
    var html := "<pre><code>" + Escape(code) + "</code></pre>";
    assert html[11..|html| - 13] == Escape(code);
    html
  }

  /** How the highlighter's attempt ended: with HTML, or by throwing. */
  datatype Highlighting = Highlighted(html: string) | Threw

  /**
   * The highlighting effect for one key. A non-empty cached entry is shown
   * as it is. Empty code shows the empty string: that check runs before the
   * first `await`, so no cleanup can have run yet. Otherwise, unless the
   * effect was cancelled before the attempt ended: highlighted HTML is
   * cached under the key and shown; a highlighter that throws shows the
   * escaped fallback, which is not cached. `shown` is `None` when nothing
   * is set.
   */
  method HighlightEffect(cache: HtmlCache, key: string, code: string, attempt: Highlighting, cancelled: bool)
    returns (shown: Option<string>)
    requires cache.Valid()
    modifies cache
    ensures cache.Valid()
    ensures old(cache.Get(key)).Some? && old(cache.Get(key)).value != "" ==>
              shown == old(cache.Get(key)) && unchanged(cache)
    ensures !(old(cache.Get(key)).Some? && old(cache.Get(key)).value != "") ==>
              && (code == "" ==> shown == Some("") && unchanged(cache))
              && (code != "" && cancelled ==> shown.None? && unchanged(cache))
              && (code != "" && !cancelled && attempt.Highlighted? ==>
                    && shown == Some(attempt.html) && cache.Get(key) == shown
                    && CachedAfter(old(cache.order), old(cache.entries), key, attempt.html, cache.order, cache.entries))
              && (code != "" && !cancelled && attempt.Threw? ==>
                    shown == Some(FallbackHtml(code)) && unchanged(cache))
  {
    var cached := cache.Get(key);
    if cached.Some? && cached.value != "" {
      return cached;
    }
    if code == "" {
      return Some("");
    }
    shown := None;
    if cancelled {
      return;
    }
    if attempt.Highlighted? {
      cache.SetCachedHtml(key, attempt.html);
      shown := Some(attempt.html);
    } else {
      shown := Some(FallbackHtml(code));
    }
  }

  /** The root's expanded state: controlled through a prop, or kept locally. */
  class ExpandedState {
    /** The `expanded` prop; `None` when it is not given. */
    const expandedProp: Option<bool>
    /** Whether `onExpandedChange` was given. */
    const hasCallback: bool
    var expandedState: bool
    /** The values `onExpandedChange` was called with, in order. */
    var notified: seq<bool>

    constructor (expandedProp: Option<bool>, defaultExpanded: bool, hasCallback: bool)
      ensures this.expandedProp == expandedProp && this.hasCallback == hasCallback
      ensures expandedState == defaultExpanded && notified == []
    {
      this.expandedProp := expandedProp;
      this.hasCallback := hasCallback;
      expandedState := defaultExpanded;
      notified := [];
    }

    /** `expandedProp ?? expandedState`. */
    function Expanded(): bool
      reads this
    {
      expandedProp.GetOr(expandedState)
    }

    /**
     * `setExpanded`: the local state follows only when no prop controls
     * it; the callback, when given, is always called.
     */
    method SetExpanded(next: bool)
      modifies this
      ensures expandedState == (if expandedProp.None? then next else old(expandedState))
      ensures notified == (if hasCallback then old(notified) + [next] else old(notified))
      ensures expandedProp.None? ==> Expanded() == next
      ensures expandedProp.Some? ==> Expanded() == old(Expanded())
    {
      if expandedProp.None? {
        expandedState := next;
      }
      if hasCallback {
        notified := notified + [next];
      }
    }

    /** `toggleExpanded`. */
    method ToggleExpanded()
      modifies this
      ensures expandedProp.None? ==> Expanded() == !old(Expanded())
      ensures expandedProp.Some? ==> Expanded() == old(Expanded())
      ensures notified == (if hasCallback then old(notified) + [!old(Expanded())] else old(notified))
    {
      SetExpanded(!Expanded());
    }
  }
}
