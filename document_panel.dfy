/**
 * The document panel's Markdown rendering and its "Latest" marker.
 *
 * `renderMarkdown` escapes the text, rewrites it line by line with
 * anchored rules (headings, quotes, rules, list items), then splits it on
 * blank lines and wraps each paragraph. The inline rules (bold, italic,
 * code, links, fenced code) are not modelled: on text without a backtick
 * or `[` and with at most one `*` per line none of them can match.
 */
module DocumentPanel {
  import opened JsText
  import opened Decimal
  import HtmlEscape
  import DocumentStore

  /** The characters a JavaScript regular expression ends a line at (for `^`, `$` and `.`). */
  predicate IsLineTerminator(c: char) {
    c == '\n' || c == '\r' || c == '\U{2028}' || c == '\U{2029}'
  }

  predicate NoTerminator(s: string) {
    forall i :: 0 <= i < |s| ==> !IsLineTerminator(s[i])
  }

  /** Where the first line of `s` ends: its first line terminator, or the end of `s`. */
  function LineEnd(s: string): (k: nat)
    ensures k <= |s| && NoTerminator(s[..k])
    ensures k < |s| ==> IsLineTerminator(s[k])
    decreases |s|
  {
    if s == [] || IsLineTerminator(s[0]) then 0
    else
      var k := 1 + LineEnd(s[1..]);
      assert s[..k] == [s[0]] + s[1..][..k - 1];
      k
  }

  /**
   * The line-anchored rules, in the order they run. A quote rule carries
   * the prefix it looks for.
   */
  datatype Rule = H3 | H2 | H1 | Quote(prefix: string) | Hr | Star | Dash | Numbered

  /** The eight rules in the order they run, the quote rule looking for `q`. */
  function LineRules(q: string): seq<Rule> {
    [H3, H2, H1, Quote(q), Hr, Star, Dash, Numbered]
  }

  /** The rules as written: the quote rule looks for `"> "`. */
  const WrittenRules: seq<Rule> := LineRules("> ")

  /** The rules with the quote rule looking for the escaped prefix `"&gt; "`. */
  const IntendedRules: seq<Rule> := LineRules("&gt; ")

  /** Whether a rule's pattern matches a line (a string without line terminators). */
  predicate Matches(r: Rule, line: string) {
    match r
    case H3 => "### " <= line
    case H2 => "## " <= line
    case H1 => "# " <= line
    case Quote(p) => p <= line
    case Hr => line == "---"
    case Star => "* " <= line
    case Dash => "- " <= line
    case Numbered =>
      var k := LeadingDigits(line);
      k > 0 && ". " <= line[k..]
  }

  /** What a matching line is replaced with: the rest of the line, wrapped. */
  function Replace(r: Rule, line: string): (out: string)
    requires Matches(r, line)
    ensures |out| >= 2 && out[0] == '<'
    ensures out[1] == 'b' <==> r.Quote?
  {
    match r
    case H3 => "<h3>" + line[4..] + "</h3>"
    case H2 => "<h2>" + line[3..] + "</h2>"
    case H1 => "<h1>" + line[2..] + "</h1>"
    case Quote(p) => "<blockquote>" + line[|p|..] + "</blockquote>"
    case Hr => "<hr/>"
    case Star => "<li>" + line[2..] + "</li>"
    case Dash => "<li>" + line[2..] + "</li>"
    case Numbered => "<li>" + line[LeadingDigits(line) + 2..] + "</li>"
  }

  /** One rule on one line. */
  function ApplyRule(r: Rule, line: string): string {
    if Matches(r, line) then Replace(r, line) else line
  }

  /** A function on lines applied to every line of `s`, its terminators kept. */
  function MapLines(f: string -> string, s: string): string
    decreases |s|
  {
    var k := LineEnd(s);
    if k == |s| then f(s)
    else f(s[..k]) + [s[k]] + MapLines(f, s[k + 1..])
  }

  function RuleOnLine(r: Rule): string -> string {
    line => ApplyRule(r, line)
  }

  /** `s.replace(rule, …)` with the `g` and `m` flags: the rule on every line. */
  function Rewrite(r: Rule, s: string): string {
    MapLines(RuleOnLine(r), s)
  }

  /** The line stage as the source chains it, one global replacement after another. */
  function LineStage(rs: seq<Rule>, s: string): string
    requires |rs| == 8
  {
    Rewrite(rs[7], Rewrite(rs[6], Rewrite(rs[5], Rewrite(rs[4],
      Rewrite(rs[3], Rewrite(rs[2], Rewrite(rs[1], Rewrite(rs[0], s))))))))
  }

  /** Several rules, in order, on one line. */
  function ApplyRules(rs: seq<Rule>, line: string): string
    decreases |rs|
  {
    if rs == [] then line else ApplyRules(rs[1..], ApplyRule(rs[0], line))
  }

  function RulesOnLine(rs: seq<Rule>): string -> string {
    line => ApplyRules(rs, line)
  }

  /** Several rules, in order, on every line. */
  function RewriteAll(rs: seq<Rule>, s: string): string {
    MapLines(RulesOnLine(rs), s)
  }

  /** The first rule that matches a line decides it; a line no rule matches is kept. */
  function FirstMatch(rs: seq<Rule>, line: string): string
    decreases |rs|
  {
    if rs == [] then line
    else if Matches(rs[0], line) then Replace(rs[0], line)
    else FirstMatch(rs[1..], line)
  }

  /** No rule's pattern starts with `<`. */
  predicate PatternsAvoidTags(rs: seq<Rule>) {
    forall i :: 0 <= i < |rs| ==> rs[i].Quote? ==> rs[i].prefix != [] && rs[i].prefix[0] != '<'
  }

  lemma Wrapped(open: string, mid: string, close: string)
    requires NoTerminator(open) && NoTerminator(mid) && NoTerminator(close)
    ensures NoTerminator(open + mid + close)
  {
  }

  lemma ApplyRuleKeepsLine(r: Rule, line: string)
    requires NoTerminator(line)
    ensures NoTerminator(ApplyRule(r, line))
  {
    if Matches(r, line) {
      match r
      case H3 => Wrapped("<h3>", line[4..], "</h3>");
      case H2 => Wrapped("<h2>", line[3..], "</h2>");
      case H1 => Wrapped("<h1>", line[2..], "</h1>");
      case Quote(p) => Wrapped("<blockquote>", line[|p|..], "</blockquote>");
      case Hr =>
      case Star => Wrapped("<li>", line[2..], "</li>");
      case Dash => Wrapped("<li>", line[2..], "</li>");
      case Numbered => Wrapped("<li>", line[LeadingDigits(line) + 2..], "</li>");
    }
  }

  lemma {:induction false} ApplyRulesKeepsLine(rs: seq<Rule>, line: string)
    requires NoTerminator(line)
    ensures NoTerminator(ApplyRules(rs, line))
    decreases |rs|
  {
    if rs != [] {
      ApplyRuleKeepsLine(rs[0], line);
      ApplyRulesKeepsLine(rs[1..], ApplyRule(rs[0], line));
    }
  }

  lemma {:induction false} ApplyRulesSnoc(rs: seq<Rule>, r: Rule, line: string)
    ensures ApplyRules(rs + [r], line) == ApplyRule(r, ApplyRules(rs, line))
    decreases |rs|
  {
    if rs == [] {
      assert [] + [r] == [r];
    } else {
      assert (rs + [r])[1..] == rs[1..] + [r];
      ApplyRulesSnoc(rs[1..], r, ApplyRule(rs[0], line));
    }
  }

  /** A line without terminators is one whole line. */
  lemma {:induction false} LineEndOfLine(a: string)
    requires NoTerminator(a)
    ensures LineEnd(a) == |a|
    decreases |a|
  {
    if a != [] {
      LineEndOfLine(a[1..]);
    }
  }

  /** The first line of a line followed by a terminator is that line. */
  lemma {:induction false} LineEndOf(a: string, c: char, b: string)
    requires NoTerminator(a) && IsLineTerminator(c)
    ensures var t := a + [c] + b; LineEnd(t) == |a| && t[..|a|] == a && t[|a|] == c && t[|a| + 1..] == b
    decreases |a|
  {
    var t := a + [c] + b;
    if a != [] {
      assert t[1..] == a[1..] + [c] + b;
      LineEndOf(a[1..], c, b);
    }
    assert t[..|a|] == a;
    assert t[|a| + 1..] == b;
  }

  /** Mapping `f` then `g` over the lines is mapping their composition, when `f` keeps lines whole. */
  lemma {:induction false} MapLinesCompose(f: string -> string, g: string -> string, h: string -> string, s: string)
    requires forall line :: NoTerminator(line) ==> NoTerminator(f(line)) && h(line) == g(f(line))
    ensures MapLines(g, MapLines(f, s)) == MapLines(h, s)
    decreases |s|
  {
    var k := LineEnd(s);
    var a := f(s[..k]);
    if k == |s| {
      assert s[..k] == s;
      LineEndOfLine(a);
    } else {
      LineEndOf(a, s[k], MapLines(f, s[k + 1..]));
      MapLinesCompose(f, g, h, s[k + 1..]);
    }
  }

  lemma {:induction false} MapLinesIdentity(f: string -> string, s: string)
    requires forall line :: NoTerminator(line) ==> f(line) == line
    ensures MapLines(f, s) == s
    decreases |s|
  {
    var k := LineEnd(s);
    if k < |s| {
      MapLinesIdentity(f, s[k + 1..]);
      assert s == s[..k] + [s[k]] + s[k + 1..];
    } else {
      assert s[..k] == s;
    }
  }

  /** Running one more rule over every line extends the list of rules. */
  lemma RewriteAfter(rs: seq<Rule>, r: Rule, s: string)
    ensures Rewrite(r, RewriteAll(rs, s)) == RewriteAll(rs + [r], s)
  {
    forall line | NoTerminator(line)
      ensures NoTerminator(RulesOnLine(rs)(line))
      ensures RulesOnLine(rs + [r])(line) == RuleOnLine(r)(RulesOnLine(rs)(line))
    {
      ApplyRulesKeepsLine(rs, line);
      ApplyRulesSnoc(rs, r, line);
    }
    MapLinesCompose(RulesOnLine(rs), RuleOnLine(r), RulesOnLine(rs + [r]), s);
  }

  lemma RewriteAllNone(s: string)
    ensures RewriteAll([], s) == s
  {
    MapLinesIdentity(RulesOnLine([]), s);
  }

  /** Running rule `k` after the first `k` rules runs the first `k + 1`. */
  lemma PrefixStep(rs: seq<Rule>, k: nat, s: string, t: string)
    requires k < |rs| && t == RewriteAll(rs[..k], s)
    ensures Rewrite(rs[k], t) == RewriteAll(rs[..k + 1], s)
  {
    RewriteAfter(rs[..k], rs[k], s);
    assert rs[..k] + [rs[k]] == rs[..k + 1];
  }

  /** The chain of eight replacements is the eight rules run over each line in turn. */
  lemma LineStageIsPerLine(rs: seq<Rule>, s: string)
    requires |rs| == 8
    ensures LineStage(rs, s) == RewriteAll(rs, s)
  {
    RewriteAllNone(s);
    assert rs[..0] == [];
    var t1 := Rewrite(rs[0], s);
    PrefixStep(rs, 0, s, s);
    var t2 := Rewrite(rs[1], t1);
    PrefixStep(rs, 1, s, t1);
    var t3 := Rewrite(rs[2], t2);
    PrefixStep(rs, 2, s, t2);
    var t4 := Rewrite(rs[3], t3);
    PrefixStep(rs, 3, s, t3);
    var t5 := Rewrite(rs[4], t4);
    PrefixStep(rs, 4, s, t4);
    var t6 := Rewrite(rs[5], t5);
    PrefixStep(rs, 5, s, t5);
    var t7 := Rewrite(rs[6], t6);
    PrefixStep(rs, 6, s, t6);
    PrefixStep(rs, 7, s, t7);
    assert rs[..8] == rs;
  }

  /** A line a rule has rewritten starts with `<`, which no later rule matches. */
  lemma {:induction false} TaggedLineStays(rs: seq<Rule>, line: string)
    requires PatternsAvoidTags(rs)
    requires line != [] && line[0] == '<'
    ensures ApplyRules(rs, line) == line
    decreases |rs|
  {
    if rs != [] {
      assert !Matches(rs[0], line) by {
        if rs[0].Numbered? {
          assert !IsDigit(line[0]);
        }
      }
      TaggedLineStays(rs[1..], line);
    }
  }

  /** Running the rules one after another on a line is taking the first that matches. */
  lemma {:induction false} RulesTakeFirstMatch(rs: seq<Rule>, line: string)
    requires PatternsAvoidTags(rs)
    ensures ApplyRules(rs, line) == FirstMatch(rs, line)
    decreases |rs|
  {
    if rs != [] {
      assert PatternsAvoidTags(rs[1..]) by {
        forall i | 0 <= i < |rs| - 1 ensures rs[1..][i] == rs[i + 1] { }
      }
      if Matches(rs[0], line) {
        TaggedLineStays(rs[1..], Replace(rs[0], line));
      } else {
        RulesTakeFirstMatch(rs[1..], line);
      }
    }
  }

  /** One line's rendering under a list of rules. */
  function RenderLine(rs: seq<Rule>, line: string): (out: string)
    requires PatternsAvoidTags(rs)
    ensures out == ApplyRules(rs, line)
  {
    RulesTakeFirstMatch(rs, line);
    FirstMatch(rs, line)
  }

  /** The first match among the eight rules, spelled out. */
  lemma FirstMatchOfLineRules(q: string, line: string)
    ensures FirstMatch(LineRules(q), line) ==
      if Matches(H3, line) then Replace(H3, line)
      else if Matches(H2, line) then Replace(H2, line)
      else if Matches(H1, line) then Replace(H1, line)
      else if Matches(Quote(q), line) then Replace(Quote(q), line)
      else if Matches(Hr, line) then Replace(Hr, line)
      else if Matches(Star, line) then Replace(Star, line)
      else if Matches(Dash, line) then Replace(Dash, line)
      else if Matches(Numbered, line) then Replace(Numbered, line)
      else line
  {
    var r7 := [Numbered];
    var r6 := [Dash] + r7;
    var r5 := [Star] + r6;
    var r4 := [Hr] + r5;
    var r3 := [Quote(q)] + r4;
    var r2 := [H1] + r3;
    var r1 := [H2] + r2;
    assert LineRules(q) == [H3] + r1;
    FirstMatchCons(Numbered, [], line);
    assert [Numbered] + [] == r7;
    FirstMatchCons(Dash, r7, line);
    FirstMatchCons(Star, r6, line);
    FirstMatchCons(Hr, r5, line);
    FirstMatchCons(Quote(q), r4, line);
    FirstMatchCons(H1, r3, line);
    FirstMatchCons(H2, r2, line);
    FirstMatchCons(H3, r1, line);
  }

  /** The rule at the head of the list is tried first. */
  lemma FirstMatchCons(r: Rule, rs: seq<Rule>, line: string)
    ensures FirstMatch([r] + rs, line) == if Matches(r, line) then Replace(r, line) else FirstMatch(rs, line)
  {
    assert ([r] + rs)[1..] == rs;
  }

  /** A line led by a character no rule starts with is kept as it is. */
  lemma UnmatchedLine(q: string, line: string)
    requires line != [] && !IsDigit(line[0])
    requires line[0] != '#' && line[0] != '*' && line[0] != '-'
    requires q != [] && line[0] != q[0]
    ensures FirstMatch(LineRules(q), line) == line
  {
    FirstMatchOfLineRules(q, line);
    assert !Matches(H3, line) && !Matches(H2, line) && !Matches(H1, line);
    assert !Matches(Quote(q), line);
    assert !Matches(Hr, line) by {
      assert "---"[0] == '-';
    }
    assert !Matches(Star, line) && !Matches(Dash, line);
    assert LeadingDigits(line) == 0;
  }

  /**
   * Headings are tried longest first, so a `### ` line is a third-level
   * heading and not a first-level one holding `## `.
   */
  lemma HeadingLevels(q: string, x: string)
    ensures FirstMatch(LineRules(q), "### " + x) == "<h3>" + x + "</h3>"
    ensures FirstMatch(LineRules(q), "## " + x) == "<h2>" + x + "</h2>"
    ensures FirstMatch(LineRules(q), "# " + x) == "<h1>" + x + "</h1>"
  {
    FirstMatchOfLineRules(q, "### " + x);
    FirstMatchOfLineRules(q, "## " + x);
    FirstMatchOfLineRules(q, "# " + x);
    assert ("### " + x)[..4] == "### " && ("### " + x)[4..] == x;
    var l2 := "## " + x;
    assert l2[..3] == "## " && l2[3..] == x;
    assert !Matches(H3, l2) by {
      assert l2[2] == ' ';
    }
    var l1 := "# " + x;
    assert l1[..2] == "# " && l1[2..] == x;
    assert !Matches(H3, l1) && !Matches(H2, l1) by {
      assert l1[1] == ' ';
    }
  }

  /** Exactly `---` is a horizontal rule. */
  lemma HorizontalRule(q: string)
    requires q != [] && q[0] != '-'
    ensures FirstMatch(LineRules(q), "---") == "<hr/>"
  {
    FirstMatchOfLineRules(q, "---");
    assert "---"[0] == '-';
    assert !Matches(Quote(q), "---") by {
      assert q[0] != "---"[0];
    }
  }

  /** `* ` and `- ` lines become list items. */
  lemma MarkedItems(q: string, x: string)
    requires q != [] && q[0] != '-' && q[0] != '*'
    ensures FirstMatch(LineRules(q), "* " + x) == "<li>" + x + "</li>"
    ensures FirstMatch(LineRules(q), "- " + x) == "<li>" + x + "</li>"
  {
    var ls := "* " + x;
    FirstMatchOfLineRules(q, ls);
    assert ls[0] == '*' && ls[..2] == "* " && ls[2..] == x;
    assert ls != "---";
    var ld := "- " + x;
    FirstMatchOfLineRules(q, ld);
    assert ld[0] == '-' && ld[1] == ' ' && ld[..2] == "- " && ld[2..] == x;
    assert ld != "---" by {
      assert "---"[1] == '-';
    }
  }

  /** `N. ` lines become list items. */
  lemma NumberedItem(q: string, x: string, n: nat)
    requires q != [] && !IsDigit(q[0])
    ensures FirstMatch(LineRules(q), NatToString(n) + ". " + x) == "<li>" + x + "</li>"
  {
    var p := NatToString(n);
    var ln := p + ". " + x;
    FirstMatchOfLineRules(q, ln);
    assert ln == p + (". " + x);
    LeadingDigitsOfPrinted(n, ". " + x);
    assert ln[|p|..] == ". " + x;
    assert ln[|p| + 2..] == x;
    assert ln[0] == p[0] && IsDigit(ln[0]);
    assert !Matches(H3, ln) && !Matches(H2, ln) && !Matches(H1, ln);
    assert !Matches(Quote(q), ln) && !Matches(Star, ln) && !Matches(Dash, ln);
    assert ln != "---" by {
      assert "---"[0] == '-';
    }
  }

  /** The text without its inline syntax: no backtick, no `[`, and at most one `*` on any line. */
  predicate InlineFree(s: string) {
    && (forall i :: 0 <= i < |s| ==> s[i] != '`' && s[i] != '[')
    && (forall i, j :: 0 <= i < j < |s| && s[i] == '*' && s[j] == '*' ==>
          exists k :: i < k < j && IsLineTerminator(s[k]))
  }

  /** Text without any `*`, backtick or `[` is free of inline syntax. */
  lemma MarkupFreeIsInlineFree(s: string)
    requires forall i :: 0 <= i < |s| ==> s[i] != '*' && s[i] != '`' && s[i] != '['
    ensures InlineFree(s)
  {
  }

  /** Paragraphs that are already block elements. */
  predicate IsBlock(para: string) {
    StartsWith(para, "<h") || StartsWith(para, "<pre") || StartsWith(para, "<blockquote") || StartsWith(para, "<hr")
  }

  /**
   * One paragraph: a block passes through, a paragraph holding an item
   * becomes a list, any other non-blank one a `<p>` with its newlines as
   * breaks, and a blank one disappears.
   */
  function RenderParagraph(para: string): (r: string)
    ensures IsBlock(para) ==> r == para
    ensures !IsBlock(para) && Includes(para, "<li>") ==> r == "<ul>" + para + "</ul>"
    ensures !IsBlock(para) && !Includes(para, "<li>") && !IsBlank(para) ==>
              r == "<p>" + HtmlEscape.ReplaceAll(para, '\n', "<br/>") + "</p>"
    ensures !IsBlock(para) && !Includes(para, "<li>") && IsBlank(para) ==> r == ""
  {
    TrimEmptyIffBlank(para);
    if IsBlock(para) then para
    else if Includes(para, "<li>") then "<ul>" + para + "</ul>"
    else if Trim(para) != [] then "<p>" + HtmlEscape.ReplaceAll(para, '\n', "<br/>") + "</p>"
    else ""
  }

  lemma {:induction false} NoNewlineAfterBreaks(s: string)
    ensures forall i :: 0 <= i < |HtmlEscape.ReplaceAll(s, '\n', "<br/>")| ==>
              HtmlEscape.ReplaceAll(s, '\n', "<br/>")[i] != '\n'
    decreases |s|
  {
    if s != [] {
      NoNewlineAfterBreaks(s[1..]);
    }
  }

  /** A text paragraph is written on one line: every newline in it became a `<br/>`. */
  lemma TextParagraphIsOneLine(para: string)
    requires !IsBlock(para) && !Includes(para, "<li>")
    ensures forall i :: 0 <= i < |RenderParagraph(para)| ==> RenderParagraph(para)[i] != '\n'
  {
    NoNewlineAfterBreaks(para);
  }

  function MapParagraphs(ps: seq<string>): (r: seq<string>)
    ensures |r| == |ps| && forall i :: 0 <= i < |ps| ==> r[i] == RenderParagraph(ps[i])
    decreases |ps|
  {
    if ps == [] then [] else [RenderParagraph(ps[0])] + MapParagraphs(ps[1..])
  }

  /** The paragraph stage: split on blank lines, render each paragraph, join with newlines. */
  function Paragraphs(html: string): string {
    Join(MapParagraphs(Split(html, "\n\n")), "\n")
  }

  /** `renderMarkdown` under the given line rules. */
  function RenderWith(rs: seq<Rule>, content: string): string
    requires |rs| == 8
  {
    Paragraphs(LineStage(rs, HtmlEscape.Escape(content)))
  }

  /** `renderMarkdown` as written. */
  function RenderMarkdownAsWritten(content: string): (html: string)
    requires InlineFree(content)
    ensures html == Paragraphs(RewriteAll(WrittenRules, HtmlEscape.Escape(content)))
  {
    LineStageIsPerLine(WrittenRules, HtmlEscape.Escape(content));
    RenderWith(WrittenRules, content)
  }

  /** `renderMarkdown` with quotes recognised after escaping. */
  function RenderMarkdown(content: string): (html: string)
    requires InlineFree(content)
    ensures html == Paragraphs(RewriteAll(IntendedRules, HtmlEscape.Escape(content)))
  {
    LineStageIsPerLine(IntendedRules, HtmlEscape.Escape(content));
    RenderWith(IntendedRules, content)
  }

  /** Before the rules run, the text holds no `<` or `>` at all. */
  lemma EscapedTextHasNoAngles(content: string)
    ensures forall i :: 0 <= i < |HtmlEscape.Escape(content)| ==>
              HtmlEscape.Escape(content)[i] != '<' && HtmlEscape.Escape(content)[i] != '>'
  {
    HtmlEscape.EscapedHasNoAngles(content);
  }

  /** No `<` or `>` in a string. */
  predicate NoAngles(s: string) {
    forall i :: 0 <= i < |s| ==> s[i] != '<' && s[i] != '>'
  }

  /**
   * As written, the quote rule never fires: the escaped lines it is given
   * hold no `<` or `>`, so no line of the text becomes a block quote.
   */
  lemma WrittenQuoteNeverFires(line: string)
    requires NoAngles(line)
    ensures !("<b" <= FirstMatch(WrittenRules, line))
  {
    FirstMatchOfLineRules("> ", line);
    if line != [] {
      assert line[0] != '>' && line[0] != '<';
    }
  }

  /** A string with no newline is split on blank lines into itself. */
  lemma {:induction false} SplitWithoutNewline(s: string)
    requires forall i :: 0 <= i < |s| ==> s[i] != '\n'
    ensures Split(s, "\n\n") == [s]
    decreases |s|
  {
    if |s| >= 2 {
      assert s[..2] != "\n\n" by {
        assert s[0] != '\n';
      }
      SplitWithoutNewline(s[1..]);
      assert [s[0]] + s[1..] == s;
    }
  }

  /** Escaping turns the quote marker into `&gt; ` and leaves the rest to itself. */
  lemma EscapeQuoteMarker(x: string)
    ensures HtmlEscape.Escape("> " + x) == "&gt; " + HtmlEscape.Escape(x)
  {
    HtmlEscape.EscapeConcat("> ", x);
    HtmlEscape.EscapeIsCharwise("> ");
    assert "> "[1..] == " " && " "[1..] == [];
  }

  /** With the escaped prefix, a line led by `&gt; ` is a block quote of the rest. */
  lemma EscapedQuoteMatches(e: string)
    ensures FirstMatch(IntendedRules, "&gt; " + e) == "<blockquote>" + e + "</blockquote>"
  {
    var line := "&gt; " + e;
    FirstMatchOfLineRules("&gt; ", line);
    assert line[0] == '&' && line[..5] == "&gt; " && line[5..] == e;
  }

  /** With the escaped prefix, a quoted line becomes a block quote of its escaped text. */
  lemma QuoteLine(x: string)
    ensures HtmlEscape.Escape("> " + x) == "&gt; " + HtmlEscape.Escape(x)
    ensures FirstMatch(IntendedRules, "&gt; " + HtmlEscape.Escape(x)) ==
              "<blockquote>" + HtmlEscape.Escape(x) + "</blockquote>"
  {
    EscapeQuoteMarker(x);
    EscapedQuoteMatches(HtmlEscape.Escape(x));
  }

  /** Text on one line with nothing to escape and no inline syntax. */
  predicate PlainText(x: string) {
    forall i :: 0 <= i < |x| ==>
      && !IsLineTerminator(x[i])
      && x[i] != '<' && x[i] != '>' && x[i] != '&'
      && x[i] != '*' && x[i] != '`' && x[i] != '['
  }

  /** A quote line of plain text: the marker is the only thing escaping changes. */
  lemma EscapeQuotedPlain(x: string)
    requires PlainText(x)
    ensures HtmlEscape.Escape("> " + x) == "&gt; " + x
  {
    EscapeQuoteMarker(x);
    HtmlEscape.ReplaceAbsent(x, '&', "&amp;");
    HtmlEscape.ReplaceAbsent(x, '<', "&lt;");
    HtmlEscape.ReplaceAbsent(x, '>', "&gt;");
  }

  /** A quote line of plain text holds no inline syntax. */
  lemma QuotedPlainInlineFree(x: string)
    requires PlainText(x)
    ensures InlineFree("> " + x)
  {
    var s := "> " + x;
    forall i | 0 <= i < |s| ensures s[i] != '*' && s[i] != '`' && s[i] != '[' {
      if i >= 2 {
        assert s[i] == x[i - 2];
      }
    }
    MarkupFreeIsInlineFree(s);
  }

  /** The escaped quote line of plain text is one line without angle brackets or newlines. */
  lemma EscapedQuoteLine(x: string)
    requires PlainText(x)
    ensures NoTerminator("&gt; " + x) && NoAngles("&gt; " + x)
    ensures forall i :: 0 <= i < |"&gt; " + x| ==> ("&gt; " + x)[i] != '\n'
  {
    var e := "&gt; " + x;
    forall i | 5 <= i < |e| ensures e[i] == x[i - 5] { }
  }

  /** A line no rule matches comes through the line stage unchanged. */
  lemma UnmatchedStage(rs: seq<Rule>, e: string)
    requires |rs| == 8 && PatternsAvoidTags(rs)
    requires NoTerminator(e)
    ensures LineStage(rs, e) == FirstMatch(rs, e)
  {
    LineEndOfLine(e);
    LineStageIsPerLine(rs, e);
    RulesTakeFirstMatch(rs, e);
  }

  /** One line without a newline is one paragraph. */
  lemma OneParagraph(e: string)
    requires forall i :: 0 <= i < |e| ==> e[i] != '\n'
    ensures Paragraphs(e) == RenderParagraph(e)
  {
    SplitWithoutNewline(e);
    assert MapParagraphs([e]) == [RenderParagraph(e)];
  }

  /** A paragraph of plain text on one line is wrapped in `<p>` as it is. */
  lemma PlainParagraph(e: string)
    requires e != [] && e[0] != '<' && !IsWhitespace(e[0])
    requires NoAngles(e) && forall i :: 0 <= i < |e| ==> e[i] != '\n'
    ensures RenderParagraph(e) == "<p>" + e + "</p>"
  {
    assert !IsBlock(e);
    assert !Includes(e, "<li>") by {
      forall i | 0 <= i <= |e| - 4 ensures !OccursAt(e, "<li>", i) {
        assert e[i..i + 4][0] == e[i] != '<';
      }
    }
    assert !IsBlank(e);
    HtmlEscape.ReplaceAbsent(e, '\n', "<br/>");
  }

  /** As written, the line stage leaves an escaped quote line as it is. */
  lemma WrittenQuoteStage(x: string)
    requires PlainText(x)
    ensures LineStage(WrittenRules, HtmlEscape.Escape("> " + x)) == "&gt; " + x
  {
    EscapeQuotedPlain(x);
    EscapedQuoteLine(x);
    assert PatternsAvoidTags(WrittenRules) by {
      assert WrittenRules[3] == Quote("> ");
    }
    UnmatchedStage(WrittenRules, "&gt; " + x);
    UnmatchedLine("> ", "&gt; " + x);
  }

  /** The escaped quote line as a paragraph of text. */
  lemma QuoteTextParagraph(x: string)
    requires PlainText(x)
    ensures Paragraphs("&gt; " + x) == "<p>&gt; " + x + "</p>"
  {
    EscapedQuoteLine(x);
    OneParagraph("&gt; " + x);
    PlainParagraph("&gt; " + x);
  }

  /** As written, a quoted line renders as a paragraph showing the escaped marker as text. */
  lemma WrittenQuoteIsText(x: string)
    requires PlainText(x)
    ensures InlineFree("> " + x)
    ensures RenderMarkdownAsWritten("> " + x) == "<p>&gt; " + x + "</p>"
  {
    QuotedPlainInlineFree(x);
    EscapeQuotedPlain(x);
    WrittenQuoteStage(x);
    QuoteTextParagraph(x);
  }

  /** With the escaped prefix, the line stage makes the line a block quote. */
  lemma IntendedQuoteStage(x: string)
    requires PlainText(x)
    ensures LineStage(IntendedRules, HtmlEscape.Escape("> " + x)) == "<blockquote>" + x + "</blockquote>"
  {
    EscapeQuotedPlain(x);
    EscapedQuoteLine(x);
    assert PatternsAvoidTags(IntendedRules) by {
      assert IntendedRules[3] == Quote("&gt; ");
    }
    UnmatchedStage(IntendedRules, "&gt; " + x);
    EscapedQuoteMatches(x);
  }

  /** A block quote line passes through the paragraph stage. */
  lemma QuoteBlockParagraph(x: string)
    requires PlainText(x)
    ensures Paragraphs("<blockquote>" + x + "</blockquote>") == "<blockquote>" + x + "</blockquote>"
  {
    var b := "<blockquote>" + x + "</blockquote>";
    assert forall i :: 0 <= i < |b| ==> b[i] != '\n' by {
      forall i | 12 <= i < 12 + |x| ensures b[i] == x[i - 12] { }
    }
    OneParagraph(b);
    assert IsBlock(b) by {
      assert b[..11] == "<blockquote";
    }
  }

  /** With the escaped prefix, the same line renders as a block quote. */
  lemma IntendedQuoteIsBlock(x: string)
    requires PlainText(x)
    ensures InlineFree("> " + x)
    ensures RenderMarkdown("> " + x) == "<blockquote>" + x + "</blockquote>"
  {
    QuotedPlainInlineFree(x);
    EscapeQuotedPlain(x);
    IntendedQuoteStage(x);
    QuoteBlockParagraph(x);
  }

  /** The "Latest" marker: the active version is the document's current one. */
  function IsLatestVersion(doc: DocumentStore.Document, version: DocumentStore.DocumentVersion): bool {
    version.id == doc.currentVersionId
  }

  /** In a well-numbered document the marker shows on the last version, and only there. */
  lemma LatestIsLastVersion(doc: DocumentStore.Document, j: nat)
    requires DocumentStore.WellNumbered(doc) && j < |doc.versions|
    ensures IsLatestVersion(doc, doc.versions[j]) <==> doc.versions[j].version == |doc.versions|
  {
  }
}
