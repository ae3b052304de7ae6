/** The Markdown widget: which text it shows and the chain of regular
    expression rewrites that turns that text into HTML (`renderMarkdown`).

    Every `.replace` of the chain is a function of its own, written as the
    JavaScript regular expression engine scans: line rules (`^…$` with the
    `m` flag) rewrite each line separately, inline rules scan left to right
    and resume after each match, and a failed match moves on by one
    character. The HTML tags are gathered in `Styles`, so that the
    properties of the chain are proved for any tags with the few features
    they rely on and then for the widget's own tags. */
module MarkdownWidget {
  import opened Common

  // ---------------------------------------------------------------------
  // Content choice

  const NoContent: string := "No content available for this widget."

  /** `data?.content || config.content || 'No content available…'`: the
      first non-empty of the cached content and the configured content. */
  function Content(data: Option<string>, configContent: string): (r: string)
    ensures r != ""
    ensures data.Some? && data.value != "" ==> r == data.value
    ensures (data.None? || data.value == "") && configContent != "" ==> r == configContent
    ensures (data.None? || data.value == "") && configContent == "" ==> r == NoContent
  {
    OrElse(data.GetOr(""), OrElse(configContent, NoContent))
  }

  // ---------------------------------------------------------------------
  // Lines

  /** A text with no line terminator: one line. */
  predicate OneLine(s: string) {
    forall i :: 0 <= i < |s| ==> !IsLineTerminator(s[i])
  }

  /** The position of the first line terminator, if any. */
  function FirstBreak(s: string): (r: Option<nat>)
    ensures r.Some? ==> r.value < |s| && IsLineTerminator(s[r.value]) && OneLine(s[..r.value])
    ensures r.None? ==> OneLine(s)
  {
    if s == [] then None
    else if IsLineTerminator(s[0]) then Some(0)
    else match FirstBreak(s[1..])
      case None => None
      case Some(k) => Some(k + 1)
  }

  lemma {:induction false} FirstBreakAfterLine(a: string, c: char, b: string)
    requires OneLine(a) && IsLineTerminator(c)
    ensures FirstBreak(a + [c] + b) == Some(|a|)
    decreases |a|
  {
    var s := a + [c] + b;
    if a != [] {
      assert s[0] == a[0] && s[1..] == a[1..] + [c] + b;
      assert OneLine(a[1..]) by {
        forall i | 0 <= i < |a[1..]| ensures !IsLineTerminator(a[1..][i]) {
          assert a[1..][i] == a[i + 1];
        }
      }
      FirstBreakAfterLine(a[1..], c, b);
    }
  }

  /** The number of leading ASCII digits (`\d`). */
  function LeadingDigits(s: string): (n: nat)
    ensures n <= |s| && (forall i :: 0 <= i < n ==> '0' <= s[i] <= '9')
    ensures n < |s| ==> !('0' <= s[n] <= '9')
  {
    if s != [] && '0' <= s[0] <= '9' then 1 + LeadingDigits(s[1..]) else 0
  }

  /** The three kinds of `^…$` rule of the chain, each over one line. */
  datatype LineRule =
    | Heading(marker: string, open: string, close: string)  // `^<marker>(.*$)`
    | Bulleted(open: string)                                 // `^\* (.+)$`
    | Numbered(open: string)                                 // `^\d+\. (.+)$`

  function ApplyRule(r: LineRule, line: string): string {
    match r
    case Heading(marker, open, close) =>
      if StartsWith(line, marker) then open + line[|marker|..] + close else line
    case Bulleted(open) =>
      if StartsWith(line, "* ") && |line| > 2 then open + line[2..] + "</li>" else line
    case Numbered(open) =>
      var d := LeadingDigits(line);
      if d >= 1 && OccursAt(line, ". ", d) && |line| > d + 2 then open + line[d + 2..] + "</li>" else line
  }

  /** A rule keeps lines apart when it never writes a line terminator. */
  predicate KeepsLines(r: LineRule) {
    match r
    case Heading(marker, open, close) => OneLine(open) && OneLine(close)
    case Bulleted(open) => OneLine(open)
    case Numbered(open) => OneLine(open)
  }

  lemma OneLineConcat(a: string, b: string)
    requires OneLine(a) && OneLine(b)
    ensures OneLine(a + b)
  {
    forall i | 0 <= i < |a + b| ensures !IsLineTerminator((a + b)[i]) {
      if i >= |a| {
        assert (a + b)[i] == b[i - |a|];
      }
    }
  }

  lemma ApplyRuleKeepsLine(r: LineRule, line: string)
    requires KeepsLines(r) && OneLine(line)
    ensures OneLine(ApplyRule(r, line))
  {
    match r
    case Heading(marker, open, close) =>
      if StartsWith(line, marker) {
        OneLineConcat(open, line[|marker|..]);
        OneLineConcat(open + line[|marker|..], close);
      }
    case Bulleted(open) =>
      if StartsWith(line, "* ") && |line| > 2 {
        OneLineConcat(open, line[2..]);
        OneLineConcat(open + line[2..], "</li>");
      }
    case Numbered(open) =>
      var d := LeadingDigits(line);
      if d >= 1 && OccursAt(line, ". ", d) && |line| > d + 2 {
        OneLineConcat(open, line[d + 2..]);
        OneLineConcat(open + line[d + 2..], "</li>");
      }
  }

  /** One `replace` with a `gm` line rule: every line is rewritten on its
      own and the line terminators stay where they are. */
  function EachLine(s: string, r: LineRule): string
    decreases |s|
  {
    match FirstBreak(s)
    case None => ApplyRule(r, s)
    case Some(k) => ApplyRule(r, s[..k]) + [s[k]] + EachLine(s[k + 1..], r)
  }

  /** Several line rules applied to one line, in order. */
  function ApplyRules(rs: seq<LineRule>, line: string): string
    decreases |rs|
  {
    if rs == [] then line else ApplyRule(rs[|rs| - 1], ApplyRules(rs[..|rs| - 1], line))
  }

  /** Every line rewritten by several rules in turn, in one pass. */
  function EachLineAll(s: string, rs: seq<LineRule>): (r: string)
    decreases |s|
  {
    match FirstBreak(s)
    case None => ApplyRules(rs, s)
    case Some(k) => ApplyRules(rs, s[..k]) + [s[k]] + EachLineAll(s[k + 1..], rs)
  }

  lemma {:induction false} ApplyRulesKeepLine(rs: seq<LineRule>, line: string)
    requires forall i :: 0 <= i < |rs| ==> KeepsLines(rs[i])
    requires OneLine(line)
    ensures OneLine(ApplyRules(rs, line))
    decreases |rs|
  {
    if rs != [] {
      ApplyRulesKeepLine(rs[..|rs| - 1], line);
      ApplyRuleKeepsLine(rs[|rs| - 1], ApplyRules(rs[..|rs| - 1], line));
    }
  }

  /** Running one more line rule over a text the earlier rules rewrote is
      the same as rewriting each line by all the rules at once, provided the
      earlier rules write no line terminator. */
  lemma {:induction false} EachLineAfterAll(s: string, rs: seq<LineRule>, r: LineRule)
    requires forall i :: 0 <= i < |rs| ==> KeepsLines(rs[i])
    ensures EachLine(EachLineAll(s, rs), r) == EachLineAll(s, rs + [r])
    decreases |s|
  {
    assert (rs + [r])[..|rs + [r]| - 1] == rs;
    match FirstBreak(s)
    case None =>
      ApplyRulesKeepLine(rs, s);
      assert FirstBreak(ApplyRules(rs, s)).None?;
    case Some(k) =>
      var a := ApplyRules(rs, s[..k]);
      ApplyRulesKeepLine(rs, s[..k]);
      var t := EachLineAll(s[k + 1..], rs);
      FirstBreakAfterLine(a, s[k], t);
      var u := a + [s[k]] + t;
      assert u[..|a|] == a && u[|a|] == s[k] && u[|a| + 1..] == t;
      EachLineAfterAll(s[k + 1..], rs, r);
  }

  lemma {:induction false} EachLineIsAll(s: string, r: LineRule)
    ensures EachLine(s, r) == EachLineAll(s, [r])
    decreases |s|
  {
    assert [r][..0] == [];
    assert forall line :: ApplyRules([r], line) == ApplyRule(r, line);
    match FirstBreak(s)
    case None =>
    case Some(k) =>
      EachLineIsAll(s[k + 1..], r);
  }

  // ---------------------------------------------------------------------
  // Inline rules

  /** The position of the first occurrence of `c`, if any. */
  function Find(s: string, c: char): (r: Option<nat>)
    ensures r.Some? ==> r.value < |s| && s[r.value] == c && c !in s[..r.value]
    ensures r.None? ==> c !in s
  {
    if s == [] then None
    else if s[0] == c then Some(0)
    else match Find(s[1..], c)
      case None => None
      case Some(k) => Some(k + 1)
  }

  /** The match of `<d>([^`]+)<d>` at the start of `s` for a run `d` of
      backticks: the length of the captured text, if the rule matches. */
  function BacktickSpan(s: string, d: string): (r: Option<nat>)
    requires d != [] && forall i :: 0 <= i < |d| ==> d[i] == '`'
    ensures r.Some? ==> StartsWith(s, d) && 1 <= r.value && |d| + r.value + |d| <= |s|
                        && '`' !in s[|d|..|d| + r.value] && OccursAt(s, d, |d| + r.value)
  {
    if !StartsWith(s, d) then None
    else match Find(s[|d|..], '`')
      case None => None
      case Some(k) =>
        assert s[|d|..][..k] == s[|d|..|d| + k];
        if k >= 1 && OccursAt(s, d, |d| + k) then Some(k) else None
  }

  /** No other run of characters can be captured: `[^`]+` must stop at the
      first backtick, so when the span fails the rule does not match here. */
  lemma BacktickSpanIsOnly(s: string, d: string, n: nat)
    requires d != [] && forall i :: 0 <= i < |d| ==> d[i] == '`'
    requires StartsWith(s, d) && 1 <= n && |d| + n + |d| <= |s|
    requires '`' !in s[|d|..|d| + n] && OccursAt(s, d, |d| + n)
    ensures BacktickSpan(s, d) == Some(n)
  {
    var k := Find(s[|d|..], '`');
    assert s[|d|..][n] == s[|d| + n] == d[0];
    assert k.Some?;
    assert s[|d|..][..k.value] == s[|d|..|d| + k.value];
  }

  /** `/<d>([^`]+)<d>/g` replaced by `open + $1 + close`. */
  function Backticks(s: string, d: string, open: string, close: string): string
    requires d != [] && forall i :: 0 <= i < |d| ==> d[i] == '`'
    decreases |s|
  {
    if s == [] then []
    else match BacktickSpan(s, d)
      case Some(n) => open + s[|d|..|d| + n] + close + Backticks(s[|d| + n + |d|..], d, open, close)
      case None => [s[0]] + Backticks(s[1..], d, open, close)
  }

  /** The lazy match of `(.+?)<d>` at the start of `s`: the length of the
      shortest one-line run followed by `d`. */
  function LazySpan(s: string, d: string): (r: Option<nat>)
    requires d != []
    ensures r.Some? ==> 1 <= r.value && OccursAt(s, d, r.value) && OneLine(s[..r.value])
    ensures r.Some? ==> forall n :: 1 <= n < r.value ==> !OccursAt(s, d, n)
    ensures r.None? ==> forall n :: 1 <= n <= |s| && OneLine(s[..n]) ==> !OccursAt(s, d, n)
  {
    LazyFrom(s, d, 1)
  }

  function LazyFrom(s: string, d: string, n: nat): (r: Option<nat>)
    requires d != [] && 1 <= n <= |s| + 1 && OneLine(s[..n - 1])
    requires forall m :: 1 <= m < n ==> !OccursAt(s, d, m)
    ensures r.Some? ==> n <= r.value && OccursAt(s, d, r.value) && OneLine(s[..r.value])
    ensures r.Some? ==> forall m :: 1 <= m < r.value ==> !OccursAt(s, d, m)
    ensures r.None? ==> forall m :: 1 <= m <= |s| && OneLine(s[..m]) ==> !OccursAt(s, d, m)
    decreases |s| + 1 - n
  {
    if n > |s| then
      assert forall m :: m >= n ==> !OccursAt(s, d, m);
      None
    else if IsLineTerminator(s[n - 1]) then
      assert forall m :: m >= n && m <= |s| ==> s[..m][n - 1] == s[n - 1];
      None
    else
      assert s[..n] == s[..n - 1] + [s[n - 1]];
      OneLineConcat(s[..n - 1], [s[n - 1]]);
      if OccursAt(s, d, n) then Some(n) else LazyFrom(s, d, n + 1)
  }

  /** `/<d>(.+?)<d>/g` replaced by `open + $1 + close`, for `d` = `**`
      (bold) or `*` (italic). */
  function Emphasis(s: string, d: string, open: string, close: string): string
    requires d != []
    decreases |s|
  {
    if s == [] then []
    else if StartsWith(s, d) && LazySpan(s[|d|..], d).Some? then
      var n := LazySpan(s[|d|..], d).value;
      open + s[|d|..|d| + n] + close + Emphasis(s[|d| + n + |d|..], d, open, close)
    else [s[0]] + Emphasis(s[1..], d, open, close)
  }

  /** Text without the delimiter's first character passes an inline rule
      unchanged. */
  lemma {:induction false} EmphasisLeavesPlain(s: string, d: string, open: string, close: string)
    requires d != [] && d[0] !in s
    ensures Emphasis(s, d, open, close) == s
    decreases |s|
  {
    if s != [] {
      assert s[0] != d[0];
      assert s[1..] == s[1..];
      assert d[0] !in s[1..] by {
        forall i | 0 <= i < |s[1..]| ensures s[1..][i] != d[0] {
          assert s[1..][i] == s[i + 1];
        }
      }
      EmphasisLeavesPlain(s[1..], d, open, close);
      assert [s[0]] + s[1..] == s;
    }
  }

  /** A one-line run without `*` between two `d` delimiters is one match. */
  lemma EmphasisWraps(x: string, d: string, open: string, close: string)
    requires d != [] && x != [] && OneLine(x) && '*' !in x
    requires forall i :: 0 <= i < |d| ==> d[i] == '*'
    ensures Emphasis(d + x + d, d, open, close) == open + x + close
  {
    var s := d + x + d;
    assert s[|d|..] == x + d;
    var t := x + d;
    assert t[..|x|] == x;
    assert OccursAt(t, d, |x|);
    forall n | 1 <= n < |x| ensures !OccursAt(t, d, n) {
      assert t[n] == x[n];
    }
    assert LazySpan(t, d) == Some(|x|);
    assert s[|d|..|d| + |x|] == x;
    assert s[|d| + |x| + |d|..] == [];
  }

  // ---------------------------------------------------------------------
  // Plain replacement

  /** `s.replace(/<pat>/g, rep)` for a literal pattern: occurrences are
      replaced from left to right without overlapping. */
  function ReplaceAll(s: string, pat: string, rep: string): string
    requires pat != []
    decreases |s|
  {
    if s == [] then []
    else if StartsWith(s, pat) then rep + ReplaceAll(s[|pat|..], pat, rep)
    else [s[0]] + ReplaceAll(s[1..], pat, rep)
  }

  predicate NoNewline(s: string) {
    '\n' !in s
  }

  /** Replacing every `\n` by a text without one leaves none. */
  lemma {:induction false} NewlinesGone(s: string, rep: string)
    requires NoNewline(rep)
    ensures NoNewline(ReplaceAll(s, "\n", rep))
    decreases |s|
  {
    if s != [] {
      NewlinesGone(s[1..], rep);
    }
  }

  lemma {:induction false} ReplaceAllLeavesPlain(s: string, pat: string, rep: string)
    requires pat != [] && pat[0] !in s
    ensures ReplaceAll(s, pat, rep) == s
    decreases |s|
  {
    if s != [] {
      assert s[0] != pat[0];
      assert pat[0] !in s[1..] by {
        forall i | 0 <= i < |s[1..]| ensures s[1..][i] != pat[0] {
          assert s[1..][i] == s[i + 1];
        }
      }
      ReplaceAllLeavesPlain(s[1..], pat, rep);
      assert [s[0]] + s[1..] == s;
    }
  }

  lemma ReplaceAllSplits(a: string, pat: string, rep: string, b: string)
    requires pat != [] && pat[0] !in a
    ensures ReplaceAll(a + pat + b, pat, rep) == a + rep + ReplaceAll(b, pat, rep)
    decreases |a|
  {
    if a == [] {
      assert a + pat + b == pat + b;
      assert (pat + b)[|pat|..] == b;
    } else {
      assert (a + pat + b)[1..] == a[1..] + pat + b;
      assert pat[0] !in a[1..] by {
        forall i | 0 <= i < |a[1..]| ensures a[1..][i] != pat[0] {
          assert a[1..][i] == a[i + 1];
        }
      }
      ReplaceAllSplits(a[1..], pat, rep, b);
      assert [a[0]] + (a[1..] + rep + ReplaceAll(b, pat, rep)) == a + rep + ReplaceAll(b, pat, rep);
    }
  }

  /** The newline rules: a blank line (`\n\n`) becomes a paragraph break
      and only then does every other `\n` become `<br/>`. */
  function Breaks(s: string, paraBreak: string): string {
    ReplaceAll(ReplaceAll(s, "\n\n", paraBreak), "\n", "<br/>")
  }

  /** Between two lines, one `\n` is a line break and two are a paragraph
      break (not two line breaks), because the blank line is replaced
      first. */
  lemma BreaksBetweenLines(a: string, b: string, paraBreak: string)
    requires NoNewline(a) && NoNewline(b) && NoNewline(paraBreak)
    ensures Breaks(a + "\n" + b, paraBreak) == a + "<br/>" + b
    ensures Breaks(a + "\n\n" + b, paraBreak) == a + paraBreak + b
  {
    assert "\n\n"[0] == '\n' && "\n"[0] == '\n';
    ReplaceAllLeavesPlain(b, "\n\n", paraBreak);
    ReplaceAllLeavesPlain(b, "\n", "<br/>");
    ReplaceAllSplits(a, "\n\n", paraBreak, b);
    ReplaceAllSplits(a, "\n", "<br/>", b);
    // a single `\n` is no blank line
    var one := a + "\n" + b;
    assert ReplaceAll(one, "\n\n", paraBreak) == one by {
      ReplaceAllSingle(a, b, paraBreak);
    }
    ReplaceAllLeavesPlain(a + paraBreak, "\n", "<br/>") by {
      assert forall i :: 0 <= i < |a + paraBreak| ==> (a + paraBreak)[i] != '\n' by {
        forall i | 0 <= i < |a + paraBreak| ensures (a + paraBreak)[i] != '\n' {
          if i >= |a| {
            assert (a + paraBreak)[i] == paraBreak[i - |a|];
          }
        }
      }
    }
    assert ReplaceAll(a + paraBreak + b, "\n", "<br/>") == a + paraBreak + b by {
      assert '\n' !in a + paraBreak + b;
      ReplaceAllLeavesPlain(a + paraBreak + b, "\n", "<br/>");
    }
  }

  lemma {:induction false} ReplaceAllSingle(a: string, b: string, rep: string)
    requires NoNewline(a) && NoNewline(b)
    ensures ReplaceAll(a + "\n" + b, "\n\n", rep) == a + "\n" + b
    decreases |a|
  {
    var s := a + "\n" + b;
    if a == [] {
      assert s == ['\n'] + b;
      assert !StartsWith(s, "\n\n") by {
        if |b| > 0 {
          assert s[1] == b[0];
        }
      }
      assert s[1..] == b;
      ReplaceAllLeavesPlain(b, "\n\n", rep);
    } else {
      assert s[0] == a[0] && a[0] != '\n';
      assert s[1..] == a[1..] + "\n" + b;
      assert NoNewline(a[1..]) by {
        forall i | 0 <= i < |a[1..]| ensures a[1..][i] != '\n' {
          assert a[1..][i] == a[i + 1];
        }
      }
      ReplaceAllSingle(a[1..], b, rep);
      assert [a[0]] + (a[1..] + "\n" + b) == s;
    }
  }

  // ---------------------------------------------------------------------
  // The whole chain

  /** The HTML the chain writes. */
  datatype Styles = Styles(
    h3Open: string, h2Open: string, h1Open: string,
    preOpen: string, codeOpen: string, strongOpen: string, emOpen: string,
    bulletOpen: string, numberOpen: string,
    paraBreak: string, paraOpen: string)

  /** `/^(?!<[h1-6])/i`: the text gets an opening paragraph unless it starts
      with `<` and one of `h`, `H` or the digits 1 to 6 (the flag makes the
      class case-insensitive; without the `m` flag only the very start is
      tried). */
  predicate HeadingSelector(c: char) {
    c == 'h' || c == 'H' || '1' <= c <= '6'
  }

  predicate OpensWithHeading(s: string) {
    |s| >= 2 && s[0] == '<' && HeadingSelector(s[1])
  }

  function LeadParagraph(s: string, paraOpen: string): (r: string)
    ensures OpensWithHeading(s) ==> r == s
    ensures !OpensWithHeading(s) ==> r == paraOpen + s
  {
    if OpensWithHeading(s) then s else paraOpen + s
  }

  function HeadingRules(t: Styles): seq<LineRule> {
    [Heading("### ", t.h3Open, "</h3>"), Heading("## ", t.h2Open, "</h2>"), Heading("# ", t.h1Open, "</h1>")]
  }

  /** The three heading rules, run one after the other as the chain does. */
  function Headings(t: Styles, s: string): string {
    var rs := HeadingRules(t);
    EachLine(EachLine(EachLine(s, rs[0]), rs[1]), rs[2])
  }

  /** The inline rules: fenced code, inline code, bold, then italic. */
  function Inline(t: Styles, s: string): string {
    var code := Backticks(s, "```", t.preOpen, "</code></pre>");
    var inline := Backticks(code, "`", t.codeOpen, "</code>");
    Emphasis(Emphasis(inline, "**", t.strongOpen, "</strong>"), "*", t.emOpen, "</em>")
  }

  function Lists(t: Styles, s: string): string {
    EachLine(EachLine(s, Bulleted(t.bulletOpen)), Numbered(t.numberOpen))
  }

  /** The chain up to and including the newline rules. */
  function Body(t: Styles, text: string): string {
    Breaks(Lists(t, Inline(t, Headings(t, text))), t.paraBreak)
  }

  /** `renderMarkdown` with the tags `t`. */
  function RenderWith(t: Styles, text: string): string {
    LeadParagraph(Body(t, text), t.paraOpen) + "</p>"
  }

  /** What one line becomes under the heading rules. */
  function HeadingLine(t: Styles, line: string): string {
    if StartsWith(line, "### ") then t.h3Open + line[4..] + "</h3>"
    else if StartsWith(line, "## ") then t.h2Open + line[3..] + "</h2>"
    else if StartsWith(line, "# ") then t.h1Open + line[2..] + "</h1>"
    else line
  }

  /** The heading rules rewrite each line once: a line beginning `### `,
      `## ` or `# ` becomes an h3, h2 or h1 around the rest of the line, and
      a heading one rule wrote is never matched by a later one. This needs
      only that the h3 and h2 tags are one line and start with `<`. */
  lemma HeadingsPerLine(t: Styles, s: string)
    requires OneLine(t.h3Open) && OneLine(t.h2Open)
    requires StartsWith(t.h3Open, "<") && StartsWith(t.h2Open, "<")
    ensures Headings(t, s) == EachLineAll(s, HeadingRules(t))
    ensures forall line :: ApplyRules(HeadingRules(t), line) == HeadingLine(t, line)
  {
    var rs := HeadingRules(t);
    assert OneLine("</h3>") && OneLine("</h2>");
    EachLineIsAll(s, rs[0]);
    assert [rs[0]] + [rs[1]] == rs[..2] && rs[..2] + [rs[2]] == rs;
    EachLineAfterAll(s, [rs[0]], rs[1]);
    EachLineAfterAll(s, rs[..2], rs[2]);
    forall line ensures ApplyRules(rs, line) == HeadingLine(t, line) {
      ThreeRules(rs, line);
      HeadingRulesOnLine(t, line);
    }
  }

  lemma ThreeRules(rs: seq<LineRule>, line: string)
    requires |rs| == 3
    ensures ApplyRules(rs, line) == ApplyRule(rs[2], ApplyRule(rs[1], ApplyRule(rs[0], line)))
  {
    var two, one := rs[..2], rs[..1];
    assert two[..1] == one && one[..0] == [] && two[1] == rs[1] && one[0] == rs[0];
    assert ApplyRules(one, line) == ApplyRule(rs[0], line);
    assert ApplyRules(two, line) == ApplyRule(rs[1], ApplyRules(one, line));
  }

  /** A text opening with `<` matches no heading marker. */
  lemma TagIsNoMarker(w: string, marker: string)
    requires |w| > 0 && w[0] == '<' && |marker| > 0 && marker[0] == '#'
    ensures !StartsWith(w, marker)
  {
  }

  lemma HeadingRulesOnLine(t: Styles, line: string)
    requires StartsWith(t.h3Open, "<") && StartsWith(t.h2Open, "<")
    ensures var rs := HeadingRules(t);
      ApplyRule(rs[2], ApplyRule(rs[1], ApplyRule(rs[0], line))) == HeadingLine(t, line)
  {
    var h3, h2, h1 := Heading("### ", t.h3Open, "</h3>"), Heading("## ", t.h2Open, "</h2>"), Heading("# ", t.h1Open, "</h1>");
    assert HeadingRules(t) == [h3, h2, h1];
    var a := ApplyRule(h3, line);
    if StartsWith(line, "### ") {
      assert a == t.h3Open + line[4..] + "</h3>" && a[0] == t.h3Open[0] == '<';
      TagIsNoMarker(a, "## ");
      TagIsNoMarker(a, "# ");
    } else {
      var b := ApplyRule(h2, a);
      if StartsWith(line, "## ") {
        assert b == t.h2Open + line[3..] + "</h2>" && b[0] == t.h2Open[0] == '<';
        TagIsNoMarker(b, "# ");
      }
    }
  }

  /** The rendered text always closes a paragraph, and opens one exactly
      when the body does not begin with a heading tag. */
  lemma RenderFrame(t: Styles, text: string)
    ensures EndsWith(RenderWith(t, text), "</p>")
    ensures var b := Body(t, text);
      RenderWith(t, text) == (if OpensWithHeading(b) then b else t.paraOpen + b) + "</p>"
  {
    EndsWithAppended(LeadParagraph(Body(t, text), t.paraOpen), "</p>");
  }

  /** No `\n` survives the chain when the opening paragraph has none: the
      newline rules remove every `\n` the text or the earlier rules wrote. */
  lemma RenderHasNoNewline(t: Styles, text: string)
    requires NoNewline(t.paraOpen)
    ensures NoNewline(RenderWith(t, text))
  {
    var lists := Lists(t, Inline(t, Headings(t, text)));
    var b := Body(t, text);
    NewlinesGone(ReplaceAll(lists, "\n\n", t.paraBreak), "<br/>");
    var lead := LeadParagraph(b, t.paraOpen);
    assert NoNewline(lead);
    assert NoNewline(lead + "</p>");
  }

  // ---------------------------------------------------------------------
  // The widget's own tags

  /** Space-separated class names. */
  function Join(names: seq<string>): string {
    if names == [] then "" else if |names| == 1 then names[0] else names[0] + " " + Join(names[1..])
  }

  /** An opening tag with a class attribute. */
  function Tag(name: string, classes: seq<string>): (r: string)
    ensures StartsWith(r, "<")
  {
    "<" + name + " class=\"" + Join(classes) + "\">"
  }

  // The h3 and h2 classes are kept in groups of a few names, so that each
  // group is checked on its own.
  const H3Type: seq<string> := ["text-lg", "font-semibold", "text-gray-900", "dark:text-gray-100"]
  const H3Spacing: seq<string> := ["mt-6", "mb-3", "tracking-tight", "border-b"]
  const H3Rule: seq<string> := ["border-gray-200", "dark:border-gray-800", "pb-2"]
  const H3Classes: seq<string> := H3Type + H3Spacing + H3Rule

  const H2Type: seq<string> := ["text-xl", "font-semibold", "text-gray-900", "dark:text-gray-100"]
  const H2Spacing: seq<string> := ["mt-8", "mb-4", "tracking-tight"]
  const H2Classes: seq<string> := H2Type + H2Spacing

  const H1Classes: seq<string> :=
    ["text-2xl", "font-bold", "text-gray-900", "dark:text-gray-100", "mt-8", "mb-4", "tracking-tight"]

  const PreClasses: seq<string> :=
    ["bg-gray-100", "dark:bg-gray-900", "border", "border-gray-200", "dark:border-gray-800", "rounded-lg", "p-4",
     "text-sm", "font-mono", "text-gray-800", "dark:text-gray-200", "overflow-x-auto", "my-4", "leading-relaxed"]

  const CodeClasses: seq<string> :=
    ["bg-gray-100", "dark:bg-gray-800", "text-gray-800", "dark:text-gray-200", "px-1.5", "py-0.5", "rounded",
     "text-sm", "font-mono", "border", "border-gray-200", "dark:border-gray-700"]

  const StrongClasses: seq<string> := ["font-semibold", "text-gray-900", "dark:text-gray-100"]

  const EmClasses: seq<string> := ["italic", "text-gray-800", "dark:text-gray-200"]

  const BulletClasses: seq<string> :=
    ["ml-4", "list-disc", "text-gray-700", "dark:text-gray-300", "leading-relaxed", "mb-1"]

  const NumberClasses: seq<string> :=
    ["ml-4", "list-decimal", "text-gray-700", "dark:text-gray-300", "leading-relaxed", "mb-1"]

  const ParaClasses: seq<string> := ["text-gray-700", "dark:text-gray-300", "leading-relaxed", "mb-3"]

  const Tags: Styles := Styles(
    Tag("h3", H3Classes), Tag("h2", H2Classes), Tag("h1", H1Classes),
    Tag("pre", PreClasses) + "<code>", Tag("code", CodeClasses), Tag("strong", StrongClasses), Tag("em", EmClasses),
    Tag("li", BulletClasses), Tag("li", NumberClasses),
    "</p>" + Tag("p", ParaClasses), Tag("p", ParaClasses))

  /** `renderMarkdown`: the output closes a paragraph, opens one unless the
      body starts with a heading tag, and holds no `\n`. */
  function RenderMarkdown(text: string): (r: string)
    ensures EndsWith(r, "</p>")
    ensures NoNewline(r)
    ensures var b := Body(Tags, text);
      r == (if OpensWithHeading(b) then b else Tags.paraOpen + b) + "</p>"
  {
    RenderFrame(Tags, text);
    ParaInert();
    RenderHasNoNewline(Tags, text);
    RenderWith(Tags, text)
  }

  /** Text that no rule of the chain reacts to: no line terminator, no `*`
      and no backtick. */
  predicate Inert(s: string) {
    forall i :: 0 <= i < |s| ==> !IsLineTerminator(s[i]) && s[i] != '*' && s[i] != '`'
  }

  lemma InertConcat(a: string, b: string)
    requires Inert(a) && Inert(b)
    ensures Inert(a + b)
  {
    forall i | 0 <= i < |a + b| ensures var c := (a + b)[i]; !IsLineTerminator(c) && c != '*' && c != '`' {
      if i >= |a| {
        assert (a + b)[i] == b[i - |a|];
      }
    }
  }

  lemma {:induction false} JoinInert(names: seq<string>)
    requires forall i :: 0 <= i < |names| ==> Inert(names[i])
    ensures Inert(Join(names))
  {
    if |names| > 1 {
      JoinInert(names[1..]);
      InertConcat(names[0], " ");
      InertConcat(names[0] + " ", Join(names[1..]));
    }
  }

  lemma TagInert(name: string, classes: seq<string>)
    requires Inert(name) && forall i :: 0 <= i < |classes| ==> Inert(classes[i])
    ensures Inert(Tag(name, classes))
  {
    JoinInert(classes);
    InertConcat("<", name);
    InertConcat("<" + name, " class=\"");
    InertConcat("<" + name + " class=\"", Join(classes));
    InertConcat("<" + name + " class=\"" + Join(classes), "\">");
  }

  predicate ClassChar(c: char) {
    'a' <= c <= 'z' || '0' <= c <= '9' || c == '-' || c == ':' || c == '.'
  }

  /** A list of CSS class names written with letters, digits, `-`, `:` and
      `.` only. */
  predicate ClassNames(names: seq<string>) {
    forall i :: 0 <= i < |names| ==> forall j :: 0 <= j < |names[i]| ==> ClassChar(names[i][j])
  }

  lemma ClassNamesJoin(a: seq<string>, b: seq<string>)
    requires ClassNames(a) && ClassNames(b)
    ensures ClassNames(a + b)
  {
    forall i | 0 <= i < |a + b| ensures forall j :: 0 <= j < |(a + b)[i]| ==> ClassChar((a + b)[i][j]) {
      if i >= |a| {
        assert (a + b)[i] == b[i - |a|];
      }
    }
  }

  lemma TagOfClassNamesInert(name: string, classes: seq<string>)
    requires Inert(name) && ClassNames(classes)
    ensures Inert(Tag(name, classes))
  {
    TagInert(name, classes);
  }

  lemma H3TypeNames() ensures ClassNames(H3Type) {}
  lemma H3SpacingNames() ensures ClassNames(H3Spacing) {}
  lemma H3RuleNames() ensures ClassNames(H3Rule) {}
  lemma H2TypeNames() ensures ClassNames(H2Type) {}
  lemma H2SpacingNames() ensures ClassNames(H2Spacing) {}
  lemma StrongNames() ensures ClassNames(StrongClasses) {}
  lemma ParaNames() ensures ClassNames(ParaClasses) {}

  lemma H3Inert()
    ensures Inert(Tags.h3Open)
  {
    H3TypeNames();
    H3SpacingNames();
    H3RuleNames();
    ClassNamesJoin(H3Type, H3Spacing);
    ClassNamesJoin(H3Type + H3Spacing, H3Rule);
    TagOfClassNamesInert("h3", H3Classes);
  }

  lemma H2Inert()
    ensures Inert(Tags.h2Open)
  {
    H2TypeNames();
    H2SpacingNames();
    ClassNamesJoin(H2Type, H2Spacing);
    TagOfClassNamesInert("h2", H2Classes);
  }

  lemma StrongInert()
    ensures Inert(Tags.strongOpen)
  {
    StrongNames();
    TagOfClassNamesInert("strong", StrongClasses);
  }

  lemma ParaInert()
    ensures Inert(Tags.paraOpen)
  {
    ParaNames();
    TagOfClassNamesInert("p", ParaClasses);
  }

  /** The widget's headings: each line is rewritten once by the first
      heading rule that fits it. */
  lemma RenderedHeadings(text: string)
    ensures Headings(Tags, text) == EachLineAll(text, HeadingRules(Tags))
    ensures forall line :: ApplyRules(HeadingRules(Tags), line) == HeadingLine(Tags, line)
  {
    H3Inert();
    H2Inert();
    HeadingsPerLine(Tags, text);
  }

  /** Bold is rewritten before italic: a `**…**` span becomes `<strong>`,
      and the italic rule then finds no `*` left in it. */
  lemma BoldBeforeItalic(t: Styles, x: string)
    requires x != [] && OneLine(x) && '*' !in x && '*' !in t.strongOpen
    ensures var bold := Emphasis("**" + x + "**", "**", t.strongOpen, "</strong>");
      bold == t.strongOpen + x + "</strong>" && Emphasis(bold, "*", t.emOpen, "</em>") == bold
  {
    EmphasisWraps(x, "**", t.strongOpen, "</strong>");
    var bold := t.strongOpen + x + "</strong>";
    assert '*' !in bold;
    EmphasisLeavesPlain(bold, "*", t.emOpen, "</em>");
  }

  lemma RenderedBold(x: string)
    requires x != [] && OneLine(x) && '*' !in x
    ensures var bold := Emphasis("**" + x + "**", "**", Tags.strongOpen, "</strong>");
      bold == Tags.strongOpen + x + "</strong>" && Emphasis(bold, "*", Tags.emOpen, "</em>") == bold
  {
    StrongInert();
    BoldBeforeItalic(Tags, x);
  }
}
