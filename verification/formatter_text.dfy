/**
 * The terminal formatter for model answers: fenced code blocks become
 * numbered yellow blocks (and are collected), `###…###` explanations grey
 * italics, inline code green and `**…**` bold.
 */
module FormatterText {
  import opened Base
  import opened Text
  import opened Patterns

  /** The formatter's four rules; the bash rule belongs to the Markdown viewer. */
  predicate IsFormatterRule(rule: Rule) { !rule.BashFence? }

  /** The list `highlight_code_blocks` collects: every fenced region's code, stripped, in order. */
  function CodeBlocks(text: string): seq<string> {
    Collection(CodeFence, text)
  }

  /**
   * `highlight_code_blocks`: the callback of `re.sub` appends each stripped
   * code block to a list and numbers the block by the list's new length.
   */
  method HighlightCodeBlocks(text: string) returns (formatted: string, codeBlocks: seq<string>)
    ensures formatted == Substitute(CodeFence, text)
    ensures codeBlocks == CodeBlocks(text)
  {
    formatted, codeBlocks := "", [];
    var i := 0;
    while i < |text|
      invariant 0 <= i <= |text|
      invariant formatted + Render(CodeFence, Pieces(CodeFence, text, i), |codeBlocks| + 1)
                == Substitute(CodeFence, text)
      invariant codeBlocks + CollectAll(CodeFence, Groups(Pieces(CodeFence, text, i))) == CodeBlocks(text)
      decreases |text| - i
    {
      AdvanceText(CodeFence, text, i, formatted, |codeBlocks| + 1, Substitute(CodeFence, text));
      AdvanceBlocks(CodeFence, text, i, codeBlocks, CodeBlocks(text));
      var m := CodeFenceAt(text, i);
      if m.None? {
        formatted := formatted + [text[i]];
        i := i + 1;
      } else {
        var code := text[m.value.groupStart..m.value.groupEnd];
        codeBlocks := codeBlocks + [Strip(code)];
        formatted := formatted + Replacement(CodeFence, code, |codeBlocks|);
        i := m.value.end;
      }
    }
  }

  /** `highlight_explanation_blocks` */
  function HighlightExplanationBlocks(text: string): string {
    Substitute(Explanation, text)
  }

  /** `highlight_inline_code` */
  function HighlightInlineCode(text: string): string {
    Substitute(InlineCode, text)
  }

  /** `highlight_bold` */
  function HighlightBold(text: string): string {
    Substitute(BoldText, text)
  }

  /** `format_answer`: code blocks first, then explanations, inline code and bold. */
  method FormatAnswer(text: string) returns (formatted: string, codeBlocks: seq<string>)
    ensures codeBlocks == CodeBlocks(text)
    ensures formatted == HighlightBold(HighlightInlineCode(HighlightExplanationBlocks(
                           Substitute(CodeFence, text))))
  {
    var t;
    t, codeBlocks := HighlightCodeBlocks(text);
    t := HighlightExplanationBlocks(t);
    t := HighlightInlineCode(t);
    formatted := HighlightBold(t);
  }

  // ---- stripping ----------------------------------------------------------

  lemma StripIsSlice(s: string) returns (a: nat, b: nat)
    ensures a <= b <= |s| && Strip(s) == s[a..b]
  {
    var l := LStrip(s);
    LStripShape(s);
    RStripShape(l);
    a := |s| - |l|;
    b := a + |RStrip(l)|;
    assert l[..|RStrip(l)|] == s[a..b];
  }

  lemma {:induction false} CollectedStripped(gs: seq<string>)
    ensures |CollectAll(CodeFence, gs)| == |gs|
    ensures forall b :: b in CollectAll(CodeFence, gs) ==> IsStripped(b)
  {
    if gs != [] {
      CollectedStripped(gs[1..]);
      StripIdempotent(gs[0]);
    }
  }

  /** One entry per fenced region, and every entry is stripped: no white space at either end. */
  lemma CodeBlocksStripped(text: string)
    ensures |CodeBlocks(text)| == |Groups(Pieces(CodeFence, text, 0))|
    ensures forall b :: b in CodeBlocks(text) ==> IsStripped(b)
  {
    CollectedStripped(Groups(Pieces(CodeFence, text, 0)));
  }

  // ---- markers do not survive ---------------------------------------------

  /** The marker character of each rule, and how many in a row make a marker. */
  function MarkerChar(rule: Rule): char {
    match rule
    case CodeFence => '`'
    case Explanation => '#'
    case InlineCode => '`'
    case BoldText => '*'
    case BashFence => '`'
  }

  function MarkerLen(rule: Rule): nat {
    match rule
    case CodeFence => 3
    case Explanation => 3
    case InlineCode => 1
    case BoldText => 2
    case BashFence => 3
  }

  /** Every matched piece of `ps` has the rule's shape. */
  predicate AllShaped(rule: Rule, ps: seq<Piece>) {
    forall p :: p in ps && p.Matched? ==> Shape(rule, p.head, p.group, p.tail)
  }

  /** A replacement holds no marker, starts with ESC and ends with `m`. */
  lemma ReplacementClean(rule: Rule, head: string, group: string, tail: string, n: nat)
    requires IsFormatterRule(rule) && Shape(rule, head, group, tail)
    ensures var r := Replacement(rule, group, n);
      && NoRun(r, MarkerChar(rule), MarkerLen(rule))
      && |r| > 0 && r[0] == '\U{1B}' && r[|r| - 1] == 'm'
  {
    var c, len := MarkerChar(rule), MarkerLen(rule);
    match rule {
      case CodeFence =>
        FirstCloseNoRun(group, tail, c);
        Styled(Yellow + "[Блок #" + NatToString(n) + "]\n", group, c, len);
      case Explanation =>
        FirstCloseNoRun(group, tail, c);
        var a, b := StripIsSlice(group);
        NoRunSlice(group, c, len, a, b);
        Styled(GrayItalic, Strip(group), c, len);
      case InlineCode =>
        NoRunWithout(group, c, len);
        Styled(Green, group, c, len);
      case BoldText =>
        FirstCloseNoRun(group, tail, c);
        Styled(BoldStyle, group, c, len);
    }
  }

  /** A style, a body free of marker runs and the reset: still free of them, from ESC to `m`. */
  lemma Styled(lead: string, body: string, c: char, len: nat)
    requires len > 0 && c != '\U{1B}' && c != '[' && c != '0' && c != 'm'
    requires |lead| > 0 && lead[0] == '\U{1B}' && forall t :: 0 <= t < |lead| ==> lead[t] != c
    requires NoRun(body, c, len)
    ensures var r := lead + body + Reset;
      && NoRun(r, c, len) && |r| > 0 && r[0] == '\U{1B}' && r[|r| - 1] == 'm'
  {
    NoRunWithout(lead, c, len);
    NoRunConcat(lead, body, c, len);
    NoRunWithout(Reset, c, len);
    NoRunConcat(lead + body, Reset, c, len);
  }

  /** A run in `[x] + t`, seen from `t`. */
  lemma RunInTail(x: char, t: string, c: char, len: nat, m: int)
    requires RunAt([x] + t, c, len, m)
    ensures m >= 1 ==> RunAt(t, c, len, m - 1)
    ensures m == 0 && len >= 1 ==> x == c && RunAt(t, c, len - 1, 0)
  {
    var s := [x] + t;
    if m >= 1 {
      forall u | m - 1 <= u < m - 1 + len ensures t[u] == c { assert s[u + 1] == c; }
    }
    if m == 0 && len >= 1 {
      assert s[0] == c;
      forall u | 0 <= u < len - 1 ensures t[u] == c { assert s[u + 1] == c; }
    }
  }

  /** A plain run in `ps[1..]`, seen from `ps`. */
  lemma PlainRunShift(ps: seq<Piece>, c: char, len: nat, q: int)
    requires ps != [] && PlainRunAt(ps[1..], c, len, q)
    ensures PlainRunAt(ps, c, len, q + 1)
    ensures ps[0] == Plain(c) && q == 0 ==> PlainRunAt(ps, c, len + 1, 0)
  {
    forall t | q + 1 <= t < q + 1 + len ensures ps[t] == Plain(c) { assert ps[t] == ps[1..][t - 1]; }
  }

  /** What the recursive call of `RenderNoRun` needs about `ps[1..]`. */
  lemma RestClean(rule: Rule, ps: seq<Piece>)
    requires ps != [] && AllShaped(rule, ps) && NoPlainRun(ps, MarkerChar(rule), MarkerLen(rule))
    ensures AllShaped(rule, ps[1..]) && NoPlainRun(ps[1..], MarkerChar(rule), MarkerLen(rule))
  {
    var rest := ps[1..];
    forall p | p in rest && p.Matched? ensures Shape(rule, p.head, p.group, p.tail) {
      assert p in ps;
    }
    forall q ensures !PlainRunAt(rest, MarkerChar(rule), MarkerLen(rule), q) {
      if PlainRunAt(rest, MarkerChar(rule), MarkerLen(rule), q) {
        PlainRunShift(ps, MarkerChar(rule), MarkerLen(rule), q);
      }
    }
  }

  /**
   * The substituted text has a run of the marker only where the scan left
   * that many marker characters unmatched, and it starts with `k` marker
   * characters only if the first `k` pieces are plain markers.
   */
  lemma {:induction false} RenderNoRun(rule: Rule, ps: seq<Piece>, n: nat)
    requires IsFormatterRule(rule) && AllShaped(rule, ps)
    requires NoPlainRun(ps, MarkerChar(rule), MarkerLen(rule))
    ensures NoRun(Render(rule, ps, n), MarkerChar(rule), MarkerLen(rule))
    ensures forall k: nat :: RunAt(Render(rule, ps, n), MarkerChar(rule), k, 0) ==>
      PlainRunAt(ps, MarkerChar(rule), k, 0)
    decreases |ps|
  {
    var c, len := MarkerChar(rule), MarkerLen(rule);
    var out := Render(rule, ps, n);
    if ps != [] {
      RestClean(rule, ps);
      var rest := ps[1..];
      var n' := if ps[0].Matched? then n + 1 else n;
      RenderNoRun(rule, rest, n');
      var tailOut := Render(rule, rest, n');
      match ps[0]
      case Matched(h, g, t) =>
        assert ps[0] in ps;
        ReplacementClean(rule, h, g, t, n);
        NoRunConcat(Replacement(rule, g, n), tailOut, c, len);
        assert out == Replacement(rule, g, n) + tailOut;
        forall k: nat ensures RunAt(out, c, k, 0) ==> PlainRunAt(ps, c, k, 0) {
          if k > 0 { assert out[0] == '\U{1B}'; }
        }
      case Plain(x) =>
        assert out == [x] + tailOut;
        if x != c {
          NoRunWithout([x], c, len);
          NoRunConcat([x], tailOut, c, len);
        } else {
          forall m ensures !RunAt(out, c, len, m) {
            if RunAt(out, c, len, m) {
              RunInTail(x, tailOut, c, len, m);
              if m == 0 { PlainRunShift(ps, c, len - 1, 0); }
            }
          }
        }
        forall k: nat | RunAt(out, c, k, 0) ensures PlainRunAt(ps, c, k, 0) {
          if k > 0 {
            RunInTail(x, tailOut, c, k, 0);
            PlainRunShift(ps, c, k - 1, 0);
          }
        }
    }
  }

  /**
   * When every marker of the text belongs to a matched region (the scan
   * left no run of marker characters as plain text), no marker survives
   * the substitution: no ``` after `highlight_code_blocks`, no ### after
   * `highlight_explanation_blocks`, no backtick after `highlight_inline_code`
   * and no ** after `highlight_bold`.
   */
  lemma MarkersConsumed(rule: Rule, text: string)
    requires IsFormatterRule(rule)
    requires NoPlainRun(Pieces(rule, text, 0), MarkerChar(rule), MarkerLen(rule))
    ensures NoRun(Substitute(rule, text), MarkerChar(rule), MarkerLen(rule))
  {
    PiecesShape(rule, text, 0);
    RenderNoRun(rule, Pieces(rule, text, 0), 1);
  }

  /** The same, for the fence string itself. */
  lemma NoFenceLeft(text: string)
    requires NoPlainRun(Pieces(CodeFence, text, 0), '`', 3)
    ensures !Contains(Substitute(CodeFence, text), "```")
  {
    var out := Substitute(CodeFence, text);
    MarkersConsumed(CodeFence, text);
    RunOfString(out, "```", '`');
    ContainsIff(out, "```");
  }
}
