/**
 * The five regular-expression substitutions of the Markdown formatters,
 * modelled as the left-to-right scan `re.sub` performs: at each position
 * the pattern either matches (and the scan resumes after the match) or the
 * character is copied and the scan moves one position on.  A text is thus
 * cut into `Piece`s: plain characters and matched regions, each region split
 * into the opening marker, the captured group and the closing marker.
 */
module Patterns {
  import opened Base
  import opened Text

  datatype Rule =
    | CodeFence    // ```.*?\n(.*?)```            with DOTALL
    | Explanation  // ###(.*?)###                 with DOTALL
    | InlineCode   // `([^`]+)`
    | BoldText     // \*\*(.*?)\*\*               `.` stops at a newline
    | BashFence    // ```bash[^\n]*\n(.*?)```     with DOTALL and IGNORECASE

  /** A match starting at some position: where group 1 starts and ends, and where the match ends. */
  datatype Span = Span(groupStart: nat, groupEnd: nat, end: nat)

  datatype Piece = Plain(c: char) | Matched(head: string, group: string, tail: string)

  predicate NoNewline(s: string, from: int, to: int) {
    forall t :: from <= t < to && 0 <= t < |s| ==> s[t] != '\n'
  }

  /** The closing marker `tail` occurs in `group + tail` first at the end: the lazy group stops there. */
  predicate FirstClose(group: string, tail: string) {
    forall p :: 0 <= p < |group| ==> !OccursAt(group + tail, tail, p)
  }

  /** `c` matches the pattern letter `lower` under IGNORECASE (U+017F, the long s, folds to `s`). */
  predicate FoldsTo(c: char, lower: char) {
    LowerChar(c) == lower || (lower == 's' && c == '\U{017F}')
  }

  predicate IsBashWord(w: string) {
    |w| == 4 && FoldsTo(w[0], 'b') && FoldsTo(w[1], 'a') && FoldsTo(w[2], 's') && FoldsTo(w[3], 'h')
  }

  /** What a matched region of each rule looks like. */
  predicate Shape(rule: Rule, head: string, group: string, tail: string) {
    match rule
    case CodeFence =>
      && |head| >= 4 && head[..3] == "```" && head[|head| - 1] == '\n'
      && NoNewline(head, 3, |head| - 1)
      && tail == "```" && FirstClose(group, tail)
    case Explanation =>
      head == "###" && tail == "###" && FirstClose(group, tail)
    case InlineCode =>
      head == "`" && tail == "`" && |group| > 0 && forall t :: 0 <= t < |group| ==> group[t] != '`'
    case BoldText =>
      head == "**" && tail == "**" && FirstClose(group, tail) && NoNewline(group, 0, |group|)
    case BashFence =>
      && |head| >= 8 && head[..3] == "```" && IsBashWord(head[3..7]) && head[|head| - 1] == '\n'
      && NoNewline(head, 7, |head| - 1)
      && tail == "```" && FirstClose(group, tail)
  }

  /** `tail` at `close` is the first occurrence at or after `from`: the group between is lazily closed. */
  lemma FirstCloseSlice(text: string, tail: string, from: nat, close: nat)
    requires from <= close && OccursAt(text, tail, close)
    requires forall j :: from <= j < close ==> !OccursAt(text, tail, j)
    ensures FirstClose(text[from..close], text[close..close + |tail|])
    ensures text[close..close + |tail|] == tail
  {
    var group := text[from..close];
    var whole := text[from..close + |tail|];
    assert group + tail == whole;
    forall p | 0 <= p < |group|
      ensures !OccursAt(group + tail, tail, p)
    {
      if OccursAt(group + tail, tail, p) {
        forall t | 0 <= t < |tail| ensures text[from + p + t] == tail[t] {
          assert (group + tail)[p + t] == tail[t];
          assert whole[p + t] == text[from + p + t];
        }
        assert text[from + p..from + p + |tail|] == tail;
        assert OccursAt(text, tail, from + p);
      }
    }
  }

  predicate Bounded(text: string, i: nat, m: Option<Span>) {
    m.Some? ==> i < m.value.groupStart <= m.value.groupEnd < m.value.end <= |text|
  }

  /** The three parts of the match `m` at `i` have the rule's shape. */
  predicate Shaped(rule: Rule, text: string, i: nat, m: Option<Span>)
    requires Bounded(text, i, m)
  {
    m.Some? ==> Shape(rule, text[i..m.value.groupStart],
                      text[m.value.groupStart..m.value.groupEnd],
                      text[m.value.groupEnd..m.value.end])
  }

  /**
   * After an opening fence whose info string may start at `from`: the rest
   * of the line (lazily up to the first newline), then the group up to the
   * first closing fence after it.
   */
  function FenceBody(text: string, from: nat): (m: Option<Span>)
    ensures m.Some? ==> (from < m.value.groupStart <= m.value.groupEnd
                         && m.value.end == m.value.groupEnd + 3 <= |text|)
  {
    match IndexFrom(text, "\n", from)
    case None => None
    case Some(j) =>
      match IndexFrom(text, "```", j + 1)
      case None => None
      case Some(k) => Some(Span(j + 1, k, k + 3))
  }

  /** `marker (.*?) marker`: the group runs to the first closing marker. */
  function Delimited(text: string, i: nat, marker: string): (m: Option<Span>)
    requires |marker| > 0
    ensures m.Some? ==> (m.value.groupStart == i + |marker| <= m.value.groupEnd
                         && m.value.end == m.value.groupEnd + |marker| <= |text|)
  {
    if !OccursAt(text, marker, i) then None
    else match IndexFrom(text, marker, i + |marker|)
      case None => None
      case Some(k) => Some(Span(i + |marker|, k, k + |marker|))
  }

  function CodeFenceAt(text: string, i: nat): (m: Option<Span>)
    ensures Bounded(text, i, m)
  {
    if !OccursAt(text, "```", i) then None else FenceBody(text, i + 3)
  }

  function ExplanationAt(text: string, i: nat): (m: Option<Span>)
    ensures Bounded(text, i, m)
  {
    Delimited(text, i, "###")
  }

  /** `` `([^`]+)` ``: a backtick, at least one other character, a backtick. */
  function InlineCodeAt(text: string, i: nat): (m: Option<Span>)
    ensures Bounded(text, i, m)
  {
    if !OccursAt(text, "`", i) then None
    else match IndexFrom(text, "`", i + 1)
      case None => None
      case Some(k) => if k == i + 1 then None else Some(Span(i + 1, k, k + 1))
  }

  function BoldAt(text: string, i: nat): (m: Option<Span>)
    ensures Bounded(text, i, m)
  {
    var m := Delimited(text, i, "**");
    if m.Some? && NoNewline(text, i + 2, m.value.groupEnd) then m else None
  }

  function BashFenceAt(text: string, i: nat): (m: Option<Span>)
    ensures Bounded(text, i, m)
  {
    if OccursAt(text, "```", i) && i + 7 <= |text| && IsBashWord(text[i + 3..i + 7])
    then FenceBody(text, i + 7)
    else None
  }

  /** Whether the rule's pattern matches at position `i`, and where. */
  function MatchAt(rule: Rule, text: string, i: nat): (m: Option<Span>)
    ensures Bounded(text, i, m)
  {
    match rule
    case CodeFence => CodeFenceAt(text, i)
    case Explanation => ExplanationAt(text, i)
    case InlineCode => InlineCodeAt(text, i)
    case BoldText => BoldAt(text, i)
    case BashFence => BashFenceAt(text, i)
  }

  // ---- the shape of a match ----------------------------------------------

  lemma FenceBodyShape(text: string, from: nat)
    ensures var m := FenceBody(text, from);
      m.Some? ==> (text[m.value.groupStart - 1] == '\n' && NoNewline(text, from, m.value.groupStart - 1)
                   && text[m.value.groupEnd..m.value.end] == "```"
                   && FirstClose(text[m.value.groupStart..m.value.groupEnd], "```"))
  {
    match IndexFrom(text, "\n", from)
    case None =>
    case Some(j) =>
      FirstNewline(text, from, j);
      match IndexFrom(text, "```", j + 1)
      case None =>
      case Some(k) => FirstCloseSlice(text, "```", j + 1, k);
  }

  /** The first line break found from `from` on ends a line free of breaks. */
  lemma FirstNewline(text: string, from: nat, j: nat)
    requires IndexFrom(text, "\n", from) == Some(j)
    ensures j < |text| && text[j] == '\n' && NoNewline(text, from, j)
  {
    assert text[j..j + 1] == "\n";
    forall t | from <= t < j ensures text[t] != '\n' {
      assert !OccursAt(text, "\n", t);
      assert text[t..t + 1] == [text[t]];
    }
  }

  lemma DelimitedShape(text: string, i: nat, marker: string)
    requires |marker| > 0
    ensures var m := Delimited(text, i, marker);
      m.Some? ==> (text[i..i + |marker|] == marker
                   && text[m.value.groupEnd..m.value.end] == marker
                   && FirstClose(text[m.value.groupStart..m.value.groupEnd], marker))
  {
    if OccursAt(text, marker, i) {
      match IndexFrom(text, marker, i + |marker|)
      case None =>
      case Some(k) => FirstCloseSlice(text, marker, i + |marker|, k);
    }
  }

  /** The opening line of a fence matched at `i` whose info string may start at `from`. */
  lemma FenceHead(text: string, i: nat, from: nat, sp: Span)
    requires OccursAt(text, "```", i) && i + 3 <= from
    requires from <= sp.groupStart - 1 && sp.groupStart <= |text|
    requires text[sp.groupStart - 1] == '\n' && NoNewline(text, from, sp.groupStart - 1)
    ensures var head := text[i..sp.groupStart];
      && |head| >= 4 && head[..3] == "```" && head[|head| - 1] == '\n'
      && NoNewline(head, from - i, |head| - 1)
      && (from == i + 7 ==> head[3..7] == text[i + 3..i + 7])
  {
    var head := text[i..sp.groupStart];
    assert head[..3] == text[i..i + 3];
    forall t | from - i <= t < |head| - 1 ensures head[t] != '\n' {
      assert head[t] == text[i + t];
    }
  }

  lemma CodeFenceShape(text: string, i: nat)
    ensures Shaped(CodeFence, text, i, CodeFenceAt(text, i))
  {
    if OccursAt(text, "```", i) {
      FenceBodyShape(text, i + 3);
      var m := FenceBody(text, i + 3);
      if m.Some? { FenceHead(text, i, i + 3, m.value); }
    }
  }

  lemma BashFenceShape(text: string, i: nat)
    ensures Shaped(BashFence, text, i, BashFenceAt(text, i))
  {
    if OccursAt(text, "```", i) && i + 7 <= |text| && IsBashWord(text[i + 3..i + 7]) {
      FenceBodyShape(text, i + 7);
      var m := FenceBody(text, i + 7);
      if m.Some? { FenceHead(text, i, i + 7, m.value); }
    }
  }

  lemma InlineCodeShape(text: string, i: nat)
    ensures Shaped(InlineCode, text, i, InlineCodeAt(text, i))
  {
    var m := InlineCodeAt(text, i);
    if m.Some? {
      var k := m.value.groupEnd;
      assert IndexFrom(text, "`", i + 1) == Some(k);
      forall t | i + 1 <= t < k ensures text[t] != '`' { assert !OccursAt(text, "`", t); }
      var group := text[i + 1..k];
      forall t | 0 <= t < |group| ensures group[t] != '`' { assert group[t] == text[i + 1 + t]; }
      assert text[i..i + 1] == "`" && text[k..k + 1] == "`";
    }
  }

  lemma BoldShape(text: string, i: nat)
    ensures Shaped(BoldText, text, i, BoldAt(text, i))
  {
    DelimitedShape(text, i, "**");
    var m := BoldAt(text, i);
    if m.Some? {
      var group := text[m.value.groupStart..m.value.groupEnd];
      forall t | 0 <= t < |group| ensures group[t] != '\n' { assert group[t] == text[i + 2 + t]; }
    }
  }

  lemma MatchShape(rule: Rule, text: string, i: nat)
    ensures Shaped(rule, text, i, MatchAt(rule, text, i))
  {
    match rule
    case CodeFence => CodeFenceShape(text, i);
    case Explanation => DelimitedShape(text, i, "###");
    case InlineCode => InlineCodeShape(text, i);
    case BoldText => BoldShape(text, i);
    case BashFence => BashFenceShape(text, i);
  }

  /** The scan of `re.sub` over `text[i..]`. */
  function Pieces(rule: Rule, text: string, i: nat): seq<Piece>
    decreases |text| - i
  {
    if i >= |text| then []
    else match MatchAt(rule, text, i)
      case None => [Plain(text[i])] + Pieces(rule, text, i + 1)
      case Some(sp) =>
        [Matched(text[i..sp.groupStart], text[sp.groupStart..sp.groupEnd], text[sp.groupEnd..sp.end])]
        + Pieces(rule, text, sp.end)
  }

  /** The text a sequence of pieces was cut from. */
  function Original(ps: seq<Piece>): string {
    if ps == [] then ""
    else match ps[0]
      case Plain(c) => [c] + Original(ps[1..])
      case Matched(h, g, t) => h + g + t + Original(ps[1..])
  }

  /** The captured groups, in order. */
  function Groups(ps: seq<Piece>): (gs: seq<string>)
    ensures |gs| <= |ps|
  {
    if ps == [] then []
    else match ps[0]
      case Plain(_) => Groups(ps[1..])
      case Matched(_, g, _) => [g] + Groups(ps[1..])
  }

  lemma SplitAt(s: string, a: nat, b: nat)
    requires a <= b <= |s|
    ensures s[a..] == s[a..b] + s[b..]
  {
  }

  /** A matched span cuts the rest of the text into its three parts and what follows. */
  lemma SplitSpan(text: string, i: nat, sp: Span)
    requires i <= sp.groupStart <= sp.groupEnd <= sp.end <= |text|
    ensures text[i..] == text[i..sp.groupStart] + text[sp.groupStart..sp.groupEnd]
                         + text[sp.groupEnd..sp.end] + text[sp.end..]
  {
    var h, g, t := text[i..sp.groupStart], text[sp.groupStart..sp.groupEnd], text[sp.groupEnd..sp.end];
    SplitAt(text, i, sp.groupStart);
    SplitAt(text, sp.groupStart, sp.groupEnd);
    SplitAt(text, sp.groupEnd, sp.end);
    assert text[i..] == h + (g + (t + text[sp.end..]));
  }

  /** One step of the scan: a match becomes a matched piece and the scan resumes after it. */
  lemma OriginalStep(rule: Rule, text: string, i: nat)
    requires i < |text|
    ensures var ps := Pieces(rule, text, i);
      match MatchAt(rule, text, i)
      case None => Original(ps) == [text[i]] + Original(Pieces(rule, text, i + 1))
      case Some(sp) =>
        Original(ps) == text[i..sp.groupStart] + text[sp.groupStart..sp.groupEnd]
                        + text[sp.groupEnd..sp.end] + Original(Pieces(rule, text, sp.end))
  {
    var ps := Pieces(rule, text, i);
    match MatchAt(rule, text, i)
    case None => assert ps[1..] == Pieces(rule, text, i + 1);
    case Some(sp) => assert ps[1..] == Pieces(rule, text, sp.end);
  }

  /** The pieces are a partition of the scanned text: nothing is lost, duplicated or reordered. */
  lemma {:induction false} PiecesCover(rule: Rule, text: string, i: nat)
    requires i <= |text|
    ensures Original(Pieces(rule, text, i)) == text[i..]
    decreases |text| - i
  {
    if i < |text| {
      OriginalStep(rule, text, i);
      var m := MatchAt(rule, text, i);
      if m.None? {
        PiecesCover(rule, text, i + 1);
        SplitAt(text, i, i + 1);
        assert text[i..i + 1] == [text[i]];
      } else {
        PiecesCover(rule, text, m.value.end);
        SplitSpan(text, i, m.value);
      }
    }
  }

  /** Every matched region has the rule's shape. */
  lemma {:induction false} PiecesShape(rule: Rule, text: string, i: nat)
    ensures forall p :: p in Pieces(rule, text, i) && p.Matched? ==> Shape(rule, p.head, p.group, p.tail)
    decreases |text| - i
  {
    if i < |text| {
      match MatchAt(rule, text, i)
      case None => PiecesShape(rule, text, i + 1);
      case Some(sp) =>
        MatchShape(rule, text, i);
        PiecesShape(rule, text, sp.end);
    }
  }

  // ---- the substitution ---------------------------------------------------

  const Yellow := "\U{1B}[33m"
  const GrayItalic := "\U{1B}[90m\U{1B}[3m"
  const Green := "\U{1B}[32m"
  const BoldStyle := "\U{1B}[1m"
  const Reset := "\U{1B}[0m"

  /**
   * What a rule's callback records for a match: the stripped code of a code
   * block, the code of a bash block without its trailing newlines.
   */
  function Collected(rule: Rule, group: string): string {
    match rule
    case CodeFence => Strip(group)
    case BashFence => RStripChar(group, '\n')
    case _ => group
  }

  /** What the callback of each rule returns for group 1 of the `n`-th match. */
  function Replacement(rule: Rule, group: string, n: nat): string {
    match rule
    case CodeFence => Yellow + "[Блок #" + NatToString(n) + "]\n" + group + Reset
    case Explanation => GrayItalic + Strip(group) + Reset
    case InlineCode => Green + group + Reset
    case BoldText => BoldStyle + group + Reset
    case BashFence => BashCaption(n) + Reemitted(RStripChar(group, '\n'))
  }

  /** The label put above the `n`-th bash block. */
  function BashCaption(n: nat): string {
    "\n**Блок кода bash [#" + NatToString(n) + "]**\n"
  }

  /** The fence a bash block is re-emitted as. */
  function Reemitted(code: string): string {
    "```bash\n" + code + "\n```"
  }

  /** The substituted text: plain characters copied, the matches numbered from `n` on. */
  function Render(rule: Rule, ps: seq<Piece>, n: nat): string {
    if ps == [] then ""
    else match ps[0]
      case Plain(c) => [c] + Render(rule, ps[1..], n)
      case Matched(_, g, _) => Replacement(rule, g, n) + Render(rule, ps[1..], n + 1)
  }

  /** `pattern.sub(repl, text)`; numbering starts at 1 on every call. */
  function Substitute(rule: Rule, text: string): string {
    Render(rule, Pieces(rule, text, 0), 1)
  }

  function CollectAll(rule: Rule, gs: seq<string>): seq<string> {
    if gs == [] then [] else [Collected(rule, gs[0])] + CollectAll(rule, gs[1..])
  }

  /** The list a rule's callback builds over a whole text. */
  function Collection(rule: Rule, text: string): seq<string> {
    CollectAll(rule, Groups(Pieces(rule, text, 0)))
  }

  /** One step of the scan, for the substituted text. */
  lemma RenderStep(rule: Rule, text: string, i: nat, n: nat)
    requires i < |text|
    ensures var ps := Pieces(rule, text, i);
      match MatchAt(rule, text, i)
      case None => Render(rule, ps, n) == [text[i]] + Render(rule, Pieces(rule, text, i + 1), n)
      case Some(sp) =>
        Render(rule, ps, n) == Replacement(rule, text[sp.groupStart..sp.groupEnd], n)
                               + Render(rule, Pieces(rule, text, sp.end), n + 1)
  {
    var ps := Pieces(rule, text, i);
    match MatchAt(rule, text, i)
    case None => assert ps[1..] == Pieces(rule, text, i + 1);
    case Some(sp) => assert ps[1..] == Pieces(rule, text, sp.end);
  }

  /** One step of the scan, for the collected groups. */
  lemma GroupsStep(rule: Rule, text: string, i: nat)
    requires i < |text|
    ensures var ps := Pieces(rule, text, i);
      match MatchAt(rule, text, i)
      case None => Groups(ps) == Groups(Pieces(rule, text, i + 1))
      case Some(sp) => Groups(ps) == [text[sp.groupStart..sp.groupEnd]] + Groups(Pieces(rule, text, sp.end))
  {
    var ps := Pieces(rule, text, i);
    match MatchAt(rule, text, i)
    case None => assert ps[1..] == Pieces(rule, text, i + 1);
    case Some(sp) => assert ps[1..] == Pieces(rule, text, sp.end);
  }

  /** The output invariant of a substitution loop carried over one step of the scan. */
  lemma AdvanceText(rule: Rule, text: string, i: nat, out: string, n: nat, target: string)
    requires i < |text|
    requires out + Render(rule, Pieces(rule, text, i), n) == target
    ensures match MatchAt(rule, text, i)
      case None =>
        (out + [text[i]]) + Render(rule, Pieces(rule, text, i + 1), n) == target
      case Some(sp) =>
        (out + Replacement(rule, text[sp.groupStart..sp.groupEnd], n))
        + Render(rule, Pieces(rule, text, sp.end), n + 1) == target
  {
    RenderStep(rule, text, i, n);
  }

  lemma AppendAssoc<T>(a: seq<T>, b: seq<T>, c: seq<T>)
    ensures (a + b) + c == a + (b + c)
  {
  }

  /** The collected-list invariant of a substitution loop carried over one step of the scan. */
  lemma AdvanceBlocks(rule: Rule, text: string, i: nat, blocks: seq<string>, target: seq<string>)
    requires i < |text|
    requires blocks + CollectAll(rule, Groups(Pieces(rule, text, i))) == target
    ensures match MatchAt(rule, text, i)
      case None => blocks + CollectAll(rule, Groups(Pieces(rule, text, i + 1))) == target
      case Some(sp) =>
        (blocks + [Collected(rule, text[sp.groupStart..sp.groupEnd])])
        + CollectAll(rule, Groups(Pieces(rule, text, sp.end))) == target
  {
    GroupsStep(rule, text, i);
    var m := MatchAt(rule, text, i);
    if m.Some? {
      var code := text[m.value.groupStart..m.value.groupEnd];
      var rest := Groups(Pieces(rule, text, m.value.end));
      assert Groups(Pieces(rule, text, i)) == [code] + rest;
      assert CollectAll(rule, [code] + rest) == [Collected(rule, code)] + CollectAll(rule, rest);
      AppendAssoc(blocks, [Collected(rule, code)], CollectAll(rule, rest));
    }
  }

  // ---- runs of one marker character -------------------------------------

  /** `s[m..m + len]` is `len` copies of `c`. */
  predicate RunAt(s: string, c: char, len: nat, m: int) {
    0 <= m && m + len <= |s| && forall t :: m <= t < m + len ==> s[t] == c
  }

  ghost predicate NoRun(s: string, c: char, len: nat) {
    forall m :: !RunAt(s, c, len, m)
  }

  /** `len` consecutive plain pieces holding `c`: markers the scan left unmatched. */
  predicate PlainRunAt(ps: seq<Piece>, c: char, len: nat, n: int) {
    0 <= n && n + len <= |ps| && forall t :: n <= t < n + len ==> ps[t] == Plain(c)
  }

  ghost predicate NoPlainRun(ps: seq<Piece>, c: char, len: nat) {
    forall n :: !PlainRunAt(ps, c, len, n)
  }

  lemma RunOfString(s: string, p: string, c: char)
    requires |p| > 0 && forall t :: 0 <= t < |p| ==> p[t] == c
    ensures forall m :: OccursAt(s, p, m) <==> RunAt(s, c, |p|, m)
  {
    forall m | RunAt(s, c, |p|, m) ensures OccursAt(s, p, m) {
      assert s[m..m + |p|] == p;
    }
  }

  /** A slice of a text without a run has none either. */
  lemma NoRunSlice(s: string, c: char, len: nat, a: nat, b: nat)
    requires a <= b <= |s| && NoRun(s, c, len)
    ensures NoRun(s[a..b], c, len)
  {
    forall m | RunAt(s[a..b], c, len, m) ensures false {
      assert RunAt(s, c, len, a + m);
    }
  }

  /** Gluing two run-free texts makes no run when the seam is not `c`. */
  lemma NoRunConcat(x: string, y: string, c: char, len: nat)
    requires len > 0 && NoRun(x, c, len) && NoRun(y, c, len)
    requires (x != [] && x[|x| - 1] != c) || (y != [] && y[0] != c) || x == [] || y == []
    ensures NoRun(x + y, c, len)
  {
    var s := x + y;
    forall m ensures !RunAt(s, c, len, m) {
      if 0 <= m && m + len <= |x| {
        if RunAt(s, c, len, m) {
          forall t | m <= t < m + len ensures x[t] == c { assert s[t] == c; }
          assert RunAt(x, c, len, m);
        }
      } else if m >= |x| {
        if RunAt(s, c, len, m) {
          forall t | m - |x| <= t < m - |x| + len ensures y[t] == c { assert s[t + |x|] == c; }
          assert RunAt(y, c, len, m - |x|);
        }
      } else if 0 <= m && m + len <= |s| {
        assert s[|x| - 1] == x[|x| - 1] && s[|x|] == y[0];
      }
    }
  }

  /** A text without the character has no run of it. */
  lemma NoRunWithout(s: string, c: char, len: nat)
    requires len > 0 && forall t :: 0 <= t < |s| ==> s[t] != c
    ensures NoRun(s, c, len)
  {
    forall m ensures !RunAt(s, c, len, m) {
      if 0 <= m < |s| { assert s[m] != c; }
    }
  }

  /** A lazily closed group has no run of the closing marker. */
  lemma FirstCloseNoRun(group: string, tail: string, c: char)
    requires |tail| > 0 && (forall t :: 0 <= t < |tail| ==> tail[t] == c) && FirstClose(group, tail)
    ensures NoRun(group, c, |tail|)
  {
    RunOfString(group + tail, tail, c);
    forall m | RunAt(group, c, |tail|, m) ensures false {
      assert RunAt(group + tail, c, |tail|, m);
    }
  }
}
