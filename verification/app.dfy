/**
 * The stand-alone Markdown viewer: it labels every bash code block of a
 * Markdown file, renders the file, then lets the user print the raw text of
 * a block by its number.
 */
module MarkdownViewer {
  import opened Base
  import opened Text
  import opened Patterns

  /** The list `annotate_bash_blocks` returns: each bash block's code without trailing newlines. */
  function BashBlocks(md: string): seq<string> {
    Collection(BashFence, md)
  }

  /** The annotated Markdown: each bash block labelled and re-emitted as a plain bash fence. */
  function Annotated(md: string): string {
    Substitute(BashFence, md)
  }

  /**
   * `annotate_bash_blocks`: the callback of `re.sub` increments a counter,
   * appends the block's code to a list and returns the label and the fence.
   */
  method AnnotateBashBlocks(md: string) returns (annotated: string, codeBlocks: seq<string>)
    ensures annotated == Annotated(md)
    ensures codeBlocks == BashBlocks(md)
  {
    annotated, codeBlocks := "", [];
    var counter := 0;
    var i := 0;
    while i < |md|
      invariant 0 <= i <= |md| && counter == |codeBlocks|
      invariant annotated + Render(BashFence, Pieces(BashFence, md, i), counter + 1) == Annotated(md)
      invariant codeBlocks + CollectAll(BashFence, Groups(Pieces(BashFence, md, i))) == BashBlocks(md)
      decreases |md| - i
    {
      AdvanceText(BashFence, md, i, annotated, counter + 1, Annotated(md));
      AdvanceBlocks(BashFence, md, i, codeBlocks, BashBlocks(md));
      var m := BashFenceAt(md, i);
      if m.None? {
        annotated := annotated + [md[i]];
        i := i + 1;
      } else {
        counter := counter + 1;
        var code := RStripChar(md[m.value.groupStart..m.value.groupEnd], '\n');
        codeBlocks := codeBlocks + [code];
        annotated := annotated + (BashCaption(counter) + Reemitted(code));
        i := m.value.end;
      }
    }
  }

  /** A block as the list holds it: no newline at its end and no closing fence inside. */
  ghost predicate CleanBlock(b: string) {
    (b == [] || b[|b| - 1] != '\n') && NoRun(b, '`', 3)
  }

  lemma {:induction false} CollectedClean(md: string, i: nat)
    ensures |CollectAll(BashFence, Groups(Pieces(BashFence, md, i)))| == |Groups(Pieces(BashFence, md, i))|
    ensures forall b :: b in CollectAll(BashFence, Groups(Pieces(BashFence, md, i))) ==> CleanBlock(b)
    decreases |md| - i
  {
    if i < |md| {
      GroupsStep(BashFence, md, i);
      var m := MatchAt(BashFence, md, i);
      if m.None? {
        CollectedClean(md, i + 1);
      } else {
        CollectedClean(md, m.value.end);
        MatchedClean(md, i);
        var g := md[m.value.groupStart..m.value.groupEnd];
        var rest := Groups(Pieces(BashFence, md, m.value.end));
        assert CollectAll(BashFence, [g] + rest) == [RStripChar(g, '\n')] + CollectAll(BashFence, rest);
      }
    }
  }

  /** The block of one bash fence, as the list holds it, is clean. */
  lemma MatchedClean(md: string, i: nat)
    requires i < |md| && MatchAt(BashFence, md, i).Some?
    ensures var m := MatchAt(BashFence, md, i).value;
      m.groupStart <= m.groupEnd <= |md| && CleanBlock(RStripChar(md[m.groupStart..m.groupEnd], '\n'))
  {
    var m := MatchAt(BashFence, md, i).value;
    MatchShape(BashFence, md, i);
    var g := md[m.groupStart..m.groupEnd];
    FirstCloseNoRun(g, "```", '`');
    NoRunSlice(g, '`', 3, 0, |RStripChar(g, '\n')|);
  }

  /** One block per bash fence; no block ends with a newline or holds a closing fence. */
  lemma BashBlocksClean(md: string)
    ensures |BashBlocks(md)| == |Groups(Pieces(BashFence, md, 0))|
    ensures forall b :: b in BashBlocks(md) ==> CleanBlock(b)
  {
    CollectedClean(md, 0);
  }

  lemma ReemittedChars(code: string)
    ensures var e := Reemitted(code);
      && |e| == 12 + |code| && e[..3] == "```" && e[3..7] == "bash" && e[7] == '\n'
      && e[8..8 + |code|] == code && e[8 + |code|] == '\n' && e[9 + |code|..] == "```"
  {
  }

  /** With no run of three backticks in the code, the first closing fence is the appended one. */
  lemma ReemittedClose(code: string)
    requires NoRun(code, '`', 3)
    ensures var e := Reemitted(code);
      forall p :: 8 <= p < 9 + |code| ==> !OccursAt(e, "```", p)
  {
    var e := Reemitted(code);
    ReemittedChars(code);
    forall p | 8 <= p < 9 + |code| ensures !OccursAt(e, "```", p) {
      if p + 3 <= 8 + |code| {
        if OccursAt(e, "```", p) {
          forall t | p - 8 <= t < p - 8 + 3 ensures code[t] == '`' {
            assert code[t] == e[8..8 + |code|][t] == e[8 + t] == e[p..p + 3][t - (p - 8)];
          }
          assert RunAt(code, '`', 3, p - 8);
        }
      } else if p + 3 <= |e| {
        assert e[p..p + 3][8 + |code| - p] == e[8 + |code|] == '\n';
      }
    }
  }

  /**
   * The fence a block is re-emitted as is itself a bash fence whose block
   * is the same code: extracting again gives the block back.
   */
  lemma ReemitRoundTrip(code: string)
    requires CleanBlock(code)
    ensures var e := Reemitted(code);
      && BashFenceAt(e, 0) == Some(Span(8, 8 + |code| + 1, |e|))
      && Collected(BashFence, e[8..8 + |code| + 1]) == code
  {
    ReemitFence(code);
    var e := Reemitted(code);
    ReemittedChars(code);
    assert e[8..9 + |code|] == code + "\n" by {
      assert e[8..9 + |code|] == e[8..8 + |code|] + [e[8 + |code|]];
    }
    assert RStripChar(code + "\n", '\n') == RStripChar(code, '\n');
  }

  /** The re-emitted fence is matched whole, its block running up to the appended closing fence. */
  lemma ReemitFence(code: string)
    requires CleanBlock(code)
    ensures var e := Reemitted(code);
      BashFenceAt(e, 0) == Some(Span(8, 8 + |code| + 1, |e|))
  {
    ReemittedChars(code);
    ReemittedClose(code);
    FenceOfShape(Reemitted(code), |code|);
  }

  /** A text laid out as a bash fence of `n` code characters, with no earlier closing fence, is matched whole. */
  lemma FenceOfShape(e: string, n: nat)
    requires |e| == 12 + n && e[..3] == "```" && e[3..7] == "bash" && e[7] == '\n'
    requires e[8 + n] == '\n' && e[9 + n..] == "```"
    requires forall p :: 8 <= p < 9 + n ==> !OccursAt(e, "```", p)
    ensures BashFenceAt(e, 0) == Some(Span(8, 9 + n, |e|))
  {
    var close := 9 + n;
    assert OccursAt(e, "```", 0) && IsBashWord(e[3..7]);
    assert OccursAt(e, "\n", 7);
    IndexFromFirst(e, "\n", 7, 7);
    assert OccursAt(e, "```", close) by { assert e[close..close + 3] == e[9 + n..]; }
    IndexFromFirst(e, "```", 8, close);
  }

  /** Every block of the list, re-emitted, yields itself again. */
  lemma BlocksSurviveReemission(md: string)
    ensures forall b :: b in BashBlocks(md) ==>
      var e := Reemitted(b);
      BashFenceAt(e, 0).Some? && Collected(BashFence, e[8..|e| - 3]) == b
  {
    BashBlocksClean(md);
    forall b | b in BashBlocks(md)
      ensures var e := Reemitted(b);
        BashFenceAt(e, 0).Some? && Collected(BashFence, e[8..|e| - 3]) == b
    {
      ReemitRoundTrip(b);
      ReemittedChars(b);
    }
  }

  // ---- the block-selection loop of `main` ---------------------------------

  /** One answer to `input()`: a line, end of input, or Ctrl-C. */
  datatype Reply = Line(text: string) | EndOfInput | Interrupted

  /** What the viewer writes: rendered Markdown, console markup, a printed line, or the prompt. */
  datatype Output = Markdown(md: string) | Markup(text: string) | Printed(text: string) | Prompt(text: string)

  const PromptText := "\nВведите номер блока для просмотра (0 — выход): "
  const Bye := "Выход."
  const ByeAfterBreak := "\nВыход."
  const NotANumberText := "Введите число или 0 для выхода."
  const WrongNumberText := "Неверный номер: у вас "
  const WrongNumberTail := " блоков. Попробуйте снова."
  const NoBlocksText := "\n(Блоки bash не найдены)"

  /** The replies that end the loop, compared after `lower()`. */
  const QuitWords: seq<string> := ["0", "q", "exit"]

  /** How the loop reads one line. */
  datatype Choice = Quit | NotANumber | OutOfRange | Show(idx: nat)

  function Classify(line: string, count: nat): (c: Choice)
    ensures c.Show? ==> 1 <= c.idx <= count
  {
    var choice := Strip(line);
    var lowered := Lower(choice);
    if InWords(lowered, QuitWords) then Quit
    else if !IsDigits(choice) then NotANumber
    else if DigitsValue(choice) < 1 || DigitsValue(choice) > count then OutOfRange
    else Show(DigitsValue(choice))
  }

  /** The loop's reading of a line with `count` blocks on offer. */
  function ClassifyFor(count: nat): string -> Choice {
    line => Classify(line, count)
  }

  /** A reading of lines that only ever shows one of `count` blocks. */
  ghost predicate InRange(classify: string -> Choice, count: nat) {
    forall line :: classify(line).Show? ==> 1 <= classify(line).idx <= count
  }

  lemma ClassifyForInRange(count: nat)
    ensures InRange(ClassifyFor(count), count)
  {
    forall line ensures ClassifyFor(count)(line).Show? ==> 1 <= ClassifyFor(count)(line).idx <= count {
      var c := Classify(line, count);
    }
  }

  const BlockHeaderStart := "\n--- Блок #"
  const BlockHeaderEnd := " (сырое содержимое) ---"

  /** The line printed above a block's raw text. */
  function BlockHeader(n: nat): string {
    BlockHeaderStart + NatToString(n) + BlockHeaderEnd
  }

  /** What the loop prints for a choice that does not end it. */
  function Response(blocks: seq<string>, c: Choice): seq<Output>
    requires !c.Quit?
    requires c.Show? ==> 1 <= c.idx <= |blocks|
  {
    match c
    case NotANumber => [Printed(NotANumberText)]
    case OutOfRange =>
      [Printed(WrongNumberText + NatToString(|blocks|) + WrongNumberTail)]
    case Show(idx) =>
      [Printed(BlockHeader(idx)), Printed(blocks[idx - 1])]
  }

  /** The goodbye for the reply that ends the loop: `0`/`q`/`exit`, or end of input and Ctrl-C. */
  function Farewell(r: Reply): string {
    if r.Line? then Bye else ByeAfterBreak
  }

  /** Whether a reply ends the loop. */
  predicate Ends(r: Reply, classify: string -> Choice) {
    !r.Line? || classify(r.text).Quit?
  }

  /**
   * The whole dialogue for the replies the user gives, each line read by
   * `classify`; input that runs out reads as end of input.
   */
  function Dialogue(blocks: seq<string>, replies: seq<Reply>, classify: string -> Choice): seq<Output>
    requires InRange(classify, |blocks|)
    decreases |replies|
  {
    if replies == [] || Ends(replies[0], classify) then
      [Prompt(PromptText), Printed(Farewell(if replies == [] then EndOfInput else replies[0]))]
    else [Prompt(PromptText)] + Response(blocks, classify(replies[0].text)) + Dialogue(blocks, replies[1..], classify)
  }

  lemma DialogueStop(blocks: seq<string>, rs: seq<Reply>, classify: string -> Choice)
    requires InRange(classify, |blocks|)
    requires rs == [] || Ends(rs[0], classify)
    ensures Dialogue(blocks, rs, classify)
        == [Prompt(PromptText), Printed(Farewell(if rs != [] then rs[0] else EndOfInput))]
  {
  }

  lemma DialogueGoesOn(blocks: seq<string>, rs: seq<Reply>, classify: string -> Choice)
    requires InRange(classify, |blocks|)
    requires rs != [] && !Ends(rs[0], classify)
    ensures Dialogue(blocks, rs, classify)
        == [Prompt(PromptText)] + Response(blocks, classify(rs[0].text)) + Dialogue(blocks, rs[1..], classify)
  {
  }

  /** The dialogue from a reply that ends it. */
  lemma DialogueFromStop(blocks: seq<string>, replies: seq<Reply>, classify: string -> Choice, k: nat)
    requires InRange(classify, |blocks|) && k <= |replies|
    requires k == |replies| || Ends(replies[k], classify)
    ensures Dialogue(blocks, replies[k..], classify)
      == [Prompt(PromptText), Printed(Farewell(if k == |replies| then EndOfInput else replies[k]))]
  {
    var rs := replies[k..];
    if k == |replies| {
      assert rs == [];
      DialogueStop(blocks, rs, classify);
    } else {
      assert rs[0] == replies[k];
      DialogueStop(blocks, rs, classify);
    }
  }

  /** The dialogue from a reply that does not end it, one pass unfolded. */
  lemma DialogueFromGoesOn(blocks: seq<string>, replies: seq<Reply>, classify: string -> Choice, k: nat)
    requires InRange(classify, |blocks|) && k < |replies|
    requires !Ends(replies[k], classify)
    ensures Dialogue(blocks, replies[k..], classify)
      == [Prompt(PromptText)] + Response(blocks, classify(replies[k].text)) + Dialogue(blocks, replies[k + 1..], classify)
  {
    var rs := replies[k..];
    assert rs[0] == replies[k] && rs[1..] == replies[k + 1..];
    DialogueGoesOn(blocks, rs, classify);
  }

  /** The `while True` loop of `main`, inside its `try`. */
  method SelectionLoop(blocks: seq<string>, replies: seq<Reply>) returns (out: seq<Output>)
    ensures InRange(ClassifyFor(|blocks|), |blocks|)
    ensures out == Dialogue(blocks, replies, ClassifyFor(|blocks|))
  {
    ghost var classify := ClassifyFor(|blocks|);
    ghost var whole := Dialogue(blocks, replies, classify);
    ClassifyForInRange(|blocks|);
    assert replies[0..] == replies;
    out := [];
    var k := 0;
    while true
      invariant 0 <= k <= |replies|
      invariant out + Dialogue(blocks, replies[k..], classify) == whole
      decreases |replies| - k
    {
      var said, done := SelectionPass(blocks, replies, k);
      if done {
        return out + said;
      }
      AppendAssoc(out, said, Dialogue(blocks, replies[k + 1..], classify));
      out := out + said;
      k := k + 1;
    }
  }

  /** One pass of the loop: the prompt, then what the reply at `k` makes it print. */
  method SelectionPass(blocks: seq<string>, replies: seq<Reply>, k: nat) returns (said: seq<Output>, done: bool)
    requires k <= |replies|
    ensures InRange(ClassifyFor(|blocks|), |blocks|)
    ensures done ==> Dialogue(blocks, replies[k..], ClassifyFor(|blocks|)) == said
    ensures !done ==> k < |replies|
    ensures !done ==>
      Dialogue(blocks, replies[k..], ClassifyFor(|blocks|)) == said + Dialogue(blocks, replies[k + 1..], ClassifyFor(|blocks|))
  {
    ghost var classify := ClassifyFor(|blocks|);
    ClassifyForInRange(|blocks|);
    if k == |replies| || !replies[k].Line? {
      DialogueFromStop(blocks, replies, classify, k);
      return [Prompt(PromptText), Printed(ByeAfterBreak)], true;
    }
    var c := Classify(replies[k].text, |blocks|);
    assert c == classify(replies[k].text);
    if c.Quit? {
      DialogueFromStop(blocks, replies, classify, k);
      return [Prompt(PromptText), Printed(Bye)], true;
    }
    DialogueFromGoesOn(blocks, replies, classify, k);
    said, done := [Prompt(PromptText)] + Response(blocks, c), false;
  }

  /** A line shows a block exactly when it is the number of one of the blocks. */
  lemma ClassifyShow(line: string, count: nat)
    ensures Classify(line, count).Show? <==>
      IsDigits(Strip(line)) && 1 <= DigitsValue(Strip(line)) <= count
    ensures Classify(line, count).Show? ==> Classify(line, count).idx == DigitsValue(Strip(line))
  {
    var choice := Strip(line);
    if IsDigits(choice) {
      LowerDigits(choice);
      assert IsDigitChar(choice[0]);
      InWordsIff(choice, QuitWords);
      if choice == "0" {
        assert DigitsValue(choice) == DigitsValue("") * 10 + 0;
      }
    }
  }

  /** Nothing the user types after the reply that ends the loop is read. */
  lemma {:induction false} InputAfterEndIgnored(blocks: seq<string>, replies: seq<Reply>,
                                                 more: seq<Reply>, classify: string -> Choice, k: nat)
    requires InRange(classify, |blocks|)
    requires k < |replies| && Ends(replies[k], classify)
    ensures Dialogue(blocks, replies + more, classify) == Dialogue(blocks, replies, classify)
    decreases k
  {
    var all := replies + more;
    assert all[0] == replies[0];
    if k > 0 && !Ends(replies[0], classify) {
      assert all[1..] == replies[1..] + more;
      InputAfterEndIgnored(blocks, replies[1..], more, classify, k - 1);
    }
  }

  /** The dialogue opens with the prompt and always ends with a goodbye. */
  lemma {:induction false} DialogueEnds(blocks: seq<string>, replies: seq<Reply>, classify: string -> Choice)
    requires InRange(classify, |blocks|)
    ensures var d := Dialogue(blocks, replies, classify);
      && |d| >= 2 && d[0] == Prompt(PromptText)
      && (d[|d| - 1] == Printed(Bye) || d[|d| - 1] == Printed(ByeAfterBreak))
    decreases |replies|
  {
    if replies != [] && !Ends(replies[0], classify) {
      DialogueEnds(blocks, replies[1..], classify);
    }
  }

  /** `0`, `q` and `exit`, in any case and with surrounding blanks, end the loop. */
  lemma ClassifyQuit(line: string, count: nat)
    ensures Classify(line, count).Quit? <==> Lower(Strip(line)) in ["0", "q", "exit"]
  {
    InWordsIff(Lower(Strip(line)), QuitWords);
  }

  /** A reply read as `Show(idx)` prints the header and the block, then prompts again. */
  lemma ShowStep(blocks: seq<string>, rs: seq<Reply>, classify: string -> Choice, idx: nat)
    requires InRange(classify, |blocks|)
    requires rs != [] && rs[0].Line? && classify(rs[0].text) == Show(idx)
    ensures 1 <= idx <= |blocks|
    ensures var d := Dialogue(blocks, rs, classify);
      |d| > 3 && d[1] == Printed(BlockHeader(idx)) && d[2] == Printed(blocks[idx - 1]) && d[3] == Prompt(PromptText)
  {
    DialogueGoesOn(blocks, rs, classify);
    DialogueEnds(blocks, rs[1..], classify);
  }

  /**
   * A reply holding the number of a block prints the block header and then
   * the block's raw text, and the loop asks again.
   */
  lemma ShowsRequestedBlock(blocks: seq<string>, line: string, more: seq<Reply>)
    requires IsDigits(Strip(line)) && 1 <= DigitsValue(Strip(line)) <= |blocks|
    ensures InRange(ClassifyFor(|blocks|), |blocks|)
    ensures var d := Dialogue(blocks, [Line(line)] + more, ClassifyFor(|blocks|));
      && |d| > 3
      && d[1] == Printed(BlockHeader(DigitsValue(Strip(line))))
      && d[2] == Printed(blocks[DigitsValue(Strip(line)) - 1])
      && d[3] == Prompt(PromptText)
  {
    var idx := DigitsValue(Strip(line));
    var classify := ClassifyFor(|blocks|);
    ClassifyForInRange(|blocks|);
    ClassifyShow(line, |blocks|);
    var rs := [Line(line)] + more;
    assert rs[0] == Line(line);
    assert classify(rs[0].text) == Show(idx);
    ShowStep(blocks, rs, classify, idx);
  }

  /** A quitting reply ends the dialogue at once with `Выход.`. */
  lemma QuitEndsDialogue(blocks: seq<string>, line: string, more: seq<Reply>)
    requires Lower(Strip(line)) in ["0", "q", "exit"]
    ensures InRange(ClassifyFor(|blocks|), |blocks|)
    ensures Dialogue(blocks, [Line(line)] + more, ClassifyFor(|blocks|)) == [Prompt(PromptText), Printed(Bye)]
  {
    ClassifyForInRange(|blocks|);
    ClassifyQuit(line, |blocks|);
    DialogueStop(blocks, [Line(line)] + more, ClassifyFor(|blocks|));
  }

  /**
   * `main`: read the file named on the command line (or `text.md`), show it
   * annotated, then run the selection loop if it has bash blocks.  The
   * status is the process exit status.
   */
  method RunViewer(argv: seq<string>, files: map<string, string>, replies: seq<Reply>)
    returns (out: seq<Output>, status: int)
    ensures var path := if |argv| > 1 then argv[1] else "text.md";
      && (status == 1 <==> path !in files)
      && (path !in files ==> out == [Markup("[red]Файл не найден:[/red] " + path)])
      && (path in files ==> status == 0 && |out| > 0 && out[0] == Markdown(Annotated(files[path])))
      && (path in files && BashBlocks(files[path]) == [] ==>
            out == [Markdown(Annotated(files[path])), Printed(NoBlocksText)])
      && (path in files && BashBlocks(files[path]) != [] ==>
            InRange(ClassifyFor(|BashBlocks(files[path])|), |BashBlocks(files[path])|)
            && out == [Markdown(Annotated(files[path]))]
                      + Dialogue(BashBlocks(files[path]), replies, ClassifyFor(|BashBlocks(files[path])|)))
  {
    var path := if |argv| > 1 then argv[1] else "text.md";
    if path !in files {
      out := [Markup("[red]Файл не найден:[/red] " + path)];
      status := 1;
      return;
    }
    var annotated, blocks := AnnotateBashBlocks(files[path]);
    out := [Markdown(annotated)];
    status := 0;
    if blocks == [] {
      out := out + [Printed(NoBlocksText)];
      return;
    }
    var dialogue := SelectionLoop(blocks, replies);
    out := out + dialogue;
  }
}
