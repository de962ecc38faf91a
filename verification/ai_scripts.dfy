/**
 * The three small `ai` command-line scripts: the root `ai.py`, its
 * earlier copy `ai-bash/ai.py` and `source/ai.py`.  Each takes a request
 * from its arguments (with an optional `-run`), posts one chat request,
 * prints the answer and, in run mode, lets the user run code blocks of
 * the answer by number.
 */
module AiScripts {
  import opened Base
  import opened Text
  import opened Patterns
  import FormatterText

  /** Which of the three scripts. */
  datatype Script = RootAi | AiBashAi | SourceAi

  // ---- the system context -------------------------------------------------------

  /** What the host tells the script: `lsb_release -ds` (None when it fails), `$SHELL`, `$HOME`. */
  datatype Host = Host(lsbRelease: Option<string>, shell: Option<string>, home: Option<string>)

  /**
   * `get_system_context`: the distribution, shell and home directory put
   * into the template's three placeholders, with their fallbacks.
   */
  function SystemContext(template: string, host: Host): string {
    var release := if host.lsbRelease.Some? then Strip(host.lsbRelease.value) else "Ubuntu unknown";
    var shell := if host.shell.Some? then host.shell.value else "bash";
    var home := if host.home.Some? then host.home.value else "/home/user";
    Replace(Replace(Replace(template, "$(lsb_release -ds)", release), "$SHELL", shell), "$HOME", home)
  }

  /** A template without placeholders comes out as it went in, whatever the host. */
  lemma PlainTemplate(template: string, host: Host)
    requires !Contains(template, "$(lsb_release -ds)") && !Contains(template, "$SHELL")
    requires !Contains(template, "$HOME")
    ensures SystemContext(template, host) == template
  {
    ReplaceAbsent(template, "$(lsb_release -ds)", if host.lsbRelease.Some? then Strip(host.lsbRelease.value) else "Ubuntu unknown");
    ReplaceAbsent(template, "$SHELL", if host.shell.Some? then host.shell.value else "bash");
    ReplaceAbsent(template, "$HOME", if host.home.Some? then host.home.value else "/home/user");
  }

  predicate NoDollar(s: string) {
    forall i :: 0 <= i < |s| ==> s[i] != '$'
  }

  /** A text led by `$` that differs from the placeholder in its second character is not touched. */
  lemma OtherPlaceholder(s: string, p: string, v: string)
    requires |s| > 1 && s[0] == '$' && NoDollar(s[1..])
    requires |p| > 1 && p[0] == '$' && s[1] != p[1]
    ensures Replace(s, p, v) == s
  {
    if |s| >= |p| {
      assert s[..|p|][1] != p[1];
      ReplaceSkip(s[1..], p, v, []);
      assert s[1..] + [] == s[1..];
    }
  }

  /** A placeholder between two texts without `$` is filled with `v`. */
  lemma FillOne(a: string, p: string, v: string, b: string)
    requires NoDollar(a) && NoDollar(b) && |p| > 0 && p[0] == '$'
    ensures Replace(a + p + b, p, v) == a + v + b
  {
    ReplaceSkip(a, p, v, p + b);
    assert a + p + b == a + (p + b);
    assert (p + b)[..|p|] == p && (p + b)[|p|..] == b;
    ReplaceSkip(b, p, v, []);
    assert b + [] == b;
  }

  /** A text without `$` comes out of any placeholder replacement unchanged. */
  lemma NoDollarKept(s: string, p: string, v: string)
    requires NoDollar(s) && |p| > 0 && p[0] == '$'
    ensures Replace(s, p, v) == s
  {
    ReplaceSkip(s, p, v, []);
    assert s + [] == s;
  }

  /** A placeholder other than `p`, between texts without `$`, is kept by the replacement of `p`. */
  lemma KeepOther(a: string, q: string, b: string, p: string, v: string)
    requires NoDollar(a) && NoDollar(b) && |q| > 1 && q[0] == '$' && NoDollar(q[1..])
    requires |p| > 1 && p[0] == '$' && q[1] != p[1]
    ensures Replace(a + q + b, p, v) == a + q + b
  {
    ReplaceSkip(a, p, v, q + b);
    assert a + q + b == a + (q + b);
    assert (q + b)[1..] == q[1..] + b;
    OtherPlaceholder(q + b, p, v);
  }

  /** `$(lsb_release -ds)` becomes the stripped release, or `Ubuntu unknown` when the command fails. */
  lemma ReleaseFilled(a: string, b: string, host: Host)
    requires NoDollar(a) && NoDollar(b)
    requires host.lsbRelease.Some? ==> NoDollar(Strip(host.lsbRelease.value))
    ensures SystemContext(a + "$(lsb_release -ds)" + b, host)
         == a + (if host.lsbRelease.Some? then Strip(host.lsbRelease.value) else "Ubuntu unknown") + b
  {
    var release := if host.lsbRelease.Some? then Strip(host.lsbRelease.value) else "Ubuntu unknown";
    FillOne(a, "$(lsb_release -ds)", release, b);
    assert NoDollar(a + release + b);
    NoDollarKept(a + release + b, "$SHELL", if host.shell.Some? then host.shell.value else "bash");
    NoDollarKept(a + release + b, "$HOME", if host.home.Some? then host.home.value else "/home/user");
  }

  /** `$SHELL` becomes the shell, or `bash` when it is unset. */
  lemma ShellFilled(a: string, b: string, host: Host)
    requires NoDollar(a) && NoDollar(b)
    requires host.shell.Some? ==> NoDollar(host.shell.value)
    ensures SystemContext(a + "$SHELL" + b, host) == a + (if host.shell.Some? then host.shell.value else "bash") + b
  {
    var shell := if host.shell.Some? then host.shell.value else "bash";
    KeepOther(a, "$SHELL", b, "$(lsb_release -ds)", if host.lsbRelease.Some? then Strip(host.lsbRelease.value) else "Ubuntu unknown");
    FillOne(a, "$SHELL", shell, b);
    assert NoDollar(a + shell + b);
    NoDollarKept(a + shell + b, "$HOME", if host.home.Some? then host.home.value else "/home/user");
  }

  /** `$HOME` becomes the home directory, or `/home/user` when it is unset. */
  lemma HomeFilled(a: string, b: string, host: Host)
    requires NoDollar(a) && NoDollar(b)
    ensures SystemContext(a + "$HOME" + b, host) == a + (if host.home.Some? then host.home.value else "/home/user") + b
  {
    KeepOther(a, "$HOME", b, "$(lsb_release -ds)", if host.lsbRelease.Some? then Strip(host.lsbRelease.value) else "Ubuntu unknown");
    KeepOther(a, "$HOME", b, "$SHELL", if host.shell.Some? then host.shell.value else "bash");
    FillOne(a, "$HOME", if host.home.Some? then host.home.value else "/home/user", b);
  }

  // ---- the arguments ------------------------------------------------------------

  /** `list.remove(x)`: the first occurrence of `x` taken out. */
  function RemoveFirst(s: seq<string>, x: string): (r: seq<string>)
    ensures x !in s ==> r == s
    ensures x in s ==> |r| == |s| - 1
  {
    if s == [] then []
    else if s[0] == x then s[1..]
    else [s[0]] + RemoveFirst(s[1..], x)
  }

  /** Exactly one `x` is taken out and nothing else. */
  lemma {:induction false} RemoveFirstMultiset(s: seq<string>, x: string)
    requires x in s
    ensures multiset(RemoveFirst(s, x)) + multiset{x} == multiset(s)
  {
    assert s == [s[0]] + s[1..];
    if s[0] != x {
      RemoveFirstMultiset(s[1..], x);
    }
  }

  /** Only the first `-run` is taken out; the ones after it stay. */
  lemma {:induction false} RemoveFirstPrefix(a: seq<string>, x: string, b: seq<string>)
    requires x !in a
    ensures RemoveFirst(a + [x] + b, x) == a + b
  {
    var s := a + [x] + b;
    RemoveFirstAt(s, x, |a|);
    assert s[..|a|] == a && s[|a| + 1..] == b;
  }

  /** Taking out the first `x`, found at `i`, leaves what is before and after it. */
  lemma {:induction false} RemoveFirstAt(s: seq<string>, x: string, i: nat)
    requires i < |s| && s[i] == x && forall j :: 0 <= j < i ==> s[j] != x
    ensures RemoveFirst(s, x) == s[..i] + s[i + 1..]
  {
    if i > 0 {
      RemoveFirstAt(s[1..], x, i - 1);
      assert s[..i] == [s[0]] + s[1..][..i - 1];
      assert s[i + 1..] == s[1..][i..];
    }
  }

  /** How a script starts: with its usage line and an exit code, or with a request. */
  datatype Launch = Usage(exitCode: int) | Request(runMode: bool, prompt: string)

  /** The argument handling of `main`; `argv` includes the script name. */
  function ParseArgs(script: Script, argv: seq<string>): (r: Launch)
    ensures r.Usage? <==> |argv| < 2
    ensures r.Usage? ==> r.exitCode == if script == AiBashAi then 1 else 0
    ensures r.Request? ==> (r.runMode <==> "-run" in argv[1..])
  {
    if |argv| < 2 then Usage(if script == AiBashAi then 1 else 0)
    else
      var args := argv[1..];
      Request("-run" in args, Join(RemoveFirst(args, "-run"), " "))
  }

  /** The first `-run` switches run mode on and is dropped; a later one is sent as part of the request. */
  lemma RunFlagTakenOnce(script: Script, name: string, a: seq<string>, b: seq<string>)
    requires "-run" !in a
    ensures ParseArgs(script, [name] + a + ["-run"] + b) == Request(true, Join(a + b, " "))
  {
    var argv := [name] + a + ["-run"] + b;
    assert argv[1..] == a + ["-run"] + b;
    RemoveFirstPrefix(a, "-run", b);
  }

  // ---- the request --------------------------------------------------------------

  /** The `settings` module's template and extra context lines. */
  datatype Settings = Settings(context: string, extraContext: seq<string>, debug: bool)

  /**
   * The `messages` of the payload: the system context, then the request.
   * `source/ai.py` sends the template itself; the other two substitute it
   * and append the extra lines.
   */
  function PayloadMessages(script: Script, settings: Settings, host: Host, prompt: string): (r: seq<Message>)
    ensures |r| == 2 && r[0].role == "system" && r[1] == UserMessage(prompt)
    ensures script == SourceAi ==> r[0].content == settings.context
    ensures script != SourceAi ==> EndsWith(r[0].content, "\n" + Join(settings.extraContext, "\n"))
    ensures script != SourceAi ==> StartsWith(r[0].content, SystemContext(settings.context, host))
  {
    if script == SourceAi then [SystemMessage(settings.context), UserMessage(prompt)]
    else
      var ctx := SystemContext(settings.context, host);
      var extra := "\n" + Join(settings.extraContext, "\n");
      assert (ctx + extra)[|ctx + extra| - |extra|..] == extra;
      assert (ctx + extra)[..|ctx|] == ctx;
      [SystemMessage(ctx + extra), UserMessage(prompt)]
  }

  /** The two copies of the script with substitution send the same request. */
  lemma SubstitutingScriptsAgree(settings: Settings, host: Host, prompt: string)
    ensures PayloadMessages(RootAi, settings, host, prompt) == PayloadMessages(AiBashAi, settings, host, prompt)
  {
  }

  // ---- the block selection loop ---------------------------------------------------

  /** One answer to `input()`: a line, end of input, or Ctrl-C. */
  datatype Reply = Line(text: string) | EndOfInput | Interrupted

  /** What a script writes: a printed line, an input prompt, rendered Markdown, or a block it runs. */
  datatype Out = Printed(text: string) | Prompt(text: string) | Rendered(markdown: string) | Executed(code: string)

  const PromptText := "\nВведите номер блока для выполнения (0 - выход): "

  /** What `input()` raises when the input has ended. */
  const EndOfInputError := PyError(EOFError, "EOF when reading a line")

  /** How the loop reads one line. */
  datatype Pick = NotANumber | Leave | RunBlock(number: nat) | NoSuchBlock

  function PickOf(line: string, count: nat): (p: Pick)
    ensures p.RunBlock? ==> 1 <= p.number <= count
    ensures p == NotANumber <==> !IsDigits(line)
    ensures p == Leave <==> IsDigits(line) && DigitsValue(line) == 0
  {
    if !IsDigits(line) then NotANumber
    else
      var n := DigitsValue(line);
      if n == 0 then Leave else if n <= count then RunBlock(n) else NoSuchBlock
  }

  function RunHeader(n: nat, code: string): string {
    "\n>>> Выполняем блок #" + NatToString(n) + ":\n" + code + "\n"
  }

  /** What one line that does not end the loop produces, after its prompt. */
  function Answer(blocks: seq<string>, p: Pick): seq<Out>
    requires p.RunBlock? ==> 1 <= p.number <= |blocks|
  {
    match p
    case NotANumber => [Printed("Введите число.")]
    case Leave => [Printed("Выход.")]
    case RunBlock(n) => [Printed(RunHeader(n, blocks[n - 1])), Executed(blocks[n - 1])]
    case NoSuchBlock => [Printed("Нет такого блока.")]
  }

  /** Whether a reply ends the loop normally: Ctrl-C, or a line reading 0. */
  predicate Ends(r: Reply, count: nat) {
    r == Interrupted || (r.Line? && PickOf(r.text, count) == Leave)
  }

  /**
   * The whole loop for the replies given: what it writes, and the exception
   * that leaves it (end of input; Ctrl-C is caught inside).
   */
  function Selection(blocks: seq<string>, replies: seq<Reply>): (r: (seq<Out>, Option<Exc>))
    decreases |replies|
  {
    if replies == [] || replies[0] == EndOfInput then ([Prompt(PromptText)], Some(EndOfInputError))
    else if replies[0] == Interrupted then ([Prompt(PromptText), Printed("\nВыход.")], None)
    else
      var p := PickOf(replies[0].text, |blocks|);
      if p == Leave then ([Prompt(PromptText), Printed("Выход.")], None)
      else
        var rest := Selection(blocks, replies[1..]);
        ([Prompt(PromptText)] + Answer(blocks, p) + rest.0, rest.1)
  }

  /** The loop runs nothing but the blocks of the answer. */
  lemma {:induction false} SelectionRunsOnlyBlocks(blocks: seq<string>, replies: seq<Reply>)
    ensures forall o :: o in Selection(blocks, replies).0 && o.Executed? ==> o.code in blocks
    decreases |replies|
  {
    if replies != [] && replies[0].Line? && PickOf(replies[0].text, |blocks|) != Leave {
      SelectionRunsOnlyBlocks(blocks, replies[1..]);
    }
  }

  /**
   * The only exception that leaves the loop is the end of the input; while
   * the input lasts, the loop ends normally exactly when some reply is `0`
   * or Ctrl-C.
   */
  lemma {:induction false} SelectionEnds(blocks: seq<string>, replies: seq<Reply>)
    ensures Selection(blocks, replies).1.Some? ==> Selection(blocks, replies).1 == Some(EndOfInputError)
    ensures EndOfInput !in replies ==>
      (Selection(blocks, replies).1.None? <==> exists i :: 0 <= i < |replies| && Ends(replies[i], |blocks|))
    decreases |replies|
  {
    if replies != [] && replies[0].Line? && PickOf(replies[0].text, |blocks|) != Leave {
      var tail := replies[1..];
      SelectionEnds(blocks, tail);
      assert forall i :: 0 <= i < |tail| ==> tail[i] == replies[i + 1];
      assert EndOfInput in tail ==> EndOfInput in replies;
      if exists i :: 0 <= i < |replies| && Ends(replies[i], |blocks|) {
        var i :| 0 <= i < |replies| && Ends(replies[i], |blocks|);
        assert i > 0 && Ends(tail[i - 1], |blocks|);
      }
    } else if replies != [] && replies[0] != EndOfInput {
      assert Ends(replies[0], |blocks|);
    }
  }

  /** How the loop reads a number it printed itself. */
  lemma PickOfNumber(n: nat, count: nat)
    ensures PickOf(NatToString(n), count) == if n == 0 then Leave else if n <= count then RunBlock(n) else NoSuchBlock
  {
    NatToStringValue(n);
  }

  /** One line that does not end the loop: its prompt, its answer, then the rest of the loop. */
  lemma SelectionStep(blocks: seq<string>, line: string, rest: seq<Reply>)
    requires PickOf(line, |blocks|) != Leave
    ensures Selection(blocks, [Line(line)] + rest) ==
      ([Prompt(PromptText)] + Answer(blocks, PickOf(line, |blocks|)) + Selection(blocks, rest).0,
       Selection(blocks, rest).1)
  {
    assert ([Line(line)] + rest)[1..] == rest;
  }

  /** A line that picks block `n` prints its header and runs exactly that block. */
  lemma RunStep(blocks: seq<string>, line: string, n: nat, rest: seq<Reply>)
    requires 1 <= n <= |blocks| && PickOf(line, |blocks|) == RunBlock(n)
    ensures Selection(blocks, [Line(line)] + rest).0
         == [Prompt(PromptText), Printed(RunHeader(n, blocks[n - 1])), Executed(blocks[n - 1])]
            + Selection(blocks, rest).0
    ensures Selection(blocks, [Line(line)] + rest).1 == Selection(blocks, rest).1
  {
    SelectionStep(blocks, line, rest);
    RunAnswer(blocks, n, Selection(blocks, rest).0);
  }

  lemma RunAnswer(blocks: seq<string>, n: nat, tail: seq<Out>)
    requires 1 <= n <= |blocks|
    ensures [Prompt(PromptText)] + Answer(blocks, RunBlock(n)) + tail
         == [Prompt(PromptText), Printed(RunHeader(n, blocks[n - 1])), Executed(blocks[n - 1])] + tail
  {
  }

  /** Choosing a block and then `0`: the block runs once and the loop ends normally. */
  lemma RunThenLeave(blocks: seq<string>, line: string, n: nat)
    requires 1 <= n <= |blocks| && PickOf(line, |blocks|) == RunBlock(n)
    ensures Selection(blocks, [Line(line), Line("0")]).0
         == [Prompt(PromptText), Printed(RunHeader(n, blocks[n - 1])), Executed(blocks[n - 1]),
             Prompt(PromptText), Printed("Выход.")]
    ensures Selection(blocks, [Line(line), Line("0")]).1 == None
  {
    var zero := [Line("0")];
    assert Selection(blocks, zero) == ([Prompt(PromptText), Printed("Выход.")], None) by {
      ZeroLeaves(|blocks|);
      SelectionLeave(blocks, "0", []);
      assert zero + [] == zero;
    }
    assert [Line(line), Line("0")] == [Line(line)] + zero;
    RunStep(blocks, line, n, zero);
  }

  lemma ZeroLeaves(count: nat)
    ensures PickOf("0", count) == Leave
  {
    assert IsDigits("0");
    assert "0"[..0] == "";
  }

  /** A line reading 0 ends the loop whatever follows it. */
  lemma SelectionLeave(blocks: seq<string>, line: string, rest: seq<Reply>)
    requires PickOf(line, |blocks|) == Leave
    ensures Selection(blocks, [Line(line)] + rest) == ([Prompt(PromptText), Printed("Выход.")], None)
  {
  }

  /** The `while True` loop with its `try`/`except KeyboardInterrupt`. */
  method SelectionLoop(blocks: seq<string>, replies: seq<Reply>) returns (out: seq<Out>, escaped: Option<Exc>)
    ensures (out, escaped) == Selection(blocks, replies)
  {
    out := [];
    var k := 0;
    while true
      invariant 0 <= k <= |replies|
      invariant out + Selection(blocks, replies[k..]).0 == Selection(blocks, replies).0
      invariant Selection(blocks, replies[k..]).1 == Selection(blocks, replies).1
      decreases |replies| - k
    {
      ghost var rs := replies[k..];
      assert rs != [] ==> rs[0] == replies[k] && rs[1..] == replies[k + 1..];
      ghost var before := out;
      out := out + [Prompt(PromptText)];
      if k == |replies| || replies[k] == EndOfInput {
        escaped := Some(EndOfInputError);
        return;
      }
      if replies[k] == Interrupted {
        assert Selection(blocks, rs).0 == [Prompt(PromptText), Printed("\nВыход.")];
        out := out + [Printed("\nВыход.")];
        assert out == before + [Prompt(PromptText), Printed("\nВыход.")];
        escaped := None;
        return;
      }
      var p := PickOf(replies[k].text, |blocks|);
      if p == Leave {
        assert Selection(blocks, rs).0 == [Prompt(PromptText), Printed("Выход.")];
        out := out + [Printed("Выход.")];
        assert out == before + [Prompt(PromptText), Printed("Выход.")];
        escaped := None;
        return;
      }
      ghost var rest := Selection(blocks, replies[k + 1..]).0;
      assert Selection(blocks, rs).0 == [Prompt(PromptText)] + Answer(blocks, p) + rest;
      AppendAssoc(before, [Prompt(PromptText)], Answer(blocks, p) + rest);
      AppendAssoc(before + [Prompt(PromptText)], Answer(blocks, p), rest);
      AppendAssoc([Prompt(PromptText)], Answer(blocks, p), rest);
      out := out + Answer(blocks, p);
      k := k + 1;
    }
  }

  // ---- the whole script -------------------------------------------------------------

  /** What the POST request comes back with. */
  datatype Response =
    | HttpFailure(text: string)   // `raise_for_status` raised HTTPError
    | Failure(text: string)       // any other exception, `str(e)`
    | NoChoices(data: string)     // a body without choices, as printed
    | Answered(answer: string)    // `choices[0].message.content`

  /** `format_answer(answer)[0]` */
  function Formatted(answer: string): string {
    FormatterText.HighlightBold(FormatterText.HighlightInlineCode(
      FormatterText.HighlightExplanationBlocks(Substitute(CodeFence, answer))))
  }

  /** How the answer is shown: formatted, or (in `source/ai.py`) as Markdown, after the raw text when debugging. */
  function ShowAnswer(script: Script, debug: bool, answer: string): (r: seq<Out>)
    ensures script != SourceAi ==> r == [Printed(Formatted(answer))]
    ensures script == SourceAi ==> |r| > 0 && r[|r| - 1] == Rendered(answer)
  {
    if script != SourceAi then [Printed(Formatted(answer))]
    else if debug then
      [Printed("=== RAW RESPONSE ==="), Printed(answer), Printed("=== /RAW RESPONSE ===\n"), Rendered(answer)]
    else [Rendered(answer)]
  }

  /** The loop's output followed by the report of an exception that left it. */
  function LoopOutput(sel: (seq<Out>, Option<Exc>)): seq<Out> {
    sel.0 + if sel.1.Some? then [Printed("Ошибка: " + ExcText(sel.1.value))] else []
  }

  /** What `main` writes after a request with `runMode` and the given response. */
  function AfterResponse(script: Script, debug: bool, runMode: bool, response: Response, replies: seq<Reply>): seq<Out> {
    match response
    case HttpFailure(text) => [Printed("HTTP ошибка: " + text)]
    case Failure(text) => [Printed("Ошибка: " + text)]
    case NoChoices(data) => [Printed("Ошибка: неожиданный формат ответа: " + data)]
    case Answered(answer) =>
      var blocks := FormatterText.CodeBlocks(answer);
      ShowAnswer(script, debug, answer) + if runMode && blocks != [] then LoopOutput(Selection(blocks, replies)) else []
  }

  /** The block loop only ever runs with `-run`. */
  lemma NothingRunsWithoutFlag(script: Script, debug: bool, response: Response, replies: seq<Reply>)
    ensures forall o :: o in AfterResponse(script, debug, false, response, replies) ==> !o.Executed?
  {
  }

  /** Every block a script runs is a block of the answer. */
  lemma OnlyAnswerBlocksRun(script: Script, debug: bool, runMode: bool, answer: string, replies: seq<Reply>)
    ensures forall o :: o in AfterResponse(script, debug, runMode, Answered(answer), replies) && o.Executed? ==>
      o.code in FormatterText.CodeBlocks(answer)
  {
    var blocks := FormatterText.CodeBlocks(answer);
    AnsweredOutput(script, debug, runMode, answer, replies);
    ShownRunsNothing(script, debug, answer);
    LoopRunsOnlyBlocks(blocks, replies);
  }

  lemma AnsweredOutput(script: Script, debug: bool, runMode: bool, answer: string, replies: seq<Reply>)
    ensures var blocks := FormatterText.CodeBlocks(answer);
      AfterResponse(script, debug, runMode, Answered(answer), replies)
      == ShowAnswer(script, debug, answer) + if runMode && blocks != [] then LoopOutput(Selection(blocks, replies)) else []
  {
  }

  lemma ShownRunsNothing(script: Script, debug: bool, answer: string)
    ensures forall o :: o in ShowAnswer(script, debug, answer) ==> !o.Executed?
  {
  }

  lemma LoopRunsOnlyBlocks(blocks: seq<string>, replies: seq<Reply>)
    ensures forall o :: o in LoopOutput(Selection(blocks, replies)) && o.Executed? ==> o.code in blocks
  {
    SelectionRunsOnlyBlocks(blocks, replies);
  }

  const UsageText := "Использование: ai [-run] ваш запрос к ИИ без кавычек"

  /**
   * `main`: the arguments, the request sent (if any), then the answer, the
   * optional block loop, and the exit code.
   */
  method RunScript(script: Script, argv: seq<string>, settings: Settings, host: Host, response: Response,
              replies: seq<Reply>) returns (sent: Option<seq<Message>>, out: seq<Out>, exitCode: int)
    ensures |argv| < 2 ==> sent.None? && out == [Printed(UsageText)]
    ensures |argv| < 2 ==> exitCode == ParseArgs(script, argv).exitCode
    ensures |argv| >= 2 ==> exitCode == 0
    ensures |argv| >= 2 ==> sent == Some(PayloadMessages(script, settings, host, ParseArgs(script, argv).prompt))
    ensures |argv| >= 2 ==> out == AfterResponse(script, settings.debug, ParseArgs(script, argv).runMode, response, replies)
  {
    if |argv| < 2 {
      return None, [Printed(UsageText)], if script == AiBashAi then 1 else 0;
    }
    var runMode := false;
    var args := argv[1..];
    if "-run" in args {
      runMode := true;
      args := RemoveFirst(args, "-run");
    }
    var prompt := Join(args, " ");
    sent := Some(PayloadMessages(script, settings, host, prompt));
    exitCode := 0;
    out := Respond(script, settings.debug, runMode, response, replies);
  }

  /** The `try` block of `main`: what is printed for the response, and the block loop. */
  method Respond(script: Script, debug: bool, runMode: bool, response: Response, replies: seq<Reply>)
    returns (out: seq<Out>)
    ensures out == AfterResponse(script, debug, runMode, response, replies)
  {
    match response
    case HttpFailure(text) =>
      out := [Printed("HTTP ошибка: " + text)];
    case Failure(text) =>
      out := [Printed("Ошибка: " + text)];
    case NoChoices(data) =>
      out := [Printed("Ошибка: неожиданный формат ответа: " + data)];
    case Answered(answer) =>
      out := RespondToAnswer(script, debug, runMode, answer, replies);
  }

  /** The answer shown, then, in run mode and with blocks, the loop. */
  method RespondToAnswer(script: Script, debug: bool, runMode: bool, answer: string, replies: seq<Reply>)
    returns (out: seq<Out>)
    ensures out == ShowAnswer(script, debug, answer) +
      if runMode && FormatterText.CodeBlocks(answer) != []
      then LoopOutput(Selection(FormatterText.CodeBlocks(answer), replies)) else []
  {
    var blocks;
    out, blocks := ShowFormatted(script, debug, answer);
    if runMode && blocks != [] {
      var loopOut := RunLoop(blocks, replies);
      out := out + loopOut;
    }
  }

  /** The block loop, and the report of the exception that left it. */
  method RunLoop(blocks: seq<string>, replies: seq<Reply>) returns (out: seq<Out>)
    ensures out == LoopOutput(Selection(blocks, replies))
  {
    var escaped;
    out, escaped := SelectionLoop(blocks, replies);
    if escaped.Some? {
      out := out + [Printed("Ошибка: " + ExcText(escaped.value))];
    }
  }

  /** The answer as printed or rendered, and the blocks `format_answer` collected. */
  method ShowFormatted(script: Script, debug: bool, answer: string) returns (out: seq<Out>, blocks: seq<string>)
    ensures out == ShowAnswer(script, debug, answer) && blocks == FormatterText.CodeBlocks(answer)
  {
    var formatted;
    formatted, blocks := FormatterText.FormatAnswer(answer);
    if script != SourceAi {
      out := [Printed(formatted)];
    } else {
      out := if debug
        then [Printed("=== RAW RESPONSE ==="), Printed(answer), Printed("=== /RAW RESPONSE ===\n")]
        else [];
      out := out + [Rendered(answer)];
    }
  }
}
