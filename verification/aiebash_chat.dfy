/**
 * `chat_loop` of the older `aiebash` package: a dialogue over a plain
 * message list, a `send_chat` client and the code blocks of the last
 * answer.
 */
module AiebashChatLoop {
  import opened Base
  import opened Text

  /** One thing the loop prints, or hands to the block runner. */
  datatype Out =
    | Text(text: string)
    /** One of the fixed lines below. */
    | Said(phrase: Phrase)
    | Markdown(text: string)
    /** `run_code_block(console, code_blocks, idx)` */
    | RunBlock(blocks: seq<string>, idx: nat)

  /**
   * What the loop cannot see: the `debug` setting as `_render_answer`
   * reads it, and `annotate_code_blocks`, which gives the annotated answer
   * and its code blocks.
   */
  datatype Env = Env(debug: bool, annotate: string -> (string, seq<string>))

  /** The fixed lines the loop prints. */
  datatype Phrase = AskOrRun | AskOnly | NoSuchBlock | AnswerHeader | RawStart | RawEnd

  function PhraseText(p: Phrase): string {
    match p
    case AskOrRun => "[dim]Введите следующий вопрос или номер блока кода для немедленного выполнения[/dim]"
    case AskOnly => "[dim]Введите следующий вопрос[/dim]"
    case NoSuchBlock => "[yellow]Нет такого блока. Введите номер из списка или текстовый запрос.[/yellow]"
    case AnswerHeader => "[bold blue]AI:[/bold blue]"
    case RawStart => "=== RAW RESPONSE ==="
    case RawEnd => "=== /RAW RESPONSE ==="
  }

  /** The line printed before each prompt, which depends on whether blocks are on offer. */
  function Hint(withBlocks: bool): Out {
    Said(if withBlocks then AskOrRun else AskOnly)
  }

  /** The words that end the loop, compared after `strip().lower()`. */
  predicate IsExitWord(s: string) { InWords(Lower(s), ["exit", "quit", "выход"]) }

  /** `_render_answer`: the header, the debug flag, the raw answer in debug mode, then the annotated answer. */
  function Render(env: Env, answer: string): (r: seq<Out>)
    ensures |r| == if env.debug then 6 else 3
    ensures r[|r| - 1] == Markdown(env.annotate(answer).0)
  {
    [Said(AnswerHeader), Text("DEBUG_MODE: " + if env.debug then "True" else "False")]
    + (if env.debug then [Said(RawStart), Text(answer), Said(RawEnd)] else [])
    + [Markdown(env.annotate(answer).0)]
  }

  /** The exception of reading a local variable that was never bound. */
  function Unbound(name: string): Exc {
    PyError(UnboundLocalError, "cannot access local variable '" + name + "' where it is not associated with a value")
  }

  /**
   * The loop's locals: the message list, the code blocks, the last bound
   * `answer`, what was printed, and each message list `send_chat` was
   * handed.
   */
  datatype State = State(messages: seq<Message>, blocks: seq<string>, answer: Option<string>,
                         shown: seq<Out>, sent: seq<seq<Message>>)

  /** How a pass of the loop ends: on to the next prompt, out of the loop, or out of `chat_loop` with an exception. */
  datatype Flow = Continue | Break | Escape(exc: Exc)

  /** One pass: what `console.input` gave, and what `send_chat` would give if it is called. */
  datatype Turn = Turn(input: Result<string>, reply: Result<string>)

  /** An answer is bound: it is appended, its blocks replace the old ones, and it is shown. */
  function Answered(env: Env, st: State, answer: string): State {
    st.(messages := st.messages + [AssistantMessage(answer)], blocks := env.annotate(answer).1,
        answer := Some(answer), shown := st.shown + Render(env, answer))
  }

  /** The message list before the first prompt. */
  function Opening(context: string): seq<Message> {
    if context != "" then [SystemMessage(context)] else []
  }

  /**
   * Before the loop: the system entry if there is a context, then the
   * first prompt with its answer; `send_chat` is not guarded here, so
   * whatever it raises leaves `chat_loop`.
   */
  function Initial(env: Env, context: string, firstPrompt: string, firstReply: Result<string>): (State, Option<Exc>) {
    var st := State(Opening(context), [], None, [], []);
    if firstPrompt == "" then (st, None)
    else
      var ms := st.messages + [UserMessage(firstPrompt)];
      var st1 := st.(messages := ms, sent := [ms]);
      match firstReply
      case Err(e) => (st1, Some(e))
      case Ok(a) => (Answered(env, st1, a), None)
  }

  /** What a line of input asks for, checked in the code's order. */
  datatype LineKind = ExitWord | Number(n: nat) | Question

  function KindOf(line: string): LineKind {
    var s := Strip(line);
    if IsExitWord(s) then ExitWord else if IsDigits(s) then Number(DigitsValue(s)) else Question
  }

  /** An exit word wins over a number, and only a stripped run of digits is a number. */
  lemma KindOfMeaning(line: string)
    ensures KindOf(line) == ExitWord <==> IsExitWord(Strip(line))
    ensures KindOf(line).Number? <==> !IsExitWord(Strip(line)) && IsDigits(Strip(line))
    ensures KindOf(line).Number? ==> KindOf(line).n == DigitsValue(Strip(line))
  {
  }

  /** One pass of the `while True` loop with its `except KeyboardInterrupt`. */
  function Step(env: Env, st: State, t: Turn): (State, Flow) {
    var st1 := st.(shown := st.shown + [Hint(|st.blocks| > 0)]);
    match t.input
    case Err(KeyboardInterrupt) => (st1.(shown := st1.shown + [Text("\n")]), Break)
    case Err(e) => (st1, Escape(e))
    case Ok(line) => LineStep(env, st1, line, KindOf(line), t.reply)
  }

  /** The rest of a pass once a line was read and classified as `kind`. */
  function LineStep(env: Env, st: State, line: string, kind: LineKind, reply: Result<string>): (State, Flow) {
    match kind
    case ExitWord => (st, Break)
    case Number(n) =>
      (st.(shown := st.shown + [if 1 <= n <= |st.blocks| then RunBlock(st.blocks, n) else Said(NoSuchBlock)]),
       Continue)
    case Question =>
      var ms := st.messages + [UserMessage(line)];
      var st2 := st.(messages := ms, sent := st.sent + [ms]);
      if reply == Err(KeyboardInterrupt) then (st2.(shown := st2.shown + [Text("\n")]), Break)
      else
        var answer := if reply.Ok? then Some(reply.value) else st.answer;
        if answer.None? then (st2, Escape(Unbound("answer")))
        else (Answered(env, st2, answer.value), Continue)
  }

  /** The loop over the given turns; `Continue` means it is still waiting for input when they run out. */
  function Run(env: Env, st: State, turns: seq<Turn>): (State, Flow)
    decreases |turns|
  {
    if turns == [] then (st, Continue)
    else
      var (st', flow) := Step(env, st, turns[0]);
      if flow == Continue then Run(env, st', turns[1..]) else (st', flow)
  }

  /** `chat_loop` as a whole. */
  function Chat(env: Env, context: string, firstPrompt: string, firstReply: Result<string>, turns: seq<Turn>): (State, Flow) {
    var (st, raised) := Initial(env, context, firstPrompt, firstReply);
    if raised.Some? then (st, Escape(raised.value)) else Run(env, st, turns)
  }

  /** The `while True` loop, pass by pass. */
  method ChatLoop(env: Env, context: string, firstPrompt: string, firstReply: Result<string>, turns: seq<Turn>)
    returns (st: State, flow: Flow)
    ensures (st, flow) == Chat(env, context, firstPrompt, firstReply, turns)
  {
    var begun := Initial(env, context, firstPrompt, firstReply);
    st := begun.0;
    if begun.1.Some? {
      return st, Escape(begun.1.value);
    }
    var k := 0;
    flow := Continue;
    while k < |turns|
      invariant 0 <= k <= |turns| && flow == Continue
      invariant Run(env, st, turns[k..]) == Chat(env, context, firstPrompt, firstReply, turns)
      decreases |turns| - k
    {
      assert turns[k..][1..] == turns[k + 1..];
      var stepped := Step(env, st, turns[k]);
      st, flow := stepped.0, stepped.1;
      if flow != Continue {
        return;
      }
      k := k + 1;
    }
  }

  // ---- what the loop does with the transcript --------------------------------

  /** `after` extends `before` with user and assistant entries only. */
  predicate Extends(before: seq<Message>, after: seq<Message>) {
    |before| <= |after| && after[..|before|] == before
    && forall i :: |before| <= i < |after| ==> after[i].role != "system"
  }

  lemma ExtendsTrans(a: seq<Message>, b: seq<Message>, c: seq<Message>)
    requires Extends(a, b) && Extends(b, c)
    ensures Extends(a, c)
  {
    assert c[..|a|] == c[..|b|][..|a|];
  }

  lemma ExtendsAppend(ms: seq<Message>, extra: seq<Message>)
    requires forall i :: 0 <= i < |extra| ==> extra[i].role != "system"
    ensures Extends(ms, ms + extra)
  {
    assert (ms + extra)[..|ms|] == ms;
    forall i | |ms| <= i < |ms + extra| ensures (ms + extra)[i].role != "system" {
      assert (ms + extra)[i] == extra[i - |ms|];
    }
  }

  /** After a line is read, a pass appends at most the user entry and an answer. */
  lemma LineExtends(env: Env, st: State, line: string, kind: LineKind, reply: Result<string>)
    ensures Extends(st.messages, LineStep(env, st, line, kind, reply).0.messages)
  {
    var ms := LineStep(env, st, line, kind, reply).0.messages;
    if kind != Question {
      ExtendsAppend(st.messages, []);
      assert st.messages + [] == ms;
    } else if reply == Err(KeyboardInterrupt) || (reply.Err? && st.answer.None?) {
      ExtendsAppend(st.messages, [UserMessage(line)]);
    } else {
      var a := if reply.Ok? then reply.value else st.answer.value;
      ExtendsAppend(st.messages, [UserMessage(line), AssistantMessage(a)]);
      assert ms == st.messages + [UserMessage(line)] + [AssistantMessage(a)];
    }
  }

  lemma StepExtends(env: Env, st: State, t: Turn)
    ensures Extends(st.messages, Step(env, st, t).0.messages)
  {
    var st1 := st.(shown := st.shown + [Hint(|st.blocks| > 0)]);
    if t.input.Ok? {
      LineExtends(env, st1, t.input.value, KindOf(t.input.value), t.reply);
    } else {
      ExtendsAppend(st.messages, []);
      assert st.messages + [] == st.messages;
    }
  }

  lemma {:induction false} RunExtends(env: Env, st: State, turns: seq<Turn>)
    ensures Extends(st.messages, Run(env, st, turns).0.messages)
    decreases |turns|
  {
    if turns != [] {
      var (st', flow) := Step(env, st, turns[0]);
      StepExtends(env, st, turns[0]);
      if flow == Continue {
        RunExtends(env, st', turns[1..]);
        ExtendsTrans(st.messages, st'.messages, Run(env, st', turns[1..]).0.messages);
      }
    }
  }

  lemma InitialExtends(env: Env, context: string, firstPrompt: string, firstReply: Result<string>)
    ensures Extends(Opening(context), Initial(env, context, firstPrompt, firstReply).0.messages)
  {
    var ms := Initial(env, context, firstPrompt, firstReply).0.messages;
    if firstPrompt == "" {
      ExtendsAppend(Opening(context), []);
      assert Opening(context) + [] == ms;
    } else if firstReply.Err? {
      ExtendsAppend(Opening(context), [UserMessage(firstPrompt)]);
    } else {
      ExtendsAppend(Opening(context), [UserMessage(firstPrompt), AssistantMessage(firstReply.value)]);
      assert ms == Opening(context) + [UserMessage(firstPrompt), AssistantMessage(firstReply.value)];
    }
  }

  /** The transcript begins with a system entry exactly when there is a context, whatever the dialogue. */
  lemma SystemEntryIffContext(env: Env, context: string, firstPrompt: string, firstReply: Result<string>, turns: seq<Turn>)
    ensures var ms := Chat(env, context, firstPrompt, firstReply, turns).0.messages;
      |ms| > 0 && ms[0].role == "system" <==> context != ""
  {
    var begun := Initial(env, context, firstPrompt, firstReply);
    InitialExtends(env, context, firstPrompt, firstReply);
    var ms := Chat(env, context, firstPrompt, firstReply, turns).0.messages;
    if begun.1.None? {
      RunExtends(env, begun.0, turns);
      ExtendsTrans(Opening(context), begun.0.messages, ms);
    }
    assert Extends(Opening(context), ms);
    if context != "" {
      assert ms[..1] == [SystemMessage(context)];
      assert ms[0] == ms[..1][0];
    } else if |ms| > 0 {
      assert ms[0].role != "system";
    }
  }

  /** A first prompt is committed with its answer before the loop starts. */
  lemma FirstPromptAnswered(env: Env, context: string, firstPrompt: string, a: string)
    requires firstPrompt != ""
    ensures Initial(env, context, firstPrompt, Ok(a)).0.messages
         == Opening(context) + [UserMessage(firstPrompt), AssistantMessage(a)]
    ensures Initial(env, context, firstPrompt, Ok(a)).0.blocks == env.annotate(a).1
  {
  }

  /** An exit word, in any case and with any surrounding space, ends the loop and sends nothing. */
  lemma ExitWordLeaves(env: Env, st: State, line: string, reply: Result<string>)
    requires IsExitWord(Strip(line))
    ensures Step(env, st, Turn(Ok(line), reply)).1 == Break
    ensures Step(env, st, Turn(Ok(line), reply)).0.messages == st.messages
    ensures Step(env, st, Turn(Ok(line), reply)).0.sent == st.sent
  {
  }

  /**
   * A number is never sent: it runs the block it names when there is one
   * and otherwise says there is none; the transcript and the blocks stay.
   */
  lemma NumberNeverSent(env: Env, st: State, line: string, reply: Result<string>)
    requires !IsExitWord(Strip(line)) && IsDigits(Strip(line))
    ensures var (st', flow) := Step(env, st, Turn(Ok(line), reply));
      && flow == Continue && st'.messages == st.messages && st'.sent == st.sent && st'.blocks == st.blocks
      && st'.shown[|st'.shown| - 1]
         == if 1 <= DigitsValue(Strip(line)) <= |st.blocks| then RunBlock(st.blocks, DigitsValue(Strip(line)))
            else Said(NoSuchBlock)
  {
  }

  /** A question, once classified, as `OtherLineSent` states it. */
  lemma AskLine(env: Env, st: State, line: string, reply: Result<string>)
    requires reply != Err(KeyboardInterrupt)
    ensures var (st', flow) := LineStep(env, st, line, Question, reply);
      var answer := if reply.Ok? then Some(reply.value) else st.answer;
      && st'.sent == st.sent + [st.messages + [UserMessage(line)]]
      && (answer.Some? ==>
            (flow == Continue && st'.answer == answer
             && st'.messages == st.messages + [UserMessage(line), AssistantMessage(answer.value)]
             && st'.blocks == env.annotate(answer.value).1))
      && (answer.None? ==> (flow == Escape(Unbound("answer")) && st'.messages == st.messages + [UserMessage(line)]))
  {
  }

  /**
   * Any other line is sent as typed, and an answer is appended after it
   * whatever happened: the new one, or, when `send_chat` raised, the one
   * bound by an earlier pass; with none bound yet the loop dies with
   * UnboundLocalError.  The blocks are those of the answer appended.
   */
  lemma OtherLineSent(env: Env, st: State, line: string, reply: Result<string>)
    requires !IsExitWord(Strip(line)) && !IsDigits(Strip(line)) && reply != Err(KeyboardInterrupt)
    ensures var (st', flow) := Step(env, st, Turn(Ok(line), reply));
      var answer := if reply.Ok? then Some(reply.value) else st.answer;
      && st'.sent == st.sent + [st.messages + [UserMessage(line)]]
      && (answer.Some? ==>
            (flow == Continue && st'.answer == answer
             && st'.messages == st.messages + [UserMessage(line), AssistantMessage(answer.value)]
             && st'.blocks == env.annotate(answer.value).1))
      && (answer.None? ==> (flow == Escape(Unbound("answer")) && st'.messages == st.messages + [UserMessage(line)]))
  {
    AskLine(env, st.(shown := st.shown + [Hint(|st.blocks| > 0)]), line, reply);
  }

  /** Ctrl-C during `send_chat` leaves the user entry in place and ends the loop. */
  lemma InterruptedSend(env: Env, st: State, line: string)
    requires !IsExitWord(Strip(line)) && !IsDigits(Strip(line))
    ensures Step(env, st, Turn(Ok(line), Err(KeyboardInterrupt))).1 == Break
    ensures Step(env, st, Turn(Ok(line), Err(KeyboardInterrupt))).0.messages == st.messages + [UserMessage(line)]
  {
    var st1 := st.(shown := st.shown + [Hint(|st.blocks| > 0)]);
    assert LineStep(env, st1, line, Question, Err(KeyboardInterrupt)).0.messages == st.messages + [UserMessage(line)];
  }
}
