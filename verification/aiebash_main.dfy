/**
 * The entry point of the older `aiebash` package: the LLM settings it
 * reads at start-up, the single query, the dialog mode over an
 * `OpenRouterChat` client, and the exit codes of `main`.
 */
module AiebashMain {
  import opened Base
  import opened Text
  import opened Frames
  import AiebashChat
  import AiebashConfig

  // ---- start-up settings ----------------------------------------------------

  /**
   * The settings entry of the current LLM as the module reads it:
   * written as `get_value("supported_LLMs", CURRENT_LLM, {})`, which looks
   * under `supported_LLMs["supported_LLMs"]`; evidently meant as the entry
   * `supported_LLMs[CURRENT_LLM]`.
   */
  function LlmEntry(b: Binding, data: JValue, current: string): JValue {
    match b
    case AsWritten => AiebashConfig.Lookup(data, AiebashConfig.Route("supported_LLMs"), current, JObj(map[]))
    case Intended => AiebashConfig.Lookup(data, ["supported_LLMs"], current, JObj(map[]))
  }

  /** `MODEL`, `API_URL` or `API_KEY`: `.get(field, "")` on that entry, which raises on a non-dictionary. */
  function LlmField(b: Binding, data: JValue, current: string, field: string): Result<JValue> {
    AiebashConfig.Get(LlmEntry(b, data, current), field, JStr(""))
  }

  /**
   * As written, the field is found only under an LLM entry that is itself
   * named `supported_LLMs`; for any other configuration the model, URL
   * and key all read as "".
   */
  lemma LlmFieldAsWritten(data: JValue, current: string, field: string)
    requires data.JObj? && "supported_LLMs" in data.fields
    requires var llms := data.fields["supported_LLMs"]; llms.JObj? && "supported_LLMs" !in llms.fields
    ensures LlmField(AsWritten, data, current, field) == Ok(JStr(""))
  {
    AiebashConfig.LookupReaches(data, ["supported_LLMs", "supported_LLMs"], current, JObj(map[]));
  }

  /** As intended, the field is that of the current LLM's entry, and "" when the entry lacks it. */
  lemma LlmFieldIntended(data: JValue, current: string, field: string, entry: map<string, JValue>)
    requires data.JObj? && "supported_LLMs" in data.fields
    requires var llms := data.fields["supported_LLMs"]; llms.JObj? && current in llms.fields
    requires data.fields["supported_LLMs"].fields[current] == JObj(entry)
    ensures LlmField(Intended, data, current, field) == Ok(if field in entry then entry[field] else JStr(""))
  {
    AiebashConfig.LookupReaches(data, ["supported_LLMs"], current, JObj(map[]));
  }

  // ---- what is printed ------------------------------------------------------

  datatype Out =
    | Text(text: string)
    | Markdown(text: string)
    /** `run_code_block(console, last_code_blocks, block_index)` */
    | RunBlock(blocks: seq<string>, idx: nat)
    /** `parser.print_help()` */
    | Help

  datatype Phrase = Farewell | Interrupted | AiPrefix | InitialPrefix | ErrorPrefix

  function PhraseText(p: Phrase): string {
    match p
    case Farewell => "[yellow]До свидания![/yellow]"
    case Interrupted => "\n[yellow]Диалог прерван пользователем[/yellow]"
    case AiPrefix => "[bold green]AI:[/bold green] "
    case InitialPrefix => "[bold blue]Начальный запрос:[/bold blue] "
    case ErrorPrefix => "[red]Ошибка:[/red] "
  }

  function ErrorLine(e: Exc): Out { Text(PhraseText(ErrorPrefix) + ExcText(e)) }

  function MissingBlockLine(input: string): Out { Text("[red]Блок кода #" + input + " не найден.[/red]") }

  // ---- calling the client ---------------------------------------------------

  /** The message of unpacking a string of the wrong length into two names. */
  function UnpackError(n: nat): Exc {
    if n > 2 then PyError(ValueError, "too many values to unpack (expected 2)")
    else PyError(ValueError, "not enough values to unpack (expected 2, got " + NatToString(n) + ")")
  }

  /**
   * `response, code_blocks = chat_client.ask(...)`.  `ask` returns a
   * string, so as written the unpacking succeeds only for a two-character
   * reply, whose characters become the response and a one-block list; as
   * intended, `ask` gives the reply and its code blocks.
   */
  function Unpacked(b: Binding, extract: string -> seq<string>, reply: string): (r: Result<(string, seq<string>)>)
    ensures b == AsWritten ==> (r.Ok? <==> |reply| == 2)
    ensures b == Intended ==> r == Ok((reply, extract(reply)))
  {
    match b
    case Intended => Ok((reply, extract(reply)))
    case AsWritten => if |reply| == 2 then Ok(([reply[0]], [[reply[1]]])) else Err(UnpackError(|reply|))
  }

  /** The dialog's memory: the last code blocks, what was printed, and the client's transcript. */
  datatype State = State(blocks: seq<string>, shown: seq<Out>, messages: seq<Message>)

  /**
   * One `ask` with its unpacking: the notice `ask` prints, then the
   * response as Markdown and its blocks; or the exception that leaves.
   */
  function Asked(b: Binding, extract: string -> seq<string>, st: State, u: string, response: Result<string>)
    : (State, Option<Exc>)
  {
    var t := AiebashChat.AskTurn(st.messages, u, response);
    var st1 := st.(messages := t.messages, shown := st.shown + if t.notice.Some? then [Text(t.notice.value)] else []);
    match t.out
    case Raised(e) => (st1, Some(e))
    case Returned(reply) =>
      match Unpacked(b, extract, reply)
      case Err(e) => (st1, Some(e))
      case Ok(pair) => (st1.(blocks := pair.1, shown := st1.shown + [Markdown(pair.0)]), None)
  }

  /**
   * The initial prompt, if any: an error is printed, except Ctrl-C,
   * which leaves `run_dialog_mode`; a blank line follows.
   */
  function Initial(b: Binding, extract: string -> seq<string>, st: State, prompt: string, response: Result<string>)
    : (State, Option<Exc>)
  {
    if prompt == "" then (st, None)
    else
      var st1 := st.(shown := st.shown + [Text(PhraseText(InitialPrefix) + prompt)]);
      var (st2, raised) := Asked(b, extract, st1, prompt, response);
      if raised == Some(KeyboardInterrupt) then (st2, raised)
      else
        var st3 := if raised.Some? then st2.(shown := st2.shown + [ErrorLine(raised.value)]) else st2;
        (st3.(shown := st3.shown + [Text("")]), None)
  }

  // ---- the dialog loop -------------------------------------------------------

  /** What a stripped line asks for, checked in the code's order. */
  datatype LineKind = ExitWord | Empty | Number(n: nat) | Question

  predicate IsExitWord(u: string) { InWords(Lower(u), ["exit", "quit", "q", "выход"]) }

  /** The exit words are recognised in any letter case, Cyrillic included. */
  lemma ExitWordsAnyCase()
    ensures IsExitWord("Q") && IsExitWord("Exit") && IsExitWord("QUIT") && IsExitWord("ВЫХОД")
  {
    LowersToExit("Q", "q");
    LowersToExit("Exit", "exit");
    LowersToExit("QUIT", "quit");
    LowersToExit("ВЫХОД", "выход");
  }

  lemma LowersToExit(u: string, w: string)
    requires w in ["exit", "quit", "q", "выход"] && |u| == |w| && forall i :: 0 <= i < |u| ==> LowerChar(u[i]) == w[i]
    ensures IsExitWord(u)
  {
    assert Lower(u) == w;
    InWordsIff(w, ["exit", "quit", "q", "выход"]);
  }

  /** Only whole words count: an empty line or a word with more after it is not an exit word. */
  lemma NotExitWords()
    ensures !IsExitWord("") && !IsExitWord("quit!")
  {
    InWordsIff(Lower(""), ["exit", "quit", "q", "выход"]);
    assert !IsExitWord("quit!") by {
      assert Lower("quit!") == "quit!";
      InWordsIff("quit!", ["exit", "quit", "q", "выход"]);
    }
  }

  function KindOf(u: string): LineKind {
    if IsExitWord(u) then ExitWord
    else if u == "" then Empty
    else if IsDigits(u) then Number(DigitsValue(u))
    else Question
  }

  /**
   * The exit words are checked first, in any case; only then is an empty
   * line skipped; a run of digits is a block number; anything else is a
   * question.
   */
  lemma KindOfMeaning(u: string)
    ensures KindOf(u) == ExitWord <==> IsExitWord(u)
    ensures KindOf(u) == Empty <==> u == ""
    ensures KindOf(u).Number? <==> !IsExitWord(u) && IsDigits(u)
    ensures KindOf(u).Number? ==> KindOf(u).n == DigitsValue(u)
  {
    assert Lower("") == "";
  }

  /** One pass of the loop: what `console.input` gave, and what the model would answer if asked. */
  datatype Turn = Turn(input: Result<string>, response: Result<string>)

  /** One pass with its two `except` clauses; the flag says whether the loop is left. */
  function Step(b: Binding, extract: string -> seq<string>, st: State, t: Turn): (State, bool) {
    match t.input
    case Err(KeyboardInterrupt) => (st.(shown := st.shown + [Text(PhraseText(Interrupted))]), true)
    case Err(e) => (st.(shown := st.shown + [ErrorLine(e)]), false)
    case Ok(line) =>
      var u := Strip(line);
      match KindOf(u)
      case ExitWord => (st.(shown := st.shown + [Text(PhraseText(Farewell))]), true)
      case Empty => (st, false)
      case Number(n) =>
        if 1 <= n <= |st.blocks| then (st.(shown := st.shown + [RunBlock(st.blocks, n), Text("")]), false)
        else (st.(shown := st.shown + [MissingBlockLine(u)]), false)
      case Question =>
        var (st1, raised) := Asked(b, extract, st.(shown := st.shown + [Text(PhraseText(AiPrefix))]), u, t.response);
        if raised == Some(KeyboardInterrupt) then (st1.(shown := st1.shown + [Text(PhraseText(Interrupted))]), true)
        else if raised.Some? then (st1.(shown := st1.shown + [ErrorLine(raised.value)]), false)
        else (st1.(shown := st1.shown + [Text("")]), false)
  }

  function Run(b: Binding, extract: string -> seq<string>, st: State, turns: seq<Turn>): State
    decreases |turns|
  {
    if turns == [] then st
    else
      var (st', leave) := Step(b, extract, st, turns[0]);
      if leave then st' else Run(b, extract, st', turns[1..])
  }

  /** `run_dialog_mode`: the initial prompt, then the loop; only Ctrl-C during the initial prompt escapes. */
  function Dialog(b: Binding, extract: string -> seq<string>, messages: seq<Message>, prompt: string,
                  response: Result<string>, turns: seq<Turn>): (State, Option<Exc>)
  {
    var (st, raised) := Initial(b, extract, State([], [], messages), prompt, response);
    if raised.Some? then (st, raised) else (Run(b, extract, st, turns), None)
  }

  /** The dialog's decisions for a line, as the loop makes them. */
  lemma NumberSendsNothing(b: Binding, extract: string -> seq<string>, st: State, line: string, response: Result<string>)
    requires !IsExitWord(Strip(line)) && IsDigits(Strip(line))
    ensures var (st', leave) := Step(b, extract, st, Turn(Ok(line), response));
      var n := DigitsValue(Strip(line));
      && !leave && st'.messages == st.messages && st'.blocks == st.blocks
      && st'.shown == st.shown + if 1 <= n <= |st.blocks| then [RunBlock(st.blocks, n), Text("")]
                                 else [MissingBlockLine(Strip(line))]
  {
    KindOfMeaning(Strip(line));
  }

  /** An answer `ask` returns, unpacked as intended. */
  lemma AskedIntended(extract: string -> seq<string>, st: State, u: string, reply: string)
    ensures Asked(Intended, extract, st, u, Ok(reply))
         == (State(extract(reply), st.shown + [Markdown(reply)], st.messages + [UserMessage(u), AssistantMessage(reply)]), None)
  {
    assert AiebashChat.AskTurn(st.messages, u, Ok(reply))
        == Turned(Returned(reply), st.messages + [UserMessage(u), AssistantMessage(reply)], None);
    assert st.shown + [] == st.shown;
  }

  /** An answer `ask` returns, unpacked as written. */
  lemma AskedAsWritten(extract: string -> seq<string>, st: State, u: string, reply: string)
    requires |reply| != 2
    ensures Asked(AsWritten, extract, st, u, Ok(reply))
         == (State(st.blocks, st.shown, st.messages + [UserMessage(u), AssistantMessage(reply)]), Some(UnpackError(|reply|)))
  {
    assert AiebashChat.AskTurn(st.messages, u, Ok(reply))
        == Turned(Returned(reply), st.messages + [UserMessage(u), AssistantMessage(reply)], None);
    assert st.shown + [] == st.shown;
  }

  /** A line the loop sends: the prefix, then what the call gives. */
  lemma QuestionStep(b: Binding, extract: string -> seq<string>, st: State, line: string, response: Result<string>)
    requires KindOf(Strip(line)) == Question
    ensures var (st1, raised) := Asked(b, extract, st.(shown := st.shown + [Text(PhraseText(AiPrefix))]), Strip(line), response);
      Step(b, extract, st, Turn(Ok(line), response))
      == if raised == Some(KeyboardInterrupt) then (st1.(shown := st1.shown + [Text(PhraseText(Interrupted))]), true)
         else if raised.Some? then (st1.(shown := st1.shown + [ErrorLine(raised.value)]), false)
         else (st1.(shown := st1.shown + [Text("")]), false)
  {
  }

  /**
   * As intended, a question goes to `ask` stripped; on success its blocks
   * replace the remembered ones and the transcript grows by the question
   * and the answer.
   */
  lemma QuestionReplacesBlocks(extract: string -> seq<string>, st: State, line: string, reply: string)
    requires KindOf(Strip(line)) == Question
    ensures var (st', leave) := Step(Intended, extract, st, Turn(Ok(line), Ok(reply)));
      && !leave && st'.blocks == extract(reply)
      && st'.messages == st.messages + [UserMessage(Strip(line)), AssistantMessage(reply)]
      && st'.shown == st.shown + [Text(PhraseText(AiPrefix)), Markdown(reply), Text("")]
  {
    QuestionStep(Intended, extract, st, line, Ok(reply));
    AskedIntended(extract, st.(shown := st.shown + [Text(PhraseText(AiPrefix))]), Strip(line), reply);
  }

  /**
   * As written, a successful answer of any length but two fails to
   * unpack: the error is printed in place of the answer and the blocks
   * stay as they were, though the client's transcript has grown.
   */
  lemma QuestionAsWrittenKeepsBlocks(extract: string -> seq<string>, st: State, line: string, reply: string)
    requires KindOf(Strip(line)) == Question && |reply| != 2
    ensures var (st', leave) := Step(AsWritten, extract, st, Turn(Ok(line), Ok(reply)));
      && !leave && st'.blocks == st.blocks
      && st'.messages == st.messages + [UserMessage(Strip(line)), AssistantMessage(reply)]
      && st'.shown == st.shown + [Text(PhraseText(AiPrefix)), ErrorLine(UnpackError(|reply|))]
  {
    QuestionStep(AsWritten, extract, st, line, Ok(reply));
    AskedAsWritten(extract, st.(shown := st.shown + [Text(PhraseText(AiPrefix))]), Strip(line), reply);
  }

  /** Only Ctrl-C, raised inside the initial prompt, escapes the dialog. */
  lemma DialogEscapes(b: Binding, extract: string -> seq<string>, messages: seq<Message>, prompt: string,
                      response: Result<string>, turns: seq<Turn>)
    ensures var raised := Dialog(b, extract, messages, prompt, response, turns).1;
      raised.Some? ==> raised == Some(KeyboardInterrupt) && prompt != ""
  {
  }

  // ---- main ------------------------------------------------------------------

  /** The parsed command line. */
  datatype Args = Args(dialog: bool, settings: bool, prompt: seq<string>)

  /** `run_single_query`: an error is printed, except Ctrl-C, which escapes. */
  function SingleQuery(messages: seq<Message>, prompt: string, connect: Connect, items: seq<StreamItem>)
    : (r: (seq<Out>, seq<Message>, Option<Exc>))
    ensures r.2.Some? ==> r.2 == Some(KeyboardInterrupt)
  {
    var t := AiebashChat.StreamTurn(messages, prompt, connect, items);
    var shown := if t.notice.Some? then [Text(t.notice.value)] else [];
    match t.out
    case Raised(KeyboardInterrupt) => (shown, t.messages, Some(KeyboardInterrupt))
    case Raised(e) => (shown + [ErrorLine(e)], t.messages, None)
    case Returned(_) => (shown, t.messages, None)
  }

  /** The exit code of an interrupted run, of a failed one, and of a run that ends normally. */
  function ExitCode(raised: Option<Exc>): int {
    if raised == Some(KeyboardInterrupt) then 130 else if raised.Some? then 1 else 0
  }

  /**
   * What the settings mode raised.  As written, `main` imports
   * `run_configuration_dialog` from `aiebash.config_manager`, which does not
   * define it, so the import raises ImportError before anything runs; as
   * intended, `configure` is what the dialog itself raised, if anything.
   */
  function Configured(b: Binding, configure: Option<Exc>): Option<Exc> {
    match b
    case AsWritten => Some(PyError(ImportError, "cannot import name 'run_configuration_dialog'"))
    case Intended => configure
  }

  /**
   * `main`: what it returns, what it printed and the client's transcript
   * after it.  `configure` is what `run_configuration_dialog` raised, if
   * anything, once it is imported.
   */
  function MainRun(b: Binding, extract: string -> seq<string>, messages: seq<Message>, args: Args, configure: Option<Exc>,
                   response: Result<string>, turns: seq<Turn>, connect: Connect, items: seq<StreamItem>)
    : (int, seq<Out>, seq<Message>)
  {
    if args.settings then (ExitCode(Configured(b, configure)), [], messages)
    else
      var prompt := Strip(Join(args.prompt, " "));
      if args.dialog then
        var (st, raised) := Dialog(b, extract, messages, prompt, response, turns);
        (ExitCode(raised), st.shown, st.messages)
      else if prompt == "" then (1, [Help], messages)
      else
        var (shown, ms, raised) := SingleQuery(messages, prompt, connect, items);
        (ExitCode(raised), shown, ms)
  }

  /**
   * The settings mode returns 1 as written, since its import fails; as
   * intended it returns 0, or 1 when configuration fails; a
   * single query without a prompt prints the help and returns 1; Ctrl-C
   * that escapes returns 130; every other run returns 0.
   */
  lemma MainExitCodes(b: Binding, extract: string -> seq<string>, messages: seq<Message>, args: Args,
                      configure: Option<Exc>, response: Result<string>, turns: seq<Turn>, connect: Connect,
                      items: seq<StreamItem>)
    ensures var (code, shown, _) := MainRun(b, extract, messages, args, configure, response, turns, connect, items);
      && code in {0, 1, 130}
      && (args.settings && b == AsWritten ==> code == 1 && shown == [])
      && (args.settings && b == Intended ==>
            code == (if configure.None? then 0 else if configure == Some(KeyboardInterrupt) then 130 else 1))
      && (!args.settings && !args.dialog && Strip(Join(args.prompt, " ")) == "" ==> code == 1 && shown == [Help])
      && (code == 1 ==> args.settings || (!args.dialog && Strip(Join(args.prompt, " ")) == ""))
  {
    var r := MainRun(b, extract, messages, args, configure, response, turns, connect, items);
    if !args.settings {
      var prompt := Strip(Join(args.prompt, " "));
      if args.dialog {
        var d := Dialog(b, extract, messages, prompt, response, turns);
        DialogEscapes(b, extract, messages, prompt, response, turns);
        assert r.0 == ExitCode(d.1);
      } else if prompt != "" {
        var q := SingleQuery(messages, prompt, connect, items);
        assert r.0 == ExitCode(q.2);
      }
    }
  }

  /**
   * The settings mode as written: even when the configuration dialog would
   * succeed, the failing import makes `main` return 1, where the intended
   * reading returns 0.
   */
  lemma SettingsAsWrittenFails(extract: string -> seq<string>, messages: seq<Message>, args: Args,
                               response: Result<string>, turns: seq<Turn>, connect: Connect, items: seq<StreamItem>)
    requires args.settings
    ensures MainRun(AsWritten, extract, messages, args, None, response, turns, connect, items).0 == 1
    ensures MainRun(Intended, extract, messages, args, None, response, turns, connect, items).0 == 0
  {
  }

  // ---- the imperative loop over the client object ---------------------------

  /** `run_dialog_mode` over the client: the initial prompt, then the loop. */
  method RunDialogMode(client: AiebashChat.OpenRouterChat, b: Binding, extract: string -> seq<string>, prompt: string,
                       response: Result<string>, turns: seq<Turn>) returns (blocks: seq<string>, shown: seq<Out>, raised: Option<Exc>)
    modifies client
    ensures (State(blocks, shown, client.messages), raised) == Dialog(b, extract, old(client.messages), prompt, response, turns)
  {
    blocks, shown, raised := InitialPrompt(client, b, extract, prompt, response);
    if raised.None? {
      blocks, shown := DialogLoop(client, b, extract, blocks, shown, turns);
    }
  }

  /** The loop of `run_dialog_mode` over the client, pass by pass. */
  method DialogLoop(client: AiebashChat.OpenRouterChat, b: Binding, extract: string -> seq<string>,
                    blocks: seq<string>, shown: seq<Out>, turns: seq<Turn>) returns (blocks': seq<string>, shown': seq<Out>)
    modifies client
    ensures State(blocks', shown', client.messages) == Run(b, extract, State(blocks, shown, old(client.messages)), turns)
  {
    blocks', shown' := blocks, shown;
    ghost var last := Run(b, extract, State(blocks, shown, client.messages), turns);
    var k := 0;
    while k < |turns|
      invariant 0 <= k <= |turns|
      invariant Run(b, extract, State(blocks', shown', client.messages), turns[k..]) == last
      decreases |turns| - k
    {
      assert turns[k..][1..] == turns[k + 1..];
      var leave;
      blocks', shown', leave := DialogPass(client, b, extract, blocks', shown', turns[k]);
      if leave {
        return;
      }
      k := k + 1;
    }
  }

  /** The initial prompt over the client. */
  method InitialPrompt(client: AiebashChat.OpenRouterChat, b: Binding, extract: string -> seq<string>, prompt: string,
                       response: Result<string>) returns (blocks: seq<string>, shown: seq<Out>, raised: Option<Exc>)
    modifies client
    ensures (State(blocks, shown, client.messages), raised) == Initial(b, extract, State([], [], old(client.messages)), prompt, response)
  {
    blocks, shown, raised := [], [], None;
    if prompt != "" {
      shown := shown + [Text(PhraseText(InitialPrefix) + prompt)];
      blocks, shown, raised := AskClient(client, b, extract, blocks, shown, prompt, response);
      if raised == Some(KeyboardInterrupt) {
        return;
      }
      if raised.Some? {
        shown := shown + [ErrorLine(raised.value)];
      }
      shown, raised := shown + [Text("")], None;
    }
  }

  /** One pass of the loop over the client. */
  method DialogPass(client: AiebashChat.OpenRouterChat, b: Binding, extract: string -> seq<string>,
                    blocks: seq<string>, shown: seq<Out>, t: Turn)
    returns (blocks': seq<string>, shown': seq<Out>, leave: bool)
    modifies client
    ensures (State(blocks', shown', client.messages), leave) == Step(b, extract, State(blocks, shown, old(client.messages)), t)
  {
    blocks', shown', leave := blocks, shown, false;
    if t.input.Err? {
      if t.input.exc == KeyboardInterrupt {
        shown', leave := shown + [Text(PhraseText(Interrupted))], true;
      } else {
        shown' := shown + [ErrorLine(t.input.exc)];
      }
      return;
    }
    var u := Strip(t.input.value);
    match KindOf(u)
    case ExitWord =>
      shown', leave := shown + [Text(PhraseText(Farewell))], true;
    case Empty =>
    case Number(n) =>
      if 1 <= n <= |blocks| {
        shown' := shown + [RunBlock(blocks, n), Text("")];
      } else {
        shown' := shown + [MissingBlockLine(u)];
      }
    case Question =>
      var raised;
      blocks', shown', raised := AskClient(client, b, extract, blocks, shown + [Text(PhraseText(AiPrefix))], u, t.response);
      if raised == Some(KeyboardInterrupt) {
        shown', leave := shown' + [Text(PhraseText(Interrupted))], true;
      } else if raised.Some? {
        shown' := shown' + [ErrorLine(raised.value)];
      } else {
        shown' := shown' + [Text("")];
      }
  }

  /** `chat_client.ask(u)` and the unpacking of what it returns. */
  method AskClient(client: AiebashChat.OpenRouterChat, b: Binding, extract: string -> seq<string>,
                   blocks: seq<string>, shown: seq<Out>, u: string, response: Result<string>)
    returns (blocks': seq<string>, shown': seq<Out>, raised: Option<Exc>)
    modifies client
    ensures (State(blocks', shown', client.messages), raised) == Asked(b, extract, State(blocks, shown, old(client.messages)), u, response)
  {
    var out, notice := client.Ask(u, response);
    blocks', shown', raised := blocks, shown + if notice.Some? then [Text(notice.value)] else [], None;
    if out.Raised? {
      raised := Some(out.exc);
      return;
    }
    var unpacked := Unpacked(b, extract, out.reply);
    if unpacked.Err? {
      raised := Some(unpacked.exc);
      return;
    }
    blocks', shown' := unpacked.value.1, shown' + [Markdown(unpacked.value.0)];
  }

  /** `main` over the client; `configure` stands for `run_configuration_dialog` once imported. */
  method RunMain(client: AiebashChat.OpenRouterChat, b: Binding, extract: string -> seq<string>, args: Args,
                 configure: Option<Exc>, response: Result<string>, turns: seq<Turn>, connect: Connect, items: seq<StreamItem>)
    returns (code: int, shown: seq<Out>)
    modifies client
    ensures (code, shown, client.messages) == MainRun(b, extract, old(client.messages), args, configure, response, turns, connect, items)
  {
    if args.settings {
      return ExitCode(Configured(b, configure)), [];
    }
    var prompt := Strip(Join(args.prompt, " "));
    if args.dialog {
      var blocks, raised;
      blocks, shown, raised := RunDialogMode(client, b, extract, prompt, response, turns);
      return ExitCode(raised), shown;
    }
    if prompt == "" {
      return 1, [Help];
    }
    code, shown := RunSingleQuery(client, prompt, connect, items);
  }

  /** `run_single_query` over the client. */
  method RunSingleQuery(client: AiebashChat.OpenRouterChat, prompt: string, connect: Connect, items: seq<StreamItem>)
    returns (code: int, shown: seq<Out>)
    modifies client
    ensures var q := SingleQuery(old(client.messages), prompt, connect, items);
      code == ExitCode(q.2) && shown == q.0 && client.messages == q.1
  {
    var out, notice := client.AskStream(prompt, connect, items);
    shown := if notice.Some? then [Text(notice.value)] else [];
    code := 0;
    if out.Raised? {
      if out.exc == KeyboardInterrupt {
        code := 130;
      } else {
        shown := shown + [ErrorLine(out.exc)];
      }
    }
  }
}
