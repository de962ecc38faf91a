/**
 * The command-line front end: the system text handed to the client, the
 * single-query mode, the interactive dialog loop with its one-time
 * numbering instruction and its memory of the last answer's code blocks,
 * and the exit code of `main`.
 *
 * The dialog calls the client with a keyword argument the client does not
 * declare (`educational_content=`), calls a method it does not have
 * (`ask`) in non-streaming mode, and builds it with `system_content=`
 * where it expects `system_message`.  `Binding` chooses between those
 * calls as written and the calls evidently intended.
 */
module Cli {
  import opened Base
  import opened Text
  import opened Prompts

  // ---- the system text ------------------------------------------------------

  /** The JSON instruction's text starts with a printable character. */
  lemma JsonRuleStarts()
    ensures var j := FixedText(JsonRule); j != [] && !IsSpace(j[0])
  {
    var ps := Phrases(JsonRule);
    assert ps[0][0] == 'Y';
    JoinEnds(ps, " ");
  }

  /**
   * `get_system_content`: the user's text, the JSON instruction followed by
   * a space when `json_mode` is on, and the persona followed by a space,
   * joined by single spaces and stripped.
   */
  function SystemContent(userContent: string, jsonMode: bool): string {
    var json := if jsonMode then FixedText(JsonRule) + " " else "";
    var main := FixedText(Persona) + " ";
    Strip(userContent + " " + json + " " + main)
  }

  /** Stripping a text that ends in the persona and one space. */
  lemma StripEndingWith(w: string, p: string)
    requires p != [] && !IsSpace(p[0]) && !IsSpace(p[|p| - 1])
    ensures Strip(w + p + " ") == LStrip(w) + p
  {
    StripAround(w, p, " ");
    assert RStrip(" ") == "";
    assert LStrip(w) + p + "" == LStrip(w) + p;
  }

  /** The stripping step of `get_system_content`, for any instruction and persona texts. */
  lemma StripWithInstruction(u: string, j: string, p: string)
    requires j != [] && !IsSpace(j[0])
    requires p != [] && !IsSpace(p[0]) && !IsSpace(p[|p| - 1])
    ensures Strip(u + " " + (j + " ") + " " + (p + " ")) == LStrip(u + " ") + (j + "  ") + p
  {
    var w := (u + " ") + (j + "  ");
    assert u + " " + (j + " ") + " " + (p + " ") == w + p + " ";
    StripEndingWith(w, p);
    LStripConcat(u + " ", j + "  ");
  }

  lemma StripWithoutInstruction(u: string, p: string)
    requires p != [] && !IsSpace(p[0]) && !IsSpace(p[|p| - 1])
    ensures Strip(u + " " + "" + " " + (p + " ")) == LStrip(u + "  ") + p
  {
    var w := u + "  ";
    assert u + " " + "" + " " + (p + " ") == w + p + " ";
    StripAround(w, p, " ");
    assert RStrip(" ") == "";
  }

  /**
   * The system text ends with the persona; in JSON mode the instruction
   * comes just before it, two spaces apart; the user's text keeps
   * everything but its leading white space.
   */
  lemma SystemContentShape(userContent: string, jsonMode: bool)
    ensures jsonMode ==>
      SystemContent(userContent, jsonMode)
        == LStrip(userContent + " ") + (FixedText(JsonRule) + "  ") + FixedText(Persona)
    ensures !jsonMode ==>
      SystemContent(userContent, jsonMode) == LStrip(userContent + "  ") + FixedText(Persona)
  {
    PersonaEnds();
    if jsonMode {
      JsonRuleStarts();
      StripWithInstruction(userContent, FixedText(JsonRule), FixedText(Persona));
    } else {
      StripWithoutInstruction(userContent, FixedText(Persona));
    }
  }

  /** Without user text and JSON mode, the system text is the persona alone. */
  lemma SystemContentDefault()
    ensures SystemContent("", false) == FixedText(Persona)
  {
    SystemContentShape("", false);
    assert LStrip("  ") == "";
  }

  // ---- calling the client ---------------------------------------------------

  /** `STREAM_OUTPUT_MODE` */
  datatype Mode = Streaming | Buffered

  const EducationalKeywordError: Exc :=
    PyError(TypeError, "OpenRouterClient.ask_stream() got an unexpected keyword argument 'educational_content'")
  const NoAskError: Exc :=
    PyError(AttributeError, "'OpenRouterClient' object has no attribute 'ask'")
  const SystemContentKeywordError: Exc :=
    PyError(TypeError, "OpenRouterClient.__init__() got an unexpected keyword argument 'system_content'")

  /**
   * What a query call raises before it reaches the client: `ask` does not
   * exist, and `ask_stream` does not take `educational_content`.
   */
  function CallFailure(b: Binding, mode: Mode, withEducational: bool): (r: Option<Exc>)
    ensures r.None? <==> b == Intended || (mode == Streaming && !withEducational)
  {
    match (b, mode)
    case (Intended, _) => None
    case (AsWritten, Buffered) => Some(NoAskError)
    case (AsWritten, Streaming) => if withEducational then Some(EducationalKeywordError) else None
  }

  /** The outcome of a query call, given what the client itself would return. */
  function CallOutcome(b: Binding, mode: Mode, withEducational: bool, reply: Result<string>): Result<string> {
    match CallFailure(b, mode, withEducational)
    case Some(e) => Err(e)
    case None => reply
  }

  // ---- what is printed ------------------------------------------------------

  /** One thing the dialog shows, or hands to the command executor. */
  datatype Out =
    | Text(text: string)
    | Blank
    | Markdown(reply: string)
    /** `connection_error(e)`, whose wording is not part of this model */
    | ConnectionError(exc: Exc)
    /** `execute_and_handle_result(console, cmd)` */
    | ExecuteCommand(cmd: string)
    /** `run_code_block(console, blocks, idx)` */
    | RunBlock(blocks: seq<string>, idx: nat)

  /** `run_single_query`: every exception but Ctrl-C is shown as a connection error. */
  function SingleQuery(b: Binding, mode: Mode, reply: Result<string>): (r: (seq<Out>, Option<Exc>))
    ensures r.1.Some? ==> r.1.value == KeyboardInterrupt
    ensures r.1.None? && r.0 != [] ==> |r.0| == 1 && (r.0[0].Markdown? || r.0[0].ConnectionError?)
    ensures b == AsWritten && mode == Buffered ==> r == ([ConnectionError(NoAskError)], None)
  {
    match CallOutcome(b, mode, false, reply)
    case Ok(text) => (if mode == Buffered then [Markdown(text)] else [], None)
    case Err(KeyboardInterrupt) => ([], Some(KeyboardInterrupt))
    case Err(e) => ([ConnectionError(e)], None)
  }

  // ---- the dialog's decisions -----------------------------------------------

  /** What the dialog does with one line of input. */
  datatype Action =
    | Ignore
    | Leave
    | Execute(cmd: string)
    | SkipEmptyCommand
    | SelectBlock(idx: nat)
    | NoSuchBlock
    | Ask(prompt: string)

  predicate IsExitWord(line: string) { Lower(line) in ["exit", "quit", "q"] }

  /** The checks of the dialog loop, in the order the code makes them. */
  function Dispatch(line: string, available: nat): Action {
    if line == "" then Ignore
    else if IsExitWord(line) then Leave
    else if line[0] == '.' then
      (var cmd := Strip(line[1..]); if cmd != "" then Execute(cmd) else SkipEmptyCommand)
    else if IsDigits(line) then
      (var n := DigitsValue(line); if 1 <= n <= available then SelectBlock(n) else NoSuchBlock)
    else Ask(line)
  }

  /**
   * Empty input is ignored; an exit word (in any case) leaves; a leading
   * dot runs the stripped rest or skips an empty one; a number selects an
   * available block or is reported missing; only what is left goes to the
   * model, unchanged.
   */
  lemma DispatchOrder(line: string, available: nat)
    ensures Dispatch(line, available) == Ignore <==> line == ""
    ensures Dispatch(line, available) == Leave <==> line != "" && IsExitWord(line)
    ensures (Dispatch(line, available).Execute? || Dispatch(line, available) == SkipEmptyCommand)
        <==> line != "" && !IsExitWord(line) && line[0] == '.'
    ensures Dispatch(line, available).Execute? ==>
      Dispatch(line, available).cmd == Strip(line[1..]) && Dispatch(line, available).cmd != ""
    ensures (Dispatch(line, available).SelectBlock? || Dispatch(line, available) == NoSuchBlock)
        <==> line != "" && !IsExitWord(line) && line[0] != '.' && IsDigits(line)
    ensures Dispatch(line, available).SelectBlock? ==>
      IsDigits(line) && Dispatch(line, available).idx == DigitsValue(line) && 1 <= DigitsValue(line) <= available
    ensures Dispatch(line, available).Ask? <==>
      line != "" && !IsExitWord(line) && line[0] != '.' && !IsDigits(line)
    ensures Dispatch(line, available).Ask? ==> Dispatch(line, available).prompt == line
  {
  }

  /** "Q", "Exit" and "QUIT" leave like their lower-case forms. */
  lemma ExitWordsAnyCase()
    ensures Dispatch("Q", 0) == Leave && Dispatch("Exit", 0) == Leave && Dispatch("QUIT", 0) == Leave
  {
    assert Lower("Q") == "q";
    assert Lower("Exit") == "exit";
    assert Lower("QUIT") == "quit";
  }

  // ---- the dialog's state ---------------------------------------------------

  /** A query that reached the client, the instruction sent with it, and its reply if one came. */
  datatype Query = Query(prompt: string, educational: seq<Message>, reply: Option<string>)

  /**
   * The dialog's memory: the last answer's code blocks, the global
   * `EDUCATIONAL_CONTENT`, what was shown and the queries sent.
   */
  datatype State = State(lastCodeBlocks: seq<string>, educational: seq<Message>, shown: seq<Out>, queries: seq<Query>)

  /** One turn of the loop: what `get_input` gave, and what the client would answer. */
  datatype Turn = Turn(input: Result<string>, reply: Result<string>)

  /** `EDUCATIONAL_CONTENT` as the module defines it. */
  function EducationalContent(): seq<Message> {
    [UserMessage(FixedText(CliNumbering))]
  }

  /**
   * A query call: recorded if it reached the client, its answer kept as the
   * last code blocks and the one-time instruction cleared; an error other
   * than Ctrl-C is shown.  The outcome of the call is returned with it.
   */
  function AfterCall(b: Binding, mode: Mode, extract: string -> seq<string>, st: State, prompt: string,
                     reply: Result<string>, showMarkdown: bool): (State, Result<string>)
  {
    var outcome := CallOutcome(b, mode, true, reply);
    var sent := if CallFailure(b, mode, true).None?
      then st.queries + [Query(prompt, st.educational, if outcome.Ok? then Some(outcome.value) else None)]
      else st.queries;
    match outcome
    case Ok(text) =>
      (State(extract(text), [], if showMarkdown then st.shown + [Markdown(text)] else st.shown, sent), outcome)
    case Err(KeyboardInterrupt) => (st.(queries := sent), outcome)
    case Err(e) => (st.(queries := sent, shown := st.shown + [ConnectionError(e)]), outcome)
  }

  /**
   * The initial prompt, if any: its answer is shown as Markdown in both
   * modes; Ctrl-C escapes the dialog; otherwise a blank line follows.
   */
  function Initial(b: Binding, mode: Mode, extract: string -> seq<string>, st: State, prompt: string,
                   reply: Result<string>): (State, Option<Exc>)
  {
    if prompt == "" then (st, None)
    else
      var called := AfterCall(b, mode, extract, st, prompt, reply, true);
      if called.1 == Err(KeyboardInterrupt) then (called.0, Some(KeyboardInterrupt))
      else (called.0.(shown := called.0.shown + [Blank]), None)
  }

  /** A line sent to the model: a blank line follows an answer; Ctrl-C leaves the loop. */
  function AskStep(b: Binding, mode: Mode, extract: string -> seq<string>, st: State, prompt: string,
                   reply: Result<string>): (State, bool)
  {
    var called := AfterCall(b, mode, extract, st, prompt, reply, mode == Buffered);
    if called.1.Ok? then (called.0.(shown := called.0.shown + [Blank]), false)
    else (called.0, called.1 == Err(KeyboardInterrupt))
  }

  /** One pass of the loop; the flag says whether the loop is left. */
  function Step(b: Binding, mode: Mode, extract: string -> seq<string>, st: State, t: Turn): (State, bool) {
    match t.input
    case Err(KeyboardInterrupt) => (st, true)
    case Err(e) => (st.(shown := st.shown + [ConnectionError(e)]), false)
    case Ok(line) =>
      match Dispatch(line, |st.lastCodeBlocks|)
      case Ignore => (st, false)
      case Leave => (st, true)
      case Execute(cmd) =>
        (st.(shown := st.shown + [Text("[dim]>>> Executing command:[/dim] " + cmd), ExecuteCommand(cmd), Blank]), false)
      case SkipEmptyCommand =>
        (st.(shown := st.shown + [Text("[dim]Empty command after '.' - skipping.[/dim]")]), false)
      case SelectBlock(n) => (st.(shown := st.shown + [RunBlock(st.lastCodeBlocks, n), Blank]), false)
      case NoSuchBlock => (st.(shown := st.shown + [Text("[dim]Code block #" + line + " not found.[/dim]")]), false)
      case Ask(prompt) => AskStep(b, mode, extract, st, prompt, t.reply)
  }

  /** The loop over the given turns, until one of them leaves it. */
  function Run(b: Binding, mode: Mode, extract: string -> seq<string>, st: State, turns: seq<Turn>): State
    decreases |turns|
  {
    if turns == [] then st
    else
      var (st', leave) := Step(b, mode, extract, st, turns[0]);
      if leave then st' else Run(b, mode, extract, st', turns[1..])
  }

  /** `run_dialog_mode`: the initial prompt, then the loop; Ctrl-C during the initial prompt escapes. */
  function Dialog(b: Binding, mode: Mode, extract: string -> seq<string>, educational: seq<Message>,
                  prompt: string, reply: Result<string>, turns: seq<Turn>): (State, Option<Exc>)
  {
    var (st, raised) := Initial(b, mode, extract, State([], educational, [], []), prompt, reply);
    if raised.Some? then (st, raised) else (Run(b, mode, extract, st, turns), None)
  }

  // ---- what the dialog remembers --------------------------------------------

  /** The last reply among the queries, if any was answered. */
  function LastReply(qs: seq<Query>): Option<string> {
    if qs == [] then None
    else if qs[|qs| - 1].reply.Some? then qs[|qs| - 1].reply
    else LastReply(qs[..|qs| - 1])
  }

  /**
   * The one-time instruction `edu0` goes with every query up to and
   * including the first one answered, and with none after it; it is
   * cleared once an answer came; the remembered code blocks are those of
   * the last answer, and none before any answer.
   */
  ghost predicate Remembers(edu0: seq<Message>, extract: string -> seq<string>, st: State) {
    && (forall i :: 0 <= i < |st.queries| ==>
          st.queries[i].educational == (if LastReply(st.queries[..i]).Some? then [] else edu0))
    && st.educational == (if LastReply(st.queries).Some? then [] else edu0)
    && st.lastCodeBlocks == (if LastReply(st.queries).Some? then extract(LastReply(st.queries).value) else [])
  }

  lemma SameMemory(edu0: seq<Message>, extract: string -> seq<string>, st: State, st': State)
    requires Remembers(edu0, extract, st)
    requires st'.queries == st.queries && st'.educational == st.educational && st'.lastCodeBlocks == st.lastCodeBlocks
    ensures Remembers(edu0, extract, st')
  {
  }

  lemma AppendQueryRemembers(edu0: seq<Message>, extract: string -> seq<string>, st: State, q: Query, st': State)
    requires Remembers(edu0, extract, st)
    requires q.educational == st.educational && st'.queries == st.queries + [q]
    requires st'.educational == (if q.reply.Some? then [] else st.educational)
    requires st'.lastCodeBlocks == (if q.reply.Some? then extract(q.reply.value) else st.lastCodeBlocks)
    ensures Remembers(edu0, extract, st')
  {
    var qs, qs' := st.queries, st'.queries;
    assert qs'[..|qs|] == qs;
    assert LastReply(qs') == if q.reply.Some? then q.reply else LastReply(qs);
    forall i | 0 <= i < |qs'|
      ensures qs'[i].educational == (if LastReply(qs'[..i]).Some? then [] else edu0)
    {
      if i < |qs| {
        assert qs'[..i] == qs[..i] && qs'[i] == qs[i];
      } else {
        assert qs'[..i] == qs && qs'[i] == q;
      }
    }
  }

  lemma AfterCallRemembers(b: Binding, mode: Mode, extract: string -> seq<string>, edu0: seq<Message>, st: State,
                           prompt: string, reply: Result<string>, showMarkdown: bool)
    requires Remembers(edu0, extract, st)
    ensures Remembers(edu0, extract, AfterCall(b, mode, extract, st, prompt, reply, showMarkdown).0)
    ensures b == AsWritten ==> AfterCall(b, mode, extract, st, prompt, reply, showMarkdown).0.queries == st.queries
  {
    var st' := AfterCall(b, mode, extract, st, prompt, reply, showMarkdown).0;
    var outcome := CallOutcome(b, mode, true, reply);
    if CallFailure(b, mode, true).Some? {
      SameMemory(edu0, extract, st, st');
    } else {
      var q := Query(prompt, st.educational, if outcome.Ok? then Some(outcome.value) else None);
      AppendQueryRemembers(edu0, extract, st, q, st');
    }
  }

  lemma InitialRemembers(b: Binding, mode: Mode, extract: string -> seq<string>, edu0: seq<Message>, st: State,
                         prompt: string, reply: Result<string>)
    requires Remembers(edu0, extract, st)
    ensures Remembers(edu0, extract, Initial(b, mode, extract, st, prompt, reply).0)
    ensures b == AsWritten ==> Initial(b, mode, extract, st, prompt, reply).0.queries == st.queries
  {
    if prompt != "" {
      AfterCallRemembers(b, mode, extract, edu0, st, prompt, reply, true);
    }
  }

  lemma AskStepRemembers(b: Binding, mode: Mode, extract: string -> seq<string>, edu0: seq<Message>, st: State,
                         prompt: string, reply: Result<string>)
    requires Remembers(edu0, extract, st)
    ensures Remembers(edu0, extract, AskStep(b, mode, extract, st, prompt, reply).0)
    ensures b == AsWritten ==> AskStep(b, mode, extract, st, prompt, reply).0.queries == st.queries
  {
    AfterCallRemembers(b, mode, extract, edu0, st, prompt, reply, mode == Buffered);
    var called := AfterCall(b, mode, extract, st, prompt, reply, mode == Buffered).0;
    SameMemory(edu0, extract, called, AskStep(b, mode, extract, st, prompt, reply).0);
  }

  lemma StepRemembers(b: Binding, mode: Mode, extract: string -> seq<string>, edu0: seq<Message>, st: State, t: Turn)
    requires Remembers(edu0, extract, st)
    ensures Remembers(edu0, extract, Step(b, mode, extract, st, t).0)
    ensures b == AsWritten ==> Step(b, mode, extract, st, t).0.queries == st.queries
  {
    var st' := Step(b, mode, extract, st, t).0;
    if t.input.Ok? && Dispatch(t.input.value, |st.lastCodeBlocks|).Ask? {
      var prompt := Dispatch(t.input.value, |st.lastCodeBlocks|).prompt;
      StepAsks(b, mode, extract, st, t);
      AskStepRemembers(b, mode, extract, edu0, st, prompt, t.reply);
    } else {
      StepKeepsMemory(b, mode, extract, st, t);
      SameMemory(edu0, extract, st, st');
    }
  }

  /** A line that asks the model is one query step. */
  lemma StepAsks(b: Binding, mode: Mode, extract: string -> seq<string>, st: State, t: Turn)
    requires t.input.Ok? && Dispatch(t.input.value, |st.lastCodeBlocks|).Ask?
    ensures Step(b, mode, extract, st, t) == AskStep(b, mode, extract, st, Dispatch(t.input.value, |st.lastCodeBlocks|).prompt, t.reply)
  {
  }

  /** Every other pass leaves the queries, the instruction and the blocks alone. */
  lemma StepKeepsMemory(b: Binding, mode: Mode, extract: string -> seq<string>, st: State, t: Turn)
    requires !(t.input.Ok? && Dispatch(t.input.value, |st.lastCodeBlocks|).Ask?)
    ensures var st' := Step(b, mode, extract, st, t).0;
      st'.queries == st.queries && st'.educational == st.educational && st'.lastCodeBlocks == st.lastCodeBlocks
  {
  }

  lemma {:induction false} RunRemembers(b: Binding, mode: Mode, extract: string -> seq<string>, edu0: seq<Message>,
                                        st: State, turns: seq<Turn>)
    requires Remembers(edu0, extract, st)
    ensures Remembers(edu0, extract, Run(b, mode, extract, st, turns))
    ensures b == AsWritten ==> Run(b, mode, extract, st, turns).queries == st.queries
    decreases |turns|
  {
    if turns != [] {
      StepRemembers(b, mode, extract, edu0, st, turns[0]);
      var (st', leave) := Step(b, mode, extract, st, turns[0]);
      if !leave {
        RunRemembers(b, mode, extract, edu0, st', turns[1..]);
      }
    }
  }

  /**
   * With the calls as intended: the instruction goes with the first query
   * and with every later one until a query is answered, then never again;
   * the code blocks offered for selection are those of the last answer.
   */
  lemma DialogOneShot(mode: Mode, extract: string -> seq<string>, prompt: string, reply: Result<string>, turns: seq<Turn>)
    ensures var st := Dialog(Intended, mode, extract, EducationalContent(), prompt, reply, turns).0;
      && (forall i :: 0 <= i < |st.queries| ==>
            st.queries[i].educational == (if LastReply(st.queries[..i]).Some? then [] else EducationalContent()))
      && st.educational == (if LastReply(st.queries).Some? then [] else EducationalContent())
      && st.lastCodeBlocks == (if LastReply(st.queries).Some? then extract(LastReply(st.queries).value) else [])
  {
    var st0 := State([], EducationalContent(), [], []);
    InitialRemembers(Intended, mode, extract, EducationalContent(), st0, prompt, reply);
    var (st1, raised) := Initial(Intended, mode, extract, st0, prompt, reply);
    if raised.None? {
      RunRemembers(Intended, mode, extract, EducationalContent(), st1, turns);
    }
  }

  /**
   * As written, no query ever reaches the client: the instruction is never
   * cleared and no code block is ever remembered, so every number typed is
   * reported missing.
   */
  lemma DialogAsWritten(mode: Mode, extract: string -> seq<string>, prompt: string, reply: Result<string>, turns: seq<Turn>)
    ensures var st := Dialog(AsWritten, mode, extract, EducationalContent(), prompt, reply, turns).0;
      st.queries == [] && st.educational == EducationalContent() && st.lastCodeBlocks == []
  {
    var st0 := State([], EducationalContent(), [], []);
    InitialRemembers(AsWritten, mode, extract, EducationalContent(), st0, prompt, reply);
    var (st1, raised) := Initial(AsWritten, mode, extract, st0, prompt, reply);
    if raised.None? {
      RunRemembers(AsWritten, mode, extract, EducationalContent(), st1, turns);
    }
  }

  /** As written, a line meant for the model only shows the error of the call. */
  lemma AskAsWritten(mode: Mode, extract: string -> seq<string>, st: State, line: string, reply: Result<string>)
    requires Dispatch(line, |st.lastCodeBlocks|).Ask?
    ensures Step(AsWritten, mode, extract, st, Turn(Ok(line), reply))
      == (st.(shown := st.shown + [ConnectionError(if mode == Streaming then EducationalKeywordError else NoAskError)]), false)
  {
  }

  /** A number never reaches the model: it runs an available block, or is reported missing. */
  lemma NumberTurn(b: Binding, mode: Mode, extract: string -> seq<string>, st: State, line: string, reply: Result<string>)
    requires IsDigits(line)
    ensures var (st', leave) := Step(b, mode, extract, st, Turn(Ok(line), reply));
      && !leave && st'.queries == st.queries && st'.educational == st.educational
      && st'.lastCodeBlocks == st.lastCodeBlocks
      && (1 <= DigitsValue(line) <= |st.lastCodeBlocks| ==>
            st'.shown == st.shown + [RunBlock(st.lastCodeBlocks, DigitsValue(line)), Blank])
      && (!(1 <= DigitsValue(line) <= |st.lastCodeBlocks|) ==>
            st'.shown == st.shown + [Text("[dim]Code block #" + line + " not found.[/dim]")])
  {
    assert line[0] != '.' by { assert IsDigitChar(line[0]); }
    assert !IsExitWord(line) by {
      var low := Lower(line);
      assert IsDigitChar(line[0]);
      assert low[0] == line[0];
    }
  }

  // ---- the loop as the code runs it -----------------------------------------

  /** The module-level state the dialog reassigns. */
  class Session {
    /** The global `EDUCATIONAL_CONTENT` */
    var educational: seq<Message>

    constructor()
      ensures educational == EducationalContent()
    {
      educational := EducationalContent();
    }

    /**
     * `run_dialog_mode`: the initial prompt, then the loop over the turns
     * until one leaves it; what is shown, the queries sent, the last code
     * blocks and the global instruction end as `Dialog` says.
     */
    method RunDialogMode(b: Binding, mode: Mode, extract: string -> seq<string>, prompt: string,
                         reply: Result<string>, turns: seq<Turn>)
      returns (shown: seq<Out>, queries: seq<Query>, lastCodeBlocks: seq<string>, raised: Option<Exc>)
      modifies this
      ensures var (st, r) := Dialog(b, mode, extract, old(educational), prompt, reply, turns);
        && shown == st.shown && queries == st.queries && lastCodeBlocks == st.lastCodeBlocks
        && educational == st.educational && raised == r
    {
      lastCodeBlocks, shown, queries, raised := [], [], [], None;
      if prompt != "" {
        var outcome := CallOutcome(b, mode, true, reply);
        if CallFailure(b, mode, true).None? {
          queries := queries + [Query(prompt, educational, if outcome.Ok? then Some(outcome.value) else None)];
        }
        match outcome {
          case Ok(text) =>
            shown := shown + [Markdown(text)];
            educational := [];
            lastCodeBlocks := extract(text);
          case Err(e) =>
            if e == KeyboardInterrupt {
              raised := Some(KeyboardInterrupt);
              return;
            }
            shown := shown + [ConnectionError(e)];
        }
        shown := shown + [Blank];
      }
      ghost var final := Run(b, mode, extract, State(lastCodeBlocks, educational, shown, queries), turns);
      var i := 0;
      var leave := false;
      while i < |turns| && !leave
        invariant 0 <= i <= |turns|
        invariant leave ==> State(lastCodeBlocks, educational, shown, queries) == final
        invariant !leave ==> Run(b, mode, extract, State(lastCodeBlocks, educational, shown, queries), turns[i..]) == final
        decreases |turns| - i, !leave
      {
        ghost var before := State(lastCodeBlocks, educational, shown, queries);
        var t := turns[i];
        lastCodeBlocks, shown, queries, leave := TakeTurn(b, mode, extract, t, lastCodeBlocks, shown, queries);
        assert turns[i..][1..] == turns[i + 1..];
        i := i + 1;
      }
    }

    /** One turn of the loop: the line read, then what it leads to, as `Step` says. */
    method TakeTurn(b: Binding, mode: Mode, extract: string -> seq<string>, t: Turn,
                    lastCodeBlocks0: seq<string>, shown0: seq<Out>, queries0: seq<Query>)
      returns (lastCodeBlocks: seq<string>, shown: seq<Out>, queries: seq<Query>, leave: bool)
      modifies this
      ensures (State(lastCodeBlocks, educational, shown, queries), leave)
        == Step(b, mode, extract, State(lastCodeBlocks0, old(educational), shown0, queries0), t)
    {
      lastCodeBlocks, shown, queries, leave := lastCodeBlocks0, shown0, queries0, false;
      match t.input {
        case Err(e) =>
          if e == KeyboardInterrupt {
            leave := true;
          } else {
            shown := shown + [ConnectionError(e)];
          }
        case Ok(line) =>
          var action := Dispatch(line, |lastCodeBlocks|);
          match action {
            case Ignore =>
            case Leave =>
              leave := true;
            case Execute(cmd) =>
              shown := shown + [Text("[dim]>>> Executing command:[/dim] " + cmd), ExecuteCommand(cmd), Blank];
            case SkipEmptyCommand =>
              shown := shown + [Text("[dim]Empty command after '.' - skipping.[/dim]")];
            case SelectBlock(n) =>
              shown := shown + [RunBlock(lastCodeBlocks, n), Blank];
            case NoSuchBlock =>
              shown := shown + [Text("[dim]Code block #" + line + " not found.[/dim]")];
            case Ask(query) =>
              var outcome := CallOutcome(b, mode, true, t.reply);
              if CallFailure(b, mode, true).None? {
                queries := queries + [Query(query, educational, if outcome.Ok? then Some(outcome.value) else None)];
              }
              match outcome {
                case Ok(text) =>
                  if mode == Buffered {
                    shown := shown + [Markdown(text)];
                  }
                  educational := [];
                  lastCodeBlocks := extract(text);
                  shown := shown + [Blank];
                case Err(e) =>
                  if e == KeyboardInterrupt {
                    leave := true;
                  } else {
                    shown := shown + [ConnectionError(e)];
                  }
              }
          }
      }
    }
  }

  // ---- the entry point ------------------------------------------------------

  /** The parsed command line: `--settings`, `--dialog` and the prompt words. */
  datatype Args = Args(settings: bool, dialog: bool, prompt: seq<string>)

  datatype Route = SettingsMenu | DialogRoute(initial: string) | QueryRoute(prompt: string)

  /** `main`'s choice: the menu; the dialog when asked for or without a prompt; else one query. */
  function RouteOf(args: Args): (r: Route)
    ensures r.SettingsMenu? <==> args.settings
    ensures r.DialogRoute? ==> r.initial == Strip(Join(args.prompt, " "))
    ensures r.QueryRoute? <==> !args.settings && !args.dialog && Strip(Join(args.prompt, " ")) != ""
    ensures r.QueryRoute? ==> r.prompt == Strip(Join(args.prompt, " ")) && r.prompt != ""
  {
    if args.settings then SettingsMenu
    else
      var prompt := Strip(Join(args.prompt, " "));
      if args.dialog || prompt == "" then DialogRoute(prompt) else QueryRoute(prompt)
  }

  /** Ctrl-C gives 130, any other exception 1, a normal return 0. */
  function ExitCode(raised: Option<Exc>): int {
    match raised
    case None => 0
    case Some(KeyboardInterrupt) => 130
    case Some(_) => 1
  }

  /**
   * `main`: the menu's own outcome, or the client's construction and then
   * the dialog or the single query.  `menuRaised` is what the settings menu
   * raised; `reply` is the client's answer to the single query or to the
   * dialog's initial prompt.
   */
  function Main(b: Binding, mode: Mode, extract: string -> seq<string>, args: Args, menuRaised: Option<Exc>,
                reply: Result<string>, turns: seq<Turn>): int
  {
    match RouteOf(args)
    case SettingsMenu => ExitCode(menuRaised)
    case DialogRoute(initial) =>
      if b == AsWritten then ExitCode(Some(SystemContentKeywordError))
      else ExitCode(Dialog(b, mode, extract, EducationalContent(), initial, reply, turns).1)
    case QueryRoute(prompt) =>
      if b == AsWritten then ExitCode(Some(SystemContentKeywordError))
      else ExitCode(SingleQuery(b, mode, reply).1)
  }

  /** As written, every run but the settings menu exits 1: the client cannot be built. */
  lemma MainAsWritten(mode: Mode, extract: string -> seq<string>, args: Args, menuRaised: Option<Exc>,
                      reply: Result<string>, turns: seq<Turn>)
    requires !args.settings
    ensures Main(AsWritten, mode, extract, args, menuRaised, reply, turns) == 1
  {
  }

  /**
   * Exit codes with the client built as intended: the menu returns 0
   * unless it raised; a run exits 130 after Ctrl-C escaped it and 0
   * otherwise, since both modes catch every other exception.
   */
  lemma MainExitCodes(mode: Mode, extract: string -> seq<string>, args: Args, menuRaised: Option<Exc>,
                      reply: Result<string>, turns: seq<Turn>)
    ensures args.settings ==> Main(Intended, mode, extract, args, menuRaised, reply, turns) == ExitCode(menuRaised)
    ensures !args.settings ==> Main(Intended, mode, extract, args, menuRaised, reply, turns) in {0, 130}
    ensures !args.settings && reply != Err(KeyboardInterrupt) && turns == [] ==>
      Main(Intended, mode, extract, args, menuRaised, reply, turns) == 0
  {
    var code := Main(Intended, mode, extract, args, menuRaised, reply, turns);
    match RouteOf(args)
    case SettingsMenu =>
    case DialogRoute(initial) =>
      var d := Dialog(Intended, mode, extract, EducationalContent(), initial, reply, turns);
      DialogRaises(mode, extract, EducationalContent(), initial, reply, turns);
      assert code == ExitCode(d.1);
    case QueryRoute(prompt) =>
      var q := SingleQuery(Intended, mode, reply);
      assert code == ExitCode(q.1);
      assert reply != Err(KeyboardInterrupt) ==> q.1 == None;
  }

  /** Only Ctrl-C escapes the dialog, and only while the initial prompt's answer is awaited. */
  lemma DialogRaises(mode: Mode, extract: string -> seq<string>, educational: seq<Message>,
                     prompt: string, reply: Result<string>, turns: seq<Turn>)
    ensures Dialog(Intended, mode, extract, educational, prompt, reply, turns).1 in {None, Some(KeyboardInterrupt)}
    ensures reply != Err(KeyboardInterrupt) ==> Dialog(Intended, mode, extract, educational, prompt, reply, turns).1 == None
  {
    var st0 := State([], educational, [], []);
    var init := Initial(Intended, mode, extract, st0, prompt, reply);
    if prompt != "" {
      var called := AfterCall(Intended, mode, extract, st0, prompt, reply, true);
      assert called.1 == reply;
    }
    assert init.1 in {None, Some(KeyboardInterrupt)};
  }
}
