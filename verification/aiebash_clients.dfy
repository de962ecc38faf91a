/**
 * `aiebash.llm_client.OpenRouterClient`: the user message is committed
 * before the request; every `Exception` is turned into a printed message
 * and the fixed error reply, and only Ctrl-C escapes.
 */
module AiebashClient {
  import opened Base
  import opened Text
  import opened Frames
  import AiebashErrors

  /** The rows of `_handle_api_error`, in the order it tests them. */
  datatype NoticeKind = Limited | Unauthorized | ApiFailure | ClientFailure | Other

  const NoticeOrder: seq<(SdkClass, NoticeKind)> :=
    [(RateLimitError, Limited), (AuthenticationError, Unauthorized), (APIError, ApiFailure), (OpenAIError, ClientFailure)]

  /** The `isinstance` chain of `_handle_api_error`. */
  function NoticeKindOf(e: Exc): NoticeKind {
    if IsA(e, RateLimitError) then Limited
    else if IsA(e, AuthenticationError) then Unauthorized
    else if IsA(e, APIError) then ApiFailure
    else if IsA(e, OpenAIError) then ClientFailure
    else Other
  }

  /** The chain selects the first matching class of `NoticeOrder`; only non-SDK errors are "unknown". */
  lemma NoticeFollowsOrder(e: Exc)
    ensures NoticeKindOf(e) == AiebashErrors.FirstMatch(e, NoticeOrder, Other)
    ensures NoticeKindOf(e) == Other <==> !e.SdkError?
  {
    if !e.SdkError? {
      AiebashErrors.FirstMatchNone(e, NoticeOrder, Other);
    } else {
      var j := if e.cls == RateLimitError then 0 else if e.cls == AuthenticationError then 1
        else if e.cls != OpenAIError then 2 else 3;
      AiebashErrors.FirstMatchIsFirst(e, NoticeOrder, Other, j);
    }
  }

  /** The two fixed messages of `_handle_api_error`. */
  function FixedNotice(kind: NoticeKind): string
    requires kind == Limited || kind == Unauthorized
  {
    if kind == Limited then
      "[dim]Ошибка 403: Доступ запрещён\nВозможные причины:\n-Превышен лимит запросов (попробуйте через некоторое время)\n-Не поддерживается ваш регион (используйте VPN)[/dim]"
    else
      "[dim]Ошибка 401: Отказ в авторизации.Проверьте свой ключ API_KEY. Для получения ключа обратитесь к поставщику API. [link=https://github.com/Vivatist/ai-bash]Как получить ключ?[/link][/dim]"
  }

  /** `_handle_api_error`: the message printed to the console for a caught exception. */
  function ApiErrorNotice(e: Exc): string {
    match NoticeKindOf(e)
    case Limited => FixedNotice(Limited)
    case Unauthorized => FixedNotice(Unauthorized)
    case ApiFailure => "[red]Ошибка API: " + ExcText(e) + "[/red]"
    case ClientFailure => "[red]Ошибка клиента OpenAI: " + ExcText(e) + "[/red]"
    case Other => "[red]Неизвестная ошибка: " + ExcText(e) + "[/red]"
  }

  /** `except Exception as e: return self._handle_api_error(e)`; Ctrl-C is not an `Exception`. */
  function Handled(e: Exc, sent: seq<Message>): Turned {
    if e.KeyboardInterrupt? then Turned(Raised(e), sent, None)
    else Turned(Returned(ErrorReply()), sent, Some(ApiErrorNotice(e)))
  }

  /**
   * `ask`: `response` is the reply text of the completion, or the exception
   * raised creating it or reading `choices[0].message.content`.
   */
  function AskTurn(messages: seq<Message>, u: string, response: Result<string>): Turned {
    var sent := messages + [UserMessage(u)];
    match response
    case Ok(reply) => Turned(Returned(reply), sent + [AssistantMessage(reply)], None)
    case Err(e) => Handled(e, sent)
  }

  /** `ask_stream`: one unguarded pass over the stream; the reply is appended even when blank. */
  function StreamTurn(messages: seq<Message>, u: string, connect: Connect, items: seq<StreamItem>): Turned {
    var sent := messages + [UserMessage(u)];
    if connect.Refused? then Handled(connect.exc, sent)
    else
      var (parts, raised) := DirectScan(items, 0);
      if raised.Some? then Handled(raised.value, sent)
      else Turned(Returned(Concat(parts)), sent + [AssistantMessage(Concat(parts))], None)
  }

  /** The transcript outcome every call of this client shares. */
  predicate Grows(messages: seq<Message>, u: string, t: Turned) {
    && |t.messages| >= |messages| + 1
    && t.messages[..|messages| + 1] == messages + [UserMessage(u)]
    && (t.out.Raised? ==> t.out.exc == KeyboardInterrupt && t.notice.None?)
    && (t.notice.Some? ==> t.out == Returned(ErrorReply()))
    && (t.out.Returned? && t.notice.None? ==>
          t.messages == messages + [UserMessage(u), AssistantMessage(t.out.reply)])
    && (t.out.Raised? || t.notice.Some? ==> t.messages == messages + [UserMessage(u)])
  }

  /**
   * Both calls commit the user message first; a success adds the reply
   * (+2), a failure leaves the user message alone (+1); nothing but Ctrl-C
   * escapes, and a caught error returns the fixed error reply.
   */
  lemma TranscriptGrowth(messages: seq<Message>, u: string, response: Result<string>,
                         connect: Connect, items: seq<StreamItem>)
    ensures Grows(messages, u, AskTurn(messages, u, response))
    ensures Grows(messages, u, StreamTurn(messages, u, connect, items))
  {
    if response.Err? {
      HandledGrows(messages, u, response.exc);
    }
    if connect.Refused? {
      HandledGrows(messages, u, connect.exc);
    } else if DirectScan(items, 0).1.Some? {
      HandledGrows(messages, u, DirectScan(items, 0).1.value);
    }
  }

  /** A caught or escaping exception leaves the user message alone. */
  lemma HandledGrows(messages: seq<Message>, u: string, e: Exc)
    ensures Grows(messages, u, Handled(e, messages + [UserMessage(u)]))
  {
    var sent := messages + [UserMessage(u)];
    assert sent[..|messages| + 1] == sent;
    var t := Handled(e, sent);
    assert t.messages == sent;
    assert t.out.Raised? <==> e.KeyboardInterrupt?;
  }

  /** A stream read to its end returns the concatenation of its non-empty fragments. */
  lemma StreamReplyIsFragments(messages: seq<Message>, u: string, items: seq<StreamItem>)
    requires DirectScan(items, 0).1.None?
    ensures StreamTurn(messages, u, Opened, items).out == Returned(Concat(Fragments(items, 0)))
  {
    DirectScanFragments(items, 0);
  }

  class OpenRouterClient {
    /** The SDK client `__init__` builds at once from the key and URL. */
    const sdk: SdkClient
    const model: string
    const temperature: real
    var messages: seq<Message>

    /** `__init__`: the transcript starts as the system context alone. */
    constructor (apiKey: string, apiUrl: string, model: string, systemContext: string, temperature: real)
      ensures sdk == SdkClient(apiKey, apiUrl, map[]) && this.model == model && this.temperature == temperature
      ensures messages == [SystemMessage(systemContext)]
    {
      sdk := SdkClient(apiKey, apiUrl, map[]);
      this.model := model;
      this.temperature := temperature;
      messages := [SystemMessage(systemContext)];
    }

    /** `ask`: the non-streaming call. */
    method Ask(u: string, response: Result<string>) returns (out: Outcome, notice: Option<string>)
      modifies this`messages
      ensures Turned(out, messages, notice) == AskTurn(old(messages), u, response)
    {
      messages := messages + [UserMessage(u)];
      if response.Err? {
        if response.exc.KeyboardInterrupt? {
          return Raised(response.exc), None;
        }
        return Returned(ErrorReply()), Some(ApiErrorNotice(response.exc));
      }
      messages := messages + [AssistantMessage(response.value)];
      out, notice := Returned(response.value), None;
    }

    /** `ask_stream`: the streaming call. */
    method AskStream(u: string, connect: Connect, items: seq<StreamItem>) returns (out: Outcome, notice: Option<string>)
      modifies this`messages
      ensures Turned(out, messages, notice) == StreamTurn(old(messages), u, connect, items)
    {
      messages := messages + [UserMessage(u)];
      var raised: Option<Exc> := None;
      var parts: seq<string> := [];
      if connect.Refused? {
        raised := Some(connect.exc);
      } else {
        parts, raised := ReadRest(items, 0);
      }
      if raised.Some? {
        if raised.value.KeyboardInterrupt? {
          return Raised(raised.value), None;
        }
        return Returned(ErrorReply()), Some(ApiErrorNotice(raised.value));
      }
      var reply := Concat(parts);
      messages := messages + [AssistantMessage(reply)];
      out, notice := Returned(reply), None;
    }
  }
}

/**
 * `aiebash.llm_chat.OpenRouterChat`: the same transcript rule, but only the
 * SDK's RateLimitError, APIError and OpenAIError are caught; any other
 * exception, Ctrl-C and the TypeError of a malformed chunk included, escapes.
 */
module AiebashChat {
  import opened Base
  import opened Text
  import opened Frames

  /** What `print` shows for a caught SDK exception, by the first `except` clause that takes it. */
  function ChatNotice(e: Exc): string {
    if IsA(e, RateLimitError) then "Ошибка: слишком частые запросы (RateLimit). Попробуйте позже."
    else if IsA(e, APIError) then "Ошибка API: " + ExcText(e)
    else "Ошибка клиента OpenAI: " + ExcText(e)
  }

  /** The three `except` clauses together catch exactly the SDK's exceptions. */
  predicate Caught(e: Exc) {
    IsA(e, RateLimitError) || IsA(e, APIError) || IsA(e, OpenAIError)
  }

  lemma CaughtIsSdk(e: Exc)
    ensures Caught(e) <==> e.SdkError?
  {
    if e.SdkError? { assert SdkIsA(e.cls, OpenAIError); }
  }

  function Handled(e: Exc, sent: seq<Message>): Turned {
    if Caught(e) then Turned(Returned(ErrorReply()), sent, Some(ChatNotice(e)))
    else Turned(Raised(e), sent, None)
  }

  function AskTurn(messages: seq<Message>, u: string, response: Result<string>): Turned {
    var sent := messages + [UserMessage(u)];
    match response
    case Ok(reply) => Turned(Returned(reply), sent + [AssistantMessage(reply)], None)
    case Err(e) => Handled(e, sent)
  }

  function StreamTurn(messages: seq<Message>, u: string, connect: Connect, items: seq<StreamItem>): Turned {
    var sent := messages + [UserMessage(u)];
    if connect.Refused? then Handled(connect.exc, sent)
    else
      var (parts, raised) := DirectScan(items, 0);
      if raised.Some? then Handled(raised.value, sent)
      else Turned(Returned(Concat(parts)), sent + [AssistantMessage(Concat(parts))], None)
  }

  /** The exception a call ran into, if any. */
  function Failure(connect: Connect, items: seq<StreamItem>): Option<Exc> {
    if connect.Refused? then Some(connect.exc) else DirectScan(items, 0).1
  }

  /**
   * The user message is committed before the request and stays; the reply
   * is appended only on success; a caught error returns the fixed error
   * reply, and exactly the non-SDK exceptions escape.
   */
  lemma StreamOutcome(messages: seq<Message>, u: string, connect: Connect, items: seq<StreamItem>)
    ensures var t := StreamTurn(messages, u, connect, items);
      && (Failure(connect, items).None? ==>
            t == Turned(Returned(Concat(Fragments(items, 0))), messages + [UserMessage(u), AssistantMessage(Concat(Fragments(items, 0)))], None))
      && (Failure(connect, items).Some? ==> t.messages == messages + [UserMessage(u)])
      && (Failure(connect, items).Some? ==>
            (t.out.Raised? <==> !Failure(connect, items).value.SdkError?))
      && (t.notice.Some? ==> t.out == Returned(ErrorReply()))
  {
    if connect.Opened? { DirectScanFragments(items, 0); }
    if Failure(connect, items).Some? { CaughtIsSdk(Failure(connect, items).value); }
  }

  lemma AskOutcome(messages: seq<Message>, u: string, response: Result<string>)
    ensures var t := AskTurn(messages, u, response);
      && (response.Ok? ==> t == Turned(Returned(response.value), messages + [UserMessage(u), AssistantMessage(response.value)], None))
      && (response.Err? ==> t.messages == messages + [UserMessage(u)])
      && (response.Err? ==> (t.out.Raised? <==> !response.exc.SdkError?))
  {
    if response.Err? { CaughtIsSdk(response.exc); }
  }

  class OpenRouterChat {
    const sdk: SdkClient
    const model: string
    const temperature: real
    var messages: seq<Message>

    constructor (apiKey: string, apiUrl: string, model: string, systemContext: string, temperature: real)
      ensures sdk == SdkClient(apiKey, apiUrl, map[]) && this.model == model && this.temperature == temperature
      ensures messages == [SystemMessage(systemContext)]
    {
      sdk := SdkClient(apiKey, apiUrl, map[]);
      this.model := model;
      this.temperature := temperature;
      messages := [SystemMessage(systemContext)];
    }

    method Ask(u: string, response: Result<string>) returns (out: Outcome, notice: Option<string>)
      modifies this`messages
      ensures Turned(out, messages, notice) == AskTurn(old(messages), u, response)
    {
      messages := messages + [UserMessage(u)];
      if response.Err? {
        if !Caught(response.exc) {
          return Raised(response.exc), None;
        }
        return Returned(ErrorReply()), Some(ChatNotice(response.exc));
      }
      messages := messages + [AssistantMessage(response.value)];
      out, notice := Returned(response.value), None;
    }

    method AskStream(u: string, connect: Connect, items: seq<StreamItem>) returns (out: Outcome, notice: Option<string>)
      modifies this`messages
      ensures Turned(out, messages, notice) == StreamTurn(old(messages), u, connect, items)
    {
      messages := messages + [UserMessage(u)];
      var raised: Option<Exc> := None;
      var parts: seq<string> := [];
      if connect.Refused? {
        raised := Some(connect.exc);
      } else {
        parts, raised := ReadRest(items, 0);
      }
      if raised.Some? {
        if !Caught(raised.value) {
          return Raised(raised.value), None;
        }
        return Returned(ErrorReply()), Some(ChatNotice(raised.value));
      }
      var reply := Concat(parts);
      messages := messages + [AssistantMessage(reply)];
      out, notice := Returned(reply), None;
    }
  }
}
