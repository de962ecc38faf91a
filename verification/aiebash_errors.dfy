/**
 * The error messages of the `aiebash` package: the ordered classifier of
 * `connection_error`, with its lazily imported table of SDK exception classes.
 */
module AiebashErrors {
  import opened Base
  import opened Text

  /** The rows of `connection_error`, in the order it tests them. */
  datatype ErrorKind = Quota | BadRequest | Denied | Offline | Region | Missing | Api | Client | Unknown

  /** The classes `connection_error` tests, in order, with the row each selects. */
  const Order: seq<(SdkClass, ErrorKind)> := [
    (RateLimitError, Quota), (BadRequestError, BadRequest), (AuthenticationError, Denied),
    (APIConnectionError, Offline), (PermissionDeniedError, Region), (NotFoundError, Missing),
    (APIError, Api), (OpenAIError, Client)]

  /** The first row of `checks` whose class the exception is an instance of. */
  function FirstMatch<K>(e: Exc, checks: seq<(SdkClass, K)>, otherwise: K): K {
    if checks == [] then otherwise
    else if IsA(e, checks[0].0) then checks[0].1
    else FirstMatch(e, checks[1..], otherwise)
  }

  /** `FirstMatch` picks row `j` exactly when `j` is the first row that matches. */
  lemma {:induction false} FirstMatchIsFirst<K>(e: Exc, checks: seq<(SdkClass, K)>, otherwise: K, j: nat)
    requires j < |checks| && IsA(e, checks[j].0)
    requires forall i :: 0 <= i < j ==> !IsA(e, checks[i].0)
    ensures FirstMatch(e, checks, otherwise) == checks[j].1
    decreases j
  {
    if j > 0 {
      assert !IsA(e, checks[0].0);
      FirstMatchIsFirst(e, checks[1..], otherwise, j - 1);
    }
  }

  /** With no row matching, `FirstMatch` gives the fallback. */
  lemma {:induction false} FirstMatchNone<K>(e: Exc, checks: seq<(SdkClass, K)>, otherwise: K)
    requires forall i :: 0 <= i < |checks| ==> !IsA(e, checks[i].0)
    ensures FirstMatch(e, checks, otherwise) == otherwise
    decreases |checks|
  {
    if checks != [] {
      assert !IsA(e, checks[0].0);
      FirstMatchNone(e, checks[1..], otherwise);
    }
  }

  /** The `isinstance` chain of `connection_error`. */
  function Classify(e: Exc): ErrorKind {
    if IsA(e, RateLimitError) then Quota
    else if IsA(e, BadRequestError) then BadRequest
    else if IsA(e, AuthenticationError) then Denied
    else if IsA(e, APIConnectionError) then Offline
    else if IsA(e, PermissionDeniedError) then Region
    else if IsA(e, NotFoundError) then Missing
    else if IsA(e, APIError) then Api
    else if IsA(e, OpenAIError) then Client
    else Unknown
  }

  /**
   * The chain selects the first class of `Order` the exception is an
   * instance of, and only an exception from outside the SDK is unknown.
   */
  lemma ClassifyFollowsOrder(e: Exc)
    ensures Classify(e) == FirstMatch(e, Order, Unknown)
    ensures Classify(e) == Unknown <==> !e.SdkError?
  {
    if !e.SdkError? {
      FirstMatchNone(e, Order, Unknown);
    } else {
      var j := FirstIndex(e);
      FirstMatchIsFirst(e, Order, Unknown, j);
    }
  }

  /** The row of `Order` the chain stops at, for an SDK exception. */
  lemma FirstIndex(e: Exc) returns (j: nat)
    requires e.SdkError?
    ensures j < |Order| && IsA(e, Order[j].0) && Order[j].1 == Classify(e)
    ensures forall i :: 0 <= i < j ==> !IsA(e, Order[i].0)
  {
    var c := e.cls;
    if c == RateLimitError { j := 0; }
    else if c == BadRequestError { j := 1; }
    else if c == AuthenticationError { j := 2; }
    else if c == APIConnectionError || c == APITimeoutError { j := 3; }
    else if c == PermissionDeniedError { j := 4; }
    else if c == NotFoundError { j := 5; }
    else if c != OpenAIError { j := 6; }
    else { j := 7; }
  }

  /** The rows of `connection_error` whose message is fixed text. */
  predicate IsFixed(kind: ErrorKind) {
    kind == Quota || kind == Denied || kind == Offline || kind == Region || kind == Missing || kind == Client
  }

  /** The fixed messages, without their `[dim]` markup. */
  function FixedText(kind: ErrorKind): string
    requires IsFixed(kind)
  {
    match kind
    case Quota => "Ошибка 429: Вы превысили текущую квоту запросов, пожалуйста, проверьте свой тарифный план и платежные реквизиты у провайдера нейросети. Либо попробуйте отправить запрос через некоторое время, если пользуетесь бесплатным тарифом. Сменить нейросеть можно в настройках: 'ai --settings'"
    case Denied => "Ошибка 401: Отказ в авторизации. Проверьте свой ключ API_KEY. Для получения ключа обратитесь к поставщику API. [link=https://github.com/Vivatist/ai-ebash/blob/main/docs/locales/README_ru.md#%D0%BF%D0%BE%D0%BB%D1%83%D1%87%D0%B5%D0%BD%D0%B8%D0%B5-%D1%82%D0%BE%D0%BA%D0%B5%D0%BD%D0%B0-api_key-%D0%B8-%D0%BF%D0%BE%D0%B4%D0%BA%D0%BB%D1%8E%D1%87%D0%B5%D0%BD%D0%B8%D0%B5-%D0%BA-%D0%BF%D1%80%D0%B5%D0%B4%D1%83%D1%81%D1%82%D0%B0%D0%BD%D0%BE%D0%B2%D0%BB%D0%B5%D0%BD%D0%BD%D0%BE%D0%B9-%D0%BD%D0%B5%D0%B9%D1%80%D0%BE%D1%81%D0%B5%D1%82%D0%B8]Как получить ключ?[/link]"
    case Offline => "Нет соединения, проверьте подключение к интернету"
    case Region => "Ошибка 403: Ваш регион не поддерживается, используйте VPN либо смените нейросеть. Сменить нейросеть можно в настройках: 'ai --settings'"
    case Missing => "Ошибка 404: Ресурс не найден. Проверьте API_URL в настройках."
    case Client => "Проверьте свой ключ API_KEY. Для получения ключа обратитесь к поставщику API. [link=https://github.com/Vivatist/ai-ebash/blob/main/docs/locales/README_ru.md#%D0%BF%D0%BE%D0%BB%D1%83%D1%87%D0%B5%D0%BD%D0%B8%D0%B5-%D1%82%D0%BE%D0%BA%D0%B5%D0%BD%D0%B0-api_key-%D0%B8-%D0%BF%D0%BE%D0%B4%D0%BA%D0%BB%D1%8E%D1%87%D0%B5%D0%BD%D0%B8%D0%B5-%D0%BA-%D0%BF%D1%80%D0%B5%D0%B4%D1%83%D1%81%D1%82%D0%B0%D0%BD%D0%BE%D0%B2%D0%BB%D0%B5%D0%BD%D0%BD%D0%BE%D0%B9-%D0%BD%D0%B5%D0%B9%D1%80%D0%BE%D1%81%D0%B5%D1%82%D0%B8]Как получить ключ?[/link]"
  }

  /** Console markup shown dimmed. */
  function Dim(s: string): (d: string)
    ensures StartsWith(d, "[dim]") && EndsWith(d, "[/dim]")
  {
    var d := "[dim]" + s + "[/dim]";
    assert d[..5] == "[dim]" && d[|d| - 6..] == "[/dim]";
    d
  }

  /** `getattr(error, 'body', None)` */
  function BodyOf(e: Exc): Option<map<string, string>> {
    if e.SdkError? then e.body else None
  }

  /**
   * `connection_error`: the message for an exception, always dimmed.  Only
   * the 400 row can fail, reading `error.body['message']`: a missing body
   * raises TypeError and a body without `message` raises KeyError.
   */
  function ConnectionErrorText(e: Exc): (r: Result<string>)
    ensures r.Ok? ==> StartsWith(r.value, "[dim]") && EndsWith(r.value, "[/dim]")
    ensures r.Err? <==> (Classify(e) == BadRequest && (BodyOf(e).None? || "message" !in BodyOf(e).value))
  {
    MessageFor(Classify(e), e)
  }

  /** The message of one row of `connection_error`. */
  function MessageFor(kind: ErrorKind, e: Exc): (r: Result<string>)
    ensures r.Ok? ==> StartsWith(r.value, "[dim]") && EndsWith(r.value, "[/dim]")
    ensures r.Err? <==> (kind == BadRequest && (BodyOf(e).None? || "message" !in BodyOf(e).value))
  {
    if kind == BadRequest && BodyOf(e).None? then Err(PyError(TypeError, "'NoneType' object is not subscriptable"))
    else if kind == BadRequest && "message" !in BodyOf(e).value then Err(PyError(KeyError, "'message'"))
    else Ok(Dim(RowText(kind, e)))
  }

  /** The text inside `[dim]...[/dim]` for each row; a 400 row quotes the body's message. */
  function RowText(kind: ErrorKind, e: Exc): string
    requires kind == BadRequest ==> BodyOf(e).Some? && "message" in BodyOf(e).value
  {
    match kind
    case Quota => FixedText(Quota)
    case BadRequest => "Ошибка 400: " + BodyOf(e).value["message"] + ". Проверьте название модели."
    case Denied => FixedText(Denied)
    case Offline => FixedText(Offline)
    case Region => FixedText(Region)
    case Missing => FixedText(Missing)
    case Api => "Ошибка API: " + ExcText(e)
    case Client => FixedText(Client)
    case Unknown => "Неизвестная ошибка: " + ExcText(e)
  }

  /** The table `_get_openai_exceptions` builds: class name to class. */
  const ExceptionTable: map<string, SdkClass> := map[
    "RateLimitError" := RateLimitError, "APIError" := APIError, "OpenAIError" := OpenAIError,
    "AuthenticationError" := AuthenticationError, "APIConnectionError" := APIConnectionError,
    "PermissionDeniedError" := PermissionDeniedError, "NotFoundError" := NotFoundError,
    "BadRequestError" := BadRequestError]

  /** What the table gives for each name `connection_error` reads. */
  lemma TableEntries()
    ensures "RateLimitError" in ExceptionTable && ExceptionTable["RateLimitError"] == RateLimitError
    ensures "BadRequestError" in ExceptionTable && ExceptionTable["BadRequestError"] == BadRequestError
    ensures "AuthenticationError" in ExceptionTable && ExceptionTable["AuthenticationError"] == AuthenticationError
    ensures "APIConnectionError" in ExceptionTable && ExceptionTable["APIConnectionError"] == APIConnectionError
    ensures "PermissionDeniedError" in ExceptionTable && ExceptionTable["PermissionDeniedError"] == PermissionDeniedError
    ensures "NotFoundError" in ExceptionTable && ExceptionTable["NotFoundError"] == NotFoundError
    ensures "APIError" in ExceptionTable && ExceptionTable["APIError"] == APIError
    ensures "OpenAIError" in ExceptionTable && ExceptionTable["OpenAIError"] == OpenAIError
  {
  }

  /** The module global `_openai_exceptions` and the functions that read it. */
  class ErrorMessages {
    var exceptions: Option<map<string, SdkClass>>

    constructor ()
      ensures exceptions == None
    {
      exceptions := None;
    }

    /** `_get_openai_exceptions`: import on first use, then reuse the cached table. */
    method GetOpenaiExceptions() returns (table: map<string, SdkClass>)
      modifies this
      ensures exceptions == Some(table) && table == ExceptionTable
      ensures old(exceptions).Some? ==> exceptions == old(exceptions)
      requires exceptions.Some? ==> exceptions.value == ExceptionTable
    {
      if exceptions.None? {
        exceptions := Some(ExceptionTable);
      }
      table := exceptions.value;
    }

    /** `connection_error`, each `isinstance` test reading the class from the cached table. */
    method ConnectionError(e: Exc) returns (r: Result<string>)
      modifies this
      requires exceptions.Some? ==> exceptions.value == ExceptionTable
      ensures r == ConnectionErrorText(e)
      ensures exceptions == Some(ExceptionTable)
    {
      var t := GetOpenaiExceptions();
      var kind := KindFromTable(t, e);
      r := MessageFor(kind, e);
    }
  }

  /** The `isinstance` chain of `connection_error`, each class read from the table. */
  method KindFromTable(t: map<string, SdkClass>, e: Exc) returns (kind: ErrorKind)
    requires t == ExceptionTable
    ensures kind == Classify(e)
  {
    TableEntries();
    if IsA(e, t["RateLimitError"]) { kind := Quota; }
    else if IsA(e, t["BadRequestError"]) { kind := BadRequest; }
    else if IsA(e, t["AuthenticationError"]) { kind := Denied; }
    else if IsA(e, t["APIConnectionError"]) { kind := Offline; }
    else if IsA(e, t["PermissionDeniedError"]) { kind := Region; }
    else if IsA(e, t["NotFoundError"]) { kind := Missing; }
    else if IsA(e, t["APIError"]) { kind := Api; }
    else if IsA(e, t["OpenAIError"]) { kind := Client; }
    else { kind := Unknown; }
  }
}
