/**
 * The current chat client (src/penguin_tamer/llm_clients/openrouter_client.py):
 * one streamed turn is run by a `StreamProcessor` in three phases (connect
 * and wait for the first fragment, stream the rest, finalize), and the user
 * and assistant messages enter the transcript only when the reply is not
 * blank.
 */
module OpenRouter {
  import opened Base
  import opened Text
  import opened Frames

  // ---------------------------------------------------------------------
  // Request parameters, SDK client, model list
  // ---------------------------------------------------------------------

  /**
   * `_prepare_api_params`: the transcript (plus the user entry when the
   * input is non-empty), the fixed keys, and the optional keys.
   */
  function PrepareApiParams(g: GenSettings, messages: seq<Message>, userInput: string)
    : (p: map<string, ParamValue>)
    ensures "model" in p && p["model"] == PString(g.model)
    ensures "temperature" in p && p["temperature"] == PReal(g.temperature)
    ensures "stream" in p && p["stream"] == PBool(true)
    ensures "stream_options" in p && p["stream_options"] == PDict(map["include_usage" := PBool(true)])
    ensures "messages" in p
    ensures p["messages"] == PMessages(if userInput != "" then messages + [UserMessage(userInput)] else messages)
  {
    var request := if userInput != "" then messages + [UserMessage(userInput)] else messages;
    RequestBaseEntries(g, request);
    WithOptionalKeys(RequestBase(g, request), g);
    WithOptional(RequestBase(g, request), g)
  }

  /**
   * The optional keys follow the shared inclusion rule, and nothing else is
   * sent besides the five fixed keys.
   */
  lemma PrepareApiParamsOptional(g: GenSettings, messages: seq<Message>, userInput: string)
    ensures var p := PrepareApiParams(g, messages, userInput);
      && p.Keys <= {"model", "messages", "temperature", "stream", "stream_options"} + OptionalKeys
      && ("max_tokens" in p <==> g.maxTokens.Some?)
      && ("top_p" in p <==> g.topP.Some? && g.topP.value != 1.0)
      && ("frequency_penalty" in p <==> g.frequencyPenalty != Some(0.0))
      && ("presence_penalty" in p <==> g.presencePenalty != Some(0.0))
      && ("stop" in p <==> g.stop.Some?)
      && ("seed" in p <==> g.seed.Some?)
  {
    var request := if userInput != "" then messages + [UserMessage(userInput)] else messages;
    RequestBaseEntries(g, request);
    assert RequestBase(g, request).Keys == {"model", "messages", "temperature", "stream", "stream_options"};
    WithOptionalKeys(RequestBase(g, request), g);
  }

  /** The keys every request carries. */
  function RequestBase(g: GenSettings, request: seq<Message>): map<string, ParamValue> {
    map[
      "model" := PString(g.model),
      "messages" := PMessages(request),
      "temperature" := PReal(g.temperature),
      "stream" := PBool(true),
      "stream_options" := PDict(map["include_usage" := PBool(true)])]
  }

  /** The fixed keys, their values, and none of them optional. */
  lemma RequestBaseEntries(g: GenSettings, request: seq<Message>)
    ensures var b := RequestBase(g, request);
      && b.Keys !! OptionalKeys
      && "model" in b && b["model"] == PString(g.model)
      && "messages" in b && b["messages"] == PMessages(request)
      && "temperature" in b && b["temperature"] == PReal(g.temperature)
      && "stream" in b && b["stream"] == PBool(true)
      && "stream_options" in b && b["stream_options"] == PDict(map["include_usage" := PBool(true)])
  {
  }

  const OpenRouterHeaders: map<string, string> := map[
    "HTTP-Referer" := "https://github.com/Vivatist/penguin-tamer",
    "X-Title" := "Penguin Tamer"]

  /** The headers are sent exactly when the URL names openrouter.ai, in any case. */
  function DefaultHeaders(apiUrl: string): (h: map<string, string>)
    ensures h != map[] <==> Contains(Lower(apiUrl), "openrouter.ai")
    ensures h != map[] ==> h == OpenRouterHeaders
  {
    assert "X-Title" in OpenRouterHeaders;
    if Contains(Lower(apiUrl), "openrouter.ai") then OpenRouterHeaders else map[]
  }

  /** One model entry of the list endpoint, as returned: `{"id": ..., "name": ...}`. */
  datatype ModelEntry = ModelEntry(id: JValue, name: JValue)

  /** `data["data"]`: the dict entries that have an `id`; `name` defaults to the id. */
  function ListedModels(data: JValue): seq<ModelEntry> {
    if data.JObj? && "data" in data.fields && data.fields["data"].JList? then
      EntriesOf(data.fields["data"].items)
    else []
  }

  function EntriesOf(items: seq<JValue>): (r: seq<ModelEntry>)
    ensures forall e :: e in r ==> exists v :: v in items && EntryOf(v) == Some(e)
  {
    if items == [] then []
    else
      (match EntryOf(items[0]) case Some(e) => [e] case None => [])
      + EntriesOf(items[1..])
  }

  function EntryOf(v: JValue): (r: Option<ModelEntry>)
    ensures r.Some? <==> v.JObj? && "id" in v.fields
    ensures r.Some? ==> r.value.id == v.fields["id"]
    ensures r.Some? ==> r.value.name == (if "name" in v.fields then v.fields["name"] else v.fields["id"])
  {
    if v.JObj? && "id" in v.fields then
      Some(ModelEntry(v.fields["id"], if "name" in v.fields then v.fields["name"] else v.fields["id"]))
    else None
  }

  /**
   * Whether one entry passes the lower-cased filter; `None` where
   * `.lower()` raises because the id (or, when the id does not match, the
   * name) is not a string.
   */
  function Matches(m: ModelEntry, filterLower: string): Option<bool> {
    if !m.id.JStr? then None
    else if Contains(Lower(m.id.s), filterLower) then Some(true)
    else if !m.name.JStr? then None
    else Some(Contains(Lower(m.name.s), filterLower))
  }

  /** The list comprehension of `fetch_models`; `None` when it raises. */
  function FilterModels(ms: seq<ModelEntry>, filterLower: string): Option<seq<ModelEntry>> {
    if ms == [] then Some([])
    else match Matches(ms[0], filterLower)
      case None => None
      case Some(keep) =>
        match FilterModels(ms[1..], filterLower)
        case None => None
        case Some(rest) => Some(if keep then [ms[0]] + rest else rest)
  }

  /** `r` keeps some of the elements of `s`, in their order. */
  predicate IsSubsequence<T(==)>(r: seq<T>, s: seq<T>)
    decreases |s|
  {
    if r == [] then true
    else if s == [] then false
    else if r[0] == s[0] then IsSubsequence(r[1..], s[1..])
    else IsSubsequence(r, s[1..])
  }

  /**
   * The filter keeps exactly the entries that match, in order; it fails
   * only where some entry's test raises.
   */
  lemma {:induction false} FilterModelsExact(ms: seq<ModelEntry>, f: string)
    ensures FilterModels(ms, f).None? <==> exists m :: m in ms && Matches(m, f).None?
    ensures FilterModels(ms, f).Some? ==>
      var r := FilterModels(ms, f).value;
      && IsSubsequence(r, ms)
      && (forall m :: m in r ==> m in ms && Matches(m, f) == Some(true))
      && (forall m :: m in ms && Matches(m, f) == Some(true) ==> m in r)
  {
    if ms != [] {
      FilterModelsExact(ms[1..], f);
      if FilterModels(ms, f).None? {
        if Matches(ms[0], f).Some? {
          var m :| m in ms[1..] && Matches(m, f).None?;
        }
      } else {
        var r := FilterModels(ms, f).value;
        var rest := FilterModels(ms[1..], f).value;
        forall m | m in ms ensures Matches(m, f).Some? {
          if m != ms[0] { assert m in ms[1..]; }
        }
        if Matches(ms[0], f) == Some(true) {
          assert r[1..] == rest;
        } else {
          SubsequenceSkip(rest, ms);
        }
      }
    }
  }

  lemma {:induction false} SubsequenceSkip<T>(r: seq<T>, s: seq<T>)
    requires s != [] && IsSubsequence(r, s[1..])
    ensures IsSubsequence(r, s)
    decreases |s|, 1
  {
    if r != [] && r[0] == s[0] {
      SubsequenceDropHead(r, s[1..]);
    }
  }

  lemma {:induction false} SubsequenceDropHead<T>(r: seq<T>, t: seq<T>)
    requires r != [] && IsSubsequence(r, t)
    ensures IsSubsequence(r[1..], t)
    decreases |t|, 2
  {
    if r[0] == t[0] {
      SubsequenceSkip(r[1..], t);
    } else {
      SubsequenceDropHead(r, t[1..]);
      SubsequenceSkip(r[1..], t);
    }
  }

  /**
   * `fetch_models`: the listed entries, filtered when the filter is
   * non-empty; `[]` when the request failed or anything raised.
   * `response` is the parsed JSON body, `None` when the request or the
   * decoding raised.
   */
  function FetchModels(response: Option<JValue>, modelFilter: Option<string>): (r: seq<ModelEntry>)
    ensures response.None? ==> r == []
    ensures response.Some? && (modelFilter.None? || modelFilter.value == "") ==> r == ListedModels(response.value)
    ensures forall m :: m in r ==> m in ListedModels(response.value)
  {
    if response.None? then []
    else
      var models := ListedModels(response.value);
      if modelFilter.Some? && modelFilter.value != "" then
        FilterModelsExact(models, Lower(modelFilter.value));
        match FilterModels(models, Lower(modelFilter.value))
        case Some(kept) => kept
        case None => []
      else models
  }

  const ChatCompletions := "/chat/completions"

  /**
   * `get_available_models`: the URL with trailing slashes removed, cut
   * before the first `/chat/completions`, followed by `/models`.
   */
  function ModelsUrl(apiUrl: string): (url: string)
    ensures EndsWith(url, "/models")
    ensures var base := url[..|url| - 7];
      && StartsWith(RStripChar(apiUrl, '/'), base)
      && !Contains(base, ChatCompletions)
      && (!Contains(RStripChar(apiUrl, '/'), ChatCompletions) ==> base == RStripChar(apiUrl, '/'))
  {
    var trimmed := RStripChar(apiUrl, '/');
    var base := match IndexFrom(trimmed, ChatCompletions, 0)
      case Some(i) => trimmed[..i]
      case None => trimmed;
    CutHasNoMarker(trimmed);
    assert (base + "/models")[..|base + "/models"| - 7] == base;
    base + "/models"
  }

  lemma CutHasNoMarker(s: string)
    ensures IndexFrom(s, ChatCompletions, 0).Some? ==>
      !Contains(s[..IndexFrom(s, ChatCompletions, 0).value], ChatCompletions)
  {
    var r := IndexFrom(s, ChatCompletions, 0);
    if r.Some? {
      var cut := s[..r.value];
      ContainsIff(cut, ChatCompletions);
      if Contains(cut, ChatCompletions) {
        var j :| OccursAt(cut, ChatCompletions, j);
        assert cut[j..j + |ChatCompletions|] == s[j..j + |ChatCompletions|];
        assert OccursAt(s, ChatCompletions, j);
      }
    }
  }

  // ---------------------------------------------------------------------
  // One streamed turn: the specification
  // ---------------------------------------------------------------------

  /** What the processor prints on the console. */
  datatype Notice = HandledError(exc: Exc) | EmptyResponseWarning

  /** `_wait_first_chunk`: the first fragment and the index after it, the end, or an escaping exception. */
  datatype Wait = Found(text: string, next: nat) | Ended | Raising(exc: Exc)

  function WaitFirst(items: seq<StreamItem>, i: nat, interrupted: bool): (w: Wait)
    decreases |items| - i
    ensures w.Found? ==> i < w.next <= |items| && w.text != ""
  {
    if i >= |items| then Ended
    else match items[i]
      case Fail(e) => if Swallowed(e) then Ended else Raising(e)
      case Chunk(f) =>
        if interrupted then Raising(KeyboardInterrupt)
        else match Fragment(f)
          case Some(t) => Found(t, i + 1)
          case None => WaitFirst(items, i + 1, interrupted)
  }

  /** What `_stream_with_live_display` has gathered so far. */
  datatype Acc = Acc(parts: seq<string>, promptTokens: nat, completionTokens: nat, requests: nat)

  function TokensOf(x: Option<nat>): nat { match x case Some(n) => n case None => 0 }

  /** One chunk of the second loop: usage-only frames fold into the counters, fragments into the parts. */
  function Step(acc: Acc, f: Frame): Acc {
    if !HasChoices(f) then
      if f.usage.Some? then
        Acc(acc.parts,
            acc.promptTokens + TokensOf(f.usage.value.promptTokens),
            acc.completionTokens + TokensOf(f.usage.value.completionTokens),
            acc.requests + 1)
      else acc
    else match Fragment(f)
      case Some(t) => acc.(parts := acc.parts + [t])
      case None => acc
  }

  /** The second loop from `items[i]`: the final accumulation and the exception that escapes, if any. */
  function Rest(items: seq<StreamItem>, i: nat, acc: Acc, interrupted: bool): (Acc, Option<Exc>)
    decreases |items| - i
  {
    if i >= |items| then (acc, None)
    else match items[i]
      case Fail(e) => (acc, if Swallowed(e) then None else Some(e))
      case Chunk(f) =>
        if interrupted then (acc, Some(KeyboardInterrupt))
        else Rest(items, i + 1, Step(acc, f), interrupted)
  }

  /** Everything one call of `process` decides. */
  datatype TurnResult = TurnResult(
    outcome: Outcome,
    transcript: seq<Message>,
    gathered: Acc,
    notices: seq<Notice>,
    interruptedAfter: bool)

  const NoAcc := Acc([], 0, 0, 0)

  /**
   * `process(user_input)`: phase 1 errors print a handled-error notice and
   * return "" (KeyboardInterrupt escapes); phase 2 exceptions escape;
   * otherwise `_finalize_response` commits user and assistant messages
   * iff the reply is not blank.
   */
  function Turn(messages: seq<Message>, userInput: string, connect: Connect,
                items: seq<StreamItem>, interrupted: bool): TurnResult
  {
    match ConnectPhase(connect, items, interrupted)
    case Stop(out, notices) => TurnResult(out, messages, NoAcc, notices, true)
    case Proceed(n, first) =>
      Finalize(messages, userInput, Rest(items, n, Acc(FirstParts(first), 0, 0, 0), interrupted), interrupted)
  }

  /** How `_connect_and_wait` ends: the stream and first fragment, or the end of the call. */
  datatype Phase1 = Proceed(next: nat, first: Option<string>) | Stop(out: Outcome, notices: seq<Notice>)

  function FirstParts(first: Option<string>): seq<string> {
    match first case Some(t) => [t] case None => []
  }

  /**
   * `_connect_and_wait` with `process`'s reaction: a KeyboardInterrupt
   * escapes, any other exception is printed and the call returns "".
   * A stream that ends before any fragment still proceeds.
   */
  function ConnectPhase(connect: Connect, items: seq<StreamItem>, interrupted: bool): Phase1 {
    if connect.Refused? then
      if connect.exc.KeyboardInterrupt? then Stop(Raised(KeyboardInterrupt), [])
      else Stop(Returned(""), [HandledError(connect.exc)])
    else match WaitFirst(items, 0, interrupted)
      case Raising(e) =>
        if e.KeyboardInterrupt? then Stop(Raised(e), []) else Stop(Returned(""), [HandledError(e)])
      case Found(t, n) => Proceed(n, Some(t))
      case Ended => Proceed(|items|, None)
  }

  function Finalize(messages: seq<Message>, userInput: string, r: (Acc, Option<Exc>), interrupted: bool)
    : TurnResult
  {
    match r.1
    case Some(e) => TurnResult(Raised(e), messages, r.0, [], interrupted || e.KeyboardInterrupt?)
    case None =>
      var reply := Concat(r.0.parts);
      if Strip(reply) == "" then TurnResult(Returned(""), messages, r.0, [EmptyResponseWarning], interrupted)
      else TurnResult(Returned(reply), messages + [UserMessage(userInput), AssistantMessage(reply)], r.0, [], interrupted)
  }

  // ---------------------------------------------------------------------
  // Properties of a turn
  // ---------------------------------------------------------------------

  /**
   * The transcript grows by exactly the user and assistant messages iff the
   * call returns a non-blank reply; otherwise (connect error, blank reply,
   * interruption, escaping exception) it is unchanged.
   */
  lemma TranscriptInvariant(messages: seq<Message>, u: string, c: Connect, items: seq<StreamItem>, flag: bool)
    ensures var t := Turn(messages, u, c, items, flag);
      && (t.outcome.Returned? && t.outcome.reply != "" <==> |t.transcript| == |messages| + 2)
      && (t.outcome.Returned? && t.outcome.reply != "" ==>
            Strip(t.outcome.reply) != "" &&
            t.transcript == messages + [UserMessage(u), AssistantMessage(t.outcome.reply)])
      && (!(t.outcome.Returned? && t.outcome.reply != "") ==> t.transcript == messages)
  {
    match ConnectPhase(c, items, flag)
    case Stop(_, _) =>
    case Proceed(n, first) =>
      FinalizeInvariant(messages, u, Rest(items, n, Acc(FirstParts(first), 0, 0, 0), flag), flag);
  }

  /** `TranscriptInvariant` for the part after the stream was read. */
  lemma FinalizeInvariant(messages: seq<Message>, u: string, r: (Acc, Option<Exc>), flag: bool)
    ensures var t := Finalize(messages, u, r, flag);
      && (t.outcome.Returned? && t.outcome.reply != "" <==> |t.transcript| == |messages| + 2)
      && (t.outcome.Returned? && t.outcome.reply != "" ==>
            Strip(t.outcome.reply) != "" &&
            t.transcript == messages + [UserMessage(u), AssistantMessage(t.outcome.reply)])
      && (!(t.outcome.Returned? && t.outcome.reply != "") ==> t.transcript == messages)
  {
    if r.1.None? && Strip(Concat(r.0.parts)) != "" {
      assert Concat(r.0.parts) != "";
    }
  }

  lemma {:induction false} WaitFirstFragments(items: seq<StreamItem>, i: nat)
    ensures WaitFirst(items, i, false).Found? ==>
      Fragments(items, i) == [WaitFirst(items, i, false).text] + Fragments(items, WaitFirst(items, i, false).next)
    ensures WaitFirst(items, i, false).Ended? ==> Fragments(items, i) == []
    decreases |items| - i
  {
    if i < |items| && items[i].Chunk? && Fragment(items[i].frame).None? {
      WaitFirstFragments(items, i + 1);
    }
  }

  lemma {:induction false} RestFragments(items: seq<StreamItem>, i: nat, acc: Acc)
    ensures Rest(items, i, acc, false).0.parts == acc.parts + Fragments(items, i)
    decreases |items| - i
  {
    if i < |items| && items[i].Chunk? {
      var f := items[i].frame;
      RestFragments(items, i + 1, Step(acc, f));
      assert Step(acc, f).parts == acc.parts + FragmentList(f);
    }
  }

  /**
   * The reply is the in-order concatenation of every non-empty fragment of
   * the stream, the first one included (for a call that was not interrupted).
   */
  lemma ReplyIsAllFragments(messages: seq<Message>, u: string, items: seq<StreamItem>)
    ensures var t := Turn(messages, u, Opened, items, false);
      t.outcome.Returned? && t.outcome.reply != "" ==> t.outcome.reply == Concat(Fragments(items, 0))
    ensures var t := Turn(messages, u, Opened, items, false);
      !WaitFirst(items, 0, false).Raising? ==> t.gathered.parts == Fragments(items, 0)
  {
    WaitFirstFragments(items, 0);
    match WaitFirst(items, 0, false)
    case Found(t, n) => RestFragments(items, n, Acc([t], 0, 0, 0));
    case Ended =>
    case Raising(_) =>
  }

  /** A stream without any content fragment returns "", warns once and leaves the transcript alone. */
  lemma NoContentWarnsOnce(messages: seq<Message>, u: string, items: seq<StreamItem>)
    requires Fragments(items, 0) == []
    requires forall i :: 0 <= i < |items| ==> !items[i].Fail?
    ensures var t := Turn(messages, u, Opened, items, false);
      t.outcome == Returned("") && t.notices == [EmptyResponseWarning] && t.transcript == messages
  {
    WaitFirstNoFail(items, 0);
    WaitFirstFragments(items, 0);
    ReplyIsAllFragments(messages, u, items);
  }

  lemma {:induction false} WaitFirstNoFail(items: seq<StreamItem>, i: nat)
    requires forall j :: 0 <= j < |items| ==> !items[j].Fail?
    ensures !WaitFirst(items, i, false).Raising?
    decreases |items| - i
  {
    if i < |items| {
      assert !items[i].Fail?;
      WaitFirstNoFail(items, i + 1);
    }
  }

  predicate RunsToEnd(items: seq<StreamItem>, i: nat)
  {
    forall j :: i <= j < |items| ==> items[j].Chunk?
  }

  /** A further chunk at the end of a stream is processed by one more `Step`. */
  lemma {:induction false} RestSnoc(items: seq<StreamItem>, i: nat, acc: Acc, f: Frame)
    requires i <= |items| && RunsToEnd(items, i)
    ensures Rest(items + [Chunk(f)], i, acc, false) == (Step(Rest(items, i, acc, false).0, f), None)
    ensures Rest(items, i, acc, false).1 == None
    decreases |items| - i
  {
    var s := items + [Chunk(f)];
    if i < |items| {
      assert s[i] == items[i];
      RestSnoc(items, i + 1, Step(acc, items[i].frame), f);
    } else {
      assert s[i] == Chunk(f);
    }
  }

  /**
   * A usage-only frame at the end of a streamed reply adds its prompt and
   * completion tokens and exactly one request to the counters.
   */
  lemma UsageFrameCountsOnce(messages: seq<Message>, u: string, items: seq<StreamItem>, usage: Usage)
    requires RunsToEnd(items, 0)
    requires WaitFirst(items, 0, false).Found?
    ensures var before := Turn(messages, u, Opened, items, false).gathered;
      var after := Turn(messages, u, Opened, items + [Chunk(Frame(None, Some(usage)))], false).gathered;
      && after.requests == before.requests + 1
      && after.promptTokens == before.promptTokens + TokensOf(usage.promptTokens)
      && after.completionTokens == before.completionTokens + TokensOf(usage.completionTokens)
      && after.parts == before.parts
  {
    var f := Frame(None, Some(usage));
    var n := WaitFirst(items, 0, false).next;
    WaitFirstPrefix(items, 0, Chunk(f));
    RestSnoc(items, n, Acc([WaitFirst(items, 0, false).text], 0, 0, 0), f);
  }

  lemma {:induction false} WaitFirstPrefix(items: seq<StreamItem>, i: nat, x: StreamItem)
    requires WaitFirst(items, i, false).Found?
    ensures WaitFirst(items + [x], i, false) == WaitFirst(items, i, false)
    decreases |items| - i
  {
    assert (items + [x])[i] == items[i];
    if items[i].Chunk? && Fragment(items[i].frame).None? {
      WaitFirstPrefix(items, i + 1, x);
    }
  }

  /**
   * Usage-only frames that arrive before the first fragment are skipped by
   * the wait loop: they never reach the counters.
   */
  lemma UsageBeforeFirstIgnored(messages: seq<Message>, u: string, items: seq<StreamItem>, usage: Usage)
    ensures Turn(messages, u, Opened, [Chunk(Frame(None, Some(usage)))] + items, false).gathered
         == Turn(messages, u, Opened, items, false).gathered
  {
    var s := [Chunk(Frame(None, Some(usage)))] + items;
    WaitFirstShift(items, 0, s[0]);
    match WaitFirst(items, 0, false)
    case Found(t, n) => RestShift(items, n, Acc([t], 0, 0, 0), s[0]);
    case Ended =>
    case Raising(_) =>
  }

  lemma {:induction false} WaitFirstShift(items: seq<StreamItem>, i: nat, x: StreamItem)
    requires x.Chunk? && Fragment(x.frame).None?
    ensures WaitFirst([x] + items, i + 1, false) == ShiftWait(WaitFirst(items, i, false))
    ensures i == 0 ==> WaitFirst([x] + items, 0, false) == ShiftWait(WaitFirst(items, 0, false))
    decreases |items| - i
  {
    if i < |items| {
      assert ([x] + items)[i + 1] == items[i];
      if items[i].Chunk? && Fragment(items[i].frame).None? {
        WaitFirstShift(items, i + 1, x);
      }
    }
  }

  function ShiftWait(w: Wait): Wait {
    match w case Found(t, n) => Found(t, n + 1) case other => other
  }

  lemma {:induction false} RestShift(items: seq<StreamItem>, i: nat, acc: Acc, x: StreamItem)
    ensures Rest([x] + items, i + 1, acc, false) == Rest(items, i, acc, false)
    decreases |items| - i
  {
    if i < |items| {
      assert ([x] + items)[i + 1] == items[i];
      if items[i].Chunk? {
        RestShift(items, i + 1, Step(acc, items[i].frame), x);
      }
    }
  }

  // ---------------------------------------------------------------------
  // The client and its stream processor
  // ---------------------------------------------------------------------

  class OpenRouterClient {
    const settings: GenSettings
    const apiKey: string
    const apiUrl: string
    /** Whether a demo manager is attached (`self._demo_manager` is truthy). */
    const demoAttached: bool
    var messages: seq<Message>
    var totalPromptTokens: nat
    var totalCompletionTokens: nat
    var totalRequests: nat
    /** `_client`: built on first use of `client`. */
    var sdk: Option<SdkClient>
    /** Chunks passed to the demo manager's `record_llm_chunk`. */
    var recordedChunks: seq<string>
    /** What was printed on the console. */
    var notices: seq<Notice>

    constructor (settings: GenSettings, apiKey: string, apiUrl: string, demoAttached: bool, messages: seq<Message>)
      ensures this.settings == settings && this.apiKey == apiKey && this.apiUrl == apiUrl
      ensures this.demoAttached == demoAttached && this.messages == messages
      ensures totalPromptTokens == 0 && totalCompletionTokens == 0 && totalRequests == 0
      ensures sdk == None && recordedChunks == [] && notices == []
    {
      this.settings := settings;
      this.apiKey := apiKey;
      this.apiUrl := apiUrl;
      this.demoAttached := demoAttached;
      this.messages := messages;
      totalPromptTokens, totalCompletionTokens, totalRequests := 0, 0, 0;
      sdk := None;
      recordedChunks := [];
      notices := [];
    }

    /** The `client` property: built once, then the same client on every access. */
    method Client() returns (c: SdkClient)
      modifies this`sdk
      ensures sdk == Some(c)
      ensures old(sdk).Some? ==> c == old(sdk).value
      ensures old(sdk).None? ==> c == SdkClient(apiKey, apiUrl, DefaultHeaders(apiUrl))
    {
      if sdk.None? {
        sdk := Some(SdkClient(apiKey, apiUrl, DefaultHeaders(apiUrl)));
      }
      c := sdk.value;
    }

    /** `ask_stream`: a fresh processor runs the turn. */
    method AskStream(userInput: string, connect: Connect, items: seq<StreamItem>) returns (out: Outcome)
      modifies this
      ensures var t := Turn(old(messages), userInput, connect, items, false);
        && out == t.outcome
        && messages == t.transcript
        && totalPromptTokens == old(totalPromptTokens) + t.gathered.promptTokens
        && totalCompletionTokens == old(totalCompletionTokens) + t.gathered.completionTokens
        && totalRequests == old(totalRequests) + t.gathered.requests
        && recordedChunks == old(recordedChunks) + (if demoAttached then t.gathered.parts else [])
        && notices == old(notices) + t.notices
      ensures sdk.Some?
    {
      var processor := new StreamProcessor(this);
      out := processor.Process(userInput, connect, items);
    }
  }

  class StreamProcessor {
    const client: OpenRouterClient
    var interrupted: bool
    var replyParts: seq<string>
    var userInput: string

    constructor (client: OpenRouterClient)
      ensures this.client == client && !interrupted && replyParts == [] && userInput == ""
    {
      this.client := client;
      interrupted := false;
      replyParts := [];
      userInput := "";
    }

    /**
     * `process(user_input)`: connect and wait for the first fragment, stream
     * the rest, then finalize.
     */
    method Process(u: string, connect: Connect, items: seq<StreamItem>) returns (out: Outcome)
      requires replyParts == []
      modifies this, client
      ensures var t := Turn(old(client.messages), u, connect, items, old(interrupted));
        && out == t.outcome
        && client.messages == t.transcript
        && client.totalPromptTokens == old(client.totalPromptTokens) + t.gathered.promptTokens
        && client.totalCompletionTokens == old(client.totalCompletionTokens) + t.gathered.completionTokens
        && client.totalRequests == old(client.totalRequests) + t.gathered.requests
        && client.recordedChunks == old(client.recordedChunks) +
             (if client.demoAttached then t.gathered.parts else [])
        && client.notices == old(client.notices) + t.notices
        && interrupted == t.interruptedAfter
      ensures client.sdk.Some?
    {
      ghost var flag, transcript := interrupted, client.messages;
      userInput := u;
      // Phase 1
      var phase := ConnectAndWait(connect, items);
      if phase.Stop? {
        assert Turn(transcript, u, connect, items, flag) == TurnResult(phase.out, transcript, NoAcc, phase.notices, true);
        return phase.out;
      }
      // Phases 2 and 3
      assert Turn(transcript, u, connect, items, flag)
          == Finalize(transcript, u, Rest(items, phase.next, Acc(FirstParts(phase.first), 0, 0, 0), flag), flag);
      out := StreamAndFinalize(items, phase.next, phase.first);
    }

    /** The rest of `process` once the first fragment (if any) is in `reply_parts`. */
    method StreamAndFinalize(items: seq<StreamItem>, next: nat, first: Option<string>) returns (out: Outcome)
      requires replyParts == FirstParts(first)
      modifies this`interrupted, this`replyParts, client`messages, client`notices,
               client`totalPromptTokens, client`totalCompletionTokens, client`totalRequests, client`recordedChunks
      ensures var t := Finalize(old(client.messages), userInput, Rest(items, next, Acc(FirstParts(first), 0, 0, 0), old(interrupted)), old(interrupted));
        && out == t.outcome
        && client.messages == t.transcript
        && client.totalPromptTokens == old(client.totalPromptTokens) + t.gathered.promptTokens
        && client.totalCompletionTokens == old(client.totalCompletionTokens) + t.gathered.completionTokens
        && client.totalRequests == old(client.totalRequests) + t.gathered.requests
        && client.recordedChunks == old(client.recordedChunks) +
             (if client.demoAttached then t.gathered.parts else [])
        && client.notices == old(client.notices) + t.notices
        && interrupted == t.interruptedAfter
    {
      var escaped := StreamWithLiveDisplay(items, next, first);
      if escaped.Some? {
        if escaped.value.KeyboardInterrupt? { interrupted := true; }
        return Raised(escaped.value);
      }
      out := FinalizeResponse(Concat(replyParts));
    }

    /** `_connect_and_wait`, with `process`'s reaction to how it ends. */
    method ConnectAndWait(connect: Connect, items: seq<StreamItem>) returns (phase: Phase1)
      modifies this`interrupted, this`replyParts, client`notices, client`sdk
      ensures phase == ConnectPhase(connect, items, old(interrupted))
      ensures phase.Stop? ==>
        interrupted && replyParts == old(replyParts) && client.notices == old(client.notices) + phase.notices
      ensures phase.Proceed? ==>
        && interrupted == old(interrupted)
        && replyParts == old(replyParts) + FirstParts(phase.first)
        && client.notices == old(client.notices)
      ensures client.sdk.Some?
    {
      // The request is built from the transcript; the user message is not committed.
      var _ := PrepareApiParams(client.settings, client.messages, userInput);
      var _ := client.Client();
      if connect.Refused? {
        interrupted := true;
        if connect.exc.KeyboardInterrupt? { return Stop(Raised(KeyboardInterrupt), []); }
        client.notices := client.notices + [HandledError(connect.exc)];
        return Stop(Returned(""), [HandledError(connect.exc)]);
      }
      var w := WaitFirstChunk(items);
      match w {
        case Raising(e) =>
          interrupted := true;
          if e.KeyboardInterrupt? { return Stop(Raised(e), []); }
          client.notices := client.notices + [HandledError(e)];
          return Stop(Returned(""), [HandledError(e)]);
        case Found(t, n) =>
          replyParts := replyParts + [t];
          return Proceed(n, Some(t));
        case Ended =>
          return Proceed(|items|, None);
      }
    }

    /** `_finalize_response`: commit both messages iff the reply is not blank. */
    method FinalizeResponse(reply: string) returns (out: Outcome)
      modifies client`messages, client`notices
      ensures Strip(reply) == "" ==>
        out == Returned("") && client.messages == old(client.messages)
        && client.notices == old(client.notices) + [EmptyResponseWarning]
      ensures Strip(reply) != "" ==>
        out == Returned(reply) && client.notices == old(client.notices)
        && client.messages == old(client.messages) + [UserMessage(userInput), AssistantMessage(reply)]
    {
      if Strip(reply) == "" {
        client.notices := client.notices + [EmptyResponseWarning];
        return Returned("");
      }
      client.messages := client.messages + [UserMessage(userInput), AssistantMessage(reply)];
      return Returned(reply);
    }

    /** `_wait_first_chunk`: the loop over the stream until the first fragment. */
    method WaitFirstChunk(items: seq<StreamItem>) returns (w: Wait)
      ensures w == WaitFirst(items, 0, interrupted)
    {
      var i := 0;
      while i < |items|
        invariant 0 <= i <= |items|
        invariant WaitFirst(items, i, interrupted) == WaitFirst(items, 0, interrupted)
      {
        match items[i] {
          case Fail(e) =>
            if Swallowed(e) { return Ended; }
            return Raising(e);
          case Chunk(f) =>
            if interrupted { return Raising(KeyboardInterrupt); }
            if HasChoices(f) && f.choices.value[0].delta.Some? {
              var content := f.choices.value[0].delta.value.content;
              if content.Some? && content.value != "" {
                return Found(content.value, i + 1);
              }
            }
        }
        i := i + 1;
      }
      return Ended;
    }

    /**
     * `_stream_with_live_display` from `items[next]`: fragments are appended
     * to `reply_parts` (and recorded for the demo), usage-only frames are
     * added to the client's counters.
     */
    method StreamWithLiveDisplay(items: seq<StreamItem>, next: nat, first: Option<string>)
      returns (escaped: Option<Exc>)
      requires replyParts == FirstParts(first)
      modifies this`replyParts, client`totalPromptTokens, client`totalCompletionTokens,
               client`totalRequests, client`recordedChunks
      ensures var r := Rest(items, next, Acc(old(replyParts), 0, 0, 0), interrupted);
        && escaped == r.1
        && replyParts == r.0.parts
        && client.totalPromptTokens == old(client.totalPromptTokens) + r.0.promptTokens
        && client.totalCompletionTokens == old(client.totalCompletionTokens) + r.0.completionTokens
        && client.totalRequests == old(client.totalRequests) + r.0.requests
        && client.recordedChunks == old(client.recordedChunks) +
             (if client.demoAttached then r.0.parts else [])
    {
      if first.Some? && client.demoAttached {
        client.recordedChunks := client.recordedChunks + [first.value];
      }
      var i := next;
      ghost var start := Acc(old(replyParts), 0, 0, 0);
      ghost var acc := start;
      while i < |items|
        invariant next <= i
        invariant Rest(items, i, acc, interrupted) == Rest(items, next, start, interrupted)
        invariant replyParts == acc.parts
        invariant client.totalPromptTokens == old(client.totalPromptTokens) + acc.promptTokens
        invariant client.totalCompletionTokens == old(client.totalCompletionTokens) + acc.completionTokens
        invariant client.totalRequests == old(client.totalRequests) + acc.requests
        invariant client.recordedChunks == old(client.recordedChunks) + (if client.demoAttached then acc.parts else [])
        decreases |items| - i
      {
        match items[i] {
          case Fail(e) =>
            if Swallowed(e) { return None; }
            return Some(e);
          case Chunk(f) =>
            if interrupted { return Some(KeyboardInterrupt); }
            if !HasChoices(f) {
              if f.usage.Some? {
                client.totalPromptTokens := client.totalPromptTokens + TokensOf(f.usage.value.promptTokens);
                client.totalCompletionTokens := client.totalCompletionTokens + TokensOf(f.usage.value.completionTokens);
                client.totalRequests := client.totalRequests + 1;
              }
            } else if f.choices.value[0].delta.Some? {
              var content := f.choices.value[0].delta.value.content;
              if content.Some? && content.value != "" {
                replyParts := replyParts + [content.value];
                if client.demoAttached {
                  client.recordedChunks := client.recordedChunks + [content.value];
                }
              }
            }
            acc := Step(acc, f);
        }
        i := i + 1;
      }
      return None;
    }
  }
}
