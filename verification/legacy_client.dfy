/**
 * The earlier streaming client `penguin_tamer.llm_client.OpenRouterClient`:
 * it commits the educational and user messages before the request, reads
 * every chunk with the unguarded `chunk.choices[0].delta.content`, appends
 * the assistant reply without a blank check and re-raises every exception.
 */
module LegacyClient {
  import opened Base
  import opened Text
  import opened Frames

  // ---------------------------------------------------------------------
  // Request parameters
  // ---------------------------------------------------------------------

  /**
   * The keyword arguments of `create`: model, transcript, temperature and
   * `stream=True` always, the optional keys by the shared rule, and no
   * `stream_options`.
   */
  function ApiParams(g: GenSettings, messages: seq<Message>): (p: map<string, ParamValue>)
    ensures "model" in p && p["model"] == PString(g.model)
    ensures "messages" in p && p["messages"] == PMessages(messages)
    ensures "temperature" in p && p["temperature"] == PReal(g.temperature)
    ensures "stream" in p && p["stream"] == PBool(true)
  {
    var base := BaseParams(g, messages);
    WithOptionalKeys(base, g);
    WithOptional(base, g)
  }

  function BaseParams(g: GenSettings, messages: seq<Message>): map<string, ParamValue> {
    map["model" := PString(g.model), "messages" := PMessages(messages),
        "temperature" := PReal(g.temperature), "stream" := PBool(true)]
  }

  /** No `stream_options`; the optional keys follow the shared inclusion rule. */
  lemma ApiParamsOptional(g: GenSettings, messages: seq<Message>)
    ensures var p := ApiParams(g, messages);
      && "stream_options" !in p
      && ("max_tokens" in p <==> g.maxTokens.Some?)
      && ("top_p" in p <==> g.topP.Some? && g.topP.value != 1.0)
      && ("frequency_penalty" in p <==> g.frequencyPenalty != Some(0.0))
      && ("presence_penalty" in p <==> g.presencePenalty != Some(0.0))
      && ("stop" in p <==> g.stop.Some?)
      && ("seed" in p <==> g.seed.Some?)
  {
    WithOptionalKeys(BaseParams(g, messages), g);
  }

  // ---------------------------------------------------------------------
  // One streamed turn: the specification
  // ---------------------------------------------------------------------

  /** The first loop: the first content, the end of the stream, or an escaping exception. */
  datatype Wait = Found(text: string, next: nat) | Ended | Raising(exc: Exc)

  function DirectWait(items: seq<StreamItem>, i: nat): Wait
    decreases |items| - i
  {
    if i >= |items| then Ended
    else match items[i]
      case Fail(e) => Raising(e)
      case Chunk(f) =>
        match DirectContent(f)
        case Raises(e) => Raising(e)
        case Content(t) => if t.Some? then Found(t.value, i + 1) else DirectWait(items, i + 1)
  }

  /**
   * `ask_stream` as a function of the transcript before the call: what it
   * returns or raises, and the transcript after it.  The educational and
   * user messages are committed first; a completed stream appends the
   * reply as it is, blank or not.
   */
  function Turn(messages: seq<Message>, educational: seq<Message>, u: string,
                connect: Connect, items: seq<StreamItem>): (Outcome, seq<Message>)
  {
    var sent := messages + educational + [UserMessage(u)];
    if connect.Refused? then (Raised(connect.exc), sent)
    else match DirectWait(items, 0)
      case Raising(e) => (Raised(e), sent)
      case Ended => (Returned(""), sent + [AssistantMessage("")])
      case Found(t, n) =>
        var r := DirectScan(items, n);
        if r.1.Some? then (Raised(r.1.value), sent)
        else (Returned(Concat([t] + r.0)), sent + [AssistantMessage(Concat([t] + r.0))])
  }

  lemma {:induction false} DirectWaitScan(items: seq<StreamItem>, i: nat)
    ensures DirectWait(items, i).Found? ==>
      DirectScan(items, i) == ([DirectWait(items, i).text] + DirectScan(items, DirectWait(items, i).next).0,
                               DirectScan(items, DirectWait(items, i).next).1)
    ensures DirectWait(items, i).Ended? ==> DirectScan(items, i) == ([], None)
    ensures DirectWait(items, i).Raising? ==> DirectScan(items, i) == ([], Some(DirectWait(items, i).exc))
    decreases |items| - i
  {
    if i < |items| && items[i].Chunk? {
      var d := DirectContent(items[i].frame);
      if d.Content? {
        var r := DirectScan(items, i + 1);
        assert DirectScan(items, i) == (OptionList(d.text) + r.0, r.1);
        if d.text.None? {
          assert OptionList(d.text) + r.0 == r.0;
          DirectWaitScan(items, i + 1);
        }
      }
    }
  }

  /**
   * The two loops of `ask_stream` read the stream as one pass: the call
   * returns the concatenation of every content read, or raises the first
   * exception of that pass.
   */
  lemma OnePass(messages: seq<Message>, educational: seq<Message>, u: string, items: seq<StreamItem>)
    ensures var s := DirectScan(items, 0);
      Turn(messages, educational, u, Opened, items).0 ==
        (if s.1.Some? then Raised(s.1.value) else Returned(Concat(s.0)))
  {
    DirectWaitScan(items, 0);
  }

  /**
   * The transcript grows by the educational messages and the user message
   * on every path, and by the assistant reply exactly when the call returns.
   */
  lemma TranscriptGrowth(messages: seq<Message>, educational: seq<Message>, u: string,
                         connect: Connect, items: seq<StreamItem>)
    ensures var (out, after) := Turn(messages, educational, u, connect, items);
      && after[..|messages| + |educational| + 1] == messages + educational + [UserMessage(u)]
      && (out.Returned? ==> after == messages + educational + [UserMessage(u), AssistantMessage(out.reply)])
      && (out.Raised? ==> after == messages + educational + [UserMessage(u)])
      && |after| == |messages| + |educational| + (if out.Returned? then 2 else 1)
  {
  }

  // ---------------------------------------------------------------------
  // Debug listing of a request
  // ---------------------------------------------------------------------

  const TruncateAt: nat := 500
  const NoteHead := "\n\n[dim]... (truncated, total "
  const NoteTail := " chars)[/dim]"

  /** The panel text of one message: long content is cut with a note giving its full length. */
  function DisplayContent(c: string): string {
    if |c| > TruncateAt then c[..TruncateAt] + NoteHead + NatToString(|c|) + NoteTail else c
  }

  /** Short content is shown whole; long content keeps its first 500 characters, then the note. */
  lemma DisplayContentShape(c: string)
    ensures var d := DisplayContent(c);
      && (|c| <= TruncateAt ==> d == c)
      && (|c| > TruncateAt ==>
            && |d| > TruncateAt
            && d[..TruncateAt] == c[..TruncateAt]
            && StartsWith(d[TruncateAt..], NoteHead)
            && EndsWith(d, NoteTail))
  {
  }

  /** The note of a cut message states the message's full length. */
  lemma TruncationNoteCounts(c: string)
    requires |c| > TruncateAt
    ensures var d := DisplayContent(c);
      var number := d[TruncateAt + |NoteHead|..|d| - |NoteTail|];
      IsDigits(number) && DigitsValue(number) == |c|
  {
    var d := DisplayContent(c);
    assert d[TruncateAt + |NoteHead|..|d| - |NoteTail|] == NatToString(|c|);
    NatToStringValue(|c|);
  }

  /**
   * `debug_print_messages`: the content shown for each message, in order,
   * and the character total of the closing line.
   */
  method DebugPrintMessages(messages: seq<Message>) returns (shown: seq<string>, total: nat)
    ensures |shown| == |messages|
    ensures forall i :: 0 <= i < |messages| ==> shown[i] == DisplayContent(messages[i].content)
    ensures total == TotalChars(messages)
  {
    shown := [];
    total := 0;
    var i := 0;
    while i < |messages|
      invariant 0 <= i <= |messages|
      invariant |shown| == i
      invariant forall j {:trigger shown[j]} :: 0 <= j < i ==> shown[j] == DisplayContent(messages[j].content)
      invariant total == TotalChars(messages[..i])
    {
      var content := messages[i].content;
      var display := Truncated(content);
      shown := shown + [display];
      assert messages[..i + 1][..i] == messages[..i];
      total := total + |content|;
      i := i + 1;
    }
    assert messages[..i] == messages;
  }

  /** The body of the loop: the content cut at 500 characters with a note of its length. */
  method Truncated(content: string) returns (display: string)
    ensures display == DisplayContent(content)
  {
    display := if |content| > 500 then content[..500] + NoteHead + NatToString(|content|) + NoteTail else content;
  }

  // ---------------------------------------------------------------------
  // The client
  // ---------------------------------------------------------------------

  /** A Python value as `__str__` sees it in the instance dictionary. */
  datatype PyValue =
    | VStr(s: string)
    | VReal(r: real)
    | VInt(i: int)
    | VNone
    | VStrList(items: seq<string>)
    | VMessages(ms: seq<Message>)
    | VObject(typeName: string)

  function OptRealValue(x: Option<real>): PyValue { match x case Some(r) => VReal(r) case None => VNone }
  function OptIntValue(x: Option<int>): PyValue { match x case Some(i) => VInt(i) case None => VNone }

  /** The instance attributes of the client, in the order `__init__` assigns them. */
  datatype Field =
    | Console | ApiKey | ApiUrl | Model | Temperature | MaxTokens | TopP
    | FrequencyPenalty | PresencePenalty | Stop | Seed | Messages | SdkField

  /** The attribute's name in `self.__dict__`. */
  function FieldName(f: Field): string {
    match f
    case Console => "console"
    case ApiKey => "api_key"
    case ApiUrl => "api_url"
    case Model => "model"
    case Temperature => "temperature"
    case MaxTokens => "max_tokens"
    case TopP => "top_p"
    case FrequencyPenalty => "frequency_penalty"
    case PresencePenalty => "presence_penalty"
    case Stop => "stop"
    case Seed => "seed"
    case Messages => "messages"
    case SdkField => "_client"
  }

  /** `messages`, `console` and `_client` are skipped by `__str__`. */
  predicate Hidden(f: Field) { f == Messages || f == Console || f == SdkField }

  /** How one attribute enters the `items` dictionary of `__str__`: skipped, masked or as is. */
  function Visible(kv: (Field, PyValue), mask: string -> string): seq<(Field, PyValue)> {
    var (k, v) := kv;
    if k == ApiKey then [(k, if v.VStr? then VStr(mask(v.s)) else v)]
    else if Hidden(k) then []
    else [(k, v)]
  }

  /** The `items` dictionary of `__str__`. */
  function Shown(attrs: seq<(Field, PyValue)>, mask: string -> string): seq<(Field, PyValue)>
  {
    if attrs == [] then [] else Visible(attrs[0], mask) + Shown(attrs[1..], mask)
  }

  /** Shown entries are exactly the visible attributes, the key masked. */
  lemma {:induction false} ShownEntries(attrs: seq<(Field, PyValue)>, mask: string -> string)
    ensures forall e :: e in Shown(attrs, mask) ==> !Hidden(e.0)
    ensures forall i :: 0 <= i < |attrs| && !Hidden(attrs[i].0) && attrs[i].0 != ApiKey ==>
      attrs[i] in Shown(attrs, mask)
    ensures forall e :: e in Shown(attrs, mask) && e.0 != ApiKey ==> e in attrs
    ensures forall s :: (ApiKey, VStr(s)) in attrs ==> (ApiKey, VStr(mask(s))) in Shown(attrs, mask)
    decreases |attrs|
  {
    if attrs != [] {
      ShownEntries(attrs[1..], mask);
      forall i | 0 <= i < |attrs| && !Hidden(attrs[i].0) && attrs[i].0 != ApiKey
        ensures attrs[i] in Shown(attrs, mask)
      {
        if i > 0 { assert attrs[i] == attrs[1..][i - 1]; }
      }
      forall s | (ApiKey, VStr(s)) in attrs
        ensures (ApiKey, VStr(mask(s))) in Shown(attrs, mask)
      {
        if attrs[0] != (ApiKey, VStr(s)) {
          assert (ApiKey, VStr(s)) in attrs[1..];
        }
      }
    }
  }

  /** The `  key=repr,` lines of `__str__`. */
  function ItemLines(items: seq<(Field, PyValue)>, repr: PyValue -> string): (lines: seq<string>)
    ensures |lines| == |items|
    ensures forall i :: 0 <= i < |items| ==> lines[i] == "  " + FieldName(items[i].0) + "=" + repr(items[i].1) + ","
  {
    if items == [] then []
    else ["  " + FieldName(items[0].0) + "=" + repr(items[0].1) + ","] + ItemLines(items[1..], repr)
  }

  function StopValue(stop: Option<seq<string>>): PyValue {
    match stop case Some(x) => VStrList(x) case None => VNone
  }

  /** `self.__dict__` of a client, in assignment order. */
  function AttributesOf(console: string, apiKey: string, apiUrl: string, g: GenSettings,
                        messages: seq<Message>, sdk: Option<SdkClient>): seq<(Field, PyValue)>
  {
    [(Console, VObject(console)),
     (ApiKey, VStr(apiKey)),
     (ApiUrl, VStr(apiUrl)),
     (Model, VStr(g.model)),
     (Temperature, VReal(g.temperature)),
     (MaxTokens, OptIntValue(g.maxTokens)),
     (TopP, OptRealValue(g.topP)),
     (FrequencyPenalty, OptRealValue(g.frequencyPenalty)),
     (PresencePenalty, OptRealValue(g.presencePenalty)),
     (Stop, StopValue(g.stop)),
     (Seed, OptIntValue(g.seed)),
     (Messages, VMessages(messages)),
     (SdkField, if sdk.Some? then VObject("OpenAI") else VNone)]
  }

  /** The first `for chunk in stream` of `ask_stream`: stops at the first content. */
  method ReadFirst(items: seq<StreamItem>) returns (w: Wait)
    ensures w == DirectWait(items, 0)
  {
    var i := 0;
    while i < |items|
      invariant 0 <= i <= |items|
      invariant DirectWait(items, i) == DirectWait(items, 0)
    {
      match items[i] {
        case Fail(e) => return Raising(e);
        case Chunk(f) =>
          var read := DirectContent(f);
          if read.Raises? { return Raising(read.exc); }
          if read.text.Some? { return Found(read.text.value, i + 1); }
      }
      i := i + 1;
    }
    return Ended;
  }

  /** The first loop of `__str__`: the visible attributes, the key masked. */
  method CollectItems(attrs: seq<(Field, PyValue)>, mask: string -> string) returns (items: seq<(Field, PyValue)>)
    ensures items == Shown(attrs, mask)
  {
    items := [];
    var i := 0;
    while i < |attrs|
      invariant 0 <= i <= |attrs|
      invariant items == Shown(attrs[..i], mask)
    {
      ShownSnoc(attrs, i, mask);
      var k, v := attrs[i].0, attrs[i].1;
      if k == ApiKey {
        items := items + [(k, if v.VStr? then VStr(mask(v.s)) else v)];
      } else if k == Messages || k == Console || k == SdkField {
      } else {
        items := items + [(k, v)];
      }
      i := i + 1;
    }
    assert attrs[..i] == attrs;
  }

  lemma {:induction false} ShownAppend(a: seq<(Field, PyValue)>, b: seq<(Field, PyValue)>, mask: string -> string)
    ensures Shown(a + b, mask) == Shown(a, mask) + Shown(b, mask)
    decreases |a|
  {
    if a == [] {
      assert a + b == b;
    } else {
      assert (a + b)[1..] == a[1..] + b;
      ShownAppend(a[1..], b, mask);
    }
  }

  lemma ShownSnoc(a: seq<(Field, PyValue)>, i: nat, mask: string -> string)
    requires i < |a|
    ensures Shown(a[..i + 1], mask) == Shown(a[..i], mask) + Visible(a[i], mask)
  {
    assert a[..i + 1] == a[..i] + [a[i]];
    ShownAppend(a[..i], [a[i]], mask);
    assert Shown([a[i]], mask) == Visible(a[i], mask) + Shown([], mask);
  }

  /** The second loop of `__str__`: the class header, one line per item, the closing parenthesis. */
  method RenderLines(items: seq<(Field, PyValue)>, repr: PyValue -> string) returns (parts: seq<string>)
    ensures parts == ["OpenRouterClient("] + ItemLines(items, repr) + [")"]
  {
    parts := ["OpenRouterClient("];
    var j := 0;
    while j < |items|
      invariant 0 <= j <= |items|
      invariant parts == ["OpenRouterClient("] + ItemLines(items[..j], repr)
    {
      ItemLinesSnoc(items, j, repr);
      parts := parts + ["  " + FieldName(items[j].0) + "=" + repr(items[j].1) + ","];
      j := j + 1;
    }
    assert items[..j] == items;
    parts := parts + [")"];
  }

  lemma ItemLinesSnoc(items: seq<(Field, PyValue)>, j: nat, repr: PyValue -> string)
    requires j < |items|
    ensures ItemLines(items[..j + 1], repr) ==
      ItemLines(items[..j], repr) + ["  " + FieldName(items[j].0) + "=" + repr(items[j].1) + ","]
  {
    var l := ItemLines(items[..j + 1], repr);
    var r := ItemLines(items[..j], repr) + ["  " + FieldName(items[j].0) + "=" + repr(items[j].1) + ","];
    assert |l| == |r|;
    forall k | 0 <= k < |l| ensures l[k] == r[k] {
      assert items[..j + 1][k] == items[k];
      if k < j { assert items[..j][k] == items[k]; }
    }
  }

  class OpenRouterClient {
    const settings: GenSettings
    const apiKey: string
    const apiUrl: string
    /** The console object the client was built with (only its type name matters here). */
    const console: string
    var messages: seq<Message>
    /** `_client`, built on first use of `client`. */
    var sdk: Option<SdkClient>

    /** `__init__`: the transcript starts as the system message alone. */
    constructor (console: string, apiKey: string, apiUrl: string, settings: GenSettings, systemMessage: Message)
      ensures this.console == console && this.apiKey == apiKey && this.apiUrl == apiUrl
      ensures this.settings == settings
      ensures messages == [systemMessage] && sdk == None
    {
      this.console := console;
      this.apiKey := apiKey;
      this.apiUrl := apiUrl;
      this.settings := settings;
      messages := [systemMessage];
      sdk := None;
    }

    /** The `client` property: built once from the key and URL, then reused. */
    method Client() returns (c: SdkClient)
      modifies this`sdk
      ensures sdk == Some(c)
      ensures old(sdk).Some? ==> c == old(sdk).value
      ensures old(sdk).None? ==> c == SdkClient(apiKey, apiUrl, map[])
    {
      if sdk.None? {
        sdk := Some(SdkClient(apiKey, apiUrl, map[]));
      }
      c := sdk.value;
    }

    /** `self.__dict__` in assignment order. */
    function Attributes(): seq<(Field, PyValue)>
      reads this
    {
      AttributesOf(console, apiKey, apiUrl, settings, messages, sdk)
    }

    /**
     * `__str__`: one `key=repr` line per visible attribute between the class
     * header and `)`.  `mask` is the key display helper and `repr` Python's
     * `repr`, both outside this model.
     */
    method ToString(mask: string -> string, repr: PyValue -> string) returns (s: string)
      ensures s == Join(["OpenRouterClient("] + ItemLines(Shown(Attributes(), mask), repr) + [")"], "\n")
    {
      var items := CollectItems(Attributes(), mask);
      var parts := RenderLines(items, repr);
      s := Join(parts, "\n");
    }

    /**
     * `ask_stream`: commit the educational and user messages, read the first
     * content, then the rest of the stream, and append the reply.  Every
     * exception (KeyboardInterrupt included) escapes.
     */
    method AskStream(userInput: string, educational: seq<Message>, connect: Connect, items: seq<StreamItem>)
      returns (out: Outcome)
      modifies this`messages, this`sdk
      ensures (out, messages) == Turn(old(messages), educational, userInput, connect, items)
      ensures sdk.Some?
    {
      messages := messages + educational;
      messages := messages + [UserMessage(userInput)];
      var _ := ApiParams(settings, messages);
      var _ := Client();
      if connect.Refused? {
        return Raised(connect.exc);
      }
      var w := ReadFirst(items);
      var parts: seq<string>;
      var raised: Option<Exc>;
      match w {
        case Raising(e) => return Raised(e);
        case Ended => parts, raised := [], None;
        case Found(t, n) =>
          var rest;
          rest, raised := ReadRest(items, n);
          parts := [t] + rest;
      }
      if raised.Some? {
        return Raised(raised.value);
      }
      var reply := Concat(parts);
      messages := messages + [AssistantMessage(reply)];
      return Returned(reply);
    }
  }
}
