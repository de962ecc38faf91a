/**
 * The streamed chat-completion chunks every client version consumes, and
 * the request parameters they send.
 */
module Frames {
  import opened Base

  datatype Delta = Delta(content: Option<string>)
  datatype Choice = Choice(delta: Option<Delta>)
  /** `chunk.usage`; a missing counter reads as 0 (`getattr(usage, ..., 0)`). */
  datatype Usage = Usage(promptTokens: Option<nat>, completionTokens: Option<nat>)
  /** One chunk: `choices` is `None` when the attribute is missing or None. */
  datatype Frame = Frame(choices: Option<seq<Choice>>, usage: Option<Usage>)

  /**
   * One step of iterating the SDK stream: a chunk, or the exception the
   * iteration raised.  A stream that raised is finished: nothing after a
   * `Fail` is ever delivered.
   */
  datatype StreamItem = Chunk(frame: Frame) | Fail(exc: Exc)

  /** `hasattr(chunk, 'choices') and chunk.choices` */
  predicate HasChoices(f: Frame) { f.choices.Some? && |f.choices.value| > 0 }

  /**
   * The guarded read of the current client: the content of the first
   * choice's delta when choices, delta and a non-empty content are present.
   */
  function Fragment(f: Frame): (r: Option<string>)
    ensures r.Some? ==> r.value != "" && HasChoices(f)
  {
    if !HasChoices(f) || f.choices.value[0].delta.None? then None
    else match f.choices.value[0].delta.value.content
      case Some(c) => if c == "" then None else Some(c)
      case None => None
  }

  /** `except (AttributeError, IndexError)` */
  predicate Swallowed(e: Exc) {
    e.PyError? && (e.kind == AttributeError || e.kind == IndexError)
  }

  function FragmentList(f: Frame): seq<string> {
    match Fragment(f) case Some(t) => [t] case None => []
  }

  /**
   * The non-empty content fragments of `items[i..]`, in order, up to the
   * first item whose iteration raised.
   */
  function Fragments(items: seq<StreamItem>, i: nat): seq<string>
    decreases |items| - i
  {
    if i >= |items| then []
    else match items[i]
      case Fail(_) => []
      case Chunk(f) => FragmentList(f) + Fragments(items, i + 1)
  }

  /** Result of the unguarded `chunk.choices[0].delta.content` of the older clients. */
  datatype Read = Content(text: Option<string>) | Raises(exc: Exc)

  /**
   * `chunk.choices[0].delta.content` read without guards: a missing list
   * raises TypeError, an empty one IndexError, a missing delta
   * AttributeError; an empty content reads as absent (it is falsy).
   */
  function DirectContent(f: Frame): (r: Read)
    ensures r.Content? && r.text.Some? ==> Fragment(f) == r.text
    ensures HasChoices(f) && f.choices.value[0].delta.Some? ==> r == Content(Fragment(f))
  {
    if f.choices.None? then Raises(PyError(TypeError, "'NoneType' object is not subscriptable"))
    else if f.choices.value == [] then Raises(PyError(IndexError, "list index out of range"))
    else if f.choices.value[0].delta.None? then
      Raises(PyError(AttributeError, "'NoneType' object has no attribute 'content'"))
    else Content(Fragment(f))
  }

  function OptionList(t: Option<string>): seq<string> {
    match t case Some(s) => [s] case None => []
  }

  /**
   * A single unguarded pass over `items[i..]`: the contents read, in order,
   * and the exception that ended the pass, if any.
   */
  function DirectScan(items: seq<StreamItem>, i: nat): (seq<string>, Option<Exc>)
    decreases |items| - i
  {
    if i >= |items| then ([], None)
    else match items[i]
      case Fail(e) => ([], Some(e))
      case Chunk(f) =>
        match DirectContent(f)
        case Raises(e) => ([], Some(e))
        case Content(t) =>
          var r := DirectScan(items, i + 1);
          (OptionList(t) + r.0, r.1)
  }

  /**
   * When no read raises, the unguarded pass collects exactly the non-empty
   * content fragments the guarded read would.
   */
  lemma {:induction false} DirectScanFragments(items: seq<StreamItem>, i: nat)
    ensures DirectScan(items, i).1.None? ==> DirectScan(items, i).0 == Fragments(items, i)
    decreases |items| - i
  {
    if i < |items| && items[i].Chunk? {
      var f := items[i].frame;
      if DirectContent(f).Content? {
        DirectScanFragments(items, i + 1);
        assert OptionList(DirectContent(f).text) == FragmentList(f);
      }
    }
  }

  /** One chunk read without an exception, seen from what was read before it. */
  lemma ScanChunk(items: seq<StreamItem>, i: nat, parts: seq<string>)
    requires i < |items| && items[i].Chunk? && DirectContent(items[i].frame).Content?
    ensures var t := DirectContent(items[i].frame).text;
      var r := DirectScan(items, i + 1);
      && DirectScan(items, i).1 == r.1
      && parts + DirectScan(items, i).0 == (parts + OptionList(t)) + r.0
      && parts + OptionList(t) == (if t.Some? then parts + [t.value] else parts)
  {
    var t := DirectContent(items[i].frame).text;
    var r := DirectScan(items, i + 1);
    assert DirectScan(items, i) == (OptionList(t) + r.0, r.1);
    assert parts + (OptionList(t) + r.0) == (parts + OptionList(t)) + r.0;
    if t.None? {
      assert parts + OptionList(t) == parts;
    }
  }

  /** `for chunk in stream` with the unguarded read, from item `start` on. */
  method ReadRest(items: seq<StreamItem>, start: nat) returns (parts: seq<string>, raised: Option<Exc>)
    ensures (parts, raised) == DirectScan(items, start)
  {
    parts := [];
    var i := start;
    while i < |items|
      invariant start <= i
      invariant parts + DirectScan(items, i).0 == DirectScan(items, start).0
      invariant DirectScan(items, i).1 == DirectScan(items, start).1
      decreases |items| - i
    {
      match items[i] {
        case Fail(e) =>
          assert parts + [] == parts;
          return parts, Some(e);
        case Chunk(f) =>
          var read := DirectContent(f);
          if read.Raises? {
            assert parts + [] == parts;
            return parts, Some(read.exc);
          }
          ScanChunk(items, i, parts);
          if read.text.Some? {
            parts := parts + [read.text.value];
          }
      }
      i := i + 1;
    }
    assert parts + [] == parts;
    return parts, None;
  }

  /** Outcome of `create(**api_params)`: the stream opened, or the exception it raised. */
  datatype Connect = Opened | Refused(exc: Exc)

  /** What a call returns to its caller: a value, or an exception it lets escape. */
  datatype Outcome = Returned(reply: string) | Raised(exc: Exc)

  /** The string the `aiebash` clients return in place of a reply when a request fails. */
  function ErrorReply(): string { "Ошибка при получении ответа." }

  /**
   * One call of an `aiebash` client: what it returns or raises, the
   * transcript after it, and the error message it printed, if any.
   */
  datatype Turned = Turned(out: Outcome, messages: seq<Message>, notice: Option<string>)

  /** The SDK client a `client` property builds: key, base URL and default headers. */
  datatype SdkClient = SdkClient(apiKey: string, baseUrl: string, headers: map<string, string>)

  /** The generation settings a client sends with every request. */
  datatype GenSettings = GenSettings(
    model: string,
    temperature: real,
    maxTokens: Option<int>,
    topP: Option<real>,
    frequencyPenalty: Option<real>,
    presencePenalty: Option<real>,
    stop: Option<seq<string>>,
    seed: Option<int>)

  /** A value in the keyword arguments of `chat.completions.create`. */
  datatype ParamValue =
    | PString(s: string)
    | PReal(r: real)
    | PInt(i: int)
    | PBool(b: bool)
    | PNone
    | PMessages(messages: seq<Message>)
    | PStop(stop: seq<string>)
    | PDict(entries: map<string, ParamValue>)

  function OptReal(x: Option<real>): ParamValue {
    match x case Some(v) => PReal(v) case None => PNone
  }

  /**
   * The optional keys both client versions add: `max_tokens`, `stop` and
   * `seed` when not None, `top_p` when not None and not 1.0, and each
   * penalty when it differs from 0.0 (so a None penalty is sent as None).
   */
  function WithOptional(base: map<string, ParamValue>, g: GenSettings): (p: map<string, ParamValue>)
  {
    var p1 := if g.maxTokens.Some? then base["max_tokens" := PInt(g.maxTokens.value)] else base;
    var p2 := if g.topP.Some? && g.topP.value != 1.0 then p1["top_p" := PReal(g.topP.value)] else p1;
    var p3 := if g.frequencyPenalty != Some(0.0) then p2["frequency_penalty" := OptReal(g.frequencyPenalty)] else p2;
    var p4 := if g.presencePenalty != Some(0.0) then p3["presence_penalty" := OptReal(g.presencePenalty)] else p3;
    var p5 := if g.stop.Some? then p4["stop" := PStop(g.stop.value)] else p4;
    if g.seed.Some? then p5["seed" := PInt(g.seed.value)] else p5
  }

  const OptionalKeys: set<string> :=
    {"max_tokens", "top_p", "frequency_penalty", "presence_penalty", "stop", "seed"}

  /** Which optional keys are sent, and with what value; other keys pass through. */
  lemma WithOptionalKeys(base: map<string, ParamValue>, g: GenSettings)
    requires base.Keys !! OptionalKeys
    ensures var p := WithOptional(base, g);
      && (forall k :: k in base ==> k in p && p[k] == base[k])
      && p.Keys <= base.Keys + OptionalKeys
      && ("max_tokens" in p <==> g.maxTokens.Some?)
      && (g.maxTokens.Some? ==> p["max_tokens"] == PInt(g.maxTokens.value))
      && ("top_p" in p <==> g.topP.Some? && g.topP.value != 1.0)
      && ("top_p" in p ==> p["top_p"] == PReal(g.topP.value))
      && ("frequency_penalty" in p <==> g.frequencyPenalty != Some(0.0))
      && ("frequency_penalty" in p ==> p["frequency_penalty"] == OptReal(g.frequencyPenalty))
      && ("presence_penalty" in p <==> g.presencePenalty != Some(0.0))
      && ("presence_penalty" in p ==> p["presence_penalty"] == OptReal(g.presencePenalty))
      && ("stop" in p <==> g.stop.Some?)
      && (g.stop.Some? ==> p["stop"] == PStop(g.stop.value))
      && ("seed" in p <==> g.seed.Some?)
      && (g.seed.Some? ==> p["seed"] == PInt(g.seed.value))
  {
  }
}
