/**
 * `debug_print_messages` of the debug module: the request dictionary it
 * rebuilds from the client's settings, the titles and colours of each
 * phase, and the sequence of lines and panels it prints.
 */
module Debug {
  import opened Base
  import opened Text

  // ---- the client's settings ----------------------------------------------

  /** The generation settings read from the client; `None` is Python's None. */
  datatype Settings = Settings(
    model: Option<string>,
    temperature: Option<real>,
    maxTokens: Option<int>,
    topP: Option<real>,
    frequencyPenalty: Option<real>,
    presencePenalty: Option<real>,
    stop: Option<JValue>,
    seed: Option<int>)

  /** Without a client every setting is None. */
  function SettingsOf(client: Option<Settings>): (s: Settings)
    ensures client.None? ==>
      && s.model.None? && s.temperature.None? && s.maxTokens.None? && s.topP.None?
      && s.frequencyPenalty.None? && s.presencePenalty.None? && s.stop.None? && s.seed.None?
    ensures client.Some? ==> s == client.value
  {
    match client
    case Some(c) => c
    case None => Settings(None, None, None, None, None, None, None, None)
  }

  // ---- an insertion-ordered dictionary ------------------------------------

  /** A Python dict: its keys in insertion order, and what each maps to. */
  datatype Dict = Dict(keys: seq<string>, values: map<string, JValue>)

  /** `d[k] = v`: a new key goes to the end, an existing key keeps its place. */
  function Put(d: Dict, k: string, v: JValue): Dict {
    if k in d.values then Dict(d.keys, d.values[k := v]) else Dict(d.keys + [k], d.values[k := v])
  }

  function PutIf(d: Dict, sent: bool, k: string, v: JValue): Dict {
    if sent then Put(d, k, v) else d
  }

  function StrOrNull(o: Option<string>): JValue { if o.Some? then JStr(o.value) else JNull }
  function NumOrNull(o: Option<real>): JValue { if o.Some? then JNum(o.value) else JNull }
  function IntOrNull(o: Option<int>): JValue { if o.Some? then JInt(o.value) else JNull }
  function ValueOrNull(o: Option<JValue>): JValue { if o.Some? then o.value else JNull }

  /** A message as the dictionary `{"role": ..., "content": ...}`. */
  function MessageValue(m: Message): JValue {
    JObj(map["role" := JStr(m.role), "content" := JStr(m.content)])
  }

  function MessagesValue(ms: seq<Message>): JValue {
    JList(seq(|ms|, i requires 0 <= i < |ms| => MessageValue(ms[i])))
  }

  // ---- the request dictionary ---------------------------------------------

  /** `api_request`: the three fixed keys, then each optional key in turn. */
  function ApiRequest(messages: seq<Message>, s: Settings): Dict {
    WithStopSeed(WithPenalties(WithSampling(Fixed(messages, s), s), s), s)
  }

  function Fixed(messages: seq<Message>, s: Settings): Dict {
    Put(Put(Put(Dict([], map[]), "model", StrOrNull(s.model)), "messages", MessagesValue(messages)),
        "stream", JBool(true))
  }

  /** temperature and max_tokens unless None, top_p unless None or 1.0 */
  function WithSampling(d: Dict, s: Settings): Dict {
    var d := PutIf(d, s.temperature.Some?, "temperature", NumOrNull(s.temperature));
    var d := PutIf(d, s.maxTokens.Some?, "max_tokens", IntOrNull(s.maxTokens));
    PutIf(d, s.topP.Some? && s.topP.value != 1.0, "top_p", NumOrNull(s.topP))
  }

  /** each penalty unless None or 0.0 */
  function WithPenalties(d: Dict, s: Settings): Dict {
    var d := PutIf(d, s.frequencyPenalty.Some? && s.frequencyPenalty.value != 0.0,
                   "frequency_penalty", NumOrNull(s.frequencyPenalty));
    PutIf(d, s.presencePenalty.Some? && s.presencePenalty.value != 0.0,
          "presence_penalty", NumOrNull(s.presencePenalty))
  }

  /** stop and seed unless None */
  function WithStopSeed(d: Dict, s: Settings): Dict {
    var d := PutIf(d, s.stop.Some?, "stop", ValueOrNull(s.stop));
    PutIf(d, s.seed.Some?, "seed", IntOrNull(s.seed))
  }

  /** Every key the request can hold, in the order the code adds them. */
  const RequestKeys: seq<string> :=
    ["model", "messages", "stream", "temperature", "max_tokens", "top_p",
     "frequency_penalty", "presence_penalty", "stop", "seed"]

  /**
   * Whether key `k` is sent: the first three always; `top_p` unless None or
   * 1.0; the penalties unless None or 0.0; the others unless None.
   */
  predicate Sent(s: Settings, k: string) {
    if k == "temperature" then s.temperature.Some?
    else if k == "max_tokens" then s.maxTokens.Some?
    else if k == "top_p" then s.topP.Some? && s.topP.value != 1.0
    else if k == "frequency_penalty" then s.frequencyPenalty.Some? && s.frequencyPenalty.value != 0.0
    else if k == "presence_penalty" then s.presencePenalty.Some? && s.presencePenalty.value != 0.0
    else if k == "stop" then s.stop.Some?
    else if k == "seed" then s.seed.Some?
    else true
  }

  /** The value sent under key `k`. */
  function Value(messages: seq<Message>, s: Settings, k: string): JValue {
    if k == "model" then StrOrNull(s.model)
    else if k == "messages" then MessagesValue(messages)
    else if k == "stream" then JBool(true)
    else if k == "temperature" then NumOrNull(s.temperature)
    else if k == "max_tokens" then IntOrNull(s.maxTokens)
    else if k == "top_p" then NumOrNull(s.topP)
    else if k == "frequency_penalty" then NumOrNull(s.frequencyPenalty)
    else if k == "presence_penalty" then NumOrNull(s.presencePenalty)
    else if k == "stop" then ValueOrNull(s.stop)
    else if k == "seed" then IntOrNull(s.seed)
    else JNull
  }

  /** The keys of `ks` that are sent, in the order of `ks`. */
  function SentKeys(s: Settings, ks: seq<string>): (r: seq<string>)
    ensures forall k :: k in r <==> k in ks && Sent(s, k)
  {
    if ks == [] then []
    else SentKeys(s, ks[..|ks| - 1]) + (if Sent(s, ks[|ks| - 1]) then [ks[|ks| - 1]] else [])
  }

  /** `d` is the request restricted to the first `n` candidate keys, stated key by key. */
  ghost predicate Matches(d: Dict, messages: seq<Message>, s: Settings, n: nat)
    requires n <= |RequestKeys|
  {
    && d.keys == SentKeys(s, RequestKeys[..n])
    && (forall k :: k in d.values <==> k in d.keys)
    && (forall k :: k in d.values ==> d.values[k] == Value(messages, s, k))
  }

  lemma ReferenceStep(d: Dict, messages: seq<Message>, s: Settings, n: nat)
    requires n < |RequestKeys| && Matches(d, messages, s, n)
    ensures Matches(PutIf(d, Sent(s, RequestKeys[n]), RequestKeys[n], Value(messages, s, RequestKeys[n])),
                    messages, s, n + 1)
  {
    assert RequestKeys[..n + 1][..n] == RequestKeys[..n];
    RequestKeysDistinct();
    assert RequestKeys[n] !in RequestKeys[..n];
  }

  /** No key is a candidate twice. */
  lemma RequestKeysDistinct()
    ensures forall i, j :: 0 <= i < j < |RequestKeys| ==> RequestKeys[i] != RequestKeys[j]
  {
  }

  lemma AddModel(d: Dict, messages: seq<Message>, s: Settings)
    requires Matches(d, messages, s, 0)
    ensures Matches(PutIf(d, true, "model", StrOrNull(s.model)), messages, s, 1)
  {
    assert RequestKeys[0] == "model";
    ReferenceStep(d, messages, s, 0);
  }

  lemma AddMessages(d: Dict, messages: seq<Message>, s: Settings)
    requires Matches(d, messages, s, 1)
    ensures Matches(PutIf(d, true, "messages", MessagesValue(messages)), messages, s, 2)
  {
    assert RequestKeys[1] == "messages";
    ReferenceStep(d, messages, s, 1);
  }

  lemma AddStream(d: Dict, messages: seq<Message>, s: Settings)
    requires Matches(d, messages, s, 2)
    ensures Matches(PutIf(d, true, "stream", JBool(true)), messages, s, 3)
  {
    assert RequestKeys[2] == "stream";
    ReferenceStep(d, messages, s, 2);
  }

  lemma AddTemperature(d: Dict, messages: seq<Message>, s: Settings)
    requires Matches(d, messages, s, 3)
    ensures Matches(PutIf(d, s.temperature.Some?, "temperature", NumOrNull(s.temperature)), messages, s, 4)
  {
    assert RequestKeys[3] == "temperature";
    ReferenceStep(d, messages, s, 3);
  }

  lemma AddMaxTokens(d: Dict, messages: seq<Message>, s: Settings)
    requires Matches(d, messages, s, 4)
    ensures Matches(PutIf(d, s.maxTokens.Some?, "max_tokens", IntOrNull(s.maxTokens)), messages, s, 5)
  {
    assert RequestKeys[4] == "max_tokens";
    ReferenceStep(d, messages, s, 4);
  }

  lemma AddTopP(d: Dict, messages: seq<Message>, s: Settings)
    requires Matches(d, messages, s, 5)
    ensures Matches(PutIf(d, s.topP.Some? && s.topP.value != 1.0, "top_p", NumOrNull(s.topP)), messages, s, 6)
  {
    assert RequestKeys[5] == "top_p";
    ReferenceStep(d, messages, s, 5);
  }

  lemma AddFrequencyPenalty(d: Dict, messages: seq<Message>, s: Settings)
    requires Matches(d, messages, s, 6)
    ensures Matches(PutIf(d, s.frequencyPenalty.Some? && s.frequencyPenalty.value != 0.0, "frequency_penalty", NumOrNull(s.frequencyPenalty)), messages, s, 7)
  {
    assert RequestKeys[6] == "frequency_penalty";
    ReferenceStep(d, messages, s, 6);
  }

  lemma AddPresencePenalty(d: Dict, messages: seq<Message>, s: Settings)
    requires Matches(d, messages, s, 7)
    ensures Matches(PutIf(d, s.presencePenalty.Some? && s.presencePenalty.value != 0.0, "presence_penalty", NumOrNull(s.presencePenalty)), messages, s, 8)
  {
    assert RequestKeys[7] == "presence_penalty";
    ReferenceStep(d, messages, s, 7);
  }

  lemma AddStop(d: Dict, messages: seq<Message>, s: Settings)
    requires Matches(d, messages, s, 8)
    ensures Matches(PutIf(d, s.stop.Some?, "stop", ValueOrNull(s.stop)), messages, s, 9)
  {
    assert RequestKeys[8] == "stop";
    ReferenceStep(d, messages, s, 8);
  }

  lemma AddSeed(d: Dict, messages: seq<Message>, s: Settings)
    requires Matches(d, messages, s, 9)
    ensures Matches(PutIf(d, s.seed.Some?, "seed", IntOrNull(s.seed)), messages, s, 10)
  {
    assert RequestKeys[9] == "seed";
    ReferenceStep(d, messages, s, 9);
  }

  lemma WholeRequestKeys()
    ensures RequestKeys[..10] == RequestKeys
  {
  }

  /**
   * The dictionary `api_request` builds holds `model`, `messages` and
   * `stream` = true first, then exactly the optional keys whose setting is
   * sent, in the fixed order temperature, max_tokens, top_p,
   * frequency_penalty, presence_penalty, stop, seed, each with its setting.
   */
  lemma ApiRequestKeys(messages: seq<Message>, s: Settings)
    ensures ApiRequest(messages, s).keys == SentKeys(s, RequestKeys)
    ensures forall k :: k in ApiRequest(messages, s).values <==> k in RequestKeys && Sent(s, k)
    ensures forall k :: k in ApiRequest(messages, s).values ==>
      ApiRequest(messages, s).values[k] == Value(messages, s, k)
  {
    var d0 := Dict([], map[]);
    assert Matches(d0, messages, s, 0);
    AddModel(d0, messages, s);
    var d1 := PutIf(d0, true, "model", StrOrNull(s.model));
    AddMessages(d1, messages, s);
    var d2 := PutIf(d1, true, "messages", MessagesValue(messages));
    AddStream(d2, messages, s);
    var d3 := PutIf(d2, true, "stream", JBool(true));
    assert d3 == Fixed(messages, s);
    AddTemperature(d3, messages, s);
    var d4 := PutIf(d3, s.temperature.Some?, "temperature", NumOrNull(s.temperature));
    AddMaxTokens(d4, messages, s);
    var d5 := PutIf(d4, s.maxTokens.Some?, "max_tokens", IntOrNull(s.maxTokens));
    AddTopP(d5, messages, s);
    var d6 := PutIf(d5, s.topP.Some? && s.topP.value != 1.0, "top_p", NumOrNull(s.topP));
    assert d6 == WithSampling(d3, s);
    AddFrequencyPenalty(d6, messages, s);
    var d7 := PutIf(d6, s.frequencyPenalty.Some? && s.frequencyPenalty.value != 0.0,
                    "frequency_penalty", NumOrNull(s.frequencyPenalty));
    AddPresencePenalty(d7, messages, s);
    var d8 := PutIf(d7, s.presencePenalty.Some? && s.presencePenalty.value != 0.0,
                    "presence_penalty", NumOrNull(s.presencePenalty));
    assert d8 == WithPenalties(d6, s);
    AddStop(d8, messages, s);
    var d9 := PutIf(d8, s.stop.Some?, "stop", ValueOrNull(s.stop));
    AddSeed(d9, messages, s);
    var d10 := PutIf(d9, s.seed.Some?, "seed", IntOrNull(s.seed));
    assert d10 == WithStopSeed(d8, s);
    assert ApiRequest(messages, s) == d10;
    WholeRequestKeys();
  }

  // ---- titles and colours -------------------------------------------------

  /** `phase_info`: the main and panel titles of each known phase. */
  const PhaseInfo: map<string, (string, string)> :=
    map["request" := (">>> Raw LLM Request Data", ">>> Complete API Request"),
        "response" := ("<<< LLM Response Data", "<<< Full Conversation State")]

  /** `phase_info.get(phase, phase_info["request"])` */
  function Titles(phase: string): (r: (string, string))
    ensures phase == "response" ==> r == PhaseInfo["response"]
    ensures phase != "response" ==> r == PhaseInfo["request"]
  {
    if phase in PhaseInfo then PhaseInfo[phase] else PhaseInfo["request"]
  }

  /** The request panel's border colour and title colour. */
  function PanelStyle(phase: string): (r: (string, string))
    ensures r.0 == "yellow" <==> phase == "request"
    ensures r.0 == "yellow" || r.0 == "green"
    ensures r.1 == "bold " + r.0
  {
    if phase == "request" then ("yellow", "bold yellow") else ("green", "bold green")
  }

  /** `" | ".join(title_parts)`: the model is named only when it is a non-empty string. */
  function HeaderTitle(main: string, model: Option<string>): (r: string)
    ensures StartsWith(r, main)
    ensures r == main <==> model.None? || model.value == ""
    ensures model.Some? && model.value != "" ==> EndsWith(r, "Model: " + model.value)
  {
    if model.Some? && model.value != "" then
      var named := "Model: " + model.value;
      var parts := [main, named];
      assert parts[1..] == [named];
      var r := main + " | " + named;
      assert r[|r| - |named|..] == named;
      assert Join(parts[1..], " | ") == named;
      assert Join(parts, " | ") == r;
      Join(parts, " | ")
    else
      Join([main], " | ")
  }

  /** `c * n` */
  function Repeat(c: char, n: nat): (r: string)
    ensures |r| == n && forall i :: 0 <= i < n ==> r[i] == c
  {
    if n == 0 then "" else Repeat(c, n - 1) + [c]
  }

  function Rule(): string { Repeat('=', 90) }

  /** `role_colors.get(role, "white")` */
  function RoleColor(role: string): string {
    if role == "system" then "magenta"
    else if role == "user" then "green"
    else if role == "assistant" then "blue"
    else "white"
  }

  /** `role_icons.get(role, "[?]")` */
  function RoleIcon(role: string): string {
    if role == "system" then "\U{2699}\U{FE0F}"
    else if role == "user" then "\U{1F464}"
    else if role == "assistant" then "\U{1F916}"
    else "[?]"
  }

  // ---- what is printed ----------------------------------------------------

  /** One `console.print` call: a line of markup, or a panel around a JSON dump. */
  datatype Shown =
    | Line(text: string)
    | RequestPanel(title: string, border: string, request: Dict)
    | MessagePanel(title: string, subtitle: string, border: string, message: Message)

  /** The header, the request panel and the breakdown heading, with their blank lines. */
  function Opening(messages: seq<Message>, s: Settings, phase: string): seq<Shown> {
    var titles := Titles(phase);
    var style := PanelStyle(phase);
    [ Line("\n" + Rule()),
      Line("[bold cyan]" + HeaderTitle(titles.0, s.model) + "[/bold cyan]"),
      Line(Rule() + "\n"),
      RequestPanel("[" + style.1 + "]" + titles.1 + "[/" + style.1 + "]", style.0, ApiRequest(messages, s)),
      Line(""),
      Line("[bold white]>>> Messages Breakdown (" + NatToString(|messages|) + " total):[/bold white]"),
      Line("") ]
  }

  /** The panel of the `idx`-th message (counting from 1). */
  function PanelFor(m: Message, idx: nat): Shown {
    MessagePanel("[bold]" + RoleIcon(m.role) + " Message #" + NatToString(idx) + ": " + Upper(m.role) + "[/bold]",
                 "[dim]Length: " + NatToString(|m.content|) + " chars[/dim]",
                 RoleColor(m.role), m)
  }

  /** The closing statistics: message count, characters and `total // 4` tokens. */
  function Closing(count: nat, total: nat): seq<Shown> {
    [ Line("[dim]\U{1F4CA} Total: " + NatToString(count) + " messages | " + NatToString(total)
           + " chars | ~" + NatToString(total / 4) + " tokens[/dim]"),
      Line(Rule() + "\n") ]
  }

  /** A panel and a blank line per message, numbered from 1. */
  function Panels(ms: seq<Message>): seq<Shown> {
    if ms == [] then [] else Panels(ms[..|ms| - 1]) + [PanelFor(ms[|ms| - 1], |ms|), Line("")]
  }

  lemma {:induction false} PanelsLength(ms: seq<Message>)
    ensures |Panels(ms)| == 2 * |ms|
  {
    if ms != [] {
      PanelsLength(ms[..|ms| - 1]);
    }
  }

  lemma {:induction false} PanelAt(ms: seq<Message>, i: nat)
    requires i < |ms|
    ensures |Panels(ms)| == 2 * |ms|
    ensures Panels(ms)[2 * i] == PanelFor(ms[i], i + 1) && Panels(ms)[2 * i + 1] == Line("")
  {
    var init := ms[..|ms| - 1];
    PanelsLength(init);
    if i < |init| {
      PanelAt(init, i);
      assert ms[i] == init[i];
    }
  }

  /** The `i`-th message (from 0) gets panel number `i + 1`, followed by a blank line. */
  lemma PanelsShape(ms: seq<Message>)
    ensures |Panels(ms)| == 2 * |ms|
    ensures forall i :: 0 <= i < |ms| ==>
      Panels(ms)[2 * i] == PanelFor(ms[i], i + 1) && Panels(ms)[2 * i + 1] == Line("")
  {
    PanelsLength(ms);
    forall i | 0 <= i < |ms|
      ensures Panels(ms)[2 * i] == PanelFor(ms[i], i + 1) && Panels(ms)[2 * i + 1] == Line("")
    {
      PanelAt(ms, i);
    }
  }

  /**
   * `debug_print_messages`: the opening lines and request panel, one panel
   * and a blank line per message in order, and the totals, where the
   * character total is the sum of the contents' lengths.
   */
  method DebugPrintMessages(messages: seq<Message>, client: Option<Settings>, phase: string)
    returns (out: seq<Shown>)
    ensures out == Opening(messages, SettingsOf(client), phase) + Panels(messages)
                   + Closing(|messages|, TotalChars(messages))
  {
    var s := SettingsOf(client);
    var panels := PanelsOf(messages);
    var total := CountChars(messages);
    out := Opening(messages, s, phase) + panels;
    out := out + Closing(|messages|, total);
  }

  /** The first loop of `debug_print_messages`: a panel and a blank line per message. */
  method PanelsOf(messages: seq<Message>) returns (out: seq<Shown>)
    ensures out == Panels(messages)
  {
    out := [];
    var i := 0;
    while i < |messages|
      invariant 0 <= i <= |messages|
      invariant out == Panels(messages[..i])
    {
      assert messages[..i + 1][..i] == messages[..i];
      out := out + [PanelFor(messages[i], i + 1), Line("")];
      i := i + 1;
    }
    assert messages[..i] == messages;
  }

  /** The second loop: the characters of every message's content, added up. */
  method CountChars(messages: seq<Message>) returns (total: nat)
    ensures total == TotalChars(messages)
  {
    total := 0;
    var i := 0;
    while i < |messages|
      invariant 0 <= i <= |messages|
      invariant total == TotalChars(messages[..i])
    {
      assert messages[..i + 1][..i] == messages[..i];
      total := total + |messages[i].content|;
      i := i + 1;
    }
    assert messages[..i] == messages;
  }
}
