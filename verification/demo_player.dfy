/**
 * `DemoPlayer` of demo_system/player.py: loads a recorded session and
 * replays its events in order, checking the stop flag before each one.
 * What the console shows is kept as a log; delays are not modelled.
 */
module Playback {
  import opened Base
  import opened Text
  import opened DemoModels

  /** One piece of console output. */
  datatype Shown =
    | Prompt                      // the `>>> ` input marker
    | Typed(c: JValue)            // one element of the typed text
    | Newline
    | MarkdownOf(text: JValue)    // an LLM answer rendered as Markdown
    | CommandHeader(command: JValue)
    | PlainOutput(output: JValue)
    | NoSessionLoaded
    | LoadFailed(exc: Exc)
    | PlaybackInterrupted

  /** The built-in `playback` settings of `_load_config`. */
  const DefaultConfig: JValue := JObj(map["playback" := JObj(map[
    "typing_delay_per_char" := JNum(0.03),
    "typing_delay_variance" := JNum(0.02),
    "pause_after_input" := JNum(0.5),
    "output_delay" := JNum(1.0),
    "char_delay" := JNum(0.01)])])

  /**
   * `_load_config(path)`: the loaded value as it is when the file exists,
   * parses and is not empty; the defaults otherwise.  Nothing is merged.
   */
  function LoadConfig(file: Option<FileContent>): (c: JValue)
    ensures Truthy(c)
    ensures c == DefaultConfig || file == Some(Parsed(c))
    ensures file.Some? && file.value.Parsed? && Truthy(file.value.value) ==> c == file.value.value
  {
    if file.Some? && file.value.Parsed? && Truthy(file.value.value) then file.value.value
    else DefaultConfig
  }

  /** The characters of `s`, each a one-character string. */
  function CharItems(s: string): (r: seq<JValue>)
    ensures |r| == |s| && forall i :: 0 <= i < |s| ==> r[i] == JStr([s[i]])
  {
    if s == [] then [] else [JStr([s[0]])] + CharItems(s[1..])
  }

  function KeyStandIns(n: nat): (r: seq<JValue>)
    ensures |r| == n && forall i :: 0 <= i < n ==> r[i] == JStr("")
  {
    if n == 0 then [] else [JStr("")] + KeyStandIns(n - 1)
  }

  /** Each element typed, in order. */
  function TypedAll(cs: seq<JValue>): (r: seq<Shown>)
    ensures |r| == |cs| && forall i :: 0 <= i < |cs| ==> r[i] == Typed(cs[i])
  {
    if cs == [] then [] else [Typed(cs[0])] + TypedAll(cs[1..])
  }

  /**
   * `for x in v`: a string yields its characters, a list its items and a
   * dictionary its keys; other values are not iterable.
   */
  function Iterate(v: JValue): (r: Result<seq<JValue>>)
    ensures v.JStr? ==> r.Ok? && |r.value| == |v.s|
    ensures v.JStr? ==> forall i :: 0 <= i < |v.s| ==> r.value[i] == JStr([v.s[i]])
    ensures v.JList? ==> r == Ok(v.items)
    ensures v.JObj? ==> r.Ok? && |r.value| == |v.fields| && forall i :: 0 <= i < |r.value| ==> r.value[i].JStr?
    ensures r.Err? <==> v.JNull? || v.JBool? || v.JInt? || v.JNum?
  {
    match v
    case JStr(s) => Ok(CharItems(s))
    case JList(xs) => Ok(xs)
    // Stand-ins for the keys, whose order a map does not keep: only their type is used.
    case JObj(m) => Ok(KeyStandIns(|m|))
    case _ => Err(PyError(TypeError, "'" + TypeName(v) + "' object is not iterable"))
  }

  /** What one played event shows, and the exception that ended it, if any. */
  datatype Played = Played(shown: seq<Shown>, raised: Option<Exc>)

  /** `_play_user_input`: the marker, the text element by element, then a newline. */
  function PlayUserInput(event: map<string, JValue>, settings: JValue): (p: Played)
    ensures |p.shown| > 0 && p.shown[0] == Prompt
    ensures p.raised.None? ==> p.shown[|p.shown| - 1] == Newline
  {
    var text := Get(event, "text", JStr(""));
    if !settings.JObj? then Played([Prompt], Some(NoAttribute(settings, "get")))
    else match Iterate(text)
      case Err(e) => Played([Prompt], Some(e))
      case Ok(cs) => Played([Prompt] + TypedAll(cs) + [Newline], None)
  }

  /** `_play_llm_output`: the answer as Markdown and an empty line. */
  function PlayLlmOutput(event: map<string, JValue>, settings: JValue): Played {
    if !settings.JObj? then Played([], Some(NoAttribute(settings, "get")))
    else Played([MarkdownOf(Get(event, "text", JStr(""))), Newline], None)
  }

  /** `_play_command_output`: the header, the output only when it is not empty, an empty line. */
  function PlayCommandOutput(event: map<string, JValue>): (p: Played)
    ensures p.raised.None? && |p.shown| >= 2 && p.shown[0] == CommandHeader(Get(event, "command", JStr("")))
    ensures |p.shown| == 3 <==> Truthy(Get(event, "output", JStr("")))
  {
    var output := Get(event, "output", JStr(""));
    Played([CommandHeader(Get(event, "command", JStr("")))]
           + (if Truthy(output) then [PlainOutput(output)] else []) + [Newline], None)
  }

  /** `_play_event`: dispatch on `type`; any other type shows nothing. */
  function PlayEvent(event: JValue, config: JValue): (p: Played)
    ensures !event.JObj? || !config.JObj? ==> p.raised.Some? && p.shown == []
    ensures event.JObj? && config.JObj? ==>
      (var kind := Get(event.fields, "type", JNull);
       kind != JStr("input") && kind != JStr("output") && kind != JStr("command") ==> p == Played([], None))
  {
    if !event.JObj? then Played([], Some(NoAttribute(event, "get")))
    else if !config.JObj? then Played([], Some(NoAttribute(config, "get")))
    else
      var kind := Get(event.fields, "type", JNull);
      var settings := Get(config.fields, "playback", JObj(map[]));
      if kind == JStr("input") then PlayUserInput(event.fields, settings)
      else if kind == JStr("output") then PlayLlmOutput(event.fields, settings)
      else if kind == JStr("command") then PlayCommandOutput(event.fields)
      else Played([], None)
  }

  /** What each event would show when played. */
  function EventResults(events: seq<JValue>, config: JValue): (r: seq<Played>)
    ensures |r| == |events| && forall j :: 0 <= j < |events| ==> r[j] == PlayEvent(events[j], config)
  {
    seq(|events|, j requires 0 <= j < |events| => PlayEvent(events[j], config))
  }

  /**
   * The playback loop from event `i`, given what each event shows: the
   * stop flag is found cleared before event `stopAt`, Ctrl+C arrives during
   * event `interruptAt`, and an exception from an event ends the loop.
   */
  function PlayFrom(results: seq<Played>, stopAt: nat, interruptAt: Option<nat>, i: nat): Played
    decreases |results| - i
  {
    if i >= |results| || i >= stopAt then Played([], None)
    else if interruptAt == Some(i) then Played([PlaybackInterrupted], None)
    else if results[i].raised.Some? then results[i]
    else
      var rest := PlayFrom(results, stopAt, interruptAt, i + 1);
      Played(results[i].shown + rest.shown, rest.raised)
  }

  /** One unfolding of the playback loop at event `i`. */
  lemma PlayFromStep(results: seq<Played>, stopAt: nat, interruptAt: Option<nat>, i: nat)
    ensures i >= |results| || i >= stopAt ==> PlayFrom(results, stopAt, interruptAt, i) == Played([], None)
    ensures i < |results| && i < stopAt && interruptAt == Some(i) ==>
      PlayFrom(results, stopAt, interruptAt, i) == Played([PlaybackInterrupted], None)
    ensures i < |results| && i < stopAt && interruptAt != Some(i) && results[i].raised.Some? ==>
      PlayFrom(results, stopAt, interruptAt, i) == results[i]
    ensures i < |results| && i < stopAt && interruptAt != Some(i) && results[i].raised.None? ==>
      PlayFrom(results, stopAt, interruptAt, i).shown
        == results[i].shown + PlayFrom(results, stopAt, interruptAt, i + 1).shown
      && PlayFrom(results, stopAt, interruptAt, i).raised == PlayFrom(results, stopAt, interruptAt, i + 1).raised
  {
  }

  /** What the first `n` events show, one after the other. */
  function ShownUpTo(results: seq<Played>, n: nat): seq<Shown>
    requires n <= |results|
  {
    if n == 0 then [] else ShownUpTo(results, n - 1) + results[n - 1].shown
  }

  /**
   * Without stop, interrupt or failure, the events show in order: playback
   * shows exactly each event's output, one after the other.
   */
  lemma {:induction false} PlayInOrder(results: seq<Played>, i: nat)
    requires i <= |results|
    requires forall j :: i <= j < |results| ==> results[j].raised.None?
    ensures PlayFrom(results, |results|, None, i).raised.None?
    ensures ShownUpTo(results, i) + PlayFrom(results, |results|, None, i).shown == ShownUpTo(results, |results|)
    decreases |results| - i
  {
    if i < |results| {
      PlayInOrder(results, i + 1);
      var rest := PlayFrom(results, |results|, None, i + 1);
      assert PlayFrom(results, |results|, None, i) == Played(results[i].shown + rest.shown, rest.raised);
      assert ShownUpTo(results, i + 1) == ShownUpTo(results, i) + results[i].shown;
    }
  }

  /** Events at or after `stopAt` are never played, whatever they are. */
  lemma {:induction false} StopHidesLater(results: seq<Played>, later: seq<Played>,
                                          stopAt: nat, interruptAt: Option<nat>, i: nat)
    requires stopAt <= |results|
    ensures PlayFrom(results + later, stopAt, interruptAt, i) == PlayFrom(results, stopAt, interruptAt, i)
    decreases |results| - i
  {
    if i < stopAt {
      assert (results + later)[i] == results[i];
      StopHidesLater(results, later, stopAt, interruptAt, i + 1);
    }
  }

  /** Nothing is shown after an interrupted event, and playback ends normally. */
  lemma {:induction false} InterruptEnds(results: seq<Played>, stopAt: nat, k: nat, i: nat)
    requires i <= k < |results| && k < stopAt
    requires forall j :: i <= j < k ==> results[j].raised.None?
    ensures PlayFrom(results, stopAt, Some(k), i).raised.None?
    ensures PlayFrom(results, stopAt, Some(k), i).shown == ShownFrom(results, i, k) + [PlaybackInterrupted]
    decreases k - i
  {
    if i < k {
      InterruptEnds(results, stopAt, k, i + 1);
    }
  }

  /** What events `i .. k-1` show, one after the other. */
  function ShownFrom(results: seq<Played>, i: nat, k: nat): seq<Shown>
    requires i <= k <= |results|
    decreases k - i
  {
    if i == k then [] else results[i].shown + ShownFrom(results, i + 1, k)
  }

  class DemoPlayer {
    var session: DemoSession?
    const config: JValue
    var isPlaying: bool
    /** Everything printed on the console so far. */
    var console: seq<Shown>

    /** `DemoPlayer(console, config_path)`, given what the config path holds. */
    constructor (configFile: Option<FileContent>)
      ensures session == null && config == LoadConfig(configFile) && !isPlaying && console == []
    {
      session := null;
      config := LoadConfig(configFile);
      isPlaying := false;
      console := [];
    }

    /**
     * `load_session(path)`: true and a new session when the file reads as a
     * dictionary; false, an error line and the old session otherwise.
     */
    method LoadSession(file: Option<FileContent>) returns (ok: bool)
      modifies this`session, this`console
      ensures ok <==> file.Some? && file.value.Parsed? && file.value.value.JObj?
      ensures ok ==>
        fresh(session) && FromDictFields(file.value.value) == Ok(session.Attributes()) && console == old(console)
      ensures !ok ==>
        session == old(session) && |console| == |old(console)| + 1
        && console[..|old(console)|] == old(console) && console[|old(console)|].LoadFailed?
    {
      if file.None? {
        console := console + [LoadFailed(PyError(OSError, "[Errno 2] No such file or directory"))];
        return false;
      }
      if file.value.Unparsable? {
        console := console + [LoadFailed(PyError(ValueError, "Expecting value"))];
        return false;
      }
      var r := FromDict(file.value.value);
      if r.Err? {
        console := console + [LoadFailed(r.exc)];
        return false;
      }
      session := r.value;
      ok := true;
    }

    /** `stop()` */
    method Stop()
      modifies this`isPlaying
      ensures !isPlaying
    {
      isPlaying := false;
    }

    /**
     * `play_session()`: without a session, an error line; otherwise the
     * events in order until the stop flag is found cleared (before event
     * `stopAt`), Ctrl+C (during event `interruptAt`) or an exception.
     */
    method PlaySession(stopAt: nat, interruptAt: Option<nat>) returns (raised: Option<Exc>)
      modifies this`isPlaying, this`console
      ensures session == null ==>
        isPlaying == old(isPlaying) && raised.None? && console == old(console) + [NoSessionLoaded]
      ensures session != null ==> !isPlaying
      ensures session != null && Iterate(session.events).Err? ==>
        raised == Some(Iterate(session.events).exc) && console == old(console)
      ensures session != null && Iterate(session.events).Ok? ==>
        (var p := PlayFrom(EventResults(Iterate(session.events).value, config), stopAt, interruptAt, 0);
         raised == p.raised && console == old(console) + p.shown)
    {
      if session == null {
        console := console + [NoSessionLoaded];
        return None;
      }
      isPlaying := true;
      var items := Iterate(session.events);
      if items.Err? {
        isPlaying := false;
        return Some(items.exc);
      }
      raised := PlayEvents(EventResults(items.value, config), stopAt, interruptAt);
      isPlaying := false;
    }

    /**
     * The `for event in self.session.events` loop of `play_session`, given
     * what each event shows (a function of the event and the settings).
     */
    method PlayEvents(results: seq<Played>, stopAt: nat, interruptAt: Option<nat>) returns (raised: Option<Exc>)
      requires isPlaying
      modifies this`isPlaying, this`console
      ensures raised == PlayFrom(results, stopAt, interruptAt, 0).raised
      ensures console == old(console) + PlayFrom(results, stopAt, interruptAt, 0).shown
    {
      var i := 0;
      raised := None;
      while i < |results|
        invariant 0 <= i <= |results| && i <= stopAt && isPlaying
        invariant old(console) + PlayFrom(results, stopAt, interruptAt, 0).shown
          == console + PlayFrom(results, stopAt, interruptAt, i).shown
        invariant PlayFrom(results, stopAt, interruptAt, 0).raised == PlayFrom(results, stopAt, interruptAt, i).raised
        decreases |results| - i
      {
        PlayFromStep(results, stopAt, interruptAt, i);
        if i == stopAt {
          // `stop()`, called from elsewhere while this event was due, clears the flag.
          isPlaying := false;
        }
        if !isPlaying {
          assert console + [] == console;
          break;
        }
        if interruptAt == Some(i) {
          console := console + [PlaybackInterrupted];
          return;
        }
        ghost var before := console;
        console := console + results[i].shown;
        if results[i].raised.Some? {
          assert console + [] == console;
          return results[i].raised;
        }
        assert before + PlayFrom(results, stopAt, interruptAt, i).shown
          == console + PlayFrom(results, stopAt, interruptAt, i + 1).shown;
        i := i + 1;
      }
      PlayFromStep(results, stopAt, interruptAt, i);
    }
  }
}
