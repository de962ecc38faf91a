/**
 * The demo session of demo_system/models.py: an append-only log of
 * recorded events and its dictionary form (what is written as JSON).
 */
module DemoModels {
  import opened Base

  /** The version a new session carries and a dictionary without one defaults to. */
  const DefaultVersion: string := "2.0"

  /** `{"type": "input", "text": text}` */
  function InputEvent(text: string): JValue {
    JObj(map["type" := JStr("input"), "text" := JStr(text)])
  }

  /** `{"type": "output", "text": text}` */
  function OutputEvent(text: string): JValue {
    JObj(map["type" := JStr("output"), "text" := JStr(text)])
  }

  /** `{"type": "command", "command": command, "output": output}`: no chunks, no exit code. */
  function CommandEvent(command: string, output: string): JValue {
    JObj(map["type" := JStr("command"), "command" := JStr(command), "output" := JStr(output)])
  }

  /** `d.get(key, default)` */
  function Get(d: map<string, JValue>, key: string, fallback: JValue): JValue {
    if key in d then d[key] else fallback
  }

  /** The two attributes of a session. */
  datatype Fields = Fields(version: JValue, events: JValue)

  /**
   * What `from_dict(data)` reads: `version` defaulting to "2.0`, `events`
   * defaulting to `[]`, both taken as they are otherwise.  A `data` that is
   * not a dictionary has no `get`: AttributeError.
   */
  function FromDictFields(data: JValue): (r: Result<Fields>)
    ensures r.Ok? <==> data.JObj?
    ensures r.Err? ==> r.exc.PyError? && r.exc.kind == AttributeError
    ensures r.Ok? && "version" !in data.fields ==> r.value.version == JStr(DefaultVersion)
    ensures r.Ok? && "events" !in data.fields ==> r.value.events == JList([])
  {
    if !data.JObj? then Err(NoAttribute(data, "get"))
    else Ok(Fields(Get(data.fields, "version", JStr(DefaultVersion)),
                   Get(data.fields, "events", JList([]))))
  }

  /** `to_dict()` of a session with these attributes: exactly `version` and `events`. */
  function SessionDict(f: Fields): (d: JValue)
    ensures d.JObj? && d.fields.Keys == {"version", "events"}
    ensures FromDictFields(d) == Ok(f)
  {
    JObj(map["version" := f.version, "events" := f.events])
  }

  class DemoSession {
    var version: JValue
    /** A list for every session built here; `from_dict` stores whatever it finds. */
    var events: JValue

    /** `DemoSession()`: version "2.0", no events. */
    constructor ()
      ensures version == JStr(DefaultVersion) && events == JList([])
    {
      version := JStr(DefaultVersion);
      events := JList([]);
    }

    /** A session holding the given attributes. */
    constructor FromFields(f: Fields)
      ensures version == f.version && events == f.events
    {
      version := f.version;
      events := f.events;
    }

    function Attributes(): Fields
      reads this
    {
      Fields(version, events)
    }

    /** `self.events.append(event)`: only a list has `append`. */
    method Append(event: JValue) returns (err: Option<Exc>)
      modifies this`events
      ensures old(events).JList? ==> err == None && events == JList(old(events).items + [event])
      ensures !old(events).JList? ==> err == Some(NoAttribute(old(events), "append")) && events == old(events)
    {
      if events.JList? {
        events := JList(events.items + [event]);
        err := None;
      } else {
        err := Some(NoAttribute(events, "append"));
      }
    }

    method AddUserInput(text: string) returns (err: Option<Exc>)
      modifies this`events
      ensures old(events).JList? ==> err == None && events == JList(old(events).items + [InputEvent(text)])
      ensures !old(events).JList? ==> err.Some? && events == old(events)
    {
      err := Append(InputEvent(text));
    }

    method AddLlmOutput(text: string) returns (err: Option<Exc>)
      modifies this`events
      ensures old(events).JList? ==> err == None && events == JList(old(events).items + [OutputEvent(text)])
      ensures !old(events).JList? ==> err.Some? && events == old(events)
    {
      err := Append(OutputEvent(text));
    }

    method AddCommandOutput(command: string, output: string) returns (err: Option<Exc>)
      modifies this`events
      ensures old(events).JList? ==> err == None && events == JList(old(events).items + [CommandEvent(command, output)])
      ensures !old(events).JList? ==> err.Some? && events == old(events)
    {
      err := Append(CommandEvent(command, output));
    }

    /** `to_dict()`, which `from_dict` reads back to the same attributes. */
    function ToDict(): (d: JValue)
      reads this
      ensures FromDictFields(d) == Ok(Fields(version, events))
    {
      SessionDict(Fields(version, events))
    }
  }

  /** `DemoSession.from_dict(data)` */
  method FromDict(data: JValue) returns (r: Result<DemoSession>)
    ensures r.Ok? <==> data.JObj?
    ensures r.Ok? ==> fresh(r.value) && FromDictFields(data) == Ok(r.value.Attributes())
    ensures r.Err? ==> FromDictFields(data) == Err(r.exc)
  {
    var fields := FromDictFields(data);
    if fields.Ok? {
      var s := new DemoSession.FromFields(fields.value);
      r := Ok(s);
    } else {
      r := Err(fields.exc);
    }
  }

  /** `from_dict(to_dict(s))` has the attributes of `s`. */
  lemma RoundTrip(f: Fields)
    ensures FromDictFields(SessionDict(f)) == Ok(f)
  {
  }

  /** The dictionary of a session is a dictionary `from_dict` accepts, and nothing else is. */
  lemma FromDictOfDict(f: Fields, data: JValue)
    requires FromDictFields(data) == Ok(f)
    ensures data.JObj? && Get(data.fields, "version", JStr(DefaultVersion)) == f.version
    ensures Get(data.fields, "events", JList([])) == f.events
  {
  }
}
