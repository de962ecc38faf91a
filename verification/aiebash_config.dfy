/**
 * `ConfigManager` of the older `aiebash` package: the YAML settings file
 * read into a dictionary, and the section lookup the rest of the package
 * uses.
 */
module AiebashConfig {
  import opened Base

  /** `v.get(k, d)`: only a dict has `get`; on anything else the call raises AttributeError. */
  function Get(v: JValue, k: string, d: JValue): Result<JValue> {
    if v.JObj? then Ok(if k in v.fields then v.fields[k] else d) else Err(NoAttribute(v, "get"))
  }

  /**
   * `data.get(p0, {}).get(p1, {}) ... .get(key, default)` inside
   * `try`/`except Exception`: any failing step gives the default.
   */
  function Lookup(data: JValue, path: seq<string>, key: string, default: JValue): JValue
    decreases |path|
  {
    if path == [] then
      match Get(data, key, default)
      case Ok(v) => v
      case Err(_) => default
    else
      match Get(data, path[0], JObj(map[]))
      case Ok(v) => Lookup(v, path[1..], key, default)
      case Err(_) => default
  }

  /** The dictionary the path leads to when every step is present and is a dictionary. */
  function Reach(data: JValue, path: seq<string>): Option<map<string, JValue>>
    decreases |path|
  {
    if !data.JObj? then None
    else if path == [] then Some(data.fields)
    else if path[0] !in data.fields then None
    else Reach(data.fields[path[0]], path[1..])
  }

  /**
   * The lookup finds the key exactly where the path leads through
   * dictionaries; a missing step, a step that is not a dictionary or a
   * missing key all give the default.
   */
  lemma {:induction false} LookupReaches(data: JValue, path: seq<string>, key: string, default: JValue)
    ensures var m := Reach(data, path);
      Lookup(data, path, key, default) == if m.Some? && key in m.value then m.value[key] else default
    decreases |path|
  {
    if path != [] && data.JObj? {
      if path[0] in data.fields {
        LookupReaches(data.fields[path[0]], path[1..], key, default);
      } else {
        EmptyLookup(path[1..], key, default);
      }
    }
  }

  /** Every lookup below a missing step starts from `{}` and ends at the default. */
  lemma {:induction false} EmptyLookup(path: seq<string>, key: string, default: JValue)
    ensures Lookup(JObj(map[]), path, key, default) == default
    decreases |path|
  {
    if path != [] {
      EmptyLookup(path[1..], key, default);
    }
  }

  /** Where `get_value` looks: its own section for `global` and `logging`, under `supported_LLMs` otherwise. */
  function Route(section: string): (r: seq<string>)
    ensures section in ["global", "logging"] ==> r == [section]
    ensures section !in ["global", "logging"] ==> r == ["supported_LLMs", section]
  {
    if section == "global" then ["global"]
    else if section == "logging" then ["logging"]
    else ["supported_LLMs", section]
  }

  /** `config_data` after `load_settings` read the file (absent, unreadable, or parsed). */
  function Loaded(file: Option<FileContent>): (r: JValue)
    ensures Truthy(r) || r == JObj(map[])
    ensures file.Some? && file.value.Parsed? && Truthy(file.value.value) ==> r == file.value.value
  {
    match file
    case Some(Parsed(v)) => if Truthy(v) then v else JObj(map[])
    case _ => JObj(map[])
  }

  /** An empty, missing or unreadable file leaves an empty dictionary. */
  lemma LoadedEmpty(file: Option<FileContent>)
    ensures Loaded(file) == JObj(map[]) <==>
      (file.None? || file.value.Unparsable? || !Truthy(file.value.value) || file.value.value == JObj(map[]))
  {
  }

  /** A dictionary written out is read back as itself (serialisation is taken as the identity). */
  lemma LoadedDict(m: map<string, JValue>)
    ensures Loaded(Some(Parsed(JObj(m)))) == JObj(m)
  {
    if |m| == 0 {
      assert m == map[];
    }
  }

  class ConfigManager {
    /** `config_data` */
    var configData: JValue
    /** The user's `config.yaml`, if it exists. */
    var userFile: Option<FileContent>
    /** The packaged `default_config.yaml`, if it exists. */
    const defaultFile: Option<FileContent>
    /**
     * What `__init__` raised, if anything.  When it raised, `ConfigManager()`
     * (and with it the module's `settings`) yields no object; the fields
     * then describe the state the failed constructor had reached.
     */
    ghost var initRaised: Option<Exc>

    /**
     * `__init__`: an empty dictionary, then `load_settings`, whose logger
     * update raises when the data read is not a dictionary.
     */
    constructor (userFile: Option<FileContent>, defaultFile: Option<FileContent>)
      ensures this.defaultFile == defaultFile
      ensures this.userFile == if userFile.None? then defaultFile else userFile
      ensures configData == Loaded(this.userFile)
      ensures initRaised.None? <==> configData.JObj?
      ensures initRaised.Some? ==> initRaised == Some(Get(configData, "logging", JObj(map[])).exc)
    {
      this.defaultFile := defaultFile;
      this.userFile := if userFile.None? then defaultFile else userFile;
      var data := Loaded(if userFile.None? then defaultFile else userFile);
      configData := data;
      var logging := Get(data, "logging", JObj(map[]));
      initRaised := if logging.Err? then Some(logging.exc) else None;
    }

    /**
     * `load_settings`: a missing user file is first copied from the
     * default one when that exists; then the file is read.  The logging
     * section is then fetched for the logger, which raises when the data
     * read is not a dictionary.
     */
    method LoadSettings() returns (raised: Option<Exc>)
      modifies this`userFile, this`configData
      ensures userFile == if old(userFile).None? then defaultFile else old(userFile)
      ensures configData == Loaded(userFile)
      ensures raised.None? <==> configData.JObj?
    {
      if userFile.None? {
        userFile := defaultFile;
      }
      configData := Loaded(userFile);
      var logging := LoggingConfig();
      raised := if logging.Err? then Some(logging.exc) else None;
    }

    /** `save_settings`: a write that fails is ignored. */
    method SaveSettings(writable: bool)
      modifies this`userFile
      ensures userFile == if writable then Some(Parsed(configData)) else old(userFile)
    {
      if writable {
        userFile := Some(Parsed(configData));
      }
    }

    /** `get_value(section, key, default)` */
    function GetValue(section: string, key: string, default: JValue): JValue
      reads this
    {
      Lookup(configData, Route(section), key, default)
    }

    /** `get_logging_config`: the `logging` section, `{}` if it is missing. */
    function LoggingConfig(): (r: Result<JValue>)
      reads this
      ensures r.Err? <==> !configData.JObj?
      ensures r.Ok? && "logging" !in configData.fields ==> r.value == JObj(map[])
    {
      Get(configData, "logging", JObj(map[]))
    }
  }

  /**
   * `get_value` for `global` and `logging` returns the key of that
   * section; any other section name is looked up among the LLMs, under
   * `supported_LLMs`; whatever is missing or not a dictionary gives the
   * default.
   */
  lemma GetValueRouting(c: ConfigManager, section: string, key: string, default: JValue)
    ensures var path := if section in ["global", "logging"] then [section] else ["supported_LLMs", section];
      var m := Reach(c.configData, path);
      c.GetValue(section, key, default) == if m.Some? && key in m.value then m.value[key] else default
  {
    LookupReaches(c.configData, Route(section), key, default);
  }

  /** Saving and then loading again leaves a dictionary as it was. */
  lemma SaveLoadRoundTrip(data: JValue)
    requires data.JObj?
    ensures Loaded(Some(Parsed(data))) == data
  {
    LoadedDict(data.fields);
  }
}
