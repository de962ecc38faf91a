/**
 * `DemoRecorder` of demo_system/recorder.py: a guarded state machine that
 * buffers LLM and command output, flushes each buffer into one session
 * event, and numbers the session files of the demo directory.
 */
module Recording {
  import opened Base
  import opened Text
  import opened DemoModels

  /** The `demo/` directory: the JSON files in it, by name. */
  class DemoDir {
    var files: map<string, FileContent>

    constructor (files: map<string, FileContent>)
      ensures this.files == files
    {
      this.files := files;
    }
  }

  const SessionPrefix: string := "demo_session_"
  const SessionSuffix: string := ".json"

  /** Matches the glob `demo_session_*.json`. */
  predicate IsSessionName(name: string) {
    |name| >= |SessionPrefix| + |SessionSuffix|
    && StartsWith(name, SessionPrefix) && EndsWith(name, SessionSuffix)
  }

  /** `s.split(c)[-1]`: what follows the last `c`, or all of `s`. */
  function AfterLast(s: string, c: char): (r: string)
    ensures |r| <= |s| && r == s[|s| - |r|..]
    ensures forall i :: 0 <= i < |r| ==> r[i] != c
  {
    if s == [] || s[|s| - 1] == c then [] else AfterLast(s[..|s| - 1], c) + [s[|s| - 1]]
  }

  /** `int(Path(name).stem.split('_')[-1])` for a session file name, None where `int` raises. */
  function SessionNumber(name: string): Option<int> {
    if IsSessionName(name) then ParseInt(AfterLast(name[..|name| - |SessionSuffix|], '_')) else None
  }

  /** `f"demo_session_{n:03d}.json"` */
  function SessionFileName(n: int): string {
    SessionPrefix + Format03d(n) + SessionSuffix
  }

  /** `n` is `max(numbers, default=0) + 1` over the numbered session files of `names`. */
  ghost predicate IsNextNumber(names: set<string>, n: int) {
    (forall f :: f in names && SessionNumber(f).Some? ==> SessionNumber(f).value < n)
    && ((n == 1 && forall f :: f in names ==> SessionNumber(f).None?)
        || exists f :: f in names && SessionNumber(f) == Some(n - 1))
  }

  /** `max(xs, default=d)` */
  function MaxDefault(xs: seq<int>, d: int): (m: int)
    ensures xs == [] ==> m == d
    ensures xs != [] ==> m in xs && forall i :: 0 <= i < |xs| ==> xs[i] <= m
  {
    if xs == [] then d
    else if |xs| == 1 || xs[0] >= MaxDefault(xs[1..], d) then
      xs[0]
    else MaxDefault(xs[1..], d)
  }

  lemma {:induction false} AfterLastSuffix(p: string, s: string, c: char)
    requires |p| > 0 && p[|p| - 1] == c
    requires forall i :: 0 <= i < |s| ==> s[i] != c
    ensures AfterLast(p + s, c) == s
    decreases |s|
  {
    if s == [] {
      assert p + s == p;
    } else {
      var t := s[..|s| - 1];
      assert (p + s)[..|p + s| - 1] == p + t;
      AfterLastSuffix(p, t, c);
      assert s == t + [s[|s| - 1]];
    }
  }

  lemma Format03dHasNoUnderscore(n: int)
    ensures forall i :: 0 <= i < |Format03d(n)| ==> Format03d(n)[i] != '_'
  {
    if n >= 0 {
      Format03dParses(n);
    } else {
      var d := NegFormat03d(n);
      assert Format03d(n) == "-" + d;
    }
  }

  /** The file `start_recording` names for number `n` is a session file carrying `n`. */
  lemma SessionFileNumber(n: int)
    ensures IsSessionName(SessionFileName(n))
    ensures SessionNumber(SessionFileName(n)) == Some(n)
  {
    var f := Format03d(n);
    var name := SessionFileName(n);
    assert name[..|SessionPrefix|] == SessionPrefix;
    assert name[|name| - |SessionSuffix|..] == SessionSuffix;
    assert name[..|name| - |SessionSuffix|] == SessionPrefix + f;
    Format03dHasNoUnderscore(n);
    AfterLastSuffix(SessionPrefix, f, '_');
    ParseFormat03d(n);
  }

  /** The next name never overwrites a file: every existing number is smaller. */
  lemma NextNameIsFresh(names: set<string>, n: int)
    requires IsNextNumber(names, n)
    ensures SessionFileName(n) !in names
  {
    SessionFileNumber(n);
  }

  /** Once the chosen file exists, numbering continues at `n + 1`: gaps are never refilled. */
  lemma NextAfterSave(names: set<string>, n: int)
    requires IsNextNumber(names, n)
    ensures IsNextNumber(names + {SessionFileName(n)}, n + 1)
  {
    SessionFileNumber(n);
    var f := SessionFileName(n);
    assert f in names + {f} && SessionNumber(f) == Some(n);
  }

  /**
   * `numbers` lists the values `num` gives the files of `names` that have
   * one, each paired with the file it came from.
   */
  ghost predicate NumbersOf(names: set<string>, numbers: seq<int>, sources: seq<string>,
                            num: string -> Option<int>) {
    |sources| == |numbers|
    && (forall i :: 0 <= i < |numbers| ==> sources[i] in names && num(sources[i]) == Some(numbers[i]))
    && (forall f :: f in names && num(f).Some? ==> num(f).value in numbers)
  }

  /** `max(numbers, default=0) + 1` is the next number. */
  lemma NextOfNumbers(names: set<string>, numbers: seq<int>, sources: seq<string>)
    requires NumbersOf(names, numbers, sources, SessionNumber)
    ensures IsNextNumber(names, MaxDefault(numbers, 0) + 1)
  {
    var n := MaxDefault(numbers, 0) + 1;
    if numbers != [] {
      var i :| 0 <= i < |numbers| && numbers[i] == n - 1;
      assert sources[i] in names && SessionNumber(sources[i]) == Some(n - 1);
    }
  }

  /** One more listed file: its number, if it has one, joins the list. */
  lemma NumbersStep(done: set<string>, numbers: seq<int>, sources: seq<string>, f: string,
                    num: string -> Option<int>)
    requires NumbersOf(done, numbers, sources, num)
    ensures num(f).Some? ==> NumbersOf(done + {f}, numbers + [num(f).value], sources + [f], num)
    ensures num(f).None? ==> NumbersOf(done + {f}, numbers, sources, num)
  {
  }

  /** The `for f in existing_files` loop collecting the parsable numbers. */
  method CollectNumbers(names: set<string>) returns (numbers: seq<int>, ghost sources: seq<string>)
    ensures NumbersOf(names, numbers, sources, SessionNumber)
  {
    numbers := [];
    sources := [];
    var rest := names;
    ghost var done: set<string> := {};
    while rest != {}
      invariant done + rest == names
      invariant NumbersOf(done, numbers, sources, SessionNumber)
      decreases rest
    {
      var f :| f in rest;
      NumbersStep(done, numbers, sources, f, SessionNumber);
      var num := SessionNumber(f);
      if num.Some? {
        numbers := numbers + [num.value];
        sources := sources + [f];
      }
      rest := rest - {f};
      done := done + {f};
    }
  }

  /**
   * `_get_next_filename()`: collects the numbers of the session files in
   * whatever order the directory lists them, then takes the maximum plus one.
   */
  method NextFilename(names: set<string>) returns (n: int, name: string)
    ensures IsNextNumber(names, n) && name == SessionFileName(n)
  {
    var numbers, sources := CollectNumbers(names);
    n := MaxDefault(numbers, 0) + 1;
    NextOfNumbers(names, numbers, sources);
    name := SessionFileName(n);
  }

  /** Python's `<=` on strings: code point by code point, a prefix first. */
  predicate LexLe(a: string, b: string) {
    a == [] || (b != [] && (a[0] < b[0] || (a[0] == b[0] && LexLe(a[1..], b[1..]))))
  }

  lemma {:induction false} LexLeRefl(a: string)
    ensures LexLe(a, a)
  {
    if a != [] {
      LexLeRefl(a[1..]);
    }
  }

  lemma {:induction false} LexLeTotal(a: string, b: string)
    ensures LexLe(a, b) || LexLe(b, a)
  {
    if a != [] && b != [] && a[0] == b[0] {
      LexLeTotal(a[1..], b[1..]);
    }
  }

  lemma {:induction false} LexLeTrans(a: string, b: string, c: string)
    requires LexLe(a, b) && LexLe(b, c)
    ensures LexLe(a, c)
  {
    if a != [] && a[0] == b[0] && b[0] == c[0] {
      LexLeTrans(a[1..], b[1..], c[1..]);
    }
  }

  lemma {:induction false} LexLeAntisym(a: string, b: string)
    requires LexLe(a, b) && LexLe(b, a)
    ensures a == b
  {
    if a != [] {
      LexLeAntisym(a[1..], b[1..]);
      assert a == [a[0]] + a[1..] && b == [b[0]] + b[1..];
    }
  }

  /** The greatest session file name of `names`, in Python's string order. */
  ghost predicate IsLastRecording(names: set<string>, r: string) {
    r in names && IsSessionName(r) && forall m :: m in names && IsSessionName(m) ==> LexLe(m, r)
  }

  /** Only one name can be the last recording, whatever order the directory lists them in. */
  lemma LastRecordingUnique(names: set<string>, r1: string, r2: string)
    requires IsLastRecording(names, r1) && IsLastRecording(names, r2)
    ensures r1 == r2
  {
    LexLeAntisym(r1, r2);
  }

  /** `get_last_recording()`: the last of the sorted session files, or None. */
  method GetLastRecording(names: set<string>) returns (r: Option<string>)
    ensures r.None? <==> forall m :: m in names ==> !IsSessionName(m)
    ensures r.Some? ==> IsLastRecording(names, r.value)
  {
    r := None;
    var rest := names;
    while rest != {}
      invariant rest <= names
      invariant r.None? ==> forall m :: m in names - rest ==> !IsSessionName(m)
      invariant r.Some? ==> r.value in names - rest && IsSessionName(r.value)
      invariant r.Some? ==> forall m :: m in names - rest && IsSessionName(m) ==> LexLe(m, r.value)
      decreases rest
    {
      var f :| f in rest;
      if IsSessionName(f) {
        if r.None? {
          LexLeRefl(f);
          r := Some(f);
        } else {
          LexLeTotal(f, r.value);
          if !LexLe(f, r.value) {
            forall m | m in names - rest && IsSessionName(m)
              ensures LexLe(m, f)
            {
              if m != f {
                LexLeTrans(m, r.value, f);
              }
            }
            LexLeRefl(f);
            r := Some(f);
          }
        }
      }
      rest := rest - {f};
    }
  }

  /** A chunk of command output: `{"text": chunk, "delay": elapsed}`, the clock in seconds. */
  function ChunkEvent(text: string, delay: int): JValue {
    JObj(map["text" := JStr(text), "delay" := JNum(delay as real)])
  }

  /** `add_command_output` declares no `chunks` parameter. */
  const ChunksKeywordError: Exc :=
    PyError(TypeError, "DemoSession.add_command_output() got an unexpected keyword argument 'chunks'")

  /**
   * The events after `finalize_llm_output`: one output event joining the
   * buffered chunks, when recording and the buffer is not empty.
   */
  function Flushed(events: JValue, buffer: seq<string>, recording: bool): (r: JValue)
    ensures events.JList? ==> r.JList? && |r.items| >= |events.items| && r.items[..|events.items|] == events.items
    ensures events.JList? && recording && buffer != [] ==>
      |r.items| == |events.items| + 1 && r.items[|events.items|] == OutputEvent(Concat(buffer))
    ensures !recording || buffer == [] ==> r == events
  {
    if recording && buffer != [] && events.JList? then JList(events.items + [OutputEvent(Concat(buffer))])
    else events
  }

  /** What `save_session` writes: the session dictionary after the flush. */
  function SavedFile(f: Fields, buffer: seq<string>, recording: bool): FileContent {
    Parsed(SessionDict(Fields(f.version, Flushed(f.events, buffer, recording))))
  }

  /**
   * A flushed buffer flushes nothing more: saving again right after a save
   * writes the same file.
   */
  lemma FlushTwice(events: JValue, buffer: seq<string>, recording: bool)
    ensures var left := if recording && buffer != [] && events.JList? then [] else buffer;
      Flushed(Flushed(events, buffer, recording), left, recording) == Flushed(events, buffer, recording)
  {
  }

  class DemoRecorder {
    const dir: DemoDir
    var session: DemoSession?
    var currentFile: Option<string>
    var isRecording: bool
    /** `_current_output`: the LLM chunks since the last flush. */
    var currentOutput: seq<string>
    /** `_current_command_chunks` */
    var commandChunks: seq<JValue>
    /** `_command_start_time` */
    var commandStart: Option<int>
    /** `_current_command`; None while the attribute does not exist. */
    var currentCommand: Option<string>

    /** Recording implies a session, and a session built here keeps a list of events. */
    ghost predicate Valid()
      reads this, session
    {
      (isRecording ==> session != null) && (session != null ==> session.events.JList?)
    }

    constructor (dir: DemoDir)
      ensures Valid() && this.dir == dir
      ensures session == null && currentFile.None? && !isRecording
      ensures currentOutput == [] && commandChunks == [] && commandStart.None? && currentCommand.None?
    {
      this.dir := dir;
      session := null;
      currentFile := None;
      isRecording := false;
      currentOutput := [];
      commandChunks := [];
      commandStart := None;
      currentCommand := None;
    }

    /**
     * `start_recording()`: a fresh empty session, the next free file name,
     * recording on.  The buffers are left as they were.
     */
    method StartRecording() returns (file: string, ghost n: int)
      requires Valid()
      modifies this`session, this`currentFile, this`isRecording
      ensures Valid() && fresh(session) && isRecording && currentFile == Some(file)
      ensures session.Attributes() == Fields(JStr(DefaultVersion), JList([]))
      ensures IsNextNumber(dir.files.Keys, n) && file == SessionFileName(n) && file !in dir.files
    {
      session := new DemoSession();
      n, file := NextFilename(dir.files.Keys);
      NextNameIsFresh(dir.files.Keys, n);
      currentFile := Some(file);
      isRecording := true;
    }

    /** `record_user_input(text)`: one input event, only while recording. */
    method RecordUserInput(text: string)
      requires Valid()
      modifies session
      ensures Valid()
      ensures old(isRecording) ==> session.events == JList(old(session.events).items + [InputEvent(text)])
      ensures !old(isRecording) ==> session != null ==> unchanged(session)
    {
      if !isRecording || session == null {
        return;
      }
      var err := session.AddUserInput(text);
    }

    /** `record_llm_chunk(chunk)`: buffered, only while recording. */
    method RecordLlmChunk(chunk: string)
      modifies this`currentOutput
      ensures currentOutput == if isRecording then old(currentOutput) + [chunk] else old(currentOutput)
    {
      if !isRecording {
        return;
      }
      currentOutput := currentOutput + [chunk];
    }

    /** `finalize_llm_output()`: the buffer becomes one output event and is emptied. */
    method FinalizeLlmOutput()
      requires Valid()
      modifies this`currentOutput, session
      ensures Valid()
      ensures session != null ==> session.events == Flushed(old(session.events), old(currentOutput), isRecording)
      ensures session != null ==> session.version == old(session.version)
      ensures currentOutput == if isRecording && old(currentOutput) != [] then [] else old(currentOutput)
      ensures !isRecording ==> session != null ==> unchanged(session)
    {
      if !isRecording || session == null {
        return;
      }
      if currentOutput != [] {
        var err := session.AddLlmOutput(Concat(currentOutput));
        currentOutput := [];
      }
    }

    /** `record_command_output(command, output)`: one command event, only while recording. */
    method RecordCommandOutput(command: string, output: string)
      requires Valid()
      modifies session
      ensures Valid()
      ensures old(isRecording) ==>
        session.events == JList(old(session.events).items + [CommandEvent(command, output)])
      ensures !old(isRecording) ==> session != null ==> unchanged(session)
    {
      if !isRecording || session == null {
        return;
      }
      var err := session.AddCommandOutput(command, output);
    }

    /** `start_command_recording(command)` at clock reading `now`. */
    method StartCommandRecording(command: string, now: int)
      modifies this`commandChunks, this`commandStart, this`currentCommand
      ensures isRecording ==> commandChunks == [] && commandStart == Some(now) && currentCommand == Some(command)
      ensures !isRecording ==>
        commandChunks == old(commandChunks) && commandStart == old(commandStart) && currentCommand == old(currentCommand)
    {
      if !isRecording {
        return;
      }
      commandChunks := [];
      commandStart := Some(now);
      currentCommand := Some(command);
    }

    /** `record_command_chunk(chunk)` at clock reading `now`: kept with its delay since the start. */
    method RecordCommandChunk(chunk: string, now: int)
      modifies this`commandChunks
      ensures isRecording && commandStart.Some? ==>
        commandChunks == old(commandChunks) + [ChunkEvent(chunk, now - commandStart.value)]
      ensures !isRecording || commandStart.None? ==> commandChunks == old(commandChunks)
    {
      if !isRecording || commandStart.None? {
        return;
      }
      commandChunks := commandChunks + [ChunkEvent(chunk, now - commandStart.value)];
    }

    /**
     * `finalize_command_output()`: with chunks and a command it calls
     * `add_command_output(command, chunks=...)`, which raises TypeError
     * before anything is recorded or reset; otherwise it does nothing.
     */
    method FinalizeCommandOutput() returns (raised: Option<Exc>)
      ensures raised.Some? <==> isRecording && session != null && commandChunks != [] && currentCommand.Some?
      ensures raised.Some? ==> raised.value == ChunksKeywordError
    {
      raised := None;
      if !isRecording || session == null {
        return;
      }
      if commandChunks != [] && currentCommand.Some? {
        raised := Some(ChunksKeywordError);
      }
    }

    /**
     * `save_session()`: without a session or a file, None; otherwise the
     * pending LLM output is flushed and the whole session written to the file.
     */
    method SaveSession() returns (saved: Option<string>)
      requires Valid()
      modifies this`currentOutput, session, dir
      ensures Valid()
      ensures old(session) == null || currentFile.None? ==>
        saved.None? && dir.files == old(dir.files) && unchanged(this) && (session != null ==> unchanged(session))
      ensures session != null && currentFile.Some? ==>
        saved == currentFile
        && session.events == Flushed(old(session.events), old(currentOutput), isRecording)
        && session.version == old(session.version)
        && dir.files == old(dir.files)[currentFile.value :=
             SavedFile(old(session.Attributes()), old(currentOutput), isRecording)]
      ensures currentOutput ==
        if session != null && currentFile.Some? && isRecording && old(currentOutput) != [] then []
        else old(currentOutput)
    {
      if session == null || currentFile.None? {
        return None;
      }
      FinalizeLlmOutput();
      dir.files := dir.files[currentFile.value := Parsed(session.ToDict())];
      saved := currentFile;
    }

    /** `stop_recording(auto_save)`: saves first iff `auto_save` and a session exist, then recording off. */
    method StopRecording(autoSave: bool)
      requires Valid()
      modifies this`currentOutput, this`isRecording, session, dir
      ensures Valid() && !isRecording
      ensures autoSave && session != null && currentFile.Some? ==>
        dir.files == old(dir.files)[currentFile.value :=
          SavedFile(old(session.Attributes()), old(currentOutput), old(isRecording))]
        && session.events == Flushed(old(session.events), old(currentOutput), old(isRecording))
      ensures !(autoSave && session != null && currentFile.Some?) ==>
        dir.files == old(dir.files) && (session != null ==> unchanged(session)) && currentOutput == old(currentOutput)
    {
      if autoSave && session != null {
        var saved := SaveSession();
      }
      isRecording := false;
    }
  }
}
