/**
 * demo_system/manager.py: the mode logic (`off`, `record`, `play`) that
 * builds a recorder or a player, forwards calls to whichever exists, and
 * the do-nothing manager the factory returns for `off`.
 */
module DemoManagement {
  import opened Base
  import opened DemoModels
  import opened Recording
  import opened Playback

  class DemoSystemManager {
    var mode: string
    const dir: DemoDir
    const demoFile: Option<string>
    var recorder: DemoRecorder?
    var player: DemoPlayer?
    /** The file play mode looked for: the given one, else the last recording. */
    ghost var sessionFile: Option<string>

    ghost predicate Valid()
      reads this, recorder, if recorder != null then {recorder.session} else {}
    {
      recorder != null ==> recorder.dir == dir && recorder.Valid()
    }

    /**
     * `DemoSystemManager(mode, console, config_dir, demo_file)` and its
     * `_initialize()`: record mode starts a recording; play mode loads the
     * given file or the last recording and falls back to `off` when there
     * is none or it does not load; any other mode builds nothing.
     */
    constructor (mode: string, dir: DemoDir, demoFile: Option<string>, configFile: Option<FileContent>)
      modifies dir
      ensures Valid() && this.dir == dir && this.demoFile == demoFile && dir.files == old(dir.files)
      ensures mode == "record" ==>
        this.mode == "record" && player == null && recorder != null && fresh(recorder)
        && recorder.isRecording && recorder.currentFile.Some? && recorder.currentFile.value !in dir.files
      ensures mode == "play" ==>
        recorder == null && player != null && fresh(player)
        && (demoFile.Some? ==> sessionFile == demoFile)
        && (demoFile.None? && sessionFile.None? ==> forall m :: m in dir.files ==> !IsSessionName(m))
        && (demoFile.None? && sessionFile.Some? ==> IsLastRecording(dir.files.Keys, sessionFile.value))
        && (this.mode == "play" <==>
             sessionFile.Some? && sessionFile.value in dir.files
             && dir.files[sessionFile.value].Parsed? && dir.files[sessionFile.value].value.JObj?)
        && (this.mode != "play" ==> this.mode == "off")
      ensures mode != "record" && mode != "play" ==> this.mode == mode && recorder == null && player == null
    {
      this.mode := mode;
      this.dir := dir;
      this.demoFile := demoFile;
      recorder := null;
      player := null;
      sessionFile := None;
      new;
      if mode == "record" {
        recorder := new DemoRecorder(dir);
        var file, n := recorder.StartRecording();
      } else if mode == "play" {
        player := new DemoPlayer(configFile);
        var target := demoFile;
        if target.None? {
          target := GetLastRecording(dir.files.Keys);
        }
        sessionFile := target;
        if target.Some? && target.value in dir.files {
          var ok := player.LoadSession(Some(dir.files[target.value]));
          if !ok {
            this.mode := "off";
          }
        } else {
          this.mode := "off";
        }
      }
    }

    /** `is_recording()` */
    predicate IsRecording()
      reads this
    {
      mode == "record" && recorder != null
    }

    /** `is_playing()` */
    predicate IsPlaying()
      reads this
    {
      mode == "play" && player != null
    }

    /** `is_active()`: any mode but `off`, whether or not it built anything. */
    predicate IsActive()
      reads this
    {
      mode != "off"
    }

    /** `record_user_input(text)`: forwarded when there is a recorder. */
    method RecordUserInput(text: string)
      requires Valid()
      modifies if recorder != null then {recorder.session} else {}
      ensures Valid()
      ensures recorder != null && recorder.isRecording ==>
        recorder.session.events == JList(old(recorder.session.events).items + [InputEvent(text)])
      ensures recorder != null && !recorder.isRecording && recorder.session != null ==> unchanged(recorder.session)
    {
      if recorder != null {
        recorder.RecordUserInput(text);
      }
    }

    /** `record_llm_chunk(chunk)`: forwarded when there is a recorder, whose buffer alone changes. */
    method RecordLlmChunk(chunk: string)
      modifies if recorder != null then {recorder} else {}
      ensures recorder != null ==>
        && recorder.isRecording == old(recorder.isRecording) && recorder.session == old(recorder.session)
        && recorder.currentFile == old(recorder.currentFile) && recorder.commandChunks == old(recorder.commandChunks)
        && recorder.commandStart == old(recorder.commandStart) && recorder.currentCommand == old(recorder.currentCommand)
      ensures recorder != null ==>
        recorder.currentOutput
          == (if recorder.isRecording then old(recorder.currentOutput) + [chunk] else old(recorder.currentOutput))
    {
      if recorder != null {
        recorder.RecordLlmChunk(chunk);
      }
    }

    /** `finalize_llm_output()`: forwarded when there is a recorder. */
    method FinalizeLlmOutput()
      requires Valid()
      modifies if recorder != null then {recorder, recorder.session} else {}
      ensures Valid()
      ensures recorder != null ==>
        && recorder.isRecording == old(recorder.isRecording) && recorder.session == old(recorder.session)
        && recorder.currentFile == old(recorder.currentFile) && recorder.commandChunks == old(recorder.commandChunks)
        && recorder.commandStart == old(recorder.commandStart) && recorder.currentCommand == old(recorder.currentCommand)
      ensures recorder != null && recorder.session != null ==>
        && recorder.session.events
             == Flushed(old(recorder.session.events), old(recorder.currentOutput), recorder.isRecording)
        && recorder.session.version == old(recorder.session.version)
      ensures recorder != null ==>
        recorder.currentOutput
          == (if recorder.isRecording && old(recorder.currentOutput) != [] then [] else old(recorder.currentOutput))
      ensures recorder != null && !recorder.isRecording && recorder.session != null ==> unchanged(recorder.session)
    {
      if recorder != null {
        recorder.FinalizeLlmOutput();
      }
    }

    /** `record_command_output(command, output)`: forwarded when there is a recorder. */
    method RecordCommandOutput(command: string, output: string)
      requires Valid()
      modifies if recorder != null then {recorder.session} else {}
      ensures Valid()
      ensures recorder != null && recorder.isRecording ==>
        recorder.session.events == JList(old(recorder.session.events).items + [CommandEvent(command, output)])
      ensures recorder != null && !recorder.isRecording && recorder.session != null ==> unchanged(recorder.session)
    {
      if recorder != null {
        recorder.RecordCommandOutput(command, output);
      }
    }

    /**
     * `play()`: the player's whole playback, when there is a player; without
     * one nothing happens.  The player's session is left as it was.
     */
    method Play(stopAt: nat, interruptAt: Option<nat>) returns (raised: Option<Exc>)
      modifies if player != null then {player} else {}
      ensures player == null ==> raised.None?
      ensures player != null ==> player.session == old(player.session)
      ensures player != null && player.session == null ==>
        player.isPlaying == old(player.isPlaying) && raised.None? && player.console == old(player.console) + [NoSessionLoaded]
      ensures player != null && player.session != null ==> !player.isPlaying
      ensures player != null && player.session != null && Iterate(player.session.events).Err? ==>
        raised == Some(Iterate(player.session.events).exc) && player.console == old(player.console)
      ensures player != null && player.session != null && Iterate(player.session.events).Ok? ==>
        (var p := PlayFrom(EventResults(Iterate(player.session.events).value, player.config), stopAt, interruptAt, 0);
         raised == p.raised && player.console == old(player.console) + p.shown)
    {
      raised := None;
      if player != null {
        raised := player.PlaySession(stopAt, interruptAt);
      }
    }

    /** `stop_playback()` */
    method StopPlayback()
      modifies if player != null then {player} else {}
      ensures player != null ==>
        !player.isPlaying && player.session == old(player.session) && player.console == old(player.console)
    {
      if player != null {
        player.Stop();
      }
    }

    /**
     * `finalize()` (also `__exit__`): `save_session()`, then
     * `stop_recording()`, whose default `auto_save` saves a second time.
     * The second save writes what the first wrote.
     */
    method Finalize()
      requires Valid()
      modifies if recorder != null then {recorder, recorder.session, dir} else {}
      ensures Valid()
      ensures recorder != null ==> !recorder.isRecording
      ensures recorder != null && old(recorder.session) != null && recorder.currentFile.Some? ==>
        dir.files == old(dir.files)[recorder.currentFile.value :=
          SavedFile(old(recorder.session.Attributes()), old(recorder.currentOutput), old(recorder.isRecording))]
      ensures recorder == null || old(recorder.session) == null || recorder.currentFile.None? ==>
        dir.files == old(dir.files)
    {
      if recorder != null {
        ghost var before := recorder.session;
        ghost var events := if before != null then before.events else JNull;
        ghost var buffer := recorder.currentOutput;
        ghost var recording := recorder.isRecording;
        var saved := recorder.SaveSession();
        if before != null {
          FlushTwice(events, buffer, recording);
        }
        recorder.StopRecording(true);
      }
    }
  }

  /** What `create_demo_manager` returns: the null object, or a real manager. */
  datatype DemoManager = NullDemoManager | Managed(m: DemoSystemManager)

  /** `create_demo_manager(mode, ...)`: the null object exactly for `off`. */
  method CreateDemoManager(mode: string, dir: DemoDir, demoFile: Option<string>, configFile: Option<FileContent>)
    returns (dm: DemoManager)
    modifies dir
    ensures dm.NullDemoManager? <==> mode == "off"
    ensures dm.Managed? ==> fresh(dm.m) && dm.m.Valid() && dm.m.dir == dir
    ensures dir.files == old(dir.files)
  {
    if mode == "off" {
      return NullDemoManager;
    }
    var m := new DemoSystemManager(mode, dir, demoFile, configFile);
    dm := Managed(m);
  }

  predicate ManagerIsRecording(dm: DemoManager)
    reads if dm.Managed? then {dm.m} else {}
  {
    dm.Managed? && dm.m.IsRecording()
  }

  predicate ManagerIsPlaying(dm: DemoManager)
    reads if dm.Managed? then {dm.m} else {}
  {
    dm.Managed? && dm.m.IsPlaying()
  }

  predicate ManagerIsActive(dm: DemoManager)
    reads if dm.Managed? then {dm.m} else {}
  {
    dm.Managed? && dm.m.IsActive()
  }

  /**
   * A manager is active exactly when its mode is not `off`, and playing
   * only in play mode with a player; after construction in play mode that
   * means the session loaded.
   */
  lemma ActiveModes(dm: DemoManager)
    ensures dm.NullDemoManager? ==> !ManagerIsRecording(dm) && !ManagerIsPlaying(dm) && !ManagerIsActive(dm)
    ensures ManagerIsPlaying(dm) ==> ManagerIsActive(dm) && !ManagerIsRecording(dm)
    ensures ManagerIsRecording(dm) ==> ManagerIsActive(dm) && !ManagerIsPlaying(dm)
  {
  }
}
