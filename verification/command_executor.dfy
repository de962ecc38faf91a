/**
 * Running a code block the user picked: the executor for the operating
 * system runs it, its standard output is echoed line by line as it comes,
 * and a short summary (exit code, interruption, error output) follows.
 * The shell, the clock and the temporary directory's naming are not
 * modelled: what the launched process does is a `Process` value.
 */
module CommandExecution {
  import opened Base
  import opened Text

  /** What the launched script does, as seen from Python. */
  datatype Process = Process(
    launch: Option<Exc>,         // what `Popen` (or writing the batch file) raised, if anything
    stdoutLines: seq<string>,    // its standard output, one decoded line at a time
    stderrLines: seq<string>,    // its error output, one decoded line at a time
    interrupted: bool,           // Ctrl+C arrived while waiting for it to finish
    returncode: int)

  /** `subprocess.CompletedProcess`, without `args`. */
  datatype Completed = Completed(returncode: int, stdout: string, stderr: string)

  datatype Executor = LinuxExecutor | WindowsExecutor

  /** `CommandExecutorFactory.create_executor`, given `platform.system()`. */
  function CreateExecutor(system: string): Executor {
    if Lower(system) == "windows" then WindowsExecutor else LinuxExecutor
  }

  // ---- reading the output --------------------------------------------------

  /** The lines an executor keeps: each stripped, the blank ones dropped, in order. */
  function Kept(lines: seq<string>): seq<string> {
    if lines == [] then []
    else
      var line := lines[|lines| - 1];
      Kept(lines[..|lines| - 1]) + (if line != "" && Strip(line) != "" then [Strip(line)] else [])
  }

  /** The loop over `process.stdout` (and, on Windows, `process.stderr`). */
  method CollectLines(lines: seq<string>) returns (kept: seq<string>)
    ensures kept == Kept(lines)
  {
    kept := [];
    for i := 0 to |lines|
      invariant kept == Kept(lines[..i])
    {
      assert lines[..i + 1][..i] == lines[..i];
      var decoded := Strip(lines[i]);
      if lines[i] != "" && decoded != "" {
        kept := kept + [decoded];
      }
    }
    assert lines[..|lines|] == lines;
  }

  /** One step of `Kept`: the last line is kept or not. */
  lemma KeptSnoc(lines: seq<string>)
    requires lines != []
    ensures var line := lines[|lines| - 1];
      Kept(lines) == Kept(lines[..|lines| - 1]) + (if line != "" && Strip(line) != "" then [Strip(line)] else [])
  {
  }

  /** Some element of `init + [last]` maps to `x` when one of `init` does or `last` does. */
  lemma SomeMapsTo<T, U>(init: seq<T>, last: T, f: T -> U, x: U)
    ensures (exists l :: l in init + [last] && f(l) == x) <==>
            (exists l :: l in init && f(l) == x) || f(last) == x
  {
    if exists l :: l in init + [last] && f(l) == x {
      var l :| l in init + [last] && f(l) == x;
      assert l in init || l == last;
    }
    if f(last) == x {
      assert last in init + [last];
    }
    if exists l :: l in init && f(l) == x {
      var l :| l in init && f(l) == x;
      assert l in init + [last];
    }
  }

  /** A line is kept exactly when it is the non-empty stripped form of an output line. */
  lemma {:induction false} KeptMember(lines: seq<string>, x: string)
    ensures x in Kept(lines) <==> x != "" && exists l :: l in lines && Strip(l) == x
  {
    if lines != [] {
      var init, line := lines[..|lines| - 1], lines[|lines| - 1];
      KeptMember(init, x);
      KeptSnoc(lines);
      assert lines == init + [line];
      SomeMapsTo(init, line, Strip, x);
      if x != "" && Strip(line) == x {
        assert line != "";
      }
    }
  }

  /** Every kept line is stripped and non-empty. */
  lemma {:induction false} KeptStripped(lines: seq<string>)
    ensures forall x :: x in Kept(lines) ==> x != "" && IsStripped(x)
  {
    if lines != [] {
      var init, line := lines[..|lines| - 1], lines[|lines| - 1];
      KeptStripped(init);
      KeptSnoc(lines);
      forall x | x in Kept(lines) ensures x != "" && IsStripped(x) {
        if x !in Kept(init) {
          StripIdempotent(line);
        }
      }
    }
  }

  /** There are never more kept lines than output lines. */
  lemma {:induction false} KeptLength(lines: seq<string>)
    ensures |Kept(lines)| <= |lines|
  {
    if lines != [] {
      KeptLength(lines[..|lines| - 1]);
      KeptSnoc(lines);
    }
  }

  /** Both facts about the kept lines, for every line. */
  lemma KeptLines(lines: seq<string>)
    ensures forall x :: x in Kept(lines) <==> x != "" && exists l :: l in lines && Strip(l) == x
    ensures forall x :: x in Kept(lines) ==> IsStripped(x)
    ensures |Kept(lines)| <= |lines|
  {
    forall x ensures x in Kept(lines) <==> x != "" && exists l :: l in lines && Strip(l) == x {
      KeptMember(lines, x);
    }
    KeptStripped(lines);
    KeptLength(lines);
  }

  /** `'\n'.join(lines) if lines else ''` */
  function Joined(lines: seq<string>): string {
    Join(lines, "\n")
  }

  /** What the executor of `kind` returns or raises for the process `p`. */
  function Outcome(kind: Executor, p: Process): Result<Completed> {
    if p.launch.Some? then Err(p.launch.value)
    else if p.interrupted then Err(KeyboardInterrupt)
    else Ok(Completed(p.returncode, Joined(Kept(p.stdoutLines)),
                      if kind == WindowsExecutor then Joined(Kept(p.stderrLines)) else ""))
  }

  /** The lines echoed while the process runs: nothing if it never started. */
  function Echoed(p: Process): seq<string> {
    if p.launch.Some? then [] else Kept(p.stdoutLines)
  }

  // ---- Linux ---------------------------------------------------------------

  /**
   * `LinuxCommandExecutor.execute`: the block goes to the shell as it is;
   * the error output is never read, so `stderr` is always empty.
   */
  method LinuxExecute(codeBlock: string, p: Process) returns (r: Result<Completed>, echoed: seq<string>)
    ensures r == Outcome(LinuxExecutor, p) && echoed == Echoed(p)
    ensures r.Ok? ==> r.value.stderr == ""
  {
    if p.launch.Some? {
      return Err(p.launch.value), [];
    }
    echoed := CollectLines(p.stdoutLines);
    if p.interrupted {
      r := Err(KeyboardInterrupt);
    } else {
      r := Ok(Completed(p.returncode, Joined(echoed), ""));
    }
  }

  // ---- Windows -------------------------------------------------------------

  /** `code_block.replace('@echo off', '')` behind a leading `@echo off`, then every `pause` commented out. */
  function PrepareBatch(codeBlock: string): string {
    DisablePause("@echo off\n" + Replace(codeBlock, "@echo off", ""))
  }

  /** Replacing in `q + s` leaves `q` alone when no occurrence can start inside `q`. */
  lemma {:induction false} ReplaceKeepsPrefix(q: string, s: string, p: string, v: string)
    requires |p| > 0 && p[0] !in q
    ensures Replace(q + s, p, v) == q + Replace(s, p, v)
    decreases |q|
  {
    if q != [] {
      var qs := q + s;
      assert qs[0] == q[0] != p[0];
      assert p[0] !in q[1..] by {
        forall c | c in q[1..] ensures c in q { }
      }
      ReplaceKeepsPrefix(q[1..], s, p, v);
      if |qs| >= |p| {
        assert qs[..|p|][0] == qs[0];
        assert qs[1..] == q[1..] + s;
        calc {
          Replace(qs, p, v);
          [q[0]] + Replace(q[1..] + s, p, v);
          [q[0]] + (q[1..] + Replace(s, p, v));
          { assert q == [q[0]] + q[1..]; }
          q + Replace(s, p, v);
        }
      } else {
        assert Replace(s, p, v) == s;
        assert Replace(qs, p, v) == qs;
      }
    } else {
      assert q + s == s;
    }
  }

  /** Every `pause` in `s` is the tail of a `rem pause`. */
  predicate PausesDisabled(s: string) {
    forall i :: 0 <= i < |s| && OccursAt(s, "pause", i) ==> 4 <= i && s[i - 4..i] == "rem "
  }

  function DisablePause(t: string): string {
    Replace(t, "pause", "rem pause")
  }

  /** Up to the first `r` it writes, the replacement copies its input. */
  lemma {:induction false} CopiedBeforeR(t: string, k: nat)
    requires k <= |DisablePause(t)|
    ensures (forall j :: 0 <= j < k ==> DisablePause(t)[j] != 'r') ==>
      k <= |t| && t[..k] == DisablePause(t)[..k]
    decreases |t|
  {
    var out := DisablePause(t);
    if |t| >= 5 && k > 0 {
      if t[..5] == "pause" {
        assert out[0] == 'r';
      } else {
        var rest := DisablePause(t[1..]);
        assert out == [t[0]] + rest;
        CopiedBeforeR(t[1..], k - 1);
        if (forall j :: 0 <= j < k ==> out[j] != 'r') {
          forall j | 0 <= j < k - 1 ensures rest[j] != 'r' { assert rest[j] == out[j + 1]; }
          assert t[..k] == [t[0]] + t[1..][..k - 1];
        }
      }
    }
  }

  /** A copied first character starts a `pause` only where the input did. */
  lemma CopyStartsPause(t: string)
    requires |t| >= 5
    ensures OccursAt([t[0]] + DisablePause(t[1..]), "pause", 0) ==> t[..5] == "pause"
  {
    var rest := DisablePause(t[1..]);
    var out := [t[0]] + rest;
    if OccursAt(out, "pause", 0) {
      forall j | 0 <= j < 4 ensures rest[j] != 'r' {
        assert rest[j] == out[j + 1] == out[..5][j + 1];
      }
      CopiedBeforeR(t[1..], 4);
      assert t[..5] == [t[0]] + t[1..][..4];
    }
  }

  lemma DisabledAfterRem(rest: string)
    requires PausesDisabled(rest)
    ensures PausesDisabled("rem pause" + rest)
  {
    var out := "rem pause" + rest;
    forall i | 0 <= i < |out| && OccursAt(out, "pause", i) ensures 4 <= i && out[i - 4..i] == "rem " {
      if i < 9 {
        assert out[i] == "rem pause"[i] == out[i..i + 5][0];
      } else {
        assert rest[i - 9..i - 4] == out[i..i + 5];
        assert OccursAt(rest, "pause", i - 9);
        assert out[i - 4..i] == rest[i - 13..i - 9];
      }
    }
  }

  lemma DisabledAfterChar(c: char, rest: string)
    requires PausesDisabled(rest) && !OccursAt([c] + rest, "pause", 0)
    ensures PausesDisabled([c] + rest)
  {
    var out := [c] + rest;
    forall i | 0 < i < |out| && OccursAt(out, "pause", i) ensures 4 <= i && out[i - 4..i] == "rem " {
      assert rest[i - 1..i + 4] == out[i..i + 5];
      assert OccursAt(rest, "pause", i - 1);
      assert out[i - 4..i] == rest[i - 5..i - 1];
    }
  }

  /** After `replace('pause', 'rem pause')` no bare `pause` is left. */
  lemma {:induction false} ReplacePauseDisables(t: string)
    ensures PausesDisabled(DisablePause(t))
    decreases |t|
  {
    if |t| >= 5 {
      if t[..5] == "pause" {
        ReplacePauseDisables(t[5..]);
        DisabledAfterRem(DisablePause(t[5..]));
      } else {
        ReplacePauseDisables(t[1..]);
        CopyStartsPause(t);
        DisabledAfterChar(t[0], DisablePause(t[1..]));
      }
    }
  }

  /** A prefix without `p` adds no bare `pause`. */
  lemma PrefixKeepsDisabled(q: string, s: string)
    requires 'p' !in q && PausesDisabled(s)
    ensures PausesDisabled(q + s)
  {
    var out := q + s;
    forall i | 0 <= i < |q| ensures !OccursAt(out, "pause", i) {
      assert out[i] == q[i];
    }
    forall i | |q| <= i < |out| && OccursAt(out, "pause", i) ensures 4 <= i && out[i - 4..i] == "rem " {
      assert s[i - |q|..i - |q| + 5] == out[i..i + 5];
      assert OccursAt(s, "pause", i - |q|);
      assert out[i - 4..i] == s[i - |q| - 4..i - |q|];
    }
  }

  /**
   * The batch file starts with `@echo off` on a line of its own, every
   * `pause` in it is commented out, and a block holding neither
   * `@echo off` nor `pause` is otherwise written unchanged.
   */
  lemma BatchShape(codeBlock: string)
    ensures StartsWith(PrepareBatch(codeBlock), "@echo off\n")
    ensures PausesDisabled(PrepareBatch(codeBlock))
    ensures !Contains(codeBlock, "@echo off") && !Contains(codeBlock, "pause") ==>
      PrepareBatch(codeBlock) == "@echo off\n" + codeBlock
  {
    var stripped := Replace(codeBlock, "@echo off", "");
    ReplaceKeepsPrefix("@echo off\n", stripped, "pause", "rem pause");
    ReplacePauseDisables(stripped);
    PrefixKeepsDisabled("@echo off\n", DisablePause(stripped));
    if !Contains(codeBlock, "@echo off") && !Contains(codeBlock, "pause") {
      ReplaceAbsent(codeBlock, "@echo off", "");
      ReplaceAbsent(codeBlock, "pause", "rem pause");
    }
  }

  /** The temporary directory the batch files go to: path to contents. */
  class TempDir {
    var files: map<string, string>

    constructor (files: map<string, string>)
      ensures this.files == files
    {
      this.files := files;
    }
  }

  /**
   * `WindowsCommandExecutor.execute`: the prepared batch is written to a
   * fresh file, the file is run, both outputs are read (standard output
   * echoed, error output only collected) and the file is removed on every
   * path, whatever was raised. `script` is what the file held when it ran.
   */
  method WindowsExecute(dir: TempDir, codeBlock: string, tempPath: string, p: Process)
    returns (r: Result<Completed>, echoed: seq<string>, script: string)
    requires tempPath !in dir.files
    modifies dir
    ensures dir.files == old(dir.files)
    ensures script == PrepareBatch(codeBlock)
    ensures r == Outcome(WindowsExecutor, p) && echoed == Echoed(p)
  {
    var code := PrepareBatch(codeBlock);
    dir.files := dir.files[tempPath := ""];
    dir.files := dir.files[tempPath := code];
    script := dir.files[tempPath];
    if p.launch.Some? {
      r, echoed := Err(p.launch.value), [];
    } else {
      echoed := CollectLines(p.stdoutLines);
      var errors := CollectLines(p.stderrLines);
      if p.interrupted {
        r := Err(KeyboardInterrupt);
      } else {
        r := Ok(Completed(p.returncode, Joined(echoed), Joined(errors)));
      }
    }
    dir.files := dir.files - {tempPath};
    assert dir.files == old(dir.files);
  }

  // ---- reporting -----------------------------------------------------------

  function ExitCodeLine(code: int): string {
    "[dim]>>> Exit code: " + IntToString(code) + "[/dim]"
  }

  /** The error output is summarised when there is some and no line of it mentions `Error:`. */
  predicate ShowsStderr(stderr: string) {
    stderr != "" && !(exists line :: line in Split(stderr, '\n') && Contains(line, "Error:"))
  }

  /** What `execute_and_handle_result` prints after the echoed output. */
  function Summary(r: Result<Completed>): seq<string> {
    match r
    case Ok(c) =>
      [ExitCodeLine(c.returncode)]
      + (if ShowsStderr(c.stderr) then ["[yellow]>>> Error:[/yellow]" + "\n" + c.stderr] else [])
    case Err(KeyboardInterrupt) => ["[dim]>>> Command interrupted by user (Ctrl+C)[/dim]"]
    case Err(e) => ["[dim]Script execution error: " + ExcText(e) + "[/dim]"]
  }

  /** Everything printed for one run: the header, the echo, the summary. */
  function Report(kind: Executor, p: Process): seq<string> {
    ["[dim]>>> Result:[/dim]"] + Echoed(p) + Summary(Outcome(kind, p))
  }

  /** What the shell is given: the block itself, or on Windows the batch file. */
  function Script(kind: Executor, codeBlock: string): string {
    if kind == WindowsExecutor then PrepareBatch(codeBlock) else codeBlock
  }

  /** Splitting into lines does not change whether `Error:` appears. */
  lemma ShowsStderrIff(stderr: string)
    ensures ShowsStderr(stderr) <==> stderr != "" && !Contains(stderr, "Error:")
  {
    SplitContains(stderr, '\n', "Error:");
  }

  /**
   * One status line always follows the echo; the error summary is a
   * second one exactly when the run completed with error output none of
   * whose lines mentions `Error:`, so never on Linux.
   */
  lemma SummaryShape(kind: Executor, p: Process)
    ensures var s := Summary(Outcome(kind, p));
      && 1 <= |s| <= 2
      && (|s| == 2 <==> Outcome(kind, p).Ok? && Outcome(kind, p).value.stderr != ""
                        && !Contains(Outcome(kind, p).value.stderr, "Error:"))
      && (kind == LinuxExecutor ==> |s| == 1)
  {
    if Outcome(kind, p).Ok? {
      ShowsStderrIff(Outcome(kind, p).value.stderr);
    }
  }

  /**
   * `execute_and_handle_result`: runs the block with the executor for
   * `system` and prints the report; on Windows the temporary directory is
   * left as it was found.
   */
  method ExecuteAndHandleResult(dir: TempDir, system: string, code: string, tempPath: string, p: Process)
    returns (out: seq<string>, script: string)
    requires tempPath !in dir.files
    modifies dir
    ensures dir.files == old(dir.files)
    ensures out == Report(CreateExecutor(system), p)
    ensures script == Script(CreateExecutor(system), code)
  {
    var kind := CreateExecutor(system);
    var r, echoed;
    if kind == WindowsExecutor {
      r, echoed, script := WindowsExecute(dir, code, tempPath, p);
    } else {
      r, echoed := LinuxExecute(code, p);
      script := code;
    }
    out := ["[dim]>>> Result:[/dim]"] + echoed;
    match r {
      case Ok(c) =>
        out := out + [ExitCodeLine(c.returncode)];
        if c.stderr != "" && !(exists line :: line in Split(c.stderr, '\n') && Contains(line, "Error:")) {
          out := out + ["[yellow]>>> Error:[/yellow]" + "\n" + c.stderr];
        }
      case Err(KeyboardInterrupt) =>
        out := out + ["[dim]>>> Command interrupted by user (Ctrl+C)[/dim]"];
      case Err(e) =>
        out := out + ["[dim]Script execution error: " + ExcText(e) + "[/dim]"];
    }
  }

  function MissingBlock(idx: int, total: nat): string {
    "[yellow]Block #" + IntToString(idx) + " does not exist. Available blocks: 1 to "
    + IntToString(total) + ".[/yellow]"
  }

  function RunningHeader(idx: int): string {
    "[dim]>>> Running block #" + IntToString(idx) + ":[/dim]"
  }

  /**
   * `run_code_block`: a number outside 1..n only draws the warning and runs
   * nothing; otherwise the block's number and text are shown and block
   * `idx` (counted from 1) is what runs.
   */
  method RunCodeBlock(dir: TempDir, system: string, codeBlocks: seq<string>, idx: int,
                      tempPath: string, p: Process)
    returns (out: seq<string>, ran: Option<string>)
    requires tempPath !in dir.files
    modifies dir
    ensures dir.files == old(dir.files)
    ensures !(1 <= idx <= |codeBlocks|) ==>
      out == [MissingBlock(idx, |codeBlocks|)] && ran == None
    ensures 1 <= idx <= |codeBlocks| ==>
      && out == [RunningHeader(idx), codeBlocks[idx - 1]] + Report(CreateExecutor(system), p)
      && ran == Some(Script(CreateExecutor(system), codeBlocks[idx - 1]))
  {
    if !(1 <= idx <= |codeBlocks|) {
      return [MissingBlock(idx, |codeBlocks|)], None;
    }
    var code := codeBlocks[idx - 1];
    var report, script := ExecuteAndHandleResult(dir, system, code, tempPath, p);
    out := [RunningHeader(idx), code] + report;
    ran := Some(script);
  }
}
