/**
 * src/main.rs: its own copy of the editor resolver, and the edit session of
 * `launch_editor`. The session is a method over an abstract operating system
 * (a file store that records every operation, and the editor process as a
 * function from the launch request and the file's content to an exit status
 * and new content); it is proved against the pure specification `Session`.
 */
module EditSession {
  import opened Wrappers
  import Text
  import Editor

  // ---------------------------------------------------------------------------
  // main.rs's own get_editor, as written
  // ---------------------------------------------------------------------------

  /** The first of the three variables that is set at all, empty or not. */
  function FirstSet(env: Editor.Env): Option<string> {
    if env.gitEditor.Some? then env.gitEditor
    else if env.visual.Some? then env.visual
    else env.editor
  }

  /** No variable is set to the empty string. */
  predicate NoEmptyVariable(env: Editor.Env) {
    env.gitEditor != Some("") && env.visual != Some("") && env.editor != Some("")
  }

  /**
   * `get_editor` of main.rs: the first variable that is set, even when it is
   * empty; then git's trimmed `core.editor` when git succeeded and the value is
   * not blank; then "vi".
   */
  function GetEditor(env: Editor.Env, git: Editor.GitOutput): (r: string)
    ensures FirstSet(env).Some? ==> r == FirstSet(env).value
    ensures FirstSet(env).None? ==>
      r == if git.Finished? && git.success && !Text.AllWhitespace(git.stdout) then Text.Trim(git.stdout) else "vi"
  {
    if env.gitEditor.Some? then env.gitEditor.value
    else if env.visual.Some? then env.visual.value
    else if env.editor.Some? then env.editor.value
    else if git.Finished? && git.success then
      var s := Text.Trim(git.stdout);
      Text.TrimEmptyIff(git.stdout);
      if s != "" then s else "vi"
    else "vi"
  }

  /** When no variable is set to "", both resolvers pick the same editor. */
  lemma ResolversAgree(env: Editor.Env, git: Editor.GitOutput)
    requires NoEmptyVariable(env)
    ensures GetEditor(env, git) == Editor.GetEditor(env, Editor.ActualGitConfig(git))
  {
  }

  /** The two resolvers differ exactly when the first variable that is set is empty. */
  lemma ResolversDivergeExactly(env: Editor.Env, git: Editor.GitOutput)
    ensures GetEditor(env, git) != Editor.GetEditor(env, Editor.ActualGitConfig(git)) <==> FirstSet(env) == Some("")
  {
    if FirstSet(env) == Some("") {
      Editor.ActualEditorNonEmpty(env, git);
    }
  }

  /**
   * The unit test of editor.rs with GIT_EDITOR="" and VISUAL="nano": main.rs's
   * copy resolves the empty editor, so the shell would be given only " <path>".
   */
  lemma EmptyGitEditorDiverges(git: Editor.GitOutput, path: string)
    ensures GetEditor(Editor.Env(Some(""), Some("nano"), None), git) == ""
    ensures Editor.GetEditor(Editor.Env(Some(""), Some("nano"), None), Editor.ActualGitConfig(git)) == "nano"
    ensures CommandLine(GetEditor(Editor.Env(Some(""), Some("nano"), None), git), path) == " " + path
  {
  }

  // ---------------------------------------------------------------------------
  // Pure steps of launch_editor
  // ---------------------------------------------------------------------------

  /** The temp-file suffix: the extension itself when it starts with ".", else "." before it. */
  function Suffix(extension: string): (r: string)
    ensures |r| > 0 && r[0] == '.'
    ensures r == extension <==> |extension| > 0 && extension[0] == '.'
    ensures r != extension ==> r == "." + extension
  {
    if |extension| > 0 && extension[0] == '.' then extension else "." + extension
  }

  /** Normalising a suffix again changes nothing. */
  lemma SuffixIdempotent(extension: string)
    ensures Suffix(Suffix(extension)) == Suffix(extension)
  {
  }

  lemma SuffixExamples()
    ensures Suffix("md") == ".md"
    ensures Suffix(".md") == ".md"
    ensures Suffix("txt") == ".txt"
    ensures Suffix("") == "."
  {
  }

  /**
   * `Path::join` of a directory and a relative file name: a "/" is put
   * between them only when the directory is non-empty and does not already
   * end in "/". The name never starts with "/" here (it starts with the
   * package name), so the join never replaces the directory.
   */
  function JoinPath(dir: string, name: string): (p: string)
    ensures |p| == |dir| + |name| + (if |dir| > 0 && dir[|dir| - 1] != '/' then 1 else 0)
    ensures p[..|dir|] == dir && p[|p| - |name|..] == name
    ensures |dir| > 0 ==> p[|p| - |name| - 1] == '/'
  {
    if |dir| > 0 && dir[|dir| - 1] != '/' then dir + "/" + name else dir + name
  }

  lemma JoinPathExamples()
    ensures JoinPath("/tmp", "edio-abc.txt") == "/tmp/edio-abc.txt"
    ensures JoinPath("/tmp/", "edio-abc.txt") == "/tmp/edio-abc.txt"
    ensures JoinPath("", "edio-abc.txt") == "edio-abc.txt"
  {
  }

  /** The temp file tempfile's Builder creates: `<prefix><random><suffix>` joined to `<dir>`. */
  function TempPath(dir: string, prefix: string, random: string, suffix: string): string {
    JoinPath(dir, prefix + random + suffix)
  }

  /**
   * The temp path begins with the directory and ends with the suffix; its
   * file name begins with the prefix, right after a "/" unless the directory
   * is empty.
   */
  lemma TempPathShape(dir: string, prefix: string, random: string, suffix: string)
    ensures var p := TempPath(dir, prefix, random, suffix);
      var start := |p| - |suffix| - |random| - |prefix|;
      && |p| >= |dir| + |prefix| + |random| + |suffix|
      && p[..|dir|] == dir && p[|p| - |suffix|..] == suffix
      && p[start..start + |prefix|] == prefix
      && (|dir| > 0 ==> p[start - 1] == '/')
  {
    var name := prefix + random + suffix;
    var p := JoinPath(dir, name);
    assert p[|p| - |name|..][..|prefix|] == prefix;
    assert p[|p| - |name|..][|name| - |suffix|..] == suffix;
  }

  /**
   * The one string handed to `sh -c`: the editor, one space, the path. The
   * editor string is kept whole; the shell does any word splitting.
   */
  function CommandLine(editor: string, path: string): (line: string)
    ensures |line| == |editor| + 1 + |path|
    ensures line[..|editor|] == editor && line[|editor|] == ' ' && line[|editor| + 1..] == path
  {
    var line := editor + " " + path;
    assert line[..|editor|] == editor;
    assert line[|editor| + 1..] == path;
    line
  }

  // ---------------------------------------------------------------------------
  // The process launch request
  // ---------------------------------------------------------------------------

  /** Where a child's standard stream comes from: the parent's, or a handle on /dev/tty. */
  datatype Stdio = Inherit | Tty

  /** A complete launch request: program, arguments and the three standard streams. */
  datatype Invocation = Invocation(program: string, args: seq<string>, stdin: Stdio, stdout: Stdio, stderr: Stdio)

  /** `std::process::Command`, built up step by step. */
  class Command {
    var program: string
    var args: seq<string>
    var stdin: Stdio
    var stdout: Stdio
    var stderr: Stdio

    /** `Command::new`: no arguments, all three streams inherited. */
    constructor (program: string)
      ensures this.program == program && args == []
      ensures stdin == Inherit && stdout == Inherit && stderr == Inherit
    {
      this.program := program;
      args := [];
      stdin, stdout, stderr := Inherit, Inherit, Inherit;
    }

    function Value(): Invocation
      reads this
    {
      Invocation(program, args, stdin, stdout, stderr)
    }

    /** `Command::args`: appends the arguments. */
    method Args(more: seq<string>)
      modifies this`args
      ensures args == old(args) + more
    {
      args := args + more;
    }

    method SetStdin(s: Stdio)
      modifies this`stdin
      ensures stdin == s
    {
      stdin := s;
    }

    method SetStdout(s: Stdio)
      modifies this`stdout
      ensures stdout == s
    {
      stdout := s;
    }

    method SetStderr(s: Stdio)
      modifies this`stderr
      ensures stderr == s
    {
      stderr := s;
    }
  }

  // ---------------------------------------------------------------------------
  // The outside world
  // ---------------------------------------------------------------------------

  /** File operations that the operating system may refuse. */
  datatype FileOp = Create | Write | Flush | Read

  /** Whether /dev/tty can be opened and its handle cloned. */
  datatype TtyAccess = TtyOk | TtyOpenFails | TtyCloneFails

  datatype TtyStep = Open | Clone

  /** How the editor's shell ended: with an exit code, or killed by a signal. */
  datatype ExitStatus = Exited(code: int) | Signalled {

    /** `ExitStatus::success`. */
    predicate Success() {
      Exited? && code == 0
    }

    /** `ExitStatus::code`: absent for a signal. */
    function Code(): (r: Option<int>)
      ensures r.Some? <==> Exited?
      ensures r.Some? ==> r.value == code
    {
      if Exited? then Some(code) else None
    }
  }

  /** One run of the editor: the shell could not be spawned, or it ran and left new file content. */
  datatype EditorRun = NotSpawned | Ran(status: ExitStatus, content: string)

  /** The editor process: what it does given the launch request and the file's content. */
  type EditorProcess = (Invocation, string) -> EditorRun

  /** The ways a session fails. */
  datatype EditError =
    | TempFileError(op: FileOp)
    | TerminalError(step: TtyStep)
    | LaunchError
    | ExitError(code: Option<int>)
    | EmptyContent

  /**
   * What the session asks of the operating system, in order. Each event
   * records a request, whether the operating system granted or refused it.
   */
  datatype Event =
    | Created(path: string)
    | Wrote(path: string, data: string)
    | Flushed(path: string)
    | Launched(inv: Invocation)
    | ReadBack(path: string)
    | Removed(path: string)

  /** Everything the session reads from outside that is not a file. */
  datatype Host = Host(
    env: Editor.Env,             // GIT_EDITOR, VISUAL, EDITOR
    git: Editor.GitOutput,       // the output of `git config --get core.editor`
    packageName: string,         // CARGO_PKG_NAME, the temp-file prefix before "-"
    tempDir: string,             // env::temp_dir(), taken as an absolute path
    random: string,              // the random part of the temp-file name
    canonical: Option<string>,   // what fs::canonicalize answers for the temp path
    stdoutIsTerminal: bool,      // io::stdout().is_terminal()
    tty: TtyAccess)

  /**
   * The operating system as the session sees it: a store from paths to file
   * contents, the log of every operation asked of it, and the file
   * operations it refuses.
   */
  class Os {
    var files: map<string, string>
    var log: seq<Event>
    const failing: set<FileOp>

    constructor (files: map<string, string>, failing: set<FileOp>)
      ensures this.files == files && this.failing == failing && log == []
    {
      this.files := files;
      this.failing := failing;
      log := [];
    }

    /** Creates an empty file exclusively: refused when the path already exists. */
    method CreateTemp(path: string) returns (ok: bool)
      modifies this
      ensures ok == Creates(path, old(files), failing)
      ensures files == if ok then old(files)[path := ""] else old(files)
      ensures log == old(log) + [Created(path)]
    {
      ok := Creates(path, files, failing);
      if ok {
        files := files[path := ""];
      }
      log := log + [Created(path)];
    }

    /** `write_all` on a handle positioned at the end of the file. */
    method WriteAll(path: string, data: string) returns (ok: bool)
      requires path in files
      modifies this
      ensures ok == (Write !in failing)
      ensures files == if ok then old(files)[path := old(files)[path] + data] else old(files)
      ensures log == old(log) + [Wrote(path, data)]
    {
      ok := Write !in failing;
      if ok {
        files := files[path := files[path] + data];
      }
      log := log + [Wrote(path, data)];
    }

    method FlushFile(path: string) returns (ok: bool)
      modifies this
      ensures ok == (Flush !in failing)
      ensures files == old(files)
      ensures log == old(log) + [Flushed(path)]
    {
      ok := Flush !in failing;
      log := log + [Flushed(path)];
    }

    /**
     * `cmd.status()`: runs the editor on the file at `path` and waits for it.
     * A spawned editor leaves its new content in the file, whatever its status.
     */
    method Spawn(inv: Invocation, path: string, editor: EditorProcess) returns (status: Option<ExitStatus>)
      requires path in files
      modifies this
      ensures log == old(log) + [Launched(inv)]
      ensures editor(inv, old(files)[path]).NotSpawned? ==> status.None? && files == old(files)
      ensures editor(inv, old(files)[path]).Ran? ==>
        status == Some(editor(inv, old(files)[path]).status)
        && files == old(files)[path := editor(inv, old(files)[path]).content]
    {
      var run := editor(inv, files[path]);
      log := log + [Launched(inv)];
      match run
      case NotSpawned =>
        status := None;
      case Ran(st, content) =>
        status := Some(st);
        files := files[path := content];
    }

    /** `fs::read_to_string`. */
    method ReadToString(path: string) returns (content: Option<string>)
      requires path in files
      modifies this
      ensures content == if Read in failing then None else Some(old(files)[path])
      ensures files == old(files)
      ensures log == old(log) + [ReadBack(path)]
    {
      content := if Read in failing then None else Some(files[path]);
      log := log + [ReadBack(path)];
    }

    /** Dropping the temp-file guard deletes the file; a failure to delete is ignored. */
    method Remove(path: string)
      modifies this
      ensures files == old(files) - {path}
      ensures log == old(log) + [Removed(path)]
    {
      files := files - {path};
      log := log + [Removed(path)];
    }
  }

  // ---------------------------------------------------------------------------
  // The specification of a session
  // ---------------------------------------------------------------------------

  /** The result of a session and what the operating system saw it do. */
  datatype Outcome = Outcome(result: Result<string, EditError>, log: seq<Event>)

  function SessionPath(host: Host, extension: string): string {
    TempPath(host.tempDir, host.packageName + "-", host.random, Suffix(extension))
  }

  /** The editor the session runs: main.rs's own `get_editor`, as written. */
  function ResolvedEditor(host: Host): string {
    GetEditor(host.env, host.git)
  }

  /** The source of all three of the editor's streams. */
  function StreamSource(stdoutIsTerminal: bool): Stdio {
    if stdoutIsTerminal then Inherit else Tty
  }

  /** The launch request for the editor on the temp file at `path`. */
  function Launch(host: Host, path: string): Invocation {
    var s := StreamSource(host.stdoutIsTerminal);
    Invocation("sh", ["-c", CommandLine(ResolvedEditor(host), host.canonical.GetOr(path))], s, s, s)
  }

  /** The events of writing the seed: none for an empty seed. */
  function SeedEvents(path: string, input: string, failing: set<FileOp>): seq<Event> {
    if input == "" then []
    else if Write in failing then [Wrote(path, input)]
    else [Wrote(path, input), Flushed(path)]
  }

  /** Classify how the editor ended: the exit status first, then the file's content, read back only after a success. */
  function Classify(run: EditorRun, path: string, failing: set<FileOp>): Outcome {
    match run
    case NotSpawned => Outcome(Err(LaunchError), [])
    case Ran(status, content) =>
      if !status.Success() then Outcome(Err(ExitError(status.Code())), [])
      else if Read in failing then Outcome(Err(TempFileError(Read)), [ReadBack(path)])
      else if content == "" then Outcome(Err(EmptyContent), [ReadBack(path)])
      else Outcome(Ok(content), [ReadBack(path)])
  }

  /** Wire the streams, launch `inv` on the seeded file, classify how it ended. */
  function LaunchOutcome(host: Host, path: string, inv: Invocation, failing: set<FileOp>, run: EditorRun): Outcome {
    if !host.stdoutIsTerminal && host.tty == TtyOpenFails then Outcome(Err(TerminalError(Open)), [])
    else if !host.stdoutIsTerminal && host.tty == TtyCloneFails then Outcome(Err(TerminalError(Clone)), [])
    else
      var o := Classify(run, path, failing);
      Outcome(o.result, [Launched(inv)] + o.log)
  }

  /** What the session does while the temp file at `path` exists: seed it, then launch the editor. */
  function InSession(input: string, host: Host, path: string, inv: Invocation, failing: set<FileOp>, run: EditorRun): Outcome {
    var seeded := SeedEvents(path, input, failing);
    if input != "" && Write in failing then Outcome(Err(TempFileError(Write)), seeded)
    else if input != "" && Flush in failing then Outcome(Err(TempFileError(Flush)), seeded)
    else
      var o := LaunchOutcome(host, path, inv, failing, run);
      Outcome(o.result, seeded + o.log)
  }

  /**
   * A whole session on the temp file `path`, launching `inv`, where `run` is
   * what the editor does: create the file, seed it and launch the editor,
   * then delete the file on every path.
   */
  function Session(
    path: string, inv: Invocation, input: string, host: Host,
    files: map<string, string>, failing: set<FileOp>, run: EditorRun): Outcome
  {
    if !Creates(path, files, failing) then Outcome(Err(TempFileError(Create)), [Created(path)])
    else
      var o := InSession(input, host, path, inv, failing, run);
      Outcome(o.result, [Created(path)] + o.log + [Removed(path)])
  }

  // ---------------------------------------------------------------------------
  // What a session promises
  // ---------------------------------------------------------------------------

  /** The temp file can be created. */
  predicate Creates(path: string, files: map<string, string>, failing: set<FileOp>) {
    Create !in failing && path !in files
  }

  /** The temp file is created and, when the seed is non-empty, written and flushed. */
  predicate Seeded(path: string, input: string, files: map<string, string>, failing: set<FileOp>) {
    Creates(path, files, failing) && (input != "" ==> Write !in failing && Flush !in failing)
  }

  /** The session gets as far as launching the editor: file created and seeded, streams wired. */
  predicate ReachesLaunch(path: string, input: string, host: Host, files: map<string, string>, failing: set<FileOp>) {
    Seeded(path, input, files, failing) && (!host.stdoutIsTerminal ==> host.tty == TtyOk)
  }

  /** The events of the steps from the launch on: the launch, and the read-back after a successful exit. */
  function LaunchEvents(path: string, inv: Invocation, run: EditorRun): seq<Event> {
    [Launched(inv)] + (if run.Ran? && run.status.Success() then [ReadBack(path)] else [])
  }

  /** The log of a session, read off in one piece. */
  lemma LogShape(
    path: string, inv: Invocation, input: string, host: Host,
    files: map<string, string>, failing: set<FileOp>, run: EditorRun)
    ensures Session(path, inv, input, host, files, failing, run).log ==
      if !Creates(path, files, failing) then [Created(path)]
      else
        [Created(path)] + SeedEvents(path, input, failing)
        + (if ReachesLaunch(path, input, host, files, failing) then LaunchEvents(path, inv, run) else [])
        + [Removed(path)]
  {
    if ReachesLaunch(path, input, host, files, failing) {
      var c := Classify(run, path, failing);
      assert c.log == if run.Ran? && run.status.Success() then [ReadBack(path)] else [];
    }
  }

  /**
   * A session succeeds exactly when every step succeeds, the editor exits
   * with success and leaves non-empty content; the result is that content.
   */
  lemma SessionSucceedsIff(
    path: string, inv: Invocation, input: string, host: Host,
    files: map<string, string>, failing: set<FileOp>, run: EditorRun)
    ensures var o := Session(path, inv, input, host, files, failing, run);
      o.result.Ok? <==>
        && ReachesLaunch(path, input, host, files, failing)
        && run.Ran? && run.status.Success() && Read !in failing && run.content != ""
    ensures var o := Session(path, inv, input, host, files, failing, run);
      o.result.Ok? ==> o.result.value == run.content
  {
  }

  /** The editor is launched exactly when the earlier steps succeed, and only with `inv`. */
  lemma LaunchedIff(
    path: string, inv: Invocation, input: string, host: Host,
    files: map<string, string>, failing: set<FileOp>, run: EditorRun)
    ensures var o := Session(path, inv, input, host, files, failing, run);
      && (Launched(inv) in o.log <==> ReachesLaunch(path, input, host, files, failing))
      && (forall e :: e in o.log && e.Launched? ==> e.inv == inv)
  {
    LogShape(path, inv, input, host, files, failing, run);
  }

  /**
   * When the host's stdout is a terminal, /dev/tty is never consulted: the
   * session does the same whatever opening it would do.
   */
  lemma TerminalIgnoredWhenStdoutIsTerminal(
    path: string, inv: Invocation, input: string, host: Host,
    files: map<string, string>, failing: set<FileOp>, run: EditorRun, tty: TtyAccess)
    requires host.stdoutIsTerminal
    ensures Session(path, inv, input, host.(tty := tty), files, failing, run)
         == Session(path, inv, input, host, files, failing, run)
  {
  }

  /** Opening or cloning /dev/tty fails the session only when the streams are to be redirected. */
  lemma TerminalErrorIff(
    path: string, inv: Invocation, input: string, host: Host,
    files: map<string, string>, failing: set<FileOp>, run: EditorRun)
    ensures var o := Session(path, inv, input, host, files, failing, run);
      (o.result.Err? && o.result.error.TerminalError?) <==>
        Seeded(path, input, files, failing) && !host.stdoutIsTerminal && host.tty != TtyOk
  {
  }

  /**
   * The seed is written, whole, exactly when it is non-empty; an empty seed
   * leaves the new file untouched.
   */
  lemma SeedWrittenOnlyWhenNonEmpty(
    path: string, inv: Invocation, input: string, host: Host,
    files: map<string, string>, failing: set<FileOp>, run: EditorRun)
    ensures var o := Session(path, inv, input, host, files, failing, run);
      && (forall e :: e in o.log && e.Wrote? ==> e.path == path && e.data == input)
      && (Wrote(path, input) in o.log <==> Creates(path, files, failing) && input != "")
      && (input == "" ==> forall e :: e in o.log ==> !e.Wrote? && !e.Flushed?)
  {
    LogShape(path, inv, input, host, files, failing, run);
  }

  /**
   * A failed exit is reported with its exit code (none for a signal), and the
   * file is then never read.
   */
  lemma FailedExitNeverReads(
    path: string, inv: Invocation, input: string, host: Host,
    files: map<string, string>, failing: set<FileOp>, run: EditorRun)
    ensures var o := Session(path, inv, input, host, files, failing, run);
      (o.result.Err? && o.result.error.ExitError?) <==>
        ReachesLaunch(path, input, host, files, failing) && run.Ran? && !run.status.Success()
    ensures var o := Session(path, inv, input, host, files, failing, run);
      o.result.Err? && o.result.error.ExitError? ==>
        && o.result.error.code == run.status.Code()
        && forall e :: e in o.log ==> !e.ReadBack?
  {
    LogShape(path, inv, input, host, files, failing, run);
  }

  /** After a successful exit, empty content aborts the session. */
  lemma EmptyContentAborts(
    path: string, inv: Invocation, input: string, host: Host,
    files: map<string, string>, failing: set<FileOp>, run: EditorRun)
    ensures Session(path, inv, input, host, files, failing, run).result == Err(EmptyContent) <==>
      && ReachesLaunch(path, input, host, files, failing)
      && run.Ran? && run.status.Success() && Read !in failing && run.content == ""
  {
  }

  /**
   * The temp file is the first thing made and, once made, the last thing
   * removed, on every path.
   */
  lemma TempFileRemovedOnEveryPath(
    path: string, inv: Invocation, input: string, host: Host,
    files: map<string, string>, failing: set<FileOp>, run: EditorRun)
    ensures var o := Session(path, inv, input, host, files, failing, run);
      && |o.log| > 0 && o.log[0] == Created(path)
      && (Creates(path, files, failing) ==>
            && o.log[|o.log| - 1] == Removed(path)
            && forall i :: 0 <= i < |o.log| - 1 ==> !o.log[i].Removed?)
      && (!Creates(path, files, failing) ==> o.log == [Created(path)] && o.result == Err(TempFileError(Create)))
  {
    LogShape(path, inv, input, host, files, failing, run);
  }

  // ---------------------------------------------------------------------------
  // The temp path and the launch request
  // ---------------------------------------------------------------------------

  /**
   * The temp file's path begins with the temp directory and ends with the
   * suffix; its file name begins with the package name and "-", right after
   * a "/" unless the directory is empty.
   */
  lemma SessionPathShape(host: Host, extension: string)
    ensures var p := SessionPath(host, extension);
      var start := |p| - |Suffix(extension)| - |host.random| - |host.packageName| - 1;
      && |p| >= |host.tempDir| + |host.packageName| + 1 + |host.random| + |Suffix(extension)|
      && p[..|host.tempDir|] == host.tempDir
      && p[|p| - |Suffix(extension)|..] == Suffix(extension)
      && p[start..start + |host.packageName| + 1] == host.packageName + "-"
      && (|host.tempDir| > 0 ==> p[start - 1] == '/')
  {
    TempPathShape(host.tempDir, host.packageName + "-", host.random, Suffix(extension));
    var p := SessionPath(host, extension);
    var start := |p| - |Suffix(extension)| - |host.random| - |host.packageName| - 1;
    assert p[start..start + |host.packageName| + 1] == host.packageName + "-";
  }

  /**
   * The shell is given "-c" and the single string "<editor> <path>", where the
   * path is the canonical one when canonicalisation succeeded and the temp
   * path otherwise; its three streams come from one source, /dev/tty exactly
   * when the host's stdout is not a terminal.
   */
  lemma LaunchRequest(host: Host, path: string)
    ensures var inv := Launch(host, path);
      var editor := ResolvedEditor(host);
      var abs := if host.canonical.Some? then host.canonical.value else path;
      && inv.program == "sh"
      && |inv.args| == 2 && inv.args[0] == "-c"
      && inv.args[1][..|editor|] == editor
      && inv.args[1][|editor|] == ' '
      && inv.args[1][|editor| + 1..] == abs
      && inv.stdin == inv.stdout == inv.stderr
      && (inv.stdin == Tty <==> !host.stdoutIsTerminal)
  {
  }

  /**
   * When no variable is set to "", the shell string names the editor that the
   * resolver of editor.rs would choose.
   */
  lemma LaunchAgreesWithEditorResolver(host: Host, path: string)
    requires NoEmptyVariable(host.env)
    ensures Launch(host, path).args[1] ==
      CommandLine(Editor.GetEditor(host.env, Editor.ActualGitConfig(host.git)), host.canonical.GetOr(path))
  {
    ResolversAgree(host.env, host.git);
  }

  /** With GIT_EDITOR="" and VISUAL="nano" the shell is given only " <path>". */
  lemma EmptyGitEditorLaunch(host: Host, path: string)
    requires host.env == Editor.Env(Some(""), Some("nano"), None) && host.canonical.None?
    ensures Launch(host, path).args[1] == " " + path
  {
  }

  // ---------------------------------------------------------------------------
  // Sessions with a simulated editor
  // ---------------------------------------------------------------------------

  /** An editor that appends " world" to the seed "hello" yields "hello world". */
  lemma HelloWorld(path: string, inv: Invocation, host: Host, files: map<string, string>)
    requires host.stdoutIsTerminal || host.tty == TtyOk
    requires path !in files
    ensures var editor: EditorProcess := (i: Invocation, c: string) => Ran(Exited(0), c + " world");
      Session(path, inv, "hello", host, files, {}, editor(inv, "hello")).result == Ok("hello world")
  {
    assert "hello" + " world" == "hello world";
  }

  /** An editor that exits with status 3 fails the session with code 3; one that empties the file aborts it. */
  lemma ExitThreeAndEmpty(path: string, inv: Invocation, input: string, host: Host, files: map<string, string>)
    requires host.stdoutIsTerminal || host.tty == TtyOk
    requires path !in files
    ensures var three: EditorProcess := (i: Invocation, c: string) => Ran(Exited(3), c);
      Session(path, inv, input, host, files, {}, three(inv, input)).result == Err(ExitError(Some(3)))
    ensures var clear: EditorProcess := (i: Invocation, c: string) => Ran(Exited(0), "");
      Session(path, inv, input, host, files, {}, clear(inv, input)).result == Err(EmptyContent)
  {
  }

  // ---------------------------------------------------------------------------
  // launch_editor
  // ---------------------------------------------------------------------------

  /**
   * `launch_editor`: the temp file is `SessionPath`, the editor is launched
   * with the request `Launch` and sees exactly the seed as the file's content,
   * and the temp file lives exactly as long as the session, so the file store
   * ends as it began whatever the outcome.
   */
  method LaunchEditor(os: Os, extension: string, input: string, host: Host, editor: EditorProcess)
    returns (r: Result<string, EditError>)
    modifies os
    ensures var path := SessionPath(host, extension);
      var inv := Launch(host, path);
      var o := Session(path, inv, input, host, old(os.files), os.failing, editor(inv, input));
      r == o.result && os.log == old(os.log) + o.log
    ensures os.files == old(os.files)
  {
    var path := SessionPath(host, extension);
    ghost var inv := Launch(host, path);
    ghost var run := editor(inv, input);
    var created := os.CreateTemp(path);
    if !created {
      return Err(TempFileError(Create));
    }
    r := Edit(os, path, input, host, editor, inv, run);
    os.Remove(path);
    SessionLog(old(os.log), path, inv, input, host, old(os.files), os.failing, run);
  }

  lemma SessionLog(before: seq<Event>, path: string, inv: Invocation, input: string, host: Host,
                   files: map<string, string>, failing: set<FileOp>, run: EditorRun)
    requires Creates(path, files, failing)
    ensures (before + [Created(path)] + InSession(input, host, path, inv, failing, run).log) + [Removed(path)]
      == before + Session(path, inv, input, host, files, failing, run).log
  {
  }

  /** The body of `launch_editor` between creating the temp file and dropping it. */
  method Edit(os: Os, path: string, input: string, host: Host, editor: EditorProcess,
              ghost inv: Invocation, ghost run: EditorRun)
    returns (r: Result<string, EditError>)
    requires path in os.files && os.files[path] == ""
    requires inv == Launch(host, path) && run == editor(inv, input)
    modifies os
    ensures r == InSession(input, host, path, inv, os.failing, run).result
    ensures os.log == old(os.log) + InSession(input, host, path, inv, os.failing, run).log
    ensures path in os.files && os.files == old(os.files)[path := os.files[path]]
    ensures os.files[path] ==
      if input != "" && Write in os.failing then ""
      else if input != "" && Flush in os.failing then input
      else if (host.stdoutIsTerminal || host.tty == TtyOk) && run.Ran? then run.content
      else input
  {
    if input != "" {
      var ok := os.WriteAll(path, input);
      if !ok {
        return Err(TempFileError(Write));
      }
      ok := os.FlushFile(path);
      if !ok {
        return Err(TempFileError(Flush));
      }
    }
    assert os.files[path] == input;
    ghost var log1 := os.log;
    ghost var o := LaunchOutcome(host, path, inv, os.failing, run);
    r := RunEditor(os, path, input, host, editor, inv, run);
    assert os.log == log1 + o.log;
  }

  /** The part of `launch_editor` from resolving the editor on, on a temp file that holds the seed. */
  method RunEditor(os: Os, path: string, input: string, host: Host, editor: EditorProcess,
                   ghost inv: Invocation, ghost run: EditorRun)
    returns (r: Result<string, EditError>)
    requires path in os.files && os.files[path] == input
    requires inv == Launch(host, path) && run == editor(inv, input)
    modifies os
    ensures r == LaunchOutcome(host, path, inv, os.failing, run).result
    ensures os.log == old(os.log) + LaunchOutcome(host, path, inv, os.failing, run).log
    ensures path in os.files && os.files == old(os.files)[path := os.files[path]]
    ensures os.files[path] == if (host.stdoutIsTerminal || host.tty == TtyOk) && run.Ran? then run.content else input
  {
    var editorName := ResolvedEditor(host);
    var absPath := host.canonical.GetOr(path);
    var cmd := new Command("sh");
    cmd.Args(["-c", CommandLine(editorName, absPath)]);
    if !host.stdoutIsTerminal {
      if host.tty == TtyOpenFails {
        return Err(TerminalError(Open));
      }
      if host.tty == TtyCloneFails {
        return Err(TerminalError(Clone));
      }
      cmd.SetStdin(Tty);
      cmd.SetStdout(Tty);
      cmd.SetStderr(Tty);
    }
    assert cmd.Value() == inv;
    ghost var log1 := os.log;
    var status := os.Spawn(cmd.Value(), path, editor);
    ghost var c := Classify(run, path, os.failing);
    r := Harvest(os, path, status, run);
    assert os.log == log1 + [Launched(inv)] + c.log;
  }

  /** The end of `launch_editor`: the exit status first, then the file's content. */
  method Harvest(os: Os, path: string, status: Option<ExitStatus>, ghost run: EditorRun)
    returns (r: Result<string, EditError>)
    requires path in os.files
    requires run.NotSpawned? <==> status.None?
    requires run.Ran? ==> status == Some(run.status) && os.files[path] == run.content
    modifies os
    ensures r == Classify(run, path, os.failing).result
    ensures os.log == old(os.log) + Classify(run, path, os.failing).log
    ensures os.files == old(os.files)
  {
    if status.None? {
      return Err(LaunchError);
    }
    if !status.value.Success() {
      return Err(ExitError(status.value.Code()));
    }
    var content := os.ReadToString(path);
    if content.None? {
      return Err(TempFileError(Read));
    }
    if content.value == "" {
      return Err(EmptyContent);
    }
    return Ok(content.value);
  }
}
