# edio: a verified model of the editor resolver and the edit session

edio is a small command-line tool. It reads optional text from standard
input, seeds a temporary file with it, opens the user's editor on that file
(through `sh -c`), and prints the edited content. When its own standard output
is piped, the editor's three streams are redirected to the controlling
terminal `/dev/tty` so the editor stays interactive.

This project models, in Dafny, the two core files of the repository:

- `src/editor.rs` (module `Editor`, file `editor.dfy`): the `GitConfigEditor`
  capability with its production adapter `ActualGitConfig` and the test
  double `MockGitConfig`, and `get_editor`, which takes the first non-empty
  variable of `GIT_EDITOR`, `VISUAL`, `EDITOR`, then git's `core.editor`, then
  `"vi"`.
- `src/main.rs` (module `EditSession`, file `session.dfy`): its own copy of
  `get_editor`, the suffix rule, the temp-file name, the `sh -c` command
  string, the stream redirection, and `launch_editor` itself.

Rust's `str::trim` is modelled in module `Text` (`text.dfy`). `Option` and
`Result` are in module `Wrappers` (`wrappers.dfy`).

The environment, the output of `git config`, the terminal test and the
`/dev/tty` handle are inputs (the `Host` value). The same goes for the result
of `fs::canonicalize`, the system temp directory and the random part of the
temp-file name. The operating system is the class `Os`: a map from paths to
file contents, a log of every operation asked of it, and a fixed set of
operations it refuses. The editor is a function from the launch request and
the file's content to a run: either not spawned, or an exit status and the
new content. `LaunchEditor` is an imperative method over `Os` and a
`Command` builder. Its contract ties its result and the operation log to the
pure function `Session`. The lemmas about `Session` state what a session
promises.

The two copies of `get_editor` disagree about variables set to the empty
string (see "## Findings"). The session calls main.rs's copy, as
`launch_editor` does at `src/main.rs:64`, and the model keeps it as written
(`EditSession.GetEditor`). The resolver of `editor.rs` (`Editor.GetEditor`)
skips empty variables, as its unit test at
`src/editor.rs:155-167` expects. `ResolversAgree` and
`LaunchAgreesWithEditorResolver` prove that the two pick the same editor
whenever no variable is set to `""`.

## Model

| member | source | states |
|---|---|---|
| Text.IsWhitespace | src/editor.rs:19 | `char::is_whitespace`, the Unicode White_Space characters that `trim` removes (here and at src/main.rs:31); what trimming with it yields is stated by `Text.Trim` and `Text.TrimEmptyIff` |
| Text.StartIndex | src/editor.rs:19 | the leading part `trim` drops is all whitespace, and the character after it is not whitespace |
| Text.EndIndex | src/editor.rs:19 | the trailing part `trim` drops is all whitespace, and the character before it is not whitespace |
| Text.Trim | src/editor.rs:19 | the trimmed string is a slice of the input between an all-whitespace prefix and an all-whitespace suffix, and it neither starts nor ends with whitespace |
| Text.TrimEmptyIff | src/editor.rs:19-22 | trimming gives the empty string exactly when the input is all whitespace |
| Text.TrimIdempotent | src/editor.rs:19 | trimming a trimmed string changes nothing |
| Editor.GitConfig.Get | src/editor.rs:11-24 | `GitConfigEditor::get` for the production adapter and for the test double of src/editor.rs:59-66; its partner `Editor.GetSpec` states what it answers |
| Editor.GetSpec | src/editor.rs:11-24 | the production adapter answers a value exactly when git ran, succeeded and printed something other than whitespace; the value is the trimmed output; it never answers `Some("")`; the test double answers its fixed value |
| Editor.GetEditor | src/editor.rs:30-52 | `get_editor` of editor.rs; `Editor.GetEditorFollowsPrecedence` proves it equal to the independent list formulation, and the lemmas below state each rung |
| Editor.FirstNonEmpty | src/editor.rs:30-45 | the first candidate that is set and non-empty: none exactly when no candidate is usable, otherwise one at an index with no usable candidate before it |
| Editor.GetEditorFollowsPrecedence | src/editor.rs:30-52 | `get_editor` equals the first usable variable of GIT_EDITOR, VISUAL, EDITOR, else the configuration's answer, else "vi" |
| Editor.GitEditorWins | src/editor.rs:31-35 | a non-empty GIT_EDITOR wins whatever the other sources hold |
| Editor.VisualWins | src/editor.rs:36-40 | with GIT_EDITOR unset or empty, a non-empty VISUAL wins |
| Editor.EditorVarWins | src/editor.rs:41-45 | with GIT_EDITOR and VISUAL unset or empty, a non-empty EDITOR wins |
| Editor.ConfigThenVi | src/editor.rs:47-51 | with no usable variable, the configuration's answer is used, and "vi" when it answers nothing |
| Editor.EmptyIsUnset | src/editor.rs:31-45 | each of the three variables set to "" gives the same editor as that variable unset |
| Editor.GetEditorNonEmpty | src/editor.rs:30-52 | the resolved editor is non-empty whenever the configuration never answers `Some("")` |
| Editor.ActualEditorNonEmpty | src/editor.rs:10-52 | with the production adapter the resolved editor is never the empty string |
| Editor.EditorTests | src/editor.rs:75-167 | the six unit tests' expected editors: emacs, nano, vim, test-editor, vi, and nano past an empty GIT_EDITOR |
| EditSession.FirstSet | src/main.rs:17-25 | the first editor variable that `env::var` reports as set, empty or not; `EditSession.ResolversDivergeExactly` states the divergence in its terms |
| EditSession.GetEditor | src/main.rs:16-39 | main.rs's copy: the first variable that is set at all, even empty; otherwise the trimmed `core.editor` when git succeeded and it is not blank; otherwise "vi" |
| EditSession.ResolversAgree | src/main.rs:16-39 | when no variable is set to "", main.rs's copy and the resolver of editor.rs choose the same editor |
| EditSession.ResolversDivergeExactly | src/main.rs:17-25 | the two resolvers differ exactly when the first variable that is set holds "" |
| EditSession.EmptyGitEditorDiverges | src/main.rs:17-19 | with GIT_EDITOR="" and VISUAL="nano", main.rs's copy resolves "" (the shell gets " <path>") while editor.rs resolves "nano" |
| EditSession.Suffix | src/main.rs:45-49 | the suffix starts with "."; it is the extension itself exactly when the extension starts with ".", and otherwise "." before the extension |
| EditSession.SuffixIdempotent | src/main.rs:45-49 | normalising a suffix again changes nothing |
| EditSession.SuffixExamples | src/main.rs:45-49 | "md" and ".md" both give ".md", the default "txt" gives ".txt", "" gives "." |
| EditSession.JoinPath | src/main.rs:52-55 | how tempfile joins the file name to the temp directory (`Path::join`): the directory, then a "/" only when the directory is non-empty and does not already end in "/", then the name; a non-empty directory is always followed by a "/" before the name |
| EditSession.JoinPathExamples | src/main.rs:52-55 | "/tmp" and "/tmp/" both give "/tmp/edio-abc.txt"; "" gives the bare name |
| EditSession.TempPath | src/main.rs:52-55 | `<prefix><random><suffix>` joined to the directory; its shape is stated by `EditSession.TempPathShape` |
| EditSession.TempPathShape | src/main.rs:52-55 | the temp path begins with the directory and ends with the suffix, and the file name begins with the prefix, right after a "/" unless the directory is empty |
| EditSession.SessionPath | src/main.rs:52-54 | the temp-file name the tempfile `Builder` gives: the temp directory, the package name and "-" as prefix, a random part, and the normalised suffix; `EditSession.SessionPathShape` states its shape |
| EditSession.SessionPathShape | src/main.rs:52-55 | the session's temp path begins with the temp directory and ends with the normalised suffix; its file name begins with the package name and "-", right after a "/" unless the directory is empty |
| EditSession.CommandLine | src/main.rs:70 | the shell string is the editor, exactly one space, then the path, with the editor string kept whole |
| EditSession.Command.constructor | src/main.rs:69 | a new command has the given program, no arguments and all three streams inherited |
| EditSession.Command.Args | src/main.rs:70 | the arguments are appended |
| EditSession.Command.SetStdin | src/main.rs:83 | the child's stdin is set, nothing else changes |
| EditSession.Command.SetStdout | src/main.rs:84 | the child's stdout is set, nothing else changes |
| EditSession.Command.SetStderr | src/main.rs:85 | the child's stderr is set, nothing else changes |
| EditSession.ExitStatus.Success | src/main.rs:90 | `ExitStatus::success`: an exit with code 0; `EditSession.FailedExitNeverReads` and `EditSession.SessionSucceedsIff` state what follows from it |
| EditSession.ExitStatus.Code | src/main.rs:91 | an exit code is present exactly when the editor exited rather than being killed by a signal, and it is that code |
| EditSession.Os.CreateTemp | src/main.rs:52-55 | the file is created empty exactly when creation is allowed and the path is new; the attempt is logged |
| EditSession.Os.WriteAll | src/main.rs:60 | on success the data is appended to the file; the attempt is logged |
| EditSession.Os.FlushFile | src/main.rs:61 | the files are unchanged; the attempt is logged |
| EditSession.Os.Spawn | src/main.rs:88 | the launch request is logged; a spawned editor leaves its new content in the file and its status is returned; an unspawned one changes nothing |
| EditSession.Os.ReadToString | src/main.rs:95 | the file's content, or nothing when reading is refused; the files are unchanged; the read is logged |
| EditSession.Os.Remove | src/main.rs:102 | dropping the temp-file guard deletes the file; the removal is logged |
| Wrappers.Option.GetOr | src/main.rs:66 | `unwrap_or_else`: the held value, else the default; used for the canonical path falling back to the temp path |
| EditSession.StreamSource | src/main.rs:74-86 | where the editor's streams come from: inherited when stdout is a terminal, /dev/tty otherwise; `EditSession.LaunchRequest` states it for the launch request |
| EditSession.ResolvedEditor | src/main.rs:64 | `let editor = get_editor();` calls main.rs's own copy; `EditSession.LaunchRequest` states the shell string built from it and `EditSession.EmptyGitEditorLaunch` shows it keeping an empty GIT_EDITOR |
| EditSession.Launch | src/main.rs:64-86 | the launch request `launch_editor` builds; its fields are stated by `EditSession.LaunchRequest` |
| EditSession.LaunchRequest | src/main.rs:64-86 | the program is `sh`, with exactly the arguments "-c" and one string "<editor> <path>"; the path is the canonical one when canonicalisation succeeded, else the temp path; all three streams come from one source, which is /dev/tty exactly when stdout is not a terminal |
| EditSession.SeedEvents | src/main.rs:58-62 | the operations of seeding the file: none for an empty seed, else the write and, if it got through, the flush; `EditSession.SeedWrittenOnlyWhenNonEmpty` states what a session writes |
| EditSession.Classify | src/main.rs:88-101 | how the session ends once the editor has run: launch error, exit error with its code, read error, empty content, or the content; `EditSession.FailedExitNeverReads` and `EditSession.EmptyContentAborts` state it for whole sessions, and `EditSession.Harvest` is proved against it |
| EditSession.LaunchOutcome | src/main.rs:74-101 | the /dev/tty checks when stdout is not a terminal, then the launch and `Classify`; `EditSession.TerminalErrorIff` and `EditSession.RunEditor` relate to it |
| EditSession.InSession | src/main.rs:58-101 | seeding, then `LaunchOutcome`; `EditSession.Edit` is proved against it |
| EditSession.Session | src/main.rs:42-102 | the whole session: creation, `InSession`, removal; the lemmas below state what it promises and `EditSession.LaunchEditor` is proved against it |
| EditSession.LogShape | src/main.rs:42-102 | the whole log of a session: created; the seed write and flush; the launch and, after a successful exit, the read-back, when reached; removed; or only the creation attempt when creation fails |
| EditSession.SessionSucceedsIff | src/main.rs:52-101 | a session succeeds exactly when the file is created and seeded, the terminal is available when needed, the editor exits with success, the file can be read and it is non-empty; the result is the editor's content |
| EditSession.LaunchedIff | src/main.rs:52-88 | the editor is launched exactly when every earlier step succeeds, and only with the session's launch request |
| EditSession.TerminalIgnoredWhenStdoutIsTerminal | src/main.rs:74-86 | when stdout is a terminal, /dev/tty is never consulted: the session is the same whatever opening it would do |
| EditSession.TerminalErrorIff | src/main.rs:74-81 | a terminal error occurs exactly when the file is created and seeded, stdout is not a terminal, and /dev/tty cannot be opened or cloned |
| EditSession.SeedWrittenOnlyWhenNonEmpty | src/main.rs:58-62 | the only write is of the whole seed to the temp file; it happens exactly when the file was created and the seed is non-empty; an empty seed gives no write and no flush |
| EditSession.FailedExitNeverReads | src/main.rs:88-95 | an exit error occurs exactly when the editor ran and did not succeed; it carries the exit code (none for a signal), and the file is then never read |
| EditSession.EmptyContentAborts | src/main.rs:95-99 | the session aborts for empty content exactly when every step succeeded and the editor left the file empty |
| EditSession.TempFileRemovedOnEveryPath | src/main.rs:52-102 | the creation attempt comes first; once the file exists, its removal is the last event and happens nowhere else; when creation fails, nothing else happens |
| EditSession.LaunchAgreesWithEditorResolver | src/main.rs:64-70 | when no variable is set to "", the shell string names the editor the resolver of editor.rs would choose |
| EditSession.EmptyGitEditorLaunch | src/main.rs:64-70 | with GIT_EDITOR="" and VISUAL="nano" and no canonical path, the shell string is " <path>" |
| EditSession.HelloWorld | src/main.rs:42-101 | an editor that appends " world" to the seed "hello" makes the session return "hello world" |
| EditSession.ExitThreeAndEmpty | src/main.rs:88-99 | an editor exiting with status 3 fails the session with code 3; one that empties the file aborts it with the empty-content error |
| EditSession.LaunchEditor | src/main.rs:42-102 | the result and the operation log are those of `Session` on the session's temp path and launch request, with the editor seeing exactly the seed; the file store ends as it began |
| EditSession.Edit | src/main.rs:58-101 | seeds the file (only for a non-empty seed) and launches the editor; result and log as `InSession`; only the temp file changes, and it ends holding "" after a refused write, the seed after a refused flush or when the editor did not run, and the editor's content after it ran |
| EditSession.RunEditor | src/main.rs:64-101 | builds the `sh -c` command and wires the streams; result and log as `LaunchOutcome`; only the temp file changes, and it ends holding the editor's content when the editor ran and the seed otherwise |
| EditSession.Harvest | src/main.rs:88-101 | checks the exit status before reading the file and rejects empty content; result and log as `Classify`; files unchanged |

## Left out

- Process spawning is not modelled as such: running git and running the editor are inputs (`Host.git`, the editor function). So are their failures.
- The spawn of `git config --get core.editor` inside `get_editor` is not an event in the log; its output is an input.
- `String::from_utf8_lossy` on git's output and `Path::display` on the path are not modelled; the model starts from decoded text.
- `fs::canonicalize`, opening and cloning `/dev/tty`, and `io::stdout().is_terminal()` are inputs of `Host`; the three tty handles are one source `Tty`.
- EditSession.TempPath: `Host.tempDir` is taken as an absolute path. tempfile resolves a relative temp directory (a relative `TMPDIR`) against the current directory, and the model does not; the join itself, which adds no second "/" after a directory ending in "/", is modelled.
- The temp-file name's random part, the system temp directory and `CARGO_PKG_NAME` are inputs (`Host.random`, `Host.tempDir`, `Host.packageName`), because none of them is fixed by the source; the tempfile crate's retries on a name collision are not modelled: a taken name fails creation.
- Word splitting and quoting by `sh` are not modelled; the model stops at the one string given to `sh -c`.
- `main`: argument parsing with clap, reading standard input (skipped when it is a terminal), printing the result and the exit status 1 are not modelled; `LaunchEditor` takes the extension and the seed as parameters.
- The text of the error messages ("Editor failed with exit code: ...", "aborting due to empty message") is not modelled; the kinds of error and the exit code are.
- EditSession.Os.WriteAll: a refused write leaves the file unchanged; a partial write is not modelled, since the session then fails and deletes the file anyway.
- EditSession.Os.Remove: a failure to delete the temp file is not modelled; the guard ignores it.
- Git's own order of precedence (GIT_EDITOR, then `core.editor`, then VISUAL, then EDITOR) differs from the one both copies of `get_editor` implement; the model follows the code.

## Findings

| source | as written | input that shows it | evidently intended | confidence | as-written member | corrected member |
|---|---|---|---|---|---|---|
| src/main.rs:17-25 | `get_editor` of main.rs returns the first editor variable that is set, even when it is empty | GIT_EDITOR="" and VISUAL="nano": the editor is "" and `sh -c` is given " <path>", so the shell tries to run the temp file itself | skip empty variables, as `get_editor` of src/editor.rs:30-52 does and its unit test at src/editor.rs:155-167 expects, giving "nano" | medium; not executed | EditSession.GetEditor, EditSession.EmptyGitEditorDiverges, EditSession.EmptyGitEditorLaunch | Editor.GetEditor, with Editor.EmptyIsUnset, Editor.ActualEditorNonEmpty and EditSession.LaunchAgreesWithEditorResolver |
