/**
 * Editor resolution of src/editor.rs: which editor command to run, with the
 * precedence GIT_EDITOR, VISUAL, EDITOR, git's `core.editor`, then "vi".
 * The environment and the git configuration are inputs, not ambient state.
 */
module Editor {
  import opened Wrappers
  import Text

  /**
   * The three environment variables `get_editor` reads. `None` is a variable
   * that `env::var` reports as absent (unset, or not valid Unicode).
   */
  datatype Env = Env(gitEditor: Option<string>, visual: Option<string>, editor: Option<string>)

  /** What running `git config --get core.editor` produced, its stdout already decoded. */
  datatype GitOutput = SpawnFailed | Finished(success: bool, stdout: string)

  /**
   * The `GitConfigEditor` capability: the production adapter, which reads the
   * output of git, and the test double of editor.rs, which returns a fixed value.
   */
  datatype GitConfig = ActualGitConfig(output: GitOutput) | MockGitConfig(expected: Option<string>) {

    /** `GitConfigEditor::get`. */
    function Get(): Option<string> {
      match this
      case MockGitConfig(e) => e
      case ActualGitConfig(SpawnFailed) => None
      case ActualGitConfig(Finished(ok, stdout)) =>
        if !ok then None
        else
          var s := Text.Trim(stdout);
          if s == "" then None else Some(s)
    }
  }

  /**
   * The production adapter answers nothing when git could not be spawned or
   * did not succeed, and otherwise the trimmed output unless it is blank; so
   * it never answers `Some("")`. The test double answers its fixed value.
   */
  lemma GetSpec(config: GitConfig)
    ensures config.ActualGitConfig? ==>
      var out := config.output;
      && (config.Get().Some? <==> out.Finished? && out.success && !Text.AllWhitespace(out.stdout))
      && (config.Get().Some? ==> config.Get().value == Text.Trim(out.stdout))
      && config.Get() != Some("")
    ensures config.MockGitConfig? ==> config.Get() == config.expected
  {
    if config.ActualGitConfig? && config.output.Finished? {
      Text.TrimEmptyIff(config.output.stdout);
    }
  }

  /** A variable that is set to something other than the empty string. */
  predicate NonEmpty(v: Option<string>) {
    v.Some? && v.value != ""
  }

  /**
   * `get_editor`: the first environment variable that is set and non-empty,
   * else what the configuration answers, else "vi".
   */
  function GetEditor(env: Env, config: GitConfig): string {
    if NonEmpty(env.gitEditor) then env.gitEditor.value
    else if NonEmpty(env.visual) then env.visual.value
    else if NonEmpty(env.editor) then env.editor.value
    else
      match config.Get()
      case Some(e) => e
      case None => "vi"
  }

  // ---- An independent statement of the precedence rule ----

  /** The first candidate that is set and non-empty, if any. */
  function FirstNonEmpty(candidates: seq<Option<string>>): (r: Option<string>)
    ensures r.None? <==> forall i :: 0 <= i < |candidates| ==> !NonEmpty(candidates[i])
    ensures r.Some? ==>
      exists i :: (0 <= i < |candidates| && candidates[i] == r && r.value != ""
                   && forall j :: 0 <= j < i ==> !NonEmpty(candidates[j]))
  {
    if candidates == [] then None
    else if NonEmpty(candidates[0]) then candidates[0]
    else
      var r := FirstNonEmpty(candidates[1..]);
      assert forall i :: 1 <= i < |candidates| ==> candidates[i] == candidates[1..][i - 1];
      r
  }

  /** The environment sources, in the order `get_editor` consults them. */
  function Sources(env: Env): seq<Option<string>> {
    [env.gitEditor, env.visual, env.editor]
  }

  /** `get_editor` coincides with the list formulation of the precedence rule. */
  lemma GetEditorFollowsPrecedence(env: Env, config: GitConfig)
    ensures GetEditor(env, config) ==
      match FirstNonEmpty(Sources(env))
      case Some(e) => e
      case None => config.Get().GetOr("vi")
  {
    var s := Sources(env);
    assert s[1..] == [env.visual, env.editor];
    assert s[1..][1..] == [env.editor];
    assert s[1..][1..][1..] == [];
    assert FirstNonEmpty([env.editor]) == if NonEmpty(env.editor) then env.editor else None;
    assert FirstNonEmpty([env.visual, env.editor]) ==
      if NonEmpty(env.visual) then env.visual else FirstNonEmpty([env.editor]);
  }

  // ---- The precedence rule, source by source ----

  /** A non-empty GIT_EDITOR wins whatever the other sources hold. */
  lemma GitEditorWins(env: Env, config: GitConfig)
    requires NonEmpty(env.gitEditor)
    ensures GetEditor(env, config) == env.gitEditor.value
  {
  }

  /** With GIT_EDITOR unset or empty, a non-empty VISUAL wins. */
  lemma VisualWins(env: Env, config: GitConfig)
    requires !NonEmpty(env.gitEditor) && NonEmpty(env.visual)
    ensures GetEditor(env, config) == env.visual.value
  {
  }

  /** With GIT_EDITOR and VISUAL unset or empty, a non-empty EDITOR wins. */
  lemma EditorVarWins(env: Env, config: GitConfig)
    requires !NonEmpty(env.gitEditor) && !NonEmpty(env.visual) && NonEmpty(env.editor)
    ensures GetEditor(env, config) == env.editor.value
  {
  }

  /** With no usable environment variable, the configuration decides, and "vi" is the default. */
  lemma ConfigThenVi(env: Env, config: GitConfig)
    requires !NonEmpty(env.gitEditor) && !NonEmpty(env.visual) && !NonEmpty(env.editor)
    ensures config.Get().Some? ==> GetEditor(env, config) == config.Get().value
    ensures config.Get().None? ==> GetEditor(env, config) == "vi"
  {
  }

  /** Each variable set to the empty string behaves exactly as if it were unset. */
  lemma EmptyIsUnset(env: Env, config: GitConfig)
    ensures GetEditor(env.(gitEditor := Some("")), config) == GetEditor(env.(gitEditor := None), config)
    ensures GetEditor(env.(visual := Some("")), config) == GetEditor(env.(visual := None), config)
    ensures GetEditor(env.(editor := Some("")), config) == GetEditor(env.(editor := None), config)
  {
  }

  /** The resolved editor is empty only when the configuration answers `Some("")`. */
  lemma GetEditorNonEmpty(env: Env, config: GitConfig)
    requires config.Get() != Some("")
    ensures GetEditor(env, config) != ""
  {
  }

  /** With the production adapter the resolved editor is never the empty string. */
  lemma ActualEditorNonEmpty(env: Env, output: GitOutput)
    ensures GetEditor(env, ActualGitConfig(output)) != ""
  {
    GetSpec(ActualGitConfig(output));
    GetEditorNonEmpty(env, ActualGitConfig(output));
  }

  /** The expected values of the unit tests of editor.rs. */
  lemma EditorTests()
    ensures GetEditor(Env(Some("emacs"), Some("nano"), Some("vim")), MockGitConfig(Some("test-editor"))) == "emacs"
    ensures GetEditor(Env(None, Some("nano"), Some("vim")), MockGitConfig(Some("test-editor"))) == "nano"
    ensures GetEditor(Env(None, None, Some("vim")), MockGitConfig(Some("test-editor"))) == "vim"
    ensures GetEditor(Env(None, None, None), MockGitConfig(Some("test-editor"))) == "test-editor"
    ensures GetEditor(Env(None, None, None), MockGitConfig(None)) == "vi"
    ensures GetEditor(Env(Some(""), Some("nano"), None), MockGitConfig(None)) == "nano"
  {
  }
}
