/** ai_config_wizard.py: the checks on what the user types for each speech
    engine, and the rewrite of the `AI_SPEECH_CONFIG` block of the config
    file. Console input, the Baidu token request, the Whisper install and
    model download are parameters; the file system is the file's content
    (None when it is missing) and the list of writes made. */
module AiConfigWizard {
  import opened Strings

  /** The dict a configure step returns. */
  datatype AiConfig =
    | BaiduConfig(appId: string, apiKey: string, secretKey: string)
    | WhisperConfig(modelSize: string)
    | GoogleConfig

  /** `configure_baidu`: each field is stripped and must be non-empty, in
      the order APP ID, API Key, Secret Key; then the keys must pass the
      API test (`apiAccepts`). */
  function ConfigureBaidu(appIdInput: string, apiKeyInput: string, secretKeyInput: string, apiAccepts: bool): (r: Option<AiConfig>)
    ensures r.Some? <==> Strip(appIdInput) != "" && Strip(apiKeyInput) != "" && Strip(secretKeyInput) != "" && apiAccepts
    ensures r.Some? ==> r.value == BaiduConfig(Strip(appIdInput), Strip(apiKeyInput), Strip(secretKeyInput))
  {
    var appId := Strip(appIdInput);
    if appId == "" then None
    else
      var apiKey := Strip(apiKeyInput);
      if apiKey == "" then None
      else
        var secretKey := Strip(secretKeyInput);
        if secretKey == "" then None
        else if apiAccepts then Some(BaiduConfig(appId, apiKey, secretKey))
        else None
  }

  /** The model menu of `configure_whisper`: 1 to 5, anything else `base`. */
  function ModelSize(choice: string): (r: string)
    ensures r in ["tiny", "base", "small", "medium", "large"]
    ensures choice !in ["1", "2", "3", "4", "5"] ==> r == "base"
  {
    if choice == "1" then "tiny"
    else if choice == "2" then "base"
    else if choice == "3" then "small"
    else if choice == "4" then "medium"
    else if choice == "5" then "large"
    else "base"
  }

  /** The menu maps the five choices to five different sizes. */
  lemma ModelSizesDistinct(a: string, b: string)
    requires a in ["1", "2", "3", "4", "5"] && b in ["1", "2", "3", "4", "5"] && a != b
    ensures ModelSize(a) != ModelSize(b)
  {
  }

  /** `configure_whisper`: when Whisper is not installed the user must answer
      `y` and the install must work; the stripped menu choice picks the size
      and the model must load. */
  function ConfigureWhisper(installed: bool, installAnswer: string, installWorks: bool, choice: string, loadWorks: bool): (r: Option<AiConfig>)
    ensures r.Some? <==> (installed || (Lower(Strip(installAnswer)) == "y" && installWorks)) && loadWorks
    ensures r.Some? ==> r.value == WhisperConfig(ModelSize(Strip(choice)))
  {
    if !installed && (Lower(Strip(installAnswer)) != "y" || !installWorks) then None
    else if loadWorks then Some(WhisperConfig(ModelSize(Strip(choice))))
    else None
  }

  /** `configure_google`. */
  function ConfigureGoogle(): (r: AiConfig)
    ensures r.GoogleConfig?
  {
    GoogleConfig
  }

  const StartMarker: string := "AI_SPEECH_CONFIG = {"
  const NewPrefix: string := "AI_SPEECH_CONFIG = "

  /** Opening minus closing braces in the text. */
  function Balance(s: string): int {
    if s == [] then 0
    else Balance(s[..|s| - 1]) + (if s[|s| - 1] == '{' then 1 else if s[|s| - 1] == '}' then -1 else 0)
  }

  /** Position j holds the `}` that closes the block opened at `start`: a
      `{` came before it and the braces from `start` through j balance. */
  predicate Closes(content: string, start: nat, j: nat) {
    start <= j < |content| && content[j] == '}' && '{' in content[start..j] && Balance(content[start..j + 1]) == 0
  }

  /** Reading one more character updates the balance and the seen-`{` flag. */
  lemma ScanStep(content: string, start: nat, i: nat)
    requires start <= i < |content|
    ensures Balance(content[start..i + 1]) ==
      Balance(content[start..i]) + (if content[i] == '{' then 1 else if content[i] == '}' then -1 else 0)
    ensures '{' in content[start..i + 1] <==> '{' in content[start..i] || content[i] == '{'
  {
    assert content[start..i + 1][..i - start] == content[start..i];
    assert content[start..i + 1] == content[start..i] + [content[i]];
  }

  /** One past the first position from j on that closes the block, or
      `start` when none does. */
  function FirstCloseFrom(content: string, start: nat, j: nat): (r: nat)
    requires start <= j <= |content|
    ensures r == start || j < r <= |content|
    decreases |content| - j
  {
    if j == |content| then start
    else if Closes(content, start, j) then j + 1
    else FirstCloseFrom(content, start, j + 1)
  }

  /** Where the scan from `start` stops. */
  function BlockEndOf(content: string, start: nat): (r: nat)
    requires start <= |content|
    ensures start <= r <= |content|
  {
    FirstCloseFrom(content, start, start)
  }

  /** `endPos` is where the scan from `start` stops: one past the first
      balancing `}`, or `start` when the block never closes. */
  predicate IsBlockEnd(content: string, start: int, endPos: int) {
    0 <= start <= endPos <= |content| &&
    (endPos == start ==> forall j :: start <= j < |content| ==> !Closes(content, start, j)) &&
    (endPos != start ==> Closes(content, start, endPos - 1) && forall j :: start <= j < endPos - 1 ==> !Closes(content, start, j))
  }

  lemma {:induction false} FirstCloseFromIsBlockEnd(content: string, start: nat, j: nat)
    requires start <= j <= |content|
    requires forall k :: start <= k < j ==> !Closes(content, start, k)
    ensures IsBlockEnd(content, start, FirstCloseFrom(content, start, j))
    decreases |content| - j
  {
    if j < |content| && !Closes(content, start, j) {
      FirstCloseFromIsBlockEnd(content, start, j + 1);
    }
  }

  /** The scan stops one past the first `}` that balances the block, and
      stays at `start` when no `}` does. */
  lemma BlockEndOfIsBlockEnd(content: string, start: nat)
    requires start <= |content|
    ensures IsBlockEnd(content, start, BlockEndOf(content, start))
  {
    FirstCloseFromIsBlockEnd(content, start, start);
  }

  /** The scan of `update_config_file`, from the marker at `start`. */
  method BlockEnd(content: string, start: nat) returns (endPos: nat)
    requires start <= |content|
    ensures endPos == BlockEndOf(content, start)
  {
    var braceCount := 0;
    var inConfig := false;
    var i := start;
    while i < |content|
      invariant start <= i <= |content|
      invariant braceCount == Balance(content[start..i])
      invariant inConfig <==> '{' in content[start..i]
      invariant FirstCloseFrom(content, start, i) == BlockEndOf(content, start)
    {
      var c := content[i];
      ScanStep(content, start, i);
      if c == '{' {
        braceCount := braceCount + 1;
        inConfig := true;
      } else if c == '}' {
        braceCount := braceCount - 1;
        if inConfig && braceCount == 0 {
          return i + 1;
        }
      }
      i := i + 1;
    }
    return start;
  }

  /** What the rewrite writes, in order. */
  datatype Target = BackupFile | ConfigFile
  datatype Write = Write(target: Target, text: string)

  /** The new content: the text before the marker, the new config, and the
      text after the block. */
  function Spliced(content: string, start: nat, configText: string): string
    requires start <= |content|
  {
    content[..start] + NewPrefix + configText + content[BlockEndOf(content, start)..]
  }

  /** `update_config_file`: `file` is the content of src/config.py (None when
      it does not exist) and `configText` the JSON text of the new config.
      Without the file or the marker nothing is written and the result is
      false; otherwise the original is written to the backup first, then the
      config with the block from the marker to its closing brace replaced. */
  method UpdateConfigFile(file: Option<string>, configText: string) returns (ok: bool, writes: seq<Write>)
    ensures file.None? ==> !ok && writes == []
    ensures file.Some? && !Contains(file.value, StartMarker) ==> !ok && writes == []
    ensures file.Some? && Contains(file.value, StartMarker) ==>
      ok && writes == [Write(BackupFile, file.value),
                       Write(ConfigFile, Spliced(file.value, Find(file.value, StartMarker), configText))]
  {
    if file.None? {
      return false, [];
    }
    var content := file.value;
    var startPos := Find(content, StartMarker);
    if startPos == -1 {
      return false, [];
    }
    var endPos := BlockEnd(content, startPos);
    var newConfig := NewPrefix + configText;
    var newContent := content[..startPos] + newConfig + content[endPos..];
    assert newContent == Spliced(content, startPos, configText);
    writes := [Write(BackupFile, content), Write(ConfigFile, newContent)];
    ok := true;
  }

  /** Text before the marker and after the block is kept, and the new
      config sits between them. */
  lemma SplicePreserves(content: string, start: nat, configText: string)
    requires start <= |content|
    ensures var r := Spliced(content, start, configText);
      var e := BlockEndOf(content, start);
      |r| == start + |NewPrefix| + |configText| + (|content| - e) &&
      r[..start] == content[..start] &&
      r[start..start + |NewPrefix| + |configText|] == NewPrefix + configText &&
      r[start + |NewPrefix| + |configText|..] == content[e..]
  {
    BlockEndOfIsBlockEnd(content, start);
  }

  /** With no closing brace the old block stays after the new config. */
  lemma UnclosedBlockKept(content: string, start: nat, configText: string)
    requires start <= |content|
    requires forall j :: start <= j < |content| ==> !Closes(content, start, j)
    ensures Spliced(content, start, configText) == content[..start] + NewPrefix + configText + content[start..]
  {
    BlockEndOfIsBlockEnd(content, start);
  }

  /** The scan's stopping point is unique, so the rewrite is determined. */
  lemma BlockEndUnique(content: string, start: int, e1: int, e2: int)
    requires IsBlockEnd(content, start, e1) && IsBlockEnd(content, start, e2)
    ensures e1 == e2
  {
  }

  /** The block that is cut out is balanced: as many `{` as `}`. */
  lemma CutBlockBalanced(content: string, start: int, endPos: int)
    requires IsBlockEnd(content, start, endPos)
    ensures Balance(content[start..endPos]) == 0
  {
  }
}
