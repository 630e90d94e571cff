/**
 * The main window's logic: the settings read from `config.ini` at start-up, the
 * prompt assembled from the configured prompt and dictionary file, the clean-up of
 * dropped paths, the status bar with its run-button rule, saving the settings, and
 * the checks the run button makes before it hands the file to a controller.
 */
module TranscriptionApp {
  import opened Wrappers
  import opened Strings
  import opened Paths
  import opened ConfigParser
  import opened Constants
  import Decimal
  import TranscriptionController

  const ReadyMessage := "😀 準備完了"
  const TokenMissingAtStartMessage := "😗 APIトークンが未設定です"
  const TokenLoadedMessage := "😀 APIトークンを読み込みました"
  const FfmpegMissingMessage := "😮 ffmpegをインストールしてください"
  const NoFileMessage := "😮 ファイルが未選択です"
  const TokenNotSetMessage := "😮\U{200d}💨 APIトークンが未設定です"
  const TokenRejectedMessage := "😮\U{200d}💨 APIトークンが無効です"
  const UnauthorizedMessage := "😫 APIトークンが無効です"

  function FileSelectedMessage(filebody: string): string {
    "😀 ファイルを選択しました: " + filebody
  }

  function StartMessage(filebody: string): string {
    "😆 開始します: " + filebody
  }

  /** `str(b)` for a Python `bool`. */
  function PyBool(b: bool): string {
    if b then "True" else "False"
  }

  // ---------------------------------------------------------------------------
  // Dropped paths

  /** What `replace_irregular_char` makes of one character. */
  function FixChar(c: char): string {
    if c == '\\' then "/" else if c == '{' || c == '}' then "" else [c]
  }

  /**
   * `replace_irregular_char(text)`: every backslash becomes `/`, then every `{`
   * and every `}` is removed.
   */
  function ReplaceIrregularChar(text: string): (r: string)
    ensures |r| <= |text|
  {
    RemoveChar(RemoveChar(ReplaceChar(text, '\\', '/'), '{'), '}')
  }

  lemma ReplaceIrregularCharAppend(x: string, y: string)
    ensures ReplaceIrregularChar(x + y) == ReplaceIrregularChar(x) + ReplaceIrregularChar(y)
  {
    ReplaceCharAppend(x, y, '\\', '/');
    RemoveCharAppend(ReplaceChar(x, '\\', '/'), ReplaceChar(y, '\\', '/'), '{');
    RemoveCharAppend(RemoveChar(ReplaceChar(x, '\\', '/'), '{'), RemoveChar(ReplaceChar(y, '\\', '/'), '{'), '}');
  }

  lemma ReplaceIrregularCharOne(c: char)
    ensures ReplaceIrregularChar([c]) == FixChar(c)
  {
    var d := if c == '\\' then '/' else c;
    ReplaceCharOne(c, '\\', '/');
    RemoveCharOne(d, '{');
    if d != '{' {
      RemoveCharOne(d, '}');
    }
  }

  /**
   * The text is rewritten character by character, in order: a backslash gives `/`,
   * a brace gives nothing, any other character stays as it is.
   */
  lemma {:induction false} ReplaceIrregularCharPerChar(text: string)
    ensures ReplaceIrregularChar(text) == ConcatMap(text, FixChar)
  {
    if text != [] {
      var init := text[..|text| - 1];
      ReplaceIrregularCharPerChar(init);
      assert text == init + [text[|text| - 1]];
      ReplaceIrregularCharAppend(init, [text[|text| - 1]]);
      ReplaceIrregularCharOne(text[|text| - 1]);
    }
  }

  /** No backslash and no brace is left. */
  lemma ReplaceIrregularCharClean(text: string)
    ensures var r := ReplaceIrregularChar(text);
      '\\' !in r && '{' !in r && '}' !in r
  {
    var slashed := ReplaceChar(text, '\\', '/');
    ReplaceCharAt(text, '\\', '/');
    assert '\\' !in slashed;
    RemoveCharMembers(slashed, '{');
    RemoveCharMembers(RemoveChar(slashed, '{'), '}');
  }

  /** Cleaning a cleaned path changes nothing. */
  lemma ReplaceIrregularCharIdempotent(text: string)
    ensures ReplaceIrregularChar(ReplaceIrregularChar(text)) == ReplaceIrregularChar(text)
  {
    var r := ReplaceIrregularChar(text);
    ReplaceIrregularCharClean(text);
    ReplaceCharAbsent(r, '\\', '/');
    RemoveCharAbsent(r, '{');
    RemoveCharAbsent(r, '}');
  }

  // ---------------------------------------------------------------------------
  // The prompt

  /** `s.replace("\\n", "\n")`: each two-character `\n`, scanned left to right, becomes a line break. */
  function UnescapeNewlines(s: string): (r: string)
    ensures |r| <= |s|
  {
    if |s| < 2 then s
    else if s[0] == '\\' && s[1] == 'n' then "\n" + UnescapeNewlines(s[2..])
    else [s[0]] + UnescapeNewlines(s[1..])
  }

  /** No backslash is directly followed by `n`. */
  predicate NoEscapedNewline(s: string) {
    forall i :: 0 <= i < |s| - 1 ==> !(s[i] == '\\' && s[i + 1] == 'n')
  }

  lemma UnescapeNewlinesHead(s: string)
    requires |s| >= 2
    ensures var r := UnescapeNewlines(s);
      r != [] && r[0] == (if s[0] == '\\' && s[1] == 'n' then '\n' else s[0])
  {
  }

  /** After the replacement no escaped line break is left. */
  lemma {:induction false} UnescapeNewlinesLeavesNone(s: string)
    ensures NoEscapedNewline(UnescapeNewlines(s))
    decreases |s|
  {
    if |s| >= 2 {
      if s[0] == '\\' && s[1] == 'n' {
        UnescapeNewlinesLeavesNone(s[2..]);
        var rest := UnescapeNewlines(s[2..]);
        assert forall i :: 1 <= i < |rest| + 1 ==> ("\n" + rest)[i] == rest[i - 1];
      } else {
        UnescapeNewlinesLeavesNone(s[1..]);
        var rest := UnescapeNewlines(s[1..]);
        if |s| >= 3 {
          UnescapeNewlinesHead(s[1..]);
        }
        assert forall i :: 1 <= i < |rest| + 1 ==> ([s[0]] + rest)[i] == rest[i - 1];
      }
    }
  }

  /** A text without an escaped line break is left as it is. */
  lemma {:induction false} UnescapeNewlinesIdentity(s: string)
    requires NoEscapedNewline(s)
    ensures UnescapeNewlines(s) == s
    decreases |s|
  {
    if |s| >= 2 {
      assert !(s[0] == '\\' && s[1] == 'n');
      assert NoEscapedNewline(s[1..]) by {
        forall i | 0 <= i < |s[1..]| - 1
          ensures !(s[1..][i] == '\\' && s[1..][i + 1] == 'n')
        {
          assert s[1..][i] == s[i + 1] && s[1..][i + 1] == s[i + 2];
        }
      }
      UnescapeNewlinesIdentity(s[1..]);
      assert s == [s[0]] + s[1..];
    }
  }

  /** Replacing twice is replacing once. */
  lemma UnescapeNewlinesIdempotent(s: string)
    ensures UnescapeNewlines(UnescapeNewlines(s)) == UnescapeNewlines(s)
  {
    UnescapeNewlinesLeavesNone(s);
    UnescapeNewlinesIdentity(UnescapeNewlines(s));
  }

  /** The prompt part of `load_dictionary`: `""` when none is configured, else the stored text unescaped. */
  function ConfiguredPrompt(c: Config): string {
    match Lookup(c, DefaultSection, "prompt")
    case None => ""
    case Some(p) => UnescapeNewlines(p)
  }

  /**
   * `load_dictionary()`: the prompt, followed by the dictionary file's text with each
   * line break turned into a space when a dictionary is configured. `readFile` is what
   * `open(name).readlines()` joined back together gives (Python's text mode has already
   * turned `\r\n` into `\n`), or `None` when opening the file raises.
   */
  function LoadDictionary(c: Config, readFile: string -> Option<string>): (r: Option<string>)
  {
    var prompt := ConfiguredPrompt(c);
    var filename := Get(c, DefaultSection, "dictionary", "");
    if filename == "" then Some(prompt)
    else
      match readFile(filename)
      case None => None
      case Some(content) => Some(prompt + ReplaceChar(content, '\n', ' '))
  }

  /** Without a dictionary entry the prompt alone is returned; with no prompt either, `""`. */
  lemma LoadDictionaryWithoutFile(c: Config, readFile: string -> Option<string>)
    requires Lookup(c, DefaultSection, "dictionary") in {None, Some("")}
    ensures LoadDictionary(c, readFile) == Some(ConfiguredPrompt(c))
    ensures Lookup(c, DefaultSection, "prompt") == None ==> LoadDictionary(c, readFile) == Some("")
  {
  }

  /**
   * With a dictionary file, its text follows the prompt on one line: the appended part
   * is as long as the file's text, has no line break, and differs from it only where
   * the file had one.
   */
  lemma LoadDictionaryWithFile(c: Config, readFile: string -> Option<string>)
    requires Get(c, DefaultSection, "dictionary", "") != ""
    ensures var r := LoadDictionary(c, readFile);
      var file := readFile(Get(c, DefaultSection, "dictionary", ""));
      && (file == None ==> r == None)
      && (file.Some? ==>
          && r.Some?
          && StartsWith(r.value, ConfiguredPrompt(c))
          && var d := r.value[|ConfiguredPrompt(c)|..];
          && |d| == |file.value|
          && '\n' !in d
          && forall i :: 0 <= i < |d| ==> d[i] == (if file.value[i] == '\n' then ' ' else file.value[i]))
  {
    var file := readFile(Get(c, DefaultSection, "dictionary", ""));
    if file.Some? {
      var prompt := ConfiguredPrompt(c);
      var d := ReplaceChar(file.value, '\n', ' ');
      ReplaceCharAt(file.value, '\n', ' ');
      assert (prompt + d)[..|prompt|] == prompt;
      assert (prompt + d)[|prompt|..] == d;
    }
  }

  // ---------------------------------------------------------------------------
  // Settings

  /** The three switches read from `[DEFAULT]` at start-up. */
  datatype Flags = Flags(timestampFlag: bool, flagSilenceRemoval: bool, keepSilenceRemoved: bool)

  /**
   * Each switch is on only for the exact text `"True"`; a missing `flag_silence_removal`
   * counts as on, the other two as off.
   */
  function LoadFlags(c: Config): (f: Flags)
    ensures f.timestampFlag <==> Lookup(c, DefaultSection, "timestamp_flag") == Some("True")
    ensures f.flagSilenceRemoval <==> Lookup(c, DefaultSection, "flag_silence_removal") in {None, Some("True")}
    ensures f.keepSilenceRemoved <==> Lookup(c, DefaultSection, "keep_silence_removed") == Some("True")
  {
    Flags(
      Get(c, DefaultSection, "timestamp_flag", "False") == "True",
      Get(c, DefaultSection, "flag_silence_removal", "True") == "True",
      Get(c, DefaultSection, "keep_silence_removed", "False") == "True")
  }

  /** The window's position and size as `winfo_x`, `winfo_y`, `winfo_width` and `winfo_height` report them. */
  datatype Geometry = Geometry(x: int, y: int, width: int, height: int)

  /** The configuration `save_settings` writes, the option names as the source spells them. */
  function SavedConfig(c: Config, token: string, g: Geometry, timestamp: bool, silence: bool, keep: bool): Config {
    var c1 := SetDefault(c, "API_TOKEN", token);
    var c2 := SetDefault(c1, "x", Decimal.IntToDecimal(g.x));
    var c3 := SetDefault(c2, "y", Decimal.IntToDecimal(g.y));
    var c4 := SetDefault(c3, "width", Decimal.IntToDecimal(g.width));
    var c5 := SetDefault(c4, "height", Decimal.IntToDecimal(g.height));
    var c6 := SetDefault(c5, "timestamp_flag", PyBool(timestamp));
    var c7 := SetDefault(c6, "flag_silence_removal", PyBool(silence));
    SetDefault(c7, "keep_silenced", PyBool(keep))
  }

  lemma ApiTokenKey()
    ensures OptionXform("API_TOKEN") == "api_token" && OptionXform("api_token") == "api_token"
  {
  }

  /**
   * What the next start reads back from a saved configuration: the token (stored as
   * `API_TOKEN`, found as `api_token`), both check boxes, and the `keep_silenced`
   * switch; `keep_silence_removed`, which the start-up reads, is not among the options
   * written, so saving leaves it as it was.
   */
  lemma SavedConfigReadBack(c: Config, token: string, g: Geometry, timestamp: bool, silence: bool, keep: bool)
    ensures var r := SavedConfig(c, token, g, timestamp, silence, keep);
      && Get(r, DefaultSection, "api_token", "") == token
      && LoadFlags(r).timestampFlag == timestamp
      && LoadFlags(r).flagSilenceRemoval == silence
      && Lookup(r, DefaultSection, "keep_silenced") == Some(PyBool(keep))
      && LoadFlags(r).keepSilenceRemoved == LoadFlags(c).keepSilenceRemoved
  {
    ApiTokenKey();
    var c1 := SetDefault(c, "API_TOKEN", token);
    var c2 := SetDefault(c1, "x", Decimal.IntToDecimal(g.x));
    var c3 := SetDefault(c2, "y", Decimal.IntToDecimal(g.y));
    var c4 := SetDefault(c3, "width", Decimal.IntToDecimal(g.width));
    var c5 := SetDefault(c4, "height", Decimal.IntToDecimal(g.height));
    var c6 := SetDefault(c5, "timestamp_flag", PyBool(timestamp));
    var c7 := SetDefault(c6, "flag_silence_removal", PyBool(silence));
    var r := SetDefault(c7, "keep_silenced", PyBool(keep));
    SetDefaultOther(c1, "x", Decimal.IntToDecimal(g.x), "api_token");
    SetDefaultOther(c2, "y", Decimal.IntToDecimal(g.y), "api_token");
    SetDefaultOther(c3, "width", Decimal.IntToDecimal(g.width), "api_token");
    SetDefaultOther(c4, "height", Decimal.IntToDecimal(g.height), "api_token");
    SetDefaultOther(c5, "timestamp_flag", PyBool(timestamp), "api_token");
    SetDefaultOther(c6, "flag_silence_removal", PyBool(silence), "api_token");
    SetDefaultOther(c7, "keep_silenced", PyBool(keep), "api_token");
    SetDefaultOther(c6, "flag_silence_removal", PyBool(silence), "timestamp_flag");
    SetDefaultOther(c7, "keep_silenced", PyBool(keep), "timestamp_flag");
    SetDefaultOther(c7, "keep_silenced", PyBool(keep), "flag_silence_removal");
    KeepSilenceRemovedUntouched(c, token, g, timestamp, silence, keep);
  }

  /** None of the names `save_settings` writes is `keep_silence_removed`. */
  lemma KeepSilenceRemovedUntouched(c: Config, token: string, g: Geometry, timestamp: bool, silence: bool, keep: bool)
    ensures Lookup(SavedConfig(c, token, g, timestamp, silence, keep), DefaultSection, "keep_silence_removed")
         == Lookup(c, DefaultSection, "keep_silence_removed")
  {
    var key := "keep_silence_removed";
    var c1 := SetDefault(c, "API_TOKEN", token);
    var c2 := SetDefault(c1, "x", Decimal.IntToDecimal(g.x));
    var c3 := SetDefault(c2, "y", Decimal.IntToDecimal(g.y));
    var c4 := SetDefault(c3, "width", Decimal.IntToDecimal(g.width));
    var c5 := SetDefault(c4, "height", Decimal.IntToDecimal(g.height));
    var c6 := SetDefault(c5, "timestamp_flag", PyBool(timestamp));
    var c7 := SetDefault(c6, "flag_silence_removal", PyBool(silence));
    SetDefaultOther(c, "API_TOKEN", token, key);
    SetDefaultOther(c1, "x", Decimal.IntToDecimal(g.x), key);
    SetDefaultOther(c2, "y", Decimal.IntToDecimal(g.y), key);
    SetDefaultOther(c3, "width", Decimal.IntToDecimal(g.width), key);
    SetDefaultOther(c4, "height", Decimal.IntToDecimal(g.height), key);
    SetDefaultOther(c5, "timestamp_flag", PyBool(timestamp), key);
    assert OptionXform("flag_silence_removal")[0] != OptionXform(key)[0];
    SetDefaultOther(c6, "flag_silence_removal", PyBool(silence), key);
    SetDefaultOther(c7, "keep_silenced", PyBool(keep), key);
  }

  // ---------------------------------------------------------------------------
  // The window

  /** `set_status`'s rule for the run button: `RELEASE` enables it, `DISABLE` disables it, `NONE` leaves it. */
  function ButtonAfter(enabled: bool, state: ButtonState): (r: bool)
    ensures state == Release ==> r
    ensures state == Disable ==> !r
    ensures state == NoChange ==> r == enabled
  {
    match state
    case Release => true
    case Disable => false
    case NoChange => enabled
  }

  /** The text `file_path_display.get("1.0", END).strip()` gives: Tk adds a line break, `strip` removes it again. */
  function DisplayedPath(display: string): string {
    Decimal.Strip(display + "\n")
  }

  /** The message of the first check of `run_transcribe` that fails, in the order they are made. */
  function FailedCheck(ffmpegInstalled: bool, display: string, tokenEntry: string): (r: Option<string>)
    ensures !ffmpegInstalled ==> r == Some(FfmpegMissingMessage)
    ensures ffmpegInstalled && DisplayedPath(display) == "" ==> r == Some(NoFileMessage)
    ensures ffmpegInstalled && DisplayedPath(display) != "" && tokenEntry == "" ==> r == Some(TokenNotSetMessage)
    ensures r == None <==> ffmpegInstalled && DisplayedPath(display) != "" && tokenEntry != ""
  {
    if !ffmpegInstalled then Some(FfmpegMissingMessage)
    else if DisplayedPath(display) == "" then Some(NoFileMessage)
    else if tokenEntry == "" then Some(TokenNotSetMessage)
    else None
  }

  /** The file patterns the file dialog offers: `.mp4` only once `ffmpeg` was found. */
  function FileTypes(ffmpegInstalled: bool): (r: seq<string>)
    ensures ffmpegInstalled <==> "*.mp4" in r
    ensures |r| >= 4 && r[..4] == ["*.mp3", "*.wav", "*.m4a", "*.flac"]
  {
    var base := ["*.mp3", "*.wav", "*.m4a", "*.flac"];
    if ffmpegInstalled then base + ["*.mp4"] else base
  }

  /** `error_process`: a rejected token (HTTP 401) is named as such; any other error shows its message. */
  function ErrorStatus(statusCode: int, message: string): (r: string)
    ensures statusCode == 401 ==> r == UnauthorizedMessage
    ensures statusCode != 401 ==> r == TranscriptionController.ErrorMessage(message)
  {
    if statusCode == 401 then UnauthorizedMessage else TranscriptionController.ErrorMessage(message)
  }

  /** The widgets whose contents the code reads and writes. */
  datatype Widgets = Widgets(
    tokenEntry: string,       // the API token entry
    display: string,          // the file path text area
    timestampVar: bool,       // the time-stamp check box
    silenceRemovalVar: bool,  // the silence-removal check box
    buttonEnabled: bool)      // whether the run button can be pressed

  class TranscriptionApp {
    /** The parsed `config.ini`, updated in place by `save_settings`. */
    var config: Config
    /** Every configuration written back to `config.ini`, in order. */
    var written: seq<Config>
    const savedTimestampFlag: bool
    const keepSilenceRemoved: bool
    const prompt: string
    /** What `check_ffmpeg_exists` found. */
    const ffmpegInstalled: bool
    var flagSilenceRemoval: bool
    var apiToken: string
    var widgets: Widgets
    /** Every message the status bar showed, the current one last. */
    var messages: seq<string>

    /**
     * `__init__`: the switches and the token come from `[DEFAULT]`, the check boxes
     * and the token entry start from them, and the status bar says whether a token
     * was found. `prompt` is what `load_dictionary` returned and `ffmpegInstalled` what
     * `check_ffmpeg_exists` found.
     */
    constructor(config: Config, prompt: string, ffmpegInstalled: bool)
      ensures this.config == config && written == []
      ensures this.prompt == prompt && this.ffmpegInstalled == ffmpegInstalled
      ensures savedTimestampFlag == LoadFlags(config).timestampFlag
      ensures flagSilenceRemoval == LoadFlags(config).flagSilenceRemoval
      ensures keepSilenceRemoved == LoadFlags(config).keepSilenceRemoved
      ensures apiToken == Get(config, DefaultSection, "api_token", "")
      ensures widgets == Widgets(apiToken, "", savedTimestampFlag, flagSilenceRemoval, true)
      ensures messages == [ReadyMessage, if apiToken == "" then TokenMissingAtStartMessage else TokenLoadedMessage]
    {
      var flags := LoadFlags(config);
      this.config := config;
      written := [];
      savedTimestampFlag := flags.timestampFlag;
      flagSilenceRemoval := flags.flagSilenceRemoval;
      keepSilenceRemoved := flags.keepSilenceRemoved;
      var token := Get(config, DefaultSection, "api_token", "");
      widgets := Widgets(token, "", flags.timestampFlag, flags.flagSilenceRemoval, true);
      messages := [ReadyMessage];
      apiToken := token;
      this.prompt := prompt;
      this.ffmpegInstalled := ffmpegInstalled;
      new;
      if apiToken == "" {
        SetStatus(TokenMissingAtStartMessage);
      } else {
        SetStatus(TokenLoadedMessage);
      }
    }

    /** `set_status`: show the message, then apply the button rule. */
    method SetStatus(message: string, buttonState: ButtonState := NoChange)
      modifies this
      ensures messages == old(messages) + [message]
      ensures widgets == old(widgets).(buttonEnabled := ButtonAfter(old(widgets.buttonEnabled), buttonState))
      ensures config == old(config) && written == old(written)
      ensures apiToken == old(apiToken) && flagSilenceRemoval == old(flagSilenceRemoval)
    {
      messages := messages + [message];
      if buttonState == Release {
        widgets := widgets.(buttonEnabled := true);
      } else if buttonState == Disable {
        widgets := widgets.(buttonEnabled := false);
      }
    }

    /** `drop`: the dropped text, cleaned, replaces the path shown, and its last component is announced. */
    method Drop(data: string)
      modifies this
      ensures widgets == old(widgets).(display := ReplaceIrregularChar(data))
      ensures messages == old(messages) + [FileSelectedMessage(Basename(ReplaceIrregularChar(data)))]
      ensures config == old(config) && written == old(written)
      ensures apiToken == old(apiToken) && flagSilenceRemoval == old(flagSilenceRemoval)
    {
      var replaced := ReplaceIrregularChar(data);
      widgets := widgets.(display := replaced);
      var filebody := Basename(replaced);
      SetStatus(FileSelectedMessage(filebody));
    }

    /** `open_file_dialog`: a chosen path replaces the one shown; cancelling (`""`) changes nothing. */
    method OpenFileDialog(chosen: string)
      modifies this
      ensures widgets == if chosen != "" then old(widgets).(display := chosen) else old(widgets)
      ensures messages == old(messages) && config == old(config) && written == old(written)
      ensures apiToken == old(apiToken) && flagSilenceRemoval == old(flagSilenceRemoval)
    {
      if chosen != "" {
        widgets := widgets.(display := chosen);
      }
    }

    /** `load_from_widgets`: the token and the silence-removal switch are taken from the window. */
    method LoadFromWidgets()
      modifies this
      ensures apiToken == old(widgets.tokenEntry) && flagSilenceRemoval == old(widgets.silenceRemovalVar)
      ensures widgets == old(widgets) && messages == old(messages)
      ensures config == old(config) && written == old(written)
    {
      apiToken := widgets.tokenEntry;
      flagSilenceRemoval := widgets.silenceRemovalVar;
    }

    /**
     * `save_settings`: with an empty token entry nothing is read or written and the
     * answer is `false`; otherwise the window's values go into `[DEFAULT]` and the
     * configuration is written out.
     */
    method SaveSettings(g: Geometry) returns (saved: bool)
      modifies this
      ensures saved <==> old(widgets.tokenEntry) != ""
      ensures !saved ==>
        config == old(config) && written == old(written) && apiToken == old(apiToken) && flagSilenceRemoval == old(flagSilenceRemoval)
      ensures saved ==>
        && apiToken == old(widgets.tokenEntry)
        && flagSilenceRemoval == old(widgets.silenceRemovalVar)
        && config == SavedConfig(old(config), old(widgets.tokenEntry), g, old(widgets.timestampVar),
                                 old(widgets.silenceRemovalVar), keepSilenceRemoved)
        && written == old(written) + [config]
      ensures widgets == old(widgets) && messages == old(messages)
    {
      if widgets.tokenEntry == "" {
        return false;
      }
      LoadFromWidgets();
      var token := widgets.tokenEntry;
      config := SetDefault(config, "API_TOKEN", token);
      config := SetDefault(config, "x", Decimal.IntToDecimal(g.x));
      config := SetDefault(config, "y", Decimal.IntToDecimal(g.y));
      config := SetDefault(config, "width", Decimal.IntToDecimal(g.width));
      config := SetDefault(config, "height", Decimal.IntToDecimal(g.height));
      config := SetDefault(config, "timestamp_flag", PyBool(widgets.timestampVar));
      config := SetDefault(config, "flag_silence_removal", PyBool(flagSilenceRemoval));
      config := SetDefault(config, "keep_silenced", PyBool(keepSilenceRemoved));
      written := written + [config];
      return true;
    }

    /**
     * `make_transcription_controller`: a controller for the file with the current
     * token and time-stamp switch; `keepSilenced` is the `keep_silenced` switch it is
     * given (the source reads that option without a fallback).
     */
    method MakeTranscriptionController(filePath: string, timestamp: bool)
      returns (controller: TranscriptionController.TranscriptionController, keepSilenced: bool)
      requires Lookup(config, DefaultSection, "keep_silenced").Some?
      ensures fresh(controller)
      ensures controller.apiKey == apiToken && controller.audioFile == filePath && controller.timestampFlag == timestamp
      ensures keepSilenced <==> Lookup(config, DefaultSection, "keep_silenced") == Some("True")
    {
      controller := new TranscriptionController.TranscriptionController(apiToken, filePath, timestamp);
      keepSilenced := Lookup(config, DefaultSection, "keep_silenced").value == "True";
    }

    /**
     * `run_transcribe`: the checks come in a fixed order (ffmpeg, then a chosen file,
     * then saving the settings), the first that fails is reported and ends the call,
     * and only when all pass is a controller made. `tokenAccepted` is the answer of
     * the controller's token check; when it is yes, the start is announced with the
     * file's last path component and the run button is disabled.
     */
    method RunTranscribe(g: Geometry, tokenAccepted: bool)
      returns (controller: TranscriptionController.TranscriptionController?, started: bool)
      modifies this
      ensures var failed := FailedCheck(ffmpegInstalled, old(widgets.display), old(widgets.tokenEntry));
        && (controller == null <==> failed.Some?)
        && (started <==> failed.None? && tokenAccepted)
        && (failed.Some? ==>
            && messages == old(messages) + [failed.value]
            && widgets == old(widgets) && config == old(config) && written == old(written)
            && apiToken == old(apiToken) && flagSilenceRemoval == old(flagSilenceRemoval))
      ensures controller != null ==>
        var filePath := DisplayedPath(old(widgets.display));
        && fresh(controller)
        && controller.apiKey == old(widgets.tokenEntry) && controller.audioFile == filePath
        && controller.timestampFlag == old(widgets.timestampVar)
        && apiToken == old(widgets.tokenEntry) && flagSilenceRemoval == old(widgets.silenceRemovalVar)
        && config == SavedConfig(old(config), old(widgets.tokenEntry), g, old(widgets.timestampVar),
                                 old(widgets.silenceRemovalVar), keepSilenceRemoved)
        && written == old(written) + [config]
        && messages == old(messages) + [if tokenAccepted then StartMessage(Basename(filePath)) else TokenRejectedMessage]
        && widgets == old(widgets).(buttonEnabled := if tokenAccepted then false else old(widgets.buttonEnabled))
    {
      if !ffmpegInstalled {
        SetStatus(FfmpegMissingMessage);
        return null, false;
      }
      if DisplayedPath(widgets.display) == "" {
        SetStatus(NoFileMessage);
        return null, false;
      }
      var saved := SaveSettings(g);
      if !saved {
        SetStatus(TokenNotSetMessage);
        return null, false;
      }
      LoadFromWidgets();
      var filePath := DisplayedPath(widgets.display);
      var timestamp := widgets.timestampVar;
      var made, keepSilenced := MakeTranscriptionController(filePath, timestamp);
      controller := made;
      if !tokenAccepted {
        SetStatus(TokenRejectedMessage);
        return controller, false;
      }
      var filebody := Basename(filePath);
      SetStatus(StartMessage(filebody), Disable);
      return controller, true;
    }

    /** `on_closing`: the settings are saved (when there is a token) before the window goes. */
    method OnClosing(g: Geometry)
      modifies this
      ensures old(widgets.tokenEntry) == "" ==> config == old(config) && written == old(written)
      ensures old(widgets.tokenEntry) != "" ==>
        written == old(written) + [SavedConfig(old(config), old(widgets.tokenEntry), g, old(widgets.timestampVar),
                                               old(widgets.silenceRemovalVar), keepSilenceRemoved)]
      ensures widgets == old(widgets) && messages == old(messages)
    {
      var saved := SaveSettings(g);
    }

    /** `error_process`: the status for an error the API reported. */
    method ErrorProcess(statusCode: int, message: string)
      modifies this
      ensures messages == old(messages) + [ErrorStatus(statusCode, message)]
      ensures widgets == old(widgets) && config == old(config) && written == old(written)
      ensures apiToken == old(apiToken) && flagSilenceRemoval == old(flagSilenceRemoval)
    {
      SetStatus(ErrorStatus(statusCode, message));
    }
  }

  /**
   * Start-up as a whole: `__init__` takes the prompt from `load_dictionary`, and an
   * unreadable dictionary file raises there, so no window is made.
   */
  method Start(config: Config, readFile: string -> Option<string>, ffmpegInstalled: bool)
    returns (app: TranscriptionApp?)
    ensures app == null <==> LoadDictionary(config, readFile).None?
    ensures app != null ==>
      && fresh(app)
      && app.config == config && app.written == []
      && app.prompt == LoadDictionary(config, readFile).value
      && app.ffmpegInstalled == ffmpegInstalled
      && app.apiToken == Get(config, DefaultSection, "api_token", "")
      && app.messages == [ReadyMessage, if app.apiToken == "" then TokenMissingAtStartMessage else TokenLoadedMessage]
  {
    var prompt := LoadDictionary(config, readFile);
    if prompt.None? {
      return null;
    }
    app := new TranscriptionApp(config, prompt.value, ffmpegInstalled);
  }
}
