/**
 * The controller behind the run button: its worker silences the chosen file,
 * transcribes the result, writes the transcript next to the input as a `.txt`
 * file, and reports each step through the status callback the window installs.
 */
module TranscriptionController {
  import opened Wrappers
  import opened Strings
  import opened Paths
  import opened Constants
  import AudioSilencer
  import WhisperCaller

  const ExtractingMessage := "😇 音声抽出と静音除去を処理しています…"
  const CallingMessage := "😇 WhisperAPIを呼び出しています…"
  const SavingMessage := "😇 ファイルを保存します"

  /** What the debug stand-in for the real work returns in place of a saved path. */
  const DebugPlaceholder := "[DEBUG_MODE]"

  function ErrorMessage(error: string): string {
    "😫 エラーです: " + error
  }

  function DoneMessage(savedFile: string): string {
    "🤩 完了しました: " + savedFile
  }

  /** One call of the status callback. */
  datatype Status = Status(message: string, buttonState: ButtonState)

  /** The callback `set_status_function` stands for: it records every call, in order. */
  class StatusSink {
    var received: seq<Status>

    constructor()
      ensures received == []
    {
      received := [];
    }

    method Receive(message: string, buttonState: ButtonState)
      modifies this
      ensures received == old(received) + [Status(message, buttonState)]
    {
      received := received + [Status(message, buttonState)];
    }
  }

  /** The text files the worker writes, by path. */
  class TextFiles {
    var files: map<string, string>

    constructor()
      ensures files == map[]
    {
      files := map[];
    }

    /** `open(path, "w").write(contents)` */
    method Write(path: string, contents: string)
      modifies this
      ensures files == old(files)[path := contents]
    {
      files := files[path := contents];
    }
  }

  /** What the worker's steps find outside the program. */
  datatype World = World(
    tempDir: string,
    decoder: AudioSilencer.Decoder,
    media: WhisperCaller.Media,
    backend: WhisperCaller.Backend)

  /** The step of `silence_and_transcribe` that raised. */
  datatype Stage = Extracting | Transcribing | Saving

  /** An exception: where it was raised and its `str(e)`. */
  datatype Fault = Fault(stage: Stage, text: string)

  /**
   * The path `output` writes to: the input's directory, joined with its base name
   * stripped of the last extension, every `.` turned into `_`, plus `.txt`.
   */
  function OutputFileName(audioFile: string): string {
    Join(Dirname(audioFile), OutputStem(audioFile) + ".txt")
  }

  function OutputStem(audioFile: string): string {
    ReplaceChar(Basename(Splitext(audioFile).0), '.', '_')
  }

  /** The stem keeps the base name's length; every `.` of it is now `_`, and it has no `/`. */
  lemma OutputStemShape(audioFile: string)
    ensures '.' !in OutputStem(audioFile) && '/' !in OutputStem(audioFile)
  {
    var body := Basename(Splitext(audioFile).0);
    var stem := OutputStem(audioFile);
    BasenameIsLastComponent(Splitext(audioFile).0);
    ReplaceCharAt(body, '.', '_');
    forall i | 0 <= i < |stem|
      ensures stem[i] != '.' && stem[i] != '/'
    {
      assert body[i] in body;
    }
  }

  lemma OutputNameShape(stem: string)
    requires '/' !in stem
    ensures '/' !in stem + ".txt"
  {
    var name := stem + ".txt";
    assert forall i :: 0 <= i < |name| ==> name[i] == (if i < |stem| then stem[i] else ".txt"[i - |stem|]);
  }

  lemma EndsWithName(dir: string, name: string)
    requires EndsWith(name, ".txt")
    ensures EndsWith(dir + name, ".txt")
  {
    assert (dir + name)[|dir + name| - 4..] == name[|name| - 4..];
  }

  /**
   * The transcript lands in the input's own directory, under the name `<stem>.txt`,
   * where the stem has no dot (the only dot of the name is the one before `txt`)
   * and no slash.
   */
  lemma OutputFileNameShape(audioFile: string)
    ensures var out, stem := OutputFileName(audioFile), OutputStem(audioFile);
      && Dirname(out) == Dirname(audioFile)
      && Basename(out) == stem + ".txt"
      && '.' !in stem && '/' !in stem
      && EndsWith(out, ".txt")
  {
    var dir, stem := Dirname(audioFile), OutputStem(audioFile);
    var name := stem + ".txt";
    OutputStemShape(audioFile);
    OutputNameShape(stem);
    BasenameOfJoin(dir, name);
    DirnameShape(audioFile);
    DirnameOfJoin(dir, name);
    JoinRelative(dir, name);
    assert name[|name| - 4..] == ".txt";
    EndsWithName(DirPrefix(dir), name);
  }

  /** The file the silencer writes into the temporary directory. */
  function SilencedFile(world: World): string {
    Join(world.tempDir, "audio_silenced.mp3")
  }

  /** The transcript a successful run saves: that of the one silenced file. */
  function SavedTranscript(timestampFlag: bool, world: World): string {
    WhisperCaller.FilesText(WhisperCaller.DefaultSettings(timestampFlag), world.media, world.backend, [SilencedFile(world)])
  }

  /** The statuses `silence_and_transcribe` reports before it returns or raises. */
  function StageStatuses(fault: Option<Fault>): seq<Status> {
    if fault.Some? && fault.value.stage == Extracting then [Status(ExtractingMessage, NoChange)]
    else [Status(ExtractingMessage, NoChange), Status(CallingMessage, NoChange)]
  }

  /** What the worker body leaves to the statuses after it: the saved path, or the exception text. */
  function WorkerOutcome(debug: bool, fault: Option<Fault>, outputFile: string): Result<string, string> {
    if debug then Success(DebugPlaceholder)
    else if fault.None? then Success(outputFile)
    else Failure(fault.value.text)
  }

  /** The statuses reported once the work is over: the error, or the save and the completion. */
  function Reports(outcome: Result<string, string>): seq<Status> {
    match outcome
    case Failure(error) => [Status(ErrorMessage(error), Release)]
    case Success(saved) => [Status(SavingMessage, NoChange), Status(DoneMessage(Basename(saved)), Release)]
  }

  /** Every status one run of the worker body reports, in order. */
  function WorkerStatuses(debug: bool, fault: Option<Fault>, outputFile: string): seq<Status> {
    (if debug then [] else StageStatuses(fault)) + Reports(WorkerOutcome(debug, fault, outputFile))
  }

  /**
   * A failed run ends with exactly one report after the stage messages: the error,
   * releasing the button; nothing about saving is reported.
   */
  lemma FailureReportsOnlyTheError(fault: Fault, outputFile: string)
    ensures var ss := WorkerStatuses(false, Some(fault), outputFile);
      && ss == StageStatuses(Some(fault)) + [Status(ErrorMessage(fault.text), Release)]
      && forall i :: 0 <= i < |ss| ==> ss[i].message != SavingMessage
  {
    var ss := WorkerStatuses(false, Some(fault), outputFile);
    forall i | 0 <= i < |ss|
      ensures ss[i].message != SavingMessage
    {
      if i == |ss| - 1 {
        assert ErrorMessage(fault.text)[0] != SavingMessage[0];
      }
    }
  }

  /** A successful run ends with the save message and then the completion message with the saved file's name. */
  lemma SuccessReportsSaveThenDone(outputFile: string)
    ensures var ss := WorkerStatuses(false, None, outputFile);
      && |ss| == 4
      && ss[2] == Status(SavingMessage, NoChange)
      && ss[3] == Status(DoneMessage(Basename(outputFile)), Release)
  {
  }

  /** In debug mode the placeholder has no `/`, so it is the name the completion message shows. */
  lemma DebugRunReportsPlaceholder(fault: Option<Fault>, outputFile: string)
    ensures WorkerStatuses(true, fault, outputFile)
         == [Status(SavingMessage, NoChange), Status(DoneMessage(DebugPlaceholder), Release)]
  {
    BasenameIsLastComponent(DebugPlaceholder);
  }

  /** Every run releases the button exactly once, with its last report. */
  lemma ReleasedOnceAtTheEnd(debug: bool, fault: Option<Fault>, outputFile: string)
    ensures var ss := WorkerStatuses(debug, fault, outputFile);
      && |ss| >= 1
      && ss[|ss| - 1].buttonState == Release
      && forall i :: 0 <= i < |ss| - 1 ==> ss[i].buttonState != Release
  {
  }

  /** Reports appended after earlier ones extend the earlier run's list. */
  lemma AppendReports(before: seq<Status>, stages: seq<Status>, last: seq<Status>)
    ensures before + stages + last == before + (stages + last)
  {
  }

  class TranscriptionController {
    const apiKey: string
    const audioFile: string
    const timestampFlag: bool
    var transcription: string
    var language: string
    var model: string

    /** The window's status callback, once installed. */
    var setStatusFunction: StatusSink?

    constructor(apiKey: string, audioFile: string, timestampFlag: bool)
      ensures this.apiKey == apiKey && this.audioFile == audioFile && this.timestampFlag == timestampFlag
      ensures transcription == "" && language == WhisperCaller.DefaultLanguage && model == WhisperCaller.DefaultModel
      ensures setStatusFunction == null
    {
      this.apiKey := apiKey;
      this.audioFile := audioFile;
      this.timestampFlag := timestampFlag;
      transcription := "";
      language := WhisperCaller.DefaultLanguage;
      model := WhisperCaller.DefaultModel;
      setStatusFunction := null;
    }

    /** `set_status`: forwards the message and button state to the callback, if there is one. */
    method SetStatus(message: string, buttonState: ButtonState := NoChange)
      modifies setStatusFunction
      ensures setStatusFunction != null ==>
        setStatusFunction.received == old(setStatusFunction.received) + [Status(message, buttonState)]
    {
      if setStatusFunction != null {
        setStatusFunction.Receive(message, buttonState);
      }
    }

    /** `output`: writes the transcript and returns the path it wrote to. */
    method Output(transcription: string, fs: TextFiles) returns (outputFileName: string)
      modifies fs
      ensures outputFileName == OutputFileName(audioFile)
      ensures fs.files == old(fs.files)[outputFileName := transcription]
    {
      var inputFilePath := Dirname(audioFile);
      var inputFileBody := Basename(Splitext(audioFile).0);
      outputFileName := Join(inputFilePath, ReplaceChar(inputFileBody, '.', '_') + ".txt");
      fs.Write(outputFileName, transcription);
    }

    /**
     * The steps of `silence_and_transcribe` before the transcript is saved, with the
     * status each one reports first: silencing, then the call to the API, which ends
     * the run with the injected exception when there is one.
     */
    method Stages(world: World, fault: Option<Fault>) returns (r: Result<seq<string>, string>)
      modifies setStatusFunction
      ensures r == if fault.Some? then Failure(fault.value.text) else Success([SilencedFile(world)])
      ensures setStatusFunction == old(setStatusFunction)
      ensures setStatusFunction != null ==>
        setStatusFunction.received == old(setStatusFunction.received) + StageStatuses(fault)
    {
      SetStatus(ExtractingMessage);
      if fault.Some? && fault.value.stage == Extracting {
        return Failure(fault.value.text);
      }
      var silencedFiles := Silence(world);

      SetStatus(CallingMessage);
      if fault.Some? {
        return Failure(fault.value.text);
      }
      return Success(silencedFiles);
    }

    /** A fresh silencer for the input; it leaves one silenced file in the temporary directory. */
    method Silence(world: World) returns (silencedFiles: seq<string>)
      ensures silencedFiles == [SilencedFile(world)]
    {
      var silencer := new AudioSilencer.AudioSilencer(audioFile);
      var exported;
      silencedFiles, exported := silencer.Exec(world.tempDir, world.decoder);
    }

    /** A fresh caller for the silenced files, and the transcript it builds for them. */
    method Transcribe(silencedFiles: seq<string>, world: World) returns (transcription: string)
      ensures transcription
        == WhisperCaller.FilesText(WhisperCaller.DefaultSettings(timestampFlag), world.media, world.backend, silencedFiles)
    {
      var transcriptor := new WhisperCaller.WhisperTranscriptionCaller(apiKey, silencedFiles, timestampFlag);
      transcription := transcriptor.TranscribeAudioFiles(world.media, world.backend);
    }

    /** `sleep_for_debugging`: after the pause, a placeholder instead of a saved path. */
    function SleepForDebugging(): (r: string)
      ensures '/' !in r && Basename(r) == r
    {
      BasenameIsLastComponent(DebugPlaceholder);
      DebugPlaceholder
    }

    /**
     * `silence_and_transcribe`: silence the input, transcribe the silenced file,
     * save the transcript. An exception at any step ends it with that exception.
     */
    method SilenceAndTranscribe(world: World, fault: Option<Fault>, fs: TextFiles) returns (r: Result<string, string>)
      modifies setStatusFunction, fs
      ensures r == WorkerOutcome(false, fault, OutputFileName(audioFile))
      ensures setStatusFunction == old(setStatusFunction)
      ensures setStatusFunction != null ==>
        setStatusFunction.received == old(setStatusFunction.received) + StageStatuses(fault)
      ensures fs.files == if fault.None? then old(fs.files)[OutputFileName(audioFile) := SavedTranscript(timestampFlag, world)]
                          else old(fs.files)
    {
      var staged := Stages(world, fault);
      if staged.Failure? {
        return Failure(staged.error);
      }
      var silencedFiles := staged.value;
      var transcription := Transcribe(silencedFiles, world);

      var saved := Output(transcription, fs);
      return Success(saved);
    }

    /**
     * `handling_transcribe_audio`, the body the worker thread runs: do the work (or
     * its debug stand-in), then report the error, or the save and the completion
     * with the saved file's last path component.
     */
    method HandlingTranscribeAudio(debug: bool, world: World, fault: Option<Fault>, fs: TextFiles)
      modifies setStatusFunction, fs
      ensures setStatusFunction == old(setStatusFunction)
      ensures setStatusFunction != null ==>
        setStatusFunction.received == old(setStatusFunction.received) + WorkerStatuses(debug, fault, OutputFileName(audioFile))
      ensures fs.files == if !debug && fault.None? then old(fs.files)[OutputFileName(audioFile) := SavedTranscript(timestampFlag, world)]
                          else old(fs.files)
    {
      ghost var before := if setStatusFunction != null then setStatusFunction.received else [];
      var savedFile: Result<string, string>;
      if debug {
        savedFile := Success(SleepForDebugging());
      } else {
        savedFile := SilenceAndTranscribe(world, fault, fs);
      }
      ghost var stages: seq<Status> := if debug then [] else StageStatuses(fault);
      assert savedFile == WorkerOutcome(debug, fault, OutputFileName(audioFile));
      Report(savedFile);
      AppendReports(before, stages, Reports(savedFile));
    }

    /** What the worker reports once the work has returned or raised. */
    method Report(savedFile: Result<string, string>)
      modifies setStatusFunction
      ensures setStatusFunction != null ==>
        setStatusFunction.received == old(setStatusFunction.received) + Reports(savedFile)
    {
      ghost var before := if setStatusFunction != null then setStatusFunction.received else [];
      if savedFile.Failure? {
        SetStatus(ErrorMessage(savedFile.error), Release);
        return;
      }

      SetStatus(SavingMessage);

      var name := Basename(savedFile.value);
      SetStatus(DoneMessage(name), Release);
      ghost var saving, done := Status(SavingMessage, NoChange), Status(DoneMessage(name), Release);
      AppendReports(before, [saving], [done]);
      assert [saving] + [done] == Reports(savedFile);
    }
  }
}
