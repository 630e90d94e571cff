# snackwhisper, modelled in Dafny

snackwhisper is a small desktop tool that turns the speech in an audio or video
file into a Japanese text transcript. The window (`TranscriptionApp`) keeps its
settings in `config.ini`. It cleans up dropped paths and assembles the prompt from the
configured text and a dictionary file. Before the run button starts anything, it makes
its checks in a fixed order. The controller (`TranscriptionController`) runs one
worker. That worker does four things in order:

- it extracts the audio track and removes the silences (`AudioSilencer`);
- it transcribes the silenced file (`WhisperCaller`), splitting files over 20 MiB into
  chunks of about 5 MiB;
- it writes the transcript as `<stem>.txt` next to the input;
- it reports every step through the window's status callback, releasing the run
  button once at the end.

`DebugOptions` reads the `[DEBUG]` section of the configuration.

The model follows the code's own structure:

- Objects whose fields change become classes: the caller's growing `transcription`,
  the controller's callback, the window's configuration, widgets and status messages.
- Everything else is written as functions over values.
- The Python library behaviour the code depends on is modelled in its own modules:
  - `os.path` (`Paths`);
  - `str.replace`, `str.rfind` and `str.count` (`Strings`);
  - `str()`, `int()` and `strip()` (`Decimal`);
  - `str(timedelta)` (`Timedelta`);
  - `sorted` on strings (`Ordering`);
  - the part of `configparser` that is used (`ConfigParser`).
- Paths follow POSIX rules (`posixpath`); see "## Left out" for Windows.
- The operating system, the media tools and the speech API are not modelled. They
  enter as values: `Media`, `Decoder`, `Backend`, the `tempDir` chosen by `mkdtemp`, a
  `readFile` function, window geometry, and the answer of the token check.
- An exception raised by a pipeline step is modelled as a `Fault` value handed to the
  worker.

What the code does, where the proofs make it visible:

- Time stamps are chunk-local. Each chunk's lines are formatted from that chunk's own
  segment starts, so after a split the time stamps start again from 0:00:00 in every
  chunk (`WhisperCaller.ChunkLocalTimestamps`).
- The split size can be zero. The computed segment length is 0 whenever
  `duration * 5 MiB < size` (`WhisperCaller.TargetDurationBounds`), as for a one-second
  file just over 20 MiB (`WhisperCaller.ZeroTargetDuration`). Nothing guards against
  this value before it is handed to `ffmpeg`.
- The silenced-file switch is saved and read under different names.
  `save_settings` writes it as `keep_silenced`, but start-up reads
  `keep_silence_removed`. Saving therefore never changes what the next start reads
  (`TranscriptionApp.SavedConfigReadBack`, `TranscriptionApp.KeepSilenceRemovedUntouched`).

## Model

| member | source | states |
|---|---|---|
| Strings.ReplaceCharAt | lib/transcription_controller.py:76 | `replace(old, new)` keeps the length; each position holds `new` where the text had `old` and is otherwise unchanged |
| Strings.RemoveCharMembers | transcription_app.py:232-233 | after `replace(c, "")` no `c` is left, and any other character occurs exactly when it occurred before |
| Strings.RFindIsLast | lib/transcription_controller.py:73-74 | `rfind(c)` gives an index holding `c` with no `c` after it, and gives -1 exactly when `c` does not occur |
| Paths.BasenameIsLastComponent | transcription_app.py:226 | the base name has no `/`, is a suffix of the path, follows a `/` unless it is the whole path, and a path without `/` is its own base name (the same text as `split("/")[-1]`) |
| Paths.BasenameOfJoin | lib/transcription_controller.py:75-77 | joining a name without `/` to any directory gives a path whose base name is that name |
| Paths.DirnameShape | lib/transcription_controller.py:73 | `dirname` returns either slashes only or a path not ending in `/` |
| Paths.DirnameOfJoin | lib/transcription_controller.py:73-77 | joining a plain name to a `dirname` result gives a path whose `dirname` is that directory again |
| Paths.RStripSlashesSpec | lib/transcription_controller.py:73 | stripping trailing slashes leaves a prefix that does not end in `/`, and only slashes were removed |
| Paths.SplitextParts | lib/audio_silencer.py:20 | `splitext` parts concatenate back to the path; a non-empty extension is a dot followed by no further dot or `/` |
| Paths.SplitextOfJoin | lib/audio_silencer.py:20-21 | for `dir/stem.ext`, replacing the extension by a suffix gives `dir/stem<suffix>` |
| Decimal.NatToDecimal | lib/whisper_caller.py:63 | `str(n)` is a non-empty digit string without a leading zero whose value is `n` |
| Decimal.TwoDigits | lib/whisper_caller.py:63 | the two-digit minute and second fields are exactly two digits with value `n` |
| Decimal.IntToDecimal | transcription_app.py:265-270 | `str(i)` is the digits of the absolute value, with a `-` in front when `i` is negative |
| Decimal.Strip | transcription_app.py:297 | `strip()` result is no longer than its input, starts and ends with non-whitespace, and leaves text without surrounding whitespace unchanged |
| Decimal.LStripRemovesLeadingSpace | transcription_app.py:297 | everything `lstrip` removes is whitespace |
| Decimal.RStripRemovesTrailingSpace | transcription_app.py:297 | everything `rstrip` removes is whitespace |
| Decimal.StripSpec | transcription_app.py:297 | `strip()` returns one contiguous slice of the text with only whitespace before and after it, and is empty exactly when the text is whitespace only |
| Decimal.ParseInt | lib/debug_options.py:19-21 | a rejected literal gives a `ValueError` carrying that text |
| Decimal.ParseIntAccepts | lib/debug_options.py:19-21 | `int()` succeeds exactly when the stripped text is well-formed digits (single `_` between digits), with or without one leading sign |
| Decimal.RejectedAsWritten | lib/debug_options.py:19-21 | a text without surrounding whitespace is accepted exactly when it is itself signed or unsigned well-formed digits |
| Decimal.ParseIntRejectsBlank | lib/debug_options.py:19-21 | an empty or whitespace-only text raises `ValueError` |
| Decimal.ParseIntRejectsDoubleUnderscore | lib/debug_options.py:19-21 | `int("1__0")` raises `ValueError` |
| Decimal.ParseIntRejectsSpaceAfterSign | lib/debug_options.py:19-21 | `int("- 5")` raises `ValueError` |
| Decimal.ParseIntRejectsPoint | lib/debug_options.py:19-21 | `int("1.5")` raises `ValueError` |
| Decimal.ParseIntOfDigits | lib/debug_options.py:19-21 | `int()` of a digit string is its decimal value |
| Decimal.ParseIntOfDecimal | lib/debug_options.py:19-21 | `int(str(i)) == i` for every integer |
| Timedelta.ClockShape | lib/whisper_caller.py:62-63 | within one day the time stamp is `H:MM:SS`: hours below 24 without padding, then minutes and seconds as two digits each below 60 |
| Timedelta.ClockRoundTrip | lib/whisper_caller.py:62-63 | within one day the time stamp reads back as the same number of seconds |
| Timedelta.DayPrefix | lib/whisper_caller.py:62-63 | from one day on (or below zero) the text starts with the floor-divided day count and ` day` |
| Timedelta.NoNewline | lib/whisper_caller.py:63-64 | a time stamp never contains a line break |
| Ordering.Sort | lib/whisper_caller.py:115 | `sorted` returns its input's strings, as a permutation, in ascending order |
| Ordering.SortedUnique | lib/whisper_caller.py:115 | any ascending permutation of the list is the same list, so `Sort` is what `sorted` returns |
| Ordering.LexLeTotal | lib/whisper_caller.py:115 | Python string order is total |
| Ordering.LexLeAntisymmetric | lib/whisper_caller.py:115 | two strings each `<=` the other are equal |
| Ordering.LexLeTransitive | lib/whisper_caller.py:115 | Python string order is transitive |
| ConfigParser.OptionXform | transcription_app.py:262 | option names are stored lower-cased and keep their length |
| ConfigParser.SameCharUpToCase | transcription_app.py:262 | two characters lower-case to the same character exactly when they are equal or the same ASCII letter in both cases |
| ConfigParser.OptionXformSameKey | transcription_app.py:262 | two option names reach the same stored key exactly when they have the same length and differ only in ASCII case |
| ConfigParser.OptionXformIdempotent | transcription_app.py:262 | a stored key lower-cases to itself |
| ConfigParser.Lookup | lib/debug_options.py:16 | `[DEFAULT]` finds its own stored value; another present section finds its own value, else the `[DEFAULT]` value; a missing section finds nothing; a failed lookup means `[DEFAULT]` does not hold the option either |
| ConfigParser.SetDefault | transcription_app.py:262 | after `config["DEFAULT"][option] = value` the option reads back as `value` and the other sections are unchanged |
| DebugOptions.FromConfig | lib/debug_options.py:6-13 | with no configuration every option takes its default: all flags off, split length 0 |
| DebugOptions.FromConfigReads | lib/debug_options.py:15-27 | each flag is on exactly when its stored text is `"True"`; the split length is 0 when missing and `int()` of the stored text otherwise; a rejected text makes construction fail with that `ValueError` |
| DebugOptions.MissingOptionsGiveDefaults | lib/debug_options.py:6-27 | a configuration in which none of the four options is found gives the same record as no configuration |
| DebugOptions.AbsentSectionGivesDefaults | lib/debug_options.py:15-27 | without a `[DEBUG]` section the defaults are used, whatever `[DEFAULT]` holds |
| DebugOptions.SplitSegmentRoundTrip | lib/debug_options.py:19-21 | a stored `str(n)` is read back as `n` |
| AudioSilencer.ConcatLength | lib/audio_silencer.py:42-44 | the silenced audio is exactly as long as the kept chunks together |
| AudioSilencer.ConcatAppend | lib/audio_silencer.py:42-44 | concatenation keeps every chunk whole and in order; it distributes over `+` |
| AudioSilencer.SilencedNameOfExtracted | lib/audio_silencer.py:72-78 | the silenced copy of `<tmp>/audio.mp3` is `<tmp>/audio_silenced.mp3` |
| AudioSilencer.AudioSilencer.constructor | lib/audio_silencer.py:11-15 | the silencer keeps its input path |
| AudioSilencer.AudioSilencer.RemoveSilence | lib/audio_silencer.py:26-47 | the exported audio is the chunks `split_on_silence` keeps with the fixed profile (100 ms, -55 dBFS, 100 ms), in order; its length is their total |
| AudioSilencer.AudioSilencer.RemoveSilenceMultiple | lib/audio_silencer.py:17-24 | one output per input, in order, named `splitext(input)[0] + suffix`, each holding that input's silenced audio |
| AudioSilencer.AudioSilencer.Exec | lib/audio_silencer.py:64-80 | returns the single file `<tmp>/audio_silenced.mp3` holding the silenced audio of the extracted `<tmp>/audio.mp3` |
| WhisperCaller.TargetDurationBounds | lib/whisper_caller.py:89-94 | on the split path the segment length is at least 0 and at most a quarter of the duration, and is 0 exactly when `duration * 5 MiB < size` |
| WhisperCaller.ZeroTargetDuration | lib/whisper_caller.py:26-27 | a one-second file of 20 MiB + 1 byte is split with a segment length of 0 |
| WhisperCaller.LineOfSegment | lib/whisper_caller.py:59-66 | segment `k` contributes exactly its own `[H:MM:SS] text` line, after the earlier segments' lines and before the later ones |
| WhisperCaller.SegmentLineCount | lib/whisper_caller.py:63-64 | a segment whose text has no line break gives exactly one line |
| WhisperCaller.OneLinePerSegment | lib/whisper_caller.py:59-66 | when no segment text contains a line break, the result has exactly one line per segment |
| WhisperCaller.JoinWork | lib/whisper_caller.py:113 | a kept chunk name is joined as `work/<name>` |
| WhisperCaller.ChunkPathsMembers | lib/whisper_caller.py:110-113 | a path is collected exactly when it is `work/` plus a listed name that starts with `split` and ends with `.mp3` |
| WhisperCaller.JsonRequest | lib/whisper_caller.py:68-74 | `create` asks for plain `json` without a prompt, with the caller's model and language |
| WhisperCaller.VerboseRequest | lib/whisper_caller.py:50-57 | `create_with_timestamp` asks for `verbose_json` with the prompt, with the caller's model and language |
| WhisperCaller.TextOfFile | lib/whisper_caller.py:21-37 | file `k` contributes exactly the texts of its own chunks, after all earlier files and before all later ones |
| WhisperCaller.SmallFileIsOneChunk | lib/whisper_caller.py:26-29 | a file of at most 20 MiB is sent whole, and its text is the one backend answer |
| WhisperCaller.ChunkLocalTimestamps | lib/whisper_caller.py:59-64 | the lines of a second chunk are formatted from its own segment starts, not shifted by the first chunk's length |
| WhisperCaller.WhisperTranscriptionCaller.constructor | lib/whisper_caller.py:9-17 | empty transcript, language `ja`, model `whisper-1`, the fixed prompt |
| WhisperCaller.WhisperTranscriptionCaller.Create | lib/whisper_caller.py:68-75 | the backend's plain text for the `json` request, unchanged |
| WhisperCaller.WhisperTranscriptionCaller.CreateWithTimestamp | lib/whisper_caller.py:50-66 | one `[H:MM:SS] text` line per returned segment, in order |
| WhisperCaller.WhisperTranscriptionCaller.TranscribeSingleFile | lib/whisper_caller.py:39-48 | the time-stamp switch chooses between the two request kinds |
| WhisperCaller.WhisperTranscriptionCaller.SplitAudio | lib/whisper_caller.py:77-115 | the chunk paths filtered from the listing, sorted and as a permutation of them |
| WhisperCaller.WhisperTranscriptionCaller.TranscribeCroppedFiles | lib/whisper_caller.py:34-35 | the chunks' texts, in chunk order |
| WhisperCaller.WhisperTranscriptionCaller.TranscribeAudioFiles | lib/whisper_caller.py:21-37 | the transcript grows by the text of every file, in order, chunk by chunk, and the result is the whole transcript |
| TranscriptionController.OutputStemShape | lib/transcription_controller.py:74-76 | the output stem has no `.` and no `/` |
| TranscriptionController.OutputFileNameShape | lib/transcription_controller.py:73-77 | the transcript is written into the input's directory as `<stem>.txt`; the stem has no dot or slash, and the path ends in `.txt` |
| TranscriptionController.FailureReportsOnlyTheError | lib/transcription_controller.py:36-40 | a failed run reports the stage messages and then exactly one error that releases the button; nothing about saving is reported |
| TranscriptionController.SuccessReportsSaveThenDone | lib/transcription_controller.py:42-45 | a successful run reports four statuses, ending with the save message and the completion message that names the saved file |
| TranscriptionController.DebugRunReportsPlaceholder | lib/transcription_controller.py:32-33 | in debug mode only the save message and the completion message naming `[DEBUG_MODE]` are reported |
| TranscriptionController.ReleasedOnceAtTheEnd | lib/transcription_controller.py:30-45 | every run releases the button exactly once, with its last report |
| TranscriptionController.StatusSink.Receive | lib/transcription_controller.py:24 | the callback records each call, in order |
| TranscriptionController.TextFiles.Write | lib/transcription_controller.py:82-83 | writing replaces that one path's contents |
| TranscriptionController.TranscriptionController.constructor | lib/transcription_controller.py:11-20 | the controller keeps its arguments, with an empty transcript, language `ja`, model `whisper-1`, and no callback |
| TranscriptionController.TranscriptionController.SetStatus | lib/transcription_controller.py:22-24 | the message and button state reach the callback when one is installed |
| TranscriptionController.TranscriptionController.Output | lib/transcription_controller.py:71-87 | the transcript is written to `OutputFileName(audioFile)` and that path is returned; no other file changes |
| TranscriptionController.TranscriptionController.Stages | lib/transcription_controller.py:49-57 | the extraction status, then the API status, are reported unless extraction fails; a fault ends the run with its text |
| TranscriptionController.TranscriptionController.Silence | lib/transcription_controller.py:50-51 | the silencer leaves `<tmp>/audio_silenced.mp3` as the one file to transcribe |
| TranscriptionController.TranscriptionController.Transcribe | lib/transcription_controller.py:54-57 | the transcript of the silenced files with the default caller settings |
| TranscriptionController.TranscriptionController.SleepForDebugging | lib/transcription_controller.py:62-66 | the placeholder has no `/`, so it is its own base name |
| TranscriptionController.TranscriptionController.SilenceAndTranscribe | lib/transcription_controller.py:48-59 | without a fault, the transcript of the silenced file is saved and its path returned; with one, nothing is written and the fault's text is returned |
| TranscriptionController.TranscriptionController.HandlingTranscribeAudio | lib/transcription_controller.py:30-45 | the callback receives exactly `WorkerStatuses`, and the transcript is written only on a non-debug run without a fault |
| TranscriptionController.TranscriptionController.Report | lib/transcription_controller.py:36-45 | reports the error, or the save message and then the completion message naming the saved file |
| TranscriptionApp.ReplaceIrregularCharPerChar | transcription_app.py:230-234 | the path is rewritten character by character: `\` gives `/`, a brace gives nothing, anything else stays |
| TranscriptionApp.ReplaceIrregularCharClean | transcription_app.py:230-234 | no backslash and no brace is left |
| TranscriptionApp.ReplaceIrregularCharIdempotent | transcription_app.py:230-234 | cleaning a cleaned path changes nothing |
| TranscriptionApp.UnescapeNewlinesLeavesNone | transcription_app.py:85 | no two-character `\n` is left after the replacement |
| TranscriptionApp.UnescapeNewlinesIdentity | transcription_app.py:85 | text without a two-character `\n` is left as it is |
| TranscriptionApp.UnescapeNewlinesIdempotent | transcription_app.py:85 | replacing twice gives the same as replacing once |
| TranscriptionApp.LoadDictionaryWithoutFile | transcription_app.py:80-90 | without a dictionary entry the prompt alone is returned, and `""` when no prompt is configured either |
| TranscriptionApp.LoadDictionaryWithFile | transcription_app.py:87-96 | with a dictionary, the result starts with the prompt, followed by the file's text on one line with each line break turned into a space; an unreadable file gives no prompt |
| TranscriptionApp.LoadFlags | transcription_app.py:42-59 | each switch is on exactly for the stored text `"True"`; a missing `flag_silence_removal` counts as on |
| TranscriptionApp.ApiTokenKey | transcription_app.py:64 | the token saved as `API_TOKEN` is found again as `api_token` |
| TranscriptionApp.SavedConfigReadBack | transcription_app.py:253-289 | the saved configuration reads back the token, both check boxes, and `keep_silenced`, while `keep_silence_removed` stays as it was |
| TranscriptionApp.KeepSilenceRemovedUntouched | transcription_app.py:56-59 | no option `save_settings` writes is `keep_silence_removed` |
| TranscriptionApp.ButtonAfter | transcription_app.py:126-131 | `RELEASE` enables the run button, `DISABLE` disables it, and `NONE` leaves it as it was |
| TranscriptionApp.FailedCheck | transcription_app.py:293-304 | the checks run in order (ffmpeg, then a chosen file, then a token) and the first that fails gives its message; all pass exactly when ffmpeg is there, a path is shown and the token entry is not empty |
| TranscriptionApp.FileTypes | transcription_app.py:239-246 | the four audio patterns come first, and `*.mp4` is offered exactly when ffmpeg was found |
| TranscriptionApp.ErrorStatus | transcription_app.py:351-359 | HTTP 401 gives the invalid-token message; any other status gives the error message with the text |
| TranscriptionApp.Start | transcription_app.py:22-77 | start-up fails exactly when the dictionary file cannot be opened; otherwise the window holds the configuration, the prompt `load_dictionary` returns, the token from `[DEFAULT]`, and the ready and token status messages |
| TranscriptionApp.TranscriptionApp.constructor | transcription_app.py:22-69 | the switches and token come from `[DEFAULT]`, the widgets start from them, and the status bar shows the ready message and then whether a token was found |
| TranscriptionApp.TranscriptionApp.SetStatus | transcription_app.py:123-131 | the message is shown and the button rule applied; nothing else changes |
| TranscriptionApp.TranscriptionApp.Drop | transcription_app.py:212-227 | the cleaned dropped text replaces the shown path, and its last path component is announced |
| TranscriptionApp.TranscriptionApp.OpenFileDialog | transcription_app.py:237-251 | a chosen path replaces the one shown; cancelling changes nothing |
| TranscriptionApp.TranscriptionApp.LoadFromWidgets | transcription_app.py:362-364 | the token and the silence-removal switch are taken from the window |
| TranscriptionApp.TranscriptionApp.SaveSettings | transcription_app.py:253-289 | with an empty token entry nothing changes and the result is false; otherwise the window values are stored as `SavedConfig` and written out once |
| TranscriptionApp.TranscriptionApp.MakeTranscriptionController | transcription_app.py:330-337 | a fresh controller for the file with the current token and time-stamp switch; `keep_silenced` is on exactly for `"True"` |
| TranscriptionApp.TranscriptionApp.RunTranscribe | transcription_app.py:292-327 | the first failed check is reported and nothing else changes; otherwise the settings are saved and a controller is made for the stripped path; if the token is accepted, the start is announced with the file name and the button is disabled |
| TranscriptionApp.TranscriptionApp.OnClosing | transcription_app.py:346-349 | the settings are written on closing exactly when there is a token |
| TranscriptionApp.TranscriptionApp.ErrorProcess | transcription_app.py:351-359 | the status bar shows `ErrorStatus` for the error; nothing else changes |

## Left out

- The Tk user interface is not modelled. This covers widget layout, fonts, the window
  title, `resizable`, `window.update()`, `window.destroy()`, drag-and-drop registration
  and the `StatusBar` widget (`lib/status_bar.py`), as well as `main.py`, which only
  creates the window. The widgets the code reads and writes are the `Widgets` record,
  and the status bar is the list of messages it showed.
- The application icon is not modelled: `lib/my_icon.py` is not part of this model. The
  status message for a failed icon load (`transcription_app.py:140-144`) is left out,
  so the model's status history starts with the ready message.
- The window geometry restored at start-up (`transcription_app.py:30-37`) is left out,
  because it only positions the window. The saved geometry is the `Geometry` parameter.
- `check_ffmpeg_exists`, `ffprobe`, `ffmpeg`, the directory listing, `getsize`,
  `mkdtemp` and the speech API are external. Their answers are inputs: `ffmpegInstalled`,
  `Media`, `Backend` and `tempDir`.
- Decoding, `split_on_silence` and mp3 export belong to pydub. They are the `Decoder`
  value. `extract_audio` (`lib/audio_silencer.py:52-62`) only runs `ffmpeg`, so it is
  not a member.
- Reading and writing files is not modelled as I/O. `config.ini` written out is the
  `written` list. Transcript files are the `TextFiles` map. The dictionary file is the
  `readFile` function, assumed to have had its line endings normalised by text mode.
- The worker `Thread` (`lib/transcription_controller.py:68-69`) is left out, along with
  any concurrency with the window. `HandlingTranscribeAudio` is the body the thread
  runs. `time.sleep(5)` is left out.
- Exceptions from the pipeline steps are modelled as the `Fault` parameter: the stage
  that raises and its text. Exceptions from Tk, from the OpenAI client constructor and
  from `open()` of the transcript are not modelled separately.
- Durations are exact reals, not floating point. `str(target_duration)` in the ffmpeg
  command line (a float such as `12.0`) is not modelled; the split listing is indexed
  by the integer value.
- `sys.flags.debug` is the `debug` parameter. The `print` output it enables is left out.
- Paths.Join: models `posixpath.join`. The program runs only on Windows, because
  `check_ffmpeg_exists` uses `where` and `subprocess.CREATE_NO_WINDOW` with no platform
  guard (`transcription_app.py:107-113`). There `os.path` is `ntpath`, and `join` puts a
  `\` between its parts. The transcript path then looks like `C:/Users/me\talk_v1.txt`
  (`lib/transcription_controller.py:75`), and chunk paths look like
  `work\split-000.mp3` (`lib/whisper_caller.py:113`).
- Paths.Dirname: models `posixpath.dirname`. `ntpath.dirname` also splits at `\` and
  keeps a drive such as `C:`.
- Paths.Splitext: models `posixpath.splitext`. `ntpath.splitext` also treats `\` as a
  separator.
- Paths.Basename: models `posixpath.basename`, which is exactly `split("/")[-1]` on every
  platform. On Windows, `os.path.basename` (`lib/transcription_controller.py:74`) also
  cuts at `\`. The completion message cuts at `/` only
  (`lib/transcription_controller.py:44`), so with a Windows transcript path it names
  `me\talk_v1.txt`, not the bare file name that
  `TranscriptionController.SuccessReportsSaveThenDone` shows for POSIX paths.
- ConfigParser.OptionXform: lower-cases ASCII letters only. Python's `str.lower()` also
  folds other Unicode letters, for example U+212A KELVIN SIGN to `k`. The option names
  the program uses are ASCII.
- TranscriptionApp.TranscriptionApp.constructor: takes as a parameter the prompt that
  `load_dictionary` returned. `TranscriptionApp.Start` makes that call, and it models
  the start-up failure when the dictionary file cannot be opened.
- `configparser` interpolation and the reading of `config.ini` into sections are left
  out. `int()` accepts ASCII digits only, not other Unicode decimal digits.
- `transcription_app.py:318` calls `check_api_token`, and `transcription_app.py:340`
  calls `set_prompt`. Neither exists on the controller in
  `lib/transcription_controller.py`. The answer of the token check is the `tokenAccepted`
  parameter, and the prompt is not passed on.
- `transcription_app.py:327` calls `transcribe_audio` with an argument that the
  controller's `transcribe_audio` does not take. The start of the worker is therefore
  not part of `RunTranscribe`.
- Installing the window's `set_status` as the controller's callback
  (`transcription_app.py:342`) is not modelled. The controller's callback is a
  `StatusSink` that records the calls. `keep_silence_removed_files` is returned as
  `keepSilenced` instead of being set on the controller.
- TranscriptionApp.TranscriptionApp.MakeTranscriptionController: requires
  `keep_silenced` to be present in `[DEFAULT]`. The source reads it without a fallback
  and raises `KeyError` otherwise. Its only caller saves that option first.
- TranscriptionApp.LoadDictionary: an `open()` failure is `None`, not an exception.
  `TranscriptionApp.Start` turns it into a failed start-up.
- WhisperCaller.WhisperTranscriptionCaller.TranscribeCroppedFiles: returns the joined
  text of one file's chunks, and the caller appends it once. The source appends after
  each chunk, so intermediate states of `transcription` are not modelled. The final
  transcript is the same.
- WhisperCaller.WhisperTranscriptionCaller.SplitAudio: requires a non-zero size. The
  source divides by the size, and it is only called for files over 20 MiB.
- The steps `Stages`, `Silence`, `Transcribe` and `Report` split
  `silence_and_transcribe` and `handling_transcribe_audio` into smaller methods. They
  have no counterpart of their own in the source.
