/**
 * The transcription caller: each audio file is split into chunks when it is larger
 * than the backend accepts, each chunk is sent to the speech-to-text backend in
 * order, and the per-chunk texts are appended to one transcript, either as the
 * backend's plain text or as one `[H:MM:SS] text` line per returned segment.
 */
module WhisperCaller {
  import opened Wrappers
  import opened Strings
  import opened Paths
  import opened Ordering
  import Timedelta

  /** Files strictly larger than this many bytes (20 MiB) are split. */
  const SplitThreshold: nat := 20 * 1024 * 1024

  /** The size each chunk is aimed at (5 MiB). */
  const MaxChunkSize: nat := 5 * 1024 * 1024

  const DefaultLanguage := "ja"
  const DefaultModel := "whisper-1"
  const DefaultPrompt := "こんにちは、本日は晴天です。"

  /** The directory the split chunks are written to and listed from. */
  const WorkDir := "work"

  /** A duration in seconds, as `ffprobe` reports it. */
  type Seconds = r: real | 0.0 <= r

  /** One segment of a `verbose_json` response: its text and its start, in seconds from the start of the chunk. */
  datatype Segment = Segment(text: string, start: real)

  /** The arguments of one `audio.transcriptions.create` call. */
  datatype Request = Request(file: string, model: string, language: string, responseFormat: string, prompt: Option<string>)

  /** The backend's answers: the text of a `json` response, the segments of a `verbose_json` one. */
  datatype Backend = Backend(json: Request -> string, verboseJson: Request -> seq<Segment>)

  /**
   * What the file system and the media tools report: `os.path.getsize`, the duration
   * `ffprobe` prints, and what `os.listdir("work")` returns once `ffmpeg` has split a
   * given input with a given segment time.
   */
  datatype Media = Media(size: string -> nat, duration: string -> Seconds, workListing: (string, int) -> seq<string>)

  predicate NeedsSplit(size: nat) {
    size > SplitThreshold
  }

  /** `(duration * max_size) // size`, on exact reals. */
  function TargetDuration(duration: Seconds, maxSize: nat, size: nat): int
    requires size > 0
  {
    (duration * maxSize as real / size as real).Floor
  }

  /**
   * On the split path (more than 20 MiB) the target duration is at least 0 and at
   * most a quarter of the whole duration, and it is 0 exactly when
   * `duration * 5 MiB < size`: nothing keeps it from being 0.
   */
  lemma TargetDurationBounds(duration: Seconds, size: nat)
    requires NeedsSplit(size)
    ensures var t := TargetDuration(duration, MaxChunkSize, size);
      && 0 <= t
      && t as real <= duration / 4.0
      && (t == 0 <==> duration * MaxChunkSize as real < size as real)
  {
    var m, s := MaxChunkSize as real, size as real;
    RatioBounds(duration * m, s);
    QuarterBound(duration, m, s);
  }

  /** A non-negative ratio is below 1 exactly when its numerator is below its denominator. */
  lemma RatioBounds(p: real, q: real)
    requires 0.0 <= p && 0.0 < q
    ensures 0.0 <= p / q
    ensures p / q < 1.0 <==> p < q
  {
    assert p / q * q == p;
  }

  lemma QuarterBound(d: real, m: real, s: real)
    requires 0.0 <= d && 0.0 < m && 4.0 * m <= s
    ensures d * m / s <= d / 4.0
  {
    assert d * m * 4.0 <= d * s;
    assert d * m / s * s == d * m;
  }

  /** A one-second file just over the threshold gets a target duration of 0. */
  lemma ZeroTargetDuration()
    ensures NeedsSplit(SplitThreshold + 1)
    ensures TargetDuration(1.0, MaxChunkSize, SplitThreshold + 1) == 0
  {
    TargetDurationBounds(1.0, SplitThreshold + 1);
  }

  /** `int(x)`: truncation toward zero. */
  function Trunc(x: real): int {
    if x >= 0.0 then x.Floor else -((-x).Floor)
  }

  /** `f"[{timestamp}] {text}\n"` for one segment; the start is the chunk-local one. */
  function SegmentLine(s: Segment): string {
    "[" + Timedelta.Str(Trunc(s.start)) + "] " + s.text + "\n"
  }

  /** The lines of a timestamped transcript, one per segment, in segment order. */
  function TimestampLines(segments: seq<Segment>): string {
    ConcatMap(segments, SegmentLine)
  }

  /** Segment `k` contributes exactly its own line, between the lines before and after it. */
  lemma LineOfSegment(segments: seq<Segment>, k: nat)
    requires k < |segments|
    ensures TimestampLines(segments)
         == TimestampLines(segments[..k]) + SegmentLine(segments[k]) + TimestampLines(segments[k + 1..])
  {
    assert segments == segments[..k] + [segments[k]] + segments[k + 1..];
    ConcatMapAppend(segments[..k] + [segments[k]], segments[k + 1..], SegmentLine);
    ConcatMapAppend(segments[..k], [segments[k]], SegmentLine);
    ConcatMapOne(segments[k], SegmentLine);
  }

  /** A segment whose text holds no line break gives exactly one line. */
  lemma SegmentLineCount(s: Segment)
    requires '\n' !in s.text
    ensures Count(SegmentLine(s), '\n') == 1
  {
    var stamp := Timedelta.Str(Trunc(s.start));
    Timedelta.NoNewline(Trunc(s.start));
    assert '\n' !in "[" + stamp + "] " + s.text;
    assert Count("\n", '\n') == 1;
    CountAppend("[" + stamp + "] " + s.text, "\n", '\n');
  }

  /** When no segment text holds a line break, the transcript has exactly one line per segment. */
  lemma OneLinePerSegment(segments: seq<Segment>)
    requires forall i :: 0 <= i < |segments| ==> '\n' !in segments[i].text
    ensures Count(TimestampLines(segments), '\n') == |segments|
  {
    forall i | 0 <= i < |segments|
      ensures Count(SegmentLine(segments[i]), '\n') == 1
    {
      SegmentLineCount(segments[i]);
    }
    ConcatMapCount(segments, SegmentLine, '\n');
  }

  /** Listing entries `split_audio` keeps. */
  predicate IsChunkName(name: string) {
    StartsWith(name, "split") && EndsWith(name, ".mp3")
  }

  /** The kept entries, each as `os.path.join("work", name)`, in listing order. */
  function ChunkPaths(listing: seq<string>): seq<string> {
    if listing == [] then []
    else
      var name := listing[|listing| - 1];
      ChunkPaths(listing[..|listing| - 1]) + (if IsChunkName(name) then [Join(WorkDir, name)] else [])
  }

  lemma ChunkPathsSnoc(listing: seq<string>, i: nat)
    requires i < |listing|
    ensures ChunkPaths(listing[..i + 1])
         == ChunkPaths(listing[..i]) + (if IsChunkName(listing[i]) then [Join(WorkDir, listing[i])] else [])
  {
    assert listing[..i + 1][..i] == listing[..i];
  }

  /** A kept name is joined under `work/` as `work/<name>`. */
  lemma JoinWork(name: string)
    requires IsChunkName(name)
    ensures Join(WorkDir, name) == "work/" + name
  {
    assert name[0] == 's';
  }

  /** The paths are exactly the chunk-named entries of the listing, prefixed with `work/`. */
  lemma {:induction false} ChunkPathsMembers(listing: seq<string>, p: string)
    ensures p in ChunkPaths(listing)
        <==> exists k :: 0 <= k < |listing| && IsChunkName(listing[k]) && p == "work/" + listing[k]
  {
    if listing != [] {
      var init, name := listing[..|listing| - 1], listing[|listing| - 1];
      ChunkPathsMembers(init, p);
      if IsChunkName(name) {
        JoinWork(name);
      }
      if exists k :: 0 <= k < |listing| && IsChunkName(listing[k]) && p == "work/" + listing[k] {
        var k :| 0 <= k < |listing| && IsChunkName(listing[k]) && p == "work/" + listing[k];
        if k < |init| {
          assert init[k] == listing[k];
        }
      }
      if exists k :: 0 <= k < |init| && IsChunkName(init[k]) && p == "work/" + init[k] {
        var k :| 0 <= k < |init| && IsChunkName(init[k]) && p == "work/" + init[k];
        assert listing[k] == init[k];
      }
    }
  }

  /** The chunk list `split_audio` returns for an input: the kept paths, sorted. */
  function ChunkFiles(media: Media, inputFile: string, maxSize: nat): seq<string>
    requires media.size(inputFile) > 0
  {
    var target := TargetDuration(media.duration(inputFile), maxSize, media.size(inputFile));
    Sort(ChunkPaths(media.workListing(inputFile, target)))
  }

  /** The caller's fixed request parameters and its mode. */
  datatype Settings = Settings(model: string, language: string, prompt: string, timestampFlag: bool)

  /** The settings every caller is constructed with. */
  function DefaultSettings(timestampFlag: bool): Settings {
    Settings(DefaultModel, DefaultLanguage, DefaultPrompt, timestampFlag)
  }

  /** The request `create` sends: plain `json`, no prompt. */
  function JsonRequest(s: Settings, file: string): (r: Request)
    ensures r.file == file && r.model == s.model && r.language == s.language
    ensures r.responseFormat == "json" && r.prompt == None
  {
    Request(file, s.model, s.language, "json", None)
  }

  /** The request `create_with_timestamp` sends: `verbose_json`, with the prompt. */
  function VerboseRequest(s: Settings, file: string): (r: Request)
    ensures r.file == file && r.model == s.model && r.language == s.language
    ensures r.responseFormat == "verbose_json" && r.prompt == Some(s.prompt)
  {
    Request(file, s.model, s.language, "verbose_json", Some(s.prompt))
  }

  /** The text `transcribe_single_file` returns for one chunk. */
  function ChunkText(s: Settings, backend: Backend, file: string): string {
    if s.timestampFlag then TimestampLines(backend.verboseJson(VerboseRequest(s, file)))
    else backend.json(JsonRequest(s, file))
  }

  /** The chunks one audio file is transcribed as. */
  function Chunks(media: Media, file: string): seq<string> {
    if NeedsSplit(media.size(file)) then ChunkFiles(media, file, MaxChunkSize) else [file]
  }

  /** What each chunk adds to the transcript. */
  function ChunkTexts(s: Settings, backend: Backend): string -> string {
    chunk => ChunkText(s, backend, chunk)
  }

  /** The text the chunks of one file add: their texts, in chunk order. */
  function ChunksText(s: Settings, backend: Backend, chunks: seq<string>): string {
    ConcatMap(chunks, ChunkTexts(s, backend))
  }

  /** What each audio file adds to the transcript. */
  function FileTexts(s: Settings, media: Media, backend: Backend): string -> string {
    file => ChunksText(s, backend, Chunks(media, file))
  }

  /** The text all of `files` add to the transcript: file by file, chunk by chunk. */
  function FilesText(s: Settings, media: Media, backend: Backend, files: seq<string>): string {
    ConcatMap(files, FileTexts(s, media, backend))
  }

  /**
   * File `k` contributes exactly the texts of its own chunks, after everything the
   * files before it contributed and before everything the files after it contribute.
   */
  lemma TextOfFile(s: Settings, media: Media, backend: Backend, files: seq<string>, k: nat)
    requires k < |files|
    ensures FilesText(s, media, backend, files)
         == FilesText(s, media, backend, files[..k])
          + ChunksText(s, backend, Chunks(media, files[k]))
          + FilesText(s, media, backend, files[k + 1..])
  {
    var f := FileTexts(s, media, backend);
    assert files == files[..k] + [files[k]] + files[k + 1..];
    ConcatMapAppend(files[..k] + [files[k]], files[k + 1..], f);
    ConcatMapAppend(files[..k], [files[k]], f);
    ConcatMapOne(files[k], f);
  }

  /** A file of at most 20 MiB is sent whole: one backend call, its text unchanged. */
  lemma SmallFileIsOneChunk(s: Settings, media: Media, backend: Backend, file: string)
    requires !NeedsSplit(media.size(file))
    ensures Chunks(media, file) == [file]
    ensures FilesText(s, media, backend, [file]) == ChunkText(s, backend, file)
  {
    ConcatMapOne(file, FileTexts(s, media, backend));
    ConcatMapOne(file, ChunkTexts(s, backend));
  }

  /**
   * Each chunk's lines are formatted from that chunk's own segments: the second
   * chunk's timestamps are not shifted by the first chunk's length.
   */
  lemma ChunkLocalTimestamps(s: Settings, backend: Backend, first: string, second: string)
    requires s.timestampFlag
    ensures ChunksText(s, backend, [first, second])
         == TimestampLines(backend.verboseJson(VerboseRequest(s, first)))
          + TimestampLines(backend.verboseJson(VerboseRequest(s, second)))
  {
    assert [first, second] == [first] + [second];
    ConcatMapAppend([first], [second], ChunkTexts(s, backend));
    ConcatMapOne(first, ChunkTexts(s, backend));
    ConcatMapOne(second, ChunkTexts(s, backend));
  }

  /** One turn of the loop over the files: the file's chunks' texts extend the transcript. */
  lemma FileStep(s: Settings, media: Media, backend: Backend, files: seq<string>, i: nat, chunks: seq<string>,
                 start: string, before: string, after: string)
    requires i < |files| && chunks == Chunks(media, files[i])
    requires before == start + FilesText(s, media, backend, files[..i])
    requires after == before + ChunksText(s, backend, chunks)
    ensures after == start + FilesText(s, media, backend, files[..i + 1])
  {
    ConcatMapSnoc(files, i, FileTexts(s, media, backend));
  }

  class WhisperTranscriptionCaller {
    const apiKey: string
    const audioFiles: seq<string>
    const timestampFlag: bool
    const language: string
    const model: string
    const prompt: string

    /** The transcript built so far; only ever appended to. */
    var transcription: string

    constructor(apiKey: string, audioFiles: seq<string>, timestampFlag: bool)
      ensures this.apiKey == apiKey && this.audioFiles == audioFiles && this.timestampFlag == timestampFlag
      ensures transcription == "" && language == DefaultLanguage && model == DefaultModel && prompt == DefaultPrompt
      ensures Configured() == DefaultSettings(timestampFlag)
    {
      this.apiKey := apiKey;
      this.audioFiles := audioFiles;
      this.timestampFlag := timestampFlag;
      transcription := "";
      language := DefaultLanguage;
      model := DefaultModel;
      prompt := DefaultPrompt;
    }

    /** The settings this caller sends its requests with. */
    function Configured(): Settings {
      Settings(model, language, prompt, timestampFlag)
    }

    /** `create`: the backend's plain text, unchanged. */
    method Create(file: string, backend: Backend) returns (text: string)
      ensures text == backend.json(JsonRequest(Configured(), file))
    {
      text := backend.json(Request(file, model, language, "json", None));
    }

    /** `create_with_timestamp`: one line per returned segment, appended in order. */
    method CreateWithTimestamp(file: string, backend: Backend) returns (result: string)
      ensures result == TimestampLines(backend.verboseJson(VerboseRequest(Configured(), file)))
    {
      var segments := backend.verboseJson(Request(file, model, language, "verbose_json", Some(prompt)));
      result := "";
      for i := 0 to |segments|
        invariant result == TimestampLines(segments[..i])
      {
        var text := segments[i].text;
        var endsec := Trunc(segments[i].start);
        var timestamp := Timedelta.Str(endsec);
        var line := "[" + timestamp + "] " + text + "\n";
        assert line == SegmentLine(segments[i]);
        ConcatMapSnoc(segments, i, SegmentLine);
        result := result + line;
      }
      assert segments[..|segments|] == segments;
    }

    /** `transcribe_single_file`: the mode is chosen by `timestamp_flag`. */
    method TranscribeSingleFile(file: string, backend: Backend) returns (transcript: string)
      ensures transcript == ChunkText(Configured(), backend, file)
    {
      if timestampFlag {
        transcript := CreateWithTimestamp(file, backend);
      } else {
        transcript := Create(file, backend);
      }
    }

    /**
     * `split_audio(input_file, max_size)`: the listing of `work/` after the split is
     * filtered to the chunk names, joined under `work/`, and sorted.
     */
    method SplitAudio(inputFile: string, maxSize: nat, media: Media) returns (files: seq<string>)
      requires media.size(inputFile) > 0
      ensures files == ChunkFiles(media, inputFile, maxSize)
      ensures Sorted(files)
      ensures multiset(files)
           == multiset(ChunkPaths(media.workListing(inputFile, TargetDuration(media.duration(inputFile), maxSize, media.size(inputFile)))))
    {
      var duration := media.duration(inputFile);
      var size := media.size(inputFile);
      var targetDuration := TargetDuration(duration, maxSize, size);
      var listing := media.workListing(inputFile, targetDuration);
      var splitFiles: seq<string> := [];
      for i := 0 to |listing|
        invariant splitFiles == ChunkPaths(listing[..i])
      {
        var filename := listing[i];
        ChunkPathsSnoc(listing, i);
        if StartsWith(filename, "split") && EndsWith(filename, ".mp3") {
          splitFiles := splitFiles + [Join(WorkDir, filename)];
        }
      }
      assert listing[..|listing|] == listing;
      files := Sort(splitFiles);
    }

    /**
     * The inner loop of `transcribe_audio_files`: each chunk of one file, in order,
     * is transcribed; the texts are returned joined, to be appended to the transcript.
     */
    method TranscribeCroppedFiles(croppedFiles: seq<string>, backend: Backend) returns (text: string)
      ensures text == ChunksText(Configured(), backend, croppedFiles)
    {
      text := "";
      for j := 0 to |croppedFiles|
        invariant text == ChunksText(Configured(), backend, croppedFiles[..j])
      {
        var chunkText := TranscribeSingleFile(croppedFiles[j], backend);
        ConcatMapSnoc(croppedFiles, j, ChunkTexts(Configured(), backend));
        text := text + chunkText;
      }
      assert croppedFiles[..|croppedFiles|] == croppedFiles;
    }

    /**
     * `transcribe_audio_files`: every file, in order, is split when larger than 20 MiB
     * and each of its chunks, in order, is transcribed and appended.
     */
    method TranscribeAudioFiles(media: Media, backend: Backend) returns (result: string)
      modifies this`transcription
      ensures transcription == old(transcription) + FilesText(Configured(), media, backend, audioFiles)
      ensures result == transcription
    {
      for i := 0 to |audioFiles|
        invariant transcription == old(transcription) + FilesText(Configured(), media, backend, audioFiles[..i])
      {
        var audioFile := audioFiles[i];
        var croppedFiles: seq<string>;
        if media.size(audioFile) > 20 * 1024 * 1024 {
          croppedFiles := SplitAudio(audioFile, 5 * 1024 * 1024, media);
        } else {
          croppedFiles := [audioFile];
        }
        ghost var before := transcription;
        var text := TranscribeCroppedFiles(croppedFiles, backend);
        transcription := transcription + text;
        FileStep(Configured(), media, backend, audioFiles, i, croppedFiles, old(transcription), before, transcription);
      }
      assert audioFiles[..|audioFiles|] == audioFiles;
      result := transcription;
    }
  }
}
