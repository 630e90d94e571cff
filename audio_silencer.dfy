/**
 * Silence removal: the audio track of the input is extracted into a fresh temporary
 * directory, the pieces that pydub's `split_on_silence` keeps are concatenated in
 * order, and the result is exported next to the extracted file under a derived name.
 */
module AudioSilencer {
  import opened Paths

  /** One millisecond of decoded audio (pydub measures `len(segment)` in milliseconds). */
  type Frame = int

  /** A decoded `AudioSegment`: its frames, one per millisecond. */
  type Audio = seq<Frame>

  /** The parameters handed to `split_on_silence`: lengths in milliseconds, threshold in dBFS. */
  datatype SilenceProfile = SilenceProfile(minSilenceLen: nat, silenceThresh: int, keepSilence: nat)

  /** The profile `remove_silence` always uses. */
  const Profile := SilenceProfile(100, -55, 100)

  /** The suffix `remove_silence_multiple` gives its outputs by default. */
  const DefaultSuffix := "_silenced.mp3"

  /**
   * What the audio library does, taken as given: `load` is `AudioSegment.from_file`,
   * `splitOnSilence` is `split_on_silence` (the non-silent pieces, padded, in order).
   */
  datatype Decoder = Decoder(load: string -> Audio, splitOnSilence: (Audio, SilenceProfile) -> seq<Audio>)

  /** `AudioSegment.empty()` followed by `+=` of every chunk. */
  function Concat(chunks: seq<Audio>): Audio {
    if chunks == [] then [] else Concat(chunks[..|chunks| - 1]) + chunks[|chunks| - 1]
  }

  function TotalLength(chunks: seq<Audio>): nat {
    if chunks == [] then 0 else TotalLength(chunks[..|chunks| - 1]) + |chunks[|chunks| - 1]|
  }

  /** The silenced audio is as long as the chunks together. */
  lemma {:induction false} ConcatLength(chunks: seq<Audio>)
    ensures |Concat(chunks)| == TotalLength(chunks)
  {
    if chunks != [] {
      ConcatLength(chunks[..|chunks| - 1]);
    }
  }

  /** Every chunk appears whole and in order: concatenation distributes over `+`. */
  lemma {:induction false} ConcatAppend(a: seq<Audio>, b: seq<Audio>)
    ensures Concat(a + b) == Concat(a) + Concat(b)
    decreases |b|
  {
    if b == [] {
      assert a + b == a;
    } else {
      assert (a + b)[..|a + b| - 1] == a + b[..|b| - 1];
      ConcatAppend(a, b[..|b| - 1]);
    }
  }

  /** The audio `remove_silence` exports for an input file. */
  function Silenced(decoder: Decoder, inputPath: string): Audio {
    Concat(decoder.splitOnSilence(decoder.load(inputPath), Profile))
  }

  /** `os.path.splitext(input)[0] + suffix` */
  function SilencedName(inputFile: string, suffix: string): string {
    Splitext(inputFile).0 + suffix
  }

  /** The file `exec` extracts the audio track into. */
  function ExtractedPath(tempDir: string): string {
    Join(tempDir, "audio.mp3")
  }

  /** The silenced name of the extracted track sits in the same temporary directory. */
  lemma SilencedNameOfExtracted(tempDir: string)
    ensures SilencedName(ExtractedPath(tempDir), DefaultSuffix) == Join(tempDir, "audio_silenced.mp3")
  {
    assert "audio" + "." + "mp3" == "audio.mp3";
    assert "audio" + DefaultSuffix == "audio_silenced.mp3";
    SplitextOfJoin(tempDir, "audio", "mp3", DefaultSuffix);
  }

  class AudioSilencer {
    const inputPath: string

    constructor(inputPath: string)
      ensures this.inputPath == inputPath
    {
      this.inputPath := inputPath;
    }

    /**
     * `remove_silence(input_path, output_path)`: the chunks found with the fixed
     * profile, concatenated in order; the method returns the audio it exports.
     */
    method RemoveSilence(inputPath: string, decoder: Decoder) returns (noSilenceAudio: Audio)
      ensures noSilenceAudio == Silenced(decoder, inputPath)
      ensures |noSilenceAudio| == TotalLength(decoder.splitOnSilence(decoder.load(inputPath), Profile))
    {
      var sound := decoder.load(inputPath);
      var chunks := decoder.splitOnSilence(sound, Profile);
      noSilenceAudio := [];
      for i := 0 to |chunks|
        invariant noSilenceAudio == Concat(chunks[..i])
      {
        assert chunks[..i + 1][..i] == chunks[..i];
        noSilenceAudio := noSilenceAudio + chunks[i];
      }
      assert chunks[..|chunks|] == chunks;
      ConcatLength(chunks);
    }

    /**
     * `remove_silence_multiple(input_files, suffix)`: one output per input, in order,
     * named `splitext(input)[0] + suffix`; `exported[i]` is what was written to `newfiles[i]`.
     */
    method RemoveSilenceMultiple(inputFiles: seq<string>, decoder: Decoder, suffix: string := DefaultSuffix)
      returns (newfiles: seq<string>, exported: seq<Audio>)
      ensures |newfiles| == |inputFiles| && |exported| == |inputFiles|
      ensures forall i :: 0 <= i < |inputFiles| ==> newfiles[i] == SilencedName(inputFiles[i], suffix)
      ensures forall i :: 0 <= i < |inputFiles| ==> exported[i] == Silenced(decoder, inputFiles[i])
    {
      newfiles, exported := [], [];
      for i := 0 to |inputFiles|
        invariant |newfiles| == i && |exported| == i
        invariant forall k :: 0 <= k < i ==> newfiles[k] == SilencedName(inputFiles[k], suffix)
        invariant forall k :: 0 <= k < i ==> exported[k] == Silenced(decoder, inputFiles[k])
      {
        var body := Splitext(inputFiles[i]).0;
        var newfile := body + suffix;
        var audio := RemoveSilence(inputFiles[i], decoder);
        newfiles := newfiles + [newfile];
        exported := exported + [audio];
      }
    }

    /**
     * `exec()`: the track extracted into `tempDir` (the directory `mkdtemp` created)
     * is silenced, and the one-element list of silenced files is returned.
     */
    method Exec(tempDir: string, decoder: Decoder) returns (silencedFiles: seq<string>, exported: seq<Audio>)
      ensures silencedFiles == [Join(tempDir, "audio_silenced.mp3")]
      ensures exported == [Silenced(decoder, ExtractedPath(tempDir))]
    {
      var mp3File := Join(tempDir, "audio.mp3");
      silencedFiles, exported := RemoveSilenceMultiple([mp3File], decoder);
      SilencedNameOfExtracted(tempDir);
    }
  }
}
