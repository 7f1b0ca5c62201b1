/** audio_2_word_app.py without its Kivy GUI: the older, self-contained copy
    of conversion, chunking and transcription, and its background worker.

    It differs from the transcriber package in the ways the code shows: the
    conversion never skips a .wav input, the chunks are written next to the
    WAV file and found through os.path.dirname, the model is loaded once per
    file, the transcript is one paragraph of combined text, and progress is
    reported after every file the worker starts, whether or not a document
    was saved. The log queue is the worker's own; every module-level
    function of the source puts its lines on it. An exception that nothing
    catches ends the worker thread; the state records that it was raised. */
module LegacyApp {
  import opened Wrappers
  import opened Text
  import opened Sorting
  import opened Paths
  import opened Docx
  import FfmpegUtils
  import WhisperUtils
  import Worker

  /** CHUNK_AUDIO and CHUNK_LENGTH. */
  const ChunkAudio: bool := true
  const ChunkLength: int := 300

  /** The constructor arguments. */
  datatype Config = Config(
    inputFiles: seq<string>,
    outDir: string,
    modelName: string,
    device: string,
    sampleRate: int,
    channels: int)

  /** What a run can change: the two queues, the stop event, the number of
      stop checks so far, the saved documents, the filesystem, and whether an
      exception has left the thread's run method. */
  datatype State = State(
    logQueue: seq<string>,
    progress: seq<(nat, nat)>,
    stopSet: bool,
    checks: nat,
    saved: seq<SavedDoc>,
    fs: set<string>,
    raised: bool)

  /** _log(log_queue, msg) with a queue given. */
  function Logged(st: State, msg: string): State
  {
    st.(logQueue := st.logQueue + [msg])
  }

  function Emitted(st: State, lines: seq<string>): State
  {
    st.(logQueue := st.logQueue + lines)
  }

  /** What the next stop_event.is_set() returns. */
  predicate StopSeen(st: State, env: Worker.Env)
  {
    st.stopSet || (env.stopFrom.Some? && st.checks >= env.stopFrom.value)
  }

  function Checked(st: State, env: Worker.Env): State
  {
    st.(stopSet := StopSeen(st, env), checks := st.checks + 1)
  }

  // ---------------------------------------------------------------------------
  // convert_to_wav_ffmpeg

  /** The older conversion: always splitext(input)[0] + ".wav", removing a
      file of that name first. */
  function ConvertToWav(input: string, sampleRate: int, channels: int, fs: set<string>,
                        ffmpeg: (seq<string>, set<string>) -> FfmpegUtils.ToolResult): FfmpegUtils.Converted
  {
    var output := FfmpegUtils.WavPath(input);
    match ffmpeg(FfmpegUtils.ConvertCommand(input, output, sampleRate, channels), fs - {output})
    case Completed(fs1) => FfmpegUtils.Converted(Some(output), fs1, ["Converted '" + input + "' -> '" + output + "'"])
    case Failed(fs1, e) => FfmpegUtils.Converted(None, fs1, FfmpegUtils.SubprocessErrorLines(e))
  }

  /** ffmpeg always runs, without any file at the output path; the result is
      that path when it exits with status 0 and None otherwise. */
  lemma ConvertResult(input: string, sampleRate: int, channels: int, fs: set<string>,
                      ffmpeg: (seq<string>, set<string>) -> FfmpegUtils.ToolResult)
    ensures var out := FfmpegUtils.WavPath(input);
            var tool := ffmpeg(FfmpegUtils.ConvertCommand(input, out, sampleRate, channels), fs - {out});
            var r := ConvertToWav(input, sampleRate, channels, fs, ffmpeg);
            && r.fs == tool.fs
            && (r.wav == Some(out) <==> tool.Completed?)
            && (r.wav == None <==> tool.Failed?)
            && (tool.Failed? ==> r.logs == FfmpegUtils.SubprocessErrorLines(tool.error))
  {
  }

  /** A ".wav" input is its own output path, so the removal before running
      ffmpeg deletes the very file ffmpeg is told to read. */
  lemma ConvertDeletesWavInput(input: string, sampleRate: int, channels: int, fs: set<string>)
    requires SplitExt(input).1 == ".wav" && input in fs
    ensures FfmpegUtils.WavPath(input) == input
    ensures FfmpegUtils.ConvertCommand(input, FfmpegUtils.WavPath(input), sampleRate, channels)[3] == input
    ensures input !in fs - {FfmpegUtils.WavPath(input)}
  {
    assert SplitExt(input).0 + SplitExt(input).1 == input;
  }

  // ---------------------------------------------------------------------------
  // chunk_wav_file

  /** What chunk_wav_file returns, leaves on disk and logs, and whether it
      raised. */
  datatype Split = Split(chunks: seq<string>, fs: set<string>, logs: seq<string>, raised: bool)

  /** fname_: the name of the file without its extension. */
  function ChunkPrefix(file: string): string
  {
    BaseName(SplitExt(file).0)
  }

  /** The segment pattern keeps the whole path: the chunks go next to the
      file. */
  function SegmentCommand(file: string, chunkLength: int): seq<string>
  {
    ["ffmpeg", "-y", "-i", file, "-f", "segment", "-segment_time", IntStr(chunkLength),
     "-acodec", "pcm_s16le", "-ar", "16000", "-ac", "1",
     SplitExt(file).0 + "_chunk_%03d.wav"]
  }

  /** The older chunk_wav_file. For a file without a directory part
      os.path.dirname gives "", and os.listdir("") raises FileNotFoundError,
      which nothing catches. */
  ghost function ChunkWav(file: string, chunkLength: int, fs: set<string>,
                          ffprobe: (seq<string>, set<string>) -> FfmpegUtils.ProbeOutcome,
                          ffmpeg: (seq<string>, set<string>) -> FfmpegUtils.ToolResult): Split
  {
    var probe := FfmpegUtils.DurationSeconds(file, fs, ffprobe);
    if probe.seconds <= 0.0 then
      if probe.raised then Split([], fs, probe.logs, true)
      else Split([file], fs, probe.logs + ["Couldn't read duration for '" + file + "', skipping split."], false)
    else if probe.seconds <= chunkLength as real then
      Split([file], fs, probe.logs + ["No chunking needed for '" + file + "'."], false)
    else
      var d := DirName(file);
      var name := ChunkPrefix(file);
      if d == "" then Split([], fs, probe.logs, true)
      else
        match ffmpeg(SegmentCommand(file, chunkLength), fs - FfmpegUtils.StaleChunks(fs, d, name))
        case Failed(fs1, e) => Split([file], fs1, probe.logs + FfmpegUtils.SubprocessErrorLines(e), false)
        case Completed(fs1) =>
          var chunks := FfmpegUtils.Collect(SortedEntries(fs1, d), d, name);
          Split(chunks, fs1, probe.logs + ["Split '" + file + "' into " + NatStr(|chunks|) + " chunks."], false)
  }

  /** chunk_wav_file: the cleanup loop over the listing of the file's
      directory and the loop collecting the sorted chunk names. */
  method ChunkWavFile(file: string, chunkLength: int, fs: set<string>,
                      ffprobe: (seq<string>, set<string>) -> FfmpegUtils.ProbeOutcome,
                      ffmpeg: (seq<string>, set<string>) -> FfmpegUtils.ToolResult)
    returns (chunks: seq<string>, fs': set<string>, logs: seq<string>, raised: bool)
    ensures Split(chunks, fs', logs, raised) == ChunkWav(file, chunkLength, fs, ffprobe, ffmpeg)
  {
    var probe := FfmpegUtils.DurationSeconds(file, fs, ffprobe);
    if probe.seconds <= 0.0 {
      if probe.raised {
        return [], fs, probe.logs, true;
      }
      return [file], fs, probe.logs + ["Couldn't read duration for '" + file + "', skipping split."], false;
    }
    if probe.seconds <= chunkLength as real {
      return [file], fs, probe.logs + ["No chunking needed for '" + file + "'."], false;
    }
    var d := DirName(file);
    var name := ChunkPrefix(file);
    if d == "" {
      return [], fs, probe.logs, true;
    }
    var cleaned := FfmpegUtils.RemoveStaleChunks(fs, d, name);
    var tool := ffmpeg(SegmentCommand(file, chunkLength), cleaned);
    if tool.Failed? {
      return [file], tool.fs, probe.logs + FfmpegUtils.SubprocessErrorLines(tool.error), false;
    }
    chunks := FfmpegUtils.CollectChunks(tool.fs, d, name);
    fs', raised := tool.fs, false;
    logs := probe.logs + ["Split '" + file + "' into " + NatStr(|chunks|) + " chunks."];
  }

  /** No split when the duration could not be read or the file is no longer
      than one chunk: nothing changes on disk, and unless the probe raised,
      the file is the only chunk. */
  lemma ChunkShort(file: string, chunkLength: int, fs: set<string>,
                   ffprobe: (seq<string>, set<string>) -> FfmpegUtils.ProbeOutcome,
                   ffmpeg: (seq<string>, set<string>) -> FfmpegUtils.ToolResult)
    requires var d := FfmpegUtils.DurationSeconds(file, fs, ffprobe).seconds; d <= 0.0 || d <= chunkLength as real
    ensures var r := ChunkWav(file, chunkLength, fs, ffprobe, ffmpeg);
            && r.fs == fs
            && r.raised == FfmpegUtils.DurationSeconds(file, fs, ffprobe).raised
            && (!r.raised ==> r.chunks == [file])
  {
  }

  /** Splitting raises exactly when ffprobe fails with captured output, or
      for a file longer than one chunk whose path has no directory part. */
  lemma ChunkRaises(file: string, chunkLength: int, fs: set<string>,
                    ffprobe: (seq<string>, set<string>) -> FfmpegUtils.ProbeOutcome,
                    ffmpeg: (seq<string>, set<string>) -> FfmpegUtils.ToolResult)
    ensures var d := FfmpegUtils.DurationSeconds(file, fs, ffprobe).seconds;
            ChunkWav(file, chunkLength, fs, ffprobe, ffmpeg).raised
            <==> FfmpegUtils.ProbeRaises(ffprobe(FfmpegUtils.ProbeCommand(file), fs))
                 || (d > 0.0 && d > chunkLength as real && DirName(file) == "")
  {
    FfmpegUtils.DurationAsWritten(file, fs, ffprobe);
  }

  /** A longer file in a directory is split by ffmpeg after the stale chunks
      of that directory are removed; if ffmpeg fails the file is the only
      chunk, and otherwise the chunks are exactly the chunk-named files of
      the file's own directory, in increasing str order. */
  lemma ChunkLong(file: string, chunkLength: int, fs: set<string>,
                  ffprobe: (seq<string>, set<string>) -> FfmpegUtils.ProbeOutcome,
                  ffmpeg: (seq<string>, set<string>) -> FfmpegUtils.ToolResult)
    requires var d := FfmpegUtils.DurationSeconds(file, fs, ffprobe).seconds; d > 0.0 && d > chunkLength as real
    requires DirName(file) != ""
    ensures var d := DirName(file);
            var name := ChunkPrefix(file);
            var tool := ffmpeg(SegmentCommand(file, chunkLength), fs - FfmpegUtils.StaleChunks(fs, d, name));
            var r := ChunkWav(file, chunkLength, fs, ffprobe, ffmpeg);
            && !r.raised && r.fs == tool.fs
            && (tool.Failed? ==> r.chunks == [file])
            && (tool.Completed? ==>
                  && StrictlySorted(r.chunks)
                  && forall p :: p in r.chunks <==> p in tool.fs && IsEntry(p, d) && FfmpegUtils.IsChunkName(name, EntryName(p, d)))
  {
    var d := DirName(file);
    var name := ChunkPrefix(file);
    var tool := ffmpeg(SegmentCommand(file, chunkLength), fs - FfmpegUtils.StaleChunks(fs, d, name));
    if tool.Completed? {
      var names := SortedEntries(tool.fs, d);
      FfmpegUtils.CollectSorted(names, d, name);
      forall p ensures p in FfmpegUtils.Collect(names, d, name) <==> p in tool.fs && IsEntry(p, d) && FfmpegUtils.IsChunkName(name, EntryName(p, d)) {
        FfmpegUtils.CollectMembers(names, d, name, p);
        if IsEntry(p, d) {
          EntriesExactly(tool.fs, d, EntryName(p, d));
        }
      }
    }
  }

  // ---------------------------------------------------------------------------
  // transcribe_chunked

  /** What chunk i adds to combined_text: its text (empty when the result has
      none) and a newline, or nothing when transcribe raised. */
  function ChunkText(outcome: WhisperUtils.TranscribeOutcome): string
  {
    match outcome
    case Transcribed(t, _) => (if t.Some? then t.value else "") + "\n"
    case TranscribeError(_) => ""
  }

  /** The line logged after chunk i was transcribed or failed. */
  function ChunkOutcomeLine(chunks: seq<string>, i: nat, outcome: WhisperUtils.TranscribeOutcome): string
    requires i < |chunks|
  {
    match outcome
    case Transcribed(t, _) =>
      "Chunk " + NatStr(i + 1) + "/" + NatStr(|chunks|) + " length: "
      + NatStr(|if t.Some? then t.value else ""|) + " characters."
    case TranscribeError(m) => "Error transcribing '" + chunks[i] + "': " + m
  }

  /** The state after the stop check found the event clear and chunk i was
      announced and transcribed. */
  function ChunkNext(env: Worker.Env, st: State, chunks: seq<string>, i: nat): State
    requires i < |chunks|
  {
    var st1 := Logged(Checked(st, env), "Transcribing chunk " + NatStr(i + 1) + "/" + NatStr(|chunks|) + ": " + chunks[i]);
    Logged(st1, ChunkOutcomeLine(chunks, i, env.whisper(chunks[i])))
  }

  /** The chunk loop from chunk i on: the state and combined_text afterwards. */
  function ChunkLoop(env: Worker.Env, st: State, text: string, chunks: seq<string>, i: nat): (State, string)
    requires i <= |chunks|
    decreases |chunks| - i
  {
    if i == |chunks| then (st, text)
    else if StopSeen(st, env) then (Logged(Checked(st, env), "Stop event triggered. Halting transcription."), text)
    else ChunkLoop(env, ChunkNext(env, st, chunks, i), text + ChunkText(env.whisper(chunks[i])), chunks, i + 1)
  }

  /** The index of the first chunk the loop from i on does not transcribe,
      or the number of chunks. Worker.ChunksDone is its twin over the newer
      worker's state and chunk step. */
  function ChunksDone(env: Worker.Env, st: State, chunks: seq<string>, i: nat): (j: nat)
    requires i <= |chunks|
    ensures i <= j <= |chunks|
    decreases |chunks| - i
  {
    if i == |chunks| || StopSeen(st, env) then i
    else ChunksDone(env, ChunkNext(env, st, chunks, i), chunks, i + 1)
  }

  /** The texts of chunks lo..hi-1, each followed by a newline, skipping the
      chunks whose transcription failed. */
  function Texts(env: Worker.Env, chunks: seq<string>, lo: nat, hi: nat): string
    requires lo <= hi <= |chunks|
    decreases hi - lo
  {
    if lo == hi then "" else ChunkText(env.whisper(chunks[lo])) + Texts(env, chunks, lo + 1, hi)
  }

  /** combined_text is the in-order concatenation of the texts of the chunks
      transcribed before the loop ended. */
  lemma {:induction false} ChunkLoopText(env: Worker.Env, st: State, text: string, chunks: seq<string>, i: nat)
    requires i <= |chunks|
    ensures ChunkLoop(env, st, text, chunks, i).1 == text + Texts(env, chunks, i, ChunksDone(env, st, chunks, i))
    decreases |chunks| - i
  {
    if i < |chunks| && !StopSeen(st, env) {
      var c := ChunkText(env.whisper(chunks[i]));
      var next := ChunkNext(env, st, chunks, i);
      ChunkLoopText(env, next, text + c, chunks, i + 1);
      var rest := Texts(env, chunks, i + 1, ChunksDone(env, next, chunks, i + 1));
      ConcatAssoc(text, c, rest);
    }
  }

  /** The loop changes only the log queue and the stop event, and keeps the
      event clear when nobody sets it. */
  lemma {:induction false} ChunkLoopFrame(env: Worker.Env, st: State, text: string, chunks: seq<string>, i: nat)
    requires i <= |chunks|
    ensures var r := ChunkLoop(env, st, text, chunks, i).0;
            && r.progress == st.progress && r.saved == st.saved && r.fs == st.fs && r.raised == st.raised
            && st.logQueue <= r.logQueue
            && (env.stopFrom.None? && !st.stopSet ==> !r.stopSet && ChunksDone(env, st, chunks, i) == |chunks|)
    decreases |chunks| - i
  {
    if i < |chunks| && !StopSeen(st, env) {
      var next := ChunkNext(env, st, chunks, i);
      ChunkLoopFrame(env, next, text + ChunkText(env.whisper(chunks[i])), chunks, i + 1);
    }
  }

  /** A loop that ends early ends because the stop check found the event
      set, and its last line says so. */
  lemma {:induction false} ChunkLoopStopped(env: Worker.Env, st: State, text: string, chunks: seq<string>, i: nat)
    requires i <= |chunks|
    ensures var r := ChunkLoop(env, st, text, chunks, i).0;
            ChunksDone(env, st, chunks, i) < |chunks| ==>
              r.stopSet && r.logQueue != [] && Last(r.logQueue) == "Stop event triggered. Halting transcription."
    decreases |chunks| - i
  {
    if i < |chunks| && !StopSeen(st, env) {
      var next := ChunkNext(env, st, chunks, i);
      ChunkLoopStopped(env, next, text + ChunkText(env.whisper(chunks[i])), chunks, i + 1);
    }
  }

  /** transcribe_chunked: the chunks (the whole file when chunking is off),
      one model load, the chunk loop and the closing length line. */
  ghost function TranscribeSpec(cfg: Config, env: Worker.Env, st: State, wav: string, chunkAudio: bool): (State, string)
  {
    var split := if chunkAudio then ChunkWav(wav, ChunkLength, st.fs, env.ffprobe, env.ffmpeg) else Split([wav], st.fs, [], false);
    var st1 := Emitted(st, split.logs).(fs := split.fs, raised := split.raised);
    if split.raised then (st1, "")
    else
      var st2 := Logged(st1, "Loading Whisper model '" + cfg.modelName + "' on device=" + cfg.device + " with verbose=True ...");
      match env.modelLoad
      case LoadError(e) => (Logged(st2, "Error loading model '" + cfg.modelName + "': " + e), "")
      case Loaded =>
        var (st3, text) := ChunkLoop(env, st2, "", split.chunks, 0);
        (Logged(st3, "Total combined transcript length: " + NatStr(|text|) + " characters."), text)
  }

  /** The chunks transcribe_chunked works on. */
  ghost function SplitOf(env: Worker.Env, wav: string, fs: set<string>, chunkAudio: bool): Split
  {
    if chunkAudio then ChunkWav(wav, ChunkLength, fs, env.ffprobe, env.ffmpeg) else Split([wav], fs, [], false)
  }

  /** The state the chunk loop starts from. */
  ghost function LoopStart(cfg: Config, env: Worker.Env, st: State, wav: string, chunkAudio: bool): State
  {
    var split := SplitOf(env, wav, st.fs, chunkAudio);
    Logged(Emitted(st, split.logs).(fs := split.fs, raised := split.raised),
           "Loading Whisper model '" + cfg.modelName + "' on device=" + cfg.device + " with verbose=True ...")
  }

  /** With the model loaded, the transcript is the texts of the chunks
      transcribed before any stop, in order (all of them when nobody sets the
      stop event), and the last line gives its length. Failing to load the
      model gives the empty transcript. */
  lemma TranscribeText(cfg: Config, env: Worker.Env, st: State, wav: string, chunkAudio: bool)
    requires !SplitOf(env, wav, st.fs, chunkAudio).raised
    ensures var split := SplitOf(env, wav, st.fs, chunkAudio);
            var start := LoopStart(cfg, env, st, wav, chunkAudio);
            var (r, text) := TranscribeSpec(cfg, env, st, wav, chunkAudio);
            && (env.modelLoad.LoadError? ==> text == "" && Last(r.logQueue) == "Error loading model '" + cfg.modelName + "': " + env.modelLoad.message)
            && (env.modelLoad.Loaded? ==>
                  && text == Texts(env, split.chunks, 0, ChunksDone(env, start, split.chunks, 0))
                  && Last(r.logQueue) == "Total combined transcript length: " + NatStr(|text|) + " characters."
                  && (env.stopFrom.None? && !st.stopSet ==> text == Texts(env, split.chunks, 0, |split.chunks|)))
  {
    var split := SplitOf(env, wav, st.fs, chunkAudio);
    var start := LoopStart(cfg, env, st, wav, chunkAudio);
    if env.modelLoad.Loaded? {
      assert TranscribeSpec(cfg, env, st, wav, chunkAudio).1 == ChunkLoop(env, start, "", split.chunks, 0).1;
      ChunkLoopText(env, start, "", split.chunks, 0);
      ChunkLoopFrame(env, start, "", split.chunks, 0);
      assert "" + Texts(env, split.chunks, 0, ChunksDone(env, start, split.chunks, 0))
             == Texts(env, split.chunks, 0, ChunksDone(env, start, split.chunks, 0));
    }
  }

  /** With chunking off, the WAV file is the one chunk: with the model loaded
      and no stop, the transcript is its text and a newline, or empty when
      its transcription failed. */
  lemma TranscribeWhole(cfg: Config, env: Worker.Env, st: State, wav: string)
    requires env.modelLoad.Loaded? && env.stopFrom.None? && !st.stopSet
    ensures TranscribeSpec(cfg, env, st, wav, false).1 == ChunkText(env.whisper(wav))
  {
    TranscribeText(cfg, env, st, wav, false);
    assert Texts(env, [wav], 1, 1) == "";
    assert ChunkText(env.whisper(wav)) + "" == ChunkText(env.whisper(wav));
  }

  /** transcribe_chunked touches neither the progress queue nor the saved
      documents. */
  lemma TranscribeFrame(cfg: Config, env: Worker.Env, st: State, wav: string, chunkAudio: bool)
    ensures var r := TranscribeSpec(cfg, env, st, wav, chunkAudio).0;
            && r.progress == st.progress && r.saved == st.saved
            && r.raised == SplitOf(env, wav, st.fs, chunkAudio).raised
            && (env.stopFrom.None? && !st.stopSet ==> !r.stopSet)
  {
    var split := SplitOf(env, wav, st.fs, chunkAudio);
    if !split.raised && env.modelLoad.Loaded? {
      ChunkLoopFrame(env, LoopStart(cfg, env, st, wav, chunkAudio), "", split.chunks, 0);
    }
  }

  // ---------------------------------------------------------------------------
  // process_file and the worker's run

  /** process_file: convert, transcribe, save one paragraph of text. */
  ghost function ProcessSpec(cfg: Config, env: Worker.Env, st: State, f: string): State
  {
    var st1 := Logged(st, "Converting '" + f + "' to WAV...");
    var conv := ConvertToWav(f, cfg.sampleRate, cfg.channels, st1.fs, env.ffmpeg);
    var st2 := Emitted(st1, conv.logs).(fs := conv.fs);
    if conv.wav.None? then Logged(st2, "WAV conversion failed for '" + f + "'. Skipping.")
    else SaveSpec(cfg, env, st2, f, conv.wav.value)
  }

  /** Transcribing a converted file and saving its document. */
  ghost function SaveSpec(cfg: Config, env: Worker.Env, st: State, f: string, wav: string): State
  {
    var (st3, text) := TranscribeSpec(cfg, env, st, wav, ChunkAudio);
    SaveText(cfg, st3, f, text)
  }

  /** Saving the transcript of f as one paragraph, unless transcribing it
      raised. */
  function SaveText(cfg: Config, st: State, f: string, text: string): State
  {
    if st.raised then st
    else
      var out := Worker.OutPath(cfg.outDir, f);
      Logged(st.(fs := st.fs + {out}, saved := st.saved + [SavedDoc(out, [Paragraph(text)])]),
             "Saved transcript to '" + out + "'")
  }

  /** A converted file that raises nothing is saved as one paragraph holding
      the transcript, even an empty one (when the model did not load). */
  lemma SaveWritesTranscript(cfg: Config, env: Worker.Env, st: State, f: string, wav: string)
    ensures var r := SaveSpec(cfg, env, st, f, wav);
            var out := Worker.OutPath(cfg.outDir, f);
            && r.progress == st.progress
            && (r.raised ==> r.saved == st.saved)
            && (!r.raised ==>
                  && r.saved == st.saved + [SavedDoc(out, [Paragraph(TranscribeSpec(cfg, env, st, wav, ChunkAudio).1)])]
                  && out in r.fs && Last(r.logQueue) == "Saved transcript to '" + out + "'")
  {
    var (st3, text) := TranscribeSpec(cfg, env, st, wav, ChunkAudio);
    TranscribeFrame(cfg, env, st, wav, ChunkAudio);
    SaveTextWrites(cfg, st3, f, text);
    assert SaveSpec(cfg, env, st, f, wav) == SaveText(cfg, st3, f, text);
  }

  lemma SaveTextWrites(cfg: Config, st: State, f: string, text: string)
    ensures var r := SaveText(cfg, st, f, text);
            var out := Worker.OutPath(cfg.outDir, f);
            && r.progress == st.progress && r.raised == st.raised
            && (r.raised ==> r.saved == st.saved)
            && (!r.raised ==>
                  && r.saved == st.saved + [SavedDoc(out, [Paragraph(text)])]
                  && out in r.fs && Last(r.logQueue) == "Saved transcript to '" + out + "'")
  {
  }

  /** A file whose conversion fails is skipped: nothing is saved and the last
      line says so. */
  lemma ProcessConversionFailed(cfg: Config, env: Worker.Env, st: State, f: string)
    requires !st.raised
    requires ConvertToWav(f, cfg.sampleRate, cfg.channels, st.fs, env.ffmpeg).wav.None?
    ensures var r := ProcessSpec(cfg, env, st, f);
            && r.saved == st.saved && r.progress == st.progress && !r.raised
            && Last(r.logQueue) == "WAV conversion failed for '" + f + "'. Skipping."
  {
  }

  /** process_file never reports progress and raises only through the split. */
  lemma ProcessFrame(cfg: Config, env: Worker.Env, st: State, f: string)
    requires !st.raised
    ensures var r := ProcessSpec(cfg, env, st, f);
            && r.progress == st.progress
            && (env.stopFrom.None? && !st.stopSet ==> !r.stopSet)
  {
    var st1 := Logged(st, "Converting '" + f + "' to WAV...");
    var conv := ConvertToWav(f, cfg.sampleRate, cfg.channels, st1.fs, env.ffmpeg);
    var st2 := Emitted(st1, conv.logs).(fs := conv.fs);
    if conv.wav.Some? {
      TranscribeFrame(cfg, env, st2, conv.wav.value, ChunkAudio);
    }
  }

  /** One iteration of the file loop after its stop check found the event
      clear: progress is reported whatever process_file did, unless it raised. */
  ghost function FileStep(cfg: Config, env: Worker.Env, st: State, idx: nat): State
    requires 1 <= idx <= |cfg.inputFiles|
  {
    var f := cfg.inputFiles[idx - 1];
    var st1 := ProcessSpec(cfg, env, Logged(st, Worker.ProcessingMessage(idx, |cfg.inputFiles|, f)), f);
    if st1.raised then st1 else st1.(progress := st1.progress + [(idx, |cfg.inputFiles|)])
  }

  ghost function FileStepFn(cfg: Config, env: Worker.Env): (State, nat) -> State
  {
    (s: State, i: nat) => if 1 <= i <= |cfg.inputFiles| then FileStep(cfg, env, s, i) else s
  }

  /** A loop over the indexes idx..total that checks the stop event before
      each step, halts when it is set, and ends when a step raises. */
  ghost function StepLoop(step: (State, nat) -> State, env: Worker.Env, total: nat, st: State, idx: nat): State
    decreases total + 1 - idx
  {
    if idx > total then st
    else if StopSeen(st, env) then Logged(Checked(st, env), "Stop requested. Stopping worker.")
    else
      var s := step(Checked(st, env), idx);
      if s.raised then s else StepLoop(step, env, total, s, idx + 1)
  }

  ghost function FileLoop(cfg: Config, env: Worker.Env, st: State, idx: nat): State
  {
    StepLoop(FileStepFn(cfg, env), env, |cfg.inputFiles|, st, idx)
  }

  /** One turn of the file loop, unfolded. */
  lemma FileLoopUnfold(cfg: Config, env: Worker.Env, st: State, idx: nat)
    requires 1 <= idx <= |cfg.inputFiles|
    ensures FileLoop(cfg, env, st, idx)
            == if StopSeen(st, env) then Logged(Checked(st, env), "Stop requested. Stopping worker.")
               else var s := FileStep(cfg, env, Checked(st, env), idx);
                    if s.raised then s else FileLoop(cfg, env, s, idx + 1)
  {
  }

  /** TranscriptionWorker.run */
  ghost function RunSpec(cfg: Config, env: Worker.Env, st: State): State
  {
    if |cfg.inputFiles| == 0 then Logged(st, "No files to process.")
    else
      var r := FileLoop(cfg, env, st, 1);
      if r.raised then r else Logged(r, "Transcription worker finished.")
  }

  /** Progress entries (lo, total), (lo + 1, total), ... with no gap. */
  predicate Consecutive(p: seq<(nat, nat)>, lo: nat, total: nat)
  {
    forall k :: 0 <= k < |p| ==> p[k] == (lo + k, total)
  }

  /** What one step does to progress: report its index unless it raised, and
      keep the event clear when nobody sets it. */
  predicate StepReports(env: Worker.Env, s: State, r: State, i: nat, total: nat)
  {
    && r.progress == (if r.raised then s.progress else s.progress + [(i, total)])
    && (env.stopFrom.None? && !s.stopSet ==> !r.stopSet)
  }

  lemma FileStepReports(cfg: Config, env: Worker.Env, st: State, idx: nat)
    requires 1 <= idx <= |cfg.inputFiles| && !st.raised
    ensures StepReports(env, st, FileStep(cfg, env, st, idx), idx, |cfg.inputFiles|)
  {
    var f := cfg.inputFiles[idx - 1];
    ProcessFrame(cfg, env, Logged(st, Worker.ProcessingMessage(idx, |cfg.inputFiles|, f)), f);
  }

  /** A stop-checked loop whose steps each report their own index reports
      idx, idx + 1, ... with no gap and no repeat, and every index up to
      total when nobody sets the stop event and nothing raises. */
  lemma {:induction false} StepLoopReports(step: (State, nat) -> State, env: Worker.Env, total: nat, st: State, idx: nat)
    requires 1 <= idx <= total + 1 && !st.raised
    requires forall s: State, i: nat :: 1 <= i <= total && !s.raised ==> StepReports(env, s, step(s, i), i, total)
    ensures var r := StepLoop(step, env, total, st, idx);
            && st.progress <= r.progress && Consecutive(r.progress[|st.progress|..], idx, total)
            && (env.stopFrom.None? && !st.stopSet && !r.raised ==> |r.progress| == |st.progress| + total + 1 - idx)
    decreases total + 1 - idx
  {
    var r := StepLoop(step, env, total, st, idx);
    if idx <= total && !StopSeen(st, env) {
      var st1 := Checked(st, env);
      var s := step(st1, idx);
      assert StepReports(env, st1, s, idx, total);
      if !s.raised {
        assert r == StepLoop(step, env, total, s, idx + 1);
        StepLoopReports(step, env, total, s, idx + 1);
        ConsecutiveAfter(st.progress, s.progress, r.progress, idx, total);
      } else {
        assert r.progress[|st.progress|..] == [];
      }
    } else {
      assert r.progress[|st.progress|..] == [];
    }
  }

  /** Reports from lo + 1 on after a report of lo are reports from lo on. */
  lemma ConsecutiveAfter(a: seq<(nat, nat)>, b: seq<(nat, nat)>, c: seq<(nat, nat)>, lo: nat, total: nat)
    requires b == a + [(lo, total)] && b <= c && Consecutive(c[|b|..], lo + 1, total)
    ensures a <= c && Consecutive(c[|a|..], lo, total)
  {
    forall k | 0 <= k < |c[|a|..]| ensures c[|a|..][k] == (lo + k, total) {
      if k > 0 {
        assert c[|a|..][k] == c[|b|..][k - 1];
      }
    }
  }

  /** The worker reports (idx, total) for each file it starts, from the first
      on with no gap, including files whose conversion failed; when nobody
      stops it and nothing raises, that is every file, and the last line is
      the "finished" line. With no files it only logs that. */
  lemma RunProgress(cfg: Config, env: Worker.Env, st: State)
    requires !st.raised
    ensures var r := RunSpec(cfg, env, st);
            var n := |cfg.inputFiles|;
            && st.progress <= r.progress && Consecutive(r.progress[|st.progress|..], 1, n)
            && (n == 0 ==> r == Logged(st, "No files to process."))
            && (n > 0 && !r.raised ==> Last(r.logQueue) == "Transcription worker finished.")
            && (env.stopFrom.None? && !st.stopSet && !r.raised ==> r.progress == st.progress + Reports(n, n))
  {
    var n := |cfg.inputFiles|;
    if n > 0 {
      FileStepsReport(cfg, env);
      StepLoopReports(FileStepFn(cfg, env), env, n, st, 1);
      var r := FileLoop(cfg, env, st, 1);
      AllReported(st.progress, r.progress, n);
    }
  }

  /** Every step of the file loop reports its own index. */
  lemma FileStepsReport(cfg: Config, env: Worker.Env)
    ensures forall s: State, i: nat :: 1 <= i <= |cfg.inputFiles| && !s.raised ==>
              StepReports(env, s, FileStepFn(cfg, env)(s, i), i, |cfg.inputFiles|)
  {
    forall s: State, i: nat | 1 <= i <= |cfg.inputFiles| && !s.raised
      ensures StepReports(env, s, FileStepFn(cfg, env)(s, i), i, |cfg.inputFiles|)
    {
      FileStepReports(cfg, env, s, i);
    }
  }

  /** n consecutive reports from 1 after a prefix are exactly (1, n) ... (n, n). */
  lemma AllReported(a: seq<(nat, nat)>, b: seq<(nat, nat)>, n: nat)
    requires a <= b && Consecutive(b[|a|..], 1, n)
    ensures |b| == |a| + n ==> b == a + Reports(n, n)
  {
    ReportsExactly(b[|a|..], n);
    assert a + b[|a|..] == b;
  }

  /** (1, n), ..., (k, n). */
  function Reports(k: nat, n: nat): (p: seq<(nat, nat)>)
    ensures |p| == k && Consecutive(p, 1, n)
  {
    seq(k, i requires 0 <= i < k => (i + 1, n))
  }

  lemma ReportsExactly(p: seq<(nat, nat)>, n: nat)
    requires Consecutive(p, 1, n)
    ensures p == Reports(|p|, n)
  {
  }

  /** A file whose conversion failed still gets its progress report. */
  lemma FileStepConversionFailed(cfg: Config, env: Worker.Env, st: State, idx: nat)
    requires 1 <= idx <= |cfg.inputFiles| && !st.raised
    requires ConvertToWav(cfg.inputFiles[idx - 1], cfg.sampleRate, cfg.channels, st.fs, env.ffmpeg).wav.None?
    ensures var r := FileStep(cfg, env, st, idx);
            && r.progress == st.progress + [(idx, |cfg.inputFiles|)] && r.saved == st.saved && !r.raised
  {
    var f := cfg.inputFiles[idx - 1];
    ProcessConversionFailed(cfg, env, Logged(st, Worker.ProcessingMessage(idx, |cfg.inputFiles|, f)), f);
  }

  /** A stop requested before the run starts processes no file. */
  lemma RunStoppedBeforeStart(cfg: Config, env: Worker.Env, st: State)
    requires |cfg.inputFiles| > 0 && st.stopSet && !st.raised
    ensures var r := RunSpec(cfg, env, st);
            && r.progress == st.progress && r.saved == st.saved && r.fs == st.fs
            && r.logQueue == st.logQueue + ["Stop requested. Stopping worker.", "Transcription worker finished."]
  {
  }

  // ---------------------------------------------------------------------------
  // The worker object

  class LegacyWorker {
    const inputFiles: seq<string>
    const outDir: string
    const modelName: string
    const device: string
    const sampleRate: int
    const channels: int

    /** What was put on log_queue and progress_queue. */
    var logQueue: seq<string>
    var progressQueue: seq<(nat, nat)>
    var stopEvent: bool
    /** The documents saved, in order. */
    var saved: seq<SavedDoc>

    function Cfg(): Config
    {
      Config(inputFiles, outDir, modelName, device, sampleRate, channels)
    }

    function Snapshot(fs: set<string>, checks: nat, raised: bool): State
      reads this
    {
      State(logQueue, progressQueue, stopEvent, checks, saved, fs, raised)
    }

    constructor (inputFiles: seq<string>, outDir: string, modelName: string, device: string,
                 sampleRate: int, channels: int)
      ensures Cfg() == Config(inputFiles, outDir, modelName, device, sampleRate, channels)
      ensures logQueue == [] && progressQueue == [] && !stopEvent && saved == []
    {
      this.inputFiles := inputFiles;
      this.outDir := outDir;
      this.modelName := modelName;
      this.device := device;
      this.sampleRate := sampleRate;
      this.channels := channels;
      logQueue, progressQueue, stopEvent, saved := [], [], false, [];
    }

    /** _log(self.log_queue, msg) */
    method Log(msg: string)
      modifies this
      ensures logQueue == old(logQueue) + [msg]
      ensures progressQueue == old(progressQueue) && stopEvent == old(stopEvent) && saved == old(saved)
    {
      logQueue := logQueue + [msg];
    }

    /** stop: sets the event; nothing else changes. */
    method Stop()
      modifies this
      ensures stopEvent
      ensures logQueue == old(logQueue) && progressQueue == old(progressQueue) && saved == old(saved)
    {
      stopEvent := true;
    }

    method IsStopSet(env: Worker.Env, checks: nat) returns (seen: bool, checks': nat)
      modifies this
      ensures seen == StopSeen(old(Snapshot({}, checks, false)), env) && checks' == checks + 1
      ensures forall fs, raised :: Snapshot(fs, checks', raised) == Checked(old(Snapshot(fs, checks, raised)), env)
    {
      seen := stopEvent || (env.stopFrom.Some? && checks >= env.stopFrom.value);
      stopEvent := seen;
      checks' := checks + 1;
    }

    /** The chunk loop of transcribe_chunked. */
    method TranscribeChunks(env: Worker.Env, chunks: seq<string>, fs: set<string>, checks: nat)
      returns (text: string, checks': nat)
      modifies this
      ensures (Snapshot(fs, checks', false), text) == ChunkLoop(env, old(Snapshot(fs, checks, false)), "", chunks, 0)
    {
      text, checks' := "", checks;
      var i := 0;
      while i < |chunks|
        invariant 0 <= i <= |chunks|
        invariant ChunkLoop(env, Snapshot(fs, checks', false), text, chunks, i)
                  == ChunkLoop(env, old(Snapshot(fs, checks, false)), "", chunks, 0)
      {
        ghost var before := Snapshot(fs, checks', false);
        var seen;
        seen, checks' := IsStopSet(env, checks');
        if seen {
          Log("Stop event triggered. Halting transcription.");
          assert Snapshot(fs, checks', false) == ChunkLoop(env, before, text, chunks, i).0;
          return;
        }
        Log("Transcribing chunk " + NatStr(i + 1) + "/" + NatStr(|chunks|) + ": " + chunks[i]);
        var outcome := env.whisper(chunks[i]);
        Log(ChunkOutcomeLine(chunks, i, outcome));
        text := text + ChunkText(outcome);
        i := i + 1;
      }
    }

    /** transcribe_chunked, with the worker's queue and stop event. */
    method TranscribeChunked(env: Worker.Env, wav: string, fs: set<string>, checks: nat, chunkAudio: bool)
      returns (text: string, fs': set<string>, checks': nat, raised: bool)
      modifies this
      ensures (Snapshot(fs', checks', raised), text) == TranscribeSpec(Cfg(), env, old(Snapshot(fs, checks, false)), wav, chunkAudio)
    {
      var chunks, logs;
      if chunkAudio {
        chunks, fs', logs, raised := ChunkWavFile(wav, ChunkLength, fs, env.ffprobe, env.ffmpeg);
      } else {
        chunks, fs', logs, raised := [wav], fs, [], false;
      }
      logQueue := logQueue + logs;
      checks' := checks;
      if raised {
        return "", fs', checks', raised;
      }
      Log("Loading Whisper model '" + modelName + "' on device=" + device + " with verbose=True ...");
      if env.modelLoad.LoadError? {
        Log("Error loading model '" + modelName + "': " + env.modelLoad.message);
        return "", fs', checks', raised;
      }
      ghost var start := Snapshot(fs', checks', false);
      text, checks' := TranscribeChunks(env, chunks, fs', checks');
      assert (Snapshot(fs', checks', false), text) == ChunkLoop(env, start, "", chunks, 0);
      Log("Total combined transcript length: " + NatStr(|text|) + " characters.");
    }

    /** process_file for input file f. */
    method ProcessFile(env: Worker.Env, f: string, fs: set<string>, checks: nat)
      returns (fs': set<string>, checks': nat, raised: bool)
      modifies this
      ensures Snapshot(fs', checks', raised) == ProcessSpec(Cfg(), env, old(Snapshot(fs, checks, false)), f)
    {
      Log("Converting '" + f + "' to WAV...");
      var conv := ConvertToWav(f, sampleRate, channels, fs, env.ffmpeg);
      logQueue := logQueue + conv.logs;
      fs', checks', raised := conv.fs, checks, false;
      if conv.wav.None? {
        Log("WAV conversion failed for '" + f + "'. Skipping.");
        return;
      }
      ghost var st2 := Snapshot(fs', checks', false);
      var text;
      text, fs', checks', raised := TranscribeChunked(env, conv.wav.value, fs', checks', ChunkAudio);
      if raised {
        return;
      }
      var out := Worker.OutPath(outDir, f);
      fs' := fs' + {out};
      saved := saved + [SavedDoc(out, [Paragraph(text)])];
      Log("Saved transcript to '" + out + "'");
      assert Snapshot(fs', checks', raised) == SaveSpec(Cfg(), env, st2, f, conv.wav.value);
    }

    /** The loop over the input files of run. */
    method ProcessAll(env: Worker.Env, fs0: set<string>, checks0: nat)
      returns (fs: set<string>, checks: nat, raised: bool)
      modifies this
      ensures Snapshot(fs, checks, raised) == FileLoop(Cfg(), env, old(Snapshot(fs0, checks0, false)), 1)
    {
      fs, checks, raised := fs0, checks0, false;
      var total := |inputFiles|;
      ghost var start := Snapshot(fs, checks, false);
      var idx := 1;
      while idx <= total
        invariant 1 <= idx <= total + 1
        invariant FileLoop(Cfg(), env, Snapshot(fs, checks, false), idx) == FileLoop(Cfg(), env, start, 1)
      {
        ghost var before := Snapshot(fs, checks, false);
        FileLoopUnfold(Cfg(), env, before, idx);
        var seen;
        seen, checks := IsStopSet(env, checks);
        if seen {
          Log("Stop requested. Stopping worker.");
          return;
        }
        ghost var checked := Snapshot(fs, checks, false);
        Log(Worker.ProcessingMessage(idx, total, inputFiles[idx - 1]));
        fs, checks, raised := ProcessFile(env, inputFiles[idx - 1], fs, checks);
        if raised {
          assert Snapshot(fs, checks, raised) == FileStep(Cfg(), env, checked, idx);
          return;
        }
        progressQueue := progressQueue + [(idx, total)];
        assert Snapshot(fs, checks, false) == FileStep(Cfg(), env, checked, idx);
        idx := idx + 1;
      }
    }

    /** run */
    method Run(env: Worker.Env, fs0: set<string>) returns (fs: set<string>, checks: nat, raised: bool)
      modifies this
      ensures Snapshot(fs, checks, raised) == RunSpec(Cfg(), env, old(Snapshot(fs0, 0, false)))
    {
      fs, checks, raised := fs0, 0, false;
      if |inputFiles| == 0 {
        Log("No files to process.");
        return;
      }
      fs, checks, raised := ProcessAll(env, fs, checks);
      if !raised {
        Log("Transcription worker finished.");
      }
    }
  }
}
