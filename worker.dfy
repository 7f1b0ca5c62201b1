/** transcriber/transcription_worker.py: the background worker that converts,
    splits and transcribes each input file and saves one document per file.

    The engines are the oracles of an Env. The stop event is the worker's
    stopEvent field, which Stop sets; another thread may also set it while
    the worker runs, and Env.stopFrom says when: every is_set() check is
    numbered from 0, and the checks numbered stopFrom and later find the event
    set. The log and progress queues are the sequences of what was put on
    them. */
module Worker {
  import opened Wrappers
  import opened Text
  import opened Sorting
  import opened Paths
  import opened FfmpegUtils
  import opened WhisperUtils
  import opened Docx

  /** The constructor arguments. */
  datatype Config = Config(
    inputFiles: seq<string>,
    outDir: string,
    modelName: string,
    device: string,
    sampleRate: int,
    channels: int,
    chunk: bool,
    chunkLength: int)

  /** Everything outside the worker: the engines, and when another thread
      sets the stop event (None: never). */
  datatype Env = Env(
    modelLoad: LoadOutcome,
    ffmpeg: (seq<string>, set<string>) -> ToolResult,
    ffprobe: (seq<string>, set<string>) -> ProbeOutcome,
    whisper: string -> TranscribeOutcome,
    stopFrom: Option<nat>)

  /** What a run can change: the two queues, the message buffer, the stop
      event, the number of stop checks so far, the saved documents, the
      filesystem, and whether an exception has left the thread's run method
      (nothing in run catches one, so the thread ends there). */
  datatype State = State(
    logQueue: seq<string>,
    progress: seq<(nat, nat)>,
    docMessages: seq<string>,
    stopSet: bool,
    checks: nat,
    saved: seq<SavedDoc>,
    fs: set<string>,
    raised: bool)

  // ---------------------------------------------------------------------------
  // Steps of a run, as functions of the state

  /** self._log(msg): the message goes to the log queue and to the buffer. */
  function Logged(st: State, msg: string): State
  {
    st.(logQueue := st.logQueue + [msg], docMessages := st.docMessages + [msg])
  }

  /** Lines that the helpers put on the log queue directly (not buffered). */
  function Emitted(st: State, lines: seq<string>): State
  {
    st.(logQueue := st.logQueue + lines)
  }

  /** What the next stop_event.is_set() returns. */
  predicate StopSeen(st: State, env: Env)
  {
    st.stopSet || (env.stopFrom.Some? && st.checks >= env.stopFrom.value)
  }

  /** The state after one is_set() check. */
  function Checked(st: State, env: Env): State
  {
    st.(stopSet := StopSeen(st, env), checks := st.checks + 1)
  }

  // ---------------------------------------------------------------------------
  // Document text

  function Details(cfg: Config): string
  {
    "Processing Details\n"
    + "Model: " + cfg.modelName + "\n"
    + "Device: " + cfg.device + "\n"
    + "Sample Rate: " + IntStr(cfg.sampleRate) + " Hz\n"
    + "Channels: " + IntStr(cfg.channels) + "\n"
    + (if cfg.chunk then "Chunk Length: " + IntStr(cfg.chunkLength) + " seconds\n" else "")
  }

  /** _create_document: title, details, separator and the section heading. */
  function CreateDocument(cfg: Config, filename: string): seq<Block>
  {
    [Heading("Transcript: " + BaseName(filename), 1),
     Paragraph(Details(cfg)),
     Paragraph(Repeat('=', 80)),
     Heading("Transcription", 2)]
  }

  /** The details list the chunk length exactly when chunking is on. */
  lemma DetailsListChunkLength(cfg: Config)
    ensures EndsWith(Details(cfg), " seconds\n") <==> cfg.chunk
  {
    var d := Details(cfg);
    if cfg.chunk {
      assert d[|d| - 9..] == " seconds\n";
    } else {
      var ch := IntStr(cfg.channels);
      assert d[|d| - 2] == ch[|ch| - 1];
      assert IsDigit(ch[|ch| - 1]);
      assert " seconds\n"[7] == 's';
    }
  }

  /** The bold "[Chunk k] " run, present only when a chunk index is given. */
  function ChunkMarker(chunkIdx: Option<nat>): string
  {
    if chunkIdx.Some? then "[Chunk " + NatStr(chunkIdx.value) + "] " else ""
  }

  /** The timestamp run and the stripped text. */
  function TimedText(seg: WhisperSegment): string
  {
    "[" + FormatTimecode(seg.start) + " - " + FormatTimecode(seg.end) + "] " + Strip(seg.text)
  }

  /** _add_segment_to_doc: the text of the segment's paragraph. */
  function SegmentText(seg: WhisperSegment, chunkIdx: Option<nat>): string
  {
    ChunkMarker(chunkIdx) + TimedText(seg)
  }

  lemma TimedTextShape(seg: WhisperSegment)
    ensures |TimedText(seg)| >= 2 && TimedText(seg)[0] == '['
    ensures TimedText(seg)[1] == '-' || IsDigit(TimedText(seg)[1])
    ensures EndsWith(TimedText(seg), Strip(seg.text))
  {
    TimecodeDigits(seg.start);
    BracketShape(FormatTimecode(seg.start), FormatTimecode(seg.end), Strip(seg.text));
  }

  lemma BracketShape(a: string, b: string, s: string)
    requires a != []
    ensures var t := "[" + a + " - " + b + "] " + s;
            |t| >= 2 && t[0] == '[' && t[1] == a[0] && EndsWith(t, s)
  {
    var x := "[" + a + " - " + b + "] ";
    var t := x + s;
    assert t[|t| - |s|..] == s;
  }

  /** A paragraph starts with a chunk marker exactly when a chunk index is
      given, and always ends with the stripped segment text. */
  lemma SegmentTextShape(seg: WhisperSegment, chunkIdx: Option<nat>)
    ensures StartsWith(SegmentText(seg, chunkIdx), "[Chunk ") <==> chunkIdx.Some?
    ensures chunkIdx.Some? ==> StartsWith(SegmentText(seg, chunkIdx), "[Chunk " + NatStr(chunkIdx.value) + "] ")
    ensures EndsWith(SegmentText(seg, chunkIdx), Strip(seg.text))
  {
    TimedTextShape(seg);
    MarkedShape(ChunkMarker(chunkIdx), TimedText(seg), Strip(seg.text));
    if chunkIdx.Some? {
      assert ChunkMarker(chunkIdx)[..7] == "[Chunk ";
    }
  }

  /** A timed text, beginning "[" then '-' or a digit, keeps its ending under
      any marker and starts with "[Chunk " only when the marker does. */
  lemma MarkedShape(marker: string, rest: string, s: string)
    requires |rest| >= 2 && rest[0] == '[' && (rest[1] == '-' || IsDigit(rest[1])) && EndsWith(rest, s)
    requires marker == "" || (|marker| >= 7 && marker[..7] == "[Chunk ")
    ensures StartsWith(marker + rest, "[Chunk ") <==> marker != ""
    ensures StartsWith(marker + rest, marker)
    ensures EndsWith(marker + rest, s)
  {
    var t := marker + rest;
    assert t[|t| - |s|..] == rest[|rest| - |s|..];
    assert t[..|marker|] == marker;
    if marker == "" {
      assert t == rest;
      if |t| >= 7 {
        assert t[..7][1] == t[1];
      }
    } else {
      assert t[..7] == marker[..7];
    }
  }

  /** One paragraph per segment, in order. */
  function SegmentBlocks(segs: seq<WhisperSegment>, chunkIdx: Option<nat>): seq<Block>
  {
    seq(|segs|, k requires 0 <= k < |segs| => Paragraph(SegmentText(segs[k], chunkIdx)))
  }

  /** The runs msg + "\n" of the log paragraph. */
  function LogLines(msgs: seq<string>): string
  {
    if msgs == [] then "" else LogLines(msgs[..|msgs| - 1]) + msgs[|msgs| - 1] + "\n"
  }

  /** Each buffered message is a line of the log paragraph, in order. */
  lemma {:induction false} LogLinesAppend(msgs: seq<string>, more: seq<string>)
    ensures LogLines(msgs + more) == LogLines(msgs) + LogLines(more)
    decreases |more|
  {
    if more == [] {
      assert msgs + more == msgs;
    } else {
      var m := |more| - 1;
      assert (msgs + more)[..|msgs + more| - 1] == msgs + more[..m];
      LogLinesAppend(msgs, more[..m]);
    }
  }

  function LogSection(msgs: seq<string>): seq<Block>
  {
    [PageBreak, Heading("Processing Log", 2), Paragraph(LogLines(msgs))]
  }

  /** os.path.join(out_dir, base + ".docx") for base the input's name
      without extension. */
  function OutPath(outDir: string, f: string): string
  {
    Join(outDir, SplitExt(BaseName(f)).0 + ".docx")
  }

  /** Every transcript is written directly inside the output directory, named
      after its input. */
  lemma OutPathInOutDir(outDir: string, f: string)
    ensures IsEntry(OutPath(outDir, f), outDir)
    ensures EntryName(OutPath(outDir, f), outDir) == SplitExt(BaseName(f)).0 + ".docx"
  {
    var b := BaseName(f);
    var name := SplitExt(b).0 + ".docx";
    assert SplitExt(b).0 + SplitExt(b).1 == b;
    assert '/' !in SplitExt(b).0 by {
      forall k | 0 <= k < |SplitExt(b).0| ensures SplitExt(b).0[k] != '/' {
        assert SplitExt(b).0[k] == b[k];
      }
    }
    assert IsName(name);
    JoinName(outDir, name);
    var p := OutPath(outDir, f);
    assert p[|DirPrefix(outDir)|..] == name;
  }

  /** The base name of a file in directory d is its name. */
  lemma BaseNameOfEntry(d: string, name: string)
    requires IsName(name)
    ensures BaseName(Join(d, name)) == name
  {
    JoinName(d, name);
    var pre := DirPrefix(d);
    RFindAppend(pre, name, '/');
    assert RFind(pre, '/') == |pre| - 1;
    assert (pre + name)[|pre|..] == name;
  }

  /** Inputs with the same name in different directories share one output
      path, so the later transcript replaces the earlier. */
  lemma OutPathIgnoresDirectory(outDir: string, d1: string, d2: string, name: string)
    requires IsName(name)
    ensures OutPath(outDir, Join(d1, name)) == OutPath(outDir, Join(d2, name))
  {
    BaseNameOfEntry(d1, name);
    BaseNameOfEntry(d2, name);
  }

  // ---------------------------------------------------------------------------
  // The run, as a function of the starting state

  /** The label passed to _add_segment_to_doc for chunk i (0-based). */
  function ChunkLabel(chunks: seq<string>, i: nat): Option<nat>
  {
    if |chunks| > 1 then Some(i + 1) else None
  }

  /** The state after the stop check found the event clear and chunk i was
      announced and transcribed. */
  function ChunkNext(env: Env, st: State, chunks: seq<string>, i: nat): State
    requires i < |chunks|
  {
    var st1 := Logged(Checked(st, env), "Transcribing chunk " + NatStr(i + 1) + "/" + NatStr(|chunks|));
    Emitted(st1, TranscribeAudioSegment(chunks[i], env.whisper(chunks[i])).1)
  }

  /** The segments Whisper gives for chunk i. */
  function ChunkResult(env: Env, chunks: seq<string>, i: nat): seq<WhisperSegment>
    requires i < |chunks|
  {
    TranscribeAudioSegment(chunks[i], env.whisper(chunks[i])).0.segments
  }

  /** The chunk loop from chunk i on: the state, the document and
      all_segments afterwards. */
  function ChunkLoop(env: Env, st: State, doc: seq<Block>, all: seq<WhisperSegment>,
                     chunks: seq<string>, i: nat): (State, seq<Block>, seq<WhisperSegment>)
    requires i <= |chunks|
    decreases |chunks| - i
  {
    if i == |chunks| then (st, doc, all)
    else if StopSeen(st, env) then (Logged(Checked(st, env), "Stop requested during chunk processing."), doc, all)
    else
      var segs := ChunkResult(env, chunks, i);
      ChunkLoop(env, ChunkNext(env, st, chunks, i), doc + SegmentBlocks(segs, ChunkLabel(chunks, i)),
                all + segs, chunks, i + 1)
  }

  /** Where the chunk loop from chunk i on ends: the index of the first chunk
      it does not transcribe, or the number of chunks. LegacyApp.ChunksDone
      is its twin over the older worker's state and chunk step. */
  function ChunksDone(env: Env, st: State, chunks: seq<string>, i: nat): (j: nat)
    requires i <= |chunks|
    ensures i <= j <= |chunks|
    decreases |chunks| - i
  {
    if i == |chunks| || StopSeen(st, env) then i
    else ChunksDone(env, ChunkNext(env, st, chunks, i), chunks, i + 1)
  }

  function ProcessingMessage(idx: nat, total: nat, f: string): string
  {
    "Processing file " + NatStr(idx) + "/" + NatStr(total) + ": '" + f + "'"
  }

  /** Adding the log section, saving, logging the save, clearing the buffer
      and reporting progress. */
  function SaveStep(cfg: Config, st: State, doc: seq<Block>, idx: nat): State
    requires 1 <= idx <= |cfg.inputFiles|
  {
    var full := if st.docMessages != [] then doc + LogSection(st.docMessages) else doc;
    var out := OutPath(cfg.outDir, cfg.inputFiles[idx - 1]);
    var st1 := Logged(st.(fs := st.fs + {out}, saved := st.saved + [SavedDoc(out, full)]),
                      "Saved transcript to '" + out + "'");
    st1.(docMessages := [], progress := st1.progress + [(idx, |cfg.inputFiles|)])
  }

  /** The chunks of a converted file. */
  ghost function Split(cfg: Config, env: Env, wav: string, fs: set<string>): Chunked
  {
    if cfg.chunk then ChunkWav(wav, cfg.chunkLength, fs, env.ffprobe, env.ffmpeg)
    else Chunked([wav], fs, [], false)
  }

  /** A converted file: split, transcribe its chunks, save; an exception
      raised by the split ends the step there. */
  ghost function TranscribeFile(cfg: Config, env: Env, st: State, idx: nat, wav: string): State
    requires 1 <= idx <= |cfg.inputFiles|
  {
    var split := Split(cfg, env, wav, st.fs);
    var st1 := Emitted(st, split.logs).(fs := split.fs, raised := split.raised);
    if split.raised then st1
    else
      var (st2, doc, _) := ChunkLoop(env, st1, CreateDocument(cfg, cfg.inputFiles[idx - 1]), [], split.chunks, 0);
      SaveStep(cfg, st2, doc, idx)
  }

  /** One iteration of the file loop after its stop check found the event
      clear. */
  ghost function FileStep(cfg: Config, env: Env, st: State, idx: nat): State
    requires 1 <= idx <= |cfg.inputFiles|
  {
    var f := cfg.inputFiles[idx - 1];
    var st1 := Logged(st, ProcessingMessage(idx, |cfg.inputFiles|, f));
    var conv := ConvertToWav(f, cfg.sampleRate, cfg.channels, st1.fs, env.ffmpeg);
    var st2 := Emitted(st1, conv.logs).(fs := conv.fs);
    if conv.wav.None? || conv.wav.value == "" then
      Logged(st2, "WAV conversion failed for '" + f + "'. Skipping.")
    else
      TranscribeFile(cfg, env, st2, idx, conv.wav.value)
  }

  /** The body of the file loop after its stop check, as a step on the
      state (an index outside 1..total changes nothing). */
  ghost function FileStepFn(cfg: Config, env: Env): (State, nat) -> State
  {
    (s: State, i: nat) => if 1 <= i <= |cfg.inputFiles| then FileStep(cfg, env, s, i) else s
  }

  /** A loop over the indexes idx..total that checks the stop event before
      each step, halts, logging so, when it is set, and ends when a step
      raises. */
  ghost function StepLoop(step: (State, nat) -> State, env: Env, total: nat, st: State, idx: nat): State
    decreases total + 1 - idx
  {
    if idx > total then st
    else if StopSeen(st, env) then Logged(Checked(st, env), "Stop requested. Halting worker.")
    else
      var s := step(Checked(st, env), idx);
      if s.raised then s else StepLoop(step, env, total, s, idx + 1)
  }

  /** The file loop from file idx (1-based) on. */
  ghost function FileLoop(cfg: Config, env: Env, st: State, idx: nat): State
  {
    StepLoop(FileStepFn(cfg, env), env, |cfg.inputFiles|, st, idx)
  }

  /** TranscriptionWorker.run */
  ghost function RunSpec(cfg: Config, env: Env, st: State): State
  {
    if |cfg.inputFiles| == 0 then Logged(st, "No files to process.")
    else
      var (model, logs) := LoadWhisperModel(cfg.modelName, cfg.device, env.modelLoad);
      var st1 := Emitted(st, logs);
      if model.None? then Logged(st1, "Failed to load Whisper model '" + cfg.modelName + "'")
      else
        var r := FileLoop(cfg, env, st1, 1);
        if r.raised then r else Logged(r, "Transcription worker finished.")
  }

  /** One turn of the file loop, unfolded. */
  lemma FileLoopUnfold(cfg: Config, env: Env, st: State, idx: nat)
    requires 1 <= idx <= |cfg.inputFiles|
    ensures FileLoop(cfg, env, st, idx)
            == if StopSeen(st, env) then Logged(Checked(st, env), "Stop requested. Halting worker.")
               else var s := FileStep(cfg, env, Checked(st, env), idx);
                    if s.raised then s else FileLoop(cfg, env, s, idx + 1)
  {
  }

  // ---------------------------------------------------------------------------
  // Properties of a run

  /** With no input files the run logs one line and does nothing else. */
  lemma RunWithoutFiles(cfg: Config, env: Env, st: State)
    requires |cfg.inputFiles| == 0
    ensures var r := RunSpec(cfg, env, st);
            && r.logQueue == st.logQueue + ["No files to process."]
            && r.progress == st.progress && r.saved == st.saved && r.fs == st.fs
  {
  }

  /** When the model does not load, no file is touched, no progress is
      reported and the run ends without the "finished" line. */
  lemma RunWithoutModel(cfg: Config, env: Env, st: State)
    requires |cfg.inputFiles| > 0 && env.modelLoad.LoadError?
    ensures var r := RunSpec(cfg, env, st);
            && r.logQueue == st.logQueue + LoadWhisperModel(cfg.modelName, cfg.device, env.modelLoad).1
                             + ["Failed to load Whisper model '" + cfg.modelName + "'"]
            && r.progress == st.progress && r.saved == st.saved && r.fs == st.fs
            && Last(r.logQueue) != "Transcription worker finished."
  {
  }

  /** The segments of chunks i..j-1 in order, as all_segments collects
      them. */
  function ChunkSegments(env: Env, chunks: seq<string>, i: nat, j: nat): seq<WhisperSegment>
    requires i <= j <= |chunks|
    decreases j - i
  {
    if i == j then [] else ChunkResult(env, chunks, i) + ChunkSegments(env, chunks, i + 1, j)
  }

  /** The paragraphs of chunks i..j-1 in order, as the document gets them. */
  function ChunkBlocks(env: Env, chunks: seq<string>, i: nat, j: nat): seq<Block>
    requires i <= j <= |chunks|
    decreases j - i
  {
    if i == j then []
    else SegmentBlocks(ChunkResult(env, chunks, i), ChunkLabel(chunks, i)) + ChunkBlocks(env, chunks, i + 1, j)
  }

  /** The chunk loop leaves progress, saved documents and files alone; the
      log and the buffer only grow. */
  lemma {:induction false} ChunkLoopFrame(env: Env, st: State, doc: seq<Block>, all: seq<WhisperSegment>,
                                          chunks: seq<string>, i: nat)
    requires i <= |chunks|
    ensures var r := ChunkLoop(env, st, doc, all, chunks, i).0;
            && r.progress == st.progress && r.saved == st.saved && r.fs == st.fs && r.raised == st.raised
            && st.logQueue <= r.logQueue && st.docMessages <= r.docMessages
    decreases |chunks| - i
  {
    if i < |chunks| && !StopSeen(st, env) {
      var segs := ChunkResult(env, chunks, i);
      ChunkLoopFrame(env, ChunkNext(env, st, chunks, i), doc + SegmentBlocks(segs, ChunkLabel(chunks, i)),
                     all + segs, chunks, i + 1);
    }
  }

  /** The chunk loop adds the paragraphs of the chunks it transcribes, which
      are the consecutive chunks from i up to ChunksDone, to the document in
      chunk order. */
  lemma {:induction false} ChunkLoopDoc(env: Env, st: State, doc: seq<Block>, all: seq<WhisperSegment>,
                                        chunks: seq<string>, i: nat)
    requires i <= |chunks|
    ensures ChunkLoop(env, st, doc, all, chunks, i).1 == doc + ChunkBlocks(env, chunks, i, ChunksDone(env, st, chunks, i))
    decreases |chunks| - i
  {
    if i < |chunks| && !StopSeen(st, env) {
      var segs := ChunkResult(env, chunks, i);
      var blocks := SegmentBlocks(segs, ChunkLabel(chunks, i));
      var next := ChunkNext(env, st, chunks, i);
      ChunkLoopDoc(env, next, doc + blocks, all + segs, chunks, i + 1);
      var rest := ChunkBlocks(env, chunks, i + 1, ChunksDone(env, next, chunks, i + 1));
      ConcatAssoc(doc, blocks, rest);
    }
  }

  /** all_segments collects the segments of the same chunks, in the same
      order. */
  lemma {:induction false} ChunkLoopSegments(env: Env, st: State, doc: seq<Block>, all: seq<WhisperSegment>,
                                             chunks: seq<string>, i: nat)
    requires i <= |chunks|
    ensures ChunkLoop(env, st, doc, all, chunks, i).2 == all + ChunkSegments(env, chunks, i, ChunksDone(env, st, chunks, i))
    decreases |chunks| - i
  {
    if i < |chunks| && !StopSeen(st, env) {
      var segs := ChunkResult(env, chunks, i);
      var next := ChunkNext(env, st, chunks, i);
      ChunkLoopSegments(env, next, doc + SegmentBlocks(segs, ChunkLabel(chunks, i)), all + segs, chunks, i + 1);
      var rest := ChunkSegments(env, chunks, i + 1, ChunksDone(env, next, chunks, i + 1));
      ConcatAssoc(all, segs, rest);
    }
  }

  /** The loop stops before the last chunk only on a stop check that found
      the event set, which it records and reports as its last log line. */
  lemma {:induction false} ChunkLoopStopped(env: Env, st: State, doc: seq<Block>, all: seq<WhisperSegment>,
                                            chunks: seq<string>, i: nat)
    requires i <= |chunks| && ChunksDone(env, st, chunks, i) < |chunks|
    ensures var r := ChunkLoop(env, st, doc, all, chunks, i).0;
            r.stopSet && r.logQueue != [] && Last(r.logQueue) == "Stop requested during chunk processing."
    decreases |chunks| - i
  {
    if !StopSeen(st, env) {
      var segs := ChunkResult(env, chunks, i);
      ChunkLoopStopped(env, ChunkNext(env, st, chunks, i), doc + SegmentBlocks(segs, ChunkLabel(chunks, i)),
                       all + segs, chunks, i + 1);
    }
  }

  /** Without any stop request every chunk is transcribed. */
  lemma {:induction false} ChunkLoopComplete(env: Env, st: State, chunks: seq<string>, i: nat)
    requires i <= |chunks| && !st.stopSet && env.stopFrom.None?
    ensures ChunksDone(env, st, chunks, i) == |chunks|
    decreases |chunks| - i
  {
    if i < |chunks| {
      ChunkLoopComplete(env, ChunkNext(env, st, chunks, i), chunks, i + 1);
    }
  }

  /** A file whose conversion fails is skipped: nothing is saved, no progress
      is reported, and its messages stay in the buffer for the next file's
      log. */
  lemma FileStepConversionFailed(cfg: Config, env: Env, st: State, idx: nat)
    requires 1 <= idx <= |cfg.inputFiles|
    requires var conv := ConvertToWav(cfg.inputFiles[idx - 1], cfg.sampleRate, cfg.channels, st.fs, env.ffmpeg);
             conv.wav.None? || conv.wav.value == ""
    ensures var r := FileStep(cfg, env, st, idx);
            var f := cfg.inputFiles[idx - 1];
            && r.progress == st.progress && r.saved == st.saved && r.raised == st.raised
            && r.docMessages == st.docMessages + [ProcessingMessage(idx, |cfg.inputFiles|, f),
                                                  "WAV conversion failed for '" + f + "'. Skipping."]
  {
  }

  /** Splitting, transcribing and saving a converted file raises exactly
      when chunking is on and ffprobe fails with captured output; then only
      the "Subprocess error" line is added and nothing is saved or reported.
      Otherwise one document is saved at its output path, beginning with the
      title block and ending with a processing log that starts with the
      buffered messages; then progress (idx, total) is reported and the
      buffer is empty. */
  lemma TranscribeFileSaved(cfg: Config, env: Env, st: State, idx: nat, wav: string)
    requires 1 <= idx <= |cfg.inputFiles| && st.docMessages != []
    ensures var r := TranscribeFile(cfg, env, st, idx, wav);
            var f := cfg.inputFiles[idx - 1];
            var probe := env.ffprobe(ProbeCommand(wav), st.fs);
            && (r.raised <==> cfg.chunk && ProbeRaises(probe))
            && (r.raised ==>
                  && r.progress == st.progress && r.saved == st.saved && r.fs == st.fs
                  && r.logQueue == st.logQueue + ["Subprocess error: " + probe.error.description])
            && (!r.raised ==>
                  && r.progress == st.progress + [(idx, |cfg.inputFiles|)]
                  && |r.saved| == |st.saved| + 1 && r.saved[..|st.saved|] == st.saved
                  && Last(r.saved).path == OutPath(cfg.outDir, f) && OutPath(cfg.outDir, f) in r.fs
                  && r.docMessages == []
                  && exists body, msgs :: Last(r.saved).blocks == body + LogSection(msgs)
                       && CreateDocument(cfg, f) <= body && st.docMessages <= msgs)
  {
    var split := Split(cfg, env, wav, st.fs);
    SplitRaises(cfg, env, wav, st.fs);
    if !split.raised {
      LoopThenSave(cfg, env, Emitted(st, split.logs).(fs := split.fs, raised := false), idx, split.chunks);
    }
  }

  /** The chunk loop followed by the save step. */
  lemma LoopThenSave(cfg: Config, env: Env, st: State, idx: nat, chunks: seq<string>)
    requires 1 <= idx <= |cfg.inputFiles| && st.docMessages != []
    ensures var f := cfg.inputFiles[idx - 1];
            var loop := ChunkLoop(env, st, CreateDocument(cfg, f), [], chunks, 0);
            var r := SaveStep(cfg, loop.0, loop.1, idx);
            && r.raised == st.raised
            && r.progress == st.progress + [(idx, |cfg.inputFiles|)]
            && |r.saved| == |st.saved| + 1 && r.saved[..|st.saved|] == st.saved
            && Last(r.saved).path == OutPath(cfg.outDir, f) && OutPath(cfg.outDir, f) in r.fs
            && r.docMessages == []
            && exists body, msgs :: Last(r.saved).blocks == body + LogSection(msgs)
                 && CreateDocument(cfg, f) <= body && st.docMessages <= msgs
  {
    var f := cfg.inputFiles[idx - 1];
    var (st2, doc, all) := ChunkLoop(env, st, CreateDocument(cfg, f), [], chunks, 0);
    ChunkLoopFrame(env, st, CreateDocument(cfg, f), [], chunks, 0);
    ChunkLoopDoc(env, st, CreateDocument(cfg, f), [], chunks, 0);
    assert st2.docMessages != [];
    var r := SaveStep(cfg, st2, doc, idx);
    assert Last(r.saved).blocks == doc + LogSection(st2.docMessages);
  }

  /** The split raises exactly when chunking is on and ffprobe fails with
      captured output, and then it only logs the "Subprocess error" line. */
  lemma SplitRaises(cfg: Config, env: Env, wav: string, fs: set<string>)
    ensures var split := Split(cfg, env, wav, fs);
            var probe := env.ffprobe(ProbeCommand(wav), fs);
            && (split.raised <==> cfg.chunk && ProbeRaises(probe))
            && (split.raised ==> split.fs == fs && split.logs == ["Subprocess error: " + probe.error.description])
  {
    if cfg.chunk {
      ChunkRaisesOnProbe(wav, cfg.chunkLength, fs, env.ffprobe, env.ffmpeg);
      DurationAsWritten(wav, fs, env.ffprobe);
    }
  }

  /** A converted file is saved, even when a stop request cut its chunk loop
      short, unless the split raised; its processing log holds the messages
      carried over from skipped files followed by its own "Processing file"
      line. The split raises exactly when chunking is on and ffprobe fails
      on the WAV file with captured output, and then the last line is the
      "Subprocess error" line and nothing is saved or reported. */
  lemma FileStepSaved(cfg: Config, env: Env, st: State, idx: nat)
    requires 1 <= idx <= |cfg.inputFiles|
    requires var conv := ConvertToWav(cfg.inputFiles[idx - 1], cfg.sampleRate, cfg.channels, st.fs, env.ffmpeg);
             conv.wav.Some? && conv.wav.value != ""
    ensures var r := FileStep(cfg, env, st, idx);
            var f := cfg.inputFiles[idx - 1];
            var conv := ConvertToWav(f, cfg.sampleRate, cfg.channels, st.fs, env.ffmpeg);
            var probe := env.ffprobe(ProbeCommand(conv.wav.value), conv.fs);
            && (r.raised <==> cfg.chunk && ProbeRaises(probe))
            && (r.raised ==>
                  && r.progress == st.progress && r.saved == st.saved
                  && r.logQueue != [] && Last(r.logQueue) == "Subprocess error: " + probe.error.description)
            && (!r.raised ==>
                  && r.progress == st.progress + [(idx, |cfg.inputFiles|)]
                  && |r.saved| == |st.saved| + 1 && r.saved[..|st.saved|] == st.saved
                  && Last(r.saved).path == OutPath(cfg.outDir, f) && OutPath(cfg.outDir, f) in r.fs
                  && r.docMessages == []
                  && exists body, msgs :: Last(r.saved).blocks == body + LogSection(msgs)
                       && CreateDocument(cfg, f) <= body
                       && st.docMessages + [ProcessingMessage(idx, |cfg.inputFiles|, f)] <= msgs)
  {
    var f := cfg.inputFiles[idx - 1];
    var st1 := Logged(st, ProcessingMessage(idx, |cfg.inputFiles|, f));
    var conv := ConvertToWav(f, cfg.sampleRate, cfg.channels, st1.fs, env.ffmpeg);
    var st2 := Emitted(st1, conv.logs).(fs := conv.fs);
    assert FileStep(cfg, env, st, idx) == TranscribeFile(cfg, env, st2, idx, conv.wav.value);
    TranscribeFileSaved(cfg, env, st2, idx, conv.wav.value);
  }

  /** Progress reports (idx, total) with idx strictly increasing within
      lo..total. */
  predicate ProgressFrom(p: seq<(nat, nat)>, lo: nat, total: nat)
  {
    && (forall k :: 0 <= k < |p| ==> lo <= p[k].0 <= total && p[k].1 == total)
    && (forall a, b :: 0 <= a < b < |p| ==> p[a].0 < p[b].0)
  }

  /** The output path of every input file, in input order. */
  function OutPaths(cfg: Config): (outs: seq<string>)
    ensures |outs| == |cfg.inputFiles|
    ensures forall i :: 0 <= i < |outs| ==> outs[i] == OutPath(cfg.outDir, cfg.inputFiles[i])
  {
    seq(|cfg.inputFiles|, i requires 0 <= i < |cfg.inputFiles| => OutPath(cfg.outDir, cfg.inputFiles[i]))
  }

  /** Every new progress report k belongs to new saved document k, written at
      the output path outs[p[k].0 - 1] of its file. */
  predicate SavedMatch(outs: seq<string>, p: seq<(nat, nat)>, saved: seq<SavedDoc>)
  {
    && |saved| == |p|
    && forall k :: 0 <= k < |p| ==> (1 <= p[k].0 <= |outs| && saved[k].path == outs[p[k].0 - 1])
  }

  /** What one iteration of the file loop may do to progress and saved
      documents: nothing, or report (idx, total) and save one document at the
      output path of file idx. */
  predicate ProgressStep(outs: seq<string>, st: State, r: State, idx: nat)
    requires 1 <= idx <= |outs|
  {
    || (r.progress == st.progress && r.saved == st.saved)
    || (&& r.progress == st.progress + [(idx, |outs|)]
        && |r.saved| == |st.saved| + 1 && r.saved[..|st.saved|] == st.saved
        && r.saved[|st.saved|].path == outs[idx - 1])
  }

  lemma FileStepProgress(cfg: Config, env: Env, st: State, idx: nat)
    requires 1 <= idx <= |cfg.inputFiles|
    ensures ProgressStep(OutPaths(cfg), st, FileStep(cfg, env, st, idx), idx)
  {
    var conv := ConvertToWav(cfg.inputFiles[idx - 1], cfg.sampleRate, cfg.channels, st.fs, env.ffmpeg);
    if conv.wav.Some? && conv.wav.value != "" {
      FileStepSaved(cfg, env, st, idx);
    } else {
      FileStepConversionFailed(cfg, env, st, idx);
    }
  }

  /** What the file loop from idx on does to progress and saved documents. */
  predicate ProgressRest(outs: seq<string>, st: State, r: State, idx: nat)
  {
    && st.progress <= r.progress && st.saved <= r.saved
    && ProgressFrom(r.progress[|st.progress|..], idx, |outs|)
    && SavedMatch(outs, r.progress[|st.progress|..], r.saved[|st.saved|..])
  }

  /** One step followed by the rest of the loop is the rest of the loop one
      file earlier. */
  lemma ProgressCons(outs: seq<string>, st: State, st2: State, r: State, idx: nat)
    requires 1 <= idx <= |outs|
    requires ProgressStep(outs, st, st2, idx) && ProgressRest(outs, st2, r, idx + 1)
    ensures ProgressRest(outs, st, r, idx)
  {
    if st2.progress != st.progress {
      var tail := r.progress[|st2.progress|..];
      var tailSaved := r.saved[|st2.saved|..];
      var p := r.progress[|st.progress|..];
      var s := r.saved[|st.saved|..];
      assert p == [(idx, |outs|)] + tail;
      assert s == [st2.saved[|st.saved|]] + tailSaved;
      ProgressFromCons(p, tail, idx, |outs|);
      SavedMatchCons(outs, p, s, tail, tailSaved, idx);
    }
  }

  lemma ProgressFromCons(p: seq<(nat, nat)>, tail: seq<(nat, nat)>, idx: nat, total: nat)
    requires idx <= total && p == [(idx, total)] + tail && ProgressFrom(tail, idx + 1, total)
    ensures ProgressFrom(p, idx, total)
  {
    forall a, b | 0 <= a < b < |p| ensures p[a].0 < p[b].0 {
      assert p[b] == tail[b - 1];
      if a > 0 {
        assert p[a] == tail[a - 1];
      }
    }
  }

  lemma SavedMatchCons(outs: seq<string>, p: seq<(nat, nat)>, s: seq<SavedDoc>,
                       tail: seq<(nat, nat)>, tailSaved: seq<SavedDoc>, idx: nat)
    requires 1 <= idx <= |outs| && p == [(idx, |outs|)] + tail && |s| == |tailSaved| + 1
    requires s[1..] == tailSaved && s[0].path == outs[idx - 1] && SavedMatch(outs, tail, tailSaved)
    ensures SavedMatch(outs, p, s)
  {
    forall k | 0 <= k < |p| ensures 1 <= p[k].0 <= |outs| && s[k].path == outs[p[k].0 - 1] {
      if k > 0 {
        assert p[k] == tail[k - 1] && s[k] == tailSaved[k - 1];
      }
    }
  }

  /** A stop-checked loop whose every step reports at most its own index and
      saves one document per report reports progress only for indexes
      idx..total, in increasing order, with one document per report. */
  lemma {:induction false} StepLoopProgress(step: (State, nat) -> State, env: Env, outs: seq<string>, st: State, idx: nat)
    requires 1 <= idx
    requires forall s: State, i: nat :: 1 <= i <= |outs| ==> ProgressStep(outs, s, step(s, i), i)
    ensures ProgressRest(outs, st, StepLoop(step, env, |outs|, st, idx), idx)
    decreases |outs| + 1 - idx
  {
    if idx <= |outs| && !StopSeen(st, env) {
      var st1 := Checked(st, env);
      var s := step(st1, idx);
      if s.raised {
        assert s.progress[|s.progress|..] == [] && s.saved[|s.saved|..] == [];
        ProgressCons(outs, st1, s, s, idx);
      } else {
        StepLoopProgress(step, env, outs, s, idx + 1);
        ProgressCons(outs, st1, s, StepLoop(step, env, |outs|, s, idx + 1), idx);
      }
    } else {
      var r := StepLoop(step, env, |outs|, st, idx);
      assert r.progress[|st.progress|..] == [] && r.saved[|st.saved|..] == [];
    }
  }

  /** The file loop from idx on reports progress only for files idx..total,
      in increasing order, and saves exactly one document per report. */
  lemma FileLoopProgress(cfg: Config, env: Env, st: State, idx: nat)
    requires 1 <= idx
    ensures ProgressRest(OutPaths(cfg), st, FileLoop(cfg, env, st, idx), idx)
  {
    var outs := OutPaths(cfg);
    var step := FileStepFn(cfg, env);
    forall s: State, i: nat | 1 <= i <= |outs| ensures ProgressStep(outs, s, step(s, i), i) {
      FileStepProgress(cfg, env, s, i);
    }
    StepLoopProgress(step, env, outs, st, idx);
  }

  /** A state that has raised ends with the "Subprocess error" line of the
      ffprobe failure that raised. */
  predicate RaisedOnProbe(s: State)
  {
    s.raised ==> s.logQueue != [] && StartsWith(Last(s.logQueue), "Subprocess error: ")
  }

  lemma FileStepRaised(cfg: Config, env: Env, st: State, idx: nat)
    requires 1 <= idx <= |cfg.inputFiles| && !st.raised
    ensures RaisedOnProbe(FileStep(cfg, env, st, idx))
  {
    var conv := ConvertToWav(cfg.inputFiles[idx - 1], cfg.sampleRate, cfg.channels, st.fs, env.ffmpeg);
    if conv.wav.Some? && conv.wav.value != "" {
      FileStepSaved(cfg, env, st, idx);
      var r := FileStep(cfg, env, st, idx);
      if r.raised {
        var e := env.ffprobe(ProbeCommand(conv.wav.value), conv.fs).error;
        assert Last(r.logQueue)[..|"Subprocess error: "|] == "Subprocess error: ";
      }
    } else {
      FileStepConversionFailed(cfg, env, st, idx);
    }
  }

  /** A stop-checked loop whose steps raise only on a probe failure raises
      only so. */
  lemma {:induction false} StepLoopRaised(step: (State, nat) -> State, env: Env, total: nat, st: State, idx: nat)
    requires 1 <= idx && !st.raised
    requires forall s: State, i: nat :: 1 <= i <= total && !s.raised ==> RaisedOnProbe(step(s, i))
    ensures RaisedOnProbe(StepLoop(step, env, total, st, idx))
    decreases total + 1 - idx
  {
    if idx <= total && !StopSeen(st, env) {
      var s := step(Checked(st, env), idx);
      if !s.raised {
        StepLoopRaised(step, env, total, s, idx + 1);
      }
    }
  }

  /** A run with a loaded model reports progress only in increasing file
      order and saves exactly one document per report at that file's output
      path. It ends with the "finished" line unless a failing ffprobe raised
      out of the split, in which case the thread ends on the "Subprocess
      error" line. */
  lemma RunProgress(cfg: Config, env: Env, st: State)
    requires |cfg.inputFiles| > 0 && env.modelLoad.Loaded? && !st.raised
    ensures var r := RunSpec(cfg, env, st);
            && st.progress <= r.progress && st.saved <= r.saved
            && ProgressFrom(r.progress[|st.progress|..], 1, |cfg.inputFiles|)
            && SavedMatch(OutPaths(cfg), r.progress[|st.progress|..], r.saved[|st.saved|..])
            && (!r.raised ==> Last(r.logQueue) == "Transcription worker finished.")
            && RaisedOnProbe(r)
  {
    var logs := LoadWhisperModel(cfg.modelName, cfg.device, env.modelLoad).1;
    var st1 := Emitted(st, logs);
    FileLoopProgress(cfg, env, st1, 1);
    var step := FileStepFn(cfg, env);
    forall s: State, i: nat | 1 <= i <= |cfg.inputFiles| && !s.raised ensures RaisedOnProbe(step(s, i)) {
      FileStepRaised(cfg, env, s, i);
    }
    StepLoopRaised(step, env, |cfg.inputFiles|, st1, 1);
  }

  /** A stop requested before the run starts processes no file. */
  lemma RunStoppedBeforeStart(cfg: Config, env: Env, st: State)
    requires |cfg.inputFiles| > 0 && env.modelLoad.Loaded? && st.stopSet && !st.raised
    ensures var r := RunSpec(cfg, env, st);
            && r.progress == st.progress && r.saved == st.saved && r.fs == st.fs
            && r.logQueue == st.logQueue + LoadWhisperModel(cfg.modelName, cfg.device, env.modelLoad).1
                             + ["Stop requested. Halting worker.", "Transcription worker finished."]
  {
  }

  // ---------------------------------------------------------------------------
  // The worker object

  class TranscriptionWorker {
    const inputFiles: seq<string>
    const outDir: string
    const modelName: string
    const device: string
    const sampleRate: int
    const channels: int
    const chunk: bool
    const chunkLength: int

    /** What was put on log_queue and progress_queue. */
    var logQueue: seq<string>
    var progressQueue: seq<(nat, nat)>
    var stopEvent: bool
    var docMessages: seq<string>
    /** The documents saved, in order. */
    var saved: seq<SavedDoc>

    function Cfg(): Config
    {
      Config(inputFiles, outDir, modelName, device, sampleRate, channels, chunk, chunkLength)
    }

    /** The worker's part of the state, with the filesystem, the number of
        stop checks so far and whether an exception was raised. */
    function Snapshot(fs: set<string>, checks: nat, raised: bool): State
      reads this
    {
      State(logQueue, progressQueue, docMessages, stopEvent, checks, saved, fs, raised)
    }

    constructor (inputFiles: seq<string>, outDir: string, modelName: string, device: string,
                 sampleRate: int, channels: int, chunk: bool, chunkLength: int)
      ensures Cfg() == Config(inputFiles, outDir, modelName, device, sampleRate, channels, chunk, chunkLength)
      ensures logQueue == [] && progressQueue == [] && !stopEvent && docMessages == [] && saved == []
    {
      this.inputFiles := inputFiles;
      this.outDir := outDir;
      this.modelName := modelName;
      this.device := device;
      this.sampleRate := sampleRate;
      this.channels := channels;
      this.chunk := chunk;
      this.chunkLength := chunkLength;
      logQueue, progressQueue, stopEvent, docMessages, saved := [], [], false, [], [];
    }

    /** _log */
    method Log(msg: string)
      modifies this
      ensures logQueue == old(logQueue) + [msg] && docMessages == old(docMessages) + [msg]
      ensures progressQueue == old(progressQueue) && stopEvent == old(stopEvent) && saved == old(saved)
    {
      logQueue := logQueue + [msg];
      docMessages := docMessages + [msg];
    }

    /** stop: sets the event; nothing else changes. */
    method Stop()
      modifies this
      ensures stopEvent
      ensures logQueue == old(logQueue) && docMessages == old(docMessages)
      ensures progressQueue == old(progressQueue) && saved == old(saved)
    {
      stopEvent := true;
    }

    /** stop_event.is_set(), numbered by checks. */
    method IsStopSet(env: Env, checks: nat) returns (seen: bool, checks': nat)
      modifies this
      ensures seen == StopSeen(old(Snapshot({}, checks, false)), env) && checks' == checks + 1
      ensures forall fs, raised :: Snapshot(fs, checks', raised) == Checked(old(Snapshot(fs, checks, raised)), env)
    {
      seen := stopEvent || (env.stopFrom.Some? && checks >= env.stopFrom.value);
      stopEvent := seen;
      checks' := checks + 1;
    }

    /** The chunk loop of run. */
    method TranscribeChunks(env: Env, doc: seq<Block>, chunks: seq<string>, fs: set<string>, checks: nat)
      returns (doc': seq<Block>, allSegments: seq<WhisperSegment>, checks': nat)
      modifies this
      ensures (Snapshot(fs, checks', false), doc', allSegments) == ChunkLoop(env, old(Snapshot(fs, checks, false)), doc, [], chunks, 0)
    {
      doc', allSegments, checks' := doc, [], checks;
      var i := 0;
      while i < |chunks|
        invariant 0 <= i <= |chunks|
        invariant ChunkLoop(env, Snapshot(fs, checks', false), doc', allSegments, chunks, i)
                  == ChunkLoop(env, old(Snapshot(fs, checks, false)), doc, [], chunks, 0)
      {
        ghost var before := Snapshot(fs, checks', false);
        var seen;
        seen, checks' := IsStopSet(env, checks');
        if seen {
          Log("Stop requested during chunk processing.");
          assert Snapshot(fs, checks', false) == ChunkLoop(env, before, doc', allSegments, chunks, i).0;
          return;
        }
        Log("Transcribing chunk " + NatStr(i + 1) + "/" + NatStr(|chunks|));
        var (result, logs) := TranscribeAudioSegment(chunks[i], env.whisper(chunks[i]));
        logQueue := logQueue + logs;
        doc' := doc' + SegmentBlocks(result.segments, if |chunks| > 1 then Some(i + 1) else None);
        allSegments := allSegments + result.segments;
        i := i + 1;
      }
    }

    /** Adding the processing log, saving, clearing the buffer and reporting
        progress. */
    method Save(doc: seq<Block>, idx: nat, fs: set<string>, checks: nat) returns (fs': set<string>)
      requires 1 <= idx <= |inputFiles|
      modifies this
      ensures Snapshot(fs', checks, false) == SaveStep(Cfg(), old(Snapshot(fs, checks, false)), doc, idx)
    {
      var full := doc;
      if docMessages != [] {
        full := doc + LogSection(docMessages);
      }
      var out := OutPath(outDir, inputFiles[idx - 1]);
      fs' := fs + {out};
      saved := saved + [SavedDoc(out, full)];
      Log("Saved transcript to '" + out + "'");
      docMessages := [];
      progressQueue := progressQueue + [(idx, |inputFiles|)];
    }

    /** Splitting a converted file into chunks (or taking it whole). */
    method SplitConverted(env: Env, wav: string, fs: set<string>, checks: nat)
      returns (chunks: seq<string>, fs': set<string>, raised: bool)
      modifies this
      ensures var split := Split(Cfg(), env, wav, fs);
              && chunks == split.chunks && raised == split.raised
              && Snapshot(fs', checks, raised) == Emitted(old(Snapshot(fs, checks, false)), split.logs).(fs := split.fs, raised := split.raised)
    {
      if chunk {
        var chunkLogs;
        chunks, fs', chunkLogs, raised := ChunkWavFile(wav, chunkLength, fs, env.ffprobe, env.ffmpeg);
        logQueue := logQueue + chunkLogs;
      } else {
        chunks, fs', raised := [wav], fs, false;
      }
    }

    /** Splitting, transcribing and saving a converted file. */
    method TranscribeConverted(env: Env, idx: nat, wav: string, fs: set<string>, checks: nat)
      returns (fs': set<string>, checks': nat, raised: bool)
      requires 1 <= idx <= |inputFiles|
      modifies this
      ensures Snapshot(fs', checks', raised) == TranscribeFile(Cfg(), env, old(Snapshot(fs, checks, false)), idx, wav)
    {
      var chunks;
      chunks, fs', raised := SplitConverted(env, wav, fs, checks);
      checks' := checks;
      if raised {
        return;
      }
      ghost var st1 := Snapshot(fs', checks, false);
      var doc, allSegments;
      doc, allSegments, checks' := TranscribeChunks(env, CreateDocument(Cfg(), inputFiles[idx - 1]), chunks, fs', checks);
      assert (Snapshot(fs', checks', false), doc) == (ChunkLoop(env, st1, CreateDocument(Cfg(), inputFiles[idx - 1]), [], chunks, 0).0,
                                                      ChunkLoop(env, st1, CreateDocument(Cfg(), inputFiles[idx - 1]), [], chunks, 0).1);
      fs' := Save(doc, idx, fs', checks');
    }

    /** The body of the file loop of run after its stop check. */
    method ProcessFile(env: Env, idx: nat, fs: set<string>, checks: nat) returns (fs': set<string>, checks': nat, raised: bool)
      requires 1 <= idx <= |inputFiles|
      modifies this
      ensures Snapshot(fs', checks', raised) == FileStep(Cfg(), env, old(Snapshot(fs, checks, false)), idx)
    {
      var f := inputFiles[idx - 1];
      Log(ProcessingMessage(idx, |inputFiles|, f));
      var conv := ConvertToWav(f, sampleRate, channels, fs, env.ffmpeg);
      logQueue := logQueue + conv.logs;
      fs', checks', raised := conv.fs, checks, false;
      if conv.wav.None? || conv.wav.value == "" {
        Log("WAV conversion failed for '" + f + "'. Skipping.");
        return;
      }
      fs', checks', raised := TranscribeConverted(env, idx, conv.wav.value, fs', checks');
    }

    /** The loop over the input files, numbered from 1, with a stop check
        before each; an exception ends it. */
    method ProcessAll(env: Env, fs0: set<string>, checks0: nat) returns (fs: set<string>, checks: nat, raised: bool)
      modifies this
      ensures Snapshot(fs, checks, raised) == FileLoop(Cfg(), env, old(Snapshot(fs0, checks0, false)), 1)
    {
      fs, checks, raised := fs0, checks0, false;
      var total := |inputFiles|;
      ghost var start := Snapshot(fs, checks, false);
      var idx := 1;
      while idx <= total
        invariant 1 <= idx <= total + 1
        invariant FileLoop(Cfg(), env, Snapshot(fs, checks, false), idx) == FileLoop(Cfg(), env, start, 1)
      {
        ghost var before := Snapshot(fs, checks, false);
        FileLoopUnfold(Cfg(), env, before, idx);
        var seen;
        seen, checks := IsStopSet(env, checks);
        if seen {
          Log("Stop requested. Halting worker.");
          return;
        }
        fs, checks, raised := ProcessFile(env, idx, fs, checks);
        if raised {
          return;
        }
        idx := idx + 1;
      }
    }

    /** run */
    method Run(env: Env, fs0: set<string>) returns (fs: set<string>, checks: nat, raised: bool)
      modifies this
      ensures Snapshot(fs, checks, raised) == RunSpec(Cfg(), env, old(Snapshot(fs0, 0, false)))
      ensures |inputFiles| > 0 && env.modelLoad.Loaded? ==>
                && old(progressQueue) <= progressQueue && old(saved) <= saved
                && ProgressFrom(progressQueue[|old(progressQueue)|..], 1, |inputFiles|)
                && SavedMatch(OutPaths(Cfg()), progressQueue[|old(progressQueue)|..], saved[|old(saved)|..])
                && (!raised ==> Last(logQueue) == "Transcription worker finished.")
    {
      fs, checks, raised := fs0, 0, false;
      var total := |inputFiles|;
      if total == 0 {
        Log("No files to process.");
        return;
      }
      var (model, loadLogs) := LoadWhisperModel(modelName, device, env.modelLoad);
      logQueue := logQueue + loadLogs;
      if model.None? {
        Log("Failed to load Whisper model '" + modelName + "'");
        return;
      }
      fs, checks, raised := ProcessAll(env, fs, checks);
      if !raised {
        Log("Transcription worker finished.");
      }
      RunProgress(Cfg(), env, old(Snapshot(fs0, 0, false)));
    }
  }
}
