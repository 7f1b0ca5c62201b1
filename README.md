# TranscriptAI core in Dafny

TranscriptAI turns audio and video files into Word transcripts. ffmpeg converts each input to a WAV file and may split it into fixed-length chunks. Whisper transcribes the chunks, and a background worker saves one document per file. A diarization step can label transcript segments with speakers. This project models the data handling between those engines and proves what it promises. The engines (Whisper, pyannote, ffmpeg, ffprobe) are oracles whose outcomes are parameters.

Modules, one per source file or shared concept:

- `Text`:
  - `str()` of integers;
  - the `02d`/`03d` format specifications;
  - `str.strip`;
  - Python's `<` on `str`.
- `Paths`:
  - `os.path.splitext`, `basename`, `dirname` and `join` (posixpath);
  - the filesystem, seen as the set of paths of its files, with `os.listdir` over it.
- `Sorting`: `sorted()`, as a stable sort by a real key and as a sort of `str` values.
- `Diarization` (`transcriber/diarization.py`):
  - the token fallback;
  - the speaker-count parameters;
  - the relabelling to `SPEAKER_NN`;
  - the grouping of tracks into the speakers dict;
  - the result and error dicts.
- `Attribution` (`transcriber/diarization.py`):
  - coalescing of speaker turns;
  - overlap scoring;
  - the gap-smoothing pass over the segment list. The pass runs in place on an array and writes through the aliased `sorted_segments`.
- `FfmpegUtils` (`transcriber/ffmpeg_utils.py`): conversion, duration probing and chunking into `temp_chunks`.
- `WhisperUtils` (`transcriber/whisper_utils.py`):
  - the load and transcribe fallbacks;
  - `format_timecode`;
  - the model list.
- `Docx`: a saved document is its path and its blocks (headings, paragraphs of runs, page breaks).
- `Worker` (`transcriber/transcription_worker.py`): the `TranscriptionWorker` class with `run`, `_log`, `stop` and the document text.
- `LegacyApp` (`audio_2_word_app.py`, without the Kivy GUI): the older conversion, chunking, chunked transcription, `process_file` and worker.

The two worker classes keep the source's fields, such as the queues, the stop event and the message buffer. Their methods, with their loops, are proved equal to specification functions over a `State` value. Lemmas about those functions state what the source promises.

Another thread may set the stop event. `Env.stopFrom` says when: the stop checks are numbered from 0, and the checks numbered `stopFrom` and later find the event set.

## Model

| member | source | states |
|---|---|---|
| Diarization.ResolveTokenSources | transcriber/diarization.py:89-104 | A given token wins over `HUGGING_FACE_TOKEN`, which is the fallback. Loading fails with the ImportError message when diarization is unavailable, and with the ValueError message when neither source has a token. An empty string counts as a token. |
| Diarization.ResolveTokenIgnoresEnvironment | transcriber/diarization.py:96-98 | When a token is given, the environment does not affect the outcome. |
| Diarization.PipelineParamsKeys | transcriber/diarization.py:247-262 | Equal bounds give only `num_speakers`. Different bounds give both `min_speakers` and `max_speakers`. A single bound gives only its own key. |
| Diarization.PipelineParamsAdmit | transcriber/diarization.py:247-262 | Whatever keys are chosen, the pipeline admits exactly the speaker counts between the given bounds. |
| Diarization.SpeakerMappingSpec | transcriber/diarization.py:289-298 | The mapping's keys are exactly the raw labels. The label at sorted position i maps to `SPEAKER_i`, zero-padded to two digits. No two labels get the same id. |
| Diarization.SpeakerMappingInjective | transcriber/diarization.py:296-298 | Different raw labels get different `SPEAKER_NN` ids. |
| Diarization.GroupTurns | transcriber/diarization.py:300-314 | The speakers-dict keys are distinct. Each list holds exactly the turns whose label maps to its key, in track order. An id that is not a key has no turns. So every track lands in exactly one list. |
| Diarization.GroupIds | transcriber/diarization.py:300-314 | The keys are the mapped labels in order of first appearance among the tracks. |
| Diarization.CollectLabels | transcriber/diarization.py:288-293 | The first loop collects exactly the set of raw labels. |
| Diarization.MapLabels | transcriber/diarization.py:295-298 | The enumerate loop over the sorted labels builds the mapping label -> `SPEAKER_i`. |
| Diarization.GroupTracks | transcriber/diarization.py:300-314 | The append loop builds the grouped speakers dict. |
| Diarization.BuildSpeakers | transcriber/diarization.py:288-314 | The three loops give the speaker mapping and the grouped dict, and the mapping covers every track. |
| Diarization.PerformDiarization | transcriber/diarization.py:192-331 | Unavailable diarization gives the error result. The pipeline is retried once, only after a TypeError. A success gives the grouped speakers, `num_speakers == len(speakers)` and the mapping. Any exception gives empty speakers, 0 speakers and the error text. |
| Diarization.DiarizationSpeakers | transcriber/diarization.py:316-323 | A success reports one speaker per distinct raw label, each called `SPEAKER_i` for some sorted position i. |
| Attribution.CoalesceTurns | transcriber/diarization.py:346-367 | The merge loop over one speaker's sorted turns computes the coalesced list. |
| Attribution.PostProcess | transcriber/diarization.py:333-369 | `post_process_speaker_segments` gives one coalesced list per key, with the keys in input order. |
| Attribution.Coalesced | transcriber/diarization.py:343-367 | The result has the same keys, in the same order, and each list is that speaker's turns coalesced. |
| Attribution.CoalescedKeys | transcriber/diarization.py:343-351 | Keys are kept. A speaker with no turns keeps an empty list, and only such a speaker gets one. |
| Attribution.SortByStartSorted | transcriber/diarization.py:348 | Sorting by start gives non-decreasing starts and a permutation of the turns. |
| Attribution.MergeFromSeparated | transcriber/diarization.py:356-367 | Consecutive output turns are at least 0.5 s apart, on any input. |
| Attribution.MergeFromSorted | transcriber/diarization.py:354-367 | Sorted input gives output sorted by start. |
| Attribution.MergeFromSeparatedInput | transcriber/diarization.py:356-364 | Turns that are already 0.5 s apart pass through unchanged. |
| Attribution.CoalesceSortedSeparated | transcriber/diarization.py:348-367 | Every coalesced list is sorted by start, with gaps of at least 0.5 s. |
| Attribution.CoalesceIdempotent | transcriber/diarization.py:348-367 | Coalescing twice is the same as coalescing once, even without assuming `start <= end`. |
| Attribution.MergeIsSpans | transcriber/diarization.py:354-364 | The sorted turns split into maximal runs of turns less than 0.5 s apart, and each run merges into one turn. That turn has the start of the run's first turn and the end of its last turn, not the largest end. |
| Attribution.BestFound | transcriber/diarization.py:398-418 | The scan keeps the largest total so far, starting from 0. It records the first speaker that strictly exceeded it, or none when no total is positive. |
| Attribution.BestIsFirstMax | transcriber/diarization.py:401-418 | The scan picks speaker w exactly when w has the strictly greatest positive total, with earlier speakers winning ties. It picks none exactly when every total is at most 0. |
| Attribution.LabelChoice | transcriber/diarization.py:420-424 | When speaker w has the strictly greatest positive total, with earlier speakers winning ties, the label is w's key, or `UNKNOWN` when that key is "". Any other label is `UNKNOWN`, and the label is `UNKNOWN` whenever no speaker has positive overlap. |
| Attribution.PickSpeaker | transcriber/diarization.py:393-424 | The nested loops compute that label. |
| Attribution.SumOverlap | transcriber/diarization.py:402-414 | The inner loop sums the positive parts of `min(ends) - max(starts)` over the speaker's turns. The total is never negative, and it is positive exactly when some turn overlaps the segment. |
| Attribution.Labelled | transcriber/diarization.py:393-424 | Every segment gets the label of its own scoring, and every other key is kept. |
| Attribution.Smooth | transcriber/diarization.py:431-441 | The first segment is kept. Each later segment is one step from its already updated predecessor. |
| Attribution.SmoothChanges | transcriber/diarization.py:436-441 | Only `UNKNOWN` speakers are rewritten, always to the updated predecessor's speaker. Start, end and text never change. |
| Attribution.SmoothLeavesNoGap | transcriber/diarization.py:436-441 | No `UNKNOWN` segment is left less than 1.0 s after a known one. |
| Attribution.SmoothChains | transcriber/diarization.py:431-441 | A known speaker propagates down a chain of close `UNKNOWN` segments, because the updates are in place. |
| Attribution.SmoothIdempotent | transcriber/diarization.py:428-441 | A second pass changes nothing. |
| Attribution.SegmentOrder | transcriber/diarization.py:428 | The start order is a permutation of the indices, sorted by start. |
| Attribution.AttributedKeeps | transcriber/diarization.py:393-443 | In start order, every final segment has its original times and text and has a speaker. |
| Attribution.AssignSpeakersToSegments | transcriber/diarization.py:371-443 | With no speakers the list is untouched. Otherwise the segment at start-order position k ends up as entry k of the smoothing pass over the labelled list, written in place. |
| Attribution.LabelSegments | transcriber/diarization.py:393-424 | The first loop labels every segment of the array in place. |
| Attribution.SmoothInOrder | transcriber/diarization.py:428-441 | The second loop runs the smoothing pass over the array, visiting it in the given order. |
| Sorting.GatherStableOrderIsPermutation | transcriber/diarization.py:348 | `sorted` by key returns the same records with the same multiplicities. |
| Sorting.StableOrderOfSortedIsIdentity | transcriber/diarization.py:428 | Records already in key order keep their positions (the sort is stable). |
| Sorting.StrictlySortedUnique | transcriber/ffmpeg_utils.py:130 | Sorting a listing gives the one str-ordered list of its names, whatever order the listing came in. |
| Paths.SplitExtSpec | transcriber/ffmpeg_utils.py:32 | The extension is empty, or a '.' followed by no other '.' or '/'. It is non-empty exactly when the last '.' is in the last component after something other than dots. Root plus extension is the path. |
| Paths.WavSiblingDirName | transcriber/ffmpeg_utils.py:38 | Replacing the extension with `.wav` keeps the directory. |
| Paths.SortedListDir | transcriber/ffmpeg_utils.py:130 | `sorted(os.listdir(d))` is the str-ordered list of d's entries. |
| FfmpegUtils.ConvertSkipsWav | transcriber/ffmpeg_utils.py:32-36 | An input whose extension lower-cases to `.wav` is returned as it is. ffmpeg does not run and the filesystem is unchanged. |
| FfmpegUtils.UpperCaseWavSkipped | transcriber/ffmpeg_utils.py:33 | The test ignores letter case ("a.WAV" is skipped). |
| FfmpegUtils.ConvertOtherwise | transcriber/ffmpeg_utils.py:38-58 | Any other input is converted to `splitext(input)[0] + ".wav"`, in its own directory. ffmpeg runs after a stale output is removed. The result is that path exactly when ffmpeg succeeds, and None with the error lines when it fails. |
| FfmpegUtils.ConvertKeepsInput | transcriber/ffmpeg_utils.py:38-40 | The file removed before converting is never the input itself. |
| FfmpegUtils.Fixed2Digits | transcriber/ffmpeg_utils.py:72 | `{duration:.2f}` reads back as the duration rounded to hundredths, with ties to even. |
| FfmpegUtils.DurationFallback | transcriber/ffmpeg_utils.py:60-80 | The intended reading (the corrected half of the third finding): every failure gives 0.0 and nothing raises. A non-zero exit logs the error with its captured streams, and a successful probe gives its value. |
| FfmpegUtils.DurationAsWritten | transcriber/ffmpeg_utils.py:60-80 | As written, the probe raises exactly when ffprobe fails with non-empty captured stdout or stderr: with `text=True` these are `str`, and the `.decode` at lines 13 and 19 fails. It then logs only the "Subprocess error" line. In every other case it gives the intended reading. |
| FfmpegUtils.DurationRaisesOnInvalidData | transcriber/ffmpeg_utils.py:69-75 | A file that ffprobe rejects with "Invalid data found when processing input" on stderr raises. The intended reading gives 0.0 instead. |
| FfmpegUtils.CleanupExact | transcriber/ffmpeg_utils.py:107-110 | Cleanup removes exactly the entries of `temp_chunks` that start with `base + "_chunk_"` and end with `.wav`. Every other file is untouched. |
| FfmpegUtils.RemoveStaleChunks | transcriber/ffmpeg_utils.py:108-110 | The deletion loop over the listing leaves exactly that filesystem. |
| FfmpegUtils.CollectChunks | transcriber/ffmpeg_utils.py:129-132 | The collection loop over the sorted listing gives the chunk-named entries in str order. |
| FfmpegUtils.ChunkWavFile | transcriber/ffmpeg_utils.py:82-136 | `chunk_wav_file` returns, leaves on disk and logs what the specification of the split gives, and raises where it raises. |
| FfmpegUtils.ChunkRaisesOnProbe | transcriber/ffmpeg_utils.py:82-88 | `chunk_wav_file` raises exactly when its duration probe raises. Nothing else in it raises, and then nothing on disk has changed. |
| FfmpegUtils.ChunkShort | transcriber/ffmpeg_utils.py:88-97 | A duration `<= 0` or `<= chunk_length` leaves the filesystem unchanged. Unless the probe raised, the result is exactly `[file_path]`. |
| FfmpegUtils.ChunkLong | transcriber/ffmpeg_utils.py:99-136 | A longer file raises nothing. It gives `[file_path]` when segmenting fails, and otherwise exactly the chunk-named files of `temp_chunks`, strictly sorted. |
| FfmpegUtils.ChunkNameMatches | transcriber/ffmpeg_utils.py:105-131 | Every name the `_chunk_%03d.wav` pattern produces is collected. |
| FfmpegUtils.ChunkNameOrder | transcriber/ffmpeg_utils.py:105-130 | Below index 1000, name order is index order. |
| FfmpegUtils.ChunkThousandSortsEarly | transcriber/ffmpeg_utils.py:105-130 | From index 1000 on the order breaks: chunk 1000 sorts before chunk 999. |
| WhisperUtils.LoadFallback | transcriber/whisper_utils.py:5-18 | Loading never raises. A failure gives None with one error line after the "Loading" line. A success gives the model. |
| WhisperUtils.TranscribeFallback | transcriber/whisper_utils.py:25-55 | A failure gives `{"full_text": "", "segments": []}`. Missing keys read as empty. Exactly one line is logged either way. |
| WhisperUtils.TimecodeDigits | transcriber/whisper_utils.py:20-23 | The seconds field is two digits, 00 to 59, after the last ':'. For non-negative input the minutes have at least two digits and `m*60 + s == int(seconds)`. |
| WhisperUtils.TimecodeHundredMinutes | transcriber/whisper_utils.py:22-23 | Minutes do not roll over: 6000 s is "100:00". |
| WhisperUtils.TimecodeNegative | transcriber/whisper_utils.py:22-23 | `int` truncates and `divmod` floors: -0.5 s is "00:00" and -1.5 s is "-1:59". |
| WhisperUtils.AvailableModelsFixed | transcriber/whisper_utils.py:61-63 | The list is the fixed six sizes, all distinct, and includes "medium". |
| Worker.DetailsListChunkLength | transcriber/transcription_worker.py:58-65 | The details list the chunk length exactly when chunking is on. |
| Worker.SegmentTextShape | transcriber/transcription_worker.py:74-93 | A paragraph starts with `[Chunk k] ` exactly when a chunk index is given. It always ends with the stripped segment text. |
| Worker.LogLinesAppend | transcriber/transcription_worker.py:169-171 | The log paragraph has one `msg + "\n"` line per buffered message, in order. |
| Worker.OutPathInOutDir | transcriber/transcription_worker.py:174-176 | The document is written directly inside `out_dir`, named after the input's base name plus `.docx`. |
| Worker.OutPathIgnoresDirectory | transcriber/transcription_worker.py:174-175 | Inputs with the same name in two directories share one output path. |
| Worker.RunWithoutFiles | transcriber/transcription_worker.py:98-101 | Zero files give one "No files to process." line and nothing else. |
| Worker.RunWithoutModel | transcriber/transcription_worker.py:103-111 | When the model fails to load, the run logs the load lines and the failure, then returns. It processes no file, emits no progress and logs no "finished" line. |
| Worker.ChunkLoopDoc | transcriber/transcription_worker.py:146-162 | The document gets the paragraphs of the chunks transcribed before any stop, in chunk order. |
| Worker.ChunkLoopSegments | transcriber/transcription_worker.py:145-163 | `all_segments` is the in-order concatenation of those chunks' segments. |
| Worker.ChunkLoopStopped | transcriber/transcription_worker.py:147-149 | The chunk loop ends early only on a stop check that found the event set, and then logs that as its last line. |
| Worker.ChunkLoopComplete | transcriber/transcription_worker.py:146-149 | Without a stop request every chunk is transcribed. |
| Worker.ChunkLoopFrame | transcriber/transcription_worker.py:146-163 | The chunk loop touches neither progress, saved documents nor files. The log and the buffer only grow. |
| Worker.FileStepConversionFailed | transcriber/transcription_worker.py:130-132 | A failed conversion saves nothing and emits no progress. Its messages stay in the buffer for the next file. |
| Worker.TranscribeFileSaved | transcriber/transcription_worker.py:134-184 | With chunking on, a WAV file that ffprobe rejects with captured output raises. Only the "Subprocess error" line is added, and nothing is saved or reported. Every other converted file is saved at its output path: the title block, then a processing log that begins with the buffered messages. Then `(idx, total)` is reported and the buffer is emptied. |
| Worker.SplitRaises | transcriber/transcription_worker.py:134-142 | The split raises exactly when chunking is on and ffprobe fails with captured output. It then logs only the "Subprocess error" line and changes no file. |
| Worker.FileStepSaved | transcriber/transcription_worker.py:113-184 | A converted file ends the thread exactly when chunking is on and ffprobe fails on its WAV with captured output. The last line is then the "Subprocess error" line, and nothing is saved or reported. Otherwise the file is saved and its progress reported, even when a stop cut its chunk loop short. Its log starts with the carried-over messages and its own "Processing file" line. |
| Worker.FileStepRaised | transcriber/transcription_worker.py:113-184 | A file step that raises ends on the "Subprocess error" line. |
| Worker.StepLoopProgress | transcriber/transcription_worker.py:113-116 | A stop-checked loop whose steps each report at most their own index reports increasing indexes, with one document per report. |
| Worker.FileLoopProgress | transcriber/transcription_worker.py:113-184 | The file loop reports progress only for files from idx on, in increasing order, saving exactly one document per report. |
| Worker.RunProgress | transcriber/transcription_worker.py:96-186 | A run with a loaded model reports `(idx, total)` with idx strictly increasing in 1..total, not necessarily consecutive. Each report matches one document saved at that file's output path. The run ends with "Transcription worker finished." unless a failing ffprobe raised, and then the thread ends on the "Subprocess error" line. |
| Worker.RunStoppedBeforeStart | transcriber/transcription_worker.py:113-186 | A stop set before the run starts processes no file: the run logs the load lines, the stop line and "finished". |
| Worker.TranscriptionWorker.Log | transcriber/transcription_worker.py:42-48 | `_log` appends the message to the log queue and to `doc_messages`, and changes nothing else. |
| Worker.TranscriptionWorker.Stop | transcriber/transcription_worker.py:188-190 | `stop` sets the event and changes nothing else. |
| Worker.TranscriptionWorker.TranscribeChunks | transcriber/transcription_worker.py:145-163 | The chunk loop runs, with its stop check, as the specification's chunk loop does. |
| Worker.TranscriptionWorker.ProcessFile | transcriber/transcription_worker.py:118-184 | One iteration of the file loop after its stop check is the specification's file step, including its raise. |
| Worker.TranscriptionWorker.Run | transcriber/transcription_worker.py:96-186 | `run` leaves the worker in the state the run specification gives, and reports whether the thread ended on an exception. With a loaded model, its progress reports and saved documents satisfy `RunProgress`, and unless it raised the last line is "finished". |
| LegacyApp.ConvertResult | audio_2_word_app.py:62-85 | ffmpeg always runs, after any file at `splitext(input)[0] + ".wav"` is removed. The result is that path exactly when ffmpeg succeeds, and None with the error lines otherwise. |
| LegacyApp.ConvertDeletesWavInput | audio_2_word_app.py:66-68 | For a `.wav` input, the output path is the input. The input is removed before ffmpeg is told to read it. |
| LegacyApp.ChunkWavFile | audio_2_word_app.py:115-163 | The deletion loop over the file's own directory and the sorted collection loop give what the specification of the split gives, and raise where it raises. |
| LegacyApp.ChunkShort | audio_2_word_app.py:120-128 | A duration `<= 0` or `<= chunk_length` changes nothing on disk and raises only if the probe raised. Otherwise the result is exactly `[file_path]`. |
| LegacyApp.ChunkRaises | audio_2_word_app.py:120-136 | The split raises exactly in two cases. The first is ffprobe failing with captured output: `.decode` on a `str` at line 54 or 56. The second is a file longer than one chunk whose path has no directory part, because `os.listdir("")` fails. |
| LegacyApp.ChunkLong | audio_2_word_app.py:130-163 | A longer file in a directory gives `[file_path]` when segmenting fails. Otherwise it gives exactly the files of that same directory named `fname_ + "_chunk_" ... ".wav"`, strictly sorted. |
| LegacyApp.ChunkLoopText | audio_2_word_app.py:191-206 | The combined text is the texts of the chunks transcribed before the loop ended, each followed by "\n", in order. Failed chunks add nothing. |
| LegacyApp.ChunkLoopStopped | audio_2_word_app.py:193-196 | The chunk loop ends early only when the stop event is set, and then logs "Stop event triggered. Halting transcription." last. |
| LegacyApp.ChunkLoopFrame | audio_2_word_app.py:191-206 | The chunk loop touches neither progress, documents nor files. Without a stop every chunk is transcribed. |
| LegacyApp.TranscribeText | audio_2_word_app.py:169-209 | A failed model load gives "". A loaded model gives the in-order text of the chunks transcribed before any stop, or of all chunks when there is no stop. The last line gives the text's length. |
| LegacyApp.TranscribeWhole | audio_2_word_app.py:177-181 | With `CHUNK_AUDIO` off, the WAV is the single chunk. The text is its transcript plus "\n", or "" when transcribing fails. |
| LegacyApp.TranscribeFrame | audio_2_word_app.py:169-209 | `transcribe_chunked` touches neither progress nor documents. It raises only through the split. |
| LegacyApp.SaveWritesTranscript | audio_2_word_app.py:225-233 | Unless the split raised, a converted file is saved at its output path as one paragraph holding the transcript. This holds even for an empty transcript after a failed model load. The last line names the path. |
| LegacyApp.ProcessConversionFailed | audio_2_word_app.py:219-223 | A failed conversion saves nothing and logs the skip last. |
| LegacyApp.ProcessFrame | audio_2_word_app.py:211-233 | `process_file` never reports progress. |
| LegacyApp.FileStepConversionFailed | audio_2_word_app.py:272-281 | A file whose conversion failed still gets its `(idx, total)` report. |
| LegacyApp.StepLoopReports | audio_2_word_app.py:267-281 | A stop-checked loop whose steps report their own index reports idx, idx+1, ... with no gap. Without a stop or an exception it reports every index up to total. |
| LegacyApp.RunProgress | audio_2_word_app.py:261-283 | Zero files give only "No files to process.". Otherwise progress is (1, N), (2, N), ... with no gap, failed files included. Without a stop or an exception every file is reported. Unless an exception ended the thread, the last line is "Transcription worker finished.". |
| LegacyApp.RunStoppedBeforeStart | audio_2_word_app.py:267-283 | A stop set before the run processes no file: the run logs the stop line and "finished". |
| LegacyApp.LegacyWorker.Log | audio_2_word_app.py:40-45 | `_log` with the worker's queue appends the message and changes nothing else. |
| LegacyApp.LegacyWorker.Stop | audio_2_word_app.py:285-287 | `stop` sets the event and changes nothing else. |
| LegacyApp.LegacyWorker.TranscribeChunks | audio_2_word_app.py:191-206 | The `+=` loop with its stop-check `break` computes the specification's chunk loop. |
| LegacyApp.LegacyWorker.TranscribeChunked | audio_2_word_app.py:169-209 | `transcribe_chunked` leaves the state and the text that the transcription specification gives, including a raise from the split. |
| LegacyApp.LegacyWorker.ProcessFile | audio_2_word_app.py:211-233 | `process_file` is the specification's file processing: it saves nothing when the split raises. |
| LegacyApp.LegacyWorker.Run | audio_2_word_app.py:261-283 | `run` leaves the worker in the state the run specification gives. That state logs no "finished" line when an exception ended the thread. |

## Left out

- The GUIs (Kivy, Qt, Tk dialogs), `main.py` and audio enhancement: widget wiring and signal processing, not data handling.
- Threads and queues: the queues are append-only sequences and the stop event is a boolean. `Env.stopFrom` models when another thread sets the event.
- The `print` branches taken when no log queue is given, and progress-queue truthiness: the workers always have their queues.
- The engines' internals (Whisper inference, pyannote, the ffmpeg and ffprobe processes): they are oracles. A loaded model transcribes a path in the same way at every call. The legacy `transcribe_chunked` loads the model once per file (audio_2_word_app.py:186), but one `Env.modelLoad` outcome serves every file, so a failed load followed by a successful one is not expressed.
- ffmpeg missing from the PATH (FileNotFoundError from `subprocess.run`): not modelled.
- The `os.makedirs(temp_dir, exist_ok=True)` call: directories exist implicitly in the set-of-paths filesystem.
- Paths are taken as written: no normalisation of `..`, `.` or repeated slashes.
- Floating point: times and durations are `real`, and `int(seconds)` truncates toward zero.
- `get_optimal_device`, the `suppress_stdout_stderr` context, the `logging`/`os.environ` mutations and the log lines of `perform_diarization`.
- `prepare_audio_for_diarization`: it imports functions that do not exist, so it always falls back to the original path, and the pipeline receives that path.
- python-docx styling (bold runs, colours, sizes, alignment): a document is its sequence of headings, paragraphs of run texts and page breaks.
- `str.lower` is modelled on ASCII only. For the comparison with ".wav" this is exact.
- Worker: the per-segment `_add_segment_to_doc` loop is modelled by the function `Worker.SegmentBlocks` rather than by a method with a loop, to keep the proof small; the document is the same.

## Findings

| source | as written | input that shows it | evidently intended | confidence | as-written member | corrected member |
|---|---|---|---|---|---|---|
| audio_2_word_app.py:66-68 | The output path `splitext(input)[0] + ".wav"` is removed before ffmpeg runs, even when it is the input itself. | `talk.wav`, present on disk: it is deleted, so ffmpeg has nothing to read. | Return a `.wav` input unchanged, as transcriber/ffmpeg_utils.py:32-36 does. | not executed | LegacyApp.ConvertDeletesWavInput | FfmpegUtils.ConvertKeepsInput |
| audio_2_word_app.py:134-136 | `os.listdir(os.path.dirname(file_path))` is called with `""` for a path without a directory part. It raises FileNotFoundError, which ends the worker thread. | `talk.mp3`, longer than 300 s, given as a bare relative name. | List the current directory, or a directory joined onto the file's, as transcriber/ffmpeg_utils.py:100-108 does. | not executed | LegacyApp.ChunkRaises | FfmpegUtils.ChunkLong |
| transcriber/ffmpeg_utils.py:69-75 | ffprobe runs with `text=True`, so a CalledProcessError carries `str` streams. `_log_subprocess_error` calls `.decode` on each non-empty one (lines 13 and 19). The AttributeError escapes the handler, `chunk_wav_file` and `run`, and ends the thread with no save, no progress and no "finished" line. audio_2_word_app.py:53-56 and 100-105 do the same. | With chunking on, `dir/a.wav` that ffprobe rejects with "Invalid data found when processing input" on stderr. | Log the streams as text and read the duration as 0.0, as the handler's `return 0.0` shows. | not executed | FfmpegUtils.DurationRaisesOnInvalidData | FfmpegUtils.DurationFallback |

The workers are modelled on the code as written for the third finding, since the raise decides whether a thread goes on: `FfmpegUtils.DurationSeconds` raises, and `FfmpegUtils.IntendedDuration` is the corrected reading.
