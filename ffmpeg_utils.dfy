/** transcriber/ffmpeg_utils.py: converting an input to WAV, reading its
    duration and splitting it into fixed-length chunks. The filesystem is the
    set of paths of its files; ffmpeg and ffprobe are oracles that receive the
    command line and the filesystem and report what happened. */
module FfmpegUtils {
  import opened Wrappers
  import opened Text
  import opened Sorting
  import opened Paths

  /** A subprocess.CalledProcessError: its str() and its captured output. */
  datatype ProcessError = ProcessError(description: string, stdout: string, stderr: string)

  /** What one run of ffmpeg leaves behind: the filesystem afterwards and,
      when it exits with a non-zero status, the error. */
  datatype ToolResult = Completed(fs: set<string>) | Failed(fs: set<string>, error: ProcessError)

  /** What one run of ffprobe gives: a duration whose text float() accepts, a
      non-zero exit status, or output that float() refuses. */
  datatype ProbeOutcome = Duration(seconds: real) | ProbeFailed(error: ProcessError) | Unreadable(message: string)

  /** _log_subprocess_error: the error, then the non-empty captured streams. */
  function SubprocessErrorLines(e: ProcessError): seq<string>
  {
    ["Subprocess error: " + e.description]
    + (if e.stdout != "" then ["STDOUT:\n" + e.stdout] else [])
    + (if e.stderr != "" then ["STDERR:\n" + e.stderr] else [])
  }

  // ---------------------------------------------------------------------------
  // convert_to_wav_ffmpeg

  /** ext.lower() == ".wav" */
  predicate IsWavExtension(ext: string)
  {
    AsciiLower(ext) == ".wav"
  }

  function ConvertCommand(input: string, output: string, sampleRate: int, channels: int): seq<string>
  {
    ["ffmpeg", "-y", "-i", input, "-vn", "-acodec", "pcm_s16le",
     "-ar", IntStr(sampleRate), "-ac", IntStr(channels), output]
  }

  /** The WAV path (None when ffmpeg fails), the filesystem afterwards and the
      lines put on the log queue. */
  datatype Converted = Converted(wav: Option<string>, fs: set<string>, logs: seq<string>)

  /** The path ffmpeg is told to write: the input with its extension replaced. */
  function WavPath(input: string): string
  {
    SplitExt(input).0 + ".wav"
  }

  function ConvertToWav(input: string, sampleRate: int, channels: int, fs: set<string>,
                        ffmpeg: (seq<string>, set<string>) -> ToolResult): Converted
  {
    if IsWavExtension(SplitExt(input).1) then
      Converted(Some(input), fs, ["Skipping conversion. '" + input + "' is already .wav"])
    else
      var output := WavPath(input);
      match ffmpeg(ConvertCommand(input, output, sampleRate, channels), fs - {output})
      case Completed(fs1) => Converted(Some(output), fs1, ["Converted '" + input + "' -> '" + output + "'"])
      case Failed(fs1, e) => Converted(None, fs1, SubprocessErrorLines(e))
  }

  /** An input whose extension is ".wav" in any letter case is returned as it
      is: ffmpeg is not run and nothing on disk changes. */
  lemma ConvertSkipsWav(input: string, sampleRate: int, channels: int, fs: set<string>,
                        ffmpeg: (seq<string>, set<string>) -> ToolResult,
                        other: (seq<string>, set<string>) -> ToolResult)
    requires IsWavExtension(SplitExt(input).1)
    ensures ConvertToWav(input, sampleRate, channels, fs, ffmpeg).wav == Some(input)
    ensures ConvertToWav(input, sampleRate, channels, fs, ffmpeg).fs == fs
    ensures ConvertToWav(input, sampleRate, channels, fs, ffmpeg) == ConvertToWav(input, sampleRate, channels, fs, other)
  {
  }

  /** The extension test ignores letter case. */
  lemma UpperCaseWavSkipped()
    ensures IsWavExtension(SplitExt("a.WAV").1)
  {
    SplitExtOfSimpleName("a", ".WAV");
    assert "a" + ".WAV" == "a.WAV";
    var l := AsciiLower(".WAV");
    assert l[0] == '.' && l[1] == 'w' && l[2] == 'a' && l[3] == 'v';
    assert l == ".wav";
  }

  /** Any other input is converted to its sibling WAV path with the given rate
      and channel count; the result is that path exactly when ffmpeg exits
      with status 0, and None otherwise. */
  lemma ConvertOtherwise(input: string, sampleRate: int, channels: int, fs: set<string>,
                         ffmpeg: (seq<string>, set<string>) -> ToolResult)
    requires !IsWavExtension(SplitExt(input).1)
    ensures var r := ConvertToWav(input, sampleRate, channels, fs, ffmpeg);
            var tool := ffmpeg(ConvertCommand(input, WavPath(input), sampleRate, channels), fs - {WavPath(input)});
            && r.fs == tool.fs
            && (tool.Completed? ==> r.wav == Some(WavPath(input)))
            && (tool.Failed? ==> r.wav == None && r.logs == SubprocessErrorLines(tool.error))
    ensures DirName(WavPath(input)) == DirName(input)
  {
    WavSiblingDirName(input);
  }

  /** The stale file removed before converting is never the input itself, so
      the input is still there when ffmpeg reads it. */
  lemma ConvertKeepsInput(input: string, sampleRate: int, channels: int, fs: set<string>)
    requires !IsWavExtension(SplitExt(input).1)
    requires input in fs
    ensures input in fs - {WavPath(input)}
  {
    var (root, ext) := SplitExt(input);
    var l := AsciiLower(".wav");
    assert l[0] == '.' && l[1] == 'w' && l[2] == 'a' && l[3] == 'v';
    assert l == ".wav";
    assert ext != ".wav";
    assert (root + ".wav")[|root|..] == ".wav";
    assert (root + ext)[|root|..] == ext;
  }

  // ---------------------------------------------------------------------------
  // get_duration_seconds

  /** round() to an integer with ties to even, as float formatting rounds. */
  function RoundHalfEven(a: real): (n: int)
    ensures a - 0.5 <= n as real <= a + 0.5
    ensures (n as real == a - 0.5 || n as real == a + 0.5) ==> n % 2 == 0
  {
    var f := a.Floor;
    var frac := a - f as real;
    if frac > 0.5 || (frac == 0.5 && f % 2 == 1) then f + 1 else f
  }

  /** format(x, '.2f'): the value rounded to hundredths, ties to even, with a
      leading '-' for negative values (also when they round to zero). */
  function Fixed2(x: real): (s: string)
  {
    var n := RoundHalfEven(if x < 0.0 then -x * 100.0 else x * 100.0);
    assert n >= 0;
    (if x < 0.0 then "-" else "") + NatStr(n / 100) + "." + ZeroPad(n % 100, 2)
  }

  /** The digits of format(x, '.2f') read back as a number of hundredths give
      x to the nearest hundredth. */
  lemma Fixed2Digits(x: real)
    requires x >= 0.0
    ensures var s := Fixed2(x);
            && |s| >= 4 && s[|s| - 3] == '.'
            && AllDigits(s[..|s| - 3]) && AllDigits(s[|s| - 2..])
            && ParseNat(s[|s| - 2..]) < 100
            && ParseNat(s[..|s| - 3]) * 100 + ParseNat(s[|s| - 2..]) == RoundHalfEven(x * 100.0)
  {
    var n := RoundHalfEven(x * 100.0);
    assert n >= 0;
    var hi := NatStr(n / 100);
    var lo := ZeroPad(n % 100, 2);
    NatStrLength(n % 100, 2);
    ZeroPadSpec(n % 100, 2);
    var s := Fixed2(x);
    assert s == hi + "." + lo;
    assert s[..|s| - 3] == hi && s[|s| - 2..] == lo;
    ParseNatStr(n / 100);
  }

  function ProbeCommand(path: string): seq<string>
  {
    ["ffprobe", "-v", "error", "-show_entries", "format=duration",
     "-of", "default=noprint_wrappers=1:nokey=1", path]
  }

  /** The duration read, the lines put on the log queue, and whether an
      exception left get_duration_seconds. */
  datatype Probed = Probed(seconds: real, logs: seq<string>, raised: bool)

  /** ffprobe runs with text=True, so the captured streams of its error are
      str; _log_subprocess_error calls .decode on each non-empty one, which
      str does not have, and the AttributeError escapes the handler. */
  predicate ProbeRaises(outcome: ProbeOutcome)
  {
    outcome.ProbeFailed? && (outcome.error.stdout != "" || outcome.error.stderr != "")
  }

  /** get_duration_seconds as written: a failure with captured output raises
      right after the "Subprocess error" line. */
  function DurationSeconds(path: string, fs: set<string>,
                           ffprobe: (seq<string>, set<string>) -> ProbeOutcome): Probed
  {
    match ffprobe(ProbeCommand(path), fs)
    case Duration(d) => Probed(d, ["Duration of '" + path + "' is " + Fixed2(d) + " seconds."], false)
    case ProbeFailed(e) =>
      if e.stdout != "" || e.stderr != "" then Probed(0.0, ["Subprocess error: " + e.description], true)
      else Probed(0.0, SubprocessErrorLines(e), false)
    case Unreadable(m) => Probed(0.0, ["Error reading duration of '" + path + "': " + m], false)
  }

  /** get_duration_seconds as its handlers intend: every failure is logged in
      full and reads as a duration of 0.0. */
  function IntendedDuration(path: string, fs: set<string>,
                            ffprobe: (seq<string>, set<string>) -> ProbeOutcome): Probed
  {
    match ffprobe(ProbeCommand(path), fs)
    case Duration(d) => Probed(d, ["Duration of '" + path + "' is " + Fixed2(d) + " seconds."], false)
    case ProbeFailed(e) => Probed(0.0, SubprocessErrorLines(e), false)
    case Unreadable(m) => Probed(0.0, ["Error reading duration of '" + path + "': " + m], false)
  }

  /** The intended reading never raises: every failure gives 0.0, a
      successful probe gives its value, and a non-zero exit logs the error
      with its captured streams. */
  lemma DurationFallback(path: string, fs: set<string>, ffprobe: (seq<string>, set<string>) -> ProbeOutcome)
    ensures var outcome := ffprobe(ProbeCommand(path), fs);
            var r := IntendedDuration(path, fs, ffprobe);
            && r.seconds == (if outcome.Duration? then outcome.seconds else 0.0)
            && !r.raised && |r.logs| >= 1
            && (outcome.ProbeFailed? ==> r.logs == SubprocessErrorLines(outcome.error))
  {
  }

  /** The code as written raises exactly when ffprobe fails with captured
      output, after logging only the "Subprocess error" line; otherwise it
      is the intended reading. */
  lemma DurationAsWritten(path: string, fs: set<string>, ffprobe: (seq<string>, set<string>) -> ProbeOutcome)
    ensures var outcome := ffprobe(ProbeCommand(path), fs);
            var r := DurationSeconds(path, fs, ffprobe);
            && (r.raised <==> ProbeRaises(outcome))
            && (r.raised ==> r.logs == ["Subprocess error: " + outcome.error.description] && r.seconds == 0.0)
            && (!r.raised ==> r == IntendedDuration(path, fs, ffprobe))
  {
  }

  /** A WAV file that ffprobe rejects with a message on stderr raises. */
  lemma DurationRaisesOnInvalidData(path: string, fs: set<string>, ffprobe: (seq<string>, set<string>) -> ProbeOutcome)
    requires var outcome := ffprobe(ProbeCommand(path), fs);
             outcome.ProbeFailed? && outcome.error.stderr == "Invalid data found when processing input"
    ensures DurationSeconds(path, fs, ffprobe).raised
    ensures !IntendedDuration(path, fs, ffprobe).raised && IntendedDuration(path, fs, ffprobe).seconds == 0.0
  {
  }

  // ---------------------------------------------------------------------------
  // chunk_wav_file

  /** The names chunk_wav_file treats as chunks of base. */
  predicate IsChunkName(base: string, f: string)
  {
    StartsWith(f, base + "_chunk_") && EndsWith(f, ".wav")
  }

  /** The name ffmpeg's segment muxer gives chunk k for the pattern
      "{base}_chunk_%03d.wav". */
  function ChunkName(base: string, k: nat): string
  {
    base + "_chunk_" + ZeroPad(k, 3) + ".wav"
  }

  function ChunkDir(file: string): string
  {
    Join(DirName(file), "temp_chunks")
  }

  function ChunkBase(file: string): string
  {
    SplitExt(BaseName(file)).0
  }

  function SegmentCommand(file: string, chunkLength: int): seq<string>
  {
    ["ffmpeg", "-y", "-i", file, "-f", "segment", "-segment_time", IntStr(chunkLength),
     "-acodec", "pcm_s16le", "-ar", "16000", "-ac", "1",
     Join(ChunkDir(file), ChunkBase(file) + "_chunk_%03d.wav")]
  }

  /** The files of directory d that the cleanup removes. */
  function StaleChunks(fs: set<string>, d: string, base: string): set<string>
  {
    set n | n in Entries(fs, d) && IsChunkName(base, n) :: Join(d, n)
  }

  /** Cleanup removes exactly the chunk-named entries of the directory. */
  lemma CleanupExact(fs: set<string>, d: string, base: string, p: string)
    ensures p in fs - StaleChunks(fs, d, base) <==> p in fs && !(IsEntry(p, d) && IsChunkName(base, EntryName(p, d)))
  {
    if p in StaleChunks(fs, d, base) {
      var n :| n in Entries(fs, d) && IsChunkName(base, n) && p == Join(d, n);
      JoinName(d, n);
      assert p[|DirPrefix(d)|..] == n;
    }
    if p in fs && IsEntry(p, d) && IsChunkName(base, EntryName(p, d)) {
      EntriesExactly(fs, d, EntryName(p, d));
    }
  }

  /** The paths of the chunk-named entries among names, in their order. */
  function Collect(names: seq<string>, d: string, base: string): seq<string>
  {
    if names == [] then []
    else
      var n := names[|names| - 1];
      Collect(names[..|names| - 1], d, base) + (if IsChunkName(base, n) then [Join(d, n)] else [])
  }

  /** Collecting one more listing entry appends at most that entry's path. */
  lemma CollectSnoc(names: seq<string>, i: nat, d: string, base: string)
    requires i < |names|
    ensures Collect(names[..i + 1], d, base)
            == Collect(names[..i], d, base) + (if IsChunkName(base, names[i]) then [Join(d, names[i])] else [])
  {
    assert names[..i + 1][..i] == names[..i];
  }

  lemma {:induction false} CollectMembers(names: seq<string>, d: string, base: string, p: string)
    requires forall n :: n in names ==> IsName(n)
    ensures p in Collect(names, d, base) <==> IsEntry(p, d) && EntryName(p, d) in names && IsChunkName(base, EntryName(p, d))
  {
    if names != [] {
      var m := |names| - 1;
      var n := names[m];
      assert forall x :: x in names <==> x in names[..m] || x == n by {
        assert names == names[..m] + [n];
      }
      CollectMembers(names[..m], d, base, p);
      JoinName(d, n);
      if p == Join(d, n) {
        assert p[|DirPrefix(d)|..] == n;
      }
      if IsEntry(p, d) && EntryName(p, d) == n {
        assert p == Join(d, n);
      }
    }
  }

  lemma {:induction false} CollectSorted(names: seq<string>, d: string, base: string)
    requires forall n :: n in names ==> IsName(n)
    requires StrictlySorted(names)
    ensures StrictlySorted(Collect(names, d, base))
  {
    if names != [] {
      var m := |names| - 1;
      var n := names[m];
      CollectSorted(names[..m], d, base);
      if IsChunkName(base, n) {
        var c := Collect(names[..m], d, base);
        forall a | 0 <= a < |c| ensures LexLess(c[a], Join(d, n)) {
          assert c[a] in c;
          CollectMembers(names[..m], d, base, c[a]);
          var e := EntryName(c[a], d);
          var k :| 0 <= k < m && names[k] == e;
          JoinName(d, n);
          JoinName(d, e);
          LexCommonPrefix(DirPrefix(d), e, n);
        }
      }
    }
  }

  /** What chunk_wav_file returns, what it leaves on disk and logs, and
      whether it raised. */
  datatype Chunked = Chunked(chunks: seq<string>, fs: set<string>, logs: seq<string>, raised: bool)

  ghost function ChunkWav(file: string, chunkLength: int, fs: set<string>,
                          ffprobe: (seq<string>, set<string>) -> ProbeOutcome,
                          ffmpeg: (seq<string>, set<string>) -> ToolResult): Chunked
  {
    var probe := DurationSeconds(file, fs, ffprobe);
    if probe.seconds <= 0.0 then
      if probe.raised then Chunked([], fs, probe.logs, true)
      else Chunked([file], fs, probe.logs + ["Couldn't read duration for '" + file + "', skipping split."], false)
    else if probe.seconds <= chunkLength as real then
      Chunked([file], fs, probe.logs + ["No chunking needed for '" + file + "'."], false)
    else
      var d := ChunkDir(file);
      var base := ChunkBase(file);
      match ffmpeg(SegmentCommand(file, chunkLength), fs - StaleChunks(fs, d, base))
      case Failed(fs1, e) => Chunked([file], fs1, probe.logs + SubprocessErrorLines(e), false)
      case Completed(fs1) =>
        var chunks := Collect(SortedEntries(fs1, d), d, base);
        Chunked(chunks, fs1, probe.logs + ["Split '" + file + "' into " + NatStr(|chunks|) + " chunks."], false)
  }

  /** chunk_wav_file: the cleanup loop over the listing of temp_chunks and the
      loop collecting the sorted chunk names. */
  method ChunkWavFile(file: string, chunkLength: int, fs: set<string>,
                      ffprobe: (seq<string>, set<string>) -> ProbeOutcome,
                      ffmpeg: (seq<string>, set<string>) -> ToolResult)
    returns (chunks: seq<string>, fs': set<string>, logs: seq<string>, raised: bool)
    ensures Chunked(chunks, fs', logs, raised) == ChunkWav(file, chunkLength, fs, ffprobe, ffmpeg)
  {
    var probe := DurationSeconds(file, fs, ffprobe);
    if probe.seconds <= 0.0 {
      if probe.raised {
        return [], fs, probe.logs, true;
      }
      return [file], fs, probe.logs + ["Couldn't read duration for '" + file + "', skipping split."], false;
    }
    if probe.seconds <= chunkLength as real {
      return [file], fs, probe.logs + ["No chunking needed for '" + file + "'."], false;
    }
    var d := ChunkDir(file);
    var base := ChunkBase(file);
    var cleaned := RemoveStaleChunks(fs, d, base);
    var tool := ffmpeg(SegmentCommand(file, chunkLength), cleaned);
    if tool.Failed? {
      return [file], tool.fs, probe.logs + SubprocessErrorLines(tool.error), false;
    }
    chunks := CollectChunks(tool.fs, d, base);
    fs', raised := tool.fs, false;
    logs := probe.logs + ["Split '" + file + "' into " + NatStr(|chunks|) + " chunks."];
  }

  /** for f in os.listdir(temp_dir): if it is a chunk name, os.remove it. */
  method RemoveStaleChunks(fs: set<string>, d: string, base: string) returns (cleaned: set<string>)
    ensures cleaned == fs - StaleChunks(fs, d, base)
  {
    var names := ListDir(fs, d);
    cleaned := fs;
    var i := 0;
    while i < |names|
      invariant 0 <= i <= |names|
      invariant cleaned == fs - set n | n in names[..i] && IsChunkName(base, n) :: Join(d, n)
    {
      assert names[..i + 1] == names[..i] + [names[i]];
      if IsChunkName(base, names[i]) {
        cleaned := cleaned - {Join(d, names[i])};
      }
      i := i + 1;
    }
    assert names[..i] == names;
  }

  /** for f in sorted(os.listdir(temp_dir)): collect the chunk names. */
  method CollectChunks(fs: set<string>, d: string, base: string) returns (chunks: seq<string>)
    ensures chunks == Collect(SortedEntries(fs, d), d, base)
  {
    var names := SortedListDir(fs, d);
    chunks := [];
    var i := 0;
    while i < |names|
      invariant 0 <= i <= |names|
      invariant chunks == Collect(names[..i], d, base)
    {
      CollectSnoc(names, i, d, base);
      if IsChunkName(base, names[i]) {
        chunks := chunks + [Join(d, names[i])];
      }
      i := i + 1;
    }
    assert names[..i] == names;
  }

  /** A probe failure with captured output raises out of chunk_wav_file
      before anything changes on disk; nothing else in it raises. */
  lemma ChunkRaisesOnProbe(file: string, chunkLength: int, fs: set<string>,
                           ffprobe: (seq<string>, set<string>) -> ProbeOutcome,
                           ffmpeg: (seq<string>, set<string>) -> ToolResult)
    ensures var r := ChunkWav(file, chunkLength, fs, ffprobe, ffmpeg);
            && (r.raised <==> ProbeRaises(ffprobe(ProbeCommand(file), fs)))
            && (r.raised ==> r.fs == fs && r.logs == DurationSeconds(file, fs, ffprobe).logs)
  {
    DurationAsWritten(file, fs, ffprobe);
  }

  /** No split when the duration could not be read (it reads as 0.0) or the
      file is no longer than one chunk: nothing on disk changes, and unless
      the probe raised, the file itself is the only chunk. */
  lemma ChunkShort(file: string, chunkLength: int, fs: set<string>,
                   ffprobe: (seq<string>, set<string>) -> ProbeOutcome,
                   ffmpeg: (seq<string>, set<string>) -> ToolResult)
    requires var d := DurationSeconds(file, fs, ffprobe).seconds; d <= 0.0 || d <= chunkLength as real
    ensures var r := ChunkWav(file, chunkLength, fs, ffprobe, ffmpeg);
            && r.fs == fs
            && r.raised == DurationSeconds(file, fs, ffprobe).raised
            && (!r.raised ==> r.chunks == [file])
  {
  }

  /** A longer file is split by ffmpeg after the stale chunks of temp_chunks
      are removed; if ffmpeg fails the file itself is the only chunk, and
      otherwise the chunks are exactly the chunk-named files of temp_chunks,
      in increasing str order. */
  lemma ChunkLong(file: string, chunkLength: int, fs: set<string>,
                  ffprobe: (seq<string>, set<string>) -> ProbeOutcome,
                  ffmpeg: (seq<string>, set<string>) -> ToolResult)
    requires var d := DurationSeconds(file, fs, ffprobe).seconds; d > 0.0 && d > chunkLength as real
    ensures var d := ChunkDir(file);
            var base := ChunkBase(file);
            var tool := ffmpeg(SegmentCommand(file, chunkLength), fs - StaleChunks(fs, d, base));
            var r := ChunkWav(file, chunkLength, fs, ffprobe, ffmpeg);
            && !r.raised && r.fs == tool.fs
            && (tool.Failed? ==> r.chunks == [file])
            && (tool.Completed? ==>
                  && StrictlySorted(r.chunks)
                  && forall p :: p in r.chunks <==> p in tool.fs && IsEntry(p, d) && IsChunkName(base, EntryName(p, d)))
  {
    var d := ChunkDir(file);
    var base := ChunkBase(file);
    var tool := ffmpeg(SegmentCommand(file, chunkLength), fs - StaleChunks(fs, d, base));
    if tool.Completed? {
      var names := SortedEntries(tool.fs, d);
      CollectSorted(names, d, base);
      forall p ensures p in Collect(names, d, base) <==> p in tool.fs && IsEntry(p, d) && IsChunkName(base, EntryName(p, d)) {
        CollectMembers(names, d, base, p);
        if IsEntry(p, d) {
          EntriesExactly(tool.fs, d, EntryName(p, d));
        }
      }
    }
  }

  /** Every file written for the pattern is recognised as a chunk. */
  lemma ChunkNameMatches(base: string, k: nat)
    ensures IsChunkName(base, ChunkName(base, k))
  {
    var name := ChunkName(base, k);
    assert name[..|base + "_chunk_"|] == base + "_chunk_";
    assert name[|name| - 4..] == ".wav";
  }

  /** For the first thousand chunks, str order of the names is index order,
      so the chunks are transcribed in the order of the audio. */
  lemma ChunkNameOrder(base: string, i: nat, j: nat)
    requires i < 1000 && j < 1000
    ensures LexLess(ChunkName(base, i), ChunkName(base, j)) <==> i < j
  {
    NatStrLength(i, 3);
    NatStrLength(j, 3);
    var zi := ZeroPad(i, 3);
    var zj := ZeroPad(j, 3);
    ZeroPadSpec(i, 3);
    ZeroPadSpec(j, 3);
    DigitsOrder(zi, zj);
    var p := base + "_chunk_";
    assert ChunkName(base, i) == p + (zi + ".wav");
    assert ChunkName(base, j) == p + (zj + ".wav");
    LexCommonPrefix(p, zi + ".wav", zj + ".wav");
    if i < j {
      LexSameLengthSuffix(zi, zj, ".wav", ".wav");
    } else if i > j {
      DigitsOrder(zj, zi);
      LexSameLengthSuffix(zj, zi, ".wav", ".wav");
      LexAsymmetric(zi + ".wav", zj + ".wav");
    } else {
      LexIrreflexive(zi + ".wav");
    }
  }

  /** From the thousandth chunk on the order breaks: chunk 1000 sorts before
      chunk 999. */
  lemma ChunkThousandSortsEarly(base: string)
    ensures LexLess(ChunkName(base, 1000), ChunkName(base, 999))
  {
    var p := base + "_chunk_";
    var a := ZeroPad(1000, 3);
    var b := ZeroPad(999, 3);
    assert NatStr(1) == "1" && NatStr(10) == "10" && NatStr(100) == "100" && NatStr(1000) == "1000";
    assert NatStr(9) == "9" && NatStr(99) == "99" && NatStr(999) == "999";
    assert a == "1000" && b == "999";
    assert ChunkName(base, 1000) == p + (a + ".wav");
    assert ChunkName(base, 999) == p + (b + ".wav");
    LexCommonPrefix(p, a + ".wav", b + ".wav");
  }
}
