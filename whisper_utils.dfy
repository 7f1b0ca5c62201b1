/** transcriber/whisper_utils.py: the failure fallbacks around loading a
    Whisper model and transcribing one WAV file, the MM:SS timecodes of the
    transcript and the list of model sizes. Whisper itself is an oracle whose
    outcome is a parameter. */
module WhisperUtils {
  import opened Wrappers
  import opened Text
  import opened Sorting

  /** What whisper.load_model does: returns a model or raises. */
  datatype LoadOutcome = Loaded | LoadError(message: string)

  /** A loaded model, known by the name and device it was loaded with. */
  datatype Model = Model(name: string, device: string)

  /** load_whisper_model: the model (None when loading raised) and the lines
      put on the log queue. */
  function LoadWhisperModel(name: string, device: string, outcome: LoadOutcome): (Option<Model>, seq<string>)
  {
    var loading := "Loading Whisper model '" + name + "' on device=" + device;
    match outcome
    case Loaded => (Some(Model(name, device)), [loading])
    case LoadError(m) => (None, [loading, "Error loading model '" + name + "': " + m])
  }

  /** Loading never raises: a failure gives None and one error line after the
      "Loading" line, a success the model for that name and device. */
  lemma LoadFallback(name: string, device: string, outcome: LoadOutcome)
    ensures var (model, logs) := LoadWhisperModel(name, device, outcome);
            && (model == None <==> outcome.LoadError?)
            && (model.Some? ==> model.value == Model(name, device))
            && 1 <= |logs| <= 2 && logs[0] == "Loading Whisper model '" + name + "' on device=" + device
            && (|logs| == 2 <==> outcome.LoadError?)
  {
  }

  /** One timed segment of a Whisper result. */
  datatype WhisperSegment = WhisperSegment(start: real, end: real, text: string)

  /** What model.transcribe does: returns a result dict, in which "text" or
      "segments" may be missing, or raises. */
  datatype TranscribeOutcome =
    | Transcribed(text: Option<string>, segments: Option<seq<WhisperSegment>>)
    | TranscribeError(message: string)

  /** The dict {"full_text": ..., "segments": ...}. */
  datatype Transcription = Transcription(fullText: string, segments: seq<WhisperSegment>)

  /** transcribe_audio_segment: the result and the lines put on the log queue. */
  function TranscribeAudioSegment(wavPath: string, outcome: TranscribeOutcome): (Transcription, seq<string>)
  {
    match outcome
    case Transcribed(text, segments) =>
      var fullText := if text.Some? then text.value else "";
      (Transcription(fullText, if segments.Some? then segments.value else []),
       ["Transcribed segment length: " + NatStr(|fullText|) + " characters."])
    case TranscribeError(m) =>
      (Transcription("", []), ["Error transcribing '" + wavPath + "': " + m])
  }

  /** Transcription never raises: a failure gives empty text and no segments,
      missing keys read as empty, and either way exactly one line is logged. */
  lemma TranscribeFallback(wavPath: string, outcome: TranscribeOutcome)
    ensures var (r, logs) := TranscribeAudioSegment(wavPath, outcome);
            && |logs| == 1
            && (outcome.TranscribeError? ==> r == Transcription("", []))
            && (outcome.Transcribed? ==>
                  && r.fullText == (if outcome.text.Some? then outcome.text.value else "")
                  && r.segments == (if outcome.segments.Some? then outcome.segments.value else []))
  {
  }

  // ---------------------------------------------------------------------------
  // format_timecode

  /** int(x) on a float: the integer part, truncating toward zero. */
  function Trunc(x: real): (n: int)
    ensures x >= 0.0 ==> n == x.Floor
    ensures x < 0.0 ==> n == -((-x).Floor)
    ensures (if n < 0 then -n else n) as real <= (if x < 0.0 then -x else x) < (if n < 0 then -n else n) as real + 1.0
  {
    if x >= 0.0 then x.Floor else -((-x).Floor)
  }

  /** format_timecode: f"{m:02d}:{s:02d}" with m, s = divmod(int(seconds), 60).
      Python's divmod by 60 floors, which Dafny's / and % do for a positive
      divisor. */
  function FormatTimecode(seconds: real): string
  {
    MinSec(Trunc(seconds))
  }

  /** f"{m:02d}:{s:02d}" with m, s = divmod(n, 60). */
  function MinSec(n: int): string
  {
    IntPad2(n / 60) + ":" + IntPad2(n % 60)
  }

  /** The seconds part is always two digits between 00 and 59, after the
      only ':'. For non-negative input the minutes are at least two digits
      and minutes * 60 + seconds is the whole number of seconds. */
  lemma TimecodeDigits(seconds: real)
    ensures var t := FormatTimecode(seconds);
            && |t| >= 5 && t[|t| - 3] == ':' && (t[0] == '-' || IsDigit(t[0]))
            && AllDigits(t[|t| - 2..]) && ParseNat(t[|t| - 2..]) < 60
            && (seconds >= 0.0 ==>
                  && AllDigits(t[..|t| - 3]) && |t[..|t| - 3]| >= 2
                  && ParseNat(t[..|t| - 3]) * 60 + ParseNat(t[|t| - 2..]) == seconds.Floor)
  {
    MinSecDigits(Trunc(seconds));
  }

  lemma MinSecDigits(n: int)
    ensures var t := MinSec(n);
            && |t| >= 5 && t[|t| - 3] == ':' && (t[0] == '-' || IsDigit(t[0]))
            && AllDigits(t[|t| - 2..]) && ParseNat(t[|t| - 2..]) < 60
            && (n >= 0 ==>
                  && AllDigits(t[..|t| - 3]) && |t[..|t| - 3]| >= 2
                  && ParseNat(t[..|t| - 3]) * 60 + ParseNat(t[|t| - 2..]) == n)
  {
    var m := IntPad2(n / 60);
    var s := IntPad2(n % 60);
    SecondsDigits(n % 60);
    MinutesDigits(n / 60);
    FieldsJoined(m, s);
  }

  lemma FieldsJoined(m: string, s: string)
    requires |m| >= 2 && |s| == 2
    ensures var t := m + ":" + s;
            |t| >= 5 && t[|t| - 3] == ':' && t[0] == m[0] && t[..|t| - 3] == m && t[|t| - 2..] == s
  {
    var t := m + ":" + s;
    assert t[..|t| - 3] == m;
    assert t[|t| - 2..] == s;
  }

  /** The seconds field: exactly two digits. */
  lemma SecondsDigits(r: int)
    requires 0 <= r < 60
    ensures var s := IntPad2(r);
            |s| == 2 && AllDigits(s) && ParseNat(s) == r
  {
    NatStrLength(r, 2);
    ZeroPadSpec(r, 2);
  }

  /** The minutes field: at least two characters, a sign or a digit first,
      and all digits reading back as m when m is not negative. */
  lemma MinutesDigits(m: int)
    ensures var s := IntPad2(m);
            && |s| >= 2 && (s[0] == '-' || IsDigit(s[0]))
            && (m >= 0 ==> AllDigits(s) && ParseNat(s) == m)
  {
    if m < 0 {
      ZeroPadSpec(-m, 1);
    } else {
      ZeroPadSpec(m, 2);
    }
  }

  /** Minutes do not roll over into hours. */
  lemma TimecodeHundredMinutes()
    ensures FormatTimecode(6000.0) == "100:00"
  {
    var n := Trunc(6000.0);
    assert n == 6000;
    assert n / 60 == 100 && n % 60 == 0;
    assert NatStr(1) == "1";
    assert NatStr(10) == NatStr(1) + "0";
    assert NatStr(100) == NatStr(10) + "0";
    assert Repeat('0', 0) == "";
    assert ZeroPad(100, 2) == "100";
    assert NatStr(0) == "0" && ZeroPad(0, 2) == "00";
  }

  /** int() truncates toward zero and divmod floors, so -0.5 s is 00:00 while
      -1.5 s is "-1:59". */
  lemma TimecodeNegative()
    ensures FormatTimecode(-0.5) == "00:00"
    ensures FormatTimecode(-1.5) == "-1:59"
  {
    assert Trunc(-0.5) == 0;
    assert Trunc(-1.5) == -1;
    assert -1 / 60 == -1 && -1 % 60 == 59;
    assert NatStr(0) == "0" && ZeroPad(0, 2) == "00";
    assert NatStr(1) == "1" && IntPad2(-1) == "-1";
    assert NatStr(5) == "5" && NatStr(9) == "9" && NatStr(59) == "59";
    assert ZeroPad(59, 2) == "59";
  }

  // ---------------------------------------------------------------------------
  // get_available_models

  function AvailableModels(): seq<string>
  {
    ["tiny", "base", "small", "medium", "large", "large-v2"]
  }

  /** Six distinct sizes, smallest first, including the worker's default
      "medium". */
  lemma AvailableModelsFixed()
    ensures |AvailableModels()| == 6 && Distinct(AvailableModels())
    ensures AvailableModels()[0] == "tiny" && "medium" in AvailableModels()
  {
    var ms := AvailableModels();
    assert ms[3] == "medium";
  }
}
