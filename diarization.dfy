/** The data handling of perform_diarization and get_diarization_pipeline
    (transcriber/diarization.py): the authentication token fallback, the
    speaker-count parameters handed to the pipeline, the renaming of raw
    labels to SPEAKER_NN and the grouping of tracks into the speakers dict. */
module Diarization {
  import opened Wrappers
  import opened Text
  import opened Sorting
  import opened Attribution

  // ---------------------------------------------------------------------------
  // get_diarization_pipeline: which token is used

  const TokenVariable: string := "HUGGING_FACE_TOKEN"
  const NoTokenMessage: string :=
    "No authentication token provided for HuggingFace. Please set the HUGGING_FACE_TOKEN environment variable or provide a token directly."

  /** The ImportError raised when pyannote.audio could not be imported. */
  function UnavailableMessage(importError: string): string
  {
    "Speaker diarization is not available: " + importError + ". Please install pyannote.audio version 3.0.0."
  }

  /** The token the pipeline is loaded with, or the exception raised instead.
      `available` is DIARIZATION_AVAILABLE and `env` is os.environ. */
  function ResolveToken(available: bool, importError: string, given: Option<string>, env: map<string, string>): Result<string>
  {
    if !available then Failure(UnavailableMessage(importError))
    else
      var token := if given.Some? then given else if TokenVariable in env then Some(env[TokenVariable]) else None;
      if token.None? then Failure(NoTokenMessage) else Success(token.value)
  }

  /** A token given by the caller wins over the environment, the environment
      variable is the fallback, and loading fails only when diarization is not
      available or neither source has a token. An empty string is a token
      (it is not None). */
  lemma ResolveTokenSources(available: bool, importError: string, given: Option<string>, env: map<string, string>)
    ensures ResolveToken(available, importError, given, env).Success? <==> available && (given.Some? || TokenVariable in env)
    ensures available && given.Some? ==> ResolveToken(available, importError, given, env) == Success(given.value)
    ensures available && given.None? && TokenVariable in env ==> ResolveToken(available, importError, given, env) == Success(env[TokenVariable])
    ensures !available ==> ResolveToken(available, importError, given, env) == Failure(UnavailableMessage(importError))
    ensures available && given.None? && TokenVariable !in env ==> ResolveToken(available, importError, given, env) == Failure(NoTokenMessage)
  {
  }

  /** The environment is consulted only when no token is given. */
  lemma ResolveTokenIgnoresEnvironment(available: bool, importError: string, token: string, env1: map<string, string>, env2: map<string, string>)
    ensures ResolveToken(available, importError, Some(token), env1) == ResolveToken(available, importError, Some(token), env2)
  {
  }

  // ---------------------------------------------------------------------------
  // The parameters dict for the pipeline call

  /** The keys "num_speakers", "min_speakers" and "max_speakers" of the
      parameters dict; None is an absent key. */
  datatype Params = Params(numSpeakers: Option<int>, minSpeakers: Option<int>, maxSpeakers: Option<int>)

  function PipelineParams(minSpeakers: Option<int>, maxSpeakers: Option<int>): Params
  {
    if minSpeakers.Some? && maxSpeakers.Some? then
      if minSpeakers.value == maxSpeakers.value then Params(minSpeakers, None, None)
      else Params(None, minSpeakers, maxSpeakers)
    else if maxSpeakers.Some? then Params(None, None, maxSpeakers)
    else if minSpeakers.Some? then Params(None, minSpeakers, None)
    else Params(None, None, None)
  }

  /** Equal bounds become an exact count, different bounds are both passed,
      and a single bound is passed alone. */
  lemma PipelineParamsKeys(minSpeakers: Option<int>, maxSpeakers: Option<int>)
    ensures var p := PipelineParams(minSpeakers, maxSpeakers);
      && (minSpeakers.Some? && minSpeakers == maxSpeakers ==> p == Params(minSpeakers, None, None))
      && (minSpeakers.Some? && maxSpeakers.Some? && minSpeakers != maxSpeakers ==> p == Params(None, minSpeakers, maxSpeakers))
      && (minSpeakers.None? ==> p == Params(None, None, maxSpeakers))
      && (maxSpeakers.None? ==> p == Params(None, minSpeakers, None))
  {
  }

  /** The speaker counts a parameters dict allows. */
  predicate Admits(p: Params, n: int)
  {
    && (p.numSpeakers.Some? ==> n == p.numSpeakers.value)
    && (p.minSpeakers.Some? ==> p.minSpeakers.value <= n)
    && (p.maxSpeakers.Some? ==> n <= p.maxSpeakers.value)
  }

  /** Whatever keys are chosen, the pipeline is asked for exactly the counts
      between the given bounds. */
  lemma PipelineParamsAdmit(minSpeakers: Option<int>, maxSpeakers: Option<int>, n: int)
    ensures Admits(PipelineParams(minSpeakers, maxSpeakers), n) <==>
              (minSpeakers.Some? ==> minSpeakers.value <= n) && (maxSpeakers.Some? ==> n <= maxSpeakers.value)
  {
  }

  // ---------------------------------------------------------------------------
  // Label mapping

  /** One item of diarization.itertracks(yield_label=True): a turn and its raw
      label. */
  datatype Track = Track(start: real, end: real, speaker: string)

  function Labels(tracks: seq<Track>): (ls: seq<string>)
    ensures |ls| == |tracks| && forall k :: 0 <= k < |tracks| ==> ls[k] == tracks[k].speaker
  {
    seq(|tracks|, k requires 0 <= k < |tracks| => tracks[k].speaker)
  }

  /** The distinct elements in order of first appearance. */
  function Dedupe(s: seq<string>): (r: seq<string>)
    ensures Distinct(r) && forall x :: x in r <==> x in s
  {
    if s == [] then []
    else
      var p := Dedupe(s[..|s| - 1]);
      assert s == s[..|s| - 1] + [Last(s)];
      if Last(s) in p then p else p + [Last(s)]
  }

  /** sorted(original_speaker_ids). */
  function SortedLabels(tracks: seq<Track>): (r: seq<string>)
    ensures Distinct(r) && StrictlySorted(r) && forall x :: x in r <==> x in Labels(tracks)
  {
    var r := SortNames(Dedupe(Labels(tracks)));
    StrictlySortedDistinct(r);
    r
  }

  /** f"SPEAKER_{i:02d}". */
  function SpeakerName(i: nat): string
  {
    "SPEAKER_" + ZeroPad(i, 2)
  }

  lemma SpeakerNameInjective(i: nat, j: nat)
    requires SpeakerName(i) == SpeakerName(j)
    ensures i == j
  {
    var p := "SPEAKER_";
    assert ZeroPad(i, 2) == SpeakerName(i)[|p|..];
    assert ZeroPad(j, 2) == SpeakerName(j)[|p|..];
    ZeroPadInjective(i, j, 2);
  }

  /** The mapping the enumerate loop builds from the sorted labels. */
  function MapOf(ids: seq<string>): (m: map<string, string>)
    ensures m.Keys == set x | x in ids
  {
    if ids == [] then map[] else MapOf(ids[..|ids| - 1])[Last(ids) := SpeakerName(|ids| - 1)]
  }

  lemma {:induction false} MapOfAt(ids: seq<string>, i: nat)
    requires Distinct(ids) && i < |ids|
    ensures MapOf(ids)[ids[i]] == SpeakerName(i)
    decreases |ids|
  {
    if i < |ids| - 1 {
      var p := ids[..|ids| - 1];
      assert p[i] == ids[i];
      MapOfAt(p, i);
    }
  }

  /** speaker_mapping. */
  function SpeakerMapping(tracks: seq<Track>): map<string, string>
  {
    MapOf(SortedLabels(tracks))
  }

  /** The mapping covers exactly the raw labels, sends the label of sorted
      position i to SPEAKER_i (two digits at least), and never sends two labels
      to the same id. */
  lemma SpeakerMappingSpec(tracks: seq<Track>)
    ensures SpeakerMapping(tracks).Keys == set x | x in Labels(tracks)
    ensures forall i :: 0 <= i < |SortedLabels(tracks)| ==> SpeakerMapping(tracks)[SortedLabels(tracks)[i]] == SpeakerName(i)
    ensures Injective(SpeakerMapping(tracks))
  {
    SpeakerMappingAt(tracks);
    SpeakerMappingInjective(tracks);
  }

  lemma SpeakerMappingAt(tracks: seq<Track>)
    ensures forall i :: 0 <= i < |SortedLabels(tracks)| ==> SpeakerMapping(tracks)[SortedLabels(tracks)[i]] == SpeakerName(i)
  {
    var ids := SortedLabels(tracks);
    forall i | 0 <= i < |ids| ensures SpeakerMapping(tracks)[ids[i]] == SpeakerName(i) {
      MapOfAt(ids, i);
    }
  }

  lemma SpeakerMappingInjective(tracks: seq<Track>)
    ensures Injective(SpeakerMapping(tracks))
  {
    var ids := SortedLabels(tracks);
    var m := SpeakerMapping(tracks);
    SpeakerMappingAt(tracks);
    forall a, b | a in m && b in m && a != b ensures m[a] != m[b] {
      var i :| 0 <= i < |ids| && ids[i] == a;
      var j :| 0 <= j < |ids| && ids[j] == b;
      if m[a] == m[b] {
        SpeakerNameInjective(i, j);
      }
    }
  }

  predicate Injective(m: map<string, string>)
  {
    forall a, b :: a in m && b in m && a != b ==> m[a] != m[b]
  }

  // The speakers dict

  function Ids(sp: seq<SpeakerTurns>): (ids: seq<string>)
    ensures |ids| == |sp| && forall k :: 0 <= k < |sp| ==> ids[k] == sp[k].id
  {
    seq(|sp|, k requires 0 <= k < |sp| => sp[k].id)
  }

  /** Where key `id` sits in the dict, or -1 for `id not in speakers`. */
  function IndexOf(sp: seq<SpeakerTurns>, id: string): (i: int)
    ensures -1 <= i < |sp|
    ensures i >= 0 ==> sp[i].id == id
    ensures i < 0 ==> id !in Ids(sp)
  {
    if sp == [] then -1
    else if Last(sp).id == id then |sp| - 1
    else
      var i := IndexOf(sp[..|sp| - 1], id);
      assert Ids(sp) == Ids(sp[..|sp| - 1]) + [Last(sp).id];
      i
  }

  /** One step of the loop: create the key if missing, then append the turn. */
  function AddTurn(sp: seq<SpeakerTurns>, id: string, t: Turn): seq<SpeakerTurns>
  {
    var i := IndexOf(sp, id);
    if i < 0 then sp + [SpeakerTurns(id, [t])]
    else sp[i := SpeakerTurns(id, sp[i].turns + [t])]
  }

  predicate Covers(tracks: seq<Track>, m: map<string, string>)
  {
    forall k :: 0 <= k < |tracks| ==> tracks[k].speaker in m
  }

  /** The speakers dict after the second loop over the tracks. */
  function Group(tracks: seq<Track>, m: map<string, string>): seq<SpeakerTurns>
    requires Covers(tracks, m)
  {
    if tracks == [] then []
    else
      var t := Last(tracks);
      AddTurn(Group(tracks[..|tracks| - 1], m), m[t.speaker], Turn(t.start, t.end))
  }

  /** The turns of the tracks whose label maps to id, in track order. */
  function TurnsFor(tracks: seq<Track>, m: map<string, string>, id: string): seq<Turn>
    requires Covers(tracks, m)
  {
    if tracks == [] then []
    else
      var t := Last(tracks);
      TurnsFor(tracks[..|tracks| - 1], m, id) + (if m[t.speaker] == id then [Turn(t.start, t.end)] else [])
  }

  /** Every track lands in exactly one list: the keys are distinct, each list
      holds exactly the turns whose label maps to its key, in track order, and
      an id that is no key has no turns. */
  lemma {:induction false} GroupTurns(tracks: seq<Track>, m: map<string, string>)
    requires Covers(tracks, m)
    ensures Distinct(Ids(Group(tracks, m)))
    ensures forall k :: 0 <= k < |Group(tracks, m)| ==> Group(tracks, m)[k].turns == TurnsFor(tracks, m, Group(tracks, m)[k].id)
    ensures forall id :: id !in Ids(Group(tracks, m)) ==> TurnsFor(tracks, m, id) == []
    decreases |tracks|
  {
    if tracks != [] {
      var ts := tracks[..|tracks| - 1];
      var t := Last(tracks);
      GroupTurns(ts, m);
      if IndexOf(Group(ts, m), m[t.speaker]) < 0 {
        GroupTurnsNewKey(tracks, m);
      } else {
        GroupTurnsOldKey(tracks, m);
      }
    }
  }

  /** The lists of g are exactly the turns each key gets from the tracks. */
  ghost predicate GroupedAs(g: seq<SpeakerTurns>, tracks: seq<Track>, m: map<string, string>)
    requires Covers(tracks, m)
  {
    && Distinct(Ids(g))
    && (forall k :: 0 <= k < |g| ==> g[k].turns == TurnsFor(tracks, m, g[k].id))
    && (forall id :: id !in Ids(g) ==> TurnsFor(tracks, m, id) == [])
  }

  /** The last track's key is new: it gets a list of its own. */
  lemma GroupTurnsNewKey(tracks: seq<Track>, m: map<string, string>)
    requires Covers(tracks, m) && tracks != []
    requires var ts := tracks[..|tracks| - 1];
             GroupedAs(Group(ts, m), ts, m) && IndexOf(Group(ts, m), m[Last(tracks).speaker]) < 0
    ensures GroupedAs(Group(tracks, m), tracks, m)
  {
    var ts := tracks[..|tracks| - 1];
    var t := Last(tracks);
    var g := Group(ts, m);
    var id0 := m[t.speaker];
    var turn := Turn(t.start, t.end);
    var g' := Group(tracks, m);
    assert g' == g + [SpeakerTurns(id0, [turn])];
    assert Ids(g') == Ids(g) + [id0];
    forall k | 0 <= k < |g'| ensures g'[k].turns == TurnsFor(tracks, m, g'[k].id) {
      if k < |g| {
        assert g'[k] == g[k] && Ids(g)[k] == g[k].id;
        assert TurnsFor(tracks, m, g[k].id) == TurnsFor(ts, m, g[k].id) + [];
      } else {
        assert TurnsFor(tracks, m, id0) == TurnsFor(ts, m, id0) + [turn];
      }
    }
    forall id | id !in Ids(g') ensures TurnsFor(tracks, m, id) == [] {
      assert id != id0 && id !in Ids(g);
      assert TurnsFor(tracks, m, id) == TurnsFor(ts, m, id) + [];
    }
  }

  /** The last track's key exists: its turn goes at the end of that list. */
  lemma GroupTurnsOldKey(tracks: seq<Track>, m: map<string, string>)
    requires Covers(tracks, m) && tracks != []
    requires var ts := tracks[..|tracks| - 1];
             GroupedAs(Group(ts, m), ts, m) && IndexOf(Group(ts, m), m[Last(tracks).speaker]) >= 0
    ensures GroupedAs(Group(tracks, m), tracks, m)
  {
    var ts := tracks[..|tracks| - 1];
    var t := Last(tracks);
    var g := Group(ts, m);
    var id0 := m[t.speaker];
    var turn := Turn(t.start, t.end);
    var g' := Group(tracks, m);
    var i := IndexOf(g, id0);
    assert g' == g[i := SpeakerTurns(id0, g[i].turns + [turn])];
    assert Ids(g') == Ids(g);
    forall k | 0 <= k < |g'| ensures g'[k].turns == TurnsFor(tracks, m, g'[k].id) {
      if k != i {
        assert g'[k] == g[k];
        assert Ids(g)[k] != Ids(g)[i];
      }
    }
  }

  /** A step adds a key exactly when it is new. */
  lemma AddTurnIds(sp: seq<SpeakerTurns>, id: string, t: Turn)
    ensures Ids(AddTurn(sp, id, t)) == if id in Ids(sp) then Ids(sp) else Ids(sp) + [id]
  {
    var i := IndexOf(sp, id);
    if i >= 0 {
      assert Ids(sp)[i] == id;
    }
  }

  function MapSeq(m: map<string, string>, s: seq<string>): (r: seq<string>)
    requires forall x :: x in s ==> x in m
    ensures |r| == |s| && forall k :: 0 <= k < |s| ==> r[k] == m[s[k]]
  {
    seq(|s|, k requires 0 <= k < |s| => m[s[k]])
  }

  lemma MapSeqMember(m: map<string, string>, s: seq<string>, x: string)
    requires (forall y :: y in s ==> y in m) && x in m && Injective(m)
    ensures m[x] in MapSeq(m, s) <==> x in s
  {
    if x in s {
      var j :| 0 <= j < |s| && s[j] == x;
      assert MapSeq(m, s)[j] == m[x];
    }
    if m[x] in MapSeq(m, s) {
      var j :| 0 <= j < |s| && MapSeq(m, s)[j] == m[x];
      assert m[s[j]] == m[x];
    }
  }

  lemma MapSeqSnoc(m: map<string, string>, s: seq<string>, x: string)
    requires (forall y :: y in s ==> y in m) && x in m
    ensures MapSeq(m, s + [x]) == MapSeq(m, s) + [m[x]]
  {
  }

  lemma DedupeLast(s: seq<string>)
    requires s != []
    ensures Dedupe(s) == if Last(s) in s[..|s| - 1] then Dedupe(s[..|s| - 1]) else Dedupe(s[..|s| - 1]) + [Last(s)]
  {
  }

  /** With an injective mapping, the keys are the mapped labels in order of
      their first appearance among the tracks, so there are as many speakers
      as distinct raw labels. */
  lemma {:induction false} GroupIds(tracks: seq<Track>, m: map<string, string>)
    requires Covers(tracks, m) && Injective(m)
    ensures Ids(Group(tracks, m)) == MapSeq(m, Dedupe(Labels(tracks)))
    decreases |tracks|
  {
    if tracks != [] {
      var ts := tracks[..|tracks| - 1];
      var t := Last(tracks);
      GroupIds(ts, m);
      var ls := Labels(tracks);
      assert ls[..|ls| - 1] == Labels(ts) && Last(ls) == t.speaker;
      DedupeLast(ls);
      var d := Dedupe(Labels(ts));
      assert Group(tracks, m) == AddTurn(Group(ts, m), m[t.speaker], Turn(t.start, t.end));
      AddTurnIds(Group(ts, m), m[t.speaker], Turn(t.start, t.end));
      MapSeqMember(m, d, t.speaker);
      if t.speaker !in d {
        MapSeqSnoc(m, d, t.speaker);
      }
    }
  }

  /** The first loop: the set of raw labels. */
  method CollectLabels(tracks: seq<Track>) returns (originalIds: set<string>)
    ensures forall x :: x in originalIds <==> x in Labels(tracks)
  {
    originalIds := {};
    var i := 0;
    while i < |tracks|
      invariant 0 <= i <= |tracks|
      invariant forall x :: x in originalIds <==> x in Labels(tracks)[..i]
    {
      assert Labels(tracks)[..i + 1] == Labels(tracks)[..i] + [tracks[i].speaker];
      originalIds := originalIds + {tracks[i].speaker};
      i := i + 1;
    }
    assert Labels(tracks)[..i] == Labels(tracks);
  }

  /** The enumerate loop over the sorted labels. */
  method MapLabels(sorted: seq<string>) returns (mapping: map<string, string>)
    ensures mapping == MapOf(sorted)
  {
    mapping := map[];
    var i := 0;
    while i < |sorted|
      invariant 0 <= i <= |sorted|
      invariant mapping == MapOf(sorted[..i])
    {
      assert sorted[..i + 1][..i] == sorted[..i];
      mapping := mapping[sorted[i] := SpeakerName(i)];
      i := i + 1;
    }
    assert sorted[..i] == sorted;
  }

  lemma GroupStep(tracks: seq<Track>, m: map<string, string>, i: nat)
    requires Covers(tracks, m) && i < |tracks|
    ensures Group(tracks[..i + 1], m) == AddTurn(Group(tracks[..i], m), m[tracks[i].speaker], Turn(tracks[i].start, tracks[i].end))
  {
    assert tracks[..i + 1][..i] == tracks[..i];
  }

  /** The loop that fills the speakers dict. */
  method GroupTracks(tracks: seq<Track>, mapping: map<string, string>) returns (speakers: seq<SpeakerTurns>)
    requires Covers(tracks, mapping)
    ensures speakers == Group(tracks, mapping)
  {
    speakers := [];
    var i := 0;
    while i < |tracks|
      invariant 0 <= i <= |tracks|
      invariant speakers == Group(tracks[..i], mapping)
    {
      var track := tracks[i];
      ghost var before := speakers;
      var mapped := mapping[track.speaker];
      var turn := Turn(track.start, track.end);
      var at := IndexOf(speakers, mapped);
      if at < 0 {
        speakers := speakers + [SpeakerTurns(mapped, [])];
        at := |speakers| - 1;
      }
      speakers := speakers[at := SpeakerTurns(mapped, speakers[at].turns + [turn])];
      if IndexOf(before, mapped) < 0 {
        assert [] + [turn] == [turn];
        assert speakers == before + [SpeakerTurns(mapped, [turn])];
      }
      GroupStep(tracks, mapping, i);
      i := i + 1;
    }
    assert tracks[..i] == tracks;
  }

  lemma MappingCovers(tracks: seq<Track>)
    ensures Covers(tracks, SpeakerMapping(tracks))
  {
    forall k | 0 <= k < |tracks| ensures tracks[k].speaker in SpeakerMapping(tracks) {
      assert Labels(tracks)[k] == tracks[k].speaker;
    }
  }

  /** The label mapping and the speakers dict of one diarization. */
  method BuildSpeakers(tracks: seq<Track>) returns (speakers: seq<SpeakerTurns>, mapping: map<string, string>)
    ensures mapping == SpeakerMapping(tracks) && Covers(tracks, mapping)
    ensures speakers == Group(tracks, mapping)
  {
    var originalIds := CollectLabels(tracks);
    var listed := Enumerate(originalIds);
    var sorted := SortNames(listed);
    StrictlySortedUnique(sorted, SortedLabels(tracks));
    mapping := MapLabels(sorted);
    MappingCovers(tracks);
    speakers := GroupTracks(tracks, mapping);
  }

  // ---------------------------------------------------------------------------
  // perform_diarization

  /** What one call of the pipeline does: yields tracks, or raises an
      exception (a TypeError or another one) with its message. */
  datatype Attempt = Tracks(tracks: seq<Track>) | Raised(typeError: bool, message: string)

  /** The returned dict; `mapping` is the "speaker_mapping" key and `error`
      the "error" key, each None when absent. */
  datatype DiarizationResult = DiarizationResult(
    speakers: seq<SpeakerTurns>, numSpeakers: nat, mapping: Option<map<string, string>>, error: Option<string>)

  /** The pipeline call and its single retry after a TypeError (the retry
      passes the same arguments); an exception of the retry is final. */
  function PipelineRun(first: Attempt, retry: Attempt): Result<seq<Track>>
  {
    match first
    case Tracks(ts) => Success(ts)
    case Raised(typeError, message) =>
      if !typeError then Failure(message)
      else match retry
        case Tracks(ts) => Success(ts)
        case Raised(_, message') => Failure(message')
  }

  function ErrorResult(message: string): DiarizationResult
  {
    DiarizationResult([], 0, None, Some(message))
  }

  /** perform_diarization. `pipeline(path, params, attempt)` is the outcome of
      the attempt-th call (0 or 1) of the pipeline; preprocessing always falls
      back to the original path, so the pipeline gets `audioPath`. */
  method PerformDiarization(available: bool, importError: string, audioPath: string,
                            minSpeakers: Option<int>, maxSpeakers: Option<int>,
                            pipeline: (string, Params, nat) -> Attempt)
    returns (result: DiarizationResult)
    ensures !available ==> result == ErrorResult(importError)
    ensures available ==>
      var p := PipelineParams(minSpeakers, maxSpeakers);
      match PipelineRun(pipeline(audioPath, p, 0), pipeline(audioPath, p, 1))
      case Failure(e) => result == ErrorResult(e)
      case Success(ts) =>
        && result.speakers == Group(ts, SpeakerMapping(ts))
        && result.numSpeakers == |result.speakers|
        && result.mapping == Some(SpeakerMapping(ts))
        && result.error == None
  {
    if !available {
      return ErrorResult(importError);
    }
    var parameters := PipelineParams(minSpeakers, maxSpeakers);
    var tracks: seq<Track>;
    var outcome := pipeline(audioPath, parameters, 0);
    if outcome.Raised? {
      if !outcome.typeError {
        return ErrorResult(outcome.message);
      }
      outcome := pipeline(audioPath, parameters, 1);
      if outcome.Raised? {
        return ErrorResult(outcome.message);
      }
    }
    tracks := outcome.tracks;
    var speakers, mapping := BuildSpeakers(tracks);
    result := DiarizationResult(speakers, |speakers|, Some(mapping), None);
  }

  /** A successful diarization reports one speaker per distinct raw label, in
      order of first appearance, each renamed to SPEAKER_i after the label's
      position i in sorted order. */
  lemma DiarizationSpeakers(ts: seq<Track>)
    ensures Covers(ts, SpeakerMapping(ts))
    ensures |Group(ts, SpeakerMapping(ts))| == |Dedupe(Labels(ts))|
    ensures forall k :: 0 <= k < |Group(ts, SpeakerMapping(ts))| ==>
              exists i :: 0 <= i < |SortedLabels(ts)| && Group(ts, SpeakerMapping(ts))[k].id == SpeakerName(i)
  {
    var m := SpeakerMapping(ts);
    SpeakerMappingSpec(ts);
    MappingCovers(ts);
    GroupIds(ts, m);
    var g := Group(ts, m);
    var d := Dedupe(Labels(ts));
    var ids := SortedLabels(ts);
    forall k | 0 <= k < |g| ensures exists i :: 0 <= i < |ids| && g[k].id == SpeakerName(i) {
      assert Ids(g)[k] == m[d[k]];
      var i :| 0 <= i < |ids| && ids[i] == d[k];
      assert g[k].id == SpeakerName(i);
    }
  }
}
