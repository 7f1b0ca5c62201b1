/** Speaker attribution (transcriber/diarization.py): per-speaker turns are
    coalesced, every transcript segment gets the speaker that overlaps it most,
    and a forward pass carries a known speaker across short gaps onto
    segments left "UNKNOWN". */
module Attribution {
  import opened Wrappers
  import opened Sorting

  /** A speaker turn {"start": s, "end": e}, in seconds. */
  datatype Turn = Turn(start: real, end: real)

  /** One entry of the speakers dict: a speaker id and its turns. The
      dict is a list of entries, since its insertion order decides ties. */
  datatype SpeakerTurns = SpeakerTurns(id: string, turns: seq<Turn>)

  /** A transcript segment {"start", "end", "text"} and, once chosen, its
      "speaker" key. */
  datatype Segment = Segment(start: real, end: real, text: string, speaker: Option<string>)

  const MergeGap: real := 0.5
  const SmoothGap: real := 1.0
  const Unknown: string := "UNKNOWN"

  // ---------------------------------------------------------------------------
  // Coalescing: post_process_speaker_segments

  /** The sort keys x["start"] of speaker turns (SegmentStarts is the same
      key for transcript segments, a different record type). */
  function TurnStarts(ts: seq<Turn>): (keys: seq<real>)
    ensures |keys| == |ts| && forall k :: 0 <= k < |ts| ==> keys[k] == ts[k].start
  {
    seq(|ts|, k requires 0 <= k < |ts| => ts[k].start)
  }

  /** sorted(segments, key=lambda x: x["start"]). */
  function SortByStart(ts: seq<Turn>): (r: seq<Turn>)
    ensures |r| == |ts|
  {
    Gather(ts, StableOrder(TurnStarts(ts)))
  }

  predicate StartsSorted(ts: seq<Turn>)
  {
    forall a, b :: 0 <= a < b < |ts| ==> ts[a].start <= ts[b].start
  }

  /** Every turn starts at least 0.5 s after the previous one ends. */
  predicate Separated(ts: seq<Turn>)
  {
    forall k :: 0 < k < |ts| ==> ts[k].start - ts[k - 1].end >= MergeGap
  }

  /** The merge loop from `cur` on: a next turn starting less than 0.5 s after
      cur ends extends cur to its own end; otherwise cur is emitted. */
  function MergeFrom(cur: Turn, rest: seq<Turn>): (r: seq<Turn>)
    ensures r != [] && r[0].start == cur.start
    decreases |rest|
  {
    if rest == [] then [cur]
    else if rest[0].start - cur.end < MergeGap then MergeFrom(Turn(cur.start, rest[0].end), rest[1..])
    else [cur] + MergeFrom(rest[0], rest[1..])
  }

  function Merge(sorted: seq<Turn>): (r: seq<Turn>)
    ensures sorted == [] <==> r == []
  {
    if sorted == [] then [] else MergeFrom(sorted[0], sorted[1..])
  }

  /** One coalesced turn list. */
  function Coalesce(ts: seq<Turn>): seq<Turn>
  {
    Merge(SortByStart(ts))
  }

  /** The new speakers dict: same keys in the same order, each list coalesced. */
  function Coalesced(speakers: seq<SpeakerTurns>): (r: seq<SpeakerTurns>)
    ensures |r| == |speakers|
    ensures forall k :: 0 <= k < |r| ==> r[k].id == speakers[k].id && r[k].turns == Coalesce(speakers[k].turns)
  {
    seq(|speakers|, k requires 0 <= k < |speakers| => SpeakerTurns(speakers[k].id, Coalesce(speakers[k].turns)))
  }

  /** The merge of one speaker's turns, as the loop does it. */
  method CoalesceTurns(turns: seq<Turn>) returns (merged: seq<Turn>)
    ensures merged == Coalesce(turns)
  {
    var sorted := SortByStart(turns);
    merged := [];
    if sorted == [] {
      return;
    }
    var current := sorted[0];
    var i := 1;
    while i < |sorted|
      invariant 1 <= i <= |sorted|
      invariant merged + MergeFrom(current, sorted[i..]) == Merge(sorted)
    {
      var next := sorted[i];
      assert sorted[i..][1..] == sorted[i + 1..];
      if next.start - current.end < MergeGap {
        current := current.(end := next.end);
      } else {
        merged := merged + [current];
        current := next;
      }
      i := i + 1;
    }
    merged := merged + [current];
  }

  /** post_process_speaker_segments: one coalesced list per speaker key. */
  method PostProcess(speakers: seq<SpeakerTurns>) returns (processed: seq<SpeakerTurns>)
    ensures processed == Coalesced(speakers)
  {
    processed := [];
    var i := 0;
    while i < |speakers|
      invariant 0 <= i <= |speakers|
      invariant processed == Coalesced(speakers[..i])
    {
      var merged := CoalesceTurns(speakers[i].turns);
      processed := processed + [SpeakerTurns(speakers[i].id, merged)];
      i := i + 1;
    }
    assert speakers[..i] == speakers;
  }

  /** The coalesced dict has exactly the input keys, in order, and a speaker
      without turns keeps an empty list. */
  lemma CoalescedKeys(speakers: seq<SpeakerTurns>, k: nat)
    requires k < |speakers|
    ensures Coalesced(speakers)[k].id == speakers[k].id
    ensures speakers[k].turns == [] <==> Coalesced(speakers)[k].turns == []
  {
  }

  /** Sorting by start leaves the starts in non-decreasing order. */
  lemma SortByStartSorted(ts: seq<Turn>)
    ensures StartsSorted(SortByStart(ts))
    ensures multiset(SortByStart(ts)) == multiset(ts)
  {
    var keys := TurnStarts(ts);
    var o := StableOrder(keys);
    var r := SortByStart(ts);
    forall a, b | 0 <= a < b < |r| ensures r[a].start <= r[b].start {
      assert Before(keys, o[a], o[b]);
    }
    GatherStableOrderIsPermutation(ts, keys);
  }

  /** Consecutive output turns are at least 0.5 s apart, on any input. */
  lemma {:induction false} MergeFromSeparated(cur: Turn, rest: seq<Turn>)
    ensures Separated(MergeFrom(cur, rest))
    decreases |rest|
  {
    if rest != [] {
      if rest[0].start - cur.end < MergeGap {
        MergeFromSeparated(Turn(cur.start, rest[0].end), rest[1..]);
      } else {
        MergeFromSeparated(rest[0], rest[1..]);
        var t := MergeFrom(rest[0], rest[1..]);
        assert MergeFrom(cur, rest) == [cur] + t;
      }
    }
  }

  /** Sorted input gives output sorted by start. */
  lemma {:induction false} MergeFromSorted(cur: Turn, rest: seq<Turn>)
    requires StartsSorted(rest) && (rest != [] ==> cur.start <= rest[0].start)
    ensures StartsSorted(MergeFrom(cur, rest))
    decreases |rest|
  {
    if rest != [] {
      if rest[0].start - cur.end < MergeGap {
        MergeFromSorted(Turn(cur.start, rest[0].end), rest[1..]);
      } else {
        MergeFromSorted(rest[0], rest[1..]);
        var t := MergeFrom(rest[0], rest[1..]);
        assert MergeFrom(cur, rest) == [cur] + t;
        assert forall b :: 0 <= b < |t| ==> t[0].start <= t[b].start;
      }
    }
  }

  /** Turns that are already 0.5 s apart are left as they are. */
  lemma {:induction false} MergeFromSeparatedInput(cur: Turn, rest: seq<Turn>)
    requires Separated([cur] + rest)
    ensures MergeFrom(cur, rest) == [cur] + rest
    decreases |rest|
  {
    if rest != [] {
      assert ([cur] + rest)[1] == rest[0] && ([cur] + rest)[0] == cur;
      assert rest[0].start - cur.end >= MergeGap;
      assert Separated(rest) by {
        forall k | 0 < k < |rest| ensures rest[k].start - rest[k - 1].end >= MergeGap {
          assert ([cur] + rest)[k + 1] == rest[k];
          assert ([cur] + rest)[k] == rest[k - 1];
        }
      }
      assert [rest[0]] + rest[1..] == rest;
      MergeFromSeparatedInput(rest[0], rest[1..]);
    }
  }

  /** Each coalesced list is sorted by start and its turns are at least 0.5 s
      apart. */
  lemma CoalesceSortedSeparated(ts: seq<Turn>)
    ensures StartsSorted(Coalesce(ts)) && Separated(Coalesce(ts))
  {
    var s := SortByStart(ts);
    SortByStartSorted(ts);
    if s != [] {
      MergeFromSorted(s[0], s[1..]);
      MergeFromSeparated(s[0], s[1..]);
    }
  }

  /** Coalescing twice is coalescing once; no hypothesis on the turns is
      needed, since the output is sorted and separated whatever the input. */
  lemma CoalesceIdempotent(ts: seq<Turn>)
    ensures Coalesce(Coalesce(ts)) == Coalesce(ts)
  {
    var m := Coalesce(ts);
    CoalesceSortedSeparated(ts);
    var keys := TurnStarts(m);
    assert NonDecreasing(keys);
    StableOrderOfSortedIsIdentity(keys);
    assert SortByStart(m) == m;
    if m != [] {
      assert [m[0]] + m[1..] == m;
      MergeFromSeparatedInput(m[0], m[1..]);
    }
  }

  // Runs: the groups of consecutive sorted turns that merge into one turn.

  function Flatten<T>(rs: seq<seq<T>>): seq<T>
  {
    if rs == [] then [] else rs[0] + Flatten(rs[1..])
  }

  /** rs splits the sorted turns into maximal runs: the runs are non-empty,
      inside a run each turn starts less than 0.5 s after the previous one
      ends, and each run after the first starts at least 0.5 s after the
      previous run's last turn ends. */
  predicate IsRunSplit(s: seq<Turn>, rs: seq<seq<Turn>>)
  {
    && Flatten(rs) == s
    && (forall k :: 0 <= k < |rs| ==> rs[k] != [])
    && (forall k, i :: 0 <= k < |rs| && 0 < i < |rs[k]| ==> rs[k][i].start - rs[k][i - 1].end < MergeGap)
    && (forall k :: 0 < k < |rs| && rs[k] != [] && rs[k - 1] != [] ==> rs[k][0].start - Last(rs[k - 1]).end >= MergeGap)
  }

  /** The turn a run merges into: the start of its first turn and the end of
      its last turn (not the largest end). */
  function Span(run: seq<Turn>): Turn
    requires run != []
  {
    Turn(run[0].start, Last(run).end)
  }

  predicate InternallyClose(run: seq<Turn>)
  {
    forall i :: 0 < i < |run| ==> run[i].start - run[i - 1].end < MergeGap
  }

  /** The runs, found by the same scan the merge loop makes. */
  function RunsFrom(run: seq<Turn>, rest: seq<Turn>): seq<seq<Turn>>
    requires run != []
    decreases |rest|
  {
    if rest == [] then [run]
    else if rest[0].start - Last(run).end < MergeGap then RunsFrom(run + [rest[0]], rest[1..])
    else [run] + RunsFrom([rest[0]], rest[1..])
  }

  lemma {:induction false} RunsFromSplit(run: seq<Turn>, rest: seq<Turn>)
    requires run != [] && InternallyClose(run)
    ensures IsRunSplit(run + rest, RunsFrom(run, rest))
    ensures RunsFrom(run, rest)[0] != [] && RunsFrom(run, rest)[0][0] == run[0]
    ensures |MergeFrom(Span(run), rest)| == |RunsFrom(run, rest)|
    ensures forall k :: 0 <= k < |RunsFrom(run, rest)| && RunsFrom(run, rest)[k] != [] ==>
              MergeFrom(Span(run), rest)[k] == Span(RunsFrom(run, rest)[k])
    decreases |rest|, 1
  {
    if rest == [] {
      var rs := RunsFrom(run, rest);
      assert rs == [run];
      assert Flatten(rs) == run + [];
      assert run + rest == run;
    } else if rest[0].start - Last(run).end < MergeGap {
      RunsFromExtend(run, rest);
    } else {
      RunsFromBreak(run, rest);
    }
  }

  /** The next turn is close: it joins the current run. */
  lemma {:induction false} RunsFromExtend(run: seq<Turn>, rest: seq<Turn>)
    requires run != [] && InternallyClose(run)
    requires rest != [] && rest[0].start - Last(run).end < MergeGap
    ensures IsRunSplit(run + rest, RunsFrom(run, rest))
    ensures RunsFrom(run, rest)[0] != [] && RunsFrom(run, rest)[0][0] == run[0]
    ensures |MergeFrom(Span(run), rest)| == |RunsFrom(run, rest)|
    ensures forall k :: 0 <= k < |RunsFrom(run, rest)| && RunsFrom(run, rest)[k] != [] ==>
              MergeFrom(Span(run), rest)[k] == Span(RunsFrom(run, rest)[k])
    decreases |rest|, 0
  {
    var run' := run + [rest[0]];
    assert InternallyClose(run') by {
      forall i | 0 < i < |run'| ensures run'[i].start - run'[i - 1].end < MergeGap {
        if i < |run| { assert run'[i] == run[i] && run'[i - 1] == run[i - 1]; }
      }
    }
    RunsFromSplit(run', rest[1..]);
    assert run' + rest[1..] == run + rest;
    assert Span(run) == Turn(Span(run).start, Last(run).end);
    assert Turn(Span(run).start, rest[0].end) == Span(run');
  }

  /** The next turn is far: the current run ends and a new one starts. */
  lemma {:induction false} RunsFromBreak(run: seq<Turn>, rest: seq<Turn>)
    requires run != [] && InternallyClose(run)
    requires rest != [] && rest[0].start - Last(run).end >= MergeGap
    ensures IsRunSplit(run + rest, RunsFrom(run, rest))
    ensures RunsFrom(run, rest)[0] != [] && RunsFrom(run, rest)[0][0] == run[0]
    ensures |MergeFrom(Span(run), rest)| == |RunsFrom(run, rest)|
    ensures forall k :: 0 <= k < |RunsFrom(run, rest)| && RunsFrom(run, rest)[k] != [] ==>
              MergeFrom(Span(run), rest)[k] == Span(RunsFrom(run, rest)[k])
    decreases |rest|, 0
  {
    assert InternallyClose([rest[0]]);
    RunsFromSplit([rest[0]], rest[1..]);
    var t := RunsFrom([rest[0]], rest[1..]);
    assert RunsFrom(run, rest) == [run] + t;
    assert [rest[0]] + rest[1..] == rest;
    assert Span([rest[0]]) == rest[0];
    var m := MergeFrom(rest[0], rest[1..]);
    assert MergeFrom(Span(run), rest) == [Span(run)] + m;
    RunSplitCons(run, rest, t);
    SpansCons(run, m, t);
  }

  /** A closed run in front of a run split of the rest, far from its first
      turn, gives a run split of the whole. */
  lemma RunSplitCons(run: seq<Turn>, rest: seq<Turn>, t: seq<seq<Turn>>)
    requires run != [] && InternallyClose(run) && IsRunSplit(rest, t)
    requires t != [] && t[0] != [] && t[0][0].start - Last(run).end >= MergeGap
    ensures IsRunSplit(run + rest, [run] + t)
  {
    var rs: seq<seq<Turn>> := [run] + t;
    assert rs[1..] == t;
    assert Flatten(rs) == run + Flatten(t);
    RunsBreakSeparated(run, t);
    RunsBreakClose(run, t);
  }

  lemma SpansCons(run: seq<Turn>, m: seq<Turn>, t: seq<seq<Turn>>)
    requires run != [] && |m| == |t|
    requires forall k :: 0 <= k < |t| && t[k] != [] ==> m[k] == Span(t[k])
    ensures |[Span(run)] + m| == |[run] + t|
    ensures forall k :: 0 <= k < |[run] + t| && ([run] + t)[k] != [] ==> ([Span(run)] + m)[k] == Span(([run] + t)[k])
  {
    forall k | 0 <= k < |[run] + t| && ([run] + t)[k] != []
      ensures ([Span(run)] + m)[k] == Span(([run] + t)[k])
    {
      if k > 0 { assert ([run] + t)[k] == t[k - 1] && ([Span(run)] + m)[k] == m[k - 1]; }
    }
  }

  lemma RunsBreakSeparated(run: seq<Turn>, t: seq<seq<Turn>>)
    requires run != [] && t != [] && t[0] != []
    requires t[0][0].start - Last(run).end >= MergeGap
    requires forall k :: 0 < k < |t| && t[k] != [] && t[k - 1] != [] ==> t[k][0].start - Last(t[k - 1]).end >= MergeGap
    ensures var rs: seq<seq<Turn>> := [run] + t;
            forall k :: 0 < k < |rs| && rs[k] != [] && rs[k - 1] != [] ==> rs[k][0].start - Last(rs[k - 1]).end >= MergeGap
  {
    var rs: seq<seq<Turn>> := [run] + t;
    forall k | 0 < k < |rs| && rs[k] != [] && rs[k - 1] != []
      ensures rs[k][0].start - Last(rs[k - 1]).end >= MergeGap
    {
      if k > 1 { assert rs[k] == t[k - 1] && rs[k - 1] == t[k - 2]; }
    }
  }

  lemma RunsBreakClose(run: seq<Turn>, t: seq<seq<Turn>>)
    requires InternallyClose(run)
    requires forall k, i :: 0 <= k < |t| && 0 < i < |t[k]| ==> t[k][i].start - t[k][i - 1].end < MergeGap
    ensures var rs: seq<seq<Turn>> := [run] + t;
            forall k, i :: 0 <= k < |rs| && 0 < i < |rs[k]| ==> rs[k][i].start - rs[k][i - 1].end < MergeGap
  {
    var rs: seq<seq<Turn>> := [run] + t;
    forall k, i | 0 <= k < |rs| && 0 < i < |rs[k]|
      ensures rs[k][i].start - rs[k][i - 1].end < MergeGap
    {
      if k > 0 { assert rs[k] == t[k - 1]; }
    }
  }

  /** The runs of a sorted list of turns. */
  function Runs(s: seq<Turn>): seq<seq<Turn>>
  {
    if s == [] then [] else RunsFrom([s[0]], s[1..])
  }

  /** Merging a sorted list of turns replaces each maximal run by its span:
      a merged turn keeps the start of its first turn and takes the end of
      the last turn it absorbed. */
  lemma MergeIsSpans(s: seq<Turn>)
    ensures IsRunSplit(s, Runs(s))
    ensures |Merge(s)| == |Runs(s)|
    ensures forall k :: 0 <= k < |Runs(s)| && Runs(s)[k] != [] ==> Merge(s)[k] == Span(Runs(s)[k])
  {
    if s != [] {
      assert InternallyClose([s[0]]);
      RunsFromSplit([s[0]], s[1..]);
      assert [s[0]] + s[1..] == s;
      assert Span([s[0]]) == s[0];
    }
  }

  // ---------------------------------------------------------------------------
  // Overlap scoring: the first loop of assign_speakers_to_segments

  /** The positive part of the overlap of a segment and a turn. */
  function Overlap(seg: Segment, t: Turn): (d: real)
    ensures d >= 0.0
    ensures d > 0.0 <==> seg.start < t.end && t.start < seg.end && seg.start < seg.end && t.start < t.end
  {
    var lo := if seg.start >= t.start then seg.start else t.start;
    var hi := if seg.end <= t.end then seg.end else t.end;
    if hi > lo then hi - lo else 0.0
  }

  /** The summed overlap of a segment with a list of turns. */
  function TotalOverlap(seg: Segment, ts: seq<Turn>): (d: real)
    ensures d >= 0.0
    ensures d > 0.0 <==> exists k :: 0 <= k < |ts| && Overlap(seg, ts[k]) > 0.0
  {
    if ts == [] then 0.0
    else
      var p := TotalOverlap(seg, ts[..|ts| - 1]);
      assert forall k :: 0 <= k < |ts| - 1 ==> ts[..|ts| - 1][k] == ts[k];
      p + Overlap(seg, Last(ts))
  }

  function Total(seg: Segment, sp: seq<SpeakerTurns>, j: nat): real
    requires j < |sp|
  {
    TotalOverlap(seg, sp[j].turns)
  }

  /** The scan over the first n speakers: the largest total so far (starting
      from 0) and the index of the first speaker that reached it. */
  function Best(seg: Segment, sp: seq<SpeakerTurns>, n: nat): (r: (real, Option<nat>))
    requires n <= |sp|
    ensures r.1.Some? ==> r.1.value < n
  {
    if n == 0 then (0.0, None)
    else
      var prev := Best(seg, sp, n - 1);
      var t := Total(seg, sp, n - 1);
      if t > prev.0 then (t, Some(n - 1)) else prev
  }

  /** Speaker w wins among the first n: a positive total that no other speaker
      exceeds and that every earlier speaker falls short of. */
  predicate FirstMax(seg: Segment, sp: seq<SpeakerTurns>, n: nat, w: nat)
    requires n <= |sp|
  {
    && w < n
    && Total(seg, sp, w) > 0.0
    && (forall j :: 0 <= j < n ==> Total(seg, sp, j) <= Total(seg, sp, w))
    && (forall j :: 0 <= j < w ==> Total(seg, sp, j) < Total(seg, sp, w))
  }

  lemma {:induction false} BestFound(seg: Segment, sp: seq<SpeakerTurns>, n: nat)
    requires n <= |sp|
    ensures Best(seg, sp, n).1.None? ==> Best(seg, sp, n).0 == 0.0 && forall j :: 0 <= j < n ==> Total(seg, sp, j) <= 0.0
    ensures Best(seg, sp, n).1.Some? ==>
              Best(seg, sp, n).0 == Total(seg, sp, Best(seg, sp, n).1.value) && FirstMax(seg, sp, n, Best(seg, sp, n).1.value)
  {
    if n > 0 {
      BestFound(seg, sp, n - 1);
      var prev := Best(seg, sp, n - 1);
      if Total(seg, sp, n - 1) > prev.0 {
        assert Best(seg, sp, n).0 == Total(seg, sp, n - 1) && Best(seg, sp, n).1 == Some(n - 1);
      } else {
        assert Best(seg, sp, n) == prev;
      }
    }
  }

  /** The scan picks exactly the first speaker with the strictly greatest
      positive total, and none when no total is positive. */
  lemma BestIsFirstMax(seg: Segment, sp: seq<SpeakerTurns>, w: nat)
    requires w < |sp|
    ensures Best(seg, sp, |sp|).1 == Some(w) <==> FirstMax(seg, sp, |sp|, w)
    ensures Best(seg, sp, |sp|).1 == None <==> forall j :: 0 <= j < |sp| ==> Total(seg, sp, j) <= 0.0
  {
    BestFound(seg, sp, |sp|);
  }

  /** The label a segment gets: the winning key, or "UNKNOWN" when there is no
      winner or the winning key is "" (which Python's `if assigned_speaker:`
      treats as false). */
  function Label(seg: Segment, sp: seq<SpeakerTurns>): string
  {
    match Best(seg, sp, |sp|).1
    case None => Unknown
    case Some(w) => if sp[w].id != "" then sp[w].id else Unknown
  }

  /** The label is the key of the first speaker with the strictly greatest
      positive total, or UNKNOWN when that key is "" or no total is
      positive. */
  lemma LabelChoice(seg: Segment, sp: seq<SpeakerTurns>)
    ensures Label(seg, sp) == Unknown || exists w :: 0 <= w < |sp| && FirstMax(seg, sp, |sp|, w) && Label(seg, sp) == sp[w].id
    ensures forall w: nat :: w < |sp| && FirstMax(seg, sp, |sp|, w) ==> Label(seg, sp) == (if sp[w].id != "" then sp[w].id else Unknown)
    ensures (forall j :: 0 <= j < |sp| ==> Total(seg, sp, j) <= 0.0) ==> Label(seg, sp) == Unknown
  {
    LabelFromScan(seg, sp);
    forall w: nat | w < |sp| && FirstMax(seg, sp, |sp|, w)
      ensures Label(seg, sp) == (if sp[w].id != "" then sp[w].id else Unknown)
    {
      LabelOfWinner(seg, sp, w);
    }
  }

  lemma LabelFromScan(seg: Segment, sp: seq<SpeakerTurns>)
    ensures Label(seg, sp) == Unknown || exists w :: 0 <= w < |sp| && FirstMax(seg, sp, |sp|, w) && Label(seg, sp) == sp[w].id
    ensures (forall j :: 0 <= j < |sp| ==> Total(seg, sp, j) <= 0.0) ==> Label(seg, sp) == Unknown
  {
    BestFound(seg, sp, |sp|);
  }

  lemma LabelOfWinner(seg: Segment, sp: seq<SpeakerTurns>, w: nat)
    requires w < |sp| && FirstMax(seg, sp, |sp|, w)
    ensures Label(seg, sp) == (if sp[w].id != "" then sp[w].id else Unknown)
  {
    BestIsFirstMax(seg, sp, w);
  }

  /** The speaker a segment gets, computed by the nested loops. */
  method PickSpeaker(seg: Segment, sp: seq<SpeakerTurns>) returns (speaker: string)
    ensures speaker == Label(seg, sp)
  {
    var maxOverlap := 0.0;
    var chosen: Option<string> := None;
    var i := 0;
    while i < |sp|
      invariant 0 <= i <= |sp|
      invariant maxOverlap == Best(seg, sp, i).0
      invariant chosen == (match Best(seg, sp, i).1 case None => None case Some(w) => Some(sp[w].id))
    {
      var total := SumOverlap(seg, sp[i].turns);
      if total > maxOverlap {
        maxOverlap := total;
        chosen := Some(sp[i].id);
      }
      i := i + 1;
    }
    if chosen.Some? && chosen.value != "" {
      speaker := chosen.value;
    } else {
      speaker := Unknown;
    }
  }

  /** The inner loop: one speaker's total overlap with the segment. */
  method SumOverlap(seg: Segment, turns: seq<Turn>) returns (total: real)
    ensures total == TotalOverlap(seg, turns)
  {
    total := 0.0;
    var j := 0;
    while j < |turns|
      invariant 0 <= j <= |turns|
      invariant total == TotalOverlap(seg, turns[..j])
    {
      assert turns[..j + 1][..j] == turns[..j];
      total := total + Overlap(seg, turns[j]);
      j := j + 1;
    }
    assert turns[..j] == turns;
  }

  /** Every segment with the speaker of its own overlap scoring. */
  function Labelled(v: seq<Segment>, sp: seq<SpeakerTurns>): (r: seq<Segment>)
    ensures |r| == |v|
    ensures forall k :: 0 <= k < |v| ==> r[k] == v[k].(speaker := Some(Label(v[k], sp)))
  {
    seq(|v|, k requires 0 <= k < |v| => v[k].(speaker := Some(Label(v[k], sp))))
  }

  // ---------------------------------------------------------------------------
  // Gap smoothing: the second loop of assign_speakers_to_segments

  /** One step of the pass: curr inherits prev's speaker when it is "UNKNOWN",
      prev's is not, and curr starts less than 1.0 s after prev ends. */
  function Step(prev: Segment, curr: Segment): Segment
  {
    if curr.start - prev.end < SmoothGap && prev.speaker != Some(Unknown) && curr.speaker == Some(Unknown)
    then curr.(speaker := prev.speaker)
    else curr
  }

  /** The value the pass leaves at position i; prev is the already updated
      segment, so a speaker propagates down a chain. */
  function SmoothedAt(v: seq<Segment>, i: nat): Segment
    requires i < |v|
  {
    if i == 0 then v[0] else Step(SmoothedAt(v, i - 1), v[i])
  }

  /** The pass over segments in start order: the first segment is kept and
      each later one is one step from its updated predecessor. */
  function Smooth(v: seq<Segment>): (r: seq<Segment>)
    ensures |r| == |v|
    ensures r != [] ==> r[0] == v[0]
    ensures forall i :: 0 < i < |v| ==> r[i] == Step(r[i - 1], v[i])
  {
    seq(|v|, i requires 0 <= i < |v| => SmoothedAt(v, i))
  }

  /** The pass only rewrites "UNKNOWN" speakers, always to the speaker of the
      updated predecessor, and never touches start, end or text. */
  lemma SmoothChanges(v: seq<Segment>, i: nat)
    requires i < |v|
    ensures Smooth(v)[i].start == v[i].start && Smooth(v)[i].end == v[i].end && Smooth(v)[i].text == v[i].text
    ensures Smooth(v)[i] != v[i] ==> v[i].speaker == Some(Unknown) && i > 0 && Smooth(v)[i].speaker == Smooth(v)[i - 1].speaker
  {
  }

  /** No "UNKNOWN" segment is left less than 1.0 s after a known one. */
  lemma SmoothLeavesNoGap(v: seq<Segment>, i: nat)
    requires 0 < i < |v|
    requires v[i].start - v[i - 1].end < SmoothGap && Smooth(v)[i - 1].speaker != Some(Unknown)
    ensures Smooth(v)[i].speaker != Some(Unknown)
  {
    SmoothChanges(v, i - 1);
  }

  /** A known speaker propagates down a chain of "UNKNOWN" segments that each
      start less than 1.0 s after the previous one ends. */
  lemma {:induction false} SmoothChains(v: seq<Segment>, i: nat, j: nat, s: string)
    requires i <= j < |v| && s != Unknown && Smooth(v)[i].speaker == Some(s)
    requires forall k :: i < k <= j ==> v[k].speaker == Some(Unknown) && v[k].start - v[k - 1].end < SmoothGap
    ensures Smooth(v)[j].speaker == Some(s)
    decreases j - i
  {
    if i < j {
      SmoothChains(v, i, j - 1, s);
    }
  }

  lemma {:induction false} SmoothedAtStable(w: seq<Segment>, i: nat)
    requires i < |w| && forall k :: 0 < k < |w| ==> Step(w[k - 1], w[k]) == w[k]
    ensures SmoothedAt(w, i) == w[i]
  {
    if i > 0 {
      SmoothedAtStable(w, i - 1);
    }
  }

  /** A second pass changes nothing. */
  lemma SmoothIdempotent(v: seq<Segment>)
    ensures Smooth(Smooth(v)) == Smooth(v)
  {
    var r := Smooth(v);
    forall i | 0 <= i < |r| ensures SmoothedAt(r, i) == r[i] {
      SmoothedAtStable(r, i);
    }
  }

  // ---------------------------------------------------------------------------
  // assign_speakers_to_segments

  /** The sort keys x["start"] of transcript segments: TurnStarts for this
      record type. */
  function SegmentStarts(v: seq<Segment>): (keys: seq<real>)
    ensures |keys| == |v| && forall k :: 0 <= k < |v| ==> keys[k] == v[k].start
  {
    seq(|v|, k requires 0 <= k < |v| => v[k].start)
  }

  /** The segments in start order (the aliased sorted_segments). */
  function SegmentOrder(v: seq<Segment>): (o: seq<nat>)
    ensures IsPermutation(o, |v|) && SortedByKey(SegmentStarts(v), o)
  {
    StableOrder(SegmentStarts(v))
  }

  /** What the whole function leaves in the list, entry by entry in start
      order, when the speakers map is non-empty. */
  function Attributed(v: seq<Segment>, speakers: seq<SpeakerTurns>): (r: seq<Segment>)
    ensures |r| == |v|
  {
    Smooth(Gather(Labelled(v, Coalesced(speakers)), SegmentOrder(v)))
  }

  lemma {:induction false} SmoothKeepsAssigned(g: seq<Segment>, k: nat)
    requires k < |g| && forall i :: 0 <= i < |g| ==> g[i].speaker.Some?
    ensures Smooth(g)[k].speaker.Some?
    decreases k
  {
    SmoothChanges(g, k);
    if Smooth(g)[k] != g[k] {
      SmoothKeepsAssigned(g, k - 1);
    }
  }

  /** In start order, every final segment keeps its times and text and has a
      speaker. */
  lemma AttributedKeeps(v: seq<Segment>, speakers: seq<SpeakerTurns>, k: nat)
    requires k < |v|
    ensures Attributed(v, speakers)[k].start == v[SegmentOrder(v)[k]].start
    ensures Attributed(v, speakers)[k].end == v[SegmentOrder(v)[k]].end
    ensures Attributed(v, speakers)[k].text == v[SegmentOrder(v)[k]].text
    ensures Attributed(v, speakers)[k].speaker.Some?
  {
    var g := Gather(Labelled(v, Coalesced(speakers)), SegmentOrder(v));
    SmoothChanges(g, k);
    SmoothKeepsAssigned(g, k);
  }

  /** assign_speakers_to_segments on the list in place. With no speakers the
      list is untouched; otherwise the segment at start-order position k ends
      up as the k-th segment of the smoothing pass over the labelled list. */
  method AssignSpeakersToSegments(segs: array<Segment>, speakers: seq<SpeakerTurns>)
    modifies segs
    ensures speakers == [] ==> segs[..] == old(segs[..])
    ensures speakers != [] ==>
              forall k :: 0 <= k < segs.Length ==>
                segs[SegmentOrder(old(segs[..]))[k]] == Attributed(old(segs[..]), speakers)[k]
  {
    if speakers == [] {
      return;
    }
    var processed := PostProcess(speakers);
    LabelSegments(segs, processed);
    assert SegmentStarts(segs[..]) == SegmentStarts(old(segs[..]));
    var order := StableOrder(SegmentStarts(segs[..]));
    SmoothInOrder(segs, order);
  }

  /** The first loop: every segment gets the speaker of its overlap scoring. */
  method LabelSegments(segs: array<Segment>, sp: seq<SpeakerTurns>)
    modifies segs
    ensures segs[..] == Labelled(old(segs[..]), sp)
  {
    var i := 0;
    while i < segs.Length
      invariant 0 <= i <= segs.Length
      invariant forall k :: 0 <= k < i ==> segs[k] == Labelled(old(segs[..]), sp)[k]
      invariant forall k :: i <= k < segs.Length ==> segs[k] == old(segs[k])
    {
      var id := PickSpeaker(segs[i], sp);
      segs[i] := segs[i].(speaker := Some(id));
      i := i + 1;
    }
  }

  /** The second loop: the smoothing pass over the segments visited in the
      given order, updating them in place. */
  method SmoothInOrder(segs: array<Segment>, order: seq<nat>)
    requires IsPermutation(order, segs.Length)
    modifies segs
    ensures forall k :: 0 <= k < segs.Length ==> segs[order[k]] == Smooth(Gather(old(segs[..]), order))[k]
  {
    ghost var g := Gather(segs[..], order);
    ghost var sm := Smooth(g);
    var i := 1;
    while i < segs.Length
      invariant 1 <= i && (segs.Length == 0 || i <= segs.Length)
      invariant forall k :: 0 <= k < i && k < segs.Length ==> segs[order[k]] == sm[k]
      invariant forall k :: i <= k < segs.Length ==> segs[order[k]] == g[k]
    {
      var prev := segs[order[i - 1]];
      var curr := segs[order[i]];
      if curr.start - prev.end < SmoothGap && prev.speaker != Some(Unknown) && curr.speaker == Some(Unknown) {
        segs[order[i]] := curr.(speaker := prev.speaker);
      }
      i := i + 1;
    }
  }
}
