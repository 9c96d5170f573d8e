/** The timeline planner of remove_silence.py: pairing the engine's silence
    markers, turning silence windows into the spans of the input to keep, the
    filter graph that trims and concatenates those spans, and the outcome
    branching of the whole remove-silence pipeline. Times are seconds, as
    `real`. */
module Timeline {
  import opened Wrappers
  import opened Text

  /** A silent period paired from the engine's `silence_start:` and
      `silence_end:` markers. */
  datatype Silence = Silence(start: real, end: real, duration: real)

  /** A span of the input to keep, `[start, end)` in seconds. */
  datatype Segment = Segment(start: real, end: real)

  function Min(a: nat, b: nat): nat {
    if a <= b then a else b
  }

  // ---------------------------------------------------------------------------
  // detect_silence: pairing the markers
  // ---------------------------------------------------------------------------

  /** Python's `zip(silence_starts, silence_ends)`, one record per pair. */
  ghost function Paired(starts: seq<real>, ends: seq<real>): seq<Silence>
  {
    seq(Min(|starts|, |ends|), i requires 0 <= i < Min(|starts|, |ends|) =>
      Silence(starts[i], ends[i], ends[i] - starts[i]))
  }

  /** The loop of detect_silence over the extracted marker values: the i-th
      start pairs with the i-th end, and whatever is left over on the longer
      side (a trailing start without its end) is dropped. */
  method PairSilences(starts: seq<real>, ends: seq<real>) returns (silences: seq<Silence>)
    ensures |silences| == Min(|starts|, |ends|)
    ensures forall i :: 0 <= i < |silences| ==>
      && silences[i].start == starts[i]
      && silences[i].end == ends[i]
      && silences[i].duration == ends[i] - starts[i]
    ensures silences == Paired(starts, ends)
  {
    silences := [];
    var i := 0;
    while i < |starts| && i < |ends|
      invariant 0 <= i <= Min(|starts|, |ends|)
      invariant |silences| == i
      invariant forall k :: 0 <= k < i ==> silences[k] == Silence(starts[k], ends[k], ends[k] - starts[k])
    {
      silences := silences + [Silence(starts[i], ends[i], ends[i] - starts[i])];
      i := i + 1;
    }
  }

  // ---------------------------------------------------------------------------
  // create_filter_complex, part 1: the keep segments
  // ---------------------------------------------------------------------------

  /** The segments kept when the walk is at `cursor` with `silences` still to
      visit: a segment up to the next silence when that silence starts after
      the cursor, the cursor jumping to the silence's end either way, and a
      final segment up to `total` when the cursor ends before it. */
  function KeepFrom(silences: seq<Silence>, cursor: real, total: real): (segs: seq<Segment>)
    ensures |segs| <= |silences| + 1
    ensures forall k :: 0 <= k < |segs| ==> segs[k].start < segs[k].end
    decreases |silences|
  {
    if silences == [] then
      (if cursor < total then [Segment(cursor, total)] else [])
    else
      var s := silences[0];
      var rest := KeepFrom(silences[1..], s.end, total);
      if s.start > cursor then [Segment(cursor, s.start)] + rest else rest
  }

  /** The plan of create_filter_complex: the walk starts at time 0. */
  function KeepSegments(silences: seq<Silence>, total: real): seq<Segment> {
    KeepFrom(silences, 0.0, total)
  }

  /** Silences as the engine reports them: each inside `[from, total]`, in
      ascending order and not overlapping. */
  predicate Ordered(silences: seq<Silence>, from: real, total: real) {
    && (forall i :: 0 <= i < |silences| ==> from <= silences[i].start <= silences[i].end <= total)
    && (forall i, j :: 0 <= i < j < |silences| ==> silences[i].end <= silences[j].start)
  }

  ghost predicate InSegments(segs: seq<Segment>, t: real) {
    exists k :: 0 <= k < |segs| && segs[k].start <= t < segs[k].end
  }

  ghost predicate InSilences(silences: seq<Silence>, t: real) {
    exists k :: 0 <= k < |silences| && silences[k].start <= t < silences[k].end
  }

  /** The loop of create_filter_complex that collects the segments. */
  method PlanSegments(silences: seq<Silence>, total: real) returns (segments: seq<Segment>)
    ensures segments == KeepSegments(silences, total)
  {
    segments := [];
    var cursor := 0.0;
    var i := 0;
    while i < |silences|
      invariant 0 <= i <= |silences|
      invariant segments + KeepFrom(silences[i..], cursor, total) == KeepSegments(silences, total)
    {
      var s := silences[i];
      assert silences[i..][0] == s && silences[i..][1..] == silences[i + 1..];
      if s.start > cursor {
        segments := segments + [Segment(cursor, s.start)];
      }
      cursor := s.end;
      i := i + 1;
    }
    if cursor < total {
      segments := segments + [Segment(cursor, total)];
    }
  }

  lemma InSegmentsConcat(a: seq<Segment>, b: seq<Segment>, t: real)
    ensures InSegments(a + b, t) <==> InSegments(a, t) || InSegments(b, t)
  {
    if InSegments(a + b, t) {
      var k :| 0 <= k < |a + b| && (a + b)[k].start <= t < (a + b)[k].end;
      if k >= |a| {
        assert b[k - |a|] == (a + b)[k];
      } else {
        assert a[k] == (a + b)[k];
      }
    }
    if InSegments(a, t) {
      var k :| 0 <= k < |a| && a[k].start <= t < a[k].end;
      assert (a + b)[k] == a[k];
    }
    if InSegments(b, t) {
      var k :| 0 <= k < |b| && b[k].start <= t < b[k].end;
      assert (a + b)[|a| + k] == b[k];
    }
  }

  /** The kept segments are exactly the time from the cursor to the end that
      no silence covers. */
  lemma {:induction false} KeepFromComplement(silences: seq<Silence>, cursor: real, total: real)
    requires Ordered(silences, cursor, total)
    ensures forall t :: InSegments(KeepFrom(silences, cursor, total), t) <==>
      cursor <= t < total && !InSilences(silences, t)
    decreases |silences|
  {
    if silences == [] {
      forall t
        ensures InSegments(KeepFrom(silences, cursor, total), t) <==> cursor <= t < total
      {
        if cursor <= t < total {
          assert KeepFrom(silences, cursor, total)[0] == Segment(cursor, total);
        }
      }
    } else {
      var s := silences[0];
      var rest := silences[1..];
      assert Ordered(rest, s.end, total) by {
        forall i | 0 <= i < |rest| ensures s.end <= rest[i].start {
          assert rest[i] == silences[i + 1];
        }
      }
      KeepFromComplement(rest, s.end, total);
      var tail := KeepFrom(rest, s.end, total);
      var pre := if s.start > cursor then [Segment(cursor, s.start)] else [];
      assert KeepFrom(silences, cursor, total) == pre + tail;
      forall t
        ensures InSegments(pre + tail, t) <==> cursor <= t < total && !InSilences(silences, t)
      {
        InSegmentsConcat(pre, tail, t);
        assert InSegments(pre, t) <==> s.start > cursor && cursor <= t < s.start;
        InSilencesCons(silences, t);
        if InSilences(rest, t) {
          InSilencesAfter(rest, s.end, total, t);
        }
      }
    }
  }

  /** A time is in a silence of the list when it is in the first one or in
      one of the others. */
  lemma InSilencesCons(silences: seq<Silence>, t: real)
    requires silences != []
    ensures InSilences(silences, t) <==>
      silences[0].start <= t < silences[0].end || InSilences(silences[1..], t)
  {
    var rest := silences[1..];
    if InSilences(rest, t) {
      var k :| 0 <= k < |rest| && rest[k].start <= t < rest[k].end;
      assert silences[k + 1] == rest[k];
    }
    if InSilences(silences, t) {
      var k :| 0 <= k < |silences| && silences[k].start <= t < silences[k].end;
      if k > 0 {
        assert rest[k - 1] == silences[k];
      }
    }
  }

  /** Ordered silences from `from` on cover no time before `from`. */
  lemma InSilencesAfter(silences: seq<Silence>, from: real, total: real, t: real)
    requires Ordered(silences, from, total) && InSilences(silences, t)
    ensures from <= t
  {
  }

  /** Segments in ascending order, pairwise disjoint, inside `[lo, hi]`. */
  predicate Ascending(segs: seq<Segment>, lo: real, hi: real) {
    && (forall k :: 0 <= k < |segs| ==> lo <= segs[k].start && segs[k].end <= hi)
    && (forall i, j :: 0 <= i < j < |segs| ==> segs[i].end <= segs[j].start)
  }

  /** The segments come in ascending order, do not overlap, and stay inside
      `[cursor, total]`. */
  lemma {:induction false} KeepFromAscending(silences: seq<Silence>, cursor: real, total: real)
    requires Ordered(silences, cursor, total)
    ensures Ascending(KeepFrom(silences, cursor, total), cursor, total)
    decreases |silences|
  {
    if silences != [] {
      var s := silences[0];
      var rest := silences[1..];
      assert Ordered(rest, s.end, total) by {
        forall i | 0 <= i < |rest| ensures s.end <= rest[i].start {
          assert rest[i] == silences[i + 1];
        }
      }
      KeepFromAscending(rest, s.end, total);
      var tail := KeepFrom(rest, s.end, total);
      assert cursor <= s.start <= s.end;
      if s.start > cursor {
        var segs := [Segment(cursor, s.start)] + tail;
        assert KeepFrom(silences, cursor, total) == segs;
        forall k | 0 <= k < |segs| ensures cursor <= segs[k].start && segs[k].end <= total {
          if k > 0 { assert segs[k] == tail[k - 1]; }
        }
        forall i, j | 0 <= i < j < |segs| ensures segs[i].end <= segs[j].start {
          assert segs[j] == tail[j - 1];
          if i > 0 { assert segs[i] == tail[i - 1]; }
        }
      }
    }
  }

  /** For well-ordered silences inside `[0, total]` the plan is the complement
      of the silences: an instant of `[0, total)` is kept exactly when no
      silence covers it, and the kept segments are ascending and disjoint. */
  lemma PlanIsComplement(silences: seq<Silence>, total: real)
    requires Ordered(silences, 0.0, total)
    ensures forall t :: InSegments(KeepSegments(silences, total), t) <==>
      0.0 <= t < total && !InSilences(silences, t)
    ensures Ascending(KeepSegments(silences, total), 0.0, total)
  {
    KeepFromComplement(silences, 0.0, total);
    KeepFromAscending(silences, 0.0, total);
  }

  /** The edge cases of the planner: no silence keeps the whole input, and one
      silence over the whole input keeps nothing. */
  lemma PlanEdgeCases(total: real)
    ensures total > 0.0 ==> KeepSegments([], total) == [Segment(0.0, total)]
    ensures KeepSegments([Silence(0.0, total, total)], total) == []
  {
    var one := [Silence(0.0, total, total)];
    assert one[1..] == [];
    assert KeepFrom(one[1..], total, total) == [];
  }

  function SegmentsLength(segs: seq<Segment>): real {
    if segs == [] then 0.0 else (segs[0].end - segs[0].start) + SegmentsLength(segs[1..])
  }

  /** Python's `sum(s['duration'] for s in silences)`. */
  function TotalDuration(silences: seq<Silence>): real {
    if silences == [] then 0.0 else silences[0].duration + TotalDuration(silences[1..])
  }

  predicate DurationsConsistent(silences: seq<Silence>) {
    forall i :: 0 <= i < |silences| ==> silences[i].duration == silences[i].end - silences[i].start
  }

  lemma {:induction false} SegmentsLengthConcat(a: seq<Segment>, b: seq<Segment>)
    ensures SegmentsLength(a + b) == SegmentsLength(a) + SegmentsLength(b)
  {
    if a == [] {
      assert a + b == b;
    } else {
      assert (a + b)[0] == a[0];
      assert (a + b)[1..] == a[1..] + b;
      SegmentsLengthConcat(a[1..], b);
    }
  }

  lemma {:induction false} KeepFromLength(silences: seq<Silence>, cursor: real, total: real)
    requires Ordered(silences, cursor, total) && cursor <= total
    requires DurationsConsistent(silences)
    ensures SegmentsLength(KeepFrom(silences, cursor, total)) == total - cursor - TotalDuration(silences)
    decreases |silences|
  {
    if silences != [] {
      var s := silences[0];
      var rest := silences[1..];
      assert Ordered(rest, s.end, total) by {
        forall i | 0 <= i < |rest| ensures s.end <= rest[i].start {
          assert rest[i] == silences[i + 1];
        }
      }
      assert DurationsConsistent(rest) by {
        forall i | 0 <= i < |rest| ensures rest[i].duration == rest[i].end - rest[i].start {
          assert rest[i] == silences[i + 1];
        }
      }
      KeepFromLength(rest, s.end, total);
      var tail := KeepFrom(rest, s.end, total);
      if s.start > cursor {
        SegmentsLengthConcat([Segment(cursor, s.start)], tail);
      }
    }
  }

  /** The time the pipeline reports as saved plus the time it keeps is the
      whole input. */
  lemma KeptPlusSavedIsWhole(silences: seq<Silence>, total: real)
    requires Ordered(silences, 0.0, total) && 0.0 <= total
    requires DurationsConsistent(silences)
    ensures SegmentsLength(KeepSegments(silences, total)) + TotalDuration(silences) == total
  {
    KeepFromLength(silences, 0.0, total);
  }

  // ---------------------------------------------------------------------------
  // create_filter_complex, part 2: the filter graph
  // ---------------------------------------------------------------------------

  datatype Stream = Video | Audio

  /** One `;`-separated part of the `-filter_complex` argument: a trim of one
      stream to one segment, labelled with the segment's position, or the
      final concatenation of `count` video/audio pairs. */
  datatype FilterPart = Trim(stream: Stream, start: real, end: real, index: nat) | Concat(count: nat)

  /** The graph for `segments`: segment i's video trim at position 2i and its
      audio trim at 2i+1, both over that segment's bounds and labelled i,
      then the concatenation of all of them. */
  ghost predicate IsFilterGraph(parts: seq<FilterPart>, segments: seq<Segment>) {
    && |parts| == 2 * |segments| + 1
    && (forall i :: 0 <= i < |segments| ==>
          && parts[2 * i] == Trim(Video, segments[i].start, segments[i].end, i)
          && parts[2 * i + 1] == Trim(Audio, segments[i].start, segments[i].end, i))
    && parts[2 * |segments|] == Concat(|segments|)
  }

  /** The second loop of create_filter_complex and the final concat part. */
  method BuildFilterParts(segments: seq<Segment>) returns (parts: seq<FilterPart>)
    ensures IsFilterGraph(parts, segments)
  {
    parts := [];
    var i := 0;
    while i < |segments|
      invariant 0 <= i <= |segments|
      invariant |parts| == 2 * i
      invariant forall k :: 0 <= k < i ==>
        && parts[2 * k] == Trim(Video, segments[k].start, segments[k].end, k)
        && parts[2 * k + 1] == Trim(Audio, segments[k].start, segments[k].end, k)
    {
      var seg := segments[i];
      parts := parts + [Trim(Video, seg.start, seg.end, i), Trim(Audio, seg.start, seg.end, i)];
      i := i + 1;
    }
    parts := parts + [Concat(|segments|)];
  }

  /** The pad label `[v<i>]` or `[a<i>]`. */
  function Label(stream: Stream, i: nat): string {
    (if stream == Video then "[v" else "[a") + NatToString(i) + "]"
  }

  /** The inputs of the concat filter: `[v0][a0][v1][a1]...`. */
  function ConcatInputs(n: nat): string {
    if n == 0 then "" else ConcatInputs(n - 1) + Label(Video, n - 1) + Label(Audio, n - 1)
  }

  /** The labels the parts produce, in order (the concat produces the output
      pads, not an input of another part). */
  function OutputLabels(parts: seq<FilterPart>): string {
    if parts == [] then ""
    else
      OutputLabels(parts[..|parts| - 1]) +
      match parts[|parts| - 1]
      case Trim(stream, _, _, i) => Label(stream, i)
      case Concat(_) => ""
  }

  /** The text of one part; `num` is Python's rendering of a float, which this
      model keeps abstract. */
  function RenderPart(p: FilterPart, num: real -> string): string {
    match p
    case Trim(Video, s, e, i) =>
      "[0:v]trim=start=" + num(s) + ":end=" + num(e) + ",setpts=PTS-STARTPTS" + Label(Video, i)
    case Trim(Audio, s, e, i) =>
      "[0:a]atrim=start=" + num(s) + ":end=" + num(e) + ",asetpts=PTS-STARTPTS" + Label(Audio, i)
    case Concat(n) =>
      ConcatInputs(n) + "concat=n=" + NatToString(n) + ":v=1:a=1[outv][outa]"
  }

  /** Python's `'; '.join(filter_parts)`. */
  function RenderGraph(parts: seq<FilterPart>, num: real -> string): string {
    Join("; ", seq(|parts|, i requires 0 <= i < |parts| => RenderPart(parts[i], num)))
  }

  /** Appending the trims of one segment appends their two labels. */
  lemma OutputLabelsPair(x: seq<FilterPart>, v: FilterPart, a: FilterPart, i: nat)
    requires v.Trim? && v.stream == Video && v.index == i
    requires a.Trim? && a.stream == Audio && a.index == i
    ensures OutputLabels(x + [v, a]) == OutputLabels(x) + Label(Video, i) + Label(Audio, i)
  {
    var y := x + [v];
    var z := x + [v, a];
    assert z[..|z| - 1] == y && z[|z| - 1] == a;
    assert y[..|y| - 1] == x && y[|y| - 1] == v;
  }

  lemma {:induction false} TrimLabelsPrefix(parts: seq<FilterPart>, segments: seq<Segment>, k: nat)
    requires IsFilterGraph(parts, segments) && k <= |segments|
    ensures OutputLabels(parts[..2 * k]) == ConcatInputs(k)
  {
    if k > 0 {
      TrimLabelsPrefix(parts, segments, k - 1);
      var n := 2 * (k - 1);
      assert parts[..2 * k] == parts[..n] + [parts[n], parts[n + 1]];
      OutputLabelsPair(parts[..n], parts[n], parts[n + 1], k - 1);
    }
  }

  /** Video and audio are paired one to one: the labels the trims produce,
      in order, are exactly the inputs the final concat reads, `[v_i]` with
      `[a_i]` for each segment i, and the concat joins as many pairs as there
      are segments. */
  lemma TrimsFeedConcat(parts: seq<FilterPart>, segments: seq<Segment>)
    requires IsFilterGraph(parts, segments)
    ensures OutputLabels(parts[..2 * |segments|]) == ConcatInputs(|segments|)
    ensures parts[|parts| - 1] == Concat(|segments|)
    ensures RenderPart(parts[|parts| - 1], (x: real) => "") ==
      ConcatInputs(|segments|) + "concat=n=" + NatToString(|segments|) + ":v=1:a=1[outv][outa]"
  {
    TrimLabelsPrefix(parts, segments, |segments|);
  }

  /** create_filter_complex: `None` when no segment is kept, otherwise the
      rendered graph over the planned segments. */
  method CreateFilterComplex(silences: seq<Silence>, total: real, num: real -> string)
    returns (filter: Option<string>)
    ensures filter.None? <==> KeepSegments(silences, total) == []
    ensures filter.Some? ==> exists parts ::
      IsFilterGraph(parts, KeepSegments(silences, total)) && filter.value == RenderGraph(parts, num)
  {
    var segments := PlanSegments(silences, total);
    if |segments| == 0 {
      return None;
    }
    var parts := BuildFilterParts(segments);
    filter := Some(RenderGraph(parts, num));
  }

  // ---------------------------------------------------------------------------
  // remove_silence_from_url: the outcome branching
  // ---------------------------------------------------------------------------

  /** What the download collaborator did: fetched the file, raised an HTTP
      error with a status code, or failed otherwise; `detail` is the text of
      the raised exception. */
  datatype DownloadOutcome =
    | Downloaded
    | HttpError(status: int, detail: string)
    | TransportError(detail: string)

  /** The result dictionary of remove_silence_from_url (sizes in MB are not
      modelled). */
  datatype PipelineResult =
    | Success(outputPath: string, silenceRemoved: nat, timeSavedSeconds: real)
    | NoSilence(outputPath: string, message: string)
    | Failure(message: string)

  /** The pipeline with its collaborators' results as parameters: the
      download, the marker values found in the engine's analysis output, the
      prober's duration (or the text of its parse error), and the exit code of
      the transcoding run. */
  method RemoveSilenceFromUrl(
    download: DownloadOutcome, starts: seq<real>, ends: seq<real>,
    probe: Result<real, string>, exitCode: int,
    inputPath: string, outputPath: string, num: real -> string)
    returns (r: PipelineResult)
    ensures !download.Downloaded? ==> r == Failure(download.detail)
    ensures download.Downloaded? && Min(|starts|, |ends|) == 0 ==>
      r == NoSilence(inputPath, "No silence found")
    ensures download.Downloaded? && Min(|starts|, |ends|) > 0 && probe.Err? ==>
      r == Failure(probe.error)
    ensures download.Downloaded? && Min(|starts|, |ends|) > 0 && probe.Ok? ==>
      var silences := Paired(starts, ends);
      var total := probe.value;
      if total == 0.0 then r == Failure("float division by zero")
      else if KeepSegments(silences, total) == [] then r == Failure("Could not create filter")
      else if exitCode == 0 then r == Success(outputPath, |silences|, TotalDuration(silences))
      else r == Failure("FFmpeg processing failed")
  {
    if !download.Downloaded? {
      return Failure(download.detail);
    }
    var silences := PairSilences(starts, ends);
    if |silences| == 0 {
      return NoSilence(inputPath, "No silence found");
    }
    if probe.Err? {
      return Failure(probe.error);
    }
    var total := probe.value;
    var saved := TotalDuration(silences);
    // The progress line divides the silence total by the duration.
    if total == 0.0 {
      return Failure("float division by zero");
    }
    var filter := CreateFilterComplex(silences, total, num);
    if filter.None? {
      return Failure("Could not create filter");
    }
    if exitCode == 0 {
      r := Success(outputPath, |silences|, saved);
    } else {
      r := Failure("FFmpeg processing failed");
    }
  }
}
