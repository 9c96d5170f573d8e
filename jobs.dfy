/** The job records of app.py and the rules the service applies to them: the
    status lifecycle written by the two background workers, the eviction
    rule of cleanup_old_jobs, and the checks a download request passes. */
module Jobs {
  import opened Wrappers
  import opened Text
  import Timeline

  type JobId = string

  datatype Status = Pending | Processing | Completed | NoSilence | Error

  datatype JobType = RemoveSilence | BurnCaptions

  /** The string stored under 'status'. */
  function StatusName(s: Status): string {
    match s
    case Pending => "pending"
    case Processing => "processing"
    case Completed => "completed"
    case NoSilence => "no_silence"
    case Error => "error"
  }

  /** The string stored under 'job_type', which is also the route prefix. */
  function TypeName(t: JobType): string {
    match t
    case RemoveSilence => "remove-silence"
    case BurnCaptions => "burn-captions"
  }

  /** One entry of `processing_jobs`; a key that was never set is `None`. */
  datatype Job = Job(
    status: Status,
    jobType: JobType,
    videoUrl: string,
    createdAt: real,
    progress: Option<string>,
    completedAt: Option<real>,
    outputPath: Option<string>,
    message: Option<string>,
    error: Option<string>,
    silenceRemoved: Option<nat>,
    timeSavedSeconds: Option<real>)

  predicate Terminal(s: Status) {
    s == Completed || s == NoSilence || s == Error
  }

  /** What the status endpoints rely on: a finished job carries its finishing
      time and the key its status reports. */
  predicate WellFormed(j: Job) {
    && (Terminal(j.status) ==> j.completedAt.Some?)
    && (j.status == Completed ==> j.outputPath.Some?)
    && (j.status == NoSilence ==> j.message.Some?)
    && (j.status == Error ==> j.error.Some?)
  }

  /** Two records of the same job: type, URL and creation time agree. */
  predicate SameJob(a: Job, b: Job) {
    a.jobType == b.jobType && a.videoUrl == b.videoUrl && a.createdAt == b.createdAt
  }

  // ---------------------------------------------------------------------------
  // Status updates
  // ---------------------------------------------------------------------------

  const DownloadingProgress: string := "Downloading video..."

  /** The record an endpoint stores before starting a worker. */
  function Submitted(t: JobType, url: string, now: real): (j: Job)
    ensures j.status == Pending && WellFormed(j)
    ensures j.jobType == t && j.videoUrl == url && j.createdAt == now
    ensures j.progress.None? && j.completedAt.None? && j.outputPath.None?
    ensures j.message.None? && j.error.None? && j.silenceRemoved.None? && j.timeSavedSeconds.None?
  {
    Job(Pending, t, url, now, None, None, None, None, None, None, None)
  }

  /** A worker's first update: an existing record turns `processing` and
      keeps its other keys; a missing one is created afresh. */
  function Started(existing: Option<Job>, t: JobType, url: string, now: real): (j: Job)
    ensures j.status == Processing && j.progress == Some(DownloadingProgress) && WellFormed(j)
    ensures existing.Some? ==>
      && SameJob(j, existing.value) && j.completedAt == existing.value.completedAt
      && j.outputPath == existing.value.outputPath && j.error == existing.value.error
      && j.message == existing.value.message && j.silenceRemoved == existing.value.silenceRemoved
      && j.timeSavedSeconds == existing.value.timeSavedSeconds
    ensures existing.None? ==> j.message.None? && j.error.None? && j.outputPath.None?
    ensures existing.None? ==> j.silenceRemoved.None? && j.timeSavedSeconds.None?
    ensures existing.None? ==> j.jobType == t && j.videoUrl == url && j.createdAt == now && j.completedAt.None?
  {
    match existing
    case Some(prior) => prior.(status := Processing, progress := Some(DownloadingProgress))
    case None => Job(Processing, t, url, now, Some(DownloadingProgress), None, None, None, None, None, None)
  }

  /** The status the silence-removal worker gives each pipeline result. */
  function SilenceStatus(r: Timeline.PipelineResult): Status {
    match r
    case Success(_, _, _) => Completed
    case NoSilence(_, _) => NoSilence
    case Failure(_) => Error
  }

  /** The silence-removal worker's final update. */
  function SilenceFinished(j: Job, r: Timeline.PipelineResult, now: real): (k: Job)
    ensures WellFormed(k) && Terminal(k.status) && k.completedAt == Some(now)
    ensures SameJob(k, j) && k.progress == j.progress
    ensures k.status == SilenceStatus(r)
    ensures r.Success? ==>
      && k.outputPath == Some(r.outputPath)
      && k.silenceRemoved == Some(r.silenceRemoved) && k.timeSavedSeconds == Some(r.timeSavedSeconds)
      && k.message == j.message && k.error == j.error
    ensures r.NoSilence? ==>
      && k.message == Some(r.message) && k.outputPath == j.outputPath && k.error == j.error
      && k.silenceRemoved == j.silenceRemoved && k.timeSavedSeconds == j.timeSavedSeconds
    ensures r.Failure? ==>
      && k.error == Some(r.message) && k.outputPath == j.outputPath && k.message == j.message
      && k.silenceRemoved == j.silenceRemoved && k.timeSavedSeconds == j.timeSavedSeconds
  {
    match r
    case Success(path, removed, saved) =>
      j.(status := Completed, outputPath := Some(path), silenceRemoved := Some(removed),
         timeSavedSeconds := Some(saved), completedAt := Some(now))
    case NoSilence(_, msg) => j.(status := NoSilence, message := Some(msg), completedAt := Some(now))
    case Failure(msg) => j.(status := Error, error := Some(msg), completedAt := Some(now))
  }

  /** Either worker's update after an exception or a failed run. */
  function Failed(j: Job, msg: string, now: real): (k: Job)
    ensures WellFormed(k) && k.status == Error && k.error == Some(msg) && k.completedAt == Some(now)
    ensures SameJob(k, j) && k.outputPath == j.outputPath && k.progress == j.progress
    ensures k.message == j.message && k.silenceRemoved == j.silenceRemoved && k.timeSavedSeconds == j.timeSavedSeconds
  {
    j.(status := Error, error := Some(msg), completedAt := Some(now))
  }

  /** The caption worker's update after a successful burn. */
  function Burned(j: Job, path: string, now: real): (k: Job)
    ensures WellFormed(k) && k.status == Completed && k.outputPath == Some(path) && k.completedAt == Some(now)
    ensures SameJob(k, j) && k.progress == j.progress && k.error == j.error
    ensures k.message == j.message && k.silenceRemoved == j.silenceRemoved && k.timeSavedSeconds == j.timeSavedSeconds
  {
    j.(status := Completed, outputPath := Some(path), completedAt := Some(now))
  }

  // ---------------------------------------------------------------------------
  // The caption worker's download errors
  // ---------------------------------------------------------------------------

  const ExpiredUrlMessage: string :=
    "Video URL returned 404. The URL may be expired or invalid. If you're trying to use a processed video from this API, please download it first and upload it to a storage service (e.g., Google Cloud Storage, S3, or a temporary file hosting service)."

  const HttpFailurePrefix: string := "Failed to download video: "

  const TransportFailurePrefix: string := "Failed to download video from URL: "

  const TransportFailureHint: string := ". Please ensure the URL points to a direct video file, not an API endpoint."

  /** The error text the caption worker records when the download fails. */
  function DownloadErrorMessage(d: Timeline.DownloadOutcome): (msg: string)
    requires !d.Downloaded?
    ensures d.HttpError? && d.status == 404 ==> msg == ExpiredUrlMessage
    ensures d.HttpError? && d.status != 404 ==> msg == HttpFailurePrefix + d.detail
    ensures d.TransportError? ==> msg == TransportFailurePrefix + d.detail + TransportFailureHint
  {
    match d
    case HttpError(code, detail) =>
      if code == 404 then ExpiredUrlMessage else HttpFailurePrefix + detail
    case TransportError(detail) => TransportFailurePrefix + detail + TransportFailureHint
  }

  // ---------------------------------------------------------------------------
  // Sequences of ids
  // ---------------------------------------------------------------------------

  predicate Distinct(s: seq<JobId>) {
    forall i, j :: 0 <= i < j < |s| ==> s[i] != s[j]
  }

  function Elems(s: seq<JobId>): set<JobId> {
    set x | x in s
  }

  /** How many elements of `s` lie in `r`. */
  function CountIn(s: seq<JobId>, r: set<JobId>): nat {
    if s == [] then 0 else CountIn(s[..|s| - 1], r) + (if s[|s| - 1] in r then 1 else 0)
  }

  /** The elements of `s` outside `r`, in order. */
  function Without(s: seq<JobId>, r: set<JobId>): (t: seq<JobId>)
    ensures forall x :: x in t <==> x in s && x !in r
  {
    if s == [] then [] else
      var rest := Without(s[..|s| - 1], r);
      assert forall x :: x in s <==> x in s[..|s| - 1] || x == s[|s| - 1];
      if s[|s| - 1] in r then rest else rest + [s[|s| - 1]]
  }

  lemma {:induction false} WithoutCount(s: seq<JobId>, r: set<JobId>)
    ensures |Without(s, r)| + CountIn(s, r) == |s|
  {
    if s != [] {
      WithoutCount(s[..|s| - 1], r);
    }
  }

  lemma {:induction false} WithoutDistinct(s: seq<JobId>, r: set<JobId>)
    requires Distinct(s)
    ensures Distinct(Without(s, r))
  {
    if s != [] {
      var init := s[..|s| - 1];
      WithoutDistinct(init, r);
      assert s[|s| - 1] !in init;
    }
  }

  lemma {:induction false} CountUnion(s: seq<JobId>, a: set<JobId>, b: set<JobId>)
    requires a !! b
    ensures CountIn(s, a + b) == CountIn(s, a) + CountIn(s, b)
  {
    if s != [] {
      CountUnion(s[..|s| - 1], a, b);
    }
  }

  lemma {:induction false} CountSingle(s: seq<JobId>, x: JobId)
    requires Distinct(s) && x in s
    ensures CountIn(s, {x}) == 1
  {
    var init := s[..|s| - 1];
    if s[|s| - 1] == x {
      assert x !in init;
      CountAbsent(init, x);
    } else {
      assert x in init;
      CountSingle(init, x);
    }
  }

  lemma {:induction false} CountAbsent(s: seq<JobId>, x: JobId)
    requires x !in s
    ensures CountIn(s, {x}) == 0
  {
    if s != [] {
      CountAbsent(s[..|s| - 1], x);
    }
  }

  /** A duplicate-free selection `t` from a duplicate-free `s` meets `s`
      exactly `|t|` times. */
  lemma {:induction false} CountSelection(s: seq<JobId>, t: seq<JobId>)
    requires Distinct(s) && Distinct(t) && forall x :: x in t ==> x in s
    ensures CountIn(s, Elems(t)) == |t|
  {
    if t == [] {
      CountAbsentAll(s, Elems(t));
    } else {
      var init := t[..|t| - 1];
      var x := t[|t| - 1];
      assert Elems(t) == Elems(init) + {x};
      assert x !in Elems(init);
      CountSelection(s, init);
      CountUnion(s, Elems(init), {x});
      CountSingle(s, x);
    }
  }

  lemma {:induction false} CountAbsentAll(s: seq<JobId>, r: set<JobId>)
    requires r == {}
    ensures CountIn(s, r) == 0
  {
    if s != [] {
      CountAbsentAll(s[..|s| - 1], r);
    }
  }

  /** A duplicate-free sequence has as many distinct elements as entries. */
  lemma {:induction false} DistinctCard(s: seq<JobId>)
    requires Distinct(s)
    ensures |Elems(s)| == |s|
  {
    if s != [] {
      var init := s[..|s| - 1];
      DistinctCard(init);
      assert Elems(s) == Elems(init) + {s[|s| - 1]};
      assert s[|s| - 1] !in Elems(init);
    }
  }

  // ---------------------------------------------------------------------------
  // cleanup_old_jobs: the eviction rule
  // ---------------------------------------------------------------------------

  const RetentionSeconds: real := 900.0

  const MaxJobs: nat := 50

  /** `completed_at`, else `created_at` (every record has one). */
  function Stamp(j: Job): real {
    if j.completedAt.Some? then j.completedAt.value else j.createdAt
  }

  /** Pass 1's test: a finished job older than fifteen minutes. */
  predicate Expired(j: Job, now: real) {
    Terminal(j.status) && now - Stamp(j) > RetentionSeconds
  }

  /** The ids pass 1 collects, in table order. */
  function ExpiredIds(jobs: map<JobId, Job>, ids: seq<JobId>, now: real): seq<JobId> {
    if ids == [] then [] else
      var rest := ExpiredIds(jobs, ids[..|ids| - 1], now);
      var id := ids[|ids| - 1];
      if id in jobs && Expired(jobs[id], now) then rest + [id] else rest
  }

  /** A finished job pass 1 leaves in place. */
  predicate Retained(jobs: map<JobId, Job>, id: JobId, now: real) {
    id in jobs && Terminal(jobs[id].status) && !Expired(jobs[id], now)
  }

  /** Pass 2's `completed_jobs` list before sorting: each retained finished
      job with its stamp, in table order. */
  function Candidates(jobs: map<JobId, Job>, ids: seq<JobId>, now: real): seq<(JobId, real)> {
    if ids == [] then [] else
      var rest := Candidates(jobs, ids[..|ids| - 1], now);
      var id := ids[|ids| - 1];
      if Retained(jobs, id, now) then rest + [(id, Stamp(jobs[id]))] else rest
  }

  predicate SortedByStamp(s: seq<(JobId, real)>) {
    forall i, j :: 0 <= i < j < |s| ==> s[i].1 <= s[j].1
  }

  /** Places `c` after every entry whose stamp is not larger. */
  function InsertByStamp(c: (JobId, real), s: seq<(JobId, real)>): (r: seq<(JobId, real)>)
    ensures |r| == |s| + 1
    ensures multiset(r) == multiset(s) + multiset{c}
  {
    if s == [] then [c]
    else if c.1 < s[0].1 then [c] + s
    else
      assert s == [s[0]] + s[1..];
      [s[0]] + InsertByStamp(c, s[1..])
  }

  /** `list.sort(key=lambda x: x[1])`, a stable sort: entries with equal
      stamps keep their order. */
  function SortByStamp(s: seq<(JobId, real)>): (r: seq<(JobId, real)>)
    ensures |r| == |s|
    ensures multiset(r) == multiset(s)
  {
    if s == [] then [] else
      assert s == s[..|s| - 1] + [s[|s| - 1]];
      InsertByStamp(s[|s| - 1], SortByStamp(s[..|s| - 1]))
  }

  lemma {:induction false} InsertKeepsOrder(c: (JobId, real), s: seq<(JobId, real)>)
    requires SortedByStamp(s)
    ensures SortedByStamp(InsertByStamp(c, s))
  {
    if s != [] && c.1 >= s[0].1 {
      InsertKeepsOrder(c, s[1..]);
      var r := InsertByStamp(c, s[1..]);
      forall k | 0 <= k < |r|
        ensures s[0].1 <= r[k].1
      {
        assert r[k] in multiset(s[1..]) + multiset{c};
        if r[k] != c {
          assert r[k] in s[1..];
        }
      }
      assert InsertByStamp(c, s) == [s[0]] + r;
    }
  }

  /** The sort yields its input in ascending order of stamps. */
  lemma {:induction false} SortByStampSorted(s: seq<(JobId, real)>)
    ensures SortedByStamp(SortByStamp(s))
  {
    if s != [] {
      SortByStampSorted(s[..|s| - 1]);
      InsertKeepsOrder(s[|s| - 1], SortByStamp(s[..|s| - 1]));
    }
  }

  /** The ids of a list of `(id, stamp)` pairs. */
  function Ids(s: seq<(JobId, real)>): (r: seq<JobId>)
    ensures |r| == |s|
    ensures forall k :: 0 <= k < |s| ==> r[k] == s[k].0
  {
    if s == [] then [] else Ids(s[..|s| - 1]) + [s[|s| - 1].0]
  }

  /** `completed_jobs[:n]` for a positive `n`. */
  function Take<T>(s: seq<T>, n: nat): (r: seq<T>)
    ensures |r| == if n <= |s| then n else |s|
    ensures forall k :: 0 <= k < |r| ==> r[k] == s[k]
  {
    if n <= |s| then s[..n] else s
  }

  /** The ids pass 2 adds: when more than fifty jobs would remain, the
      oldest retained finished jobs, as many as bring the count to fifty
      (or all of them). */
  function CapIds(jobs: map<JobId, Job>, order: seq<JobId>, now: real): seq<JobId> {
    var remaining := |jobs| - |ExpiredIds(jobs, order, now)|;
    if remaining > MaxJobs then Ids(Take(SortByStamp(Candidates(jobs, order, now)), remaining - MaxJobs))
    else []
  }

  /** `to_remove` at the end of cleanup_old_jobs. */
  function SweepIds(jobs: map<JobId, Job>, order: seq<JobId>, now: real): seq<JobId> {
    ExpiredIds(jobs, order, now) + CapIds(jobs, order, now)
  }

  /** The output file a removed job takes with it: its 'output_path', when
      that is set and non-empty. */
  function OutputOf(jobs: map<JobId, Job>, id: JobId): set<string> {
    if id in jobs && jobs[id].outputPath.Some? && jobs[id].outputPath.value != "" then {jobs[id].outputPath.value}
    else {}
  }

  /** The output files of the jobs `ids`. */
  function Outputs(jobs: map<JobId, Job>, ids: seq<JobId>): set<string> {
    if ids == [] then {} else Outputs(jobs, ids[..|ids| - 1]) + OutputOf(jobs, ids[|ids| - 1])
  }

  lemma {:induction false} OutputsConcat(jobs: map<JobId, Job>, a: seq<JobId>, b: seq<JobId>)
    ensures Outputs(jobs, a + b) == Outputs(jobs, a) + Outputs(jobs, b)
  {
    if b != [] {
      var init := b[..|b| - 1];
      assert (a + b)[..|a + b| - 1] == a + init;
      OutputsConcat(jobs, a, init);
    } else {
      assert a + b == a;
    }
  }

  // ---------------------------------------------------------------------------
  // Properties of the eviction rule
  // ---------------------------------------------------------------------------

  /** Pass 1 selects exactly the expired finished jobs of the table. */
  lemma {:induction false} ExpiredIdsExact(jobs: map<JobId, Job>, ids: seq<JobId>, now: real, id: JobId)
    ensures id in ExpiredIds(jobs, ids, now) <==> id in ids && id in jobs && Expired(jobs[id], now)
  {
    if ids != [] {
      var init := ids[..|ids| - 1];
      ExpiredIdsExact(jobs, init, now, id);
      assert id in ids <==> id in init || id == ids[|ids| - 1];
    }
  }

  /** Pass 2 considers exactly the retained finished jobs, each with its
      own stamp. */
  lemma {:induction false} CandidatesExact(jobs: map<JobId, Job>, ids: seq<JobId>, now: real, c: (JobId, real))
    ensures c in Candidates(jobs, ids, now) <==> c.0 in ids && Retained(jobs, c.0, now) && c.1 == Stamp(jobs[c.0])
  {
    if ids != [] {
      var init := ids[..|ids| - 1];
      CandidatesExact(jobs, init, now, c);
      assert c.0 in ids <==> c.0 in init || c.0 == ids[|ids| - 1];
    }
  }

  lemma {:induction false} ExpiredIdsDistinct(jobs: map<JobId, Job>, ids: seq<JobId>, now: real)
    requires Distinct(ids)
    ensures Distinct(ExpiredIds(jobs, ids, now))
  {
    if ids != [] {
      var init := ids[..|ids| - 1];
      ExpiredIdsDistinct(jobs, init, now);
      ExpiredIdsExact(jobs, init, now, ids[|ids| - 1]);
    }
  }

  lemma {:induction false} CandidatesDistinct(jobs: map<JobId, Job>, ids: seq<JobId>, now: real)
    requires Distinct(ids)
    ensures UniqueIds(Candidates(jobs, ids, now))
  {
    if ids != [] {
      var init := ids[..|ids| - 1];
      var id := ids[|ids| - 1];
      CandidatesDistinct(jobs, init, now);
      var c := Candidates(jobs, init, now);
      forall k | 0 <= k < |c|
        ensures c[k].0 != id
      {
        CandidatesExact(jobs, init, now, c[k]);
      }
    }
  }

  /** No id occurs twice in a list of `(id, stamp)` pairs. */
  predicate UniqueIds(s: seq<(JobId, real)>) {
    forall i, j :: 0 <= i < j < |s| ==> s[i].0 != s[j].0
  }

  lemma {:induction false} InsertUnique(c: (JobId, real), s: seq<(JobId, real)>)
    requires UniqueIds(s) && forall x :: x in s ==> x.0 != c.0
    ensures UniqueIds(InsertByStamp(c, s))
  {
    if s != [] && c.1 >= s[0].1 {
      var t := s[1..];
      InsertUnique(c, t);
      var r := InsertByStamp(c, t);
      forall k | 0 <= k < |r|
        ensures r[k].0 != s[0].0
      {
        assert r[k] in multiset(t) + multiset{c};
        if r[k] != c {
          var m :| 0 <= m < |t| && t[m] == r[k];
          assert s[m + 1] == r[k];
        }
      }
      assert InsertByStamp(c, s) == [s[0]] + r;
    }
  }

  /** Sorting keeps the ids unique. */
  lemma {:induction false} SortUnique(s: seq<(JobId, real)>)
    requires UniqueIds(s)
    ensures UniqueIds(SortByStamp(s))
  {
    if s != [] {
      var n := |s| - 1;
      var init, last := s[..n], s[n];
      assert UniqueIds(init) by {
        forall i, j | 0 <= i < j < n
          ensures init[i].0 != init[j].0
        {
          assert init[i] == s[i] && init[j] == s[j];
        }
      }
      SortUnique(init);
      var sorted := SortByStamp(init);
      forall x | x in sorted
        ensures x.0 != last.0
      {
        assert x in multiset(sorted);
        assert x in init;
        var m :| 0 <= m < n && init[m] == x;
        assert s[m] == x;
      }
      InsertUnique(last, sorted);
    }
  }

  /** Eviction never removes a pending or processing job: every id it
      selects names a finished job of the table. */
  lemma SweepOnlyFinished(jobs: map<JobId, Job>, order: seq<JobId>, now: real, id: JobId)
    requires id in SweepIds(jobs, order, now)
    ensures id in jobs && Terminal(jobs[id].status)
  {
    if id in ExpiredIds(jobs, order, now) {
      ExpiredIdsExact(jobs, order, now, id);
    } else {
      var sorted := SortByStamp(Candidates(jobs, order, now));
      var k :| 0 <= k < |CapIds(jobs, order, now)| && CapIds(jobs, order, now)[k] == id;
      var c := sorted[k];
      assert c in multiset(Candidates(jobs, order, now));
      CandidatesExact(jobs, order, now, c);
    }
  }

  /** What a table must satisfy for the counting argument: its keys are the
      ids of `order`, each listed once. */
  predicate Indexed(jobs: map<JobId, Job>, order: seq<JobId>) {
    jobs.Keys == Elems(order) && Distinct(order)
  }

  /** Removing keys from the table and from its order keeps them in step. */
  lemma IndexedWithout(jobs: map<JobId, Job>, order: seq<JobId>, r: set<JobId>)
    requires Indexed(jobs, order)
    ensures Indexed(jobs - r, Without(order, r))
  {
    WithoutDistinct(order, r);
    assert (jobs - r).Keys == Elems(Without(order, r));
  }

  lemma IndexedSize(jobs: map<JobId, Job>, order: seq<JobId>)
    requires Indexed(jobs, order)
    ensures |jobs| == |order|
  {
    assert jobs.Keys == Elems(order);
    DistinctCard(order);
  }

  lemma ElemsConcat(a: seq<JobId>, b: seq<JobId>)
    ensures Elems(a + b) == Elems(a) + Elems(b)
  {
  }

  /** An id pass 2 adds is listed in `order` and was not collected by pass 1. */
  lemma CapIdFresh(jobs: map<JobId, Job>, order: seq<JobId>, now: real, x: JobId)
    requires x in CapIds(jobs, order, now)
    ensures x in order && x !in ExpiredIds(jobs, order, now)
  {
    CapIdsRetained(jobs, order, now, x);
    ExpiredIdsExact(jobs, order, now, x);
  }

  /** The sweep removes `|ExpiredIds| + |CapIds|` distinct entries. */
  lemma SweepCount(jobs: map<JobId, Job>, order: seq<JobId>, now: real)
    requires Indexed(jobs, order)
    ensures |Without(order, Elems(SweepIds(jobs, order, now)))|
      == |order| - |ExpiredIds(jobs, order, now)| - |CapIds(jobs, order, now)|
  {
    var e := ExpiredIds(jobs, order, now);
    var p := CapIds(jobs, order, now);
    ExpiredIdsDistinct(jobs, order, now);
    forall x | x in e
      ensures x in order
    {
      ExpiredIdsExact(jobs, order, now, x);
    }
    CountSelection(order, e);
    forall x | x in p
      ensures x in order && x !in e
    {
      CapIdFresh(jobs, order, now, x);
    }
    CapIdsDistinct(jobs, order, now);
    CountSelection(order, p);
    ElemsConcat(e, p);
    assert Elems(e) !! Elems(p);
    CountUnion(order, Elems(e), Elems(p));
    WithoutCount(order, Elems(e + p));
  }

  /** Every id pass 2 adds is a retained finished job listed in `order`. */
  lemma CapIdsRetained(jobs: map<JobId, Job>, order: seq<JobId>, now: real, id: JobId)
    requires id in CapIds(jobs, order, now)
    ensures id in order && Retained(jobs, id, now)
  {
    var sorted := SortByStamp(Candidates(jobs, order, now));
    var k :| 0 <= k < |CapIds(jobs, order, now)| && CapIds(jobs, order, now)[k] == id;
    assert sorted[k] in multiset(Candidates(jobs, order, now));
    CandidatesExact(jobs, order, now, sorted[k]);
  }

  lemma CapIdsDistinct(jobs: map<JobId, Job>, order: seq<JobId>, now: real)
    requires Distinct(order)
    ensures Distinct(CapIds(jobs, order, now))
  {
    var c := Candidates(jobs, order, now);
    CandidatesDistinct(jobs, order, now);
    SortUnique(c);
  }

  /** When pass 2 selects fewer jobs than the surplus, it has selected every
      retained finished job. */
  lemma CapTakesAll(jobs: map<JobId, Job>, order: seq<JobId>, now: real, id: JobId)
    requires |jobs| - |ExpiredIds(jobs, order, now)| > MaxJobs
    requires |CapIds(jobs, order, now)| < |jobs| - |ExpiredIds(jobs, order, now)| - MaxJobs
    requires id in order && Retained(jobs, id, now)
    ensures id in CapIds(jobs, order, now)
  {
    var c := Candidates(jobs, order, now);
    var sorted := SortByStamp(c);
    var p := CapIds(jobs, order, now);
    assert |p| == |sorted|;
    var x := (id, Stamp(jobs[id]));
    CandidatesExact(jobs, order, now, x);
    assert x in multiset(sorted);
    var k :| 0 <= k < |sorted| && sorted[k] == x;
    assert p[k] == id;
  }

  /** After the sweep at most fifty jobs remain, unless every remaining job
      is still pending or processing. */
  lemma SweepBound(jobs: map<JobId, Job>, order: seq<JobId>, now: real)
    requires Indexed(jobs, order)
    ensures var kept := Without(order, Elems(SweepIds(jobs, order, now)));
      |kept| <= MaxJobs || forall id :: id in kept ==> !Terminal(jobs[id].status)
  {
    var e := ExpiredIds(jobs, order, now);
    var p := CapIds(jobs, order, now);
    var kept := Without(order, Elems(SweepIds(jobs, order, now)));
    IndexedSize(jobs, order);
    SweepCount(jobs, order, now);
    ElemsConcat(e, p);
    if |jobs| - |e| > MaxJobs && |p| < |jobs| - |e| - MaxJobs {
      forall id | id in kept
        ensures !Terminal(jobs[id].status)
      {
        ExpiredIdsExact(jobs, order, now, id);
        if Terminal(jobs[id].status) {
          CapTakesAll(jobs, order, now, id);
        }
      }
    }
  }

  /** The ids pass 2 selects are the first entries of the sorted candidates. */
  lemma CapIdsPrefix(jobs: map<JobId, Job>, order: seq<JobId>, now: real)
    ensures var sorted := SortByStamp(Candidates(jobs, order, now));
      forall k :: 0 <= k < |CapIds(jobs, order, now)| ==> k < |sorted| && CapIds(jobs, order, now)[k] == sorted[k].0
  {
    var sorted := SortByStamp(Candidates(jobs, order, now));
    var remaining := |jobs| - |ExpiredIds(jobs, order, now)|;
    if remaining > MaxJobs {
      var t := Take(sorted, remaining - MaxJobs);
      assert CapIds(jobs, order, now) == Ids(t);
      forall k | 0 <= k < |t|
        ensures Ids(t)[k] == sorted[k].0
      {
        assert t[k] == sorted[k];
      }
    } else {
      assert CapIds(jobs, order, now) == [];
    }
  }

  /** A finished job the sweep keeps sits after the cut in the sorted
      candidate list. */
  lemma KeptAfterCut(jobs: map<JobId, Job>, order: seq<JobId>, now: real, kept: JobId) returns (j: nat)
    requires kept in order && kept in jobs && Terminal(jobs[kept].status)
    requires kept !in SweepIds(jobs, order, now)
    ensures var sorted := SortByStamp(Candidates(jobs, order, now));
      |CapIds(jobs, order, now)| <= j < |sorted| && sorted[j] == (kept, Stamp(jobs[kept]))
  {
    var sorted := SortByStamp(Candidates(jobs, order, now));
    var p := CapIds(jobs, order, now);
    ExpiredIdsExact(jobs, order, now, kept);
    var entry := (kept, Stamp(jobs[kept]));
    CandidatesExact(jobs, order, now, entry);
    assert entry in multiset(sorted);
    j :| 0 <= j < |sorted| && sorted[j] == entry;
    assert kept !in p;
    CapIdsPrefix(jobs, order, now);
  }

  /** Pass 2 removes the oldest first: a job it removes finished no later
      than any finished job the sweep keeps. */
  lemma CapRemovesOldest(jobs: map<JobId, Job>, order: seq<JobId>, now: real, gone: JobId, kept: JobId)
    requires gone in CapIds(jobs, order, now)
    requires kept in order && kept in jobs && Terminal(jobs[kept].status)
    requires kept !in SweepIds(jobs, order, now)
    ensures gone in jobs && Stamp(jobs[gone]) <= Stamp(jobs[kept])
  {
    var c := Candidates(jobs, order, now);
    var sorted := SortByStamp(c);
    var p := CapIds(jobs, order, now);
    var i :| 0 <= i < |p| && p[i] == gone;
    assert sorted[i] in multiset(c);
    CandidatesExact(jobs, order, now, sorted[i]);
    var j := KeptAfterCut(jobs, order, now, kept);
    SortByStampSorted(c);
    assert sorted[i].1 <= sorted[j].1;
  }

  // ---------------------------------------------------------------------------
  // The download checks
  // ---------------------------------------------------------------------------

  /** How a download request ends: one of four refusals, or the file. */
  datatype DownloadVerdict =
    | JobNotFound
    | WrongType(actual: JobType)
    | NotCompleted(status: Status)
    | OutputMissing
    | Stream(path: string)

  /** The checks of both download routes, in the order they run: the job
      exists, is of the route's type, is completed, and its output file
      exists. */
  function CheckDownload(jobs: map<JobId, Job>, files: set<string>, id: JobId, route: JobType): (v: DownloadVerdict)
    ensures v == JobNotFound <==> id !in jobs
    ensures v.WrongType? <==> id in jobs && jobs[id].jobType != route
    ensures v.WrongType? ==> v.actual == jobs[id].jobType
    ensures v.NotCompleted? <==> id in jobs && jobs[id].jobType == route && jobs[id].status != Completed
    ensures v.NotCompleted? ==> v.status == jobs[id].status
    ensures v.Stream? <==>
      && id in jobs && jobs[id].jobType == route && jobs[id].status == Completed
      && jobs[id].outputPath.Some? && jobs[id].outputPath.value != "" && jobs[id].outputPath.value in files
    ensures v.Stream? ==> v.path == jobs[id].outputPath.value
  {
    if id !in jobs then JobNotFound
    else
      var job := jobs[id];
      if job.jobType != route then WrongType(job.jobType)
      else if job.status != Completed then NotCompleted(job.status)
      else if job.outputPath.None? || job.outputPath.value == "" || job.outputPath.value !in files then OutputMissing
      else Stream(job.outputPath.value)
  }

  /** The status code of each refusal. */
  function DownloadCode(v: DownloadVerdict): (code: int)
    requires !v.Stream?
    ensures code == 404 <==> v == JobNotFound || v == OutputMissing
    ensures code == 400 <==> v.WrongType? || v.NotCompleted?
  {
    match v
    case JobNotFound => 404
    case WrongType(_) => 400
    case NotCompleted(_) => 400
    case OutputMissing => 404
  }

  /** The download route of a job of type `t`. */
  function DownloadPath(t: JobType, id: JobId): string {
    "/" + TypeName(t) + "/download/" + id
  }

  /** The message of each refusal. */
  function DownloadMessage(v: DownloadVerdict, route: JobType, id: JobId): string
    requires !v.Stream?
  {
    match v
    case JobNotFound => "Job not found"
    case WrongType(actual) =>
      "Job ID does not match " + TypeName(route) + " job type. This job is of type: " + TypeName(actual)
      + ". Use " + DownloadPath(actual, id) + " instead."
    case NotCompleted(status) => "Job is not completed. Current status: " + StatusName(status)
    case OutputMissing => "Output file not found. It may have been cleaned up."
  }

  /** A request on the wrong route is told the job's own download route, and
      on that route the job passes the existence and type checks. */
  lemma WrongTypeNamesOwnRoute(jobs: map<JobId, Job>, files: set<string>, id: JobId, route: JobType)
    requires CheckDownload(jobs, files, id, route).WrongType?
    ensures var actual := CheckDownload(jobs, files, id, route).actual;
      && actual != route
      && Contains(DownloadMessage(CheckDownload(jobs, files, id, route), route, id), DownloadPath(actual, id))
      && !CheckDownload(jobs, files, id, actual).JobNotFound?
      && !CheckDownload(jobs, files, id, actual).WrongType?
  {
    var actual := CheckDownload(jobs, files, id, route).actual;
    var head := "Job ID does not match " + TypeName(route) + " job type. This job is of type: " + TypeName(actual) + ". Use ";
    assert DownloadMessage(CheckDownload(jobs, files, id, route), route, id) == head + DownloadPath(actual, id) + " instead.";
    ContainsMiddle(head, DownloadPath(actual, id), " instead.");
  }
}
