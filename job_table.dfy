/** The shared `processing_jobs` dictionary of app.py with the operations
    that change it: the endpoints' submissions, the two background workers'
    status updates, the eviction sweep and the download of a result. The lock
    around each update is modelled by running the operations one after the
    other; the clock and the job ids are parameters. */
module JobTable {
  import opened Wrappers
  import opened Jobs
  import Timeline
  import Subtitles
  import AppHelpers
  import Text

  const ProcessingProgress: string := "Processing video..."

  const CreatingSrtProgress: string := "Creating SRT file..."

  const BurningProgress: string := "Burning captions..."

  /** What a caption request hands the worker: the URL, the words, the
      words per line, whether the style is word by word, whether to upper-case,
      and the style dictionary after the preset merge. */
  datatype BurnJob = BurnJob(
    url: string, words: Subtitles.Words, perLine: int, wordByWord: bool, allCaps: bool,
    style: map<AppHelpers.StyleKey, AppHelpers.StyleValue>)

  /** What the caption worker's collaborators do: the download's outcome,
      the lines of the transcoder's error stream and its exit code, the output
      path, `describe`, the text of a generator exception, and the number
      conversions of the style fields. */
  datatype Effects = Effects(
    download: Timeline.DownloadOutcome, stderrLines: seq<string>, exitCode: int, outputPath: string,
    describe: Subtitles.SrtError -> string, conv: AppHelpers.Conversions)

  /** How a caption job ends: the download fails, `len(words)` raises, the
      cue generator raises, a style conversion raises, the burn fails, or it
      succeeds. */
  datatype BurnStage =
    | DownloadFailed(message: string)
    | NoLength(message: string)
    | CaptionsFailed(error: Subtitles.SrtError)
    | StyleFailed(message: string)
    | BurnFailed
    | BurnDone

  /** `len(words)` succeeds: a list, a string or a dictionary. */
  predicate Sized(words: Subtitles.Words) {
    words.WordList? || words.typeName == "str" || words.typeName == "dict"
  }

  /** The text of the TypeError `len()` raises. */
  function NoLengthMessage(typeName: string): string {
    "object of type '" + typeName + "' has no len()"
  }

  /** The cues the caption worker writes, in the style the request asks for. */
  function Captions(words: Subtitles.Words, perLine: int, wordByWord: bool, allCaps: bool)
    : Result<seq<Subtitles.Cue>, Subtitles.SrtError>
  {
    if wordByWord then Subtitles.WordByWordSrt(words, allCaps) else Subtitles.GroupedSrt(words, perLine, allCaps)
  }

  /** The stage at which process_burn_captions stops once the video is
      downloaded, in the order of its steps: the word count in the log line,
      the cues, the style conversions, the burn. */
  function AfterDownload(job: BurnJob, fx: Effects): BurnStage {
    if !Sized(job.words) then NoLength(NoLengthMessage(job.words.typeName))
    else
      var cues := Captions(job.words, job.perLine, job.wordByWord, job.allCaps);
      if cues.Err? then CaptionsFailed(cues.error)
      else
        var fields := AppHelpers.ConvertStyle(job.style, fx.conv);
        if fields.Err? then StyleFailed(fields.error)
        else if fx.exitCode == 0 then BurnDone
        else BurnFailed
  }

  /** The stage at which process_burn_captions stops, for the words it hands
      to the cue generator. */
  function BurnStageOf(job: BurnJob, fx: Effects): BurnStage {
    if !fx.download.Downloaded? then DownloadFailed(DownloadErrorMessage(fx.download))
    else AfterDownload(job, fx)
  }

  /** The whitespace collapse of the 'word' keys never decides how a caption
      job ends: with or without it the job stops at the same stage with the
      same message, and a generator error differs at most in the 'word' key
      of the word it shows. */
  lemma BurnStageIgnoresCollapse(job: BurnJob, fx: Effects)
    ensures var a := BurnStageOf(job.(words := AppHelpers.Sanitized(job.words)), fx);
      var b := BurnStageOf(job, fx);
      && (a.CaptionsFailed? <==> b.CaptionsFailed?)
      && (a.CaptionsFailed? ==> AppHelpers.SameError(a.error, b.error))
      && (!a.CaptionsFailed? ==> a == b)
  {
    if job.wordByWord {
      AppHelpers.SanitizeKeepsWordCues(job.words, job.allCaps);
    } else {
      AppHelpers.SanitizeKeepsGroupedCues(job.words, job.perLine, job.allCaps);
    }
  }

  /** Once the video is downloaded, a caption job with a list of complete
      words and a numeric style succeeds exactly when the transcoder exits
      with 0. */
  lemma WellFormedRequestBurns(job: BurnJob, fx: Effects)
    requires fx.download.Downloaded? && job.wordByWord && job.words.WordList? && job.words.items != []
    requires forall k :: 0 <= k < |job.words.items| ==> Subtitles.Complete(job.words.items[k])
    requires AppHelpers.NumericStyle(job.style)
    ensures BurnStageOf(job, fx) == if fx.exitCode == 0 then BurnDone else BurnFailed
  {
    Subtitles.WordByWordShape(job.words.items, job.allCaps);
    AppHelpers.NumericStyleConverts(job.style, fx.conv);
  }

  /** A finished silence-removal job whose pipeline succeeded can be
      downloaded from its own route, and from no other. */
  lemma SilenceResultDownloadable(
    jobs: map<JobId, Job>, files: set<string>, id: JobId, j: Job,
    path: string, removed: nat, saved: real, now: real)
    requires j.jobType == RemoveSilence && path != ""
    ensures var after := jobs[id := SilenceFinished(j, Timeline.Success(path, removed, saved), now)];
      && CheckDownload(after, files + {path}, id, RemoveSilence) == Stream(path)
      && CheckDownload(after, files + {path}, id, BurnCaptions) == WrongType(RemoveSilence)
  {
  }

  /** A result can be downloaded once: the download deletes the file, and
      the same request then meets the 404 for a missing output. */
  lemma DownloadOnce(jobs: map<JobId, Job>, files: set<string>, id: JobId, route: JobType)
    requires CheckDownload(jobs, files, id, route).Stream?
    ensures CheckDownload(jobs, files - {CheckDownload(jobs, files, id, route).path}, id, route) == OutputMissing
    ensures DownloadCode(OutputMissing) == 404
  {
  }

  // ---------------------------------------------------------------------------
  // The loops of cleanup_old_jobs, over a snapshot of the table
  // ---------------------------------------------------------------------------

  /** The first loop: collects the expired finished jobs and deletes their
      output files from `files`. */
  method ExpirePass(jobs: map<JobId, Job>, order: seq<JobId>, files: set<string>, now: real)
    returns (toRemove: seq<JobId>, present: set<string>)
    requires Indexed(jobs, order)
    ensures toRemove == ExpiredIds(jobs, order, now)
    ensures present == files - Outputs(jobs, toRemove)
  {
    present := files;
    toRemove := [];
    for i := 0 to |order|
      invariant toRemove == ExpiredIds(jobs, order[..i], now)
      invariant present == files - Outputs(jobs, toRemove)
    {
      var id := order[i];
      assert order[..i + 1][..i] == order[..i];
      assert id in Elems(order);
      var job := jobs[id];
      if Terminal(job.status) {
        if now - Stamp(job) > RetentionSeconds {
          var path := job.outputPath;
          if path.Some? && path.value != "" && path.value in present {
            present := present - {path.value};
          }
          assert (toRemove + [id])[..|toRemove|] == toRemove;
          toRemove := toRemove + [id];
        }
      }
    }
    assert order[..|order|] == order;
  }

  /** The finished jobs pass 1 kept, with their stamps, in table order. */
  method CollectCandidates(jobs: map<JobId, Job>, order: seq<JobId>, expired: seq<JobId>, now: real)
    returns (candidates: seq<(JobId, real)>)
    requires Indexed(jobs, order) && expired == ExpiredIds(jobs, order, now)
    ensures candidates == Candidates(jobs, order, now)
  {
    candidates := [];
    for i := 0 to |order|
      invariant candidates == Candidates(jobs, order[..i], now)
    {
      var id := order[i];
      assert order[..i + 1][..i] == order[..i];
      assert id in Elems(order);
      ExpiredIdsExact(jobs, order, now, id);
      if Terminal(jobs[id].status) && id !in expired {
        candidates := candidates + [(id, Stamp(jobs[id]))];
      }
    }
    assert order[..|order|] == order;
  }

  /** The second step: when more than fifty jobs would remain, sorts the
      finished jobs pass 1 kept by their stamps and takes the oldest, as many
      as exceed fifty, deleting their output files from `files`. */
  method CapPass(jobs: map<JobId, Job>, order: seq<JobId>, files: set<string>, expired: seq<JobId>, now: real)
    returns (capped: seq<JobId>, present: set<string>)
    requires Indexed(jobs, order) && expired == ExpiredIds(jobs, order, now)
    ensures capped == CapIds(jobs, order, now)
    ensures present == files - Outputs(jobs, capped)
  {
    capped := [];
    present := files;
    var remaining := |jobs| - |expired|;
    if remaining <= MaxJobs {
      return;
    }
    var candidates := CollectCandidates(jobs, order, expired, now);
    var selected := Take(SortByStamp(candidates), remaining - MaxJobs);
    capped, present := RemoveSelected(jobs, files, selected);
  }

  /** The loop over `completed_jobs[:n]`: each selected job's output file is
      deleted and its id collected. */
  method RemoveSelected(jobs: map<JobId, Job>, files: set<string>, selected: seq<(JobId, real)>)
    returns (capped: seq<JobId>, present: set<string>)
    ensures capped == Ids(selected)
    ensures present == files - Outputs(jobs, capped)
  {
    capped := [];
    present := files;
    for k := 0 to |selected|
      invariant capped == Ids(selected[..k])
      invariant present == files - Outputs(jobs, capped)
    {
      var id := selected[k].0;
      assert selected[..k + 1][..k] == selected[..k];
      var path := if id in jobs then jobs[id].outputPath else None;
      if path.Some? && path.value != "" && path.value in present {
        present := present - {path.value};
      }
      assert (capped + [id])[..|capped|] == capped;
      capped := capped + [id];
    }
    assert selected[..|selected|] == selected;
  }

  /** The last loop: `del processing_jobs[job_id]` for every collected id. */
  method RemoveAll(jobs: map<JobId, Job>, toRemove: seq<JobId>) returns (kept: map<JobId, Job>)
    ensures kept == jobs - Elems(toRemove)
  {
    kept := jobs;
    for i := 0 to |toRemove|
      invariant kept == jobs - Elems(toRemove[..i])
    {
      assert Elems(toRemove[..i + 1]) == Elems(toRemove[..i]) + {toRemove[i]};
      kept := kept - {toRemove[i]};
    }
    assert toRemove[..|toRemove|] == toRemove;
  }

  // ---------------------------------------------------------------------------
  // The caption worker after the download
  // ---------------------------------------------------------------------------

  /** The record a caption job ends with, for the stage it stopped at. */
  ghost predicate EndsAt(j: Job, stage: BurnStage, fx: Effects, finished: real) {
    && j.completedAt == Some(finished)
    && (j.status == Completed <==> stage.BurnDone?)
    && (!stage.BurnDone? ==> j.status == Error)
    && (stage.DownloadFailed? ==> j.error == Some(stage.message))
    && (stage.NoLength? ==> j.error == Some(stage.message))
    && (stage.CaptionsFailed? ==> j.error == Some(fx.describe(stage.error)))
    && (stage.StyleFailed? ==> j.error == Some(stage.message))
    && (stage.BurnFailed? ==>
          exists b :: AppHelpers.IsStderrTail(b, fx.stderrLines) && j.error == Some(AppHelpers.BurnFailureMessage(b)))
    && (stage.BurnDone? ==> j.outputPath == Some(fx.outputPath))
  }

  /** Counts the words, writes the cues, applies the thin-space patch to the
      file, converts the style fields, builds the forced style and runs the
      burn, reading the transcoder's error stream into the bounded buffer.
      `failure` is `None` on success and otherwise the error text the job
      records; `srt` is the patched file and `forced` the style string, once
      they are built. */
  method CaptionAndBurn(job: BurnJob, fx: Effects)
    returns (failure: Option<string>, srt: seq<string>, forced: string)
    ensures var stage := AfterDownload(job, fx);
      && (stage.NoLength? || stage.StyleFailed? ==> failure == Some(stage.message))
      && (stage.CaptionsFailed? ==> failure == Some(fx.describe(stage.error)))
      && (stage.BurnDone? ==> failure.None?)
      && (stage.BurnFailed? ==>
            failure.Some? && exists b :: AppHelpers.IsStderrTail(b, fx.stderrLines) && failure.value == AppHelpers.BurnFailureMessage(b))
    ensures var cues := Captions(job.words, job.perLine, job.wordByWord, job.allCaps);
      Sized(job.words) && cues.Ok? ==> srt == AppHelpers.PatchedSrt(cues.value)
    ensures var fields := AppHelpers.ConvertStyle(job.style, fx.conv);
      AfterDownload(job, fx).BurnDone? || AfterDownload(job, fx).BurnFailed? ==>
        forced == AppHelpers.StyleString(fields.value, job.style, fx.conv.num)
  {
    srt := [];
    forced := "";
    if !Sized(job.words) {
      return Some(NoLengthMessage(job.words.typeName)), srt, forced;
    }
    var result: Result<nat, Subtitles.SrtError>;
    var written: seq<Subtitles.Cue>;
    if job.wordByWord {
      result, written := Subtitles.CreateWordByWordSrt(job.words, job.allCaps);
    } else {
      result, written := Subtitles.CreateSrtFromWords(job.words, job.perLine, job.allCaps);
    }
    if result.Err? {
      return Some(fx.describe(result.error)), srt, forced;
    }
    var lines := Text.ReadLines(Subtitles.SrtText(written));
    srt := AppHelpers.ThinSpacePatch(lines);
    assert srt == AppHelpers.PatchAll(lines);
    AppHelpers.PatchKeepsCueFrame(written);
    var fields := AppHelpers.ConvertStyle(job.style, fx.conv);
    if fields.Err? {
      return Some(fields.error), srt, forced;
    }
    forced := AppHelpers.StyleString(fields.value, job.style, fx.conv.num);
    var buffer := AppHelpers.CollectStderr(fx.stderrLines);
    if fx.exitCode == 0 {
      failure := None;
    } else {
      failure := Some(AppHelpers.BurnFailureMessage(buffer));
    }
  }

  /** The record of a caption job from its start to its end: the progress
      texts it passes through, then the update of the stage it stops at. Only
      the status, the error or output path, the progress and the completion
      time change. */
  method BurnRecord(start: Job, job: BurnJob, fx: Effects, finished: real) returns (j: Job)
    ensures WellFormed(j) && SameJob(j, start)
    ensures j.message == start.message && j.silenceRemoved == start.silenceRemoved
    ensures j.timeSavedSeconds == start.timeSavedSeconds
    ensures EndsAt(j, BurnStageOf(job, fx), fx, finished)
    ensures BurnStageOf(job, fx).BurnDone? ==> j.error == start.error
    ensures !BurnStageOf(job, fx).BurnDone? ==> j.outputPath == start.outputPath
    ensures j.progress == Some(if fx.download.Downloaded? then BurningProgress else CreatingSrtProgress)
  {
    j := start.(progress := Some(CreatingSrtProgress));
    if !fx.download.Downloaded? {
      return Failed(j, DownloadErrorMessage(fx.download), finished);
    }
    j := FinishBurn(j.(progress := Some(BurningProgress)), job, fx, finished);
  }

  /** The update after the download: the cues, the style and the burn, then
      the record of the stage the job stops at. */
  method FinishBurn(j: Job, job: BurnJob, fx: Effects, finished: real) returns (k: Job)
    ensures WellFormed(k) && SameJob(k, j) && k.progress == j.progress
    ensures k.message == j.message && k.silenceRemoved == j.silenceRemoved
    ensures k.timeSavedSeconds == j.timeSavedSeconds
    ensures EndsAt(k, AfterDownload(job, fx), fx, finished)
    ensures AfterDownload(job, fx).BurnDone? ==> k.error == j.error
    ensures !AfterDownload(job, fx).BurnDone? ==> k.outputPath == j.outputPath
  {
    var failure, _, _ := CaptionAndBurn(job, fx);
    if failure.None? {
      k := Burned(j, fx.outputPath, finished);
    } else {
      k := Failed(j, failure.value, finished);
    }
  }

  // ---------------------------------------------------------------------------
  // The endpoints' submission
  // ---------------------------------------------------------------------------

  /** The 'words' field of a caption request: absent or falsy (None, "",
      [], {}, 0, false); a non-empty string, with what `json.loads` returns
      for it or the text of the error it raises; a non-empty list; or some
      other value (a non-empty object, a non-zero number, true). */
  datatype WordsField =
    | WordsFalsy
    | WordsText(parsed: Result<Subtitles.Words, string>)
    | WordsArray(items: seq<Subtitles.Word>)
    | WordsOther

  /** The fields of a submission the endpoint reads before replying: the
      URL ("" when absent or falsy), and 'min_duration' (0.5 when absent) or
      'words' and 'words_per_line' (5 when absent). */
  datatype Request =
    | SilenceRequest(url: string, minDuration: AppHelpers.StyleValue)
    | CaptionRequest(url: string, words: WordsField, perLine: AppHelpers.StyleValue)

  /** The endpoint's reply: the new job's id (202), or a status code and
      message. */
  datatype Reply = Accepted(id: JobId) | Refused(code: nat, message: string)

  function RequestType(req: Request): JobType {
    if req.SilenceRequest? then RemoveSilence else BurnCaptions
  }

  predicate WordsGiven(w: WordsField) {
    !w.WordsFalsy? && !(w.WordsArray? && w.items == [])
  }

  const SilenceRequired := "video_url required"
  const CaptionsRequired := "video_url and words required"
  const WordsShape := "words must be array or JSON string"

  /** Flask's reply to an exception the view does not catch. */
  const InternalServerError := "Internal Server Error"

  /** Why an endpoint refuses a submission, if it does, in the order it
      checks: the required fields and the URL (400); for silence removal the
      `float()` of 'min_duration', outside any handler (Flask's 500); for
      captions, inside the handler that answers 500 with the exception text,
      the `json.loads` of a string, the shape of the words (400) and the
      `int()` of 'words_per_line'. */
  function Refusal(req: Request, conv: AppHelpers.Conversions): Option<(nat, string)> {
    if req.url == "" || (req.CaptionRequest? && !WordsGiven(req.words)) then
      Some((400, if req.SilenceRequest? then SilenceRequired else CaptionsRequired))
    else if !AppHelpers.ValidateVideoUrl(Some(req.url)).0 then
      Some((400, AppHelpers.ValidateVideoUrl(Some(req.url)).1.value))
    else
      match req
      case SilenceRequest(_, minDuration) =>
        if AppHelpers.PyFloat(minDuration, conv.parseFloat).Err? then Some((500, InternalServerError)) else None
      case CaptionRequest(_, words, perLine) =>
        if words.WordsText? && words.parsed.Err? then Some((500, words.parsed.error))
        else if words.WordsOther? then Some((400, WordsShape))
        else
          var n := AppHelpers.PyInt(perLine, conv.parseInt);
          if n.Err? then Some((500, n.error)) else None
  }

  /** A caption request is accepted exactly when its URL is given and
      validates, its words are a non-empty list or a string that parses,
      and 'words_per_line' converts. */
  lemma CaptionAcceptedIff(req: Request, conv: AppHelpers.Conversions)
    requires req.CaptionRequest?
    ensures Refusal(req, conv).None? <==>
      && AppHelpers.CheckVideoUrl(Some(req.url)).UrlAccepted?
      && ((req.words.WordsArray? && req.words.items != []) || (req.words.WordsText? && req.words.parsed.Ok?))
      && AppHelpers.PyInt(req.perLine, conv.parseInt).Ok?
  {
    AppHelpers.ValidateAcceptsIff(Some(req.url));
  }

  /** A silence request is accepted exactly when its URL is given and
      validates and 'min_duration' converts. */
  lemma SilenceAcceptedIff(req: Request, conv: AppHelpers.Conversions)
    requires req.SilenceRequest?
    ensures Refusal(req, conv).None? <==>
      AppHelpers.CheckVideoUrl(Some(req.url)).UrlAccepted? && AppHelpers.PyFloat(req.minDuration, conv.parseFloat).Ok?
  {
    AppHelpers.ValidateAcceptsIff(Some(req.url));
  }

  /** Every refusal is a client error (400) or a server error (500), and a
      server error comes only from a conversion that raised. */
  lemma RefusalCodes(req: Request, conv: AppHelpers.Conversions)
    requires Refusal(req, conv).Some?
    ensures Refusal(req, conv).value.0 in {400, 500}
    ensures Refusal(req, conv).value.0 == 500 ==>
      if req.SilenceRequest? then AppHelpers.PyFloat(req.minDuration, conv.parseFloat).Err?
      else (req.words.WordsText? && req.words.parsed.Err?) || AppHelpers.PyInt(req.perLine, conv.parseInt).Err?
  {
  }

  class Table {
    /** The records, by job id. */
    var jobs: map<JobId, Job>
    /** The dictionary's iteration order: insertion order of its keys. */
    var order: seq<JobId>
    /** The paths that exist on disk. */
    var files: set<string>

    ghost predicate Valid()
      reads this
    {
      Indexed(jobs, order) && forall id :: id in jobs ==> WellFormed(jobs[id])
    }

    constructor (existing: set<string>)
      ensures Valid() && jobs == map[] && order == [] && files == existing
    {
      jobs := map[];
      order := [];
      files := existing;
    }

    /** `processing_jobs[id] = job`: a new key goes last in the iteration
        order, an existing key keeps its place. */
    method Put(id: JobId, job: Job)
      modifies this
      requires Valid() && WellFormed(job)
      ensures Valid()
      ensures jobs == old(jobs)[id := job] && files == old(files)
      ensures order == if id in old(jobs) then old(order) else old(order) + [id]
    {
      if id !in jobs {
        assert Elems(order + [id]) == Elems(order) + {id};
        order := order + [id];
      }
      jobs := jobs[id := job];
    }

    /** A worker's first update, under the lock. */
    method StartWorker(id: JobId, t: JobType, url: string, now: real)
      modifies this
      requires Valid()
      ensures Valid() && files == old(files)
      ensures id in jobs && jobs == old(jobs)[id := Started(if id in old(jobs) then Some(old(jobs)[id]) else None, t, url, now)]
      ensures order == if id in old(jobs) then old(order) else old(order) + [id]
    {
      var existing := if id in jobs then Some(jobs[id]) else None;
      Put(id, Started(existing, t, url, now));
    }

    // -------------------------------------------------------------------------
    // The endpoints' submission
    // -------------------------------------------------------------------------

    /** POST /remove-silence and POST /burn-captions up to the reply: a
        refused request changes nothing; an accepted one stores a pending
        record under the new id and runs the sweep. */
    method Submit(id: JobId, req: Request, conv: AppHelpers.Conversions, now: real) returns (r: Reply)
      modifies this
      requires Valid()
      ensures Valid()
      ensures r.Refused? <==> Refusal(req, conv).Some?
      ensures r.Refused? ==> (r.code, r.message) == Refusal(req, conv).value
      ensures r.Refused? ==> jobs == old(jobs) && order == old(order) && files == old(files)
      ensures r.Accepted? ==> r.id == id && id in jobs && jobs[id] == Submitted(RequestType(req), req.url, now)
      ensures r.Accepted? ==>
        var stored := old(jobs)[id := Submitted(RequestType(req), req.url, now)];
        var storedOrder := if id in old(jobs) then old(order) else old(order) + [id];
        var swept := SweepIds(stored, storedOrder, now);
        && jobs == stored - Elems(swept)
        && order == Without(storedOrder, Elems(swept))
        && files == old(files) - Outputs(stored, swept)
    {
      var refusal := Refusal(req, conv);
      if refusal.Some? {
        return Refused(refusal.value.0, refusal.value.1);
      }
      Put(id, Submitted(RequestType(req), req.url, now));
      ghost var before := jobs;
      ghost var beforeOrder := order;
      Cleanup(now);
      if id in SweepIds(before, beforeOrder, now) {
        SweepOnlyFinished(before, beforeOrder, now, id);
      }
      r := Accepted(id);
    }

    // -------------------------------------------------------------------------
    // cleanup_old_jobs
    // -------------------------------------------------------------------------

    /** cleanup_old_jobs: removes the jobs the eviction rule selects and
        their output files; every other job keeps its record and its place. */
    method Cleanup(now: real)
      modifies this
      requires Valid()
      ensures Valid()
      ensures jobs == old(jobs) - Elems(SweepIds(old(jobs), old(order), now))
      ensures order == Without(old(order), Elems(SweepIds(old(jobs), old(order), now)))
      ensures files == old(files) - Outputs(old(jobs), SweepIds(old(jobs), old(order), now))
    {
      var expired, present := ExpirePass(jobs, order, files, now);
      var capped, left := CapPass(jobs, order, present, expired, now);
      var toRemove := expired + capped;
      OutputsConcat(jobs, expired, capped);
      var kept := RemoveAll(jobs, toRemove);
      IndexedWithout(jobs, order, Elems(toRemove));
      jobs, order, files := kept, Without(order, Elems(toRemove)), left;
    }

    // -------------------------------------------------------------------------
    // The background workers
    // -------------------------------------------------------------------------

    /** process_silence_removal, given what remove_silence_from_url returned:
        the job turns `processing`, then finishes with the status the result
        calls for; a successful run leaves its output file on disk. */
    method ProcessSilenceRemoval(id: JobId, url: string, result: Timeline.PipelineResult, started: real, finished: real)
      modifies this
      requires Valid()
      ensures Valid()
      ensures id in jobs && jobs == old(jobs)[id := jobs[id]]
      ensures order == if id in old(jobs) then old(order) else old(order) + [id]
      ensures jobs[id].status == SilenceStatus(result) && jobs[id].completedAt == Some(finished)
      ensures jobs[id] == SilenceFinished(
        Started(if id in old(jobs) then Some(old(jobs)[id]) else None, RemoveSilence, url, started)
          .(progress := Some(ProcessingProgress)),
        result, finished)
      ensures files == if result.Success? then old(files) + {result.outputPath} else old(files)
    {
      StartWorker(id, RemoveSilence, url, started);
      Put(id, SilenceFinished(jobs[id].(progress := Some(ProcessingProgress)), result, finished));
      if result.Success? {
        files := files + {result.outputPath};
      }
    }

    /** process_burn_captions, given what its collaborators do: the words
        are collapsed, the cues generated, and the job finishes with the
        status and error text of the stage it stops at; every other key is
        what the first update left. */
    method ProcessBurnCaptions(id: JobId, job: BurnJob, fx: Effects, started: real, finished: real)
      modifies this
      requires Valid()
      ensures Valid() && id in jobs && jobs == old(jobs)[id := jobs[id]]
      ensures order == if id in old(jobs) then old(order) else old(order) + [id]
      ensures files == if jobs[id].status == Completed then old(files) + {fx.outputPath} else old(files)
      ensures var start := Started(if id in old(jobs) then Some(old(jobs)[id]) else None, BurnCaptions, job.url, started);
        var stage := BurnStageOf(job.(words := AppHelpers.Sanitized(job.words)), fx);
        && SameJob(jobs[id], start)
        && jobs[id].message == start.message && jobs[id].silenceRemoved == start.silenceRemoved
        && jobs[id].timeSavedSeconds == start.timeSavedSeconds
        && EndsAt(jobs[id], stage, fx, finished)
        && (stage.BurnDone? ==> jobs[id].error == start.error)
        && (!stage.BurnDone? ==> jobs[id].outputPath == start.outputPath)
        && jobs[id].progress == Some(if fx.download.Downloaded? then BurningProgress else CreatingSrtProgress)
    {
      var existing := if id in jobs then Some(jobs[id]) else None;
      var clean := AppHelpers.SanitizeWords(job.words);
      var final := BurnRecord(Started(existing, BurnCaptions, job.url, started), job.(words := clean), fx, finished);
      Put(id, final);
      if final.status == Completed {
        files := files + {fx.outputPath};
      }
    }

    // -------------------------------------------------------------------------
    // Downloads
    // -------------------------------------------------------------------------

    /** GET /<route>/download/<id>: the checks, then the file is streamed and
        deleted when the response closes. */
    method Download(id: JobId, route: JobType) returns (v: DownloadVerdict)
      modifies this
      requires Valid()
      ensures Valid() && jobs == old(jobs) && order == old(order)
      ensures v == CheckDownload(old(jobs), old(files), id, route)
      ensures files == if v.Stream? then old(files) - {v.path} else old(files)
    {
      v := CheckDownload(jobs, files, id, route);
      if v.Stream? {
        files := files - {v.path};
      }
    }
  }
}
