# Silence removal and caption burning: a Dafny model

The service takes a video URL and either cuts the silent stretches out of
the video or burns word-timed captions into it. Both run as background jobs
in a shared job table, and clients poll and download the results. This
project models the logic of that service and proves properties of it:

- `timeline.dfy` (module `Timeline`) models `remove_silence.py`:
  - the pairing of the audio engine's `silence_start`/`silence_end` markers;
  - the walk that turns silences into the segments to keep;
  - the trim/concat filter graph built over those segments;
  - the result branching of `remove_silence_from_url`. The download, the
    analysis output, the duration probe and the transcoder's exit code are
    parameters.
- `subtitles.dfy` (module `Subtitles`) models `create_srt.py`:
  - `format_timestamp`, proved to round-trip through a parser of the
    `HH:MM:SS,mmm` format;
  - the grouped cue generator, proved to produce one cue per chunk, each
    spanning its chunk's first start to its last end;
  - the word-by-word generator, proved equal to grouping one word per line;
  - each generator's validation errors (`TypeError`/`ValueError`/`AttributeError`), in the order the
    source's tests raise them.
- `app_helpers.dfy` (module `AppHelpers`) models the pure parts of `app.py`:
  - `validate_video_url`;
  - the whitespace collapse of each word's `'word'` key;
  - the thin-space patch of the SRT lines;
  - the 2048-character tail kept of the transcoder's error stream;
  - the style presets, the `int()`/`float()` conversions of the style fields,
    the colour map and the outline rule of the forced style.
- `jobs.dfy` (module `Jobs`) models the job records and their status
  transitions. It also holds the two eviction rules of `cleanup_old_jobs`
  (the 900-second expiry and the 50-job cap, oldest first) and the checks
  of the download endpoints.
- `job_table.dfy` (module `JobTable`) models `processing_jobs`. It is a
  class whose methods update the table in place:
  - the endpoints' submission;
  - the two background workers;
  - the eviction sweep, with its loops;
  - the download that deletes the served file.

  Dictionary iteration order is kept as the key sequence `order`. The files
  on disk are a set of paths.
- `text.dfy` (module `Text`) holds the string operations Python provides:
  decimal rendering and zero padding, substring test, `split()`/`join`,
  `strip()` and ASCII `upper()`/`lower()`.
- `wrappers.dfy` holds `Option` and `Result`.

Times are `real` seconds. An exception the source raises and catches is an
`Err` value or an error result. Where the source's output depends on
Python's rendering of a float, that rendering is a parameter `num`.

The proofs also show one thing about the code as written. The whitespace
collapse rewrites only the `'word'` key. The cue generators read only
`'text'`. So the collapse never changes a cue and never changes how a
caption job ends (`AppHelpers.SanitizeKeepsGroupedCues`,
`AppHelpers.SanitizeKeepsWordCues`, `JobTable.BurnStageIgnoresCollapse`).

## Model

| member | source | states |
|---|---|---|
| Text.Split | app.py:187 | every piece of `str.split()` is a non-empty run of non-whitespace |
| Text.SplitIsWeave | app.py:187 | the pieces of `str.split()`, put back between whitespace gaps (the inner gaps non-empty), rebuild the input exactly |
| Text.SplitOfWeave | app.py:187 | conversely, words put between whitespace gaps split back into exactly those words |
| Text.CollapseOfWeave | app.py:187 | `" ".join(s.split())` of words between whitespace gaps is the words joined by single spaces |
| Text.SplitJoinRoundTrip | app.py:187 | splitting a single-space join of words gives back exactly those words |
| Text.CollapseIdempotent | app.py:187 | `" ".join(s.split())` applied twice is the same as applied once |
| Text.TrimStart | app.py:234 | `strip()` drops exactly the leading whitespace and leaves a non-space first character |
| Text.TrimEnd | app.py:234 | `strip()` drops exactly the trailing whitespace and leaves a non-space last character |
| Text.NatToStringRoundTrip | create_srt.py:10 | the decimal rendering of a number reads back as that number |
| Text.ZeroPadValue | create_srt.py:10 | `:02d`/`:03d` padding gives digits of at least the width, with the same value |
| Timeline.PairSilences | remove_silence.py:47-56 | the i-th start pairs with the i-th end, its duration is end minus start, and the surplus markers of the longer list are dropped |
| Timeline.KeepFrom | remove_silence.py:78-93 | the walk yields at most one more segment than there are silences, and no empty segment |
| Timeline.PlanSegments | remove_silence.py:78-93 | the segment loop computes the kept segments of the walk from time 0 |
| Timeline.KeepFromComplement | remove_silence.py:78-93 | from any cursor, an instant is kept exactly when it lies between the cursor and the end and no silence covers it |
| Timeline.KeepFromAscending | remove_silence.py:78-93 | from any cursor the kept segments are ascending, disjoint and inside the cursor-to-end window |
| Timeline.PlanIsComplement | remove_silence.py:78-93 | for ordered silences the kept segments are exactly the complement of the silences within the video, in order |
| Timeline.PlanEdgeCases | remove_silence.py:89-97 | no silence keeps the whole video; one silence over the whole video keeps nothing (the `None` case) |
| Timeline.KeepFromLength | remove_silence.py:78-93 | the kept length from a cursor is the window minus the silences' summed durations |
| Timeline.KeptPlusSavedIsWhole | remove_silence.py:151 | kept time plus the reported saved time equals the video duration |
| Timeline.BuildFilterParts | remove_silence.py:104-117 | segment i yields a video trim at position 2i and an audio trim at 2i+1, both over its bounds and labelled i, then one concat of all pairs |
| Timeline.TrimsFeedConcat | remove_silence.py:104-117 | the trims' output labels in order are exactly the concat's inputs `[v0][a0]...`, and the concat joins one pair per segment |
| Timeline.CreateFilterComplex | remove_silence.py:75-119 | `None` exactly when no segment is kept, otherwise the rendering of a well-formed graph over the kept segments |
| Timeline.RemoveSilenceFromUrl | remove_silence.py:121-206 | each outcome: download failure text, no_silence with the input path, probe error, division by a zero duration, no filter, success with the count and saved time, or transcoder failure |
| Subtitles.Minutes | create_srt.py:7 | the minutes field is below 60 |
| Subtitles.Seconds | create_srt.py:8 | the seconds field is below 60 |
| Subtitles.Millis | create_srt.py:9 | the milliseconds field is below 1000 |
| Subtitles.TimestampFieldsDenote | create_srt.py:6-9 | the four fields together denote the input truncated to whole milliseconds |
| Subtitles.TimestampRoundTrip | create_srt.py:4-10 | parsing the formatted timestamp of a non-negative time gives back its whole milliseconds |
| Subtitles.FieldsRoundTrip | create_srt.py:10 | in-range hour, minute, second and millisecond fields laid out as a timestamp read back as the milliseconds they denote |
| Subtitles.TimestampExampleHour | create_srt.py:4-10 | 3661.25 s renders as `01:01:01,250` (a value exact in binary, so doubles agree) |
| Subtitles.TimestampExampleTruncates | create_srt.py:4-10 | milliseconds truncate rather than round: 1.4995 s renders as `00:00:01,499` |
| Subtitles.ChunkTextIsJoin | create_srt.py:44 | a cue's text is the chunk's word texts joined by single spaces |
| Subtitles.ChunkCue | create_srt.py:36-48 | a chunk's cue carries the running subtitle index |
| Subtitles.ChunkCueOk | create_srt.py:36-48 | a chunk yields a cue exactly when its first word is a dict with start and text, its last word is a dict with an end, and the words between are dicts; the cue spans those times with the joined text |
| Subtitles.ChunkLastNotADict | create_srt.py:39-44 | a last word that is not a dict raises TypeError from `'end' in` when it is a number, bool or None; a string or list without `'end'` is a missing field (ValueError); one holding `'end'` raises TypeError when indexed, unless the first word lacks `'text'` |
| Subtitles.CreateSrtFromWords | create_srt.py:12-57 | the writing loop emits exactly the cues of the grouped generator, numbered from 1, and returns their count, or stops with its error |
| Subtitles.WriteChunks | create_srt.py:29-54 | the loop over chunk starts writes exactly the generator's cues, numbered from 1, and returns their count, or stops with the first chunk's error |
| Subtitles.NextChunk | create_srt.py:30-54 | one iteration writes the cue of the chunk at the current start with the current index, and the rest of the run is the generator from the next start |
| Subtitles.GroupedFromCount | create_srt.py:29-54 | from any start the generator emits one cue per chunk of the remaining words |
| Subtitles.GroupedCount | create_srt.py:29-57 | a successful run emits ceil(words / per line) cues |
| Subtitles.GroupedFromCue | create_srt.py:29-54 | the k-th cue emitted is the cue of the k-th chunk, with index start + k |
| Subtitles.GroupedCues | create_srt.py:29-54 | cue k is numbered k+1 and spans chunk k's first start to its last end, with its joined text |
| Subtitles.GroupedFromAccepts | create_srt.py:29-40 | from a chunk boundary the generator succeeds exactly when every later chunk is valid |
| Subtitles.GroupedAcceptsIff | create_srt.py:16-40 | a non-empty list succeeds exactly when every chunk is valid |
| Subtitles.FiveWordsTwoPerLine | create_srt.py:29-44 | five complete words at two per line give three cues, the last holding the fifth word alone |
| Subtitles.CapsOnlyChangesText | create_srt.py:47-48 | `all_caps` upper-cases each cue's text and changes nothing else; it succeeds exactly when the plain run does |
| Subtitles.CreateWordByWordSrt | create_srt.py:59-91 | the loop emits exactly the cues of the word-by-word generator, numbered from 1, and returns the word count, or stops with its error |
| Subtitles.WordsFromShape | create_srt.py:70-88 | from any start, success means every word yields a cue and cue k is word k's cue |
| Subtitles.WordByWordShape | create_srt.py:59-91 | success exactly when every word is complete; cue k is numbered k+1 with word k's times and text |
| Subtitles.OnePerLineIsWordByWord | create_srt.py:29-44 | from any start, grouping one word per line is the word-by-word generator |
| Subtitles.GroupedByOneIsWordByWord | create_srt.py:59-91 | the grouped generator at one word per line equals the word-by-word generator on every input, errors included |
| AppHelpers.FirstEndpoint | app.py:86-88 | finds the first listed endpoint contained in the URL, or reports that none is |
| AppHelpers.CheckVideoUrl | app.py:71-90 | accepts only a present URL containing no endpoint; a refusal names an endpoint the URL contains |
| AppHelpers.ValidateVideoUrl | app.py:71-90 | the flag is true exactly when there is no message, and exactly when the URL is accepted |
| AppHelpers.ValidateAcceptsIff | app.py:71-90 | a URL is accepted exactly when it is non-empty and contains none of the six endpoints |
| AppHelpers.ValidateNamesFirstEndpoint | app.py:86-88 | the refusal names the first endpoint of the list the URL contains |
| AppHelpers.ValidateNeedsOnlyTwoRoutes | app.py:77-84 | the six-entry list refuses exactly the URLs that contain one of the two route prefixes |
| AppHelpers.ValidateRefusesDownloadLink | app.py:77-88 | a link to this service's own download route is refused with the message naming that route |
| AppHelpers.SanitizeAll | app.py:185-187 | the collapse keeps one entry per word |
| AppHelpers.SanitizeWordSame | app.py:186-187 | the collapse changes at most the `'word'` key of a dict entry |
| AppHelpers.SanitizeAllAt | app.py:185-187 | entry i after the collapse is entry i collapsed |
| AppHelpers.SanitizeAllSame | app.py:185-187 | after the collapse every entry differs from the original at most in its `'word'` key |
| AppHelpers.SanitizeWords | app.py:185-187 | the in-place loop over the list yields the collapsed list; a non-list is left alone |
| AppHelpers.SanitizeIdempotent | app.py:187 | collapsing a word twice is the same as once |
| AppHelpers.SameErrorKeepsClass | create_srt.py:36-40 | errors that differ only in the shown word raise the same exception class |
| AppHelpers.ChunkTextIgnoresWord | create_srt.py:44 | a chunk's text does not depend on the `'word'` key |
| AppHelpers.ChunkCueIgnoresWord | create_srt.py:36-48 | a chunk's cue, or its error class, does not depend on the `'word'` key |
| AppHelpers.GroupedFromIgnoresWord | create_srt.py:29-54 | the grouped cues do not depend on the `'word'` keys |
| AppHelpers.WordsFromIgnoresWord | create_srt.py:70-88 | the word-by-word cues do not depend on the `'word'` keys |
| AppHelpers.SanitizeKeepsGroupedCues | app.py:185-187 | the collapse leaves the grouped cues unchanged, and the errors differ only in the word shown |
| AppHelpers.SanitizeKeepsWordCues | app.py:185-187 | the collapse leaves the word-by-word cues unchanged, and the errors differ only in the word shown |
| AppHelpers.PatchLine | app.py:233-237 | a timing line or a short number line is kept; any other line has every space, and only the spaces, replaced by U+2009 |
| AppHelpers.ThinSpacePatch | app.py:228-239 | the loop patches every line in order, keeping the line count |
| AppHelpers.PatchKeepsSpaceless | app.py:233-237 | a line without spaces is unchanged |
| AppHelpers.PatchKeepsTiming | app.py:234-235 | an SRT timing line `a --> b` keeps its spaces |
| AppHelpers.PatchKeepsNumber | app.py:234-235 | a cue number line keeps its text |
| Text.ReadLinesShape | app.py:229-230 | `readlines()` in text mode gives lines that each end in one `\n` (the last may lack it) and hold no other line break; `\n`, `\r` and `\r\n` each end a line |
| Text.ReadLinesAppend | app.py:229-230 | a text cut just after a newline reads back as the lines of its first part followed by those of its second |
| Text.OneLine | app.py:229-230 | a text without line breaks, followed by a newline, reads back as that one line |
| Subtitles.TimingNoBreak | create_srt.py:4-10 | a timing line `a --> b` holds no line break, whatever the times |
| Subtitles.CueFileLines | create_srt.py:50-52 | a cue's written block reads back as its number line, its timing line, the lines of its text and one blank line |
| Subtitles.SrtFileLines | create_srt.py:46-54 | a whole written file reads back as the cues' blocks of lines, in order |
| AppHelpers.PatchKeepsCueFrame | app.py:228-239 | on a file the generators wrote and `readlines()` read back, the patch rewrites only the lines of each cue's text (a text holding `\n`, `\r` or `\r\n` gives several lines, each patched alone); every number, timing and blank line comes through |
| AppHelpers.CollectStderr | app.py:290-296 | the buffer is the longest suffix of the stream's lines whose total length is at most 2048 |
| AppHelpers.ReadLine | app.py:292-295 | reading one line appends it and drops oldest lines until the total fits in 2048, keeping the buffer the longest fitting suffix read so far |
| AppHelpers.DropOldest | app.py:294-295 | popping from the front stops at the first suffix whose total is at most 2048 |
| AppHelpers.TailIsLongestFit | app.py:292-295 | every suffix that fits is no longer than the buffer |
| AppHelpers.StderrTailLength | app.py:292-295 | any two buffers of the stream have the same length |
| AppHelpers.StderrTailUnique | app.py:292-295 | the buffer for a stream is unique |
| AppHelpers.OversizedLineEmptiesTail | app.py:292-295 | a last line longer than 2048 characters empties the buffer |
| AppHelpers.JoinLength | app.py:297 | the joined buffer is as long as its lines together |
| AppHelpers.BurnFailureMessage | app.py:323 | the error is the fixed prefix followed by the first 200 characters of the joined buffer |
| AppHelpers.BurnFailureMessageBounded | app.py:290-323 | the kept output is at most 2048 characters and the error message at most 225 |
| AppHelpers.ColourCodeIsAssEncoding | app.py:255-260 | each named colour maps to the ASS `&HAABBGGRR` code of its RGB value; every other name maps to white |
| AppHelpers.ColourIgnoresCase | app.py:260 | the colour lookup does not depend on letter case |
| AppHelpers.OutlineTrueRendersTrue | app.py:264-268 | as written, the default or `outline: true` renders `Outline=True` |
| AppHelpers.OutlineClauseIntended | app.py:264-270 | a falsy outline gives `Outline=0`; a non-zero int or float is itself the width; the flag `True` and a non-empty string use `outline_width`, 2 by default |
| AppHelpers.OutlineDefaultWidthIsTwo | app.py:265 | the corrected rule gives `Outline=2` for an empty style |
| AppHelpers.OutlineFixChangesOnlyTrue | app.py:264-270 | the corrected and written clauses differ exactly when the outline is `True` and the width does not print as `True` |
| AppHelpers.StyleStringParts | app.py:262-270 | the forced style as written and the corrected one both carry the mapped `PrimaryColour` code and end with their own outline clause, and they are equal exactly when the two clauses are |
| AppHelpers.PresetOf | app.py:699 | a preset name is found exactly when it is one of the five names |
| AppHelpers.MergePreset | app.py:698-702 | a known preset's entries are kept where the request has no entry of its own, the request's entries always win, and an unknown or missing preset leaves the style as sent |
| AppHelpers.PresetOutlines | app.py:21-64 | three of the five presets (default, tiktok, youtube) set the outline flag `True` and render `Outline=True`; minimal renders `Outline=0`, hormozi `Outline=3` |
| AppHelpers.PyInt | app.py:247 | `int()` keeps an integer, truncates a float toward zero, parses a string, and raises exactly for None and for a string that does not parse |
| AppHelpers.PyFloat | app.py:252 | `float()` keeps a float, widens an integer, parses a string, and raises exactly for None and for a string that does not parse |
| AppHelpers.ConvertStyle | app.py:246-253 | the style conversions fail exactly when one of the five `int()`/`float()` calls raises |
| AppHelpers.ConvertStyleFirstError | app.py:247-253 | the first of the five conversions (font size, horizontal margin, vertical margin, spacing, shadow) that raises gives the job's error |
| AppHelpers.NumericStyleConverts | app.py:246-253 | a style whose converted keys are absent or numbers never fails |
| AppHelpers.ConvertKeepsNumbers | app.py:247-253 | an integer size or shadow, and a float or integer spacing, come through unchanged |
| AppHelpers.DefaultStyleFields | app.py:246-253 | an empty style converts to DejaVu Sans at 24, white, margins 70 and 40, spacing -1.0 and shadow 0 |
| AppHelpers.MarginVerticalWins | app.py:251 | `margin_vertical` wins over the presets' `margin_v`, which applies only when `margin_vertical` is absent |
| AppHelpers.PresetsConvert | app.py:246-253 | every preset, merged with any numeric style of the request, passes the worker's conversions |
| Jobs.Submitted | app.py:470-478 | a new record is `pending` with the request's type, URL and creation time, and has no progress, completion time, output, message, error, silence count or saved time |
| Jobs.Started | app.py:94-107 | the worker marks the job `processing` with the download progress; an existing record keeps every other field, including message, silence count and saved time; a missing one is recreated without them |
| Jobs.SilenceFinished | app.py:125-148 | success gives `completed` with path, count and saved time; no silence gives `no_silence` with its message; failure gives `error` with its message; all are stamped, and every other key of the record is kept |
| Jobs.Failed | app.py:327-335 | the job becomes `error` with the message and the completion time, keeping its type, URL, creation time, output path, progress, message, silence count and saved time |
| Jobs.Burned | app.py:305-315 | the job becomes `completed` with the output path and the completion time, keeping its type, URL, creation time, progress, error, message, silence count and saved time |
| Jobs.DownloadErrorMessage | app.py:203-213 | a 404 gives the expired-URL text; another HTTP status the failure prefix with the detail; another error the URL hint around the detail |
| Jobs.Without | app.py:380-381 | deleting the selected keys keeps exactly the other keys |
| Jobs.InsertByStamp | app.py:368 | an insertion adds exactly the one entry |
| Jobs.SortByStamp | app.py:368 | the sort is a permutation |
| Jobs.SortByStampSorted | app.py:368 | the sort orders by completion stamp, oldest first |
| Jobs.ExpiredIdsExact | app.py:345-357 | the first pass selects exactly the finished jobs older than 900 seconds |
| Jobs.CandidatesExact | app.py:363-367 | the cap candidates are exactly the finished jobs not already selected, each with its stamp |
| Jobs.SweepOnlyFinished | app.py:338-381 | the sweep removes only completed, error or no_silence jobs |
| Jobs.SweepCount | app.py:359-381 | the table shrinks by the number of expired jobs plus the number of capped jobs |
| Jobs.SweepBound | app.py:359-377 | after the sweep at most 50 jobs remain, unless every remaining job is still pending or processing |
| Jobs.CapIdsRetained | app.py:363-377 | the cap removes only finished jobs the expiry kept |
| Jobs.CapRemovesOldest | app.py:363-377 | every job the cap removes finished no later than every finished job it keeps |
| Jobs.KeptAfterCut | app.py:363-377 | a finished job the sweep keeps lies past the cut in the stamp-sorted candidate list |
| Jobs.CapTakesAll | app.py:363-377 | when the cap selects fewer jobs than the surplus, it has selected every retained finished job |
| Jobs.CheckDownload | app.py:540-570 | unknown id, wrong job type, not completed and missing file are told apart in that order; otherwise the output path is streamed |
| Jobs.DownloadCode | app.py:545-570 | unknown id and missing file answer 404; wrong type and not completed answer 400 |
| Jobs.WrongTypeNamesOwnRoute | app.py:550-555 | a wrong-type refusal names the job's own download route, which is a different route and does not refuse the job as unknown or of the wrong type |
| JobTable.BurnStageIgnoresCollapse | app.py:185-187 | with or without the collapse a caption job stops at the same stage with the same message; a generator error differs at most in the `'word'` key of the word it shows |
| JobTable.WellFormedRequestBurns | app.py:218-325 | after the download, complete words in word-by-word style with a numeric style succeed exactly when the transcoder exits with 0 |
| JobTable.CaptionAcceptedIff | app.py:660-682 | a caption request is accepted exactly when its URL validates, its words are a non-empty list or a string that parses, and `words_per_line` converts |
| JobTable.SilenceAcceptedIff | app.py:451-462 | a silence request is accepted exactly when its URL validates and `min_duration` converts |
| JobTable.RefusalCodes | app.py:448-734 | every refusal is a 400 or a 500, and a 500 comes only from a `json.loads`, `int()` or `float()` that raised |
| JobTable.SilenceResultDownloadable | app.py:125-135 | a successful silence job is streamed from its own route and refused as the wrong type on the other |
| JobTable.DownloadOnce | app.py:590-597 | after a download deletes the file, the same request answers 404 |
| JobTable.ExpirePass | app.py:345-357 | the first loop selects the expired finished jobs and deletes their outputs |
| JobTable.CollectCandidates | app.py:363-367 | the comprehension lists the unselected finished jobs with their stamps, in table order |
| JobTable.CapPass | app.py:359-377 | the cap pass selects the oldest surplus finished jobs and deletes their outputs |
| JobTable.RemoveSelected | app.py:371-377 | the loop selects the given ids in order and deletes their outputs |
| JobTable.RemoveAll | app.py:380-381 | the last loop deletes exactly the selected keys |
| JobTable.CaptionAndBurn | app.py:218-323 | an unsized `words` gives the `len()` message, a generator error that error's text, a failed style conversion its text; exit code 0 succeeds and any other code gives the burn-failure message of the stream's 2 KB tail; the file is read back with universal newlines, the patched file keeps the cue frame and the forced style is the string as written |
| JobTable.FinishBurn | app.py:215-335 | after the download the record ends at the stage the job reaches and keeps its type, URL, creation time, progress, message, silence count and saved time |
| JobTable.BurnRecord | app.py:189-335 | the caption worker's progress texts, then the final record of the stage it stops at; only status, error or output path, progress and completion time change |
| JobTable.Table.constructor | app.py:66-67 | the table starts empty |
| JobTable.Table.Put | app.py:472-478 | assignment stores the record; a new key goes to the end of the iteration order |
| JobTable.Table.StartWorker | app.py:94-107 | the worker's first update marks the job processing, updating or recreating its record |
| JobTable.Table.Submit | app.py:635-734 | a refusal replies with the endpoint's status code and message and changes nothing; an accepted request stores a pending record and the table is then the sweep's result |
| JobTable.Table.Cleanup | app.py:338-381 | the sweep removes exactly the selected records and their output files; the others keep their records and order |
| JobTable.Table.ProcessSilenceRemoval | app.py:92-158 | only this job's record changes, to the finished record for the pipeline's result; a new key goes last in the order; a success adds its output file |
| JobTable.Table.ProcessBurnCaptions | app.py:160-336 | only this job's record changes, to the end of the stage the collapsed words reach, every other key as the first update left it; a new key goes last in the order; a completed job adds its output file |
| JobTable.Table.Download | app.py:540-600 | the table is unchanged, the verdict is the download checks' verdict, and a streamed file is deleted |

## Left out

- The I/O is not modelled: the HTTP download, the ffmpeg and ffprobe runs, file writes, `os.path.exists`, file sizes in MB, and the streaming of the response body. Each collaborator's outcome is a parameter.
- The worker threads and `jobs_lock` are not modelled. Each operation runs as one atomic step on the table.
- The clock and `uuid4` job ids are parameters.
- The status endpoints are not modelled, except that they call the sweep. The silence job's `noise_level` and `min_duration` fields are not modelled. `/health`, the font listing, `/remove-silence/info`, `/create-srt` and `/test` are outside the modelled core.
- `json.loads` of a `words` string is a parameter: its result, or the text of its error. The `style` field is taken as a JSON object after its parsing; a non-object style (which makes the preset merge or the worker's `.get` raise) and an unhashable `style_preset` are not modelled.
- Request values are JSON scalars (`AppHelpers.StyleValue`); a list or an object given as `words_per_line`, `min_duration` or a style field is not modelled.
- `AppHelpers.PyInt`: quotes the string in its error text with single quotes; Python's `repr` switches to double quotes for a string holding a single quote. Python's literal syntax for `int()` and `float()` is the parameter of `AppHelpers.Conversions`.
- `JobTable.Table.Submit`: the silence endpoint's `float()` failure is answered by Flask's generic 500 page, modelled by its status line text only.
- The float rendering of Python's `str(float)` and f-string numbers is the parameter `num`. Floats are exact `real` numbers, so rounding in `%` and the float conversions is not modelled.
- The text of a generator exception is the parameter `describe`.
- A `'word'` value that is not a string would make `.split()` raise. The model has only string values.
- The values of `'start'`/`'end'` are numbers and the value of `'text'` is a string. The `ValueError` of `float()` on other values, and `str()` of a non-string text, are not modelled.
- Letter case is ASCII only, not Unicode `upper()`/`lower()`. `isdigit()` is ASCII only.
- `JobTable.Table.ProcessBurnCaptions`: writes the record once. Other threads could see the intermediate progress texts in between; those texts are stated by `JobTable.BurnRecord`.
- The `os.remove` failures that the sweep and the download swallow are not modelled. A file is always removed.
- `Jobs.SortByStamp`: proves sortedness and permutation but not the stability of Python's sort among equal stamps.

## Findings

| source | as written | input that shows it | evidently intended | confidence | as-written member | corrected member |
|---|---|---|---|---|---|---|
| app.py:264-268 | `isinstance(outline, (int, float))` is true for the flag `True`, so the flag replaces the width | a style with no `outline` key, or `outline: true` (as three of the five presets set it), renders `Outline=True` | a flag keeps `outline_width`, default 2, and only a non-bool number is a width | not executed | AppHelpers.OutlineTrueRendersTrue | AppHelpers.OutlineClauseIntended |
