/** The small deterministic helpers of app.py: the check that a video URL does
    not point back at the service, the whitespace collapse of the 'word' keys,
    the thin-space rewrite of the SubRip file, the bounded tail of the
    transcoder's error stream, and the colour and outline rules of the forced
    subtitle style. */
module AppHelpers {
  import opened Wrappers
  import opened Text
  import opened Subtitles

  // ---------------------------------------------------------------------------
  // validate_video_url
  // ---------------------------------------------------------------------------

  const RemoveSilenceRoute := "/remove-silence"
  const BurnCaptionsRoute := "/burn-captions"

  /** The service's own routes, in the order they are tested. */
  const ApiEndpoints: seq<string> := [
    RemoveSilenceRoute + "/download/",
    BurnCaptionsRoute + "/download/",
    RemoveSilenceRoute + "/status/",
    BurnCaptionsRoute + "/status/",
    RemoveSilenceRoute,
    BurnCaptionsRoute
  ]

  const UrlRequired := "video_url is required"

  function EndpointMessage(endpoint: string): string {
    "video_url cannot point to API endpoints. Please provide a direct video URL, not '"
      + endpoint
      + "'. If you need to use a processed video, download it first and upload it to a storage service."
  }

  /** The position of the first of `endpoints` that occurs in `url`. */
  function FirstEndpoint(url: string, endpoints: seq<string>): (r: Option<nat>)
    ensures r.Some? ==> r.value < |endpoints| && Contains(url, endpoints[r.value])
    ensures r.Some? ==> forall j :: 0 <= j < r.value ==> !Contains(url, endpoints[j])
    ensures r.None? ==> forall j :: 0 <= j < |endpoints| ==> !Contains(url, endpoints[j])
  {
    if endpoints == [] then None
    else if Contains(url, endpoints[0]) then Some(0)
    else
      match FirstEndpoint(url, endpoints[1..])
      case None => None
      case Some(i) => Some(i + 1)
  }

  /** What validate_video_url decides about a URL. */
  datatype UrlVerdict = UrlMissing | PointsAtRoute(endpoint: string) | UrlAccepted

  /** The decision of validate_video_url: a missing or empty URL is refused
      first; then the first route of the service found in the URL is named. */
  function CheckVideoUrl(url: Option<string>): (v: UrlVerdict)
    ensures v.UrlAccepted? ==> url.Some? && forall j :: 0 <= j < |ApiEndpoints| ==> !Contains(url.value, ApiEndpoints[j])
    ensures v.PointsAtRoute? ==> url.Some? && Contains(url.value, v.endpoint)
  {
    if url.None? || url.value == "" then UrlMissing
    else
      match FirstEndpoint(url.value, ApiEndpoints)
      case Some(j) => PointsAtRoute(ApiEndpoints[j])
      case None => UrlAccepted
  }

  /** validate_video_url: `(is_valid, error_message)`. */
  function ValidateVideoUrl(url: Option<string>): (r: (bool, Option<string>))
    ensures r.0 <==> r.1.None?
    ensures r.0 <==> CheckVideoUrl(url).UrlAccepted?
  {
    match CheckVideoUrl(url)
    case UrlMissing => (false, Some(UrlRequired))
    case PointsAtRoute(endpoint) => (false, Some(EndpointMessage(endpoint)))
    case UrlAccepted => (true, None)
  }

  /** A URL is accepted exactly when it is non-empty and holds none of the six
      routes. */
  lemma ValidateAcceptsIff(url: Option<string>)
    ensures CheckVideoUrl(url).UrlAccepted? <==>
      url.Some? && url.value != "" && forall j :: 0 <= j < |ApiEndpoints| ==> !Contains(url.value, ApiEndpoints[j])
  {
    if url.Some? && url.value != "" && forall j :: 0 <= j < |ApiEndpoints| ==> !Contains(url.value, ApiEndpoints[j]) {
      assert FirstEndpoint(url.value, ApiEndpoints).None?;
    }
  }

  /** A refused non-empty URL names the first route, in list order, that it
      contains. */
  lemma ValidateNamesFirstEndpoint(u: string, j: nat)
    requires u != "" && j < |ApiEndpoints| && Contains(u, ApiEndpoints[j])
    requires forall i :: 0 <= i < j ==> !Contains(u, ApiEndpoints[i])
    ensures CheckVideoUrl(Some(u)) == PointsAtRoute(ApiEndpoints[j])
  {
    var r := FirstEndpoint(u, ApiEndpoints);
    assert r == Some(j);
  }

  /** Whoever contains `p + q` contains `p`, as an implication. */
  lemma ContainsExtension(u: string, p: string, q: string)
    ensures Contains(u, p + q) ==> Contains(u, p)
  {
    if Contains(u, p + q) {
      ContainsPrefixOf(u, p, q);
    }
  }

  /** The four longer routes begin with one of the two shorter ones, so only
      those two decide acceptance. */
  lemma ValidateNeedsOnlyTwoRoutes(u: string)
    requires u != ""
    ensures CheckVideoUrl(Some(u)).UrlAccepted? <==> !Contains(u, RemoveSilenceRoute) && !Contains(u, BurnCaptionsRoute)
  {
    ValidateAcceptsIff(Some(u));
    var e := ApiEndpoints;
    ContainsExtension(u, RemoveSilenceRoute, "/download/");
    ContainsExtension(u, BurnCaptionsRoute, "/download/");
    ContainsExtension(u, RemoveSilenceRoute, "/status/");
    ContainsExtension(u, BurnCaptionsRoute, "/status/");
    if !Contains(u, RemoveSilenceRoute) && !Contains(u, BurnCaptionsRoute) {
      assert !Contains(u, e[0]) && !Contains(u, e[1]) && !Contains(u, e[2]);
      assert !Contains(u, e[3]) && !Contains(u, e[4]) && !Contains(u, e[5]);
    } else {
      assert Contains(u, e[4]) || Contains(u, e[5]);
    }
  }

  /** A download link of the service is refused, and the message names the
      download route rather than the shorter route it also contains. */
  lemma ValidateRefusesDownloadLink(host: string, id: string)
    ensures ValidateVideoUrl(Some(host + ApiEndpoints[0] + id)) ==
      (false, Some(EndpointMessage(RemoveSilenceRoute + "/download/")))
  {
    var u := host + ApiEndpoints[0] + id;
    ContainsMiddle(host, ApiEndpoints[0], id);
    ValidateNamesFirstEndpoint(u, 0);
  }

  // ---------------------------------------------------------------------------
  // The whitespace collapse of the 'word' keys
  // ---------------------------------------------------------------------------

  /** `word_obj['word'] = " ".join(word_obj['word'].split())` for a dictionary
      that has 'word'; anything else is left alone. */
  function SanitizeWord(w: Word): Word {
    if w.Entry? && w.word.Some? then w.(word := Some(CollapseWhitespace(w.word.value))) else w
  }

  /** A word and its collapsed form agree on everything the cue generator
      reads: 'start', 'end' and 'text' of a dictionary, and any other value
      entirely. */
  predicate SameButWord(a: Word, b: Word) {
    if a.Entry? then b.Entry? && a.start == b.start && a.end == b.end && a.text == b.text else a == b
  }

  /** Every word of a list after the collapse pass, in order. */
  function SanitizeAll(items: seq<Word>): (r: seq<Word>)
    ensures |r| == |items|
  {
    if items == [] then [] else [SanitizeWord(items[0])] + SanitizeAll(items[1..])
  }

  lemma SanitizeWordSame(w: Word)
    ensures SameButWord(SanitizeWord(w), w)
  {
  }

  /** The words after the collapse pass; a value that is not a list is not
      touched. */
  function Sanitized(input: Words): Words {
    match input
    case NotAList(t) => NotAList(t)
    case WordList(items) => WordList(SanitizeAll(items))
  }

  /** One step of the pass: moving the first pending word, collapsed, to the
      words done keeps the whole result. */
  lemma {:induction false} SanitizeStep(done: seq<Word>, rest: seq<Word>)
    requires rest != []
    ensures done + SanitizeAll(rest) == (done + [SanitizeWord(rest[0])]) + SanitizeAll(rest[1..])
  {
    assert SanitizeAll(rest) == [SanitizeWord(rest[0])] + SanitizeAll(rest[1..]);
  }

  /** The collapse loop over the caller's words. */
  method SanitizeWords(input: Words) returns (output: Words)
    ensures output == Sanitized(input)
  {
    if input.NotAList? {
      return input;
    }
    var done: seq<Word> := [];
    var rest := input.items;
    while rest != []
      invariant done + SanitizeAll(rest) == SanitizeAll(input.items)
    {
      SanitizeStep(done, rest);
      done := done + [SanitizeWord(rest[0])];
      rest := rest[1..];
    }
    assert done == SanitizeAll(input.items);
    output := WordList(done);
  }

  /** The pass changes the i-th word as the collapse of that word alone. */
  lemma {:induction false} SanitizeAllAt(items: seq<Word>, i: nat)
    requires i < |items|
    ensures SanitizeAll(items)[i] == SanitizeWord(items[i])
  {
    if i > 0 {
      SanitizeAllAt(items[1..], i - 1);
    }
  }

  /** Collapsing twice is collapsing once. */
  lemma SanitizeIdempotent(w: Word)
    ensures SanitizeWord(SanitizeWord(w)) == SanitizeWord(w)
  {
    if w.Entry? && w.word.Some? {
      CollapseIdempotent(w.word.value);
    }
  }

  /** Two errors that differ at most in the 'word' key of the word they show. */
  predicate SameError(a: SrtError, b: SrtError) {
    if a.MissingFields? then b.MissingFields? && SameButWord(a.got, b.got) else a == b
  }

  /** Two outcomes of the cue generator that agree: the same cues, or errors
      that differ at most in the 'word' key of the word shown. */
  predicate Agree(a: Result<seq<Cue>, SrtError>, b: Result<seq<Cue>, SrtError>) {
    if a.Ok? then a == b else b.Err? && SameError(a.error, b.error)
  }

  predicate SameButWords(a: seq<Word>, b: seq<Word>) {
    |a| == |b| && forall j :: 0 <= j < |a| ==> SameButWord(a[j], b[j])
  }

  lemma SameErrorKeepsClass(a: SrtError, b: SrtError)
    requires SameError(a, b)
    ensures ExceptionClass(a) == ExceptionClass(b)
  {
  }

  lemma {:induction false} ChunkTextIgnoresWord(a: seq<Word>, b: seq<Word>, lo: nat, hi: nat)
    requires lo < hi <= |a| && SameButWords(a, b)
    requires forall j :: lo <= j < hi ==> b[j].Entry?
    ensures forall j :: lo <= j < hi ==> a[j].Entry?
    ensures ChunkText(a, lo, hi) == ChunkText(b, lo, hi)
    decreases hi - lo
  {
    assert SameButWord(a[lo], b[lo]);
    if lo + 1 < hi {
      ChunkTextIgnoresWord(a, b, lo + 1, hi);
    }
  }

  lemma ChunkCueIgnoresWord(a: seq<Word>, b: seq<Word>, lo: nat, hi: nat, index: nat, allCaps: bool)
    requires lo < hi <= |a| && SameButWords(a, b)
    ensures match ChunkCue(b, lo, hi, index, allCaps)
      case Ok(c) => ChunkCue(a, lo, hi, index, allCaps) == Ok(c)
      case Err(e) => ChunkCue(a, lo, hi, index, allCaps).Err? && SameError(ChunkCue(a, lo, hi, index, allCaps).error, e)
  {
    assert SameButWord(a[lo], b[lo]) && SameButWord(a[hi - 1], b[hi - 1]);
    if ChunkCue(b, lo, hi, index, allCaps).Ok? {
      ChunkTextIgnoresWord(a, b, lo, hi);
    }
  }

  lemma {:induction false} GroupedFromIgnoresWord(a: seq<Word>, b: seq<Word>, lo: nat, perLine: nat, index: nat, allCaps: bool)
    requires perLine > 0 && SameButWords(a, b)
    ensures Agree(GroupedFrom(a, lo, perLine, index, allCaps), GroupedFrom(b, lo, perLine, index, allCaps))
    decreases |a| - lo
  {
    if lo < |a| {
      ChunkCueIgnoresWord(a, b, lo, ChunkEnd(|a|, lo, perLine), index, allCaps);
      GroupedFromIgnoresWord(a, b, lo + perLine, perLine, index + 1, allCaps);
    }
  }

  /** The pass leaves every word the same apart from its 'word' key. */
  lemma SanitizeAllSame(items: seq<Word>)
    ensures SameButWords(SanitizeAll(items), items)
  {
    forall j | 0 <= j < |items|
      ensures SameButWord(SanitizeAll(items)[j], items[j])
    {
      SanitizeAllAt(items, j);
      SanitizeWordSame(items[j]);
    }
  }

  /** Grouped cues come out the same whether or not the words were collapsed
      first; an error is the same one, showing the word as collapsed. */
  lemma SanitizeKeepsGroupedCues(input: Words, perLine: int, allCaps: bool)
    ensures Agree(GroupedSrt(Sanitized(input), perLine, allCaps), GroupedSrt(input, perLine, allCaps))
  {
    if input.WordList? && input.items != [] && perLine > 0 {
      SanitizeAllSame(input.items);
      GroupedFromIgnoresWord(Sanitized(input).items, input.items, 0, perLine, 1, allCaps);
    }
  }

  lemma {:induction false} WordsFromIgnoresWord(a: seq<Word>, b: seq<Word>, lo: nat, index: nat, allCaps: bool)
    requires SameButWords(a, b)
    ensures Agree(WordsFrom(a, lo, index, allCaps), WordsFrom(b, lo, index, allCaps))
    decreases |a| - lo
  {
    if lo < |a| {
      assert SameButWord(a[lo], b[lo]);
      WordsFromIgnoresWord(a, b, lo + 1, index + 1, allCaps);
    }
  }

  /** The same for one cue per word. */
  lemma SanitizeKeepsWordCues(input: Words, allCaps: bool)
    ensures Agree(WordByWordSrt(Sanitized(input), allCaps), WordByWordSrt(input, allCaps))
  {
    if input.WordList? && input.items != [] {
      SanitizeAllSame(input.items);
      WordsFromIgnoresWord(Sanitized(input).items, input.items, 0, 1, allCaps);
    }
  }

  // ---------------------------------------------------------------------------
  // The thin-space patch of the SubRip file
  // ---------------------------------------------------------------------------

  const ThinSpace: char := '\U{2009}'

  /** The lines the patch leaves alone: timing lines, and lines whose stripped
      form is a run of fewer than five digits (cue numbers). */
  predicate KeepsSpaces(line: string) {
    Contains(line, "-->") || (var t := Strip(line); t != [] && AllDigits(t) && |t| < 5)
  }

  /** One line of the patch: every plain space of any other line becomes a
      thin space, and nothing else changes. */
  function PatchLine(line: string): (r: string)
    ensures |r| == |line|
    ensures KeepsSpaces(line) ==> r == line
    ensures !KeepsSpaces(line) ==> forall i :: 0 <= i < |r| ==> r[i] != ' '
    ensures forall i :: 0 <= i < |r| ==> r[i] == line[i] || (line[i] == ' ' && r[i] == ThinSpace)
  {
    if KeepsSpaces(line) then line else ReplaceChar(line, ' ', ThinSpace)
  }

  /** One step of the rewrite loop: appending the next patched line keeps
      every line so far patched. */
  lemma PatchStep(lines: seq<string>, newLines: seq<string>, patched: string)
    requires |newLines| < |lines|
    requires forall k :: 0 <= k < |newLines| ==> newLines[k] == PatchLine(lines[k])
    requires patched == PatchLine(lines[|newLines|])
    ensures forall k :: 0 <= k <= |newLines| ==> (newLines + [patched])[k] == PatchLine(lines[k])
  {
  }

  /** The rewrite loop over the lines the file holds. */
  method ThinSpacePatch(lines: seq<string>) returns (newLines: seq<string>)
    ensures |newLines| == |lines|
    ensures forall i :: 0 <= i < |lines| ==> newLines[i] == PatchLine(lines[i])
  {
    newLines := [];
    for i := 0 to |lines|
      invariant |newLines| == i
      invariant forall k :: 0 <= k < i ==> newLines[k] == PatchLine(lines[k])
    {
      var line := lines[i];
      var patched: string;
      if KeepsSpaces(line) {
        patched := line;
      } else {
        patched := ReplaceChar(line, ' ', ThinSpace);
      }
      assert patched == PatchLine(line);
      PatchStep(lines, newLines, patched);
      newLines := newLines + [patched];
    }
  }

  /** A line without plain spaces comes through the patch unchanged. */
  lemma PatchKeepsSpaceless(line: string)
    requires forall i :: 0 <= i < |line| ==> line[i] != ' '
    ensures PatchLine(line) == line
  {
  }

  /** A line holding `-->` comes through the patch unchanged. */
  lemma PatchKeepsTiming(a: string, b: string)
    ensures PatchLine(a + " --> " + b + "\n") == a + " --> " + b + "\n"
  {
    var line := a + " --> " + b + "\n";
    assert Contains(line, "-->") by {
      assert line == (a + " ") + "-->" + (" " + b + "\n");
      ContainsMiddle(a + " ", "-->", " " + b + "\n");
    }
    assert KeepsSpaces(line);
  }

  /** A cue number comes through the patch unchanged. */
  lemma PatchKeepsNumber(n: nat)
    ensures PatchLine(NatToString(n) + "\n") == NatToString(n) + "\n"
  {
    var digits := NatToString(n);
    assert forall i :: 0 <= i < |digits| ==> IsDigit(digits[i]);
    PatchKeepsSpaceless(digits + "\n");
  }

  /** The patch of every line, in order. */
  function PatchAll(lines: seq<string>): (r: seq<string>)
    ensures |r| == |lines| && forall i :: 0 <= i < |lines| ==> r[i] == PatchLine(lines[i])
  {
    if lines == [] then [] else [PatchLine(lines[0])] + PatchAll(lines[1..])
  }

  lemma PatchAllConcat(a: seq<string>, b: seq<string>)
    ensures PatchAll(a + b) == PatchAll(a) + PatchAll(b)
  {
  }

  /** The lines of one cue after the patch: the number, the timing line and
      the blank line as written, and only the lines of the text rewritten. */
  function PatchedCue(c: Cue): seq<string> {
    [NatToString(c.index) + "\n", TimingLine(c) + "\n"] + PatchAll(ReadLines(c.text + "\n")) + ["\n"]
  }

  function PatchedSrt(cues: seq<Cue>): seq<string> {
    if cues == [] then [] else PatchedCue(cues[0]) + PatchedSrt(cues[1..])
  }

  /** Lines around a middle part, of which the patch keeps the first two and
      the last. */
  lemma PatchFrame(a: string, b: string, middle: seq<string>, d: string)
    requires PatchLine(a) == a && PatchLine(b) == b && PatchLine(d) == d
    ensures PatchAll([a, b] + middle + [d]) == [a, b] + PatchAll(middle) + [d]
  {
    PatchAllConcat([a, b] + middle, [d]);
    PatchAllConcat([a, b], middle);
  }

  /** The patch keeps one cue's number, timing and blank lines. */
  lemma PatchCue(c: Cue)
    ensures PatchAll(CueLines(c)) == PatchedCue(c)
  {
    var number := NatToString(c.index) + "\n";
    var timing := FormatTimestamp(c.start) + " --> " + FormatTimestamp(c.end) + "\n";
    PatchKeepsNumber(c.index);
    PatchKeepsTiming(FormatTimestamp(c.start), FormatTimestamp(c.end));
    PatchKeepsSpaceless("\n");
    assert TimingLine(c) + "\n" == timing;
    PatchFrame(number, timing, ReadLines(c.text + "\n"), "\n");
  }

  /** On a file the generators wrote, read back line by line, the patch
      rewrites only the lines of the cue texts: every cue number, timing line
      and blank line comes through. */
  lemma {:induction false} PatchKeepsCueFrame(cues: seq<Cue>)
    ensures PatchAll(SrtLines(cues)) == PatchedSrt(cues)
    ensures PatchAll(ReadLines(SrtText(cues))) == PatchedSrt(cues)
  {
    SrtFileLines(cues);
    if cues != [] {
      PatchAllConcat(CueLines(cues[0]), SrtLines(cues[1..]));
      PatchCue(cues[0]);
      PatchKeepsCueFrame(cues[1..]);
    }
  }

  // ---------------------------------------------------------------------------
  // The bounded tail of the transcoder's error stream
  // ---------------------------------------------------------------------------

  const MaxStderr: nat := 2048

  /** `sum(len(l) for l in buffer)`. */
  function TotalLength(buffer: seq<string>): nat {
    if buffer == [] then 0 else |buffer[0]| + TotalLength(buffer[1..])
  }

  lemma {:induction false} TotalLengthConcat(a: seq<string>, b: seq<string>)
    ensures TotalLength(a + b) == TotalLength(a) + TotalLength(b)
  {
    if a != [] {
      assert (a + b)[0] == a[0];
      assert (a + b)[1..] == a[1..] + b;
      TotalLengthConcat(a[1..], b);
    } else {
      assert a + b == b;
    }
  }

  /** Appending a line adds its length. */
  lemma TotalLengthSnoc(lines: seq<string>, i: nat, j: nat)
    requires i <= j < |lines|
    ensures TotalLength(lines[i..j + 1]) == TotalLength(lines[i..j]) + |lines[j]|
  {
    assert lines[i..j + 1] == lines[i..j] + [lines[j]];
    TotalLengthConcat(lines[i..j], [lines[j]]);
    assert TotalLength([lines[j]]) == |lines[j]| + TotalLength([]);
  }

  /** Starting earlier never gives a shorter total. */
  lemma SuffixLengthGrows(lines: seq<string>, i: nat, j: nat)
    requires j <= i <= |lines|
    ensures TotalLength(lines[i..]) <= TotalLength(lines[j..])
  {
    assert lines[j..] == lines[j..i] + lines[i..];
    TotalLengthConcat(lines[j..i], lines[i..]);
  }

  /** What the buffer holds after the lines `lines`: a suffix of them of total
      length at most 2048, and one more line from the front would exceed the
      bound. */
  predicate IsStderrTail(buffer: seq<string>, lines: seq<string>) {
    && |buffer| <= |lines|
    && buffer == lines[|lines| - |buffer|..]
    && TotalLength(buffer) <= MaxStderr
    && (|buffer| < |lines| ==> TotalLength(lines[|lines| - |buffer| - 1..]) > MaxStderr)
  }

  /** The inner loop: drops the oldest lines of `lines[start0..end]` while
      their total exceeds 2048 characters. */
  method DropOldest(lines: seq<string>, end: nat, start0: nat, buffer0: seq<string>)
    returns (buffer: seq<string>, start: nat)
    requires start0 <= end <= |lines| && buffer0 == lines[start0..end]
    requires start0 > 0 ==> TotalLength(lines[start0 - 1..end]) > MaxStderr
    ensures start0 <= start <= end && buffer == lines[start..end]
    ensures TotalLength(buffer) <= MaxStderr
    ensures start > 0 ==> TotalLength(lines[start - 1..end]) > MaxStderr
  {
    buffer, start := buffer0, start0;
    while TotalLength(buffer) > MaxStderr
      invariant start0 <= start <= end && buffer == lines[start..end]
      invariant start > 0 ==> TotalLength(lines[start - 1..end]) > MaxStderr
      decreases |buffer|
    {
      assert buffer[1..] == lines[start + 1..end];
      buffer := buffer[1..];
      start := start + 1;
    }
  }

  /** One turn of the reading loop: line `i` is appended, then the oldest
      lines are dropped while the total exceeds 2048 characters. */
  method ReadLine(lines: seq<string>, i: nat, start0: nat, buffer0: seq<string>)
    returns (buffer: seq<string>, start: nat)
    requires start0 <= i < |lines| && buffer0 == lines[start0..i]
    requires start0 > 0 ==> TotalLength(lines[start0 - 1..i]) > MaxStderr
    ensures start <= i + 1 && buffer == lines[start..i + 1]
    ensures TotalLength(buffer) <= MaxStderr
    ensures start > 0 ==> TotalLength(lines[start - 1..i + 1]) > MaxStderr
  {
    assert start0 > 0 ==> TotalLength(lines[start0 - 1..i + 1]) > MaxStderr by {
      if start0 > 0 {
        TotalLengthSnoc(lines, start0 - 1, i);
      }
    }
    assert lines[start0..i + 1] == lines[start0..i] + [lines[i]];
    buffer, start := DropOldest(lines, i + 1, start0, buffer0 + [lines[i]]);
  }

  /** The loop that reads the error stream line by line, appending each line
      and dropping the oldest while the total exceeds 2048 characters. */
  method CollectStderr(lines: seq<string>) returns (buffer: seq<string>)
    ensures IsStderrTail(buffer, lines)
  {
    buffer := [];
    var i := 0;
    var start := 0;
    while i < |lines|
      invariant 0 <= start <= i <= |lines|
      invariant buffer == lines[start..i]
      invariant TotalLength(buffer) <= MaxStderr
      invariant start > 0 ==> TotalLength(lines[start - 1..i]) > MaxStderr
    {
      buffer, start := ReadLine(lines, i, start, buffer);
      i := i + 1;
    }
    TailFrom(lines, start);
  }

  /** The loop's state at the end of the stream is the tail. */
  lemma TailFrom(lines: seq<string>, start: nat)
    requires start <= |lines| && TotalLength(lines[start..|lines|]) <= MaxStderr
    requires start > 0 ==> TotalLength(lines[start - 1..|lines|]) > MaxStderr
    ensures IsStderrTail(lines[start..|lines|], lines)
  {
    assert lines[start..] == lines[start..|lines|];
    assert start > 0 ==> lines[start - 1..] == lines[start - 1..|lines|];
  }

  /** The tail is the longest suffix within the bound. */
  lemma TailIsLongestFit(buffer: seq<string>, lines: seq<string>, k: nat)
    requires IsStderrTail(buffer, lines)
    requires k <= |lines| && TotalLength(lines[|lines| - k..]) <= MaxStderr
    ensures k <= |buffer|
  {
    if k > |buffer| {
      SuffixLengthGrows(lines, |lines| - |buffer| - 1, |lines| - k);
    }
  }

  lemma StderrTailLength(b1: seq<string>, b2: seq<string>, lines: seq<string>)
    requires IsStderrTail(b1, lines) && IsStderrTail(b2, lines)
    ensures |b1| == |b2|
  {
    TailIsLongestFit(b1, lines, |b2|);
    TailIsLongestFit(b2, lines, |b1|);
  }

  /** The tail is determined by the lines read: no other suffix meets both
      the bound and the maximality. */
  lemma StderrTailUnique(b1: seq<string>, b2: seq<string>, lines: seq<string>)
    requires IsStderrTail(b1, lines) && IsStderrTail(b2, lines)
    ensures b1 == b2
  {
    StderrTailLength(b1, b2, lines);
    var k := |lines| - |b1|;
    assert b1 == lines[k..] && b2 == lines[k..];
  }

  /** A last line longer than 2048 characters leaves the buffer empty. */
  lemma OversizedLineEmptiesTail(buffer: seq<string>, lines: seq<string>)
    requires IsStderrTail(buffer, lines)
    requires lines != [] && |lines[|lines| - 1]| > MaxStderr
    ensures buffer == []
  {
    if buffer != [] {
      var L := |lines|;
      TotalLengthSnoc(lines, L - 1, L - 1);
      assert lines[L - 1..L] == lines[L - 1..];
      assert TotalLength(lines[L - |buffer|..]) <= MaxStderr;
      SuffixLengthGrows(lines, L - 1, L - |buffer|);
    }
  }

  lemma {:induction false} JoinLength(buffer: seq<string>)
    ensures |Join("", buffer)| == TotalLength(buffer)
  {
    if |buffer| > 1 {
      JoinLength(buffer[1..]);
    } else if |buffer| == 1 {
      assert buffer[1..] == [];
    }
  }

  const BurnFailurePrefix := "Failed to burn captions: "

  /** The job's error after a failed burn: the prefix and the first 200
      characters of the retained error output. */
  function BurnFailureMessage(buffer: seq<string>): (m: string)
    ensures var out := Join("", buffer);
      && |m| == |BurnFailurePrefix| + (if |out| < 200 then |out| else 200)
      && m == BurnFailurePrefix + out[..|m| - |BurnFailurePrefix|]
  {
    var out := Join("", buffer);
    BurnFailurePrefix + (if |out| < 200 then out else out[..200])
  }

  /** The error message stays short whatever the stream held. */
  lemma BurnFailureMessageBounded(lines: seq<string>, buffer: seq<string>)
    requires IsStderrTail(buffer, lines)
    ensures |Join("", buffer)| <= MaxStderr
    ensures |BurnFailureMessage(buffer)| <= 225
  {
    JoinLength(buffer);
  }

  // ---------------------------------------------------------------------------
  // The forced subtitle style: colour map and outline rule
  // ---------------------------------------------------------------------------

  /** `color_map`: colour names to libass colours. */
  const ColourMap: map<string, string> := map[
    "white" := "&H00FFFFFF", "black" := "&H00000000",
    "yellow" := "&H0000FFFF", "red" := "&H000000FF",
    "green" := "&H0000FF00", "blue" := "&H00FF0000"
  ]

  const DefaultColour := "&H00FFFFFF"

  /** `color_map.get(str(color).lower(), '&H00FFFFFF')`, where `name` is
      `str(color)`. */
  function ColourCode(name: string): string {
    var key := Lower(name);
    if key in ColourMap then ColourMap[key] else DefaultColour
  }

  /** A colour as red, green and blue channels. */
  datatype Rgb = Rgb(red: nat, green: nat, blue: nat)

  /** The colours the names mean. */
  const NamedColours: map<string, Rgb> := map[
    "white" := Rgb(255, 255, 255), "black" := Rgb(0, 0, 0),
    "yellow" := Rgb(255, 255, 0), "red" := Rgb(255, 0, 0),
    "green" := Rgb(0, 255, 0), "blue" := Rgb(0, 0, 255)
  ]

  function HexDigit(d: nat): char
    requires d < 16
  {
    if d < 10 then (d + '0' as int) as char else (d - 10 + 'A' as int) as char
  }

  function Hex2(n: nat): string
    requires n < 256
  {
    [HexDigit(n / 16), HexDigit(n % 16)]
  }

  /** A libass colour literal: `&H`, opaque alpha, then blue, green and red. */
  function AssColour(c: Rgb): string
    requires c.red < 256 && c.green < 256 && c.blue < 256
  {
    "&H00" + Hex2(c.blue) + Hex2(c.green) + Hex2(c.red)
  }

  /** Every entry of the table is the libass encoding of the colour its name
      means, and any other name gets white. */
  lemma ColourCodeIsAssEncoding(name: string)
    ensures var key := Lower(name);
      && (key in NamedColours ==> ColourCode(name) == AssColour(NamedColours[key]))
      && (key !in NamedColours ==> ColourCode(name) == AssColour(Rgb(255, 255, 255)))
  {
    assert Hex2(255) == "FF" && Hex2(0) == "00";
    assert ColourMap.Keys == NamedColours.Keys;
  }

  lemma LowerOfUpper(s: string)
    ensures Lower(Upper(s)) == Lower(s)
  {
    assert forall i :: 0 <= i < |s| ==> LowerChar(UpperChar(s[i])) == LowerChar(s[i]);
  }

  /** The lookup ignores the case of ASCII letters. */
  lemma ColourIgnoresCase(name: string)
    ensures ColourCode(Upper(name)) == ColourCode(name)
    ensures ColourCode(Lower(name)) == ColourCode(name)
  {
    LowerOfUpper(name);
    assert forall i :: 0 <= i < |name| ==> LowerChar(LowerChar(name[i])) == LowerChar(name[i]);
    assert Lower(Lower(name)) == Lower(name);
  }

  /** A value of the style dictionary: JSON null, a bool, an integer, a float
      or a string. */
  datatype StyleValue = Null | Bool(b: bool) | Int(i: int) | Num(x: real) | Str(s: string)

  /** A key of the style dictionary: the ones the presets and the worker
      use, and any other (whose name is none of theirs). */
  datatype StyleKey =
    | FontName | FontSize | Color | Outline | OutlineWidth
    | MarginHorizontal | MarginVertical | MarginV | Spacing | Shadow | Bold
    | OtherKey(name: string)

  /** Python truth of a value. */
  predicate Truthy(v: StyleValue) {
    match v
    case Null => false
    case Bool(b) => b
    case Int(i) => i != 0
    case Num(x) => x != 0.0
    case Str(s) => s != ""
  }

  /** `isinstance(v, (int, float))`: a bool is an int in Python. */
  predicate IsNumber(v: StyleValue) {
    v.Bool? || v.Int? || v.Num?
  }

  /** `f"{v}"`; the decimal rendering of a float is left to `num`. */
  function Render(v: StyleValue, num: real -> string): string {
    match v
    case Null => "None"
    case Bool(b) => if b then "True" else "False"
    case Int(i) => IntToString(i)
    case Num(x) => num(x)
    case Str(s) => s
  }

  function Get(style: map<StyleKey, StyleValue>, key: StyleKey, default: StyleValue): StyleValue {
    if key in style then style[key] else default
  }

  const OutlineOff := ",BorderStyle=1,Outline=0"
  const OutlineOn := ",OutlineColour=&H00000000,BorderStyle=1,Outline="

  /** The outline clause as app.py writes it: a truthy 'outline' (True by
      default) that passes the number test is itself the width, otherwise
      'outline_width' (2 by default) is. Because True passes that test, the
      default style asks for a width of `True`. */
  function OutlineClause(style: map<StyleKey, StyleValue>, num: real -> string): string {
    var outline := Get(style, Outline, Bool(true));
    if Truthy(outline) then
      var width := if IsNumber(outline) then outline else Get(style, OutlineWidth, Int(2));
      OutlineOn + Render(width, num)
    else OutlineOff
  }

  /** With no 'outline' key, or `outline: true` as three of the five presets
      set it, the clause reads `Outline=True`. */
  lemma OutlineTrueRendersTrue(style: map<StyleKey, StyleValue>, num: real -> string)
    requires Outline !in style || style[Outline] == Bool(true)
    ensures OutlineClause(style, num) == OutlineOn + "True"
  {
  }

  /** The outline clause with a flag `True` treated as a flag, not a width. */
  function OutlineClauseIntended(style: map<StyleKey, StyleValue>, num: real -> string): (clause: string)
    ensures !Truthy(Get(style, Outline, Bool(true))) ==> clause == OutlineOff
    ensures Get(style, Outline, Bool(true)) == Bool(true) ==>
      clause == OutlineOn + Render(Get(style, OutlineWidth, Int(2)), num)
    ensures Truthy(Get(style, Outline, Bool(true))) && Get(style, Outline, Bool(true)).Str? ==>
      clause == OutlineOn + Render(Get(style, OutlineWidth, Int(2)), num)
    ensures forall i :: i != 0 && Get(style, Outline, Bool(true)) == Int(i) ==> clause == OutlineOn + IntToString(i)
    ensures forall x :: x != 0.0 && Get(style, Outline, Bool(true)) == Num(x) ==> clause == OutlineOn + num(x)
  {
    var outline := Get(style, Outline, Bool(true));
    if Truthy(outline) then
      var width := if outline.Int? || outline.Num? then outline else Get(style, OutlineWidth, Int(2));
      OutlineOn + Render(width, num)
    else OutlineOff
  }

  /** A style without outline keys gets the default width 2. */
  lemma OutlineDefaultWidthIsTwo(num: real -> string)
    ensures OutlineClauseIntended(map[], num) == OutlineOn + "2"
  {
    assert IntToString(2) == "2";
  }

  /** The two clauses differ exactly when the outline is the flag True and
      the width it should have used does not itself print as `True`. */
  lemma OutlineFixChangesOnlyTrue(style: map<StyleKey, StyleValue>, num: real -> string)
    ensures OutlineClause(style, num) != OutlineClauseIntended(style, num) <==>
      Get(style, Outline, Bool(true)) == Bool(true) && Render(Get(style, OutlineWidth, Int(2)), num) != "True"
  {
    var outline := Get(style, Outline, Bool(true));
    if outline == Bool(true) {
      var w := Render(Get(style, OutlineWidth, Int(2)), num);
      if w != "True" {
        assert (OutlineOn + "True")[|OutlineOn|..] == "True";
        assert (OutlineOn + w)[|OutlineOn|..] == w;
      }
    }
  }

  // ---------------------------------------------------------------------------
  // The style presets and the conversions of the style fields
  // ---------------------------------------------------------------------------

  const DefaultPreset: map<StyleKey, StyleValue> := map[
    FontSize := Int(24), FontName := Str("DejaVu Sans"), Color := Str("white"),
    Outline := Bool(true), Spacing := Int(0), MarginV := Int(70)]

  const TiktokPreset: map<StyleKey, StyleValue> := map[
    FontSize := Int(48), FontName := Str("Montserrat Black"), Color := Str("white"),
    Outline := Bool(true), Spacing := Num(-1.5), MarginV := Int(85)]

  const YoutubePreset: map<StyleKey, StyleValue> := map[
    FontSize := Int(32), FontName := Str("DejaVu Sans"), Color := Str("white"),
    Outline := Bool(true), Spacing := Int(0), MarginV := Int(50)]

  const MinimalPreset: map<StyleKey, StyleValue> := map[
    FontSize := Int(20), FontName := Str("DejaVu Sans Mono"), Color := Str("white"),
    Outline := Bool(false), Spacing := Int(0), MarginV := Int(50)]

  const HormoziPreset: map<StyleKey, StyleValue> := map[
    FontSize := Int(24), FontName := Str("Montserrat Black"), Color := Str("white"),
    Bold := Bool(true), Outline := Int(3), Shadow := Int(2),
    Spacing := Num(-1.0), MarginV := Int(80)]

  /** The names of STYLE_PRESETS. */
  datatype PresetName = Default | Tiktok | Youtube | Minimal | Hormozi

  /** `style_preset in STYLE_PRESETS`, for a string preset name. */
  function PresetOf(name: string): (p: Option<PresetName>)
    ensures p.Some? <==> name in {"default", "tiktok", "youtube", "minimal", "hormozi"}
  {
    if name == "default" then Some(Default)
    else if name == "tiktok" then Some(Tiktok)
    else if name == "youtube" then Some(Youtube)
    else if name == "minimal" then Some(Minimal)
    else if name == "hormozi" then Some(Hormozi)
    else None
  }

  /** STYLE_PRESETS. */
  function PresetStyle(p: PresetName): map<StyleKey, StyleValue> {
    match p
    case Default => DefaultPreset
    case Tiktok => TiktokPreset
    case Youtube => YoutubePreset
    case Minimal => MinimalPreset
    case Hormozi => HormoziPreset
  }

  /** The style the worker receives: a known preset's entries overridden by
      the request's own, or the request's style alone. */
  function MergePreset(preset: Option<string>, style: map<StyleKey, StyleValue>): (merged: map<StyleKey, StyleValue>)
    ensures forall k :: k in style ==> k in merged && merged[k] == style[k]
    ensures preset.Some? && PresetOf(preset.value).Some? ==>
      var base := PresetStyle(PresetOf(preset.value).value);
      forall k :: k in merged && k !in style ==> k in base && merged[k] == base[k]
    ensures (preset.None? || PresetOf(preset.value).None?) ==> merged == style
  {
    if preset.Some? && PresetOf(preset.value).Some? then PresetStyle(PresetOf(preset.value).value) + style else style
  }

  /** Three of the five presets set the outline flag `True`, and they
      render `Outline=True`; one turns the outline off, and one gives the
      width 3. */
  lemma PresetOutlines(num: real -> string)
    ensures forall p: PresetName ::
      (Outline in PresetStyle(p) && PresetStyle(p)[Outline] == Bool(true) <==> p in {Default, Tiktok, Youtube})
    ensures OutlineClause(DefaultPreset, num) == OutlineClause(TiktokPreset, num)
         == OutlineClause(YoutubePreset, num) == OutlineOn + "True"
    ensures OutlineClause(MinimalPreset, num) == OutlineOff
    ensures OutlineClause(HormoziPreset, num) == OutlineOn + "3"
  {
    assert IntToString(3) == "3";
  }

  /** How the worker converts a string to a number: Python's parsing of
      integer and float literals, and the rendering of floats, are
      parameters. */
  datatype Conversions = Conversions(num: real -> string, parseInt: string -> Option<int>, parseFloat: string -> Option<real>)

  const IntOfNone := "int() argument must be a string, a bytes-like object or a real number, not 'NoneType'"
  const FloatOfNone := "float() argument must be a string or a real number, not 'NoneType'"
  const BadIntLiteral := "invalid literal for int() with base 10: "
  const BadFloatLiteral := "could not convert string to float: "

  /** `repr()` of a string in an exception message. */
  function Quoted(s: string): string {
    "'" + s + "'"
  }

  /** A float truncated toward zero. */
  function Truncate(x: real): (n: int)
    ensures x >= 0.0 ==> n as real <= x < n as real + 1.0
    ensures x < 0.0 ==> n as real - 1.0 < x <= n as real
  {
    if x >= 0.0 then x.Floor else -((-x).Floor)
  }

  /** Python's `int()` of a style value: a bool is 0 or 1, a float is
      truncated toward zero, a string is parsed, and None raises. */
  function PyInt(v: StyleValue, parse: string -> Option<int>): (r: Result<int, string>)
    ensures r.Err? <==> v.Null? || (v.Str? && parse(v.s).None?)
    ensures v.Int? ==> r == Ok(v.i)
    ensures v.Num? ==> r == Ok(Truncate(v.x))
  {
    match v
    case Null => Err(IntOfNone)
    case Bool(b) => Ok(if b then 1 else 0)
    case Int(i) => Ok(i)
    case Num(x) => Ok(Truncate(x))
    case Str(t) =>
      match parse(t)
      case Some(n) => Ok(n)
      case None => Err(BadIntLiteral + Quoted(t))
  }

  /** Python's `float()` of a style value. */
  function PyFloat(v: StyleValue, parse: string -> Option<real>): (r: Result<real, string>)
    ensures r.Err? <==> v.Null? || (v.Str? && parse(v.s).None?)
    ensures v.Int? ==> r == Ok(v.i as real)
    ensures v.Num? ==> r == Ok(v.x)
  {
    match v
    case Null => Err(FloatOfNone)
    case Bool(b) => Ok(if b then 1.0 else 0.0)
    case Int(i) => Ok(i as real)
    case Num(x) => Ok(x)
    case Str(t) =>
      match parse(t)
      case Some(y) => Ok(y)
      case None => Err(BadFloatLiteral + Quoted(t))
  }

  /** The fields of the forced style other than the outline, as the worker
      has converted them with `int()` and `float()`. */
  datatype StyleFields = StyleFields(
    fontName: string, fontSize: int, colourName: string,
    marginV: int, marginH: int, spacing: real, shadow: int)

  /** The five converted values in the order the worker converts them:
      'font_size', 'margin_horizontal', 'margin_vertical' (falling back to
      'margin_v'), 'spacing' and 'shadow'. */
  function FontSizeOf(style: map<StyleKey, StyleValue>, c: Conversions): Result<int, string> {
    PyInt(Get(style, FontSize, Int(24)), c.parseInt)
  }

  function MarginHOf(style: map<StyleKey, StyleValue>, c: Conversions): Result<int, string> {
    PyInt(Get(style, MarginHorizontal, Int(40)), c.parseInt)
  }

  function MarginVOf(style: map<StyleKey, StyleValue>, c: Conversions): Result<int, string> {
    PyInt(Get(style, MarginVertical, Get(style, MarginV, Int(70))), c.parseInt)
  }

  function SpacingOf(style: map<StyleKey, StyleValue>, c: Conversions): Result<real, string> {
    PyFloat(Get(style, Spacing, Num(-1.0)), c.parseFloat)
  }

  function ShadowOf(style: map<StyleKey, StyleValue>, c: Conversions): Result<int, string> {
    PyInt(Get(style, Shadow, Int(0)), c.parseInt)
  }

  /** The conversions at the top of the style block: the first that raises
      ends the job with its message; otherwise the fields of the forced
      style, the font name and colour as `str()` renders them. */
  function ConvertStyle(style: map<StyleKey, StyleValue>, c: Conversions): (r: Result<StyleFields, string>)
    ensures r.Ok? <==>
      FontSizeOf(style, c).Ok? && MarginHOf(style, c).Ok? && MarginVOf(style, c).Ok?
      && SpacingOf(style, c).Ok? && ShadowOf(style, c).Ok?
  {
    var size := FontSizeOf(style, c);
    var marginH := MarginHOf(style, c);
    var marginV := MarginVOf(style, c);
    var spacing := SpacingOf(style, c);
    var shadow := ShadowOf(style, c);
    if size.Err? then Err(size.error)
    else if marginH.Err? then Err(marginH.error)
    else if marginV.Err? then Err(marginV.error)
    else if spacing.Err? then Err(spacing.error)
    else if shadow.Err? then Err(shadow.error)
    else Ok(StyleFields(
      Render(Get(style, FontName, Str("DejaVu Sans")), c.num), size.value,
      Render(Get(style, Color, Str("white")), c.num),
      marginV.value, marginH.value, spacing.value, shadow.value))
  }

  /** The key is absent or holds a number (a bool included). */
  predicate NumberOrAbsent(style: map<StyleKey, StyleValue>, key: StyleKey) {
    key in style ==> IsNumber(style[key])
  }

  /** Every key the worker converts is absent or holds a number. */
  predicate NumericStyle(style: map<StyleKey, StyleValue>) {
    && NumberOrAbsent(style, FontSize) && NumberOrAbsent(style, MarginHorizontal)
    && NumberOrAbsent(style, MarginVertical) && NumberOrAbsent(style, MarginV)
    && NumberOrAbsent(style, Spacing) && NumberOrAbsent(style, Shadow)
  }

  /** A number converts with both `int()` and `float()`. */
  lemma NumberConverts(style: map<StyleKey, StyleValue>, key: StyleKey, default: StyleValue, c: Conversions)
    requires NumberOrAbsent(style, key) && IsNumber(default)
    ensures PyInt(Get(style, key, default), c.parseInt).Ok?
    ensures PyFloat(Get(style, key, default), c.parseFloat).Ok?
  {
  }

  /** A style whose converted keys are absent or hold numbers never fails. */
  lemma NumericStyleConverts(style: map<StyleKey, StyleValue>, c: Conversions)
    requires NumericStyle(style)
    ensures ConvertStyle(style, c).Ok?
  {
    NumberConverts(style, FontSize, Int(24), c);
    NumberConverts(style, MarginHorizontal, Int(40), c);
    NumberConverts(style, MarginV, Int(70), c);
    NumberConverts(style, MarginVertical, Get(style, MarginV, Int(70)), c);
    NumberConverts(style, Spacing, Num(-1.0), c);
    NumberConverts(style, Shadow, Int(0), c);
  }

  /** Integer fields and a float spacing come through unchanged. */
  lemma ConvertKeepsNumbers(style: map<StyleKey, StyleValue>, c: Conversions)
    requires ConvertStyle(style, c).Ok?
    ensures FontSize in style && style[FontSize].Int? ==> ConvertStyle(style, c).value.fontSize == style[FontSize].i
    ensures Shadow in style && style[Shadow].Int? ==> ConvertStyle(style, c).value.shadow == style[Shadow].i
    ensures Spacing in style && style[Spacing].Num? ==> ConvertStyle(style, c).value.spacing == style[Spacing].x
    ensures Spacing in style && style[Spacing].Int? ==> ConvertStyle(style, c).value.spacing == style[Spacing].i as real
  {
  }

  /** An empty style gives the defaults: DejaVu Sans at 24, white, margins 70
      and 40, spacing -1 and no shadow. */
  lemma DefaultStyleFields(c: Conversions)
    ensures ConvertStyle(map[], c) == Ok(StyleFields("DejaVu Sans", 24, "white", 70, 40, -1.0, 0))
  {
  }

  /** 'margin_vertical' wins over the presets' 'margin_v', which is used only
      when 'margin_vertical' is absent. */
  lemma MarginVerticalWins(style: map<StyleKey, StyleValue>, c: Conversions)
    requires ConvertStyle(style, c).Ok?
    ensures MarginVertical in style && style[MarginVertical].Int? ==>
      ConvertStyle(style, c).value.marginV == style[MarginVertical].i
    ensures MarginVertical !in style && MarginV in style && style[MarginV].Int? ==>
      ConvertStyle(style, c).value.marginV == style[MarginV].i
  {
  }

  /** The conversions fail in the worker's order: the first that raises
      names the job's error. */
  lemma ConvertStyleFirstError(style: map<StyleKey, StyleValue>, c: Conversions)
    ensures FontSizeOf(style, c).Err? ==> ConvertStyle(style, c) == Err(FontSizeOf(style, c).error)
    ensures FontSizeOf(style, c).Ok? && MarginHOf(style, c).Err? ==>
      ConvertStyle(style, c) == Err(MarginHOf(style, c).error)
    ensures FontSizeOf(style, c).Ok? && MarginHOf(style, c).Ok? && MarginVOf(style, c).Err? ==>
      ConvertStyle(style, c) == Err(MarginVOf(style, c).error)
    ensures (FontSizeOf(style, c).Ok? && MarginHOf(style, c).Ok? && MarginVOf(style, c).Ok?
             && SpacingOf(style, c).Err?) ==>
      ConvertStyle(style, c) == Err(SpacingOf(style, c).error)
    ensures (FontSizeOf(style, c).Ok? && MarginHOf(style, c).Ok? && MarginVOf(style, c).Ok?
             && SpacingOf(style, c).Ok? && ShadowOf(style, c).Err?) ==>
      ConvertStyle(style, c) == Err(ShadowOf(style, c).error)
  {
  }

  /** Every preset converts, whatever numbers the request adds. */
  lemma PresetsConvert(p: PresetName, style: map<StyleKey, StyleValue>, c: Conversions)
    requires NumericStyle(style)
    ensures ConvertStyle(PresetStyle(p) + style, c).Ok?
  {
    PresetsNumeric(p);
    MergeNumeric(PresetStyle(p), style);
    NumericStyleConverts(PresetStyle(p) + style, c);
  }

  lemma PresetsNumeric(p: PresetName)
    ensures NumericStyle(PresetStyle(p))
  {
  }

  lemma MergeNumeric(a: map<StyleKey, StyleValue>, b: map<StyleKey, StyleValue>)
    requires NumericStyle(a) && NumericStyle(b)
    ensures NumericStyle(a + b)
  {
  }

  /** The font fields of the forced style. */
  function FontPart(f: StyleFields): string {
    "FontName=" + f.fontName + ",FontSize=" + IntToString(f.fontSize)
  }

  /** The colour field, between its separators. */
  function ColourPart(f: StyleFields): string {
    ",PrimaryColour=" + ColourCode(f.colourName) + ","
  }

  /** The margin, alignment, spacing and shadow fields. */
  function LayoutPart(f: StyleFields, num: real -> string): string {
    "MarginV=" + IntToString(f.marginV)
      + ",MarginL=" + IntToString(f.marginH) + ",MarginR=" + IntToString(f.marginH)
      + ",Alignment=2,Spacing=" + num(f.spacing) + ",Shadow=" + IntToString(f.shadow)
  }

  /** The `force_style` string of the burn, as app.py builds it. */
  function StyleString(f: StyleFields, style: map<StyleKey, StyleValue>, num: real -> string): string {
    FontPart(f) + ColourPart(f) + LayoutPart(f, num) + OutlineClause(style, num)
  }

  /** The `force_style` string with the corrected outline rule. */
  function StyleStringIntended(f: StyleFields, style: map<StyleKey, StyleValue>, num: real -> string): string {
    FontPart(f) + ColourPart(f) + LayoutPart(f, num) + OutlineClauseIntended(style, num)
  }

  /** A style string made of the fixed fields and an outline clause names the
      mapped colour and ends with that clause. */
  lemma FieldsThenClause(f: StyleFields, num: real -> string, clause: string)
    ensures var s := FontPart(f) + ColourPart(f) + LayoutPart(f, num) + clause;
      && Contains(s, ",PrimaryColour=" + ColourCode(f.colourName) + ",")
      && |clause| <= |s| && s[|s| - |clause|..] == clause
  {
    var rest := LayoutPart(f, num) + clause;
    assert FontPart(f) + ColourPart(f) + LayoutPart(f, num) + clause == FontPart(f) + ColourPart(f) + rest;
    ContainsMiddle(FontPart(f), ColourPart(f), rest);
  }

  /** Both style strings name the mapped colour and end with their outline
      clause, and they differ only where the clauses do. */
  lemma StyleStringParts(f: StyleFields, style: map<StyleKey, StyleValue>, num: real -> string)
    ensures var s := StyleString(f, style, num);
      var clause := OutlineClause(style, num);
      && Contains(s, ",PrimaryColour=" + ColourCode(f.colourName) + ",")
      && |clause| <= |s| && s[|s| - |clause|..] == clause
    ensures var s := StyleStringIntended(f, style, num);
      var clause := OutlineClauseIntended(style, num);
      && Contains(s, ",PrimaryColour=" + ColourCode(f.colourName) + ",")
      && |clause| <= |s| && s[|s| - |clause|..] == clause
    ensures (StyleString(f, style, num) == StyleStringIntended(f, style, num)) <==>
      (OutlineClause(style, num) == OutlineClauseIntended(style, num))
  {
    var prefix := FontPart(f) + ColourPart(f) + LayoutPart(f, num);
    FieldsThenClause(f, num, OutlineClause(style, num));
    FieldsThenClause(f, num, OutlineClauseIntended(style, num));
    if StyleString(f, style, num) == StyleStringIntended(f, style, num) {
      assert (prefix + OutlineClause(style, num))[|prefix|..] == OutlineClause(style, num);
      assert (prefix + OutlineClauseIntended(style, num))[|prefix|..] == OutlineClauseIntended(style, num);
    }
  }
}
