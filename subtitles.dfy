/** The SubRip cue generator of create_srt.py: the `HH:MM:SS,mmm` timestamp,
    grouped cues of a fixed number of words, and one cue per word. Writing the
    file is modelled as returning the cues written, in order. */
module Subtitles {
  import opened Wrappers
  import opened Text

  // ---------------------------------------------------------------------------
  // format_timestamp
  // ---------------------------------------------------------------------------

  /** Python's float `x % m` for a positive `m`: `x - m * floor(x / m)`, whose
      sign is that of `m`. */
  function FMod(x: real, m: real): real
    requires m > 0.0
  {
    x - m * ((x / m).Floor as real)
  }

  /** `int(seconds // 3600)` */
  function Hours(seconds: real): int {
    (seconds / 3600.0).Floor
  }

  /** `int((seconds % 3600) // 60)` */
  function Minutes(seconds: real): (m: nat)
    ensures m < 60
  {
    assert 0.0 <= FMod(seconds, 3600.0) < 3600.0;
    (FMod(seconds, 3600.0) / 60.0).Floor
  }

  /** `int(seconds % 60)` */
  function Seconds(seconds: real): (s: nat)
    ensures s < 60
  {
    assert 0.0 <= FMod(seconds, 60.0) < 60.0;
    FMod(seconds, 60.0).Floor
  }

  /** `int((seconds % 1) * 1000)` */
  function Millis(seconds: real): (ms: nat)
    ensures ms < 1000
  {
    assert 0.0 <= FMod(seconds, 1.0) < 1.0;
    (FMod(seconds, 1.0) * 1000.0).Floor
  }

  /** format_timestamp: `f"{hours:02d}:{minutes:02d}:{secs:02d},{millis:03d}"`,
      an hours field of at least two characters and the clock part after it. */
  function FormatTimestamp(seconds: real): string {
    FormatInt(Hours(seconds), 2) + Clock(Minutes(seconds), Seconds(seconds), Millis(seconds))
  }

  /** The `:MM:SS,mmm` part of a timestamp. */
  function Clock(minutes: nat, secs: nat, millis: nat): string {
    ":" + ZeroPad(NatToString(minutes), 2) + ":" + ZeroPad(NatToString(secs), 2) + "," + ZeroPad(NatToString(millis), 3)
  }

  /** The four fields, read as one count, are the time truncated (not
      rounded) to whole milliseconds. */
  lemma TimestampFieldsDenote(seconds: real)
    ensures Hours(seconds) * 3_600_000 + Minutes(seconds) * 60_000 + Seconds(seconds) * 1000 + Millis(seconds)
            == (seconds * 1000.0).Floor
  {
    var h := Hours(seconds);
    var r := FMod(seconds, 3600.0);
    assert r == seconds - 3600.0 * h as real;
    var m := Minutes(seconds);
    var q := (seconds / 60.0).Floor;
    assert seconds / 60.0 == 60.0 * h as real + r / 60.0;
    assert q == 60 * h + m;
    var f := seconds.Floor;
    assert FMod(seconds, 60.0) == seconds - 60.0 * q as real;
    assert Seconds(seconds) == f - 60 * q;
    assert (seconds / 1.0).Floor == f;
    assert FMod(seconds, 1.0) == seconds - f as real;
    assert Millis(seconds) == (seconds * 1000.0).Floor - 1000 * f;
  }

  /** Reads `H..H:MM:SS,mmm` back to a count of milliseconds. */
  function ParseTimestamp(t: string): Option<int> {
    if |t| < 11 then None else ParseFields(t[..|t| - 10], t[|t| - 10..])
  }

  /** Reads a run of hour digits and the `:MM:SS,mmm` part after it. */
  function ParseFields(hours: string, tail: string): Option<int>
    requires |tail| == 10
  {
    if !AllDigits(hours) then None
    else
      match ParseClock(tail)
      case None => None
      case Some(rest) => Some(DigitsValue(hours) * 3_600_000 + rest)
  }

  function DigitAt(s: string, i: nat): int
    requires i < |s|
  {
    s[i] as int - '0' as int
  }

  /** Reads the fixed-width `:MM:SS,mmm` part, character by character. */
  function ParseClock(tail: string): Option<int>
    requires |tail| == 10
  {
    if tail[0] == ':' && IsDigit(tail[1]) && IsDigit(tail[2])
       && tail[3] == ':' && IsDigit(tail[4]) && IsDigit(tail[5])
       && tail[6] == ',' && IsDigit(tail[7]) && IsDigit(tail[8]) && IsDigit(tail[9])
    then Some((DigitAt(tail, 1) * 10 + DigitAt(tail, 2)) * 60_000
              + (DigitAt(tail, 4) * 10 + DigitAt(tail, 5)) * 1000
              + DigitAt(tail, 7) * 100 + DigitAt(tail, 8) * 10 + DigitAt(tail, 9))
    else None
  }

  lemma TwoDigits(s: string)
    requires |s| == 2 && AllDigits(s)
    ensures DigitsValue(s) == DigitAt(s, 0) * 10 + DigitAt(s, 1)
  {
    var p := s[..1];
    assert p[..0] == [] && p[0] == s[0];
    assert DigitsValue(p) == DigitAt(s, 0);
    assert s[..|s| - 1] == p;
  }

  lemma ThreeDigits(s: string)
    requires |s| == 3 && AllDigits(s)
    ensures DigitsValue(s) == DigitAt(s, 0) * 100 + DigitAt(s, 1) * 10 + DigitAt(s, 2)
  {
    TwoDigits(s[..2]);
    assert s[..|s| - 1] == s[..2];
  }

  /** Where each character of `:MM:SS,mmm` sits. */
  lemma ClockChars(tail: string, mm: string, ss: string, ms: string)
    requires |mm| == 2 && |ss| == 2 && |ms| == 3
    requires tail == ":" + mm + ":" + ss + "," + ms
    ensures |tail| == 10
    ensures tail[0] == ':' && tail[3] == ':' && tail[6] == ','
    ensures tail[1] == mm[0] && tail[2] == mm[1]
    ensures tail[4] == ss[0] && tail[5] == ss[1]
    ensures tail[7] == ms[0] && tail[8] == ms[1] && tail[9] == ms[2]
  {
  }

  lemma ParseClockLayout(tail: string, mm: string, ss: string, ms: string)
    requires |mm| == 2 && |ss| == 2 && |ms| == 3
    requires AllDigits(mm) && AllDigits(ss) && AllDigits(ms)
    requires |tail| == 10 && tail[0] == ':' && tail[3] == ':' && tail[6] == ','
    requires tail[1] == mm[0] && tail[2] == mm[1]
    requires tail[4] == ss[0] && tail[5] == ss[1]
    requires tail[7] == ms[0] && tail[8] == ms[1] && tail[9] == ms[2]
    ensures ParseClock(tail) == Some(DigitsValue(mm) * 60_000 + DigitsValue(ss) * 1000 + DigitsValue(ms))
  {
    TwoDigits(mm);
    TwoDigits(ss);
    ThreeDigits(ms);
  }

  /** The last ten characters are the clock part, the rest the hours. */
  lemma ParseSplitsHours(hh: string, tail: string)
    requires |tail| == 10 && |hh| >= 1
    ensures ParseTimestamp(hh + tail) == ParseFields(hh, tail)
  {
    var t := hh + tail;
    assert t[..|t| - 10] == hh;
    assert t[|t| - 10..] == tail;
  }

  lemma ParseFieldsLayout(hh: string, tail: string, clock: int)
    requires AllDigits(hh) && |tail| == 10 && ParseClock(tail) == Some(clock)
    ensures ParseFields(hh, tail) == Some(DigitsValue(hh) * 3_600_000 + clock)
  {
  }

  lemma FieldWidth(n: nat, width: nat)
    requires width == 2 || width == 3
    requires n < Pow10(width)
    ensures AllDigits(ZeroPad(NatToString(n), width))
    ensures |ZeroPad(NatToString(n), width)| == width
    ensures DigitsValue(ZeroPad(NatToString(n), width)) == n
  {
    NatToStringWidth(n, width);
    ZeroPadValue(NatToString(n), width);
    NatToStringRoundTrip(n);
  }

  /** The clock part of in-range fields reads back as the milliseconds they denote. */
  lemma ClockRoundTrip(minutes: nat, secs: nat, millis: nat)
    requires minutes < 60 && secs < 60 && millis < 1000
    ensures |Clock(minutes, secs, millis)| == 10
    ensures ParseClock(Clock(minutes, secs, millis)) == Some(minutes * 60_000 + secs * 1000 + millis)
  {
    FieldWidth(minutes, 2);
    FieldWidth(secs, 2);
    FieldWidth(millis, 3);
    var mm := ZeroPad(NatToString(minutes), 2);
    var ss := ZeroPad(NatToString(secs), 2);
    var ms := ZeroPad(NatToString(millis), 3);
    ClockChars(Clock(minutes, secs, millis), mm, ss, ms);
    ParseClockLayout(Clock(minutes, secs, millis), mm, ss, ms);
  }

  /** The hours field of a non-negative hour count: at least two digits that read back as the count. */
  lemma HoursField(h: nat)
    ensures |FormatInt(h, 2)| >= 2 && AllDigits(FormatInt(h, 2))
    ensures DigitsValue(FormatInt(h, 2)) == h
  {
    ZeroPadValue(NatToString(h), 2);
    NatToStringRoundTrip(h);
  }

  /** For a non-negative time the timestamp has the `H..H:MM:SS,mmm` layout
      and reads back as the time truncated to whole milliseconds. */
  lemma TimestampRoundTrip(seconds: real)
    requires seconds >= 0.0
    ensures ParseTimestamp(FormatTimestamp(seconds)) == Some((seconds * 1000.0).Floor)
  {
    var h := Hours(seconds);
    assert h >= 0;
    FieldsRoundTrip(h, Minutes(seconds), Seconds(seconds), Millis(seconds));
    TimestampFieldsDenote(seconds);
  }

  /** In-range fields laid out as a timestamp read back as the milliseconds
      they denote. */
  lemma FieldsRoundTrip(h: nat, minutes: nat, secs: nat, millis: nat)
    requires minutes < 60 && secs < 60 && millis < 1000
    ensures ParseTimestamp(FormatInt(h, 2) + Clock(minutes, secs, millis))
            == Some(h * 3_600_000 + minutes * 60_000 + secs * 1000 + millis)
  {
    var clock := Clock(minutes, secs, millis);
    ClockRoundTrip(minutes, secs, millis);
    HoursField(h);
    ParseSplitsHours(FormatInt(h, 2), clock);
    ParseFieldsLayout(FormatInt(h, 2), clock, minutes * 60_000 + secs * 1000 + millis);
  }

  /** The fields of 3661.25 s: one hour, one minute, one second and 250 ms. */
  lemma ExampleHourFields()
    ensures Hours(3661.25) == 1 && Minutes(3661.25) == 1 && Seconds(3661.25) == 1 && Millis(3661.25) == 250
  {
  }

  /** The fields of 1.4995 s: one second and 499 ms, the half dropped. */
  lemma ExampleTruncatedFields()
    ensures Hours(1.4995) == 0 && Minutes(1.4995) == 0 && Seconds(1.4995) == 1 && Millis(1.4995) == 499
  {
  }

  lemma PaddedZero()
    ensures ZeroPad(NatToString(0), 2) == "00"
  {
    assert NatToString(0) == "0";
  }

  lemma PaddedOne()
    ensures ZeroPad(NatToString(1), 2) == "01"
  {
    assert NatToString(1) == "1";
  }

  lemma Padded250()
    ensures ZeroPad(NatToString(250), 3) == "250"
  {
    assert NatToString(2) == "2";
    assert NatToString(25) == "2" + "5";
    assert NatToString(250) == "25" + "0";
  }

  lemma Padded499()
    ensures ZeroPad(NatToString(499), 3) == "499"
  {
    assert NatToString(4) == "4";
    assert NatToString(49) == "4" + "9";
    assert NatToString(499) == "49" + "9";
  }

  lemma ClockOneSecond250()
    ensures Clock(1, 1, 250) == ":01:01,250"
  {
    PaddedOne();
    Padded250();
  }

  lemma ClockOneSecond499()
    ensures Clock(0, 1, 499) == ":00:01,499"
  {
    PaddedZero();
    PaddedOne();
    Padded499();
  }

  /** 3661.25 s is one hour, one minute, one second and 250 ms; the value is
      exact in binary floating point as well. */
  lemma TimestampExampleHour()
    ensures FormatTimestamp(3661.25) == "01:01:01,250"
  {
    ExampleHourFields();
    ClockOneSecond250();
    PaddedOne();
  }

  /** Milliseconds are truncated, not rounded: 1.4995 s shows 499 ms. */
  lemma TimestampExampleTruncates()
    ensures FormatTimestamp(1.4995) == "00:00:01,499"
  {
    ExampleTruncatedFields();
    ClockOneSecond499();
    PaddedZero();
  }


  // ---------------------------------------------------------------------------
  // Words and cues
  // ---------------------------------------------------------------------------

  /** A value that is not a dictionary, by what `'end' in x` does with it: a
      number, a bool or None raises, a string or a list answers whether it
      holds 'end' (as a substring or as an element). */
  datatype Other = Scalar | Container(holdsEnd: bool)

  /** One element of the caller's `words` list: a dictionary whose 'start',
      'end', 'text' and 'word' keys may each be missing, or some other value. */
  datatype Word =
    | Entry(start: Option<real>, end: Option<real>, text: Option<string>, word: Option<string>)
    | NotADict(kind: Other)

  /** The `words` argument: a list, or some other value, named by its
      Python type. */
  datatype Words = WordList(items: seq<Word>) | NotAList(typeName: string)

  /** One SubRip cue: its number, its time range and its text. */
  datatype Cue = Cue(index: nat, start: real, end: real, text: string)

  /** The exceptions the generator raises. */
  datatype SrtError =
    | WordsNotAList
    | WordsEmpty
    | ZeroStep
    | WordNotADict
    | MissingFields(got: Word)
    | NotIterable
    | NotSubscriptable
    | NoGetMethod

  datatype PyException = TypeError | ValueError | AttributeError

  /** The Python class of each exception. */
  function ExceptionClass(e: SrtError): PyException {
    match e
    case WordsNotAList => TypeError
    case WordsEmpty => ValueError
    case ZeroStep => ValueError
    case WordNotADict => TypeError
    case MissingFields(_) => ValueError
    case NotIterable => TypeError
    case NotSubscriptable => TypeError
    case NoGetMethod => AttributeError
  }

  function Caps(text: string, allCaps: bool): string {
    if allCaps then Upper(text) else text
  }

  /** `str(word.get('text', ''))` of a word dictionary. */
  function TextOf(w: Word): string
    requires w.Entry?
  {
    if w.text.Some? then w.text.value else ""
  }

  /** `str(word.get('text', ''))` of every word of a chunk. */
  function Texts(ws: seq<Word>): (ts: seq<string>)
    requires forall j :: 0 <= j < |ws| ==> ws[j].Entry?
    ensures |ts| == |ws| && forall j :: 0 <= j < |ws| ==> ts[j] == TextOf(ws[j])
  {
    seq(|ws|, j requires 0 <= j < |ws| => TextOf(ws[j]))
  }

  /** The text of the cue of `words[lo..hi]`, built word by word: the texts
      of the chunk's words separated by single spaces. */
  function ChunkText(words: seq<Word>, lo: nat, hi: nat): string
    requires lo < hi <= |words|
    requires forall j :: lo <= j < hi ==> words[j].Entry?
    decreases hi - lo
  {
    if lo + 1 == hi then TextOf(words[lo]) else TextOf(words[lo]) + " " + ChunkText(words, lo + 1, hi)
  }

  /** The cue text is `' '.join(str(word.get('text', '')) for word in chunk)`. */
  lemma {:induction false} ChunkTextIsJoin(words: seq<Word>, lo: nat, hi: nat)
    requires lo < hi <= |words|
    requires forall j :: lo <= j < hi ==> words[j].Entry?
    ensures ChunkText(words, lo, hi) == Join(" ", Texts(words[lo..hi]))
    decreases hi - lo
  {
    var parts := Texts(words[lo..hi]);
    if lo + 1 < hi {
      ChunkTextIsJoin(words, lo + 1, hi);
      assert parts[1..] == Texts(words[lo + 1..hi]);
    }
  }

  /** Prepends the cues already written to the outcome of the rest. */
  function Prepend(cues: seq<Cue>, r: Result<seq<Cue>, SrtError>): Result<seq<Cue>, SrtError> {
    match r
    case Ok(rest) => Ok(cues + rest)
    case Err(e) => Err(e)
  }

  lemma PrependNothing(r: Result<seq<Cue>, SrtError>)
    ensures Prepend([], r) == r
  {
    if r.Ok? {
      assert [] + r.value == r.value;
    }
  }

  lemma PrependTwice(a: seq<Cue>, b: seq<Cue>, r: Result<seq<Cue>, SrtError>)
    ensures Prepend(a, Prepend(b, r)) == Prepend(a + b, r)
  {
    if r.Ok? {
      assert a + (b + r.value) == (a + b) + r.value;
    }
  }

  // ---------------------------------------------------------------------------
  // create_srt_from_words: grouped cues
  // ---------------------------------------------------------------------------

  /** The cue of the chunk `words[lo..hi]`, or the exception raised for it:
      only the first word must be a dictionary with 'start' and 'text', only
      the last word must have 'end', and the other words must merely be
      dictionaries (a missing 'text' reads as the empty string). The tests
      run in the order of the source's `or` chain: 'start' of the first word,
      `'end' in` the last (which raises for a number, a bool or None), 'text'
      of the first; a string or list last word that holds 'end' gets past
      them and raises when indexed by 'end'; a non-dictionary in between
      raises when asked for its 'text'. */
  function ChunkCue(words: seq<Word>, lo: nat, hi: nat, index: nat, allCaps: bool): (r: Result<Cue, SrtError>)
    requires lo < hi <= |words|
    ensures r.Ok? ==> r.value.index == index
  {
    var first := words[lo];
    var last := words[hi - 1];
    if !first.Entry? then Err(WordNotADict)
    else if first.start.None? then Err(MissingFields(first))
    else if last.NotADict? && last.kind.Scalar? then Err(NotIterable)
    else if (if last.Entry? then last.end.None? else !last.kind.holdsEnd) then Err(MissingFields(first))
    else if first.text.None? then Err(MissingFields(first))
    else if !last.Entry? then Err(NotSubscriptable)
    else if exists j :: lo < j < hi && !words[j].Entry? then Err(NoGetMethod)
    else Ok(Cue(index, first.start.value, last.end.value, Caps(ChunkText(words, lo, hi), allCaps)))
  }

  /** The end of the chunk that starts at `lo`. */
  function ChunkEnd(n: nat, lo: nat, perLine: nat): nat {
    if lo + perLine < n then lo + perLine else n
  }

  /** The cues of the chunks from `lo` on, numbered from `index`. */
  function GroupedFrom(words: seq<Word>, lo: nat, perLine: nat, index: nat, allCaps: bool): Result<seq<Cue>, SrtError>
    requires perLine > 0
    decreases |words| - lo
  {
    if lo >= |words| then Ok([])
    else
      match ChunkCue(words, lo, ChunkEnd(|words|, lo, perLine), index, allCaps)
      case Err(e) => Err(e)
      case Ok(cue) => Prepend([cue], GroupedFrom(words, lo + perLine, perLine, index + 1, allCaps))
  }

  /** What create_srt_from_words produces: the type and emptiness checks, then
      `range(0, len(words), words_per_line)` (a zero step raises, a negative
      step yields no chunk), then one cue per chunk numbered from 1. */
  function GroupedSrt(input: Words, perLine: int, allCaps: bool): Result<seq<Cue>, SrtError> {
    if input.NotAList? then Err(WordsNotAList)
    else if input.items == [] then Err(WordsEmpty)
    else if perLine == 0 then Err(ZeroStep)
    else if perLine < 0 then Ok([])
    else GroupedFrom(input.items, 0, perLine, 1, allCaps)
  }

  /** One turn of the writing loop: the cue of the chunk at `i`, which the
      rest of the output follows, or the exception that ends the output. */
  method NextChunk(words: seq<Word>, i: nat, perLine: nat, index: nat, allCaps: bool)
    returns (cue: Result<Cue, SrtError>)
    requires perLine > 0 && i < |words|
    ensures cue.Ok? ==> cue.value.index == index
    ensures cue.Ok? ==>
      GroupedFrom(words, i, perLine, index, allCaps) ==
      Prepend([cue.value], GroupedFrom(words, i + perLine, perLine, index + 1, allCaps))
    ensures cue.Err? ==> GroupedFrom(words, i, perLine, index, allCaps) == Err(cue.error)
  {
    cue := ChunkCue(words, i, ChunkEnd(|words|, i, perLine), index, allCaps);
  }

  /** The loop of create_srt_from_words over `range(0, len(words), perLine)`:
      the cues it writes, numbered from 1, and their count, or the exception
      that stops it. */
  method WriteChunks(words: seq<Word>, perLine: nat, allCaps: bool)
    returns (result: Result<nat, SrtError>, written: seq<Cue>)
    requires perLine > 0
    ensures GroupedFrom(words, 0, perLine, 1, allCaps) == if result.Ok? then Ok(written) else Err(result.error)
    ensures result.Ok? ==> result.value == |written|
    ensures forall k :: 0 <= k < |written| ==> written[k].index == k + 1
  {
    written := [];
    var subtitleIndex := 1;
    var i := 0;
    PrependNothing(GroupedFrom(words, i, perLine, subtitleIndex, allCaps));
    while i < |words|
      invariant subtitleIndex == |written| + 1
      invariant forall k :: 0 <= k < |written| ==> written[k].index == k + 1
      invariant GroupedFrom(words, 0, perLine, 1, allCaps) ==
        Prepend(written, GroupedFrom(words, i, perLine, subtitleIndex, allCaps))
      decreases |words| - i
    {
      var cue := NextChunk(words, i, perLine, subtitleIndex, allCaps);
      if cue.Err? {
        return Err(cue.error), written;
      }
      PrependTwice(written, [cue.value], GroupedFrom(words, i + perLine, perLine, subtitleIndex + 1, allCaps));
      written := written + [cue.value];
      subtitleIndex := subtitleIndex + 1;
      i := i + perLine;
    }
    assert written + [] == written;
    result := Ok(subtitleIndex - 1);
  }

  /** create_srt_from_words: returns the number of cues it wrote (or the
      exception it raised) together with the cues written to the file, in
      order, before returning or raising. */
  method CreateSrtFromWords(input: Words, perLine: int, allCaps: bool)
    returns (result: Result<nat, SrtError>, written: seq<Cue>)
    ensures GroupedSrt(input, perLine, allCaps) == if result.Ok? then Ok(written) else Err(result.error)
    ensures result.Ok? ==> result.value == |written|
    ensures forall k :: 0 <= k < |written| ==> written[k].index == k + 1
  {
    written := [];
    if input.NotAList? {
      return Err(WordsNotAList), written;
    }
    if input.items == [] {
      return Err(WordsEmpty), written;
    }
    if perLine == 0 {
      return Err(ZeroStep), written;
    }
    if perLine < 0 {
      // range() with a negative step and a start below the stop is empty.
      return Ok(0), written;
    }
    result, written := WriteChunks(input.items, perLine, allCaps);
  }

  /** The chunk validation of grouped mode is all that can fail: the first
      word of a chunk is a dictionary with 'start' and 'text', the last has
      'end', the words between are dictionaries; nothing else is checked. */
  predicate ChunkValid(words: seq<Word>, lo: nat, hi: nat)
    requires lo < hi <= |words|
  {
    && words[lo].Entry? && words[lo].start.Some? && words[lo].text.Some?
    && words[hi - 1].Entry? && words[hi - 1].end.Some?
    && forall j :: lo < j < hi ==> words[j].Entry?
  }

  /** A word dictionary with all of 'start', 'end' and 'text'. */
  predicate Complete(w: Word) {
    w.Entry? && w.start.Some? && w.end.Some? && w.text.Some?
  }

  /** Chunk number `k` (from 0) of `words` cut every `perLine` words. */
  predicate ChunkValidAt(words: seq<Word>, perLine: nat, k: nat)
    requires perLine > 0
  {
    k * perLine < |words| ==> ChunkValid(words, k * perLine, ChunkEnd(|words|, k * perLine, perLine))
  }

  /** From `lo` on there are as many grouped cues as chunks left. */
  lemma {:induction false} GroupedFromCount(words: seq<Word>, lo: nat, perLine: nat, index: nat, allCaps: bool)
    requires perLine > 0 && lo < |words|
    requires GroupedFrom(words, lo, perLine, index, allCaps).Ok?
    ensures var n := |GroupedFrom(words, lo, perLine, index, allCaps).value|;
      n >= 1 && lo + ChunkStart(perLine, n - 1) < |words| <= lo + ChunkStart(perLine, n)
    decreases |words| - lo
  {
    var rest := GroupedFrom(words, lo + perLine, perLine, index + 1, allCaps);
    assert rest.Ok?;
    var n := |GroupedFrom(words, lo, perLine, index, allCaps).value|;
    assert n == |rest.value| + 1;
    ChunkStartShift(perLine, n);
    if lo + perLine < |words| {
      GroupedFromCount(words, lo + perLine, perLine, index + 1, allCaps);
      ChunkStartShift(perLine, n - 1);
    } else {
      assert rest.value == [];
    }
  }

  /** Where chunk `k` starts: `k` steps of `perLine`, without multiplying. */
  function ChunkStart(perLine: nat, k: nat): nat {
    if k == 0 then 0 else ChunkStart(perLine, k - 1) + perLine
  }

  lemma {:induction false} ChunkStartIsProduct(perLine: nat, k: nat)
    ensures ChunkStart(perLine, k) == k * perLine
  {
    if k > 0 {
      ChunkStartIsProduct(perLine, k - 1);
      assert k * perLine == (k - 1) * perLine + perLine;
    }
  }

  /** Grouped cue `k` from `lo` on is the cue of the chunk that starts
      `k` chunks after `lo`, at `at`, numbered `n`, that is `index + k`. */
  lemma {:induction false} GroupedFromCue(
    words: seq<Word>, lo: nat, perLine: nat, index: nat, allCaps: bool, cues: seq<Cue>, k: nat, at: nat, n: nat)
    requires perLine > 0 && GroupedFrom(words, lo, perLine, index, allCaps) == Ok(cues)
    requires k < |cues| && at == lo + ChunkStart(perLine, k) && n == index + k
    ensures at < |words|
    ensures ChunkCue(words, at, ChunkEnd(|words|, at, perLine), n, allCaps) == Ok(cues[k])
    decreases k
  {
    if k == 0 {
      GroupedFromHead(words, lo, perLine, index, allCaps, cues);
    } else {
      GroupedFromTail(words, lo, perLine, index, allCaps, cues);
      ChunkStartShift(perLine, k);
      GroupedFromCue(words, lo + perLine, perLine, index + 1, allCaps, cues[1..], k - 1, at, n);
    }
  }

  /** The first cue of an accepted run from `lo` is the cue of its first chunk. */
  lemma GroupedFromHead(words: seq<Word>, lo: nat, perLine: nat, index: nat, allCaps: bool, cues: seq<Cue>)
    requires perLine > 0 && GroupedFrom(words, lo, perLine, index, allCaps) == Ok(cues) && cues != []
    ensures lo < |words|
    ensures ChunkCue(words, lo, ChunkEnd(|words|, lo, perLine), index, allCaps) == Ok(cues[0])
  {
  }

  /** After the first cue, an accepted run from `lo` continues with the
      accepted run from the next chunk. */
  lemma GroupedFromTail(words: seq<Word>, lo: nat, perLine: nat, index: nat, allCaps: bool, cues: seq<Cue>)
    requires perLine > 0 && GroupedFrom(words, lo, perLine, index, allCaps) == Ok(cues) && cues != []
    ensures GroupedFrom(words, lo + perLine, perLine, index + 1, allCaps) == Ok(cues[1..])
  {
  }

  /** Chunk `k` after `lo` is chunk `k - 1` after `lo + perLine`. */
  lemma {:induction false} ChunkStartShift(perLine: nat, k: nat)
    requires k > 0
    ensures ChunkStart(perLine, k) == perLine + ChunkStart(perLine, k - 1)
  {
  }

  /** Grouped mode emits ceil(len(words) / words_per_line) cues. */
  lemma GroupedCount(words: seq<Word>, perLine: nat, allCaps: bool)
    requires perLine > 0 && words != []
    requires GroupedSrt(WordList(words), perLine, allCaps).Ok?
    ensures var n := |GroupedSrt(WordList(words), perLine, allCaps).value|;
      (n - 1) * perLine < |words| <= n * perLine
  {
    var n := |GroupedSrt(WordList(words), perLine, allCaps).value|;
    GroupedFromCount(words, 0, perLine, 1, allCaps);
    ChunkStartIsProduct(perLine, n);
    ChunkStartIsProduct(perLine, n - 1);
  }

  /** Grouped cue k (from 0) is numbered k + 1, starts at the start of word
      k*words_per_line, ends at the end of the last word of its chunk (the
      last chunk may be shorter), and carries the chunk's texts joined by
      single spaces, upper-cased when asked; its chunk passed validation. */
  lemma GroupedCues(words: seq<Word>, perLine: nat, allCaps: bool)
    requires perLine > 0 && words != []
    requires GroupedSrt(WordList(words), perLine, allCaps).Ok?
    ensures var cues := GroupedSrt(WordList(words), perLine, allCaps).value;
      forall k :: 0 <= k < |cues| ==> GroupedCueIs(words, perLine, allCaps, cues, k)
  {
    var cues := GroupedSrt(WordList(words), perLine, allCaps).value;
    forall k | 0 <= k < |cues| ensures GroupedCueIs(words, perLine, allCaps, cues, k) {
      ChunkStartIsProduct(perLine, k);
      GroupedFromCue(words, 0, perLine, 1, allCaps, cues, k, k * perLine, k + 1);
      ChunkCueOk(words, k * perLine, ChunkEnd(|words|, k * perLine, perLine), k + 1, allCaps);
    }
  }

  /** Cue `k` (from 0) is the cue of chunk `k`: its chunk passed validation
      and the cue is numbered k + 1, runs from the first word's start to the
      last word's end and carries the chunk's texts joined by single spaces. */
  predicate GroupedCueIs(words: seq<Word>, perLine: nat, allCaps: bool, cues: seq<Cue>, k: nat)
    requires k < |cues|
  {
    var lo := k * perLine;
    var hi := ChunkEnd(|words|, lo, perLine);
    && lo < hi <= |words|
    && ChunkValid(words, lo, hi)
    && cues[k] == Cue(k + 1, words[lo].start.value, words[hi - 1].end.value, Caps(ChunkText(words, lo, hi), allCaps))
  }

  /** A chunk yields a cue exactly when it is valid, and then the cue spans
      the chunk. */
  lemma ChunkCueOk(words: seq<Word>, lo: nat, hi: nat, index: nat, allCaps: bool)
    requires lo < hi <= |words|
    ensures ChunkCue(words, lo, hi, index, allCaps).Ok? <==> ChunkValid(words, lo, hi)
    ensures ChunkValid(words, lo, hi) ==>
      ChunkCue(words, lo, hi, index, allCaps).value
        == Cue(index, words[lo].start.value, words[hi - 1].end.value, Caps(ChunkText(words, lo, hi), allCaps))
  {
  }

  /** A chunk whose first word passes the 'start' test but whose last word
      is not a dictionary fails in one of three ways: `'end' in` a number, a
      bool or None raises TypeError; a string or list without 'end' is a
      missing field (ValueError); one that holds 'end' gets past the field
      tests and raises TypeError when indexed, unless the first word lacks
      'text'. */
  lemma ChunkLastNotADict(words: seq<Word>, lo: nat, hi: nat, index: nat, allCaps: bool)
    requires lo < hi <= |words|
    requires words[lo].Entry? && words[lo].start.Some? && words[hi - 1].NotADict?
    ensures var r := ChunkCue(words, lo, hi, index, allCaps);
      var k := words[hi - 1].kind;
      && (k.Scalar? ==> r == Err(NotIterable))
      && (k.Container? && !k.holdsEnd ==> r == Err(MissingFields(words[lo])))
      && (k.Container? && k.holdsEnd ==>
            r == if words[lo].text.None? then Err(MissingFields(words[lo])) else Err(NotSubscriptable))
      && r.Err? && ExceptionClass(r.error) ==
           if k.Container? && (!k.holdsEnd || words[lo].text.None?) then ValueError else TypeError
  {
  }

  lemma {:induction false} GroupedFromAccepts(words: seq<Word>, lo: nat, perLine: nat, index: nat, allCaps: bool, k0: nat)
    requires perLine > 0 && lo == k0 * perLine
    ensures GroupedFrom(words, lo, perLine, index, allCaps).Ok? <==>
      forall k :: k0 <= k ==> ChunkValidAt(words, perLine, k)
    decreases |words| - lo
  {
    if lo < |words| {
      GroupedFromAccepts(words, lo + perLine, perLine, index + 1, allCaps, k0 + 1);
      var hi := ChunkEnd(|words|, lo, perLine);
      assert ChunkCue(words, lo, hi, index, allCaps).Ok? <==> ChunkValid(words, lo, hi);
      assert ChunkValidAt(words, perLine, k0) <==> ChunkValid(words, lo, hi);
      if forall k :: k0 + 1 <= k ==> ChunkValidAt(words, perLine, k) {
        if ChunkValidAt(words, perLine, k0) {
          forall k | k0 <= k ensures ChunkValidAt(words, perLine, k) {
          }
        }
      }
    } else {
      forall k | k0 <= k ensures ChunkValidAt(words, perLine, k) {
        assert k * perLine >= k0 * perLine;
      }
    }
  }

  /** A grouped call on a non-empty list succeeds exactly when every chunk
      passes its validation: first word a dictionary with 'start' and 'text',
      last word with 'end', the words in between dictionaries. */
  lemma GroupedAcceptsIff(words: seq<Word>, perLine: nat, allCaps: bool)
    requires perLine > 0 && words != []
    ensures GroupedSrt(WordList(words), perLine, allCaps).Ok? <==>
      forall k :: 0 <= k ==> ChunkValidAt(words, perLine, k)
  {
    GroupedFromAccepts(words, 0, perLine, 1, allCaps, 0);
  }

  /** The example of five words two per line: three cues, the last one made
      of the fifth word alone. */
  lemma FiveWordsTwoPerLine(words: seq<Word>, allCaps: bool)
    requires |words| == 5
    requires forall j :: 0 <= j < |words| ==> Complete(words[j])
    ensures GroupedSrt(WordList(words), 2, allCaps).Ok?
    ensures var cues := GroupedSrt(WordList(words), 2, allCaps).value;
      && |cues| == 3
      && Ok(cues[2]) == WordCue(words[4], 3, allCaps)
  {
    GroupedAcceptsIff(words, 2, allCaps);
    forall k | 0 <= k ensures ChunkValidAt(words, 2, k) {
    }
    GroupedCount(words, 2, allCaps);
    GroupedCues(words, 2, allCaps);
    var cues := GroupedSrt(WordList(words), 2, allCaps).value;
    assert |cues| == 3;
    assert GroupedCueIs(words, 2, allCaps, cues, 2);
    assert ChunkEnd(5, 4, 2) == 5;
  }

  /** Upper-casing touches the text only: the same cues come out, with the
      same numbers and times, and the text of each is upper-cased. */
  lemma {:induction false} CapsOnlyChangesText(words: seq<Word>, lo: nat, perLine: nat, index: nat)
    requires perLine > 0
    ensures var plain := GroupedFrom(words, lo, perLine, index, false);
            var caps := GroupedFrom(words, lo, perLine, index, true);
      && plain.Ok? == caps.Ok?
      && (plain.Ok? ==>
            && |plain.value| == |caps.value|
            && forall k :: 0 <= k < |plain.value| ==>
                 caps.value[k] == plain.value[k].(text := Upper(plain.value[k].text)))
    decreases |words| - lo
  {
    if lo < |words| {
      CapsOnlyChangesText(words, lo + perLine, perLine, index + 1);
      var plain := GroupedFrom(words, lo, perLine, index, false);
      var caps := GroupedFrom(words, lo, perLine, index, true);
      if plain.Ok? {
        var p := plain.value;
        var c := caps.value;
        forall k | 0 <= k < |p| ensures c[k] == p[k].(text := Upper(p[k].text)) {
          if k > 0 {
            assert p[k] == GroupedFrom(words, lo + perLine, perLine, index + 1, false).value[k - 1];
            assert c[k] == GroupedFrom(words, lo + perLine, perLine, index + 1, true).value[k - 1];
          }
        }
      }
    }
  }

  // ---------------------------------------------------------------------------
  // create_word_by_word_srt: one cue per word
  // ---------------------------------------------------------------------------

  /** The cue of one word, or the exception raised for it: it must be a
      dictionary with 'start', 'end' and 'text'. */
  function WordCue(w: Word, index: nat, allCaps: bool): Result<Cue, SrtError> {
    if !w.Entry? then Err(WordNotADict)
    else if w.start.None? || w.end.None? || w.text.None? then Err(MissingFields(w))
    else Ok(Cue(index, w.start.value, w.end.value, Caps(w.text.value, allCaps)))
  }

  function WordsFrom(words: seq<Word>, lo: nat, index: nat, allCaps: bool): Result<seq<Cue>, SrtError>
    decreases |words| - lo
  {
    if lo >= |words| then Ok([])
    else
      match WordCue(words[lo], index, allCaps)
      case Err(e) => Err(e)
      case Ok(cue) => Prepend([cue], WordsFrom(words, lo + 1, index + 1, allCaps))
  }

  /** What create_word_by_word_srt produces. */
  function WordByWordSrt(input: Words, allCaps: bool): Result<seq<Cue>, SrtError> {
    if input.NotAList? then Err(WordsNotAList)
    else if input.items == [] then Err(WordsEmpty)
    else WordsFrom(input.items, 0, 1, allCaps)
  }

  /** create_word_by_word_srt: returns `len(words)` (or the exception it
      raised) together with the cues written before returning or raising. */
  method CreateWordByWordSrt(input: Words, allCaps: bool)
    returns (result: Result<nat, SrtError>, written: seq<Cue>)
    ensures WordByWordSrt(input, allCaps) == if result.Ok? then Ok(written) else Err(result.error)
    ensures result.Ok? ==> input.WordList? && result.value == |input.items| == |written|
    ensures forall k :: 0 <= k < |written| ==> written[k].index == k + 1
  {
    written := [];
    if input.NotAList? {
      return Err(WordsNotAList), written;
    }
    var words := input.items;
    if words == [] {
      return Err(WordsEmpty), written;
    }
    var i := 0;
    PrependNothing(WordsFrom(words, i, i + 1, allCaps));
    while i < |words|
      invariant 0 <= i <= |words|
      invariant |written| == i
      invariant forall k :: 0 <= k < i ==> written[k].index == k + 1
      invariant WordByWordSrt(input, allCaps) == Prepend(written, WordsFrom(words, i, i + 1, allCaps))
    {
      var cue := WordCue(words[i], i + 1, allCaps);
      if cue.Err? {
        return Err(cue.error), written;
      }
      PrependTwice(written, [cue.value], WordsFrom(words, i + 1, i + 2, allCaps));
      written := written + [cue.value];
      i := i + 1;
    }
    assert written + [] == written;
    result := Ok(|words|);
  }

  lemma {:induction false} WordsFromShape(words: seq<Word>, lo: nat, index: nat, allCaps: bool)
    requires lo <= |words|
    ensures var r := WordsFrom(words, lo, index, allCaps);
      && (r.Ok? <==> forall j :: lo <= j < |words| ==> WordCue(words[j], index + j - lo, allCaps).Ok?)
      && (r.Ok? ==> |r.value| == |words| - lo)
      && (r.Ok? ==> forall k :: 0 <= k < |r.value| ==> Ok(r.value[k]) == WordCue(words[lo + k], index + k, allCaps))
    decreases |words| - lo
  {
    if lo < |words| {
      WordsFromShape(words, lo + 1, index + 1, allCaps);
      var r := WordsFrom(words, lo, index, allCaps);
      if r.Ok? {
        var rest := WordsFrom(words, lo + 1, index + 1, allCaps).value;
        assert r.value == [WordCue(words[lo], index, allCaps).value] + rest;
        forall k | 0 <= k < |r.value| ensures Ok(r.value[k]) == WordCue(words[lo + k], index + k, allCaps) {
          if k > 0 {
            assert r.value[k] == rest[k - 1];
          }
        }
      }
    }
  }

  /** Word-by-word mode emits exactly one cue per word, cue i (from 1) made of
      word i, and succeeds exactly when every word is a dictionary with
      'start', 'end' and 'text'. */
  lemma WordByWordShape(words: seq<Word>, allCaps: bool)
    requires words != []
    ensures var r := WordByWordSrt(WordList(words), allCaps);
      && (r.Ok? <==> forall j :: 0 <= j < |words| ==>
            words[j].Entry? && words[j].start.Some? && words[j].end.Some? && words[j].text.Some?)
      && (r.Ok? ==> |r.value| == |words| && forall k :: 0 <= k < |words| ==>
            r.value[k] == Cue(k + 1, words[k].start.value, words[k].end.value, Caps(words[k].text.value, allCaps)))
  {
    WordsFromShape(words, 0, 1, allCaps);
    var r := WordsFrom(words, 0, 1, allCaps);
    assert WordByWordSrt(WordList(words), allCaps) == r;
    forall j | 0 <= j < |words|
      ensures WordCue(words[j], 1 + j - 0, allCaps).Ok? <==>
        words[j].Entry? && words[j].start.Some? && words[j].end.Some? && words[j].text.Some?
    {
    }
    if r.Ok? {
      forall k | 0 <= k < |words|
        ensures r.value[k] == Cue(k + 1, words[k].start.value, words[k].end.value, Caps(words[k].text.value, allCaps))
      {
        assert Ok(r.value[k]) == WordCue(words[0 + k], 1 + k, allCaps);
      }
    }
  }

  lemma {:induction false} OnePerLineIsWordByWord(words: seq<Word>, lo: nat, index: nat, allCaps: bool)
    ensures GroupedFrom(words, lo, 1, index, allCaps) == WordsFrom(words, lo, index, allCaps)
    decreases |words| - lo
  {
    if lo < |words| {
      OnePerLineIsWordByWord(words, lo + 1, index + 1, allCaps);
      var w := words[lo];
      assert ChunkEnd(|words|, lo, 1) == lo + 1;
    }
  }

  /** Grouped mode with one word per line produces exactly what word-by-word
      mode produces, errors included. */
  lemma GroupedByOneIsWordByWord(input: Words, allCaps: bool)
    ensures GroupedSrt(input, 1, allCaps) == WordByWordSrt(input, allCaps)
  {
    if input.WordList? {
      OnePerLineIsWordByWord(input.items, 0, 1, allCaps);
    }
  }

  // ---------------------------------------------------------------------------
  // The written file, line by line
  // ---------------------------------------------------------------------------

  /** The timing line of a cue, without its line break. */
  function TimingLine(c: Cue): string {
    FormatTimestamp(c.start) + " --> " + FormatTimestamp(c.end)
  }

  /** What the writers put in the file for one cue: its number, its timing
      line and its text, each ended by `\n`, then a blank line. */
  function CueText(c: Cue): string {
    NatToString(c.index) + "\n" + TimingLine(c) + "\n" + c.text + "\n\n"
  }

  function SrtText(cues: seq<Cue>): string {
    if cues == [] then [] else CueText(cues[0]) + SrtText(cues[1..])
  }

  /** The lines one cue occupies when the file is read back: the number, the
      timing line, the lines the text breaks into, and the blank line. */
  function CueLines(c: Cue): seq<string> {
    [NatToString(c.index) + "\n", TimingLine(c) + "\n"] + ReadLines(c.text + "\n") + ["\n"]
  }

  function SrtLines(cues: seq<Cue>): seq<string> {
    if cues == [] then [] else CueLines(cues[0]) + SrtLines(cues[1..])
  }

  lemma DigitsNoBreak(s: string)
    requires AllDigits(s)
    ensures NoBreak(s)
  {
  }

  lemma PaddedNoBreak(n: nat, width: nat)
    ensures NoBreak(ZeroPad(NatToString(n), width))
  {
    ZeroPadValue(NatToString(n), width);
    DigitsNoBreak(ZeroPad(NatToString(n), width));
  }

  /** A timestamp holds no line break. */
  lemma TimestampNoBreak(seconds: real)
    ensures NoBreak(FormatTimestamp(seconds))
  {
    var h := Hours(seconds);
    if h >= 0 {
      PaddedNoBreak(h, 2);
    } else {
      PaddedNoBreak(-h, 1);
      NoBreakConcat("-", ZeroPad(NatToString(-h), 1));
    }
    var mm := ZeroPad(NatToString(Minutes(seconds)), 2);
    var ss := ZeroPad(NatToString(Seconds(seconds)), 2);
    var ms := ZeroPad(NatToString(Millis(seconds)), 3);
    PaddedNoBreak(Minutes(seconds), 2);
    PaddedNoBreak(Seconds(seconds), 2);
    PaddedNoBreak(Millis(seconds), 3);
    NoBreakConcat(":", mm);
    NoBreakConcat(":" + mm, ":");
    NoBreakConcat(":" + mm + ":", ss);
    NoBreakConcat(":" + mm + ":" + ss, ",");
    NoBreakConcat(":" + mm + ":" + ss + ",", ms);
    NoBreakConcat(FormatInt(h, 2), Clock(Minutes(seconds), Seconds(seconds), Millis(seconds)));
  }

  lemma TimingNoBreak(c: Cue)
    ensures NoBreak(TimingLine(c))
  {
    TimestampNoBreak(c.start);
    TimestampNoBreak(c.end);
    NoBreakConcat(FormatTimestamp(c.start), " --> ");
    NoBreakConcat(FormatTimestamp(c.start) + " --> ", FormatTimestamp(c.end));
  }

  /** A line without a break, its `\n`, then the rest of the file. */
  lemma LineThen(x: string, rest: string)
    requires NoBreak(x)
    ensures ReadLines(x + "\n" + rest) == [x + "\n"] + ReadLines(rest)
  {
    ReadLinesAppend(x + "\n", rest);
    OneLine(x);
  }

  /** A cue's text, its `\n`, the blank line, then the rest of the file. */
  lemma TextThen(text: string, rest: string)
    ensures ReadLines(text + "\n\n" + rest) == ReadLines(text + "\n") + ["\n"] + ReadLines(rest)
  {
    assert text + "\n\n" + rest == (text + "\n") + ([] + "\n" + rest);
    ReadLinesAppend(text + "\n", [] + "\n" + rest);
    LineThen([], rest);
    assert [] + "\n" == "\n";
  }

  /** Reading back the four parts of a cue and whatever follows them. */
  lemma CueParts(number: string, timing: string, text: string, rest: string)
    requires NoBreak(number) && NoBreak(timing)
    ensures ReadLines(number + "\n" + timing + "\n" + text + "\n\n" + rest)
      == [number + "\n", timing + "\n"] + ReadLines(text + "\n") + ["\n"] + ReadLines(rest)
  {
    var tail := text + "\n\n" + rest;
    assert number + "\n" + timing + "\n" + text + "\n\n" + rest == number + "\n" + (timing + "\n" + tail);
    LineThen(number, timing + "\n" + tail);
    LineThen(timing, tail);
    TextThen(text, rest);
  }

  /** Reading back one cue and whatever follows it. */
  lemma CueFileLines(c: Cue, rest: string)
    ensures ReadLines(CueText(c) + rest) == CueLines(c) + ReadLines(rest)
  {
    DigitsNoBreak(NatToString(c.index));
    TimingNoBreak(c);
    CueParts(NatToString(c.index), TimingLine(c), c.text, rest);
  }

  /** The file the writers produce reads back as the cues' lines: a text
      holding line breaks becomes several lines. */
  lemma {:induction false} SrtFileLines(cues: seq<Cue>)
    ensures ReadLines(SrtText(cues)) == SrtLines(cues)
  {
    if cues != [] {
      CueFileLines(cues[0], SrtText(cues[1..]));
      SrtFileLines(cues[1..]);
    }
  }
}
