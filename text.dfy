/** String helpers shared by the planner, the cue generator and the job
    orchestrator: Python's `str(int)` and zero-padded `d` formatting, the
    substring test `x in s`, `str.strip()`, `str.split()` with no argument,
    `str.join`, and ASCII case mapping. */
module Text {

  // ---------------------------------------------------------------------------
  // Decimal digits
  // ---------------------------------------------------------------------------

  predicate IsDigit(c: char) {
    '0' <= c <= '9'
  }

  predicate AllDigits(s: string) {
    forall i :: 0 <= i < |s| ==> IsDigit(s[i])
  }

  function DigitChar(d: nat): (c: char)
    requires d < 10
    ensures IsDigit(c) && c as int - '0' as int == d
  {
    (d + '0' as int) as char
  }

  /** Python's `str(n)` for a non-negative integer: no sign, no leading zero. */
  function NatToString(n: nat): (s: string)
    ensures 1 <= |s| && AllDigits(s)
    ensures s[0] == '0' ==> n == 0
  {
    if n < 10 then [DigitChar(n)] else NatToString(n / 10) + [DigitChar(n % 10)]
  }

  /** The number a string of decimal digits denotes (the empty string denotes 0). */
  function DigitsValue(s: string): nat
    requires AllDigits(s)
  {
    if s == [] then 0 else DigitsValue(s[..|s| - 1]) * 10 + (s[|s| - 1] as int - '0' as int)
  }

  function Pow10(k: nat): nat {
    if k == 0 then 1 else 10 * Pow10(k - 1)
  }

  /** Reading back the digits of `n` gives `n`. */
  lemma {:induction false} NatToStringRoundTrip(n: nat)
    ensures DigitsValue(NatToString(n)) == n
  {
    if n >= 10 {
      var s := NatToString(n);
      assert s[..|s| - 1] == NatToString(n / 10);
      NatToStringRoundTrip(n / 10);
    }
  }

  /** A number below 10^k needs at most k digits. */
  lemma {:induction false} NatToStringWidth(n: nat, k: nat)
    requires 1 <= k && n < Pow10(k)
    ensures |NatToString(n)| <= k
  {
    if n >= 10 {
      assert k >= 2;
      assert n / 10 < Pow10(k - 1);
      NatToStringWidth(n / 10, k - 1);
    }
  }

  function Repeat(c: char, n: nat): (s: string)
    ensures |s| == n
    ensures forall i :: 0 <= i < n ==> s[i] == c
  {
    if n == 0 then [] else [c] + Repeat(c, n - 1)
  }

  /** The zero padding of Python's `{x:0<width>d}`: zeros on the left up to `width`. */
  function ZeroPad(s: string, width: nat): string
  {
    if |s| < width then Repeat('0', width - |s|) + s else s
  }

  /** Zero padding never changes the number the digits denote. */
  lemma {:induction false} ZeroPadValue(s: string, width: nat)
    requires AllDigits(s)
    ensures AllDigits(ZeroPad(s, width))
    ensures |ZeroPad(s, width)| == if |s| < width then width else |s|
    ensures DigitsValue(ZeroPad(s, width)) == DigitsValue(s)
  {
    if |s| < width {
      LeadingZerosValue(width - |s|, s);
    }
  }

  lemma {:induction false} LeadingZerosValue(z: nat, s: string)
    requires AllDigits(s)
    ensures AllDigits(Repeat('0', z) + s)
    ensures DigitsValue(Repeat('0', z) + s) == DigitsValue(s)
    decreases |s|
  {
    var t := Repeat('0', z) + s;
    if s == [] {
      assert t == Repeat('0', z);
      ZerosValue(z);
    } else {
      assert t[..|t| - 1] == Repeat('0', z) + s[..|s| - 1];
      LeadingZerosValue(z, s[..|s| - 1]);
    }
  }

  lemma {:induction false} ZerosValue(z: nat)
    ensures AllDigits(Repeat('0', z))
    ensures DigitsValue(Repeat('0', z)) == 0
  {
    if z > 0 {
      var t := Repeat('0', z);
      assert t[..z - 1] == Repeat('0', z - 1);
      ZerosValue(z - 1);
    }
  }

  /** Python's `f"{i:0<width>d}"`: the sign counts towards the width and the
      zeros go between the sign and the digits. */
  function FormatInt(i: int, width: nat): string
  {
    if i >= 0 then ZeroPad(NatToString(i), width)
    else "-" + ZeroPad(NatToString(-i), if width > 0 then width - 1 else 0)
  }

  /** Python's `str(i)` for any integer. */
  function IntToString(i: int): string
  {
    if i >= 0 then NatToString(i) else "-" + NatToString(-i)
  }

  // ---------------------------------------------------------------------------
  // Substrings: Python's `pat in s`
  // ---------------------------------------------------------------------------

  predicate OccursAt(s: string, pat: string, i: nat) {
    i + |pat| <= |s| && s[i..i + |pat|] == pat
  }

  predicate Contains(s: string, pat: string) {
    exists i: nat :: i <= |s| && OccursAt(s, pat, i)
  }

  /** Whoever contains `p + q` contains `p`. */
  lemma ContainsPrefixOf(s: string, p: string, q: string)
    requires Contains(s, p + q)
    ensures Contains(s, p)
  {
    var i: nat :| i <= |s| && OccursAt(s, p + q, i);
    assert s[i..i + |p|] == (p + q)[..|p|];
    assert OccursAt(s, p, i);
  }

  /** `b` occurs in `a + b + c`. */
  lemma ContainsMiddle(a: string, b: string, c: string)
    ensures Contains(a + b + c, b)
  {
    var s := a + b + c;
    assert s[|a|..|a| + |b|] == b;
    assert OccursAt(s, b, |a|);
  }

  // ---------------------------------------------------------------------------
  // Whitespace as Python's str.isspace() sees it; strip(), split(), join()
  // ---------------------------------------------------------------------------

  predicate IsSpace(c: char) {
    || c == ' '
    || ('\t' <= c <= '\r')
    || ('\U{1C}' <= c <= '\U{1F}')
    || c == '\U{85}' || c == '\U{A0}' || c == '\U{1680}'
    || ('\U{2000}' <= c <= '\U{200A}')
    || c == '\U{2028}' || c == '\U{2029}' || c == '\U{202F}' || c == '\U{205F}' || c == '\U{3000}'
  }

  function TrimStart(s: string): (r: string)
    ensures |r| <= |s| && r == s[|s| - |r|..]
    ensures r == [] || !IsSpace(r[0])
    ensures forall i :: 0 <= i < |s| - |r| ==> IsSpace(s[i])
  {
    if s != [] && IsSpace(s[0]) then TrimStart(s[1..]) else s
  }

  function TrimEnd(s: string): (r: string)
    ensures |r| <= |s| && r == s[..|r|]
    ensures r == [] || !IsSpace(r[|r| - 1])
    ensures forall i :: |r| <= i < |s| ==> IsSpace(s[i])
  {
    if s != [] && IsSpace(s[|s| - 1]) then TrimEnd(s[..|s| - 1]) else s
  }

  /** Python's `s.strip()`. */
  function Strip(s: string): string {
    TrimEnd(TrimStart(s))
  }

  /** A word of `str.split()`: non-empty, without whitespace. */
  predicate IsWord(w: string) {
    w != [] && forall i :: 0 <= i < |w| ==> !IsSpace(w[i])
  }

  /** The longest prefix of `s` without whitespace. */
  function Token(s: string): (w: string)
    ensures |w| <= |s| && w == s[..|w|]
    ensures forall i :: 0 <= i < |w| ==> !IsSpace(w[i])
    ensures |w| == |s| || IsSpace(s[|w|])
    ensures s != [] && !IsSpace(s[0]) ==> w != []
  {
    if s == [] || IsSpace(s[0]) then [] else [s[0]] + Token(s[1..])
  }

  /** Python's `s.split()` with no separator: the maximal runs of non-whitespace. */
  function Split(s: string): (ws: seq<string>)
    ensures forall k :: 0 <= k < |ws| ==> IsWord(ws[k])
    decreases |s|
  {
    var t := TrimStart(s);
    if t == [] then []
    else
      var w := Token(t);
      var rest := Split(t[|w|..]);
      WordsCons(w, rest);
      [w] + rest
  }

  lemma WordsCons(w: string, rest: seq<string>)
    requires IsWord(w)
    requires forall k :: 0 <= k < |rest| ==> IsWord(rest[k])
    ensures forall k :: 0 <= k < 1 + |rest| ==> IsWord(([w] + rest)[k])
  {
    assert forall k :: 0 < k < 1 + |rest| ==> ([w] + rest)[k] == rest[k - 1];
  }

  /** Python's `sep.join(parts)`. */
  function Join(sep: string, parts: seq<string>): string
  {
    if parts == [] then ""
    else if |parts| == 1 then parts[0]
    else parts[0] + sep + Join(sep, parts[1..])
  }

  /** Python's `" ".join(s.split())`. */
  function CollapseWhitespace(s: string): string {
    Join(" ", Split(s))
  }

  lemma {:induction false} TokenOfWord(w: string, tail: string)
    requires IsWord(w)
    requires tail == [] || IsSpace(tail[0])
    ensures Token(w + tail) == w
    decreases |w|
  {
    var s := w + tail;
    assert s[0] == w[0];
    assert s[1..] == w[1..] + tail;
    if |w| == 1 {
      assert w[1..] == [];
      assert Token(s[1..]) == [];
    } else {
      TokenOfWord(w[1..], tail);
    }
  }

  /** A lone word splits into itself. */
  lemma SplitWord(w: string)
    requires IsWord(w)
    ensures Split(w) == [w]
  {
    assert w + [] == w;
    TokenOfWord(w, []);
    assert TrimStart(w) == w;
    assert w[|w|..] == [];
  }

  /** A word followed by a space splits off as the first word. */
  lemma SplitAfterWord(w: string, j: string)
    requires IsWord(w)
    ensures Split(w + " " + j) == [w] + Split(j)
  {
    var s := w + " " + j;
    assert s == w + (" " + j);
    TokenOfWord(w, " " + j);
    assert TrimStart(s) == s;
    assert s[|w|..] == " " + j;
    assert (" " + j)[1..] == j;
    assert Split(" " + j) == Split(j);
  }

  /** Every element of `ws` is a word. */
  predicate AllWords(ws: seq<string>) {
    forall k :: 0 <= k < |ws| ==> IsWord(ws[k])
  }

  /** Joining two or more parts puts the separator after the first. */
  lemma JoinCons(sep: string, ws: seq<string>)
    requires |ws| > 1
    ensures Join(sep, ws) == ws[0] + sep + Join(sep, ws[1..])
  {
  }

  lemma AllWordsTail(ws: seq<string>)
    requires AllWords(ws) && ws != []
    ensures AllWords(ws[1..]) && IsWord(ws[0]) && [ws[0]] + ws[1..] == ws
  {
    assert forall k :: 0 <= k < |ws| - 1 ==> ws[1..][k] == ws[k + 1];
  }

  /** Splitting words joined by single spaces gives the words back. */
  lemma {:induction false} SplitJoinRoundTrip(ws: seq<string>)
    requires AllWords(ws)
    ensures Split(Join(" ", ws)) == ws
  {
    if |ws| == 1 {
      SplitWord(ws[0]);
    } else if |ws| > 1 {
      AllWordsTail(ws);
      var rest := ws[1..];
      var j := Join(" ", rest);
      JoinCons(" ", ws);
      SplitAfterWord(ws[0], j);
      SplitJoinRoundTrip(rest);
    }
  }

  /** A run of whitespace, possibly empty. */
  predicate AllSpace(g: string) {
    forall i :: 0 <= i < |g| ==> IsSpace(g[i])
  }

  /** `gaps[0] + ws[0] + gaps[1] + ... + ws[n - 1] + gaps[n]`. */
  function Weave(gaps: seq<string>, ws: seq<string>): string
    requires |gaps| == |ws| + 1
    decreases |ws|
  {
    if ws == [] then gaps[0] else gaps[0] + ws[0] + Weave(gaps[1..], ws[1..])
  }

  /** `s` is the words `ws` separated by whitespace gaps: the gaps before the
      first and after the last word may be empty, the gaps between words may
      not. */
  predicate WeaveOf(gaps: seq<string>, ws: seq<string>, s: string) {
    && |gaps| == |ws| + 1
    && (forall k :: 0 <= k < |gaps| ==> AllSpace(gaps[k]))
    && (forall k :: 0 < k < |ws| ==> gaps[k] != [])
    && Weave(gaps, ws) == s
  }

  /** Prepending a gap and a word to a weave. */
  lemma WeaveCons(g: string, w: string, more: seq<string>, ws: seq<string>, rest: string)
    requires WeaveOf(more, ws, rest) && AllSpace(g)
    requires ws != [] ==> more[0] != []
    ensures WeaveOf([g] + more, [w] + ws, g + w + rest)
  {
    var gaps := [g] + more;
    assert gaps[1..] == more && ([w] + ws)[1..] == ws;
    assert forall k :: 0 < k < |gaps| ==> gaps[k] == more[k - 1];
  }

  /** Whitespace at the front is trimmed. */
  lemma TrimStartShortens(s: string)
    requires s != [] && IsSpace(s[0])
    ensures |TrimStart(s)| < |s|
  {
  }

  /** `s` is its leading whitespace followed by `TrimStart(s)`. */
  lemma LeadingGap(s: string)
    ensures s == s[..|s| - |TrimStart(s)|] + TrimStart(s)
    ensures AllSpace(s[..|s| - |TrimStart(s)|])
  {
  }

  /** The first step of `Split` on a string that holds a word. */
  lemma SplitStep(s: string)
    requires TrimStart(s) != []
    ensures var t := TrimStart(s); var w := Token(t);
      Split(s) == [w] + Split(t[|w|..])
  {
  }

  /** What follows the first token is empty or starts with whitespace. */
  lemma TokenRest(t: string)
    ensures t == Token(t) + t[|Token(t)|..]
    ensures t[|Token(t)|..] != [] ==> |TrimStart(t[|Token(t)|..])| < |t[|Token(t)|..]|
  {
    var w := Token(t);
    var rest := t[|w|..];
    assert t == w + rest by {
      assert w == t[..|w|];
    }
    if rest != [] {
      assert IsSpace(t[|w|]) && rest[0] == t[|w|];
      TrimStartShortens(rest);
    }
  }

  /** One step of the weave: a gap and a word in front of a woven rest. */
  lemma WeaveStep(s: string, g: string, t: string, w: string, rest: string, more: seq<string>, ws: seq<string>)
    requires s == g + t && t == w + rest && AllSpace(g)
    requires WeaveOf(more, ws, rest)
    requires ws != [] ==> more[0] != []
    ensures WeaveOf([g] + more, [w] + ws, s) && ([g] + more)[0] == g
  {
    WeaveCons(g, w, more, ws, rest);
    assert g + w + rest == s;
  }

  /** The gaps around the pieces of `Split(s)`; the first is the leading
      whitespace of `s`. */
  lemma {:induction false} SplitGaps(s: string) returns (gaps: seq<string>)
    ensures WeaveOf(gaps, Split(s), s)
    ensures gaps[0] == s[..|s| - |TrimStart(s)|]
    decreases |s|
  {
    LeadingGap(s);
    var t := TrimStart(s);
    var g := s[..|s| - |t|];
    if t == [] {
      gaps := [g];
      assert Weave(gaps, []) == g;
    } else {
      SplitStep(s);
      var w := Token(t);
      var rest := t[|w|..];
      TokenRest(t);
      var more := SplitGaps(rest);
      WeaveStep(s, g, t, w, rest, more, Split(rest));
      gaps := [g] + more;
    }
  }

  /** `str.split()` cuts `s` into its words exactly: `s` is those words
      separated by non-empty whitespace gaps, with optional whitespace
      before the first and after the last. */
  lemma SplitIsWeave(s: string)
    ensures AllWords(Split(s))
    ensures exists gaps :: WeaveOf(gaps, Split(s), s)
  {
    var gaps := SplitGaps(s);
  }

  /** Leading whitespace in front of a string that starts with a
      non-space is exactly what `TrimStart` removes. */
  lemma {:induction false} TrimStartSpaces(g: string, x: string)
    requires AllSpace(g) && (x == [] || !IsSpace(x[0]))
    ensures TrimStart(g + x) == x
    decreases |g|
  {
    if g == [] {
      assert g + x == x;
    } else {
      assert (g + x)[0] == g[0];
      assert (g + x)[1..] == g[1..] + x;
      TrimStartSpaces(g[1..], x);
    }
  }

  /** A weave whose first gap is non-empty when a word follows starts with
      whitespace, if it is not empty. */
  lemma {:induction false} WeaveHead(gaps: seq<string>, ws: seq<string>)
    requires |gaps| == |ws| + 1 && AllSpace(gaps[0])
    requires ws != [] ==> gaps[0] != []
    ensures var r := Weave(gaps, ws); r == [] || IsSpace(r[0])
  {
    if ws != [] {
      var r := Weave(gaps, ws);
      var tail := ws[0] + Weave(gaps[1..], ws[1..]);
      assert r == gaps[0] + tail;
      assert (gaps[0] + tail)[0] == gaps[0][0];
    }
  }

  /** Dropping the first gap and word of a weave leaves a weave. */
  lemma {:induction false} WeaveTail(gaps: seq<string>, ws: seq<string>, s: string)
    requires WeaveOf(gaps, ws, s) && ws != []
    ensures WeaveOf(gaps[1..], ws[1..], Weave(gaps[1..], ws[1..]))
    ensures s == gaps[0] + (ws[0] + Weave(gaps[1..], ws[1..]))
    ensures Weave(gaps[1..], ws[1..]) == [] || IsSpace(Weave(gaps[1..], ws[1..])[0])
  {
    var g := gaps[1..];
    assert forall k :: 0 <= k < |g| ==> g[k] == gaps[k + 1];
    WeaveHead(g, ws[1..]);
  }

  /** Conversely, words woven with whitespace gaps split back into exactly
      those words. */
  lemma {:induction false} SplitOfWeave(gaps: seq<string>, ws: seq<string>, s: string)
    requires WeaveOf(gaps, ws, s) && AllWords(ws)
    ensures Split(s) == ws
    decreases |ws|
  {
    if ws == [] {
      TrimStartSpaces(gaps[0], []);
      assert gaps[0] + [] == gaps[0];
    } else {
      AllWordsTail(ws);
      var w := ws[0];
      var rest := Weave(gaps[1..], ws[1..]);
      WeaveTail(gaps, ws, s);
      TrimStartSpaces(gaps[0], w + rest);
      TokenOfWord(w, rest);
      SplitStep(s);
      assert (w + rest)[|w|..] == rest;
      SplitOfWeave(gaps[1..], ws[1..], rest);
    }
  }

  /** Collapsing a weave of words leaves the words joined by single spaces. */
  lemma CollapseOfWeave(gaps: seq<string>, ws: seq<string>, s: string)
    requires WeaveOf(gaps, ws, s) && AllWords(ws)
    ensures CollapseWhitespace(s) == Join(" ", ws)
  {
    SplitOfWeave(gaps, ws, s);
  }

  /** Collapsing whitespace a second time changes nothing. */
  lemma CollapseIdempotent(s: string)
    ensures CollapseWhitespace(CollapseWhitespace(s)) == CollapseWhitespace(s)
  {
    SplitJoinRoundTrip(Split(s));
  }

  // ---------------------------------------------------------------------------
  // ASCII case mapping and character replacement
  // ---------------------------------------------------------------------------

  function UpperChar(c: char): char {
    if 'a' <= c <= 'z' then (c as int - 32) as char else c
  }

  function LowerChar(c: char): char {
    if 'A' <= c <= 'Z' then (c as int + 32) as char else c
  }

  /** `s.upper()` restricted to ASCII letters. */
  function Upper(s: string): string {
    seq(|s|, i requires 0 <= i < |s| => UpperChar(s[i]))
  }

  /** `s.lower()` restricted to ASCII letters. */
  function Lower(s: string): string {
    seq(|s|, i requires 0 <= i < |s| => LowerChar(s[i]))
  }

  /** Python's `s.replace(from, to)` for single characters. */
  function ReplaceChar(s: string, from: char, to: char): string {
    seq(|s|, i requires 0 <= i < |s| => if s[i] == from then to else s[i])
  }

  // ---------------------------------------------------------------------------
  // Reading a text file back: `f.readlines()` with universal newlines
  // ---------------------------------------------------------------------------

  /** The characters a text-mode read treats as a line break: `\n`, and `\r`
      alone or followed by `\n`. */
  predicate IsBreak(c: char) {
    c == '\n' || c == '\r'
  }

  predicate NoBreak(s: string) {
    forall k :: 0 <= k < |s| ==> !IsBreak(s[k])
  }

  lemma NoBreakConcat(a: string, b: string)
    ensures NoBreak(a + b) <==> NoBreak(a) && NoBreak(b)
  {
    assert forall k :: 0 <= k < |a| ==> (a + b)[k] == a[k];
    assert forall k :: 0 <= k < |b| ==> (a + b)[|a| + k] == b[k];
  }

  /** The characters the break at the front of `s` takes: two for `\r\n`. */
  function BreakLen(s: string): (n: nat)
    requires s != [] && IsBreak(s[0])
    ensures 1 <= n <= |s|
  {
    if s[0] == '\r' && |s| > 1 && s[1] == '\n' then 2 else 1
  }

  /** The lines `readlines()` returns for a file holding `s`, after the
      characters `cur` of an unfinished line: each break is translated to
      `\n` and ends its line; the last line may have none. */
  function ReadFrom(s: string, cur: string): seq<string>
    decreases |s|
  {
    if s == [] then (if cur == [] then [] else [cur])
    else if IsBreak(s[0]) then [cur + "\n"] + ReadFrom(s[BreakLen(s)..], [])
    else ReadFrom(s[1..], cur + [s[0]])
  }

  function ReadLines(s: string): seq<string> {
    ReadFrom(s, [])
  }

  /** A line as read: non-empty, with no break but a final `\n`, which only
      the last line may lack. */
  predicate WellLine(line: string, last: bool) {
    && line != []
    && NoBreak(line[..|line| - 1])
    && (!last ==> line[|line| - 1] == '\n')
  }

  predicate WellRead(r: seq<string>) {
    forall k :: 0 <= k < |r| ==> WellLine(r[k], k == |r| - 1)
  }

  /** A line ended by a break is well read, wherever it stands. */
  lemma EndedLine(cur: string, last: bool)
    requires NoBreak(cur)
    ensures WellLine(cur + "\n", last)
  {
    var line := cur + "\n";
    assert line[..|line| - 1] == cur;
  }

  /** Every line read is non-empty, holds no break but a final `\n`, and
      every line except the last ends with one. */
  lemma {:induction false} ReadFromShape(s: string, cur: string)
    requires NoBreak(cur)
    ensures WellRead(ReadFrom(s, cur))
    decreases |s|
  {
    if s == [] {
      if cur != [] {
        assert forall k :: 0 <= k < |cur| - 1 ==> cur[..|cur| - 1][k] == cur[k];
        assert WellLine(cur, true);
      }
    } else if IsBreak(s[0]) {
      var tail := ReadFrom(s[BreakLen(s)..], []);
      ReadFromShape(s[BreakLen(s)..], []);
      var r := [cur + "\n"] + tail;
      forall k | 0 <= k < |r|
        ensures WellLine(r[k], k == |r| - 1)
      {
        if k == 0 {
          EndedLine(cur, k == |r| - 1);
        } else {
          assert r[k] == tail[k - 1];
        }
      }
    } else {
      NoBreakConcat(cur, [s[0]]);
      ReadFromShape(s[1..], cur + [s[0]]);
    }
  }

  lemma ReadLinesShape(s: string)
    ensures WellRead(ReadLines(s))
  {
    ReadFromShape(s, []);
  }

  /** The step of `ReadFromAppend` at a break in the first part. */
  lemma ReadFromAppendBreak(a: string, b: string, cur: string)
    requires a != [] && IsBreak(a[0]) && a[|a| - 1] == '\n'
    ensures BreakLen(a + b) == BreakLen(a)
    ensures (a + b)[BreakLen(a)..] == a[BreakLen(a)..] + b
    ensures ReadFrom(a + b, cur) == [cur + "\n"] + ReadFrom(a[BreakLen(a)..] + b, [])
  {
    assert (a + b)[0] == a[0];
    if a[0] == '\r' {
      assert |a| > 1 && (a + b)[1] == a[1];
    }
  }

  /** A file read in two parts, split after a line break, gives the lines
      of the first part followed by those of the second. */
  lemma {:induction false} ReadFromAppend(a: string, b: string, cur: string)
    requires a != [] && a[|a| - 1] == '\n'
    ensures ReadFrom(a + b, cur) == ReadFrom(a, cur) + ReadFrom(b, [])
    decreases |a|
  {
    assert (a + b)[0] == a[0];
    if IsBreak(a[0]) {
      ReadFromAppendBreak(a, b, cur);
      var rest := a[BreakLen(a)..];
      var line := cur + "\n";
      if rest == [] {
        assert rest + b == b;
      } else {
        assert rest[|rest| - 1] == a[|a| - 1];
        ReadFromAppend(rest, b, []);
        assert [line] + (ReadFrom(rest, []) + ReadFrom(b, [])) == ([line] + ReadFrom(rest, [])) + ReadFrom(b, []);
      }
    } else {
      assert (a + b)[1..] == a[1..] + b;
      assert a[1..][|a[1..]| - 1] == a[|a| - 1];
      ReadFromAppend(a[1..], b, cur + [a[0]]);
    }
  }

  lemma ReadLinesAppend(a: string, b: string)
    requires a != [] && a[|a| - 1] == '\n'
    ensures ReadLines(a + b) == ReadLines(a) + ReadLines(b)
  {
    ReadFromAppend(a, b, []);
  }

  /** The rest of a line without a break, then `\n`, ends the current line. */
  lemma {:induction false} ReadFromOneLine(s: string, cur: string)
    requires NoBreak(s)
    ensures ReadFrom(s + "\n", cur) == [cur + s + "\n"]
    decreases |s|
  {
    var t := s + "\n";
    if s == [] {
      assert t == "\n" && BreakLen(t) == 1;
      assert ReadFrom(t, cur) == [cur + "\n"] + ReadFrom([], []);
      assert cur + s + "\n" == cur + "\n";
    } else {
      assert t[0] == s[0] && !IsBreak(s[0]);
      assert t[1..] == s[1..] + "\n";
      assert NoBreak(s[1..]) by {
        assert forall k :: 0 <= k < |s| - 1 ==> s[1..][k] == s[k + 1];
      }
      ReadFromOneLine(s[1..], cur + [s[0]]);
      assert (cur + [s[0]]) + s[1..] == cur + s;
    }
  }

  /** A line without a break, followed by `\n`, reads back as one line. */
  lemma OneLine(s: string)
    requires NoBreak(s)
    ensures ReadLines(s + "\n") == [s + "\n"]
  {
    ReadFromOneLine(s, []);
    assert [] + s == s;
  }
}
