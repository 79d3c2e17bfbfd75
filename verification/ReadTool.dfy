/** The Read tool: what survives decoding, splitting, cutting and joining. */
module ReadTool {
  import opened Sequences
  import opened Text
  import opened Utf8

  const MAX_BYTES: nat := 262144
  const MAX_LINES: nat := 5000

  datatype ReadResult = ReadResult(content: string, bytesReturned: nat, linesReturned: nat, truncated: bool)

  function Min(a: nat, b: nat): nat {
    if a < b then a else b
  }

  /** Each line with a line feed after it. */
  function Terminated(lines: seq<string>): string {
    if lines == [] then "" else Terminated(lines[..|lines| - 1]) + (lines[|lines| - 1] + "\n")
  }

  /** `"\n".join(lines)` */
  function JoinLines(lines: seq<string>): string {
    if lines == [] then "" else Terminated(lines[..|lines| - 1]) + lines[|lines| - 1]
  }

  predicate EndsWithLf(s: string) {
    s != "" && s[|s| - 1] == '\n'
  }

  /** The lines that are returned, joined, with a last line feed if the file has one. */
  function Content(lines: seq<string>, ends: bool): string {
    JoinLines(lines) + if lines != [] && ends then "\n" else ""
  }

  /** The decoded file. */
  function TextOf(data: seq<Byte>): string {
    Decode(data, 0, |data|)
  }

  function Execute(data: seq<Byte>): ReadResult {
    var text := TextOf(data);
    var totalLines := |SplitLines(text)|;
    var bytesReturned, linesReturned := Min(|data|, MAX_BYTES), Min(totalLines, MAX_LINES);
    var allLines := SplitLines(Decode(data, 0, bytesReturned));
    var lines := allLines[..Min(|allLines|, linesReturned)];
    ReadResult(Content(lines, EndsWithLf(text)), bytesReturned, linesReturned, |data| > MAX_BYTES || totalLines > MAX_LINES)
  }

  // ----- splitting and joining --------------------------------------------------------------------

  /** The only line breaks are line feeds. */
  predicate OnlyLf(s: string) {
    forall i :: 0 <= i < |s| && IsLineBreak(s[i]) ==> s[i] == '\n'
  }

  lemma TerminatedPush(lines: seq<string>, line: string)
    ensures Terminated(lines + [line]) == Terminated(lines) + (line + "\n")
    ensures JoinLines(lines + [line]) == Terminated(lines) + line
  {
    assert (lines + [line])[..|lines|] == lines;
  }

  lemma {:induction false} TerminatedFront(line: string, lines: seq<string>)
    ensures Terminated([line] + lines) == line + "\n" + Terminated(lines)
  {
    if lines == [] {
      assert [line] + lines == [] + [line];
      TerminatedPush([], line);
    } else {
      var front, last := lines[..|lines| - 1], lines[|lines| - 1];
      TerminatedFront(line, front);
      TerminatedPush([line] + front, last);
      assert [line] + lines == [line] + front + [last];
      Regroup(line + "\n", Terminated(front), last + "\n");
    }
  }

  lemma JoinIsTerminated(lines: seq<string>)
    requires lines != []
    ensures JoinLines(lines) + "\n" == Terminated(lines)
  {
  }

  lemma JoinFront(line: string, lines: seq<string>)
    requires lines != []
    ensures JoinLines([line] + lines) == line + "\n" + JoinLines(lines)
  {
    var front, last := lines[..|lines| - 1], lines[|lines| - 1];
    assert [line] + lines == [line] + front + [last];
    TerminatedPush([line] + front, last);
    TerminatedFront(line, front);
  }

  // ----- line breaks as line feeds ----------------------------------------------------------------

  /** The text with every line break, a carriage return with its line feed included, made a line feed. */
  function Normalized(s: string): string
    decreases |s|
  {
    var n := LineLength(s);
    if n == |s| then s else s[..n] + "\n" + Normalized(s[n + BreakLength(s, n)..])
  }

  /** A line feed, if the text ends in any line break. */
  function LastBreak(s: string): string {
    if s != "" && IsLineBreak(s[|s| - 1]) then "\n" else ""
  }

  /** A line feed, if the text ends in one. */
  function End(s: string): string {
    if EndsWithLf(s) then "\n" else ""
  }

  lemma NormalizedLine(s: string, rest: string)
    requires LineLength(s) < |s| && rest == s[LineLength(s) + BreakLength(s, LineLength(s))..]
    ensures Normalized(s) == s[..LineLength(s)] + "\n" + Normalized(rest)
  {
  }

  lemma NoLines(s: string)
    ensures s == "" <==> SplitLines(s) == []
  {
  }

  lemma LastBreakOfRest(s: string, k: nat, rest: string)
    requires 0 < k <= |s| && IsLineBreak(s[k - 1]) && rest == s[k..]
    ensures SplitLines(rest) == [] ==> LastBreak(s) == "\n" && LastBreak(rest) == ""
    ensures SplitLines(rest) != [] ==> LastBreak(s) == LastBreak(rest)
  {
    NoLines(rest);
  }

  /** Joining the lines of a text normalizes it, up to its last line break. */
  lemma {:induction false} Rejoin(s: string)
    ensures JoinLines(SplitLines(s)) + LastBreak(s) == Normalized(s)
    decreases |s|
  {
    var n := LineLength(s);
    if n == |s| {
      RejoinOnly(s);
    } else {
      var k := n + BreakLength(s, n);
      var first, rest := s[..n], s[k..];
      Rejoin(rest);
      SplitFirst(s, n, first, rest);
      NormalizedLine(s, rest);
      LastBreakOfRest(s, k, rest);
      RejoinFirst(SplitLines(s), LastBreak(s), Normalized(s), first, SplitLines(rest), LastBreak(rest), Normalized(rest));
    }
  }

  lemma {:induction false} RejoinOnly(s: string)
    requires LineLength(s) == |s|
    ensures s != "" ==> SplitLines(s) == [s]
    ensures JoinLines(SplitLines(s)) == s && LastBreak(s) == ""
  {
    assert s[..|s|] == s;
    if s != "" {
      TerminatedPush([], s);
      assert [] + [s] == [s];
      NoBreakBefore(s, |s|, |s| - 1);
    }
  }

  lemma RejoinFirst(whole: seq<string>, end: string, normal: string,
                    first: string, lines: seq<string>, restEnd: string, rest: string)
    requires whole == [first] + lines && normal == first + "\n" + rest && JoinLines(lines) + restEnd == rest
    requires if lines == [] then restEnd == "" && end == "\n" else end == restEnd
    ensures JoinLines(whole) + end == normal
  {
    RejoinParts(first, lines, restEnd, rest);
  }

  lemma RejoinParts(first: string, lines: seq<string>, end: string, rest: string)
    requires JoinLines(lines) + end == rest && (lines == [] ==> end == "")
    ensures JoinLines([first] + lines) + (if lines == [] then "\n" else end) == first + "\n" + rest
  {
    if lines == [] {
      TerminatedPush([], first);
      assert [] + [first] == [first] + [];
    } else {
      JoinFront(first, lines);
      Regroup(first + "\n", JoinLines(lines), end);
    }
  }

  lemma {:induction false} NormalizedShort(s: string)
    ensures |Normalized(s)| <= |s|
    decreases |s|
  {
    var n := LineLength(s);
    if n < |s| {
      NormalizedShort(s[n + BreakLength(s, n)..]);
    }
  }

  lemma OnlyLfConcat(a: string, b: string)
    requires OnlyLf(a) && OnlyLf(b)
    ensures OnlyLf(a + b)
  {
  }

  lemma {:induction false} NormalizedOnlyLf(s: string)
    ensures OnlyLf(Normalized(s))
    decreases |s|
  {
    var n := LineLength(s);
    if n == |s| {
      assert s[..n] == s;
    } else {
      var rest := s[n + BreakLength(s, n)..];
      NormalizedOnlyLf(rest);
      NormalizedLine(s, rest);
      OnlyLfConcat(s[..n], "\n");
      OnlyLfConcat(s[..n] + "\n", Normalized(rest));
    }
  }

  lemma CutAtLf(s: string, n: nat)
    requires n < |s| && OnlyLf(s) && IsLineBreak(s[n])
    ensures BreakLength(s, n) == 1 && s == s[..n] + "\n" + s[n + 1..] && OnlyLf(s[n + 1..])
  {
    assert s == s[..n] + [s[n]] + s[n + 1..];
  }

  lemma {:induction false} NormalizedSame(s: string)
    requires OnlyLf(s)
    ensures Normalized(s) == s
    decreases |s|
  {
    var n := LineLength(s);
    if n < |s| {
      CutAtLf(s, n);
      NormalizedSame(s[n + 1..]);
      NormalizedLine(s, s[n + 1..]);
    }
  }

  /** The texts that normalizing leaves alone. */
  lemma NormalizedIff(s: string)
    ensures Normalized(s) == s <==> OnlyLf(s)
  {
    NormalizedOnlyLf(s);
    if OnlyLf(s) {
      NormalizedSame(s);
    }
  }

  lemma PrefixBehind(first: string, a: string, b: string)
    requires a <= b
    ensures first + "\n" + a <= first + "\n" + b
  {
  }

  /** A first part of a text normalizes to a first part. */
  lemma {:induction false} NormalizedPrefix(a: string, b: string)
    requires a <= b
    ensures Normalized(a) <= Normalized(b)
    decreases |a|
  {
    var m := LineLength(a);
    if m == |a| {
      LineGoesOn(a, b);
    } else {
      assert b[..m] == a[..m];
      LineLengthUnique(b, m);
      var i, j := m + BreakLength(a, m), m + BreakLength(b, m);
      NormalizedLine(a, a[i..]);
      NormalizedLine(b, b[j..]);
      if i == j {
        assert a[i..] <= b[i..];
        NormalizedPrefix(a[i..], b[i..]);
      } else {
        assert a[i..] == "";
      }
      PrefixBehind(a[..m], Normalized(a[i..]), Normalized(b[j..]));
    }
  }

  lemma LineGoesOn(a: string, b: string)
    requires a <= b && LineLength(a) == |a|
    ensures a <= b[..LineLength(b)] && a <= Normalized(b)
  {
    assert a[..|a|] == a;
    forall i | 0 <= i < |a|
      ensures !IsLineBreak(a[i])
    {
      NoBreakBefore(a, |a|, i);
    }
  }

  lemma OneLineConcat(a: string, b: string)
    requires OneLine(a) && OneLine(b)
    ensures OneLine(a + b)
  {
  }

  lemma {:induction false} LineLengthBehind(a: string, b: string, t: string)
    requires t == a + b && LineLength(a) == |a|
    ensures LineLength(t) == |a| + LineLength(b)
  {
    var n := LineLength(b);
    assert a[..|a|] == a && t[..|a| + n] == a + b[..n];
    OneLineConcat(a, b[..n]);
    LineLengthUnique(t, |a| + n);
  }

  lemma {:induction false} LineLengthFirst(a: string, b: string, t: string)
    requires t == a + b && LineLength(a) < |a|
    ensures LineLength(t) == LineLength(a)
  {
    var n := LineLength(a);
    assert t[..n] == a[..n];
    LineLengthUnique(t, n);
  }

  /** Between the two lies a carriage return that has its line feed behind it. */
  predicate Tears(a: string, b: string) {
    a != "" && b != "" && a[|a| - 1] == '\r' && b[0] == '\n'
  }

  lemma {:induction false} ConcatOnly(a: string, b: string, t: string)
    requires t == a + b && LineLength(a) == |a|
    ensures Normalized(t) == a + Normalized(b)
  {
    LineLengthBehind(a, b, t);
    if LineLength(b) < |b| {
      ConcatMore(a, b, t, LineLength(b));
    }
  }

  lemma {:induction false} ConcatMore(a: string, b: string, t: string, n: nat)
    requires t == a + b && n == LineLength(b) < |b| && LineLength(t) == |a| + n
    ensures Normalized(t) == a + Normalized(b)
  {
    var m, rest := |a| + n, b[n + BreakLength(b, n)..];
    SlicesBehind(a, b, t, n);
    ConcatLine(a, b, t, n, m, rest);
  }

  lemma {:induction false} ConcatLine(a: string, b: string, t: string, n: nat, m: nat, rest: string)
    requires n == LineLength(b) < |b| && m == LineLength(t) < |t|
    requires rest == b[n + BreakLength(b, n)..] && rest == t[m + BreakLength(t, m)..]
    requires t[..m] == a + b[..n]
    ensures Normalized(t) == a + Normalized(b)
  {
    NormalizedLine(t, rest);
    NormalizedLine(b, rest);
    ConcatParts(a, b[..n], Normalized(rest));
  }

  lemma SlicesBehind(a: string, b: string, t: string, n: nat)
    requires t == a + b && n < |b|
    ensures BreakLength(t, |a| + n) == BreakLength(b, n)
    ensures t[..|a| + n] == a + b[..n]
    ensures t[|a| + n + BreakLength(b, n)..] == b[n + BreakLength(b, n)..]
  {
  }

  lemma ConcatParts(a: string, line: string, rest: string)
    ensures a + line + "\n" + rest == a + (line + "\n" + rest)
  {
  }

  lemma {:induction false} ConcatBehind(a: string, b: string, n: nat, k: nat, t: string)
    requires t == a + b && !Tears(a, b) && n == LineLength(a) < |a| && k == n + BreakLength(a, n)
    ensures Normalized(t) == a[..n] + "\n" + Normalized(a[k..] + b)
  {
    LineLengthFirst(a, b, t);
    assert BreakLength(t, n) == BreakLength(a, n);
    assert t[..n] == a[..n] && t[k..] == a[k..] + b;
    NormalizedLine(t, t[k..]);
  }

  /** Normalizing distributes wherever no carriage return is torn from its line feed. */
  lemma {:induction false} NormalizedConcat(a: string, b: string)
    requires !Tears(a, b)
    ensures Normalized(a + b) == Normalized(a) + Normalized(b)
    decreases |a|
  {
    var n := LineLength(a);
    if n == |a| {
      ConcatOnly(a, b, a + b);
    } else {
      var k := n + BreakLength(a, n);
      assert !Tears(a[k..], b);
      NormalizedConcat(a[k..], b);
      ConcatBehind(a, b, n, k, a + b);
      NormalizedLine(a, a[k..]);
      Regroup(a[..n] + "\n", Normalized(a[k..]), Normalized(b));
    }
  }

  lemma NormalizedMark(p: string)
    ensures Normalized([REPLACEMENT]) == [REPLACEMENT]
    ensures Normalized(p + [REPLACEMENT]) == Normalized(p) + [REPLACEMENT]
  {
    NormalizedSame([REPLACEMENT]);
    NormalizedConcat(p, [REPLACEMENT]);
  }

  // ----- joining the first lines ------------------------------------------------------------------

  lemma {:induction false} TerminatedPrefix(lines: seq<string>, k: nat)
    requires k <= |lines|
    ensures Terminated(lines[..k]) <= Terminated(lines)
  {
    if k < |lines| {
      TerminatedPrefix(lines[..|lines| - 1], k);
      assert lines[..|lines| - 1][..k] == lines[..k];
    } else {
      assert lines[..k] == lines;
    }
  }

  /** The first lines, joined, begin the whole; so do they with their last line feed. */
  lemma JoinPrefix(lines: seq<string>, k: nat)
    requires k <= |lines|
    ensures JoinLines(lines[..k]) <= JoinLines(lines)
    ensures 0 < k < |lines| ==> JoinLines(lines[..k]) + "\n" <= JoinLines(lines)
  {
    if k == |lines| {
      assert lines[..k] == lines;
    } else if k > 0 {
      var front := lines[..|lines| - 1];
      TerminatedPrefix(front, k);
      assert front[..k] == lines[..k];
      JoinIsTerminated(lines[..k]);
    }
  }

  predicate AllOneLine(lines: seq<string>) {
    forall i :: 0 <= i < |lines| ==> OneLine(lines[i])
  }

  lemma {:induction false} LinesAreOneLine(s: string)
    ensures AllOneLine(SplitLines(s))
    decreases |s|
  {
    if s != "" {
      var n := LineLength(s);
      if n == |s| {
        assert s[..n] == s;
      } else {
        LinesAreOneLine(s[n + BreakLength(s, n)..]);
      }
    }
  }

  lemma TerminatedComplete(lines: seq<string>)
    ensures Complete(Terminated(lines))
  {
  }

  lemma {:induction false} SplitTerminated(lines: seq<string>)
    requires AllOneLine(lines)
    ensures SplitLines(Terminated(lines)) == lines
  {
    if lines != [] {
      SplitTerminated(lines[..|lines| - 1]);
      SplitStep(Terminated(lines[..|lines| - 1]), lines[..|lines| - 1], lines[|lines| - 1]);
    }
  }

  lemma SplitStep(t: string, front: seq<string>, last: string)
    requires t == Terminated(front) && SplitLines(t) == front && OneLine(last)
    ensures SplitLines(t + (last + "\n")) == front + [last]
  {
    TerminatedComplete(front);
    SplitConcat(t, last + "\n");
    OneLineIff(last);
  }

  lemma OneLineSplits(s: string)
    requires OneLine(s)
    ensures |SplitLines(s)| <= 1
  {
    assert s[..|s|] == s;
    LineLengthUnique(s, |s|);
  }

  /** Joined lines are no more lines than before. */
  lemma JoinedLines(lines: seq<string>)
    requires AllOneLine(lines)
    ensures |SplitLines(JoinLines(lines))| <= |lines|
    ensures lines != [] ==> |SplitLines(JoinLines(lines) + "\n")| == |lines|
  {
    if lines != [] {
      var front, last := lines[..|lines| - 1], lines[|lines| - 1];
      SplitTerminated(front);
      TerminatedComplete(front);
      SplitConcat(Terminated(front), last);
      OneLineSplits(last);
      JoinIsTerminated(lines);
      SplitTerminated(lines);
    }
  }

  // ----- what a read returns ----------------------------------------------------------------------

  lemma ContentIs(lines: seq<string>, ends: bool)
    ensures Content(lines, ends) == if lines != [] && ends then JoinLines(lines) + "\n" else JoinLines(lines)
  {
    assert JoinLines(lines) + "" == JoinLines(lines);
  }

  /** The lines of a text that are returned without any cut, and what is missing at the end. */
  lemma WholeContent(s: string, lines: seq<string>)
    requires lines == SplitLines(s)
    ensures Content(lines, EndsWithLf(s)) == JoinLines(lines) + End(s)
    ensures End(s) == LastBreak(s) ==> Content(lines, EndsWithLf(s)) == Normalized(s)
    ensures End(s) != LastBreak(s) ==> Content(lines, EndsWithLf(s)) + "\n" == Normalized(s)
  {
    Rejoin(s);
    NoLines(s);
    ContentIs(lines, EndsWithLf(s));
    assert JoinLines(lines) + "" == JoinLines(lines);
  }

  lemma OnlyLfEnds(s: string)
    requires OnlyLf(s)
    ensures End(s) == LastBreak(s)
  {
  }

  lemma OnlyLfPrefix(a: string, b: string)
    requires a <= b && OnlyLf(b)
    ensures OnlyLf(a)
  {
  }

  lemma UntruncatedContent(data: seq<Byte>)
    requires !Execute(data).truncated
    ensures var text := TextOf(data); Execute(data).content == Content(SplitLines(text), EndsWithLf(text))
  {
    var lines := SplitLines(TextOf(data));
    assert lines[..|lines|] == lines;
  }

  /**
   A file within the limits comes back with its line breaks as line feeds, or one line feed short of
   that if it ends in a line break other than a line feed; so it comes back exactly if and only if
   its only line breaks are line feeds.
   */
  lemma UntruncatedIsExactIff(data: seq<Byte>)
    requires !Execute(data).truncated
    ensures var text, content := TextOf(data), Execute(data).content;
            && (content == text <==> OnlyLf(text))
            && content + (if End(text) == LastBreak(text) then "" else "\n") == Normalized(text)
  {
    var text := TextOf(data);
    UntruncatedContent(data);
    WholeContent(text, SplitLines(text));
    NormalizedOnlyLf(text);
    NormalizedIff(text);
    assert Execute(data).content <= Normalized(text);
    OnlyLfPrefix(Execute(data).content, Normalized(text));
    if OnlyLf(text) {
      OnlyLfEnds(text);
    }
  }

  /** A text that was written as UTF-8, whatever its characters, is read back as it was. */
  lemma {:induction false} ReadsWhatWasWritten(text: string)
    requires OnlyLf(text) && !Execute(Encode(text)).truncated
    ensures Execute(Encode(text)).content == text
  {
    DecodeEncode(Encode(text), 0, text);
    UntruncatedIsExactIff(Encode(text));
  }

  // ----- what a cut read returns ------------------------------------------------------------------

  /** The byte limit falls in front of a continuation byte, perhaps inside a character. */
  predicate MaySplit(data: seq<Byte>) {
    |data| > MAX_BYTES && IsContinuation(data[MAX_BYTES])
  }

  predicate IsTail(s: string, splits: bool) {
    s == "" || s == "\n" || (splits && (s == [REPLACEMENT] || s == [REPLACEMENT] + "\n"))
  }

  /** A first part of `whole`, up to a line feed and, if a character may be split, one replacement. */
  ghost predicate NearPrefix(content: string, whole: string, splits: bool) {
    exists n :: 0 <= n <= |content| && content[..n] <= whole && IsTail(content[n..], splits)
  }

  lemma ReturnedLines(lines: seq<string>, ends: bool)
    requires AllOneLine(lines)
    ensures |SplitLines(Content(lines, ends))| <= |lines|
  {
    JoinedLines(lines);
    ContentIs(lines, ends);
  }

  /** The first lines of a text are a first part of it, with their last line feed only if there is one. */
  lemma FirstLines(s: string, lines: seq<string>, k: nat, normal: string)
    requires normal == JoinLines(lines) + LastBreak(s) && k <= |lines|
    ensures JoinLines(lines[..k]) <= normal
    ensures Content(lines[..k], EndsWithLf(s)) <= normal
  {
    JoinPrefix(lines, k);
    if k == |lines| {
      assert lines[..k] == lines;
    }
    ContentIs(lines[..k], EndsWithLf(s));
  }

  /** Where the returned lines of a cut text stop being those of the whole text. */
  lemma CutNear(text: string, p: string, mark: string, joined: string) returns (n: nat)
    requires p <= text && joined <= Normalized(p + mark) && (mark == "" || mark == [REPLACEMENT])
    ensures n <= |joined| && joined[..n] <= Normalized(text)
    ensures (joined[n..] == "" && |joined| <= |Normalized(p)|) || (joined[n..] == mark && joined[..n] == Normalized(p))
  {
    NormalizedPrefix(p, text);
    n := |joined|;
    if mark == "" {
      assert p + mark == p;
    } else {
      NormalizedMark(p);
      if |joined| > |Normalized(p)| {
        n := |joined| - 1;
      }
    }
  }

  lemma NearWithLf(content: string, joined: string, n: nat, whole: string, splits: bool)
    requires n <= |joined| && joined[..n] <= whole && (content == joined || content == joined + "\n")
    requires joined[n..] == "" || (splits && joined[n..] == [REPLACEMENT])
    ensures NearPrefix(content, whole, splits)
  {
    assert content[..n] == joined[..n];
    assert content[n..] == joined[n..] + content[|joined|..];
  }

  /** The first lines of a text, returned. */
  lemma {:induction false} ReturnedFirst(cut: string, lines: seq<string>, n: nat, ends: bool)
    requires lines == SplitLines(cut) && n <= |lines|
    ensures var content, joined := Content(lines[..n], ends), JoinLines(lines[..n]);
            && (content == joined || content == joined + "\n") && joined <= Normalized(cut)
            && (ends == EndsWithLf(cut) ==> content <= Normalized(cut))
            && |SplitLines(content)| <= n
  {
    Rejoin(cut);
    FirstLines(cut, lines, n, Normalized(cut));
    LinesAreOneLine(cut);
    ContentIs(lines[..n], ends);
    ReturnedLines(lines[..n], ends);
  }

  /** What is returned, and the decoded bytes it is taken from. */
  lemma {:induction false} Returned(data: seq<Byte>) returns (cut: string, joined: string, n: nat)
    ensures cut == Decode(data, 0, Min(|data|, MAX_BYTES))
    ensures var content := Execute(data).content;
            && (content == joined || content == joined + "\n") && joined <= Normalized(cut)
            && (|data| <= MAX_BYTES ==> content <= Normalized(TextOf(data)))
            && |SplitLines(content)| <= Execute(data).linesReturned
  {
    cut := Decode(data, 0, Min(|data|, MAX_BYTES));
    n := Min(|SplitLines(cut)|, Execute(data).linesReturned);
    joined := JoinLines(SplitLines(cut)[..n]);
    ReturnedFirst(cut, SplitLines(cut), n, EndsWithLf(TextOf(data)));
  }

  /** The decoded bytes: whole characters, and a replacement for what is left of a split one. */
  lemma CutText(data: seq<Byte>, limit: nat, k: nat)
    requires limit == Min(|data|, MAX_BYTES) && k == Boundary(data, 0, limit)
    ensures TextOf(data) == Decode(data, 0, k) + Decode(data, k, |data|)
    ensures Decode(data, 0, limit) == Decode(data, 0, k) + Mark(k, limit)
    ensures k < limit ==> MaySplit(data)
  {
    DecodeCut(data, 0, limit);
    if k < limit {
      CutInside(data, 0, limit);
    }
  }

  /**
   Whatever the bytes, what is returned is a first part of the text, its line breaks made line
   feeds, with perhaps one line feed too many and, if the byte limit splits a character, one
   replacement. The limits hold, the announced number of lines is never exceeded, and if only lines
   are cut off nothing is added.
   */
  lemma ReturnedIsPrefix(data: seq<Byte>)
    ensures var r, whole := Execute(data), Normalized(TextOf(data));
            && NearPrefix(r.content, whole, MaySplit(data))
            && (OnlyLf(TextOf(data)) ==> whole == TextOf(data))
            && (|data| <= MAX_BYTES ==> r.content <= whole)
            && |r.content| <= 262145
            && |SplitLines(r.content)| <= r.linesReturned <= 5000
  {
    var cut, joined, _ := Returned(data);
    var limit := Min(|data|, MAX_BYTES);
    var k := Boundary(data, 0, limit);
    CutText(data, limit, k);
    var n := CutNear(TextOf(data), Decode(data, 0, k), Mark(k, limit), joined);
    NearWithLf(Execute(data).content, joined, n, Normalized(TextOf(data)), MaySplit(data));
    NormalizedShort(cut);
    NormalizedIff(TextOf(data));
  }

  /** If these bytes are one character, they are what it begins with. */
  lemma LastCharacter(data: seq<Byte>, k: nat)
    requires k < |data| && |Decode(data, k, |data|)| == 1
    ensures k + Matched(data, k, |data|) == |data| && Decode(data, k, |data|)[0] == CharAt(data, k, |data|)
  {
  }

  /** What the bytes behind the last boundary can be if nothing was lost. */
  lemma NothingLost(data: seq<Byte>, k: nat, p: string, text: string, joined: string)
    requires k < |data| && text == p + Decode(data, k, |data|) && (text == joined || text == joined + "\n")
    requires |joined| <= |p| || (|joined| == |p| + 1 && joined[|p|] == REPLACEMENT)
    ensures |data| <= k + if |joined| <= |p| then 1 else 4
  {
    var next := k + Matched(data, k, |data|);
    assert text[|p|..] == Decode(data, k, |data|);
    assert text[|p|] == CharAt(data, k, |data|);
    if next == |data| {
    } else {
      assert Decode(data, next, |data|) == text[|p| + 1..];
      LastCharacter(data, next);
    }
  }

  /** The joined lines reach behind the whole characters only by the replacement of a split one. */
  lemma JoinedReach(text: string, p: string, mark: string, joined: string)
    requires p <= text && joined <= Normalized(p + mark) && (mark == "" || mark == [REPLACEMENT])
    ensures |joined| <= |p| || (mark != "" && |joined| == |p| + 1 && joined[|p|] == REPLACEMENT)
  {
    var n := CutNear(text, p, mark, joined);
    NormalizedShort(p);
    if joined[n..] == mark && |joined| > |p| {
      assert joined[n] == mark[0];
    }
  }

  /** A file announced as truncated has lost something, unless it is at most three bytes too long. */
  lemma TruncatedLoses(data: seq<Byte>)
    requires Execute(data).truncated && Execute(data).content == TextOf(data)
    ensures MAX_BYTES < |data| <= MAX_BYTES + if MaySplit(data) then 3 else 1
  {
    var cut, joined, _ := Returned(data);
    var k := Boundary(data, 0, MAX_BYTES);
    CutText(data, MAX_BYTES, k);
    JoinedReach(TextOf(data), Decode(data, 0, k), Mark(k, MAX_BYTES), joined);
    NothingLost(data, k, Decode(data, 0, k), TextOf(data), joined);
  }

  // ----- when a cut read is a prefix, and when it is whole ----------------------------------------

  /** The characters that lie before the byte limit as a whole. */
  function Before(data: seq<Byte>): string
    requires |data| > MAX_BYTES
  {
    Decode(data, 0, Boundary(data, 0, MAX_BYTES))
  }

  /** The rest of the text. */
  function Behind(data: seq<Byte>): string
    requires |data| > MAX_BYTES
  {
    Decode(data, Boundary(data, 0, MAX_BYTES), |data|)
  }

  /** The text as far as it is decoded for returning. */
  function CutOf(data: seq<Byte>): string
    requires |data| > MAX_BYTES
  {
    Decode(data, 0, MAX_BYTES)
  }

  /** A replacement if a character is split, and a line feed if the file ends in one and the cut in none. */
  function Added(data: seq<Byte>): string
    requires |data| > MAX_BYTES
  {
    Mark(Boundary(data, 0, MAX_BYTES), MAX_BYTES)
    + if EndsWithLf(TextOf(data)) && LastBreak(CutOf(data)) == "" then "\n" else ""
  }

  /** Lines are cut off at the end of what is decoded for returning. */
  predicate DropsLines(data: seq<Byte>)
    requires |data| > MAX_BYTES
  {
    |SplitLines(CutOf(data))| > Min(|SplitLines(TextOf(data))|, MAX_LINES)
  }

  lemma CutParts(data: seq<Byte>)
    requires |data| > MAX_BYTES
    ensures TextOf(data) == Before(data) + Behind(data) && Behind(data) != ""
    ensures CutOf(data) == Before(data) + Mark(Boundary(data, 0, MAX_BYTES), MAX_BYTES) && CutOf(data) != ""
    ensures LastBreak(CutOf(data)) == "" ==> !Tears(Before(data), Behind(data))
  {
    var k := Boundary(data, 0, MAX_BYTES);
    DecodeCut(data, 0, MAX_BYTES);
    assert Behind(data)[0] == CharAt(data, k, |data|);
    if k < MAX_BYTES {
      CutInside(data, 0, MAX_BYTES);
    } else {
      assert CutOf(data) == Before(data);
    }
  }

  /** If lines are dropped, only whole lines of the text in front of the limit come back. */
  lemma DroppedContent(lines: seq<string>, n: nat, ends: bool, normal: string, mark: string)
    requires JoinLines(lines) <= normal + mark && n < |lines| && (mark == "" || mark == [REPLACEMENT])
    ensures Content(lines[..n], ends) <= normal
  {
    JoinPrefix(lines, n);
    ContentIs(lines[..n], ends);
    if n > 0 {
      var line := JoinLines(lines[..n]) + "\n";
      assert line[|line| - 1] == (normal + mark)[|line| - 1];
    }
  }

  /** The first lines of what is decoded, in terms of the text in front of the limit. */
  lemma LinesOfCut(lines: seq<string>, n: nat, ends: bool, end: string, normal: string, mark: string)
    requires JoinLines(lines) + end == normal + mark && lines != [] && n <= |lines|
    requires (mark == "" || mark == [REPLACEMENT]) && (end == "" || (end == "\n" && mark == ""))
    ensures n < |lines| || end != "" ==> Content(lines[..n], ends) <= normal
    ensures n == |lines| && end == "" ==> Content(lines[..n], ends) == normal + (mark + if ends then "\n" else "")
  {
    if n < |lines| {
      DroppedContent(lines, n, ends, normal, mark);
    } else {
      assert lines[..n] == lines;
      ContentIs(lines, ends);
      assert JoinLines(lines) + "" == JoinLines(lines) && normal + "" == normal && mark + "" == mark;
    }
  }

  lemma {:induction false} ExecuteCut(data: seq<Byte>, lines: seq<string>) returns (n: nat)
    requires |data| > MAX_BYTES && lines == SplitLines(CutOf(data))
    ensures n <= |lines| && (DropsLines(data) <==> n < |lines|)
    ensures Execute(data).content == Content(lines[..n], EndsWithLf(TextOf(data)))
  {
    n := Min(|lines|, Execute(data).linesReturned);
  }

  /** What comes back when the byte limit cuts. */
  lemma {:induction false} CutContent(data: seq<Byte>)
    requires |data| > MAX_BYTES
    ensures var content, normal := Execute(data).content, Normalized(Before(data));
            && (DropsLines(data) || LastBreak(CutOf(data)) != "" ==> content <= normal)
            && (!DropsLines(data) && LastBreak(CutOf(data)) == "" ==> content == normal + Added(data))
  {
    var lines, mark := SplitLines(CutOf(data)), Mark(Boundary(data, 0, MAX_BYTES), MAX_BYTES);
    CutParts(data);
    NoLines(CutOf(data));
    Rejoin(CutOf(data));
    MarkEnds(Before(data), mark);
    var n := ExecuteCut(data, lines);
    LinesOfCut(lines, n, EndsWithLf(TextOf(data)), LastBreak(CutOf(data)), Normalized(Before(data)), mark);
  }

  lemma {:induction false} NothingAdded(data: seq<Byte>)
    requires |data| > MAX_BYTES
    ensures LastBreak(CutOf(data)) != "" ==> Added(data) == ""
    ensures LastBreak(CutOf(data)) == "" ==>
              Normalized(TextOf(data)) == Normalized(Before(data)) + Normalized(Behind(data))
  {
    CutParts(data);
    if LastBreak(CutOf(data)) == "" {
      NormalizedConcat(Before(data), Behind(data));
    } else {
      MarkEnds(Before(data), Mark(Boundary(data, 0, MAX_BYTES), MAX_BYTES));
    }
  }

  lemma MarkEnds(p: string, mark: string)
    requires mark == "" || mark == [REPLACEMENT]
    ensures Normalized(p + mark) == Normalized(p) + mark
    ensures mark != "" ==> LastBreak(p + mark) == ""
  {
    if mark == "" {
      assert p + mark == p && Normalized(p) + mark == Normalized(p);
    } else {
      NormalizedMark(p);
    }
  }

  /**
   What comes back is a first part of the text, its line breaks made line feeds, exactly if the byte
   limit does not cut, or lines are dropped in front of it, or what is added there is what the text
   goes on with.
   */
  lemma ReturnedIsPrefixIff(data: seq<Byte>)
    ensures Execute(data).content <= Normalized(TextOf(data)) <==>
            (|data| > MAX_BYTES ==> DropsLines(data) || Added(data) <= Normalized(Behind(data)))
  {
    if |data| > MAX_BYTES {
      CutContent(data);
      CutParts(data);
      NothingAdded(data);
      NormalizedPrefix(Before(data), TextOf(data));
      PrefixBehindSame(Normalized(Before(data)), Added(data), Normalized(Behind(data)));
    } else {
      ReturnedIsPrefix(data);
    }
  }

  lemma PrefixBehindSame(a: string, b: string, c: string)
    ensures a + b <= a + c <==> b <= c
  {
    if a + b <= a + c {
      assert (a + b)[|a|..] == b && (a + c)[|a|..] == c;
      assert (a + c)[..|a + b|][|a|..] == c[..|b|];
    }
  }

  lemma {:induction false} WholeBehind(p: string, added: string, rest: string)
    requires OnlyLf(added)
    ensures Normalized(p) + added == p + rest <==> OnlyLf(p) && added == rest
  {
    NormalizedOnlyLf(p);
    OnlyLfConcat(Normalized(p), added);
    NormalizedIff(p);
    if Normalized(p) + added == p + rest {
      OnlyLfPrefix(p, p + rest);
      assert (p + added)[|p|..] == added && (p + rest)[|p|..] == rest;
    }
  }

  /**
   A file comes back as it is exactly if its lines are within the limit and it has no line breaks but
   line feeds; or, if the byte limit cuts, if that is so of the part in front of the limit, and what is
   added there is the whole rest of the text.
   */
  lemma ReturnedIsWholeIff(data: seq<Byte>)
    ensures Execute(data).content == TextOf(data) <==>
            if |data| <= MAX_BYTES then |SplitLines(TextOf(data))| <= MAX_LINES && OnlyLf(TextOf(data))
            else !DropsLines(data) && OnlyLf(Before(data)) && Added(data) == Behind(data)
  {
    if |data| > MAX_BYTES {
      CutContent(data);
      CutParts(data);
      NothingAdded(data);
      NormalizedShort(Before(data));
      WholeBehind(Before(data), Added(data), Behind(data));
    } else if |SplitLines(TextOf(data))| <= MAX_LINES {
      UntruncatedIsExactIff(data);
    } else {
      ReturnedIsPrefix(data);
    }
  }

  // ----- how much is returned ---------------------------------------------------------------------

  /** The number of line feeds. */
  function Feeds(s: string): nat {
    if s == "" then 0 else Feeds(s[..|s| - 1]) + if s[|s| - 1] == '\n' then 1 else 0
  }

  lemma {:induction false} FeedsConcat(a: string, b: string)
    ensures Feeds(a + b) == Feeds(a) + Feeds(b)
  {
    if b == "" {
      assert a + b == a;
    } else {
      FeedsConcat(a, b[..|b| - 1]);
      assert (a + b)[..|a + b| - 1] == a + b[..|b| - 1];
    }
  }

  lemma {:induction false} NoFeeds(s: string)
    requires OneLine(s)
    ensures Feeds(s) == 0
  {
    if s != "" {
      NoFeeds(s[..|s| - 1]);
      assert !IsLineBreak(s[|s| - 1]);
    }
  }

  lemma {:induction false} FeedsTerminated(lines: seq<string>)
    requires AllOneLine(lines)
    ensures Feeds(Terminated(lines)) == |lines|
  {
    if lines != [] {
      var front, last := lines[..|lines| - 1], lines[|lines| - 1];
      FeedsTerminated(front);
      FeedsConcat(Terminated(front), last + "\n");
      FeedsConcat(last, "\n");
      NoFeeds(last);
      assert "\n"[..0] == "";
    }
  }

  lemma FeedsJoined(lines: seq<string>)
    requires AllOneLine(lines) && lines != []
    ensures Feeds(JoinLines(lines)) + 1 == |lines|
  {
    var front, last := lines[..|lines| - 1], lines[|lines| - 1];
    FeedsTerminated(front);
    FeedsConcat(Terminated(front), last);
    NoFeeds(last);
  }

  /** `body` is the first `limit` lines of the text, as far as it has them, with line feeds between them. */
  predicate IsBody(body: string, text: string, lines: nat, limit: nat) {
    if lines <= limit then body + LastBreak(text) == Normalized(text)
    else body + "\n" <= Normalized(text) && Feeds(body) + 1 == limit
  }

  lemma {:induction false} JoinedIsBody(text: string, lines: seq<string>, limit: nat)
    requires lines == SplitLines(text) && (limit == 0 ==> lines == [])
    ensures IsBody(JoinLines(lines[..Min(|lines|, limit)]), text, |lines|, limit)
  {
    Rejoin(text);
    if |lines| <= limit {
      assert lines[..|lines|] == lines;
    } else {
      LinesAreOneLine(text);
      JoinPrefix(lines, limit);
      FeedsJoined(lines[..limit]);
      assert JoinLines(lines) <= Normalized(text);
    }
  }

  /** What the counts of a read are. */
  lemma CountsOf(data: seq<Byte>)
    ensures var r, n := Execute(data), |SplitLines(TextOf(data))|;
            && r.bytesReturned == (if |data| <= 262144 then |data| else 262144)
            && r.linesReturned == (if n <= 5000 then n else 5000)
            && (r.truncated <==> |data| > 262144 || n > 5000)
  {
  }

  lemma {:induction false} NothingToRead(data: seq<Byte>, limit: nat)
    requires limit <= |data| && (limit == 0 ==> data == [])
    ensures TextOf(data) == "" <==> data == []
    ensures Decode(data, 0, limit) == "" <==> data == []
    ensures SplitLines(TextOf(data)) == [] <==> data == []
    ensures SplitLines(Decode(data, 0, limit)) == [] <==> data == []
  {
    NoLines(TextOf(data));
    NoLines(Decode(data, 0, limit));
  }

  /**
   No more is cut off than the limits say: of the first 262144 bytes, decoded and with their line breaks
   as line feeds, the first `linesReturned` lines come back whole, and a last line feed exactly if the
   file ends in one.
   */
  lemma {:induction false} ReturnedIsUpToLimits(data: seq<Byte>)
    ensures var r := Execute(data);
            && r.bytesReturned == (if |data| <= 262144 then |data| else 262144)
            && r.linesReturned == (if |SplitLines(TextOf(data))| <= 5000 then |SplitLines(TextOf(data))| else 5000)
            && (r.truncated <==> |data| > 262144 || |SplitLines(TextOf(data))| > 5000)
            && var cut := Decode(data, 0, r.bytesReturned);
            && exists body :: IsBody(body, cut, |SplitLines(cut)|, r.linesReturned)
                              && r.content == body + if EndsWithLf(TextOf(data)) then "\n" else ""
  {
    CountsOf(data);
    var r := Execute(data);
    var cut := Decode(data, 0, r.bytesReturned);
    var lines := SplitLines(cut);
    var n := Min(|lines|, r.linesReturned);
    NothingToRead(data, r.bytesReturned);
    JoinedIsBody(cut, lines, r.linesReturned);
    ContentOf(data, lines, n);
  }

  lemma {:induction false} ContentOf(data: seq<Byte>, lines: seq<string>, n: nat)
    requires lines == SplitLines(Decode(data, 0, Execute(data).bytesReturned))
    requires n == Min(|lines|, Execute(data).linesReturned) && (n == 0 ==> TextOf(data) == "")
    ensures Execute(data).content == JoinLines(lines[..n]) + if EndsWithLf(TextOf(data)) then "\n" else ""
  {
  }
}
