/** Files of one JSON text per line: what was appended is what is read, and when it is not. */
module Jsonl {
  import opened Wrappers
  import opened Sequences
  import opened Text

  /** Turning items into JSON text and back; None stands for a decoding error. */
  datatype Codec<!T> = Codec(encode: T -> string, decode: string -> Option<T>)

  /** `Malformed(n)`: the n-th line of the file, counted from 1, does not decode. */
  datatype Reading<+T> = Loaded(items: seq<T>) | Malformed(line: nat)

  /** What the lines of a file hold: blank lines are skipped, the first undecodable line is an error. */
  function ParseLines<T>(c: Codec<T>, lines: seq<string>): Reading<T> {
    if lines == [] then Loaded([])
    else
      match ParseLines(c, lines[..|lines| - 1])
      case Malformed(n) => Malformed(n)
      case Loaded(items) =>
        var line := lines[|lines| - 1];
        if Strip(line) == "" then Loaded(items)
        else
          match c.decode(line)
          case None => Malformed(|lines|)
          case Some(x) => Loaded(items + [x])
  }

  function Parse<T>(c: Codec<T>, content: string): Reading<T> {
    ParseLines(c, SplitLines(content))
  }

  class JsonlFile<T> {
    const codec: Codec<T>
    var content: string

    constructor (codec: Codec<T>)
      ensures this.codec == codec && content == ""
    {
      this.codec := codec;
      content := "";
    }

    method ReadJsonl() returns (r: Reading<T>)
      ensures r == Parse(codec, content)
    {
      var lines := SplitLines(content);
      var out: seq<T> := [];
      var i := 0;
      while i < |lines|
        invariant 0 <= i <= |lines|
        invariant ParseLines(codec, lines[..i]) == Loaded(out)
      {
        var line := lines[i];
        assert lines[..i + 1][..i] == lines[..i];
        i := i + 1;
        if Strip(line) == "" {
          continue;
        }
        var item := codec.decode(line);
        if item.None? {
          MalformedStays(codec, lines, i, i);
          return Malformed(i);
        }
        out := out + [item.value];
      }
      assert lines[..i] == lines;
      r := Loaded(out);
    }

    /** Appends one item and its line feed, or raises before it wrote anything. */
    method AppendJsonl(item: T) returns (s: Signal)
      modifies this
      ensures s.Ok? ==> content == old(content) + codec.encode(item) + "\n"
      ensures s.Raised? ==> s.cause == External && content == old(content)
    {
      var line := codec.encode(item) + "\n";
      if * {
        return Raised(External);
      }
      assert content + codec.encode(item) + "\n" == content + line;
      content := content + line;
      s := Ok;
    }
  }

  lemma {:induction false} MalformedStays<T>(c: Codec<T>, lines: seq<string>, i: nat, n: nat)
    requires i <= |lines| && ParseLines(c, lines[..i]) == Malformed(n)
    ensures ParseLines(c, lines) == Malformed(n)
  {
    if i < |lines| {
      assert lines[..|lines| - 1][..i] == lines[..i];
      MalformedStays(c, lines[..|lines| - 1], i, n);
    } else {
      assert lines[..i] == lines;
    }
  }

  // ----- what was appended is read ----------------------------------------------------------------

  /** The item's text comes back through the codec, is not blank, and is one line. */
  predicate Framed<T(==)>(c: Codec<T>, x: T) {
    c.decode(c.encode(x)) == Some(x) && !AllSpace(c.encode(x)) && OneLine(c.encode(x))
  }

  /** The file after appending items to it. */
  function Appended<T>(c: Codec<T>, content: string, items: seq<T>): string {
    if items == [] then content
    else Appended(c, content, items[..|items| - 1]) + c.encode(items[|items| - 1]) + "\n"
  }

  lemma ParseOneMore<T>(c: Codec<T>, lines: seq<string>, x: T)
    requires Framed(c, x) && ParseLines(c, lines).Loaded?
    ensures ParseLines(c, lines + [c.encode(x)]) == Loaded(ParseLines(c, lines).items + [x])
  {
    assert (lines + [c.encode(x)])[..|lines|] == lines;
  }

  lemma AppendThenRead<T>(c: Codec<T>, content: string, x: T)
    requires Complete(content) && Framed(c, x) && Parse(c, content).Loaded?
    ensures Complete(content + c.encode(x) + "\n")
    ensures Parse(c, content + c.encode(x) + "\n") == Loaded(Parse(c, content).items + [x])
  {
    SplitPush(content, c.encode(x));
    OneLineIff(c.encode(x));
    ParseOneMore(c, SplitLines(content), x);
  }

  /** Whatever a file held, reading it after appending items gives what it held and then the items, in order. */
  lemma {:induction false} RoundTrip<T>(c: Codec<T>, content: string, items: seq<T>)
    requires Complete(content) && Parse(c, content).Loaded?
    requires forall x :: x in items ==> Framed(c, x)
    ensures Complete(Appended(c, content, items))
    ensures Parse(c, Appended(c, content, items)) == Loaded(Parse(c, content).items + items)
  {
    if items == [] {
      assert Parse(c, content).items + [] == Parse(c, content).items;
    } else {
      RoundTrip(c, content, items[..|items| - 1]);
      RoundTripStep(c, content, Parse(c, content).items, items[..|items| - 1], items[|items| - 1], items);
    }
  }

  lemma RoundTripStep<T>(c: Codec<T>, content: string, before: seq<T>, front: seq<T>, x: T, items: seq<T>)
    requires items == front + [x] && Framed(c, x)
    requires Complete(Appended(c, content, front)) && Parse(c, Appended(c, content, front)) == Loaded(before + front)
    ensures Complete(Appended(c, content, items))
    ensures Parse(c, Appended(c, content, items)) == Loaded(before + items)
  {
    AppendThenRead(c, Appended(c, content, front), x);
    assert items[..|front|] == front;
    assert before + front + [x] == before + items;
  }

  // ----- how a file is read -----------------------------------------------------------------------

  /** One line: blank lines hold nothing, others what they decode to, or they are an error. */
  lemma ParseSingle<T>(c: Codec<T>, line: string)
    ensures AllSpace(line) ==> ParseLines(c, [line]) == Loaded([])
    ensures !AllSpace(line) && c.decode(line).Some? ==> ParseLines(c, [line]) == Loaded([c.decode(line).value])
    ensures !AllSpace(line) && c.decode(line).None? ==> ParseLines(c, [line]) == Malformed(1)
  {
    assert [line][..0] == [];
  }

  /** What is read of some lines, and then of `n` more lines behind them. */
  function Behind<T>(first: Reading<T>, n: nat, second: Reading<T>): Reading<T> {
    match first
    case Malformed(line) => first
    case Loaded(items) =>
      match second
      case Malformed(line) => Malformed(n + line)
      case Loaded(more) => Loaded(items + more)
  }

  /** Lines behind others: their items follow, and an error is counted from the first of all lines. */
  lemma {:induction false} ParseConcat<T>(c: Codec<T>, a: seq<string>, b: seq<string>)
    ensures ParseLines(c, a + b) == Behind(ParseLines(c, a), |a|, ParseLines(c, b))
  {
    if b == [] {
      assert a + b == a;
      if ParseLines(c, a).Loaded? {
        assert ParseLines(c, a).items + [] == ParseLines(c, a).items;
      }
    } else {
      var front, line := b[..|b| - 1], b[|b| - 1];
      ParseConcat(c, a, front);
      ParsePush(c, a + front, line);
      ParsePush(c, front, line);
      BehindPush(c, ParseLines(c, a), |a|, ParseLines(c, front), |front|, line);
      assert a + b == a + front + [line];
      assert b == front + [line];
    }
  }

  /** The reading after one more line. */
  function Pushed<T>(c: Codec<T>, r: Reading<T>, n: nat, line: string): Reading<T> {
    match r
    case Malformed(_) => r
    case Loaded(items) =>
      if AllSpace(line) then r
      else if c.decode(line).None? then Malformed(n + 1) else Loaded(items + [c.decode(line).value])
  }

  lemma {:induction false} BehindPush<T>(
    c: Codec<T>, first: Reading<T>, n: nat, second: Reading<T>, m: nat, line: string)
    ensures Pushed(c, Behind(first, n, second), n + m, line) == Behind(first, n, Pushed(c, second, m, line))
  {
    if first.Loaded? && second.Loaded? && c.decode(line).Some? {
      Regroup(first.items, second.items, [c.decode(line).value]);
    }
  }

  lemma ParsePush<T>(c: Codec<T>, lines: seq<string>, line: string)
    ensures ParseLines(c, lines + [line]) == Pushed(c, ParseLines(c, lines), |lines|, line)
  {
    assert (lines + [line])[..|lines|] == lines;
  }

  // ----- JSON text --------------------------------------------------------------------------------

  /**
   A JSON text as the encoder writes it, without escaping what is not ASCII: control characters are
   escaped (section 7 of RFC 8259), all other characters may stand for themselves.
   */
  predicate JsonText(s: string) {
    forall i :: 0 <= i < |s| ==> s[i] >= ' '
  }

  predicate HasSeparator(s: string) {
    exists i :: 0 <= i < |s| && (s[i] == '\U{85}' || s[i] == '\U{2028}' || s[i] == '\U{2029}')
  }

  lemma SamePrefix(a: seq<string>, b: seq<string>, c: seq<string>)
    ensures a + b == a + c <==> b == c
  {
    assert (a + b)[|a|..] == b && (a + c)[|a|..] == c;
  }

  /**
   A JSON text that is appended is read as one line exactly when none of U+0085, U+2028 and U+2029
   occurs in it: the encoder may leave these as they are, and the reader splits at them.
   */
  lemma JsonTextFramedIff(content: string, s: string)
    requires Complete(content) && JsonText(s)
    ensures SplitLines(content + s + "\n") == SplitLines(content) + [s] <==> !HasSeparator(s)
  {
    SplitPush(content, s);
    OneLineIff(s);
    SamePrefix(SplitLines(content), SplitLines(s + "\n"), [s]);
    assert OneLine(s) <==> !HasSeparator(s);
  }

  /** An item whose text has a line separator in it is not read back: its text arrives in pieces. */
  lemma SeparatorSplits(a: string, b: string)
    requires OneLine(a) && OneLine(b)
    ensures SplitLines(a + "\U{2028}" + b + "\n") == [a, b]
  {
    var s := a + "\U{2028}" + b + "\n";
    assert s[..|a|] == a && s[|a| + 1..] == b + "\n";
    LineLengthUnique(s, |a|);
    SplitFirst(s, |a|, a, b + "\n");
    OneLineIff(b);
  }

  /**
   An item as the JSON codec treats it: its text is a JSON text that begins with no space, such as an
   object's, decodes back, and no shorter beginning of it decodes.
   */
  predicate JsonItem<T(==)>(c: Codec<T>, x: T) {
    var s := c.encode(x);
    && JsonText(s) && s != "" && !IsSpace(s[0]) && c.decode(s) == Some(x)
    && forall i :: 0 < i < |s| ==> c.decode(s[..i]) == None
  }

  predicate Unseparated<T>(c: Codec<T>, items: seq<T>) {
    forall i :: 0 <= i < |items| ==> !HasSeparator(c.encode(items[i]))
  }

  lemma FirstPiece(s: string) returns (n: nat)
    requires HasSeparator(s) && !IsSpace(s[0])
    ensures 0 < n < |s| && SplitLines(s + "\n") != [] && SplitLines(s + "\n")[0] == s[..n]
  {
    var t := s + "\n";
    n := LineLength(t);
    assert !OneLine(s);
    BreakComesFirst(s);
    assert t[..n] == s[..n];
  }

  lemma {:induction false} BadLine<T>(c: Codec<T>, lines: seq<string>, more: seq<string>)
    requires ParseLines(c, lines).Loaded? && more != [] && !AllSpace(more[0]) && c.decode(more[0]) == None
    ensures ParseLines(c, lines + more) == Malformed(|lines| + 1)
  {
    assert (lines + more)[..|lines| + 1] == lines + [more[0]];
    assert (lines + [more[0]])[..|lines|] == lines;
    MalformedStays(c, lines + more, |lines| + 1, |lines| + 1);
  }

  /** The first text with a separator makes the line on which it begins malformed. */
  lemma {:induction false} SeparatorIsMalformed<T>(c: Codec<T>, content: string, x: T)
    requires Complete(content) && Parse(c, content).Loaded? && JsonItem(c, x) && HasSeparator(c.encode(x))
    ensures Parse(c, content + c.encode(x) + "\n") == Malformed(|SplitLines(content)| + 1)
  {
    var s := c.encode(x);
    SplitPush(content, s);
    var n := FirstPiece(s);
    assert s[..n][0] == s[0];
    BadLine(c, SplitLines(content), SplitLines(s + "\n"));
  }

  lemma {:induction false} StaysMalformed<T>(c: Codec<T>, content: string, s: string, n: nat)
    requires Complete(content) && Parse(c, content) == Malformed(n)
    ensures Parse(c, content + s + "\n") == Malformed(n)
  {
    var lines, more := SplitLines(content), SplitLines(s + "\n");
    SplitPush(content, s);
    assert (lines + more)[..|lines|] == lines;
    MalformedStays(c, lines + more, |lines|, n);
  }

  lemma {:induction false} AppendsToMalformed<T>(c: Codec<T>, content: string, x: T)
    requires Complete(content) && JsonItem(c, x) && (Parse(c, content).Loaded? ==> HasSeparator(c.encode(x)))
    ensures Parse(c, content + c.encode(x) + "\n").Malformed?
  {
    match Parse(c, content)
    case Loaded(_) => SeparatorIsMalformed(c, content, x);
    case Malformed(n) => StaysMalformed(c, content, c.encode(x), n);
  }

  lemma {:induction false} AppendedComplete<T>(c: Codec<T>, content: string, items: seq<T>)
    requires Complete(content)
    ensures Complete(Appended(c, content, items))
  {
  }

  lemma AllFramed<T>(c: Codec<T>, items: seq<T>)
    requires Unseparated(c, items) && forall i :: 0 <= i < |items| ==> JsonItem(c, items[i])
    ensures forall x :: x in items ==> Framed(c, x)
  {
    forall x | x in items
      ensures Framed(c, x)
    {
      var i :| 0 <= i < |items| && items[i] == x;
      assert OneLine(c.encode(items[i]));
    }
  }

  /**
   Whatever a file held, after appending JSON items it reads as what it held and the items, in order,
   exactly if no item's text has one of the three separators in it; otherwise reading fails.
   */
  lemma {:induction false} ReadsBackIff<T>(c: Codec<T>, content: string, items: seq<T>)
    requires Complete(content) && Parse(c, content).Loaded?
    requires forall i :: 0 <= i < |items| ==> JsonItem(c, items[i])
    ensures var r := Parse(c, Appended(c, content, items));
            if Unseparated(c, items) then r == Loaded(Parse(c, content).items + items) else r.Malformed?
  {
    if Unseparated(c, items) {
      AllFramed(c, items);
      RoundTrip(c, content, items);
    } else {
      var front, x := items[..|items| - 1], items[|items| - 1];
      ReadsBackIff(c, content, front);
      AppendedComplete(c, content, front);
      assert Unseparated(c, front) ==> HasSeparator(c.encode(x));
      AppendsToMalformed(c, Appended(c, content, front), x);
    }
  }
}
