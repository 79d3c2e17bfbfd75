/** Concrete files that the Read tool does not return as one might expect. */
module ReadWitnesses {
  import opened Text
  import opened Utf8
  import opened ReadTool

  function Letters(n: nat): string {
    seq(n, _ => 'a')
  }

  /** A file of `n` times the letter a, and these bytes. */
  function LetterFile(n: nat, tail: seq<Byte>): (data: seq<Byte>)
    ensures |data| == n + |tail|
    ensures (forall i :: 0 <= i < n ==> data[i] == 0x61) && data[n..] == tail
  {
    seq(n, _ => 0x61) + tail
  }

  lemma LetterStep(data: seq<Byte>, i: nat, n: nat)
    requires i < n <= |data| && data[i] == 0x61
    ensures Decode(data, i, n) == ['a'] + Decode(data, i + 1, n) && Boundary(data, i, n) == Boundary(data, i + 1, n)
  {
    assert Matched(data, i, n) == 1 && CharAt(data, i, n) == 'a';
  }

  predicate AllLetters(s: string) {
    forall i :: 0 <= i < |s| ==> s[i] == 'a'
  }

  lemma OneMore(s: string, rest: string)
    requires AllLetters(s) && s != ""
    ensures AllLetters(s[1..]) && ['a'] + (s[1..] + rest) == s + rest
  {
  }

  lemma {:induction false} LettersDecode(data: seq<Byte>, i: nat, j: nat, n: nat, s: string)
    requires i <= j <= n <= |data| && forall x :: i <= x < j ==> data[x] == 0x61
    requires |s| == j - i && AllLetters(s)
    ensures Decode(data, i, n) == s + Decode(data, j, n)
    ensures Boundary(data, i, n) == Boundary(data, j, n)
    decreases j - i
  {
    if i == j {
      assert s + Decode(data, j, n) == Decode(data, j, n);
    } else {
      OneMore(s, Decode(data, j, n));
      LettersDecode(data, i + 1, j, n, s[1..]);
      LetterStep(data, i, n);
    }
  }

  lemma OneLineText(s: string)
    requires OneLine(s) && s != ""
    ensures SplitLines(s) == [s] && SplitLines(s + "\n") == [s] && LastBreak(s) == "" && OnlyLf(s)
  {
    assert s[..|s|] == s;
    LineLengthUnique(s, |s|);
    OneLineIff(s);
  }

  /** One long line and its line feed: what is decoded for returning is one line, and a line feed is added. */
  lemma {:induction false} LongLine(n: nat, data: seq<Byte>)
    requires n >= MAX_BYTES && data == LetterFile(n, [0x0A])
    ensures Before(data) == CutOf(data) == Letters(MAX_BYTES)
    ensures TextOf(data) == Letters(n) + "\n" && Behind(data) == Letters(n - MAX_BYTES) + "\n"
    ensures !DropsLines(data) && Added(data) == "\n"
    ensures Execute(data).truncated && Execute(data).content == Letters(MAX_BYTES) + "\n"
  {
    var all := |data|;
    LettersDecode(data, 0, MAX_BYTES, MAX_BYTES, Letters(MAX_BYTES));
    LettersDecode(data, 0, n, all, Letters(n));
    LettersDecode(data, MAX_BYTES, n, all, Letters(n - MAX_BYTES));
    LastByte(data, n);
    assert Letters(MAX_BYTES) + "" == Letters(MAX_BYTES);
    OneLineText(Letters(n));
    OneLineText(Letters(MAX_BYTES));
    LongLineReturned(n, data);
  }

  lemma LastByte(data: seq<Byte>, n: nat)
    requires |data| == n + 1 && data[n] == 0x0A
    ensures Decode(data, n, n + 1) == "\n"
  {
  }

  lemma {:induction false} LongLineReturned(n: nat, data: seq<Byte>)
    requires n >= MAX_BYTES && |data| == n + 1 && Boundary(data, 0, MAX_BYTES) == MAX_BYTES
    requires Before(data) == CutOf(data) == Letters(MAX_BYTES) && TextOf(data) == Letters(n) + "\n"
    requires SplitLines(Letters(MAX_BYTES)) == [Letters(MAX_BYTES)] && SplitLines(Letters(n) + "\n") == [Letters(n)]
    requires LastBreak(Letters(MAX_BYTES)) == "" && OnlyLf(Letters(MAX_BYTES))
    ensures !DropsLines(data) && Added(data) == "\n"
    ensures Execute(data).truncated && Execute(data).content == Letters(MAX_BYTES) + "\n"
  {
    CutContent(data);
    NormalizedSame(Letters(MAX_BYTES));
  }

  /** A line of 262145 letters comes back with a line feed inside: no first part of the file. */
  lemma {:induction false} CutAddsLineFeed()
    ensures var data := LetterFile(MAX_BYTES + 1, [0x0A]);
            && TextOf(data) == Letters(MAX_BYTES + 1) + "\n" && Execute(data).content == Letters(MAX_BYTES) + "\n"
            && !(Execute(data).content <= Normalized(TextOf(data)))
  {
    LongLine(MAX_BYTES + 1, LetterFile(MAX_BYTES + 1, [0x0A]));
    LineIsOnlyLf(MAX_BYTES + 1);
    NormalizedSame(Letters(MAX_BYTES + 1) + "\n");
    assert (Letters(MAX_BYTES) + "\n")[MAX_BYTES] != (Letters(MAX_BYTES + 1) + "\n")[MAX_BYTES];
  }

  lemma LineIsOnlyLf(n: nat)
    ensures OnlyLf(Letters(n) + "\n")
  {
  }

  /** A line of 262144 letters is announced as truncated and comes back whole. */
  lemma {:induction false} TruncatedIsWhole()
    ensures var data := LetterFile(MAX_BYTES, [0x0A]);
            Execute(data).truncated && Execute(data).content == TextOf(data)
  {
    LongLine(MAX_BYTES, LetterFile(MAX_BYTES, [0x0A]));
  }

  /** A character of two bytes across the byte limit comes back as a replacement. */
  lemma {:induction false} CutAddsReplacement()
    ensures var data := LetterFile(MAX_BYTES - 1, [0xC3, 0xA9]);
            && TextOf(data) == Letters(MAX_BYTES - 1) + "\U{E9}"
            && Execute(data).content == Letters(MAX_BYTES - 1) + [REPLACEMENT]
            && !(Execute(data).content <= Normalized(TextOf(data)))
  {
    var data := LetterFile(MAX_BYTES - 1, [0xC3, 0xA9]);
    var k := MAX_BYTES - 1;
    LettersDecode(data, 0, k, k, Letters(k));
    LettersDecode(data, 0, k, MAX_BYTES, Letters(k));
    LettersDecode(data, 0, k, |data|, Letters(k));
    SplitAccent(data, k);
    assert Letters(k) + "" == Letters(k);
    SplitReturned(data, k);
  }

  lemma SplitAccent(data: seq<Byte>, k: nat)
    requires |data| == k + 2 && data[k..] == [0xC3, 0xA9]
    ensures Decode(data, k, k) == "" && Decode(data, k, k + 1) == [REPLACEMENT] && Decode(data, k, k + 2) == "\U{E9}"
    ensures Boundary(data, k, k + 1) == k
  {
    assert data[k] == data[k..][0] && data[k + 1] == data[k..][1];
  }

  lemma {:induction false} SplitReturned(data: seq<Byte>, k: nat)
    requires k == MAX_BYTES - 1 && |data| == k + 2 && Boundary(data, 0, MAX_BYTES) == k
    requires Before(data) == Letters(k) && CutOf(data) == Letters(k) + [REPLACEMENT]
    requires TextOf(data) == Letters(k) + "\U{E9}"
    ensures Execute(data).content == Letters(k) + [REPLACEMENT] && !(Execute(data).content <= Normalized(TextOf(data)))
  {
    OneLineText(CutOf(data));
    OneLineText(TextOf(data));
    SplitContent(data, k);
    NormalizedSame(TextOf(data));
    assert (Letters(k) + [REPLACEMENT])[k] != TextOf(data)[k];
  }

  lemma {:induction false} SplitContent(data: seq<Byte>, k: nat)
    requires k == MAX_BYTES - 1 && |data| == k + 2 && Boundary(data, 0, MAX_BYTES) == k
    requires Before(data) == Letters(k) && LastBreak(CutOf(data)) == "" && LastBreak(TextOf(data)) == ""
    requires |SplitLines(CutOf(data))| == |SplitLines(TextOf(data))| == 1
    ensures Execute(data).content == Letters(k) + [REPLACEMENT]
  {
    CutContent(data);
    NormalizedSame(Letters(k));
    assert Added(data) == [REPLACEMENT];
  }

  /** A short file that ends in a carriage return comes back without it. */
  lemma {:induction false} CarriageReturnIsDropped()
    ensures var data: seq<Byte> := [0x61, 0x0D];
            TextOf(data) == "a\r" && !Execute(data).truncated && Execute(data).content == "a"
  {
    var data: seq<Byte> := [0x61, 0x0D];
    assert Decode(data, 1, 2) == "\r";
    assert TextOf(data) == "a\r";
    LineLengthUnique("a\r", 1);
    assert "a\r"[..1] == "a" && "a\r"[2..] == "";
    assert SplitLines("a\r") == ["a"];
    assert ["a"][..1] == ["a"];
    assert JoinLines(["a"]) == "a" by {
      assert ["a"] == [] + ["a"];
      TerminatedPush([], "a");
    }
    ContentIs(["a"], false);
  }
}
