/** The Python string operations that the runtime uses. */
module Text {
  import opened Sequences

  /** `str.isspace` of one character. */
  predicate IsSpace(c: char) {
    || c == ' ' || '\t' <= c <= '\r' || '\U{1C}' <= c <= '\U{1F}'
    || c == '\U{85}' || c == '\U{A0}' || c == '\U{1680}' || '\U{2000}' <= c <= '\U{200A}'
    || c == '\U{2028}' || c == '\U{2029}' || c == '\U{202F}' || c == '\U{205F}' || c == '\U{3000}'
  }

  predicate AllSpace(s: string) {
    forall i :: 0 <= i < |s| ==> IsSpace(s[i])
  }

  /** `str.strip()`. */
  function Strip(s: string): (r: string)
    ensures r != "" ==> !IsSpace(r[0]) && !IsSpace(r[|r| - 1])
    ensures r == "" <==> AllSpace(s)
  {
    if s == "" then ""
    else if IsSpace(s[0]) then Strip(s[1..])
    else StripRight(s)
  }

  function StripRight(s: string): (r: string)
    requires s != "" && !IsSpace(s[0])
    ensures r <= s && r != "" && !IsSpace(r[|r| - 1])
    ensures AllSpace(s[|r|..])
  {
    if IsSpace(s[|s| - 1]) then StripRight(s[..|s| - 1]) else s
  }

  lemma SpaceInFront(left: string, word: string, right: string)
    requires left != "" && AllSpace(left)
    ensures left + word + right == [left[0]] + (left[1..] + word + right)
    ensures IsSpace(left[0]) && AllSpace(left[1..])
  {
  }

  lemma StripSpace(c: char, s: string)
    requires IsSpace(c)
    ensures Strip([c] + s) == Strip(s)
  {
    assert ([c] + s)[1..] == s;
  }

  /** A word with no space at its ends is what stripping leaves of it, however it is padded. */
  lemma {:induction false} StripPadded(left: string, word: string, right: string)
    requires AllSpace(left) && AllSpace(right)
    requires word != "" && !IsSpace(word[0]) && !IsSpace(word[|word| - 1])
    ensures Strip(left + word + right) == word
  {
    if left != "" {
      SpaceInFront(left, word, right);
      StripSpace(left[0], left[1..] + word + right);
      StripPadded(left[1..], word, right);
    } else {
      assert left + word + right == word + right;
      StripRightPadded(word, right);
    }
  }

  lemma {:induction false} StripRightPadded(word: string, right: string)
    requires AllSpace(right)
    requires word != "" && !IsSpace(word[0]) && !IsSpace(word[|word| - 1])
    ensures StripRight(word + right) == word
  {
    if right == "" {
      assert word + right == word;
    } else {
      StripRightPadded(word, right[..|right| - 1]);
      assert (word + right)[..|word + right| - 1] == word + right[..|right| - 1];
    }
  }

  /** Which characters stripping takes away. */
  lemma StrippedIff(c: char)
    ensures Strip([c]) == "" <==>
            || c == ' ' || c == '\t' || c == '\n' || c == '\r' || c == '\U{B}' || c == '\U{C}'
            || c == '\U{1C}' || c == '\U{1D}' || c == '\U{1E}' || c == '\U{1F}'
            || c == '\U{85}' || c == '\U{A0}' || c == '\U{1680}' || '\U{2000}' <= c <= '\U{200A}'
            || c == '\U{2028}' || c == '\U{2029}' || c == '\U{202F}' || c == '\U{205F}' || c == '\U{3000}'
  {
    assert AllSpace([c]) <==> IsSpace([c][0]);
    CharactersBetween(c);
  }

  lemma CharactersBetween(c: char)
    ensures '\t' <= c <= '\r' <==> c == '\t' || c == '\n' || c == '\U{B}' || c == '\U{C}' || c == '\r'
    ensures '\n' <= c <= '\r' <==> c == '\n' || c == '\U{B}' || c == '\U{C}' || c == '\r'
    ensures '\U{1C}' <= c <= '\U{1F}' <==> c == '\U{1C}' || c == '\U{1D}' || c == '\U{1E}' || c == '\U{1F}'
    ensures '\U{1C}' <= c <= '\U{1E}' <==> c == '\U{1C}' || c == '\U{1D}' || c == '\U{1E}'
  {
    var n := c as int;
    assert n as char == c;
  }

  // ----- lines ------------------------------------------------------------------------------------

  /** The characters at which `str.splitlines` ends a line. */
  predicate IsLineBreak(c: char) {
    '\n' <= c <= '\r' || '\U{1C}' <= c <= '\U{1E}' || c == '\U{85}' || c == '\U{2028}' || c == '\U{2029}'
  }

  predicate OneLine(s: string) {
    forall i :: 0 <= i < |s| ==> !IsLineBreak(s[i])
  }

  /** The length of the first line, without its break. */
  function LineLength(s: string): (n: nat)
    ensures n <= |s| && OneLine(s[..n]) && (n < |s| ==> IsLineBreak(s[n]))
  {
    if s == "" || IsLineBreak(s[0]) then 0 else 1 + LineLength(s[1..])
  }

  /** The length of the break at `n`: carriage return and line feed are one break. */
  function BreakLength(s: string, n: nat): (b: nat)
    requires n < |s|
    ensures 0 < b <= |s| - n
  {
    if s[n] == '\r' && n + 1 < |s| && s[n + 1] == '\n' then 2 else 1
  }

  /** `str.splitlines()`. */
  function SplitLines(s: string): seq<string>
    decreases |s|
  {
    if s == "" then []
    else
      var n := LineLength(s);
      if n == |s| then [s] else [s[..n]] + SplitLines(s[n + BreakLength(s, n)..])
  }

  lemma NoBreakBefore(s: string, n: nat, i: nat)
    requires i < n <= |s| && OneLine(s[..n])
    ensures !IsLineBreak(s[i])
  {
    assert s[..n][i] == s[i];
  }

  lemma {:induction false} LineLengthUnique(s: string, n: nat)
    requires n <= |s| && OneLine(s[..n]) && (n < |s| ==> IsLineBreak(s[n]))
    ensures LineLength(s) == n
  {
    var m := LineLength(s);
    if m < n {
      NoBreakBefore(s, n, m);
    } else if n < m {
      NoBreakBefore(s, m, n);
    }
  }

  /** How the splitting goes on after the first line. */
  lemma SplitFirst(s: string, n: nat, first: string, rest: string)
    requires n < |s| && n == LineLength(s) && first == s[..n] && rest == s[n + BreakLength(s, n)..]
    ensures SplitLines(s) == [first] + SplitLines(rest)
  {
  }

  lemma FirstLineOf(a: string, b: string, n: nat)
    requires a != "" && a[|a| - 1] == '\n' && n == LineLength(a)
    ensures n < |a| && LineLength(a + b) == n && BreakLength(a + b, n) == BreakLength(a, n)
  {
    assert a[..|a|] == a;
    assert (a + b)[..n] == a[..n];
    LineLengthUnique(a + b, n);
  }

  /** A text after which a new line begins. */
  predicate Complete(s: string) {
    s == "" || s[|s| - 1] == '\n'
  }

  /** A text that ends in a line feed, and what follows it, are split apart. */
  lemma {:induction false} SplitConcat(a: string, b: string)
    requires Complete(a)
    ensures SplitLines(a + b) == SplitLines(a) + SplitLines(b)
    decreases |a|
  {
    if a == "" {
      assert a + b == b;
    } else {
      var n := LineLength(a);
      FirstLineOf(a, b, n);
      var k := n + BreakLength(a, n);
      SlicesOf(a, b, n, k);
      SplitConcat(a[k..], b);
      SplitAfter(a, a + b, b, n, a[..n], a[k..], a[k..] + b);
    }
  }

  /** A line appended to a complete text. */
  lemma SplitPush(content: string, line: string)
    requires Complete(content)
    ensures Complete(content + line + "\n")
    ensures SplitLines(content + line + "\n") == SplitLines(content) + SplitLines(line + "\n")
  {
    assert content + line + "\n" == content + (line + "\n");
    SplitConcat(content, line + "\n");
  }

  lemma SlicesOf(a: string, b: string, n: nat, k: nat)
    requires n <= k <= |a|
    ensures (a + b)[..n] == a[..n] && (a + b)[k..] == a[k..] + b
    ensures a[k..] != "" ==> a[k..][|a[k..]| - 1] == a[|a| - 1]
  {
  }

  lemma {:induction false} SplitAfter(a: string, ab: string, b: string, n: nat, first: string, rest: string, restb: string)
    requires n < |a| && n == LineLength(a) && first == a[..n] && rest == a[n + BreakLength(a, n)..]
    requires n < |ab| && n == LineLength(ab) && first == ab[..n] && restb == ab[n + BreakLength(ab, n)..]
    requires SplitLines(restb) == SplitLines(rest) + SplitLines(b)
    ensures SplitLines(ab) == SplitLines(a) + SplitLines(b)
  {
    SplitFirst(a, n, first, rest);
    SplitFirst(ab, n, first, restb);
    Regroup([first], SplitLines(rest), SplitLines(b));
  }

  /** A text and its line feed are one line exactly when no character of the text ends a line. */
  lemma OneLineIff(s: string)
    ensures SplitLines(s + "\n") == [s] <==> OneLine(s)
  {
    var t := s + "\n";
    if OneLine(s) {
      assert t[..|s|] == s;
      LineLengthUnique(t, |s|);
      assert t[|s| + 1..] == "";
    } else {
      BreakComesFirst(s);
      assert SplitLines(t)[0] == t[..LineLength(t)];
    }
  }

  lemma {:induction false} BreakComesFirst(s: string)
    requires !OneLine(s)
    ensures LineLength(s + "\n") < |s|
  {
    var t := s + "\n";
    var i :| 0 <= i < |s| && IsLineBreak(s[i]);
    if LineLength(t) > i {
      NoBreakBefore(t, LineLength(t), i);
    }
  }

  lemma OneLineSplit(s: string)
    requires OneLine(s) && s != ""
    ensures SplitLines(s) == [s]
  {
    assert s[..|s|] == s;
    LineLengthUnique(s, |s|);
  }

  /** A line, a break of `m` characters, and the rest. */
  lemma LineThenRest(s: string, first: string, m: nat, rest: string)
    requires |s| == |first| + m + |rest| && s[..|first|] == first && s[|first| + m..] == rest && OneLine(first)
    requires m > 0 && IsLineBreak(s[|first|]) && BreakLength(s, |first|) == m
    ensures SplitLines(s) == [first] + SplitLines(rest)
  {
    LineLengthUnique(s, |first|);
    SplitFirst(s, |first|, first, rest);
  }

  /** Which characters split a text in two. */
  lemma SplitsIff(a: char, c: char, b: char)
    requires !IsLineBreak(a) && !IsLineBreak(b)
    ensures SplitLines([a, c, b]) == [[a], [b]] <==>
            || c == '\n' || c == '\r' || c == '\U{B}' || c == '\U{C}' || c == '\U{1C}' || c == '\U{1D}' || c == '\U{1E}'
            || c == '\U{85}' || c == '\U{2028}' || c == '\U{2029}'
    ensures SplitLines([a, c, b]) == [[a], [b]] || SplitLines([a, c, b]) == [[a, c, b]]
  {
    var s := [a, c, b];
    CharactersBetween(c);
    if IsLineBreak(c) {
      assert s[..1] == [a] && s[2..] == [b];
      OneLineSplit([b]);
      LineThenRest(s, [a], 1, [b]);
    } else {
      OneLineSplit(s);
    }
  }

  /** A carriage return and the line feed behind it are one break. */
  lemma CrLfSplitsOnce(a: char, b: char)
    requires !IsLineBreak(a) && !IsLineBreak(b)
    ensures SplitLines([a, '\r', '\n', b]) == [[a], [b]]
  {
    var s := [a, '\r', '\n', b];
    OneLineSplit([b]);
    assert s[..1] == [a] && s[3..] == [b];
    LineThenRest(s, [a], 2, [b]);
  }

  /** A line feed and the carriage return behind it are two. */
  lemma LfCrSplitsTwice(a: char, b: char)
    requires !IsLineBreak(a) && !IsLineBreak(b)
    ensures SplitLines([a, '\n', '\r', b]) == [[a], "", [b]]
  {
    var s, rest := [a, '\n', '\r', b], ['\r', b];
    OneLineSplit([b]);
    assert rest[..0] == "" && rest[1..] == [b];
    LineThenRest(rest, "", 1, [b]);
    assert s[..1] == [a] && s[2..] == rest;
    LineThenRest(s, [a], 1, rest);
  }
}
