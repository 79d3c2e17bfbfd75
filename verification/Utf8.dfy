/** UTF-8: `str.encode("utf-8")` and `bytes.decode("utf-8", errors="replace")`. */
module Utf8 {
  import opened Sequences

  type Byte = b: int | 0 <= b < 0x100

  const REPLACEMENT: char := '\U{FFFD}'

  // ----- encoding ---------------------------------------------------------------------------------

  function EncodeChar(c: char): (bytes: seq<Byte>)
    ensures 1 <= |bytes| <= 4
  {
    var v := c as int;
    var v6 := v / 0x40;
    var v12 := v6 / 0x40;
    var v18 := v12 / 0x40;
    if v < 0x80 then [v]
    else if v < 0x800 then [0xC0 + v6, 0x80 + v % 0x40]
    else if v < 0x1_0000 then [0xE0 + v12, 0x80 + v6 % 0x40, 0x80 + v % 0x40]
    else [0xF0 + v18, 0x80 + v12 % 0x40, 0x80 + v6 % 0x40, 0x80 + v % 0x40]
  }

  function Encode(s: string): seq<Byte> {
    if s == "" then [] else EncodeChar(s[0]) + Encode(s[1..])
  }

  /** One character of each length, as section 3 of RFC 3629 encodes it. */
  lemma EncodesAs()
    ensures EncodeChar('A') == [0x41] && EncodeChar('\U{E9}') == [0xC3, 0xA9]
    ensures EncodeChar('\U{20AC}') == [0xE2, 0x82, 0xAC] && EncodeChar('\U{1F600}') == [0xF0, 0x9F, 0x98, 0x80]
  {
  }

  // ----- decoding ---------------------------------------------------------------------------------

  /** How many bytes a character has that begins with this byte; 0 if none does. */
  function Width(first: Byte): nat {
    if first < 0x80 then 1
    else if first < 0xC2 then 0
    else if first < 0xE0 then 2
    else if first < 0xF0 then 3
    else if first < 0xF5 then 4
    else 0
  }

  predicate IsContinuation(b: Byte) {
    0x80 <= b < 0xC0
  }

  /** The second byte must not make the form overlong, a surrogate, or more than U+10FFFF. */
  predicate MayFollow(first: Byte, second: Byte) {
    && IsContinuation(second)
    && (first == 0xE0 ==> second >= 0xA0) && (first == 0xED ==> second < 0xA0)
    && (first == 0xF0 ==> second >= 0x90) && (first == 0xF4 ==> second < 0x90)
  }

  /** How many bytes from `i` on begin a character, of the first `n`: all of it, or what one replacement stands for. */
  function Matched(data: seq<Byte>, i: nat, n: nat): (m: nat)
    requires i < n <= |data|
    ensures 1 <= m <= 4 && i + m <= n
  {
    var width := Width(data[i]);
    if width <= 1 || i + 1 == n || !MayFollow(data[i], data[i + 1]) then 1
    else if width == 2 || i + 2 == n || !IsContinuation(data[i + 2]) then 2
    else if width == 3 || i + 3 == n || !IsContinuation(data[i + 3]) then 3
    else 4
  }

  /** The six bits of a continuation byte. */
  function Low(b: Byte): int {
    b as int - 0x80
  }

  function CodePoint(data: seq<Byte>, i: nat, n: nat): (v: int)
    requires i < n <= |data| && Matched(data, i, n) == Width(data[i])
    ensures 0 <= v < 0xD800 || 0xE000 <= v < 0x11_0000
    ensures v < 0x80 <==> Matched(data, i, n) == 1
    ensures v < 0x1_0000 <==> Matched(data, i, n) <= 3
  {
    match Width(data[i])
    case 1 => data[i]
    case 2 => (data[i] as int - 0xC0) * 0x40 + Low(data[i + 1])
    case 3 => (data[i] as int - 0xE0) * 0x1000 + Low(data[i + 1]) * 0x40 + Low(data[i + 2])
    case _ => (data[i] as int - 0xF0) * 0x4_0000 + Low(data[i + 1]) * 0x1000 + Low(data[i + 2]) * 0x40 + Low(data[i + 3])
  }

  function CharAt(data: seq<Byte>, i: nat, n: nat): (c: char)
    requires i < n <= |data|
    ensures c < '\U{80}' ==> Matched(data, i, n) == 1
    ensures c == REPLACEMENT ==> Matched(data, i, n) <= 3
  {
    if Matched(data, i, n) == Width(data[i]) then CodePoint(data, i, n) as char else REPLACEMENT
  }

  /** `data[i:n].decode("utf-8", errors="replace")` */
  function Decode(data: seq<Byte>, i: nat, n: nat): (s: string)
    requires i <= n <= |data|
    ensures |s| <= n - i
    decreases n - i
  {
    if i == n then "" else [CharAt(data, i, n)] + Decode(data, i + Matched(data, i, n), n)
  }

  // ----- round trip -------------------------------------------------------------------------------

  lemma EncodedAt(c: char, data: seq<Byte>, i: nat)
    requires i + |EncodeChar(c)| <= |data| && data[i..i + |EncodeChar(c)|] == EncodeChar(c)
    ensures Matched(data, i, |data|) == |EncodeChar(c)| && CharAt(data, i, |data|) == c
  {
    var bytes := EncodeChar(c);
    assert forall j :: 0 <= j < |bytes| ==> data[i + j] == bytes[j];
  }

  lemma DecodeStep(data: seq<Byte>, i: nat, m: nat, c: char, rest: string)
    requires i < |data| && m == Matched(data, i, |data|) && c == CharAt(data, i, |data|)
    requires Decode(data, i + m, |data|) == rest
    ensures Decode(data, i, |data|) == [c] + rest
  {
  }

  /** Every text survives encoding and decoding. */
  lemma {:induction false} DecodeEncode(data: seq<Byte>, i: nat, s: string)
    requires i <= |data| && data[i..] == Encode(s)
    ensures Decode(data, i, |data|) == s
    decreases |s|
  {
    if s == "" {
      assert i == |data|;
    } else {
      var c, rest := s[0], s[1..];
      assert s == [c] + rest;
      var m := |EncodeChar(c)|;
      SliceApart(data, i, EncodeChar(c), Encode(rest));
      EncodedAt(c, data, i);
      DecodeEncode(data, i + m, rest);
      DecodeStep(data, i, m, c, rest);
    }
  }

  lemma SliceApart(data: seq<Byte>, i: nat, bytes: seq<Byte>, rest: seq<Byte>)
    requires i <= |data| && data[i..] == bytes + rest
    ensures i + |bytes| <= |data| && data[i..i + |bytes|] == bytes && data[i + |bytes|..] == rest
  {
    assert data[i..][..|bytes|] == bytes && data[i..][|bytes|..] == rest;
  }

  /** The bytes at a matched character are its encoding. */
  lemma MatchedIsEncoded(data: seq<Byte>, i: nat)
    requires i < |data| && Matched(data, i, |data|) == Width(data[i])
    ensures var c := CharAt(data, i, |data|);
            i + |EncodeChar(c)| <= |data| && data[i..i + |EncodeChar(c)|] == EncodeChar(c)
  {
    var m, v := Width(data[i]), CodePoint(data, i, |data|);
    var c := CharAt(data, i, |data|);
    assert c as int == v;
    match m {
      case 1 =>
      case 2 => Parts2(data[i] as int - 0xC0, Low(data[i + 1]));
      case 3 => Parts3(data[i] as int - 0xE0, Low(data[i + 1]), Low(data[i + 2]));
      case _ => Parts4(data[i] as int - 0xF0, Low(data[i + 1]), Low(data[i + 2]), Low(data[i + 3]));
    }
  }

  lemma Parts2(a: nat, b: nat)
    requires b < 0x40
    ensures (a * 0x40 + b) / 0x40 == a && (a * 0x40 + b) % 0x40 == b
  {
  }

  lemma Parts3(a: nat, b: nat, c: nat)
    requires b < 0x40 && c < 0x40
    ensures var v := a * 0x1000 + b * 0x40 + c;
            v / 0x40 / 0x40 == a && v / 0x40 % 0x40 == b && v % 0x40 == c
  {
    var v := a * 0x1000 + b * 0x40 + c;
    assert v == (a * 0x40 + b) * 0x40 + c;
    Parts2(a * 0x40 + b, c);
    Parts2(a, b);
  }

  lemma Parts4(a: nat, b: nat, c: nat, d: nat)
    requires b < 0x40 && c < 0x40 && d < 0x40
    ensures var v := a * 0x4_0000 + b * 0x1000 + c * 0x40 + d;
            && v / 0x40 / 0x40 / 0x40 == a && v / 0x40 / 0x40 % 0x40 == b
            && v / 0x40 % 0x40 == c && v % 0x40 == d
  {
    var v := a * 0x4_0000 + b * 0x1000 + c * 0x40 + d;
    assert v == (a * 0x1000 + b * 0x40 + c) * 0x40 + d;
    Parts2(a * 0x1000 + b * 0x40 + c, d);
    Parts3(a, b, c);
  }

  /** The encoding of some character stands at `i`. */
  predicate StandsAt(c: char, data: seq<Byte>, i: nat) {
    i + |EncodeChar(c)| <= |data| && data[i..i + |EncodeChar(c)|] == EncodeChar(c)
  }

  /**
   The decoder reads a character exactly where the encoding of one stands, namely that character, and
   puts a replacement everywhere else: overlong forms, surrogates and numbers too large are no encodings.
   */
  lemma DecodesIffEncoded(data: seq<Byte>, i: nat)
    requires i < |data|
    ensures forall c :: StandsAt(c, data, i) ==> CharAt(data, i, |data|) == c && Matched(data, i, |data|) == |EncodeChar(c)|
    ensures (forall c :: !StandsAt(c, data, i)) ==> CharAt(data, i, |data|) == REPLACEMENT
  {
    forall c | StandsAt(c, data, i)
      ensures CharAt(data, i, |data|) == c && Matched(data, i, |data|) == |EncodeChar(c)|
    {
      EncodedAt(c, data, i);
    }
    if Matched(data, i, |data|) == Width(data[i]) {
      MatchedIsEncoded(data, i);
      assert StandsAt(CharAt(data, i, |data|), data, i);
    }
  }

  lemma EncodingShape(c: char)
    ensures var e := EncodeChar(c);
            && Width(e[0]) == |e| && (|e| > 1 ==> MayFollow(e[0], e[1]))
            && forall j :: 1 < j < |e| ==> IsContinuation(e[j])
  {
  }

  /** The first `m` bytes at `i` begin the encoding of `c`, which is longer. */
  predicate BeginsAt(c: char, data: seq<Byte>, i: nat, m: nat) {
    i + m <= |data| && m < |EncodeChar(c)| && data[i..i + m] == EncodeChar(c)[..m]
  }

  /** A character whose encoding begins with these bytes. */
  lemma BegunCharacter(data: seq<Byte>, i: nat, m: nat) returns (c: char)
    requires i < |data| && m == Matched(data, i, |data|) && 1 < m < Width(data[i])
    ensures BeginsAt(c, data, i, m)
  {
    var b := Low(data[i + 1]);
    if Width(data[i]) == 3 {
      c := Begun3(data[i], data[i + 1]);
    } else {
      c := Begun4(data[i], data[i + 1], if m == 3 then data[i + 2] else 0x80);
    }
    assert data[i..i + m][0] == data[i] && data[i..i + m][1] == data[i + 1];
  }

  lemma Begun3(first: Byte, second: Byte) returns (c: char)
    requires Width(first) == 3 && MayFollow(first, second)
    ensures |EncodeChar(c)| == 3 && EncodeChar(c)[0] == first && EncodeChar(c)[1] == second
  {
    var v := (first as int - 0xE0) * 0x1000 + Low(second) * 0x40;
    Parts3(first as int - 0xE0, Low(second), 0);
    c := v as char;
  }

  lemma Begun4(first: Byte, second: Byte, third: Byte) returns (c: char)
    requires Width(first) == 4 && MayFollow(first, second) && IsContinuation(third)
    ensures |EncodeChar(c)| == 4 && EncodeChar(c)[0] == first && EncodeChar(c)[1] == second && EncodeChar(c)[2] == third
  {
    var v := (first as int - 0xF0) * 0x4_0000 + Low(second) * 0x1000 + Low(third) * 0x40;
    Parts4(first as int - 0xF0, Low(second), Low(third), 0);
    c := v as char;
  }

  /** The first `m` bytes at `i` begin some encoding that is longer. */
  ghost predicate Begins(data: seq<Byte>, i: nat, m: nat) {
    exists c :: BeginsAt(c, data, i, m)
  }

  /**
   Where no character is read, one replacement stands for as many bytes as begin some encoding, and no
   fewer; for one byte if none does.
   */
  lemma ReplacedBytes(data: seq<Byte>, i: nat)
    requires i < |data| && Matched(data, i, |data|) != Width(data[i])
    ensures Matched(data, i, |data|) == 1 || Begins(data, i, Matched(data, i, |data|))
    ensures !Begins(data, i, Matched(data, i, |data|) + 1)
    ensures forall c :: !StandsAt(c, data, i)
  {
    var m := Matched(data, i, |data|);
    var n := m + 1;
    if m > 1 {
      var c := BegunCharacter(data, i, m);
      assert BeginsAt(c, data, i, m);
    }
    forall c
      ensures !BeginsAt(c, data, i, n)
    {
      GoesNoFurther(c, data, i, n);
    }
    forall c
      ensures !StandsAt(c, data, i)
    {
      StandsNowhere(c, data, i);
    }
  }

  lemma StandsNowhere(c: char, data: seq<Byte>, i: nat)
    requires i < |data| && Matched(data, i, |data|) != Width(data[i])
    ensures !StandsAt(c, data, i)
  {
    EncodingShape(c);
    if StandsAt(c, data, i) {
      assert data[i] == data[i..i + |EncodeChar(c)|][0];
      EncodedAt(c, data, i);
    }
  }

  lemma BytesOf(e: seq<Byte>, data: seq<Byte>, i: nat, n: nat)
    requires i + n <= |data| && n <= |e| && data[i..i + n] == e[..n]
    ensures forall j :: 0 <= j < n ==> data[i + j] == e[j]
  {
    forall j | 0 <= j < n
      ensures data[i + j] == e[j]
    {
      assert data[i..i + n][j] == e[..n][j];
    }
  }

  lemma GoesNoFurther(c: char, data: seq<Byte>, i: nat, n: nat)
    requires i < |data| && Matched(data, i, |data|) != Width(data[i]) && n == Matched(data, i, |data|) + 1
    ensures !BeginsAt(c, data, i, n)
  {
    EncodingShape(c);
    if BeginsAt(c, data, i, n) {
      BytesOf(EncodeChar(c), data, i, n);
      ByteByByte(EncodeChar(c), data, i, n);
    }
  }

  lemma ByteByByte(e: seq<Byte>, data: seq<Byte>, i: nat, n: nat)
    requires 1 < n < |e| && i + n <= |data| && forall j :: 0 <= j < n ==> data[i + j] == e[j]
    requires Width(e[0]) == |e| && MayFollow(e[0], e[1]) && forall j :: 1 < j < |e| ==> IsContinuation(e[j])
    ensures Matched(data, i, |data|) >= n
  {
    assert data[i] == e[0] && data[i + 1] == e[1];
    if n > 2 {
      assert data[i + 2] == e[2];
    }
  }

  // ----- cutting ----------------------------------------------------------------------------------

  /** The last place up to `n` at which a character, or what one replacement stands for, begins. */
  function Boundary(data: seq<Byte>, i: nat, n: nat): (k: nat)
    requires i <= n <= |data|
    ensures i <= k <= n
    decreases n - i
  {
    if i == n || i + Matched(data, i, |data|) > n then i else Boundary(data, i + Matched(data, i, |data|), n)
  }

  lemma CharOfCut(data: seq<Byte>, i: nat, n: nat)
    requires i < n <= |data|
    ensures var m := Matched(data, i, |data|);
            && (i + m <= n ==> Matched(data, i, n) == m && CharAt(data, i, n) == CharAt(data, i, |data|))
            && (i + m > n ==> i + Matched(data, i, n) == n && CharAt(data, i, n) == REPLACEMENT
                              && n < |data| && IsContinuation(data[n]))
  {
  }

  /** What stands for the part of a character in front of a cut. */
  function Mark(k: nat, n: nat): string {
    if k == n then "" else [REPLACEMENT]
  }

  lemma DecodeBehind(data: seq<Byte>, i: nat, k: nat)
    requires i < k <= |data| && i + Matched(data, i, |data|) <= k
    ensures Decode(data, i, k) == [CharAt(data, i, |data|)] + Decode(data, i + Matched(data, i, |data|), k)
  {
    CharOfCut(data, i, k);
  }

  /** Cutting at `n` leaves what is in front of `k`, and one replacement if that is not all. */
  predicate CutsAt(data: seq<Byte>, i: nat, k: nat, n: nat)
    requires i <= k <= n <= |data|
  {
    && Decode(data, i, |data|) == Decode(data, i, k) + Decode(data, k, |data|)
    && Decode(data, i, n) == Decode(data, i, k) + Mark(k, n)
  }

  lemma CutFirst(data: seq<Byte>, i: nat, n: nat)
    requires i <= n <= |data| && (i == n || i + Matched(data, i, |data|) > n)
    ensures CutsAt(data, i, i, n)
  {
    if i < n {
      CharOfCut(data, i, n);
      assert Decode(data, i, n) == [REPLACEMENT];
    }
  }

  lemma {:induction false} CutBehind(data: seq<Byte>, i: nat, j: nat, k: nat, n: nat)
    requires i < n <= |data| && j == i + Matched(data, i, |data|) <= k <= n && CutsAt(data, j, k, n)
    ensures CutsAt(data, i, k, n)
  {
    var c := CharAt(data, i, |data|);
    DecodeBehind(data, i, |data|);
    DecodeBehind(data, i, k);
    DecodeBehind(data, i, n);
    Regroup([c], Decode(data, j, k), Decode(data, k, |data|));
    Regroup([c], Decode(data, j, k), Mark(k, n));
  }

  /** Data cut anywhere: whole characters, and if one is split, one replacement for what is left of it. */
  lemma {:induction false} DecodeCut(data: seq<Byte>, i: nat, n: nat)
    requires i <= n <= |data|
    ensures CutsAt(data, i, Boundary(data, i, n), n)
    decreases n - i
  {
    if i == n || i + Matched(data, i, |data|) > n {
      CutFirst(data, i, n);
    } else {
      var j := i + Matched(data, i, |data|);
      DecodeCut(data, j, n);
      CutBehind(data, i, j, Boundary(data, j, n), n);
    }
  }

  /** A cut behind a boundary is in front of a continuation byte, inside what begins at the boundary. */
  lemma {:induction false} CutInside(data: seq<Byte>, i: nat, n: nat)
    requires i <= n <= |data| && Boundary(data, i, n) < n
    ensures var k := Boundary(data, i, n); n < k + Matched(data, k, |data|) && IsContinuation(data[n])
    decreases n - i
  {
    CharOfCut(data, i, n);
    if i + Matched(data, i, |data|) <= n {
      CutInside(data, i + Matched(data, i, |data|), n);
    }
  }
}
