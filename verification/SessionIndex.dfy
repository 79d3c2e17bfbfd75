/** The index of sessions by working directory, and the order of its timestamps. */
module SessionIndex {
  import opened Wrappers
  import Decimal

  // ----- the order of strings -----------------------------------------------------------------

  /** Python's `<=` on strings. */
  predicate LexLe(a: string, b: string) {
    if a == "" then true
    else if b == "" then false
    else a[0] < b[0] || (a[0] == b[0] && LexLe(a[1..], b[1..]))
  }

  lemma {:induction false} LexTotal(a: string, b: string)
    ensures LexLe(a, b) || LexLe(b, a)
    ensures LexLe(a, b) && LexLe(b, a) <==> a == b
  {
    if a != "" && b != "" {
      LexTotal(a[1..], b[1..]);
      assert a == [a[0]] + a[1..] && b == [b[0]] + b[1..];
    }
  }

  lemma {:induction false} LexTransitive(a: string, b: string, c: string)
    requires LexLe(a, b) && LexLe(b, c)
    ensures LexLe(a, c)
  {
    if a != "" && b != "" && c != "" && a[0] == b[0] == c[0] {
      LexTransitive(a[1..], b[1..], c[1..]);
    }
  }

  // ----- the index ----------------------------------------------------------------------------

  datatype Row = Row(sessionId: string, cwd: string, ts: string)

  /** Row `k` is the latest one of its directory: none is later, and none after it is as late. */
  ghost predicate IsLatest(rows: seq<Row>, cwd: string, k: nat) {
    && k < |rows| && rows[k].cwd == cwd
    && (forall j :: 0 <= j < |rows| && rows[j].cwd == cwd ==> LexLe(rows[j].ts, rows[k].ts))
    && (forall j :: k < j < |rows| && rows[j].cwd == cwd ==> rows[j].ts != rows[k].ts)
  }

  class SessionIndex {
    var rows: seq<Row>

    constructor ()
      ensures rows == []
    {
      rows := [];
    }

    method Update(sessionId: string, cwd: string, ts: string) returns (s: Signal)
      modifies this
      ensures s.Ok? ==> rows == old(rows) + [Row(sessionId, cwd, ts)]
      ensures s.Raised? ==> s.cause == External && rows == old(rows)
    {
      if * {
        return Raised(External);
      }
      rows := rows + [Row(sessionId, cwd, ts)];
      s := Ok;
    }

    method GetLatestForCwd(cwd: string) returns (latest: Option<string>)
      ensures latest.None? <==> forall j :: 0 <= j < |rows| ==> rows[j].cwd != cwd
      ensures latest.Some? ==> exists k: nat :: IsLatest(rows, cwd, k) && latest.value == rows[k].sessionId
    {
      latest := None;
      var latestTs: Option<string> := None;
      ghost var k := 0;
      var i := 0;
      while i < |rows|
        invariant 0 <= i <= |rows|
        invariant latest.None? <==> latestTs.None?
        invariant latest.None? ==> forall j :: 0 <= j < i ==> rows[j].cwd != cwd
        invariant latest.Some? ==> IsLatest(rows[..i], cwd, k)
        invariant latest.Some? ==> latest.value == rows[k].sessionId && latestTs.value == rows[k].ts
      {
        var row := rows[i];
        assert rows[..i + 1] == rows[..i] + [row];
        i := i + 1;
        if row.cwd != cwd {
          continue;
        }
        if latestTs.None? || LexLe(latestTs.value, row.ts) {
          LatestMoves(rows[..i - 1], row, latestTs);
          latestTs := Some(row.ts);
          latest := Some(row.sessionId);
          k := i - 1;
        } else {
          LexTotal(latestTs.value, row.ts);
        }
      }
      assert rows[..i] == rows;
    }
  }

  lemma LatestMoves(rows: seq<Row>, row: Row, ts: Option<string>)
    requires ts.None? ==> forall j :: 0 <= j < |rows| ==> rows[j].cwd != row.cwd
    requires ts.Some? ==>
               && LexLe(ts.value, row.ts)
               && forall j :: 0 <= j < |rows| && rows[j].cwd == row.cwd ==> LexLe(rows[j].ts, ts.value)
    ensures IsLatest(rows + [row], row.cwd, |rows|)
  {
    forall j | 0 <= j < |rows + [row]| && (rows + [row])[j].cwd == row.cwd
      ensures LexLe((rows + [row])[j].ts, row.ts)
    {
      if j < |rows| {
        LexTransitive(rows[j].ts, ts.value, row.ts);
      } else {
        LexTotal(row.ts, row.ts);
      }
    }
  }

  /** The latest row is determined. */
  lemma LatestUnique(rows: seq<Row>, cwd: string, k: nat, l: nat)
    requires IsLatest(rows, cwd, k) && IsLatest(rows, cwd, l)
    ensures k == l
  {
    LexTotal(rows[k].ts, rows[l].ts);
  }

  /**
   A row appended with a timestamp not before those of its directory becomes the latest one: the
   session that just returned is the one that is continued next.
   */
  lemma UpdateIsContinued(rows: seq<Row>, row: Row, k: nat)
    requires forall j :: 0 <= j < |rows| && rows[j].cwd == row.cwd ==> LexLe(rows[j].ts, row.ts)
    ensures IsLatest(rows + [row], row.cwd, k) <==> k == |rows|
  {
    var all := rows + [row];
    LexTotal(row.ts, row.ts);
    assert IsLatest(all, row.cwd, |rows|);
    if IsLatest(all, row.cwd, k) {
      LatestUnique(all, row.cwd, k, |rows|);
    }
  }

  // ----- timestamps of fixed width ------------------------------------------------------------

  /** `n` in `w` digits. */
  function Pad(n: nat, w: nat): (s: string)
    ensures |s| == w
  {
    if w == 0 then "" else Pad(n / 10, w - 1) + [Decimal.DigitChar(n % 10)]
  }

  /** Padding keeps the number. */
  lemma {:induction false} PadParses(n: nat, w: nat)
    requires n < Decimal.Power(w)
    ensures Decimal.AllDigits(Pad(n, w)) && Decimal.Parse(Pad(n, w)) == n
  {
    if w > 0 {
      PadParses(n / 10, w - 1);
      assert Pad(n, w)[..w - 1] == Pad(n / 10, w - 1);
    }
  }

  lemma {:induction false} LexConcat(a: string, b: string, c: string, d: string)
    requires |a| == |c|
    ensures LexLe(a + b, c + d) <==> if a == c then LexLe(b, d) else LexLe(a, c)
  {
    if a == "" {
      assert a + b == b && c + d == d;
    } else {
      assert (a + b)[1..] == a[1..] + b && (c + d)[1..] == c[1..] + d;
      assert a == [a[0]] + a[1..] && c == [c[0]] + c[1..];
      LexConcat(a[1..], b, c[1..], d);
    }
  }

  /** At a fixed width the order of the strings is the order of the numbers. */
  lemma {:induction false} PadOrder(m: nat, n: nat, w: nat)
    requires m < Decimal.Power(w) && n < Decimal.Power(w)
    ensures LexLe(Pad(m, w), Pad(n, w)) <==> m <= n
    ensures Pad(m, w) == Pad(n, w) <==> m == n
  {
    if w > 0 {
      PadOrder(m / 10, n / 10, w - 1);
      var x, y := Decimal.DigitChar(m % 10), Decimal.DigitChar(n % 10);
      assert Decimal.DigitValue(x) == m % 10 && Decimal.DigitValue(y) == n % 10;
      LexConcat(Pad(m / 10, w - 1), [x], Pad(n / 10, w - 1), [y]);
      assert LexLe([x], [y]) <==> m % 10 <= n % 10;
      PadsEqual(Pad(m / 10, w - 1), x, Pad(n / 10, w - 1), y);
    }
  }

  lemma PadsEqual(a: string, x: char, b: string, y: char)
    requires |a| == |b|
    ensures a + [x] == b + [y] <==> a == b && x == y
  {
    if a + [x] == b + [y] {
      assert (a + [x])[..|a|] == a && (b + [y])[..|b|] == b;
      assert (a + [x])[|a|] == x && (b + [y])[|b|] == y;
    }
  }

  /** A UTC timestamp with microseconds; the numbers need only fit their widths. */
  datatype Stamp = Stamp(year: nat, month: nat, day: nat, hour: nat, minute: nat, second: nat, micro: nat)

  predicate Fits(t: Stamp) {
    && t.year < Decimal.Power(4) && t.month < Decimal.Power(2) && t.day < Decimal.Power(2) && t.hour < Decimal.Power(2)
    && t.minute < Decimal.Power(2) && t.second < Decimal.Power(2) && t.micro < Decimal.Power(6)
  }

  /** Numbers, each printed at its width and followed by its separator. */
  function Fields(ns: seq<nat>, ws: seq<nat>, seps: seq<char>): string
    requires |ns| == |ws| == |seps|
  {
    if ns == [] then "" else Pad(ns[0], ws[0]) + ([seps[0]] + Fields(ns[1..], ws[1..], seps[1..]))
  }

  predicate NumbersLe(a: seq<nat>, b: seq<nat>)
    requires |a| == |b|
  {
    a == [] || a[0] < b[0] || (a[0] == b[0] && NumbersLe(a[1..], b[1..]))
  }

  lemma {:induction false} FieldsOrder(a: seq<nat>, b: seq<nat>, ws: seq<nat>, seps: seq<char>)
    requires |a| == |b| == |ws| == |seps|
    requires forall i :: 0 <= i < |a| ==> a[i] < Decimal.Power(ws[i]) && b[i] < Decimal.Power(ws[i])
    ensures LexLe(Fields(a, ws, seps), Fields(b, ws, seps)) <==> NumbersLe(a, b)
  {
    if a != [] {
      FieldsOrder(a[1..], b[1..], ws[1..], seps[1..]);
      PadOrder(a[0], b[0], ws[0]);
      var x, y := Fields(a[1..], ws[1..], seps[1..]), Fields(b[1..], ws[1..], seps[1..]);
      LexConcat(Pad(a[0], ws[0]), [seps[0]] + x, Pad(b[0], ws[0]), [seps[0]] + y);
      LexConcat([seps[0]], x, [seps[0]], y);
    }
  }

  const WIDTHS: seq<nat> := [4, 2, 2, 2, 2, 2, 6]

  function Numbers(t: Stamp): seq<nat> {
    [t.year, t.month, t.day, t.hour, t.minute, t.second, t.micro]
  }

  /** YYYY-MM-DDTHH:MM:SS.ffffffZ */
  function Render(t: Stamp): string {
    Fields(Numbers(t), WIDTHS, ['-', '-', 'T', ':', ':', '.', 'Z'])
  }

  /** Comparing rendered timestamps as text compares the times. */
  lemma StampOrder(a: Stamp, b: Stamp)
    requires Fits(a) && Fits(b)
    ensures LexLe(Render(a), Render(b)) <==> NumbersLe(Numbers(a), Numbers(b))
  {
    FieldsOrder(Numbers(a), Numbers(b), WIDTHS, ['-', '-', 'T', ':', ':', '.', 'Z']);
  }
}
