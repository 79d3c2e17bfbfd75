/** Splitting sequences, and joining a list of lists. */
module Sequences {

  function Join<T>(parts: seq<seq<T>>): seq<T> {
    if parts == [] then [] else Join(parts[..|parts| - 1]) + parts[|parts| - 1]
  }

  lemma SplitLast<T>(s: seq<T>)
    requires s != []
    ensures s[..|s| - 1] + [s[|s| - 1]] == s
  {
  }

  lemma SliceSplit<T>(s: seq<T>, i: nat, j: nat)
    requires i <= j <= |s|
    ensures s[..i] + s[i..j] == s[..j]
  {
  }

  lemma Regroup<T>(a: seq<T>, b: seq<T>, c: seq<T>)
    ensures a + b + c == a + (b + c)
  {
  }

  lemma JoinPush<T>(parts: seq<seq<T>>, part: seq<T>)
    ensures Join(parts + [part]) == Join(parts) + part
  {
    assert (parts + [part])[..|parts|] == parts;
  }

  lemma {:induction false} JoinConcat<T>(a: seq<seq<T>>, b: seq<seq<T>>)
    ensures Join(a + b) == Join(a) + Join(b)
  {
    if b == [] {
      assert a + b == a;
    } else {
      var front, last := b[..|b| - 1], b[|b| - 1];
      JoinConcat(a, front);
      JoinPush(a + front, last);
      JoinPush(front, last);
      assert a + b == a + front + [last];
      assert front + [last] == b;
    }
  }

  lemma JoinThree<T>(front: seq<seq<T>>, part: seq<T>, rest: seq<seq<T>>)
    ensures Join(front + [part] + rest) == Join(front) + part + Join(rest)
  {
    JoinConcat(front + [part], rest);
    JoinPush(front, part);
  }

  /** A join is what comes before a part, the part, and what comes after it. */
  lemma {:induction false} JoinAround<T>(parts: seq<seq<T>>, i: nat)
    requires i < |parts|
    ensures Join(parts) == Join(parts[..i]) + parts[i] + Join(parts[i + 1..])
  {
    JoinThree(parts[..i], parts[i], parts[i + 1..]);
    assert parts == parts[..i] + [parts[i]] + parts[i + 1..];
  }
}
