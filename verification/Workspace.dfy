/**
 The workspace test: is a path, taken relative to the working directory, inside it?
 The code compares strings; the lemmas compare lists of path components.
 Paths are lexical: symbolic links are not part of this model.
 */
module Workspace {

  // ----- path strings -------------------------------------------------------------------------

  predicate IsAbsolute(raw: string) {
    raw != "" && raw[0] == '/'
  }

  function Join(cwd: string, raw: string): string {
    if IsAbsolute(raw) then raw
    else if cwd == "" || cwd[|cwd| - 1] == '/' then cwd + raw
    else cwd + "/" + raw
  }

  /** Reads one more character: a slash opens a new piece, another one extends the last piece. */
  function Extend(parts: seq<string>, c: char): (more: seq<string>)
    requires parts != []
    ensures more != []
  {
    if c == '/' then parts + [""] else parts[..|parts| - 1] + [parts[|parts| - 1] + [c]]
  }

  /** The pieces of `s` between its slashes. */
  function Split(s: string): (parts: seq<string>)
    ensures parts != []
  {
    if s == "" then [""] else Extend(Split(s[..|s| - 1]), s[|s| - 1])
  }

  /** Walks `names` from the directory `at`: "" and "." stay, ".." leaves, a name enters. */
  function Fold(at: seq<string>, names: seq<string>): seq<string> {
    if names == [] then at
    else
      var here := Fold(at, names[..|names| - 1]);
      var name := names[|names| - 1];
      if name == "" || name == "." then here
      else if name == ".." then (if here == [] then [] else here[..|here| - 1])
      else here + [name]
  }

  function Slashed(names: seq<string>): string {
    if names == [] then "" else Slashed(names[..|names| - 1]) + "/" + names[|names| - 1]
  }

  function Render(names: seq<string>): string {
    if names == [] then "/" else Slashed(names)
  }

  /** `os.path.realpath` of an absolute path when no component is a symbolic link. */
  function RealPath(path: string): string {
    Render(Fold([], Split(path)))
  }

  function NormalizePath(cwd: string, raw: string): string {
    RealPath(if IsAbsolute(raw) then raw else Join(cwd, raw))
  }

  predicate IsInCwd(cwd: string, raw: string) {
    var rp := NormalizePath(cwd, raw);
    rp == cwd || cwd + "/" <= rp
  }

  // ----- component lists ----------------------------------------------------------------------

  predicate IsName(n: string) {
    n != "" && n != "." && n != ".." && '/' !in n
  }

  predicate Proper(names: seq<string>) {
    forall n :: n in names ==> IsName(n)
  }

  /** The directory that `raw` names, as components, for a working directory `root`. */
  function Target(root: seq<string>, raw: string): seq<string> {
    Fold(if IsAbsolute(raw) then [] else root, Split(raw))
  }

  predicate Pieces(names: seq<string>) {
    forall n :: n in names ==> '/' !in n
  }

  lemma {:induction false} SplitPieces(s: string)
    ensures Pieces(Split(s))
  {
    if s != "" {
      SplitPieces(s[..|s| - 1]);
    }
  }

  lemma {:induction false} FoldProper(at: seq<string>, names: seq<string>)
    requires Proper(at) && Pieces(names)
    ensures Proper(Fold(at, names))
  {
    if names != [] {
      FoldProper(at, names[..|names| - 1]);
    }
  }

  lemma {:induction false} FoldConcat(at: seq<string>, a: seq<string>, b: seq<string>)
    ensures Fold(at, a + b) == Fold(Fold(at, a), b)
  {
    if b == [] {
      assert a + b == a;
    } else {
      assert (a + b)[..|a + b| - 1] == a + b[..|b| - 1];
      FoldConcat(at, a, b[..|b| - 1]);
    }
  }

  /** Walking proper names from the root arrives at exactly those names. */
  lemma {:induction false} FoldNames(at: seq<string>, names: seq<string>)
    requires Proper(names)
    ensures Fold(at, names) == at + names
  {
    if names != [] {
      var front, name := names[..|names| - 1], names[|names| - 1];
      FoldNames(at, front);
      assert name in names;
      assert at + front + [name] == at + names;
    }
  }

  lemma SplitPush(s: string, c: char)
    ensures Split(s + [c]) == Extend(Split(s), c)
  {
    assert (s + [c])[..|s|] == s;
  }

  lemma ExtendConcat(a: seq<string>, b: seq<string>, c: char)
    requires b != []
    ensures Extend(a + b, c) == a + Extend(b, c)
  {
    assert (a + b)[..|a + b| - 1] == a + b[..|b| - 1];
  }

  lemma {:induction false} SplitConcat(x: string, y: string)
    ensures Split(x + "/" + y) == Split(x) + Split(y)
  {
    if y == "" {
      SplitPush(x, '/');
      assert x + "/" + y == x + ['/'];
    } else {
      var front, c := y[..|y| - 1], y[|y| - 1];
      SplitConcat(x, front);
      var whole := x + "/" + front;
      assert x + "/" + y == whole + [c];
      assert y == front + [c];
      SplitPush(whole, c);
      SplitPush(front, c);
      ExtendConcat(Split(x), Split(front), c);
    }
  }

  lemma {:induction false} SplitPiece(n: string)
    requires '/' !in n
    ensures Split(n) == [n]
  {
    if n != "" {
      var front, c := n[..|n| - 1], n[|n| - 1];
      assert n == front + [c];
      SplitPiece(front);
      SplitPush(front, c);
      ExtendPiece(front, c);
    }
  }

  lemma ExtendPiece(n: string, c: char)
    requires c != '/'
    ensures Extend([n], c) == [n + [c]]
  {
  }

  lemma {:induction false} SplitSlashed(names: seq<string>)
    requires Pieces(names)
    ensures Split(Slashed(names)) == [""] + names
  {
    if names != [] {
      var front, name := names[..|names| - 1], names[|names| - 1];
      SplitSlashed(front);
      SplitConcat(Slashed(front), name);
      SplitPiece(name);
    }
  }

  lemma {:induction false} SlashedConcat(a: seq<string>, b: seq<string>)
    ensures Slashed(a + b) == Slashed(a) + Slashed(b)
  {
    if b == [] {
      assert a + b == a;
    } else {
      assert (a + b)[..|a + b| - 1] == a + b[..|b| - 1];
      SlashedConcat(a, b[..|b| - 1]);
    }
  }

  lemma {:induction false} SlashedStarts(names: seq<string>)
    requires names != []
    ensures "/" <= Slashed(names)
  {
    if |names| > 1 {
      SlashedStarts(names[..|names| - 1]);
    }
  }

  /** Rendered component lists are equal as strings only if they are equal. */
  lemma RenderInjective(a: seq<string>, b: seq<string>)
    requires Proper(a) && Proper(b) && Render(a) == Render(b)
    ensures a == b
  {
    RealPathRender(a);
    RealPathRender(b);
    SplitRender(a);
    SplitRender(b);
    FoldNames([], a);
    FoldNames([], b);
  }

  /** Splitting a rendered list gives it back, up to empty pieces. */
  lemma SplitRender(names: seq<string>)
    requires Proper(names)
    ensures Fold([], Split(Render(names))) == names
  {
    if names == [] {
      SplitConcat("", "");
      assert "" + "/" + "" == "/";
    } else {
      SplitSlashed(names);
      FoldConcat([], [""], names);
      FoldNames([], names);
    }
  }

  /** A canonical path is its own real path. */
  lemma RealPathRender(names: seq<string>)
    requires Proper(names)
    ensures RealPath(Render(names)) == Render(names)
  {
    SplitRender(names);
  }

  /** Normalising is the same as walking from the working directory, or from "/" if absolute. */
  lemma NormalizeIsTarget(root: seq<string>, raw: string)
    requires Proper(root)
    ensures NormalizePath(Render(root), raw) == Render(Target(root, raw))
    ensures Proper(Target(root, raw))
  {
    SplitPieces(raw);
    FoldProper([], Split(raw));
    FoldProper(root, Split(raw));
    if !IsAbsolute(raw) {
      if root == [] {
        assert Join("/", raw) == "" + "/" + raw;
        SplitConcat("", raw);
        FoldConcat([], [""], Split(raw));
      } else {
        SlashedNotEndingInSlash(root);
        SplitConcat(Slashed(root), raw);
        FoldConcat([], Split(Slashed(root)), Split(raw));
        SplitRender(root);
      }
    }
  }

  lemma SlashedNotEndingInSlash(names: seq<string>)
    requires Proper(names) && names != []
    ensures Slashed(names) != "" && Slashed(names)[|Slashed(names)| - 1] != '/'
  {
    var name := names[|names| - 1];
    assert name in names && name[|name| - 1] in name;
  }

  /**
   The string test agrees with "the root's components are a prefix of the path's", except for
   the root directory "/", inside which only "/" itself passes.
   */
  lemma PrefixTest(root: seq<string>, path: seq<string>)
    requires Proper(root) && Proper(path)
    ensures (Render(path) == Render(root) || Render(root) + "/" <= Render(path))
            <==> root <= path && (root != [] || path == [])
  {
    if root <= path && root != [] && root != path {
      PrefixRenders(root, path);
    }
    if Render(path) == Render(root) {
      RenderInjective(path, root);
    } else if Render(root) + "/" <= Render(path) {
      PrefixParses(root, path);
    }
  }

  lemma PrefixRenders(root: seq<string>, path: seq<string>)
    requires root != [] && root < path
    ensures Render(root) + "/" <= Render(path)
  {
    var rest := path[|root|..];
    assert path == root + rest;
    SlashedConcat(root, rest);
    SlashedStarts(rest);
  }

  lemma PrefixParses(root: seq<string>, path: seq<string>)
    requires Proper(root) && Proper(path)
    requires Render(root) + "/" <= Render(path)
    ensures root != [] && root <= path
  {
    if path == [] {
      if root != [] {
        SlashedNotEndingInSlash(root);
      }
      assert false;
    }
    if root == [] {
      SlashedSecond(path);
      assert false;
    }
    var tail := Slashed(path)[|Slashed(root)| + 1..];
    assert Slashed(path) == Slashed(root) + "/" + tail;
    SplitOfPrefix(root, path, tail);
  }

  lemma SplitOfPrefix(root: seq<string>, path: seq<string>, tail: string)
    requires Proper(root) && Proper(path)
    requires Slashed(path) == Slashed(root) + "/" + tail
    ensures path == root + Split(tail)
  {
    SplitSlashed(root);
    SplitSlashed(path);
    SplitConcat(Slashed(root), tail);
    DropHead("", path, root, Split(tail));
  }

  lemma DropHead<T>(x: T, a: seq<T>, b: seq<T>, c: seq<T>)
    requires [x] + a == [x] + b + c
    ensures a == b + c
  {
    assert ([x] + a)[1..] == a;
    assert ([x] + b + c)[1..] == b + c;
  }

  lemma {:induction false} SlashedSecond(names: seq<string>)
    requires Proper(names) && names != []
    ensures |Slashed(names)| >= 2 && Slashed(names)[1] != '/'
  {
    var name := names[|names| - 1];
    assert name in names && name[0] in name;
    if |names| == 1 {
      assert Slashed(names) == "/" + name;
    } else {
      SlashedSecond(names[..|names| - 1]);
    }
  }

  /**
   The workspace test on raw paths. It is the component test for every root but "/", and for "/"
   exactly when the path is "/" itself.
   */
  lemma InCwdIsPrefix(root: seq<string>, raw: string)
    requires Proper(root)
    ensures IsInCwd(Render(root), raw) <==> root <= Target(root, raw) && (root != [] || Target(root, raw) == [])
    ensures (IsInCwd(Render(root), raw) <==> root <= Target(root, raw)) <==>
            (Render(root) != "/" || NormalizePath("/", raw) == "/")
  {
    NormalizeIsTarget(root, raw);
    PrefixTest(root, Target(root, raw));
    RenderRoot(root);
    RenderRoot(Target(root, raw));
  }

  lemma RenderRoot(names: seq<string>)
    requires Proper(names)
    ensures Render(names) == "/" <==> names == []
  {
    if names != [] {
      SlashedNotEndingInSlash(names);
    }
  }

  /** The root "/" is the one workspace that does not contain its own files. */
  lemma RootWorkspaceRejectsItsFiles(name: string)
    requires IsName(name)
    ensures [] <= Target([], "/" + name) && !IsInCwd("/", "/" + name)
  {
    assert "" + "/" + name == "/" + name;
    SplitConcat("", name);
    SplitPiece(name);
    FoldConcat([], [""], [name]);
    FoldNames([], [name]);
    InCwdIsPrefix([], "/" + name);
  }

  /** Below a root other than "/", a relative path with no ".." piece never leaves the workspace. */
  lemma DescendingPathStaysInside(root: seq<string>, raw: string)
    requires Proper(root) && root != []
    requires !IsAbsolute(raw) && ".." !in Split(raw)
    ensures IsInCwd(Render(root), raw)
  {
    FoldDescends(root, Split(raw));
    InCwdIsPrefix(root, raw);
  }

  lemma {:induction false} FoldDescends(at: seq<string>, names: seq<string>)
    requires ".." !in names
    ensures at <= Fold(at, names)
  {
    if names != [] {
      FoldDescends(at, names[..|names| - 1]);
    }
  }

  // ----- a path, step by step ---------------------------------------------------------------------

  /** The directory above; the root is above itself. */
  function Parent(names: seq<string>): seq<string> {
    if names == [] then [] else names[..|names| - 1]
  }

  /** Where one step leads: a name enters, ".." leaves, "" and "." stay. */
  function Stepped(at: seq<string>, name: string): seq<string> {
    if name == "" || name == "." then at else if name == ".." then Parent(at) else at + [name]
  }

  lemma FoldOne(at: seq<string>, name: string)
    ensures Fold(at, [name]) == Stepped(at, name)
  {
    assert [name][..0] == [];
  }

  lemma {:induction false} TargetOfPiece(root: seq<string>, name: string)
    requires '/' !in name
    ensures Target(root, name) == Stepped(root, name)
    ensures Target(root, "/" + name) == Stepped([], name)
  {
    SplitPiece(name);
    FoldOne(root, name);
    SplitConcat("", name);
    SplitPiece("");
    assert "" + "/" + name == "/" + name;
    FoldConcat([], [""], [name]);
    FoldOne([], "");
    FoldOne([], name);
  }

  /** Where the shortest paths lead. */
  lemma {:induction false} TargetBegins(root: seq<string>, name: string)
    requires IsName(name)
    ensures Target(root, "") == root && Target(root, ".") == root && Target(root, "..") == Parent(root)
    ensures Target(root, name) == root + [name]
    ensures Target(root, "/" + "") == [] && Target(root, "/" + name) == [name]
  {
    TargetOfPiece(root, "");
    TargetOfPiece(root, ".");
    TargetOfPiece(root, "..");
    TargetOfPiece(root, name);
  }

  lemma {:induction false} TargetPiece(root: seq<string>, raw: string, name: string)
    requires raw != "" && '/' !in name
    ensures Target(root, raw + "/" + name) == Stepped(Target(root, raw), name)
  {
    var at := if IsAbsolute(raw) then [] else root;
    assert IsAbsolute(raw + "/" + name) == IsAbsolute(raw);
    SplitConcat(raw, name);
    SplitPiece(name);
    FoldConcat(at, Split(raw), [name]);
    FoldOne(Fold(at, Split(raw)), name);
  }

  /** Each further step of a path goes on from where the path led: it enters a name, leaves by "..", or stays. */
  lemma {:induction false} TargetStep(root: seq<string>, raw: string, name: string)
    requires raw != "" && IsName(name)
    ensures Target(root, raw + "/" + name) == Target(root, raw) + [name]
    ensures Target(root, raw + "/" + "..") == Parent(Target(root, raw))
    ensures Target(root, raw + "/" + ".") == Target(root, raw)
    ensures Target(root, raw + "/" + "") == Target(root, raw)
  {
    TargetPiece(root, raw, name);
    TargetPiece(root, raw, "..");
    TargetPiece(root, raw, ".");
    TargetPiece(root, raw, "");
  }

  /** One step up leaves every workspace but "/". */
  lemma {:induction false} ParentIsOutside(root: seq<string>)
    requires Proper(root) && root != []
    ensures !IsInCwd(Render(root), "..")
  {
    TargetOfPiece(root, "..");
    InCwdIsPrefix(root, "..");
  }
}
