/**
 * POSIX `base::FilePath` operations the modelled code relies on: joining a
 * component, the parent directory, and the component-wise parent test.
 * Paths are strings with '/' as the only separator.
 */
module FilePath {
  import opened Wrappers

  const Separator: char := '/'

  /** No separator in `s`: a single path component. */
  predicate IsComponent(s: string)
  {
    s != [] && Separator !in s
  }

  predicate EndsWithSeparator(p: string)
  {
    |p| > 0 && p[|p| - 1] == Separator
  }

  /**
   * Joining a component with separator `sep` (a backslash on Windows): a
   * separator is inserted unless the path is empty or already ends in one.
   * This is `FilePath::Append` for a non-empty component appended to a path
   * other than "." that does not end in two or more separators; `Append`
   * itself also returns the bare component for ".", strips trailing
   * separators first, and adds no separator for an empty component.
   */
  function AppendWith(sep: char, dir: string, component: string): (r: string)
    ensures |r| >= |dir| + |component|
    ensures r[..|dir|] == dir && r[|r| - |component|..] == component
  {
    if dir == [] || dir[|dir| - 1] == sep then dir + component
    else dir + [sep] + component
  }

  function Append(dir: string, component: string): (r: string)
  {
    AppendWith(Separator, dir, component)
  }

  /** Trailing separators removed, but a root "/" is kept. */
  function StripTrailingSeparators(p: string): (r: string)
    ensures |r| <= |p| && r == p[..|r|]
    ensures |p| > 0 ==> |r| > 0
    decreases |p|
  {
    if |p| > 1 && EndsWithSeparator(p) then StripTrailingSeparators(p[..|p| - 1]) else p
  }

  /** Index of the last separator in `p`, if any. */
  function LastSeparator(p: string): (r: Option<nat>)
    ensures r.Some? ==> r.value < |p| && p[r.value] == Separator &&
                        Separator !in p[r.value + 1..]
    ensures r.None? <==> Separator !in p
    decreases |p|
  {
    if p == [] then None
    else if p[|p| - 1] == Separator then Some(|p| - 1)
    else
      var r := LastSeparator(p[..|p| - 1]);
      assert p == p[..|p| - 1] + [p[|p| - 1]];
      if r.Some? then
        assert p[r.value + 1..] == p[..|p| - 1][r.value + 1..] + [p[|p| - 1]];
        r
      else None
  }

  /**
   * `FilePath::DirName`: "." without a separator, the root for "/x", "//"
   * for "//x", otherwise everything before the last separator.
   */
  function DirName(p: string): string
  {
    var q := StripTrailingSeparators(p);
    match LastSeparator(q)
    case None => "."
    case Some(k) =>
      if k == 0 then q[..1]
      else if k == 1 && q[0] == Separator then q[..2]
      else StripTrailingSeparators(q[..k])
  }

  /** The separator before a separator-free component is the last one. */
  lemma LastSeparatorBeforeComponent(dir: string, name: string)
    requires IsComponent(name)
    ensures LastSeparator(dir + [Separator] + name) == Some(|dir|)
  {
    var p := dir + [Separator] + name;
    assert p[|dir| + 1..] == name;
    LastSeparatorUnique(p, |dir|);
  }

  /** The last separator is the one with none after it. */
  lemma LastSeparatorUnique(p: string, k: nat)
    requires k < |p| && p[k] == Separator && Separator !in p[k + 1..]
    ensures LastSeparator(p) == Some(k)
  {
    hide LastSeparator;
    var r := LastSeparator(p);
    assert r.Some? by { assert p[k] in p; }
  }

  /** A path ending in a component has no trailing separator to strip. */
  lemma NothingToStrip(p: string, name: string)
    requires IsComponent(name) && |p| >= |name| && p[|p| - |name|..] == name
    ensures StripTrailingSeparators(p) == p
  {
    assert p[|p| - 1] == name[|name| - 1];
    assert name[|name| - 1] in name;
  }

  /** A separator-free component after a non-root directory has that directory as its parent. */
  lemma DirNameOfAppend(dir: string, name: string)
    requires dir != [] && !EndsWithSeparator(dir)
    requires IsComponent(name)
    ensures DirName(Append(dir, name)) == dir
  {
    var p := dir + [Separator] + name;
    assert Append(dir, name) == p;
    assert p[|p| - |name|..] == name;
    NothingToStrip(p, name);
    LastSeparatorBeforeComponent(dir, name);
    assert p[..|dir|] == dir;
    if |dir| == 1 {
      assert dir[0] != Separator;
    }
  }

  /** `FilePath::BaseName`: the last component, or the root itself. */
  function BaseName(p: string): string
  {
    var q := StripTrailingSeparators(p);
    match LastSeparator(q)
    case None => q
    case Some(k) => if k + 1 == |q| then q else q[k + 1..]
  }

  /** The component appended last is the base name. */
  lemma BaseNameOfAppend(dir: string, name: string)
    requires IsComponent(name)
    ensures BaseName(Append(dir, name)) == name
  {
    var p := Append(dir, name);
    assert p[|p| - |name|..] == name;
    NothingToStrip(p, name);
    if dir != [] {
      var k := |p| - |name| - 1;
      assert p[k] == Separator;
      assert p[k + 1..] == name;
      LastSeparatorUnique(p, k);
    }
  }

  /** The non-empty pieces between separators. */
  function Pieces(s: string): seq<string>
    decreases |s|
  {
    if s == [] then []
    else if s[0] == Separator then Pieces(s[1..])
    else
      var k := FirstSeparatorOrEnd(s, 0);
      [s[..k]] + (if k < |s| then Pieces(s[k + 1..]) else [])
  }

  function FirstSeparatorOrEnd(s: string, i: nat): (k: nat)
    requires i <= |s|
    ensures i <= k <= |s| && (k < |s| ==> s[k] == Separator)
    ensures forall j :: i <= j < k ==> s[j] != Separator
    decreases |s| - i
  {
    if i == |s| || s[i] == Separator then i else FirstSeparatorOrEnd(s, i + 1)
  }

  /** `FilePath::GetComponents`: the root first for an absolute path, then each piece. */
  function Components(p: string): seq<string>
  {
    (if |p| > 0 && p[0] == Separator then ["/"] else []) + Pieces(p)
  }

  /** `FilePath::IsParent`: the parent's components, of which there is at least one, are a strict prefix of the child's. */
  predicate IsParent(parent: string, child: string)
  {
    var pc := Components(parent);
    var cc := Components(child);
    0 < |pc| < |cc| && cc[..|pc|] == pc
  }

  /** The empty path is nobody's parent. */
  lemma EmptyIsNoParent(child: string)
    ensures !IsParent("", child)
  {
    assert Components("") == [];
  }

  /** Nothing is its own parent. */
  lemma NotOwnParent(p: string)
    ensures !IsParent(p, p)
  {
  }
}
