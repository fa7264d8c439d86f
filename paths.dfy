/** String helpers from Go's `strings` and `path/filepath` packages. */
module Paths {

  /** `strings.HasPrefix(s, p)`. */
  predicate HasPrefix(s: string, p: string)
  {
    |p| <= |s| && s[..|p|] == p
  }

  /** The part `filepath.Join(dir, name)` puts in front of `name`: nothing for
      an empty directory, the directory itself when it already ends in a
      separator, and the directory followed by `/` otherwise. */
  function JoinPrefix(dir: string): string
  {
    if dir == "" then ""
    else if dir[|dir| - 1] == '/' then dir
    else dir + "/"
  }

  /** A `.` or `..` component starts at position `i` of `p`. */
  predicate DotComponentAt(p: string, i: nat)
    requires i < |p|
  {
    && (i == 0 || p[i - 1] == '/')
    && p[i] == '.'
    && (i + 1 == |p| || p[i + 1] == '/' || (p[i + 1] == '.' && (i + 2 == |p| || p[i + 2] == '/')))
  }

  /** A relative path `filepath.Clean` leaves as it is: not empty, no
      leading or trailing separator, no empty component and no `.` or `..`
      component. */
  predicate CleanRelative(p: string)
  {
    && p != ""
    && p[0] != '/' && p[|p| - 1] != '/'
    && (forall i :: 0 <= i < |p| - 1 ==> !(p[i] == '/' && p[i + 1] == '/'))
    && (forall i :: 0 <= i < |p| ==> !DotComponentAt(p, i))
  }

  /** A single file name other than `.` and `..` is clean. */
  lemma PlainNameIsClean(p: string)
    requires '/' !in p && p != "" && p != "." && p != ".."
    ensures CleanRelative(p)
  {
    forall i | 0 <= i < |p| ensures !DotComponentAt(p, i) {
      if i > 0 {
        assert p[i - 1] in p;
      } else if 1 < |p| {
        assert p[1] in p;
        if |p| > 2 { assert p[2] in p; } else { assert p == [p[0], p[1]]; }
      } else {
        assert p == [p[0]];
      }
    }
    assert p[0] in p && p[|p| - 1] in p;
  }

  /** `filepath.Join(dir, name)` without the final `filepath.Clean`. For a
      clean directory and a clean relative name the two agree; for other
      names Go's result differs (see `CleanRelative`). */
  function JoinPath(dir: string, name: string): (p: string)
    ensures CleanRelative(name) ==> |name| <= |p| && p[|p| - |name|..] == name
    ensures CleanRelative(name) ==> HasPrefix(p, dir)
    ensures CleanRelative(name) && dir == "" ==> p == name
  {
    JoinPrefix(dir) + name
  }

  /** Two joins of clean names on the same directory agree only when the
      names agree. Go's `filepath.Join` maps `a` and `x/../a` to one path,
      so the names must be clean. */
  lemma JoinPathInjective(dir: string, a: string, b: string)
    requires CleanRelative(a) && CleanRelative(b)
    requires JoinPath(dir, a) == JoinPath(dir, b)
    ensures a == b
  {
    var p := JoinPrefix(dir);
    assert a == (p + a)[|p|..];
    assert b == (p + b)[|p|..];
  }
}
