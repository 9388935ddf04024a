/** A small Option type for searches that may find nothing. */
module Wrappers {
  datatype Option<+T> = None | Some(value: T)
}

/**
  Path strings as the update command builds them: plain concatenation with the
  directory separator, and PHP's `dirname` for the parent of a relative path.
 */
module Paths {
  import opened Wrappers

  /** PHP's DIRECTORY_SEPARATOR on the POSIX hosts the command runs on. */
  const Separator: char := '/'

  /** Position of the last occurrence of `c` in `s`, if there is one. */
  function LastIndexOf(s: string, c: char): (r: Option<nat>)
    ensures r.None? <==> c !in s
    ensures r.Some? ==> r.value < |s| && s[r.value] == c && c !in s[r.value + 1..]
  {
    if |s| == 0 then None
    else if s[|s| - 1] == c then Some(|s| - 1)
    else
      var r := LastIndexOf(s[..|s| - 1], c);
      assert r.Some? ==> s[r.value + 1..] == s[..|s| - 1][r.value + 1..] + [s[|s| - 1]];
      assert s == s[..|s| - 1] + [s[|s| - 1]];
      r
  }

  /**
    PHP's `dirname` on a non-empty relative path with no leading, trailing or
    doubled separator: the part before the last separator, or "." when the
    path has no separator at all. Outside that range it differs from PHP:
    "" gives "." (PHP ""), "/a" gives "" (PHP "/"), "a//b" gives "a/"
    (PHP "a") and "a/" gives "a" (PHP ".").
   */
  function Dirname(p: string): (d: string)
    ensures Separator !in p ==> d == "."
    ensures Separator in p ==>
      |d| < |p| && d == p[..|d|] && p[|d|] == Separator && Separator !in p[|d| + 1..]
  {
    match LastIndexOf(p, Separator)
    case None => "."
    case Some(i) => p[..i]
  }

  /** The last component of a path: what follows its last separator. */
  function Basename(p: string): (b: string)
    ensures Separator !in b
    ensures Separator !in p ==> b == p
    ensures Separator in p ==> |b| < |p| && b == p[|p| - |b|..] && p[|p| - |b| - 1] == Separator
  {
    match LastIndexOf(p, Separator)
    case None => p
    case Some(i) => p[i + 1..]
  }

  /** `dir` and `name` joined with one separator. */
  function Join(dir: string, name: string): (r: string)
  {
    dir + [Separator] + name
  }

  /**
    Splitting a path at its last separator loses nothing: the parent joined
    with the last component gives the path back, and a path without a
    separator has the parent "." and is its own last component.
   */
  lemma DirnameJoinsBasename(p: string)
    ensures Separator in p ==> Join(Dirname(p), Basename(p)) == p
    ensures Separator !in p ==> Dirname(p) == "." && Basename(p) == p
  {
    if Separator in p {
      var d, b := Dirname(p), Basename(p);
      var i := LastIndexOf(p, Separator).value;
      assert |d| == i && |b| == |p| - i - 1;
      assert p == p[..i] + [p[i]] + p[i + 1..];
    }
  }

  /** A name without separators, joined under `dir`, has parent `dir` and last component `name`. */
  lemma DirnameOfJoin(dir: string, name: string)
    requires Separator !in name
    ensures Dirname(Join(dir, name)) == dir
    ensures Basename(Join(dir, name)) == name
  {
    var p := Join(dir, name);
    assert p[|dir|] == Separator;
    assert p[|dir| + 1..] == name;
    var i := LastIndexOf(p, Separator).value;
    assert i == |dir|;
    assert p[..|dir|] == dir;
  }

  /** The last component of a joined path is the last component of its relative part. */
  lemma BasenameOfJoin(dir: string, rel: string)
    ensures Basename(Join(dir, rel)) == Basename(rel)
  {
    if Separator in rel {
      DirnameJoinsBasename(rel);
      var d, b := Dirname(rel), Basename(rel);
      assert Join(dir, rel) == Join(Join(dir, d), b);
      DirnameOfJoin(Join(dir, d), b);
    } else {
      DirnameOfJoin(dir, rel);
    }
  }
}
