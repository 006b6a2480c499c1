/**
 * The parts of `pathlib` the services use: a path's final component
 * (`.name`), its extension (`.suffix`) and joining with `/`.
 */
module Paths {
  import opened Strings

  /** `p` without its trailing slashes. */
  function TrimSlashes(p: PyStr): PyStr {
    if p != [] && p[|p| - 1] == Slash then TrimSlashes(p[..|p| - 1]) else p
  }

  /** What follows the last slash of `p` (all of `p` when it has none). */
  function AfterLastSlash(p: PyStr): PyStr {
    if p == [] || p[|p| - 1] == Slash then [] else AfterLastSlash(p[..|p| - 1]) + [p[|p| - 1]]
  }

  /** `PurePath(p).name`: the final component, ignoring trailing slashes. */
  function Name(p: PyStr): PyStr {
    AfterLastSlash(TrimSlashes(p))
  }

  /** `name.rfind(c)`: the last index holding `c`, or -1. */
  function RFind(s: PyStr, c: PyChar): (i: int)
    ensures -1 <= i < |s|
    ensures i >= 0 ==> s[i] == c
    ensures forall j :: i < j < |s| ==> s[j] != c
  {
    if s == [] then -1
    else if s[|s| - 1] == c then |s| - 1
    else RFind(s[..|s| - 1], c)
  }

  /** What follows the last slash is a slash-free tail of `p`, preceded by a slash unless it is all of `p`. */
  lemma {:induction false} AfterLastSlashShape(p: PyStr)
    ensures var r := AfterLastSlash(p);
      && |r| <= |p| && r == p[|p| - |r|..]
      && (forall i :: 0 <= i < |r| ==> r[i] != Slash)
      && (|r| < |p| ==> p[|p| - |r| - 1] == Slash)
    decreases |p|
  {
    if p != [] && p[|p| - 1] != Slash {
      var init := p[..|p| - 1];
      AfterLastSlashShape(init);
      var r0 := AfterLastSlash(init);
      assert init[|init| - |r0|..] + [p[|p| - 1]] == p[|p| - |r0| - 1..];
    }
  }

  /**
   * A name holds no slash and is the end of the path with its trailing
   * slashes removed: either all of it or what follows its last slash.
   */
  lemma NameShape(p: PyStr)
    ensures var t := TrimSlashes(p);
      var n := Name(p);
      && (forall i :: 0 <= i < |n| ==> n[i] != Slash)
      && |n| <= |t| && n == t[|t| - |n|..]
      && (|n| < |t| ==> t[|t| - |n| - 1] == Slash)
  {
    AfterLastSlashShape(TrimSlashes(p));
  }

  /**
   * `PurePath.suffix` of a final component `name`: from its last dot on,
   * provided that dot is neither the first nor the last code point; else "".
   */
  function Suffix(name: PyStr): PyStr {
    var i := RFind(name, Dot);
    if 0 < i < |name| - 1 then name[i..] else []
  }

  /**
   * A suffix is either empty or a final `.`-part of at least two code
   * points with no further dot, shorter than the name; it is non-empty
   * whenever the name's last dot is neither its first nor its last code
   * point.
   */
  lemma SuffixShape(name: PyStr)
    ensures var r := Suffix(name);
      && (r != [] ==> 2 <= |r| < |name| && r == name[|name| - |r|..] && r[0] == Dot)
      && (forall j :: 0 < j < |r| ==> r[j] != Dot)
      && ((exists i :: 0 < i < |name| - 1 && name[i] == Dot && forall j :: i < j < |name| ==> name[j] != Dot) ==> r != [])
  {
  }

  /** `Path(p).suffix.lower()`: the extension the services dispatch on. */
  function LowerSuffix(p: PyStr): PyStr {
    Lower(Suffix(Name(p)))
  }

  /**
   * `Path(dir) / name` as a string; an absolute `name` replaces `dir`, and
   * an empty `dir` is `Path(".")`, which leaves `name` relative.
   */
  function JoinPath(dir: PyStr, name: PyStr): (r: PyStr)
    ensures (dir != [] && StartsWith(r, dir + [Slash])) || r == name
    ensures dir == [] ==> r == name
  {
    if name != [] && name[0] == Slash then name
    else if dir == [] then name
    else dir + [Slash] + name
  }

  lemma {:induction false} TrimSlashesAppend(x: PyStr, g: PyStr)
    requires TrimSlashes(g) != []
    ensures TrimSlashes(x + g) == x + TrimSlashes(g)
    decreases |g|
  {
    var p := x + g;
    assert p[|p| - 1] == g[|g| - 1];
    if g[|g| - 1] == Slash {
      assert p[..|p| - 1] == x + g[..|g| - 1];
      TrimSlashesAppend(x, g[..|g| - 1]);
    }
  }

  lemma {:induction false} AfterLastSlashAppend(x: PyStr, g: PyStr)
    ensures AfterLastSlash(x + [Slash] + g) == AfterLastSlash(g)
    decreases |g|
  {
    var p := x + [Slash] + g;
    if g == [] {
      assert p[|p| - 1] == Slash;
    } else {
      assert p[|p| - 1] == g[|g| - 1];
      if g[|g| - 1] != Slash {
        assert p[..|p| - 1] == x + [Slash] + g[..|g| - 1];
        AfterLastSlashAppend(x, g[..|g| - 1]);
      }
    }
  }

  /** Joining a directory in front of a path does not change its final component. */
  lemma JoinPathKeepsName(dir: PyStr, name: PyStr)
    requires Name(name) != []
    ensures Name(JoinPath(dir, name)) == Name(name)
    ensures LowerSuffix(JoinPath(dir, name)) == LowerSuffix(name)
  {
    if !(name != [] && name[0] == Slash) && dir != [] {
      var t := TrimSlashes(name);
      TrimSlashesAppend(dir + [Slash], name);
      assert dir + [Slash] + name == (dir + [Slash]) + name;
      assert (dir + [Slash]) + t == dir + [Slash] + t;
      AfterLastSlashAppend(dir, t);
    }
  }
}
