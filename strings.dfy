/**
 * Python `str` values and the handful of built-in string operations the
 * service relies on (`isspace`, `strip`, `startswith`, `replace(.., 1)`,
 * `lower`, `join`).
 *
 * A Python string is a sequence of code points, and unlike a Dafny `char`
 * a code point may be a lone surrogate (U+D800..U+DFFF). `clean_text`
 * exists partly to drop those, so the model keeps them representable.
 */
module Strings {

  /** A Python code point: any value 0 .. 0x10FFFF, surrogates included. */
  type PyChar = c: int | 0 <= c < 0x11_0000

  /** A Python `str`. */
  type PyStr = seq<PyChar>

  /** The Python string spelled by a Dafny string literal. */
  function Lit(s: string): PyStr {
    seq(|s|, i requires 0 <= i < |s| => s[i] as int)
  }

  const Space: PyChar := 32
  const Slash: PyChar := 47
  const Dot: PyChar := 46

  /**
   * `str.isspace()` for one code point. Python's `re` `\s`, `str.strip()`
   * and `str.split()` all use this same set: the characters whose
   * bidirectional class is WS, B or S, or whose category is Zs.
   */
  predicate IsSpace(c: PyChar) {
    (9 <= c <= 13) || (28 <= c <= 32) || c == 0x85 || c == 0xA0 || c == 0x1680
    || (0x2000 <= c <= 0x200A) || c == 0x2028 || c == 0x2029 || c == 0x202F
    || c == 0x205F || c == 0x3000
  }

  /** A lone surrogate: the only code points UTF-8 cannot encode. */
  predicate IsSurrogate(c: PyChar) {
    0xD800 <= c <= 0xDFFF
  }

  /** Every code point of `s` is whitespace (vacuously true of ""). */
  predicate IsBlank(s: PyStr) {
    forall i :: 0 <= i < |s| ==> IsSpace(s[i])
  }

  /** `s.lstrip()`: drop the leading whitespace. */
  function LStrip(s: PyStr): (r: PyStr)
    ensures |r| <= |s| && r == s[|s| - |r|..]
    ensures forall i :: 0 <= i < |s| - |r| ==> IsSpace(s[i])
    ensures r != [] ==> !IsSpace(r[0])
  {
    if s != [] && IsSpace(s[0]) then LStrip(s[1..]) else s
  }

  /** `s.rstrip()`: drop the trailing whitespace. */
  function RStrip(s: PyStr): (r: PyStr)
    ensures |r| <= |s| && r == s[..|r|]
    ensures forall i :: |r| <= i < |s| ==> IsSpace(s[i])
    ensures r != [] ==> !IsSpace(r[|r| - 1])
  {
    if s != [] && IsSpace(s[|s| - 1]) then RStrip(s[..|s| - 1]) else s
  }

  /** `s.strip()`: drop the whitespace at both ends. */
  function Strip(s: PyStr): (r: PyStr)
    ensures r != [] ==> !IsSpace(r[0]) && !IsSpace(r[|r| - 1])
  {
    RStrip(LStrip(s))
  }

  /** What `strip()` keeps is a slice of `s` with only whitespace around it. */
  lemma StripSlice(s: PyStr) returns (a: nat, b: nat)
    ensures a <= b <= |s| && Strip(s) == s[a..b]
    ensures IsBlank(s[..a]) && IsBlank(s[b..])
  {
    var l := LStrip(s);
    var r := RStrip(l);
    a := |s| - |l|;
    b := a + |r|;
    assert s[b..] == l[|r|..];
  }

  /** `strip()` yields "" exactly for blank strings. */
  lemma StripEmptyIffBlank(s: PyStr)
    ensures Strip(s) == [] <==> IsBlank(s)
  {
    var a, b := StripSlice(s);
    if Strip(s) == [] {
      forall i | 0 <= i < |s| ensures IsSpace(s[i]) {
        if i < a { assert s[i] == s[..a][i]; } else { assert s[i] == s[b..][i - b]; }
      }
    } else {
      assert s[a] == Strip(s)[0];
    }
  }

  /** `s.startswith(p)`. */
  predicate StartsWith(s: PyStr, p: PyStr) {
    |p| <= |s| && s[..|p|] == p
  }

  /**
   * `s.replace(pattern, repl, 1)`: replace the first occurrence of `pattern`, or
   * return `s` unchanged when there is none. An empty `pattern` occurs at 0.
   */
  function ReplaceFirst(s: PyStr, pattern: PyStr, repl: PyStr): (r: PyStr)
    ensures StartsWith(s, pattern) ==> r == repl + s[|pattern|..]
    decreases |s|
  {
    if StartsWith(s, pattern) then repl + s[|pattern|..]
    else if s == [] then []
    else [s[0]] + ReplaceFirst(s[1..], pattern, repl)
  }

  /** `str.lower()` on ASCII letters; other code points are kept as they are. */
  function LowerChar(c: PyChar): PyChar {
    if 65 <= c <= 90 then c + 32 else c
  }

  /** `s.lower()` (see LowerChar for what is not modelled). */
  function Lower(s: PyStr): (r: PyStr)
    ensures |r| == |s|
    ensures forall i :: 0 <= i < |s| ==> r[i] == LowerChar(s[i])
  {
    seq(|s|, i requires 0 <= i < |s| => LowerChar(s[i]))
  }

  /** `sep.join(parts)`. */
  function Join(sep: PyStr, parts: seq<PyStr>): (r: PyStr)
    ensures parts != [] ==> StartsWith(r, parts[0])
    decreases |parts|
  {
    if parts == [] then []
    else if |parts| == 1 then parts[0]
    else parts[0] + sep + Join(sep, parts[1..])
  }

  /** A join starts with whatever its first part starts with. */
  lemma JoinStartsWith(sep: PyStr, parts: seq<PyStr>, p: PyStr)
    requires parts != [] && StartsWith(parts[0], p)
    ensures StartsWith(Join(sep, parts), p)
  {
    var r := Join(sep, parts);
    assert r[..|parts[0]|] == parts[0];
    assert r[..|p|] == parts[0][..|p|];
  }

  /** The code points of `s` that are not whitespace, in order. */
  function NonSpaces(s: PyStr): (r: PyStr)
    ensures forall i :: 0 <= i < |r| ==> !IsSpace(r[i])
    ensures |r| <= |s|
  {
    if s == [] then []
    else (if IsSpace(s[0]) then [] else [s[0]]) + NonSpaces(s[1..])
  }

  lemma {:induction false} NonSpacesAppend(a: PyStr, b: PyStr)
    ensures NonSpaces(a + b) == NonSpaces(a) + NonSpaces(b)
  {
    if a != [] {
      assert (a + b)[1..] == a[1..] + b;
      NonSpacesAppend(a[1..], b);
    } else {
      assert a + b == b;
    }
  }

  /** `lstrip()` drops only whitespace. */
  lemma {:induction false} NonSpacesLStrip(s: PyStr)
    ensures NonSpaces(LStrip(s)) == NonSpaces(s)
  {
    if s != [] && IsSpace(s[0]) {
      NonSpacesLStrip(s[1..]);
    }
  }

  /** `rstrip()` drops only whitespace. */
  lemma {:induction false} NonSpacesRStrip(s: PyStr)
    ensures NonSpaces(RStrip(s)) == NonSpaces(s)
    decreases |s|
  {
    if s != [] && IsSpace(s[|s| - 1]) {
      var init := s[..|s| - 1];
      var c := s[|s| - 1];
      NonSpacesRStrip(init);
      assert s == init + [c];
      NonSpacesAppend(init, [c]);
      assert NonSpaces([c]) == [] + NonSpaces([c][1..]);
    }
  }

  /** Stripping whitespace keeps every other code point, in order. */
  lemma NonSpacesStrip(s: PyStr)
    ensures NonSpaces(Strip(s)) == NonSpaces(s)
  {
    NonSpacesLStrip(s);
    NonSpacesRStrip(LStrip(s));
  }
}
