/**
 * The text helpers of backend/app/utils/text_utils.py: `clean_text`
 * (drop unencodable code points, collapse whitespace runs, strip) and
 * `count_tokens` (the number of words `str.split()` finds).
 */
module TextUtils {
  import opened Strings

  /** No code point of `s` is a lone surrogate. */
  predicate Encodable(s: PyStr) {
    forall i :: 0 <= i < |s| ==> !IsSurrogate(s[i])
  }

  /**
   * Every whitespace code point of `s` is ' ' and no two whitespace code
   * points are adjacent: the shape `re.sub(r"\s+", " ", ...)` leaves behind.
   */
  predicate SingleSpaced(s: PyStr) {
    && (forall i :: 0 <= i < |s| && IsSpace(s[i]) ==> s[i] == Space)
    && (forall i :: 0 < i < |s| ==> NoSpacePairAt(s, i))
  }

  /** The code points at `i - 1` and `i` are not both whitespace. */
  predicate NoSpacePairAt(s: PyStr, i: nat)
    requires 0 < i < |s|
  {
    IsSpace(s[i]) ==> !IsSpace(s[i - 1])
  }

  /** Neither end of `s` is whitespace. */
  predicate Trimmed(s: PyStr) {
    s != [] ==> !IsSpace(s[0]) && !IsSpace(s[|s| - 1])
  }

  /** `s.encode("utf-8", "ignore").decode("utf-8")`: drop the lone surrogates. */
  function EncodeIgnore(s: PyStr): (r: PyStr)
    ensures Encodable(r)
    ensures |r| <= |s|
  {
    if s == [] then []
    else (if IsSurrogate(s[0]) then [] else [s[0]]) + EncodeIgnore(s[1..])
  }

  /** `re.sub(r"\s+", " ", s)`: each maximal run of whitespace becomes one ' '. */
  function CollapseSpaces(s: PyStr): (r: PyStr)
    ensures SingleSpaced(r)
    ensures r == [] <==> s == []
    ensures r != [] ==> (IsSpace(r[0]) <==> IsSpace(s[0]))
    ensures Encodable(s) ==> Encodable(r)
    decreases |s|
  {
    if s == [] then []
    else if IsSpace(s[0]) then
      var t := CollapseSpaces(LStrip(s));
      ConsSingleSpaced(Space, t);
      [Space] + t
    else
      var t := CollapseSpaces(s[1..]);
      ConsSingleSpaced(s[0], t);
      [s[0]] + t
  }

  lemma ConsSingleSpaced(c: PyChar, t: PyStr)
    requires SingleSpaced(t)
    requires IsSpace(c) ==> c == Space && (t == [] || !IsSpace(t[0]))
    ensures SingleSpaced([c] + t)
  {
    var r := [c] + t;
    forall i | 0 < i < |r| ensures NoSpacePairAt(r, i) {
      if i > 1 { assert NoSpacePairAt(t, i - 1); }
    }
  }

  /** `clean_text(text)`. */
  function CleanText(text: PyStr): (r: PyStr)
    ensures Trimmed(r)
  {
    Strip(CollapseSpaces(EncodeIgnore(text)))
  }

  /** The words `s.split()` returns: maximal runs of non-whitespace. */
  predicate IsWord(w: PyStr) {
    w != [] && forall j :: 0 <= j < |w| ==> !IsSpace(w[j])
  }

  /** The non-whitespace prefix of `t`. */
  function LeadingWord(t: PyStr): (w: PyStr)
    ensures |w| <= |t| && w == t[..|w|]
    ensures forall j :: 0 <= j < |w| ==> !IsSpace(w[j])
    ensures |w| < |t| ==> IsSpace(t[|w|])
    ensures t != [] && !IsSpace(t[0]) ==> w != []
  {
    if t == [] || IsSpace(t[0]) then [] else [t[0]] + LeadingWord(t[1..])
  }

  /** `s.split()` with no separator argument. */
  function Split(s: PyStr): (words: seq<PyStr>)
    ensures forall i :: 0 <= i < |words| ==> IsWord(words[i])
    decreases |s|
  {
    var t := LStrip(s);
    if t == [] then []
    else
      var w := LeadingWord(t);
      assert w != [] && IsWord(w);
      var rest := Split(t[|w|..]);
      assert forall i :: 0 < i <= |rest| ==> ([w] + rest)[i] == rest[i - 1];
      [w] + rest
  }

  /** `count_tokens(text)`: `len(text.split())`; 0 exactly for empty and whitespace-only text. */
  function CountTokens(text: PyStr): (n: nat)
    ensures n == 0 <==> IsBlank(text)
  {
    |Split(text)|
  }

  /**
   * An independent count of the maximal non-whitespace runs of `s`: scan
   * left to right and count every non-whitespace code point that is not
   * preceded by another one. `inRun` says whether the code point just
   * before `s` was non-whitespace.
   */
  function RunCount(s: PyStr, inRun: bool): nat {
    if s == [] then 0
    else if IsSpace(s[0]) then RunCount(s[1..], false)
    else (if inRun then 0 else 1) + RunCount(s[1..], true)
  }

  // ---- clean_text

  /** Whitespace in the output of `clean_text` is single ' ' characters. */
  lemma CleanTextSingleSpaced(text: PyStr)
    ensures SingleSpaced(CleanText(text))
    ensures Encodable(CleanText(text))
  {
    var c := CollapseSpaces(EncodeIgnore(text));
    var a, b := StripSlice(c);
    SliceKeepsShape(c, a, b);
  }

  lemma SliceKeepsShape(s: PyStr, a: nat, b: nat)
    requires a <= b <= |s|
    ensures SingleSpaced(s) ==> SingleSpaced(s[a..b])
    ensures Encodable(s) ==> Encodable(s[a..b])
  {
    var r := s[a..b];
    assert forall i :: 0 <= i < |r| ==> r[i] == s[a + i];
    if SingleSpaced(s) {
      forall i | 0 < i < |r| ensures NoSpacePairAt(r, i) {
        assert NoSpacePairAt(s, a + i);
      }
    }
  }

  /** Collapsing whitespace keeps every other code point, in order. */
  lemma {:induction false} CollapseKeepsNonSpaces(s: PyStr)
    ensures NonSpaces(CollapseSpaces(s)) == NonSpaces(s)
    decreases |s|
  {
    if s == [] {
    } else if IsSpace(s[0]) {
      var t := LStrip(s);
      CollapseKeepsNonSpaces(t);
      NonSpacesAppend([Space], CollapseSpaces(t));
      NonSpacesLStrip(s);
    } else {
      CollapseKeepsNonSpaces(s[1..]);
      NonSpacesAppend([s[0]], CollapseSpaces(s[1..]));
    }
  }

  /**
   * `clean_text` keeps exactly the input's non-whitespace code points that
   * UTF-8 can encode, in their original order.
   */
  lemma CleanTextKeepsText(text: PyStr)
    ensures NonSpaces(CleanText(text)) == NonSpaces(EncodeIgnore(text))
  {
    var c := CollapseSpaces(EncodeIgnore(text));
    NonSpacesStrip(c);
    CollapseKeepsNonSpaces(EncodeIgnore(text));
  }

  lemma {:induction false} BlankIffNoNonSpaces(s: PyStr)
    ensures IsBlank(s) <==> NonSpaces(s) == []
  {
    if s != [] {
      BlankIffNoNonSpaces(s[1..]);
      assert NonSpaces(s) == (if IsSpace(s[0]) then [] else [s[0]]) + NonSpaces(s[1..]);
      if IsBlank(s[1..]) && IsSpace(s[0]) {
        forall i | 0 <= i < |s| ensures IsSpace(s[i]) {
          if i > 0 { assert s[i] == s[1..][i - 1]; }
        }
      }
    }
  }

  /**
   * `clean_text` returns "" exactly when the input holds nothing but
   * whitespace and unencodable code points; in particular for "" and for
   * whitespace-only input.
   */
  lemma CleanTextEmptyIff(text: PyStr)
    ensures CleanText(text) == [] <==> IsBlank(EncodeIgnore(text))
  {
    var e := EncodeIgnore(text);
    var c := CollapseSpaces(e);
    StripEmptyIffBlank(c);
    BlankIffNoNonSpaces(c);
    BlankIffNoNonSpaces(e);
    CollapseKeepsNonSpaces(e);
  }

  /** Empty and whitespace-only input cleans to "". */
  lemma CleanTextBlank(text: PyStr)
    requires IsBlank(text)
    ensures CleanText(text) == []
  {
    EncodeIgnoreBlank(text);
    CleanTextEmptyIff(text);
  }

  lemma {:induction false} EncodeIgnoreBlank(s: PyStr)
    requires IsBlank(s)
    ensures IsBlank(EncodeIgnore(s))
  {
    if s != [] {
      assert IsBlank(s[1..]) by {
        forall i | 0 <= i < |s| - 1 ensures IsSpace(s[1..][i]) { assert s[1..][i] == s[i + 1]; }
      }
      EncodeIgnoreBlank(s[1..]);
    }
  }

  lemma {:induction false} EncodeIgnoreEncodable(s: PyStr)
    requires Encodable(s)
    ensures EncodeIgnore(s) == s
  {
    if s != [] {
      assert Encodable(s[1..]) by {
        forall i | 0 <= i < |s| - 1 ensures !IsSurrogate(s[1..][i]) { assert s[1..][i] == s[i + 1]; }
      }
      EncodeIgnoreEncodable(s[1..]);
    }
  }

  lemma {:induction false} CollapseSingleSpaced(s: PyStr)
    requires SingleSpaced(s)
    ensures CollapseSpaces(s) == s
    decreases |s|
  {
    if s != [] {
      var t := s[1..];
      SliceKeepsShape(s, 1, |s|);
      assert s[1..|s|] == t;
      CollapseSingleSpaced(t);
      if IsSpace(s[0]) {
        SpaceThenWord(s);
        assert s[0] == Space;
      }
    }
  }

  lemma SpaceThenWord(s: PyStr)
    requires SingleSpaced(s) && s != [] && IsSpace(s[0])
    ensures LStrip(s) == s[1..]
  {
    var t := s[1..];
    if t != [] {
      assert NoSpacePairAt(s, 1);
      assert t[0] == s[1];
    }
  }

  /** Cleaning already-cleaned text changes nothing. */
  lemma CleanTextIdempotent(text: PyStr)
    ensures CleanText(CleanText(text)) == CleanText(text)
  {
    var t := CleanText(text);
    CleanTextSingleSpaced(text);
    EncodeIgnoreEncodable(t);
    CollapseSingleSpaced(t);
    assert LStrip(t) == t;
    assert RStrip(t) == t;
  }

  // ---- count_tokens

  lemma {:induction false} RunCountLStrip(s: PyStr, inRun: bool)
    requires !inRun || (s != [] && IsSpace(s[0]))
    ensures RunCount(s, inRun) == RunCount(LStrip(s), false)
    decreases |s|
  {
    if s != [] && IsSpace(s[0]) {
      RunCountLStrip(s[1..], false);
    }
  }

  /** A leading run of `k` non-whitespace code points counts once. */
  lemma {:induction false} RunCountWord(t: PyStr, k: nat, inRun: bool)
    requires 0 < k <= |t|
    requires forall j :: 0 <= j < k ==> !IsSpace(t[j])
    ensures RunCount(t, inRun) == (if inRun then 0 else 1) + RunCount(t[k..], true)
    decreases k
  {
    if k > 1 {
      var u := t[1..];
      assert forall j :: 0 <= j < k - 1 ==> u[j] == t[j + 1];
      RunCountWord(u, k - 1, true);
      assert u[k - 1..] == t[k..];
    }
  }

  /** What follows the first word of `s`. */
  function AfterFirstWord(s: PyStr): (r: PyStr)
    requires LStrip(s) != []
    ensures |r| < |s|
  {
    var t := LStrip(s);
    t[|LeadingWord(t)|..]
  }

  /** `split()` on text with a word: that word, then the words of what follows it. */
  lemma SplitCons(s: PyStr)
    requires LStrip(s) != []
    ensures |Split(s)| == 1 + |Split(AfterFirstWord(s))|
  {
  }

  /** The first word is one run, and what follows it starts a new one. */
  lemma RunCountCons(s: PyStr)
    requires LStrip(s) != []
    ensures RunCount(s, false) == 1 + RunCount(AfterFirstWord(s), false)
  {
    var t := LStrip(s);
    var k := |LeadingWord(t)|;
    RunCountLStrip(s, false);
    assert forall j :: 0 <= j < k ==> !IsSpace(t[j]) by {
      forall j | 0 <= j < k ensures !IsSpace(t[j]) { assert t[j] == LeadingWord(t)[j]; }
    }
    RunCountWord(t, k, false);
    RunCountAfterSpace(t[k..]);
  }

  /** Whether a run was open does not matter before whitespace or at the end. */
  lemma RunCountAfterSpace(x: PyStr)
    requires x == [] || IsSpace(x[0])
    ensures RunCount(x, true) == RunCount(x, false)
  {
  }

  /** `count_tokens` counts the maximal non-whitespace runs of its input. */
  lemma {:induction false} CountTokensCountsRuns(s: PyStr)
    ensures CountTokens(s) == RunCount(s, false)
    decreases |s|
  {
    if LStrip(s) == [] {
      RunCountLStrip(s, false);
    } else {
      SplitCons(s);
      RunCountCons(s);
      CountTokensCountsRuns(AfterFirstWord(s));
    }
  }

  lemma {:induction false} RunCountCollapse(s: PyStr, inRun: bool)
    ensures RunCount(CollapseSpaces(s), inRun) == RunCount(s, inRun)
    decreases |s|
  {
    if s == [] {
    } else if IsSpace(s[0]) {
      var t := LStrip(s);
      RunCountCollapse(t, false);
      assert ([Space] + CollapseSpaces(t))[1..] == CollapseSpaces(t);
      RunCountLStrip(s, inRun);
    } else {
      RunCountCollapse(s[1..], true);
      assert ([s[0]] + CollapseSpaces(s[1..]))[1..] == CollapseSpaces(s[1..]);
    }
  }

  lemma {:induction false} RunCountSpaceTail(x: PyStr, c: PyChar, inRun: bool)
    requires IsSpace(c)
    ensures RunCount(x + [c], inRun) == RunCount(x, inRun)
    decreases |x|
  {
    if x == [] {
      assert x + [c] == [c];
      assert [c][1..] == [];
    } else {
      assert (x + [c])[1..] == x[1..] + [c];
      RunCountSpaceTail(x[1..], c, !IsSpace(x[0]));
    }
  }

  lemma {:induction false} RunCountRStrip(s: PyStr, inRun: bool)
    ensures RunCount(RStrip(s), inRun) == RunCount(s, inRun)
    decreases |s|
  {
    if s != [] && IsSpace(s[|s| - 1]) {
      var init := s[..|s| - 1];
      var c := s[|s| - 1];
      RunCountRStrip(init, inRun);
      assert s == init + [c];
      RunCountSpaceTail(init, c, inRun);
    }
  }

  lemma RunCountCleanText(text: PyStr)
    ensures RunCount(CleanText(text), false) == RunCount(EncodeIgnore(text), false)
  {
    var c := CollapseSpaces(EncodeIgnore(text));
    RunCountCollapse(EncodeIgnore(text), false);
    RunCountLStrip(c, false);
    RunCountRStrip(LStrip(c), false);
  }

  /** Cleaning text does not change its word count, once unencodable code points are gone. */
  lemma CountTokensCleanText(text: PyStr)
    ensures CountTokens(CleanText(text)) == CountTokens(EncodeIgnore(text))
  {
    CountTokensCountsRuns(CleanText(text));
    CountTokensCountsRuns(EncodeIgnore(text));
    RunCountCleanText(text);
  }

  /** For text UTF-8 can encode, `count_tokens(clean_text(s)) == count_tokens(s)`. */
  lemma CountTokensCleanEncodable(text: PyStr)
    requires Encodable(text)
    ensures CountTokens(CleanText(text)) == CountTokens(text)
  {
    CountTokensCleanText(text);
    EncodeIgnoreEncodable(text);
  }
}
