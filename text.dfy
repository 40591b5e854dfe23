/**
 * The few operations on Python `str` values that the content generator
 * relies on: `strip()` and `strip(chars)`, `split('\n')`, `split()` with no
 * argument, and the prefix slice `s[:n]`.  Strings are sequences of Unicode
 * code points, as in Python 3.
 */
module Text {

  /** The characters that Python's `str.split()` and `str.strip()` treat as whitespace. */
  predicate IsSpace(c: char) {
    || c == ' '
    || '\U{0009}' <= c <= '\U{000D}'
    || '\U{001C}' <= c <= '\U{001F}'
    || c == '\U{0085}' || c == '\U{00A0}' || c == '\U{1680}'
    || '\U{2000}' <= c <= '\U{200A}'
    || c == '\U{2028}' || c == '\U{2029}' || c == '\U{202F}' || c == '\U{205F}' || c == '\U{3000}'
  }

  // ---------------------------------------------------------------------------
  // strip
  // ---------------------------------------------------------------------------

  /** Drops the leading characters that `drop` strips. */
  function TrimLeft(s: string, drop: char -> bool): (r: string)
    ensures |r| <= |s| && r == s[|s| - |r|..]
    ensures r == [] || !drop(r[0])
    ensures forall k :: 0 <= k < |s| - |r| ==> drop(s[k])
    decreases |s|
  {
    if |s| > 0 && drop(s[0]) then TrimLeft(s[1..], drop) else s
  }

  /** Drops the trailing characters that `drop` strips. */
  function TrimRight(s: string, drop: char -> bool): (r: string)
    ensures |r| <= |s| && r == s[..|r|]
    ensures r == [] || !drop(r[|r| - 1])
    ensures forall k :: |r| <= k < |s| ==> drop(s[k])
    decreases |s|
  {
    if |s| > 0 && drop(s[|s| - 1]) then TrimRight(s[..|s| - 1], drop) else s
  }

  /**
   * Python's `s.strip()` (with `drop` = IsSpace) and `s.strip(chars)` (with
   * `drop` testing membership in `chars`).  The result neither starts nor
   * ends with a character that `drop` strips, and it is empty exactly when
   * every character of `s` is one that `drop` strips.  StripIsSlice states which part of `s` it is.
   */
  function Strip(s: string, drop: char -> bool): (r: string)
    ensures r == [] || (!drop(r[0]) && !drop(r[|r| - 1]))
    ensures r == [] <==> forall k :: 0 <= k < |s| ==> drop(s[k])
  {
    TrimRight(TrimLeft(s, drop), drop)
  }

  /**
   * The stripped text is the slice of `s` that starts at some `a` and is
   * preceded and followed only by characters `drop` strips: nothing else is
   * removed, nothing is reordered or added.
   */
  lemma StripIsSlice(s: string, drop: char -> bool) returns (a: nat)
    ensures a + |Strip(s, drop)| <= |s| && Strip(s, drop) == s[a..a + |Strip(s, drop)|]
    ensures forall k :: 0 <= k < a ==> drop(s[k])
    ensures forall k :: a + |Strip(s, drop)| <= k < |s| ==> drop(s[k])
  {
    var m := TrimLeft(s, drop);
    a := |s| - |m|;
    var r := TrimRight(m, drop);
    assert r == m[..|r|] == s[a..][..|r|];
    forall k | a + |r| <= k < |s|
      ensures drop(s[k])
    {
      assert m[k - a] == s[k];
    }
  }

  /** TrimLeft drops exactly the leading run of stripped characters. */
  lemma {:induction false} TrimLeftSkips(s: string, drop: char -> bool, n: nat)
    requires n <= |s|
    requires forall k :: 0 <= k < n ==> drop(s[k])
    requires n == |s| || !drop(s[n])
    ensures TrimLeft(s, drop) == s[n..]
    decreases n
  {
    if n > 0 {
      assert s[1..][n - 1..] == s[n..];
      TrimLeftSkips(s[1..], drop, n - 1);
    }
  }

  /** TrimRight drops exactly the trailing run of stripped characters. */
  lemma {:induction false} TrimRightSkips(s: string, drop: char -> bool, n: nat)
    requires n <= |s|
    requires forall k :: n <= k < |s| ==> drop(s[k])
    requires n == 0 || !drop(s[n - 1])
    ensures TrimRight(s, drop) == s[..n]
    decreases |s| - n
  {
    if n < |s| {
      var t := s[..|s| - 1];
      assert t[..n] == s[..n];
      TrimRightSkips(t, drop, n);
    }
  }

  /**
   * Conversely to StripIsSlice, any slice `s[a..b]` that starts and ends
   * with a kept character and is surrounded only by stripped characters is
   * the stripped text.
   */
  lemma StripSlice(s: string, drop: char -> bool, a: nat, b: nat)
    requires a <= b <= |s|
    requires forall k :: 0 <= k < a ==> drop(s[k])
    requires forall k :: b <= k < |s| ==> drop(s[k])
    requires a < b ==> !drop(s[a]) && !drop(s[b - 1])
    ensures Strip(s, drop) == s[a..b]
  {
    if a == b {
      assert forall k :: 0 <= k < |s| ==> drop(s[k]);
    } else {
      TrimLeftSkips(s, drop, a);
      TrimRightOfSuffix(s, drop, a, b);
    }
  }

  lemma TrimRightOfSuffix(s: string, drop: char -> bool, a: nat, b: nat)
    requires a < b <= |s|
    requires forall k :: b <= k < |s| ==> drop(s[k])
    requires !drop(s[b - 1])
    ensures TrimRight(s[a..], drop) == s[a..b]
  {
    var m := s[a..];
    forall k | b - a <= k < |m|
      ensures drop(m[k])
    {
      assert m[k] == s[a + k];
    }
    assert m[b - a - 1] == s[b - 1];
    TrimRightSkips(m, drop, b - a);
    assert m[..b - a] == s[a..b];
  }

  /**
   * When every character `d2` strips is also one `d1` strips, stripping with
   * `d2` after `d1` changes nothing.
   */
  lemma StripTwiceSettles(s: string, d1: char -> bool, d2: char -> bool)
    requires forall k :: 0 <= k < |s| && d2(s[k]) ==> d1(s[k])
    ensures Strip(Strip(s, d1), d2) == Strip(s, d1)
  {
    var m := Strip(s, d1);
    if m != [] {
      var a1 := StripIsSlice(s, d1);
      assert m[0] == s[a1] && m[|m| - 1] == s[a1 + |m| - 1];
      StripSlice(m, d2, 0, |m|);
      assert m[0..|m|] == m;
    }
  }

  /** Every character of `s` that `drop` does not strip survives the strip. */
  lemma StripKeeps(s: string, drop: char -> bool, k: nat)
    requires k < |s| && !drop(s[k])
    ensures s[k] in Strip(s, drop)
  {
    var a := StripIsSlice(s, drop);
    var r := Strip(s, drop);
    assert r[k - a] == s[k];
  }

  // ---------------------------------------------------------------------------
  // split on a separator character, and its inverse join
  // ---------------------------------------------------------------------------

  /** Python's `s.split(sep)` for a one-character separator. */
  function Split(s: string, sep: char): (parts: seq<string>)
    ensures |parts| >= 1
    ensures forall i :: 0 <= i < |parts| ==> sep !in parts[i]
    decreases |s|
  {
    if s == [] then [[]]
    else
      var rest := Split(s[1..], sep);
      if s[0] == sep then [[]] + rest
      else [[s[0]] + rest[0]] + rest[1..]
  }

  /** Python's `sep.join(parts)`. */
  function Join(parts: seq<string>, sep: char): string
    decreases |parts|
  {
    if parts == [] then []
    else if |parts| == 1 then parts[0]
    else parts[0] + [sep] + Join(parts[1..], sep)
  }

  /** Joining the pieces of a split with the same separator gives back the text. */
  lemma {:induction false} JoinSplit(s: string, sep: char)
    ensures Join(Split(s, sep), sep) == s
    decreases |s|
  {
    if s != [] {
      var rest := Split(s[1..], sep);
      JoinSplit(s[1..], sep);
      if s[0] == sep {
        assert Split(s, sep) == [[]] + rest;
        assert s == [] + [sep] + s[1..];
      } else if |rest| == 1 {
        assert Split(s, sep) == [[s[0]] + rest[0]];
        assert s == [s[0]] + s[1..];
      } else {
        var parts := Split(s, sep);
        assert parts == [[s[0]] + rest[0]] + rest[1..];
        assert parts[1..] == rest[1..];
        assert Join(rest, sep) == rest[0] + [sep] + Join(rest[1..], sep);
        assert s == [s[0]] + s[1..];
      }
    }
  }

  /** A split yields one piece more than there are separators in the text. */
  lemma {:induction false} SplitLength(s: string, sep: char)
    ensures |Split(s, sep)| == multiset(s)[sep] + 1
    decreases |s|
  {
    if s != [] {
      SplitLength(s[1..], sep);
      assert s == [s[0]] + s[1..];
      assert multiset(s) == multiset{s[0]} + multiset(s[1..]);
    }
  }

  /** A text without the separator splits into itself alone. */
  lemma {:induction false} SplitWithoutSeparator(s: string, sep: char)
    requires sep !in s
    ensures Split(s, sep) == [s]
    decreases |s|
  {
    if s != [] {
      assert s[0] != sep && sep !in s[1..];
      SplitWithoutSeparator(s[1..], sep);
      assert [s[0]] + s[1..] == s;
    }
  }

  /** A separator ends the first piece, whatever follows it. */
  lemma {:induction false} SplitAfterPiece(p: string, sep: char, t: string)
    requires sep !in p
    ensures Split(p + [sep] + t, sep) == [p] + Split(t, sep)
    decreases |p|
  {
    if p == [] {
      assert p + [sep] + t == [sep] + t;
      assert ([sep] + t)[1..] == t;
    } else {
      assert sep !in p[1..];
      SplitAfterPiece(p[1..], sep, t);
      assert (p + [sep] + t)[1..] == p[1..] + [sep] + t;
      assert [p[0]] + p[1..] == p;
    }
  }

  /** Splitting a join of separator-free pieces gives back the pieces. */
  lemma {:induction false} SplitJoin(parts: seq<string>, sep: char)
    requires |parts| >= 1
    requires forall i :: 0 <= i < |parts| ==> sep !in parts[i]
    ensures Split(Join(parts, sep), sep) == parts
    decreases |parts|
  {
    if |parts| == 1 {
      SplitWithoutSeparator(parts[0], sep);
    } else {
      SplitJoin(parts[1..], sep);
      SplitAfterPiece(parts[0], sep, Join(parts[1..], sep));
      assert [parts[0]] + parts[1..] == parts;
    }
  }

  // ---------------------------------------------------------------------------
  // split() with no argument: whitespace-separated tokens
  // ---------------------------------------------------------------------------

  /** The length of the run of non-whitespace characters that starts `s`. */
  function RunLength(s: string): (n: nat)
    ensures n <= |s|
    ensures forall k :: 0 <= k < n ==> !IsSpace(s[k])
    ensures n == |s| || IsSpace(s[n])
    decreases |s|
  {
    if s == [] || IsSpace(s[0]) then 0 else 1 + RunLength(s[1..])
  }

  /**
   * Python's `s.split()`: the maximal runs of non-whitespace characters, in
   * order.  Every token is non-empty and holds no whitespace.
   */
  function Words(s: string): (ws: seq<string>)
    ensures forall i :: 0 <= i < |ws| ==> ws[i] != []
    ensures forall i, k :: 0 <= i < |ws| && 0 <= k < |ws[i]| ==> !IsSpace(ws[i][k])
    decreases |s|
  {
    if s == [] then []
    else if IsSpace(s[0]) then Words(s[1..])
    else
      var n := RunLength(s);
      [s[..n]] + Words(s[n..])
  }

  /**
   * `len(s.split())`: the number of positions where a non-whitespace
   * character follows whitespace or the start of the text.
   */
  function WordCount(s: string): (n: nat)
    ensures n == WordStartsFrom(s, 0)
  {
    WordsCountWordStarts(s);
    |Words(s)|
  }

  /** A token starts at `i` when `s[i]` is not whitespace and follows whitespace or the start. */
  predicate StartsWordAt(s: string, i: nat)
    requires i < |s|
  {
    !IsSpace(s[i]) && (i == 0 || IsSpace(s[i - 1]))
  }

  /** The number of positions at or after `lo` where a token starts. */
  function WordStartsFrom(s: string, lo: nat): nat
    decreases |s| - lo
  {
    if lo >= |s| then 0
    else (if StartsWordAt(s, lo) then 1 else 0) + WordStartsFrom(s, lo + 1)
  }

  /** Inside a run of non-whitespace characters no token starts. */
  lemma {:induction false} NoWordStartsInsideRun(s: string, lo: nat, hi: nat)
    requires lo < hi <= |s|
    requires forall k :: lo <= k < hi ==> !IsSpace(s[k])
    ensures WordStartsFrom(s, lo + 1) == WordStartsFrom(s, hi)
    decreases hi - lo
  {
    if lo + 1 < hi {
      assert !StartsWordAt(s, lo + 1);
      NoWordStartsInsideRun(s, lo + 1, hi);
    }
  }

  lemma {:induction false} WordsFromCountStarts(s: string, lo: nat)
    requires lo <= |s|
    requires lo == 0 || IsSpace(s[lo - 1])
    ensures |Words(s[lo..])| == WordStartsFrom(s, lo)
    decreases |s| - lo, 1
  {
    if lo < |s| {
      if IsSpace(s[lo]) {
        SkipSpace(s, lo);
        WordsFromCountStarts(s, lo + 1);
      } else {
        WordsFromCountStartsAtWord(s, lo);
      }
    }
  }

  /** A leading whitespace character neither yields a token nor starts one. */
  lemma SkipSpace(s: string, lo: nat)
    requires lo < |s| && IsSpace(s[lo])
    ensures Words(s[lo..]) == Words(s[lo + 1..])
    ensures WordStartsFrom(s, lo) == WordStartsFrom(s, lo + 1)
  {
    assert s[lo..][1..] == s[lo + 1..];
  }

  lemma {:induction false} WordsFromCountStartsAtWord(s: string, lo: nat)
    requires lo < |s| && !IsSpace(s[lo])
    requires lo == 0 || IsSpace(s[lo - 1])
    ensures |Words(s[lo..])| == WordStartsFrom(s, lo)
    decreases |s| - lo, 0
  {
    var n := TakeWord(s, lo);
    if lo + n < |s| {
      SkipSpace(s, lo + n);
      WordsFromCountStarts(s, lo + n + 1);
    }
  }

  /** A token starting at `lo` is one word and one word start; both counts resume where it ends. */
  lemma TakeWord(s: string, lo: nat) returns (n: nat)
    requires lo < |s| && !IsSpace(s[lo])
    requires lo == 0 || IsSpace(s[lo - 1])
    ensures 0 < n && lo + n <= |s| && (lo + n == |s| || IsSpace(s[lo + n]))
    ensures |Words(s[lo..])| == 1 + |Words(s[lo + n..])|
    ensures WordStartsFrom(s, lo) == 1 + WordStartsFrom(s, lo + n)
  {
    var t := s[lo..];
    n := RunLength(t);
    assert Words(t) == [t[..n]] + Words(t[n..]);
    assert t[n..] == s[lo + n..];
    assert forall k :: lo <= k < lo + n ==> s[k] == t[k - lo];
    NoWordStartsInsideRun(s, lo, lo + n);
    assert StartsWordAt(s, lo);
  }

  /**
   * The token count of `s.split()` is the number of positions where a
   * non-whitespace character follows whitespace or the start of the text.
   */
  lemma WordsCountWordStarts(s: string)
    ensures |Words(s)| == WordStartsFrom(s, 0)
  {
    assert s[0..] == s;
    WordsFromCountStarts(s, 0);
  }

  /** The text with every whitespace character removed. */
  function WithoutSpaces(s: string): string
    decreases |s|
  {
    if s == [] then []
    else (if IsSpace(s[0]) then [] else [s[0]]) + WithoutSpaces(s[1..])
  }

  function Concat(ws: seq<string>): string
    decreases |ws|
  {
    if ws == [] then [] else ws[0] + Concat(ws[1..])
  }

  lemma {:induction false} WithoutSpacesAppend(a: string, b: string)
    ensures WithoutSpaces(a + b) == WithoutSpaces(a) + WithoutSpaces(b)
    decreases |a|
  {
    if a != [] {
      assert (a + b)[1..] == a[1..] + b;
      WithoutSpacesAppend(a[1..], b);
    } else {
      assert a + b == b;
    }
  }

  lemma {:induction false} WithoutSpacesOfRun(s: string)
    requires forall k :: 0 <= k < |s| ==> !IsSpace(s[k])
    ensures WithoutSpaces(s) == s
    decreases |s|
  {
    if s != [] {
      WithoutSpacesOfRun(s[1..]);
      assert [s[0]] + s[1..] == s;
    }
  }

  /**
   * The tokens of `s.split()`, put back together, are exactly the
   * non-whitespace characters of `s` in their original order.
   */
  lemma {:induction false} WordsCoverText(s: string)
    ensures Concat(Words(s)) == WithoutSpaces(s)
    decreases |s|
  {
    if s != [] {
      if IsSpace(s[0]) {
        WordsCoverText(s[1..]);
      } else {
        var n := RunLength(s);
        var ws := Words(s);
        assert ws == [s[..n]] + Words(s[n..]);
        assert ws[1..] == Words(s[n..]);
        WordsCoverText(s[n..]);
        assert s == s[..n] + s[n..];
        WithoutSpacesAppend(s[..n], s[n..]);
        WithoutSpacesOfRun(s[..n]);
      }
    }
  }

  // ---------------------------------------------------------------------------
  // prefix slice
  // ---------------------------------------------------------------------------

  /** Python's `s[:n]` for a non-negative `n`. */
  function Prefix(s: string, n: nat): (p: string)
    ensures |p| <= n && p <= s
    ensures |s| <= n ==> p == s
    ensures n <= |s| ==> |p| == n
  {
    if |s| <= n then s else s[..n]
  }
}
