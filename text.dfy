/**
 * The three Python string operations the prompt chain relies on:
 * substring membership (`pat in s`), the second piece of `s.split(sep)`
 * and `s.strip()`. Strings are sequences of Unicode scalar values.
 */
module Text {

  datatype Option<T> = None | Some(value: T)

  /** `pat` occurs in `s` starting at index `i`. */
  predicate OccursAt(s: string, pat: string, i: nat)
  {
    i + |pat| <= |s| && s[i..i + |pat|] == pat
  }

  /** The first index at or after `from` where `pat` occurs in `s`. */
  function IndexFrom(s: string, pat: string, from: nat): (r: Option<nat>)
    requires from <= |s|
    ensures r.Some? ==> from <= r.value && OccursAt(s, pat, r.value)
    ensures r.Some? ==> forall j :: from <= j < r.value ==> !OccursAt(s, pat, j)
    ensures r.None? ==> forall j :: from <= j <= |s| ==> !OccursAt(s, pat, j)
    decreases |s| - from
  {
    if OccursAt(s, pat, from) then Some(from)
    else if from == |s| then None
    else IndexFrom(s, pat, from + 1)
  }

  /** The first index where `pat` occurs in `s` (Python's `s.find(pat)`). */
  function IndexOf(s: string, pat: string): (r: Option<nat>)
    ensures r.Some? ==> OccursAt(s, pat, r.value)
    ensures r.Some? ==> forall j :: 0 <= j < r.value ==> !OccursAt(s, pat, j)
    ensures r.None? ==> forall j :: 0 <= j <= |s| ==> !OccursAt(s, pat, j)
  {
    IndexFrom(s, pat, 0)
  }

  /** Python's `pat in s`. */
  predicate Contains(s: string, pat: string)
  {
    IndexOf(s, pat).Some?
  }

  lemma ContainsIff(s: string, pat: string)
    ensures Contains(s, pat) <==> exists i: nat :: OccursAt(s, pat, i)
  {
    if Contains(s, pat) {
      assert OccursAt(s, pat, IndexOf(s, pat).value);
    } else {
      forall i: nat ensures !OccursAt(s, pat, i) {
        if i <= |s| {
          assert !OccursAt(s, pat, i);
        }
      }
    }
  }

  /** A slice of a slice is a slice of the original string. */
  lemma SliceOfSlice(s: string, a: nat, b: nat, i: nat, j: nat)
    requires a <= b <= |s| && i <= j <= b - a
    ensures s[a..b][i..j] == s[a + i..a + j]
  {
    forall k | 0 <= k < j - i
      ensures s[a..b][i..j][k] == s[a + i..a + j][k]
    {
      assert s[a..b][i..j][k] == s[a..b][i + k] == s[a + i + k];
    }
  }

  /** An occurrence inside a slice of `s` is an occurrence in `s`. */
  lemma ContainsInSlice(s: string, a: nat, b: nat, pat: string)
    requires a <= b <= |s|
    requires Contains(s[a..b], pat)
    ensures Contains(s, pat)
  {
    var i := IndexOf(s[a..b], pat).value;
    SliceOfSlice(s, a, b, i, i + |pat|);
    OccursAtContains(s, pat, a + i);
  }

  /** A string that holds `pat` at index `i` contains `pat`. */
  lemma OccursAtContains(s: string, pat: string, i: nat)
    requires OccursAt(s, pat, i)
    ensures Contains(s, pat)
  {
    ContainsIff(s, pat);
  }

  /** If `s` contains `big`, it contains every slice of `big`. */
  lemma ContainsPart(s: string, big: string, a: nat, b: nat)
    requires a <= b <= |big|
    requires Contains(s, big)
    ensures Contains(s, big[a..b])
  {
    var i := IndexOf(s, big).value;
    SliceOfSlice(s, i, i + |big|, a, b);
    OccursAtContains(s, big[a..b], i + a);
  }

  /** An occurrence in a suffix of `s` is an occurrence in `s`, shifted. */
  lemma OccursShift(s: string, pat: string, from: nat, j: nat)
    requires from <= |s|
    ensures OccursAt(s[from..], pat, j) <==> OccursAt(s, pat, from + j)
  {
    if from + j + |pat| <= |s| {
      SliceOfSlice(s, from, |s|, j, j + |pat|);
      assert s[from..] == s[from..|s|];
    }
  }

  /** Searching a suffix finds the first occurrence at or after its start. */
  lemma IndexFromShift(s: string, pat: string, from: nat)
    requires from <= |s|
    ensures IndexOf(s[from..], pat)
         == match IndexFrom(s, pat, from) case Some(e) => Some(e - from) case None => None
  {
    var t := s[from..];
    match IndexFrom(s, pat, from)
    case Some(e) =>
      OccursShift(s, pat, from, e - from);
      forall j | 0 <= j < e - from
        ensures !OccursAt(t, pat, j)
      {
        OccursShift(s, pat, from, j);
      }
    case None =>
      forall j | 0 <= j <= |t|
        ensures !OccursAt(t, pat, j)
      {
        OccursShift(s, pat, from, j);
      }
  }

  /**
   * The piece of `s` between the first occurrence of `sep` and the next one,
   * or the end of `s` when there is no next one: Python's `s.split(sep)[1]`,
   * which is only defined when `sep` occurs in `s` (otherwise the index
   * raises) and `sep` is not empty (otherwise `split` raises).
   */
  function SplitSecond(s: string, sep: string): (r: string)
    requires sep != [] && Contains(s, sep)
    ensures !Contains(r, sep)
    ensures
      var i := IndexOf(s, sep).value;
      var end := i + |sep| + |r|;
      end <= |s| && s[i + |sep|..end] == r && (end == |s| || OccursAt(s, sep, end))
  {
    var start := IndexOf(s, sep).value + |sep|;
    var rest := s[start..];
    match IndexOf(rest, sep)
    case None =>
      assert rest == s[start..start + |rest|];
      rest
    case Some(j) =>
      PieceBeforeNext(s, sep, start, j);
      rest[..j]
  }

  /** The text of `s` from `start` up to the next `sep` holds no `sep`. */
  lemma PieceBeforeNext(s: string, sep: string, start: nat, j: nat)
    requires sep != [] && start <= |s| && IndexOf(s[start..], sep) == Some(j)
    ensures start + j <= |s| && s[start..start + j] == s[start..][..j]
    ensures OccursAt(s, sep, start + j) && !Contains(s[start..][..j], sep)
  {
    var rest := s[start..];
    assert rest == s[start..|s|];
    SliceOfSlice(s, start, |s|, j, j + |sep|);
    SliceOfSlice(s, start, |s|, 0, j);
    PrefixBeforeFirst(rest, sep, j);
  }

  /**
   * Where the second piece of a split of `s` by `sep` ends when it starts at
   * `first`: at the next occurrence of `sep`, or at the end of `s`.
   */
  function PieceEnd(s: string, sep: string, first: nat): (end: nat)
    requires first <= |s|
    ensures first <= end <= |s|
    ensures end < |s| ==> OccursAt(s, sep, end)
  {
    match IndexFrom(s, sep, first)
    case Some(e) => e
    case None => |s|
  }

  /**
   * The second piece of a split runs from the end of the first separator
   * to the next separator at or after it, or to the end of `s`.
   */
  lemma SplitSecondIsNextPiece(s: string, sep: string, first: nat)
    requires sep != [] && Contains(s, sep) && first == IndexOf(s, sep).value + |sep|
    ensures first <= |s| && SplitSecond(s, sep) == s[first..PieceEnd(s, sep, first)]
  {
    if IndexFrom(s, sep, first).Some? {
      SplitSecondUpTo(s, sep, first, IndexFrom(s, sep, first).value);
    } else {
      SplitSecondToEnd(s, sep, first);
    }
  }

  /** With a next separator at `e`, the second piece ends there. */
  lemma SplitSecondUpTo(s: string, sep: string, first: nat, e: nat)
    requires sep != [] && Contains(s, sep) && first == IndexOf(s, sep).value + |sep|
    requires first <= |s| && IndexFrom(s, sep, first) == Some(e)
    ensures first <= e <= |s| && SplitSecond(s, sep) == s[first..e]
  {
    NextInSuffix(s, sep, first, e);
    SplitSecondBeforeNext(s, sep, first, e);
  }

  /** Without a next separator, the second piece runs to the end of `s`. */
  lemma SplitSecondToEnd(s: string, sep: string, first: nat)
    requires sep != [] && Contains(s, sep) && first == IndexOf(s, sep).value + |sep|
    requires first <= |s| && IndexFrom(s, sep, first) == None
    ensures SplitSecond(s, sep) == s[first..|s|]
  {
    NoneInSuffix(s, sep, first);
    assert s[first..] == s[first..|s|];
  }

  /** The next occurrence at or after `from` is the first occurrence in `s[from..]`, shifted. */
  lemma NextInSuffix(s: string, pat: string, from: nat, e: nat)
    requires from <= |s| && IndexFrom(s, pat, from) == Some(e)
    ensures from <= e <= |s| && IndexOf(s[from..], pat) == Some(e - from)
  {
    IndexFromShift(s, pat, from);
  }

  /** No occurrence at or after `from` means none in `s[from..]`. */
  lemma NoneInSuffix(s: string, pat: string, from: nat)
    requires from <= |s| && IndexFrom(s, pat, from) == None
    ensures IndexOf(s[from..], pat) == None
  {
    IndexFromShift(s, pat, from);
  }

  /** The second piece is the suffix after the first separator, cut at the first separator in it. */
  lemma SplitSecondBeforeNext(s: string, sep: string, first: nat, e: nat)
    requires sep != [] && Contains(s, sep) && first == IndexOf(s, sep).value + |sep|
    requires first <= e <= |s| && IndexOf(s[first..], sep) == Some(e - first)
    ensures SplitSecond(s, sep) == s[first..e]
  {
    var rest := s[first..];
    assert SplitSecond(s, sep) == rest[..e - first];
    SliceOfSlice(s, first, |s|, 0, e - first);
    assert rest == s[first..|s|] && rest[..e - first] == rest[0..e - first];
  }

  /** Nothing before the first occurrence of `pat` contains `pat`. */
  lemma PrefixBeforeFirst(t: string, pat: string, j: nat)
    requires pat != [] && IndexOf(t, pat) == Some(j)
    ensures !Contains(t[..j], pat)
  {
    forall k: nat
      ensures !OccursAt(t[..j], pat, k)
    {
      if k + |pat| <= j {
        SliceOfSlice(t, 0, j, k, k + |pat|);
        assert t[..j] == t[0..j];
        assert !OccursAt(t, pat, k);
      }
    }
    ContainsIff(t[..j], pat);
  }

  /** Python's `str.isspace` for one character. */
  predicate IsSpace(c: char)
  {
    || c == ' ' || ('\t' <= c <= '\r')
    || ('\U{1C}' <= c <= '\U{1F}')
    || c == '\U{85}' || c == '\U{A0}' || c == '\U{1680}'
    || ('\U{2000}' <= c <= '\U{200A}')
    || c == '\U{2028}' || c == '\U{2029}' || c == '\U{202F}'
    || c == '\U{205F}' || c == '\U{3000}'
  }

  /** Number of whitespace characters at the start of `s`. */
  function LeadingSpace(s: string): (n: nat)
    ensures n <= |s|
    ensures forall k :: 0 <= k < n ==> IsSpace(s[k])
    ensures n < |s| ==> !IsSpace(s[n])
  {
    if s != [] && IsSpace(s[0]) then 1 + LeadingSpace(s[1..]) else 0
  }

  /** Number of whitespace characters at the end of `s`. */
  function TrailingSpace(s: string): (n: nat)
    ensures n <= |s|
    ensures forall k :: |s| - n <= k < |s| ==> IsSpace(s[k])
    ensures n < |s| ==> !IsSpace(s[|s| - 1 - n])
  {
    if s != [] && IsSpace(s[|s| - 1]) then 1 + TrailingSpace(s[..|s| - 1]) else 0
  }

  /**
   * Python's `s.strip()`: `s` without its leading and trailing whitespace.
   * The result is the slice of `s` that starts after the leading whitespace;
   * everything after it is whitespace, and it neither starts nor ends with
   * whitespace.
   */
  function Strip(s: string): (r: string)
    ensures LeadingSpace(s) + |r| <= |s|
    ensures r == s[LeadingSpace(s)..LeadingSpace(s) + |r|]
    ensures forall k :: LeadingSpace(s) + |r| <= k < |s| ==> IsSpace(s[k])
    ensures r != [] ==> !IsSpace(r[0]) && !IsSpace(r[|r| - 1])
  {
    var t := s[LeadingSpace(s)..];
    var r := t[..|t| - TrailingSpace(t)];
    assert r != [] ==> r[0] == t[0];
    r
  }

  /** Stripping cannot create an occurrence: the result is a slice of its input. */
  lemma StripKeepsOut(s: string, pat: string)
    requires !Contains(s, pat)
    ensures !Contains(Strip(s), pat)
  {
    var n := LeadingSpace(s);
    if Contains(Strip(s), pat) {
      ContainsInSlice(s, n, n + |Strip(s)|, pat);
    }
  }
}
