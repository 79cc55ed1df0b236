/** The two string facilities the scoring rules use: trimming white space
    from both ends, and the length of a string in UTF-8 bytes (what `len`
    of a string measures). */
module Strings {

  /** Unicode White_Space characters: ASCII tab, line feed, vertical tab,
      form feed, carriage return and space, then NEL, NO-BREAK SPACE and the
      space separators above Latin-1. */
  predicate IsSpace(c: char)
  {
    || '\t' <= c <= '\r'
    || c == ' '
    || c == '\U{85}'
    || c == '\U{A0}'
    || c == '\U{1680}'
    || '\U{2000}' <= c <= '\U{200A}'
    || c == '\U{2028}'
    || c == '\U{2029}'
    || c == '\U{202F}'
    || c == '\U{205F}'
    || c == '\U{3000}'
  }

  predicate AllSpace(s: string)
  {
    forall i :: 0 <= i < |s| ==> IsSpace(s[i])
  }

  /** Number of bytes in the UTF-8 encoding of `c`. */
  function Utf8Width(c: char): (w: nat)
    ensures 1 <= w <= 4 && (w == 1 <==> c < '\U{80}')
  {
    if c < '\U{80}' then 1
    else if c < '\U{800}' then 2
    else if c < '\U{10000}' then 3
    else 4
  }

  /** Length of `s` in UTF-8 bytes. */
  function Utf8Length(s: string): (n: nat)
    ensures |s| <= n <= 4 * |s|
  {
    if s == [] then 0 else Utf8Width(s[0]) + Utf8Length(s[1..])
  }

  predicate IsAscii(s: string)
  {
    forall i :: 0 <= i < |s| ==> s[i] < '\U{80}'
  }

  /** Byte length equals character count exactly for ASCII text. */
  lemma {:induction false} Utf8LengthOfAscii(s: string)
    ensures Utf8Length(s) == |s| <==> IsAscii(s)
  {
    if s != [] {
      Utf8LengthOfAscii(s[1..]);
      assert IsAscii(s) <==> s[0] < '\U{80}' && IsAscii(s[1..]) by {
        if s[0] < '\U{80}' && IsAscii(s[1..]) {
          forall i | 1 <= i < |s| ensures s[i] < '\U{80}' { assert s[i] == s[1..][i - 1]; }
        }
      }
    }
  }

  /** Index of the first character at or after `lo` that is not white
      space, or `|s|` when there is none. */
  function LeadingSpaceEnd(s: string, lo: nat): (k: nat)
    requires lo <= |s|
    ensures lo <= k <= |s|
    decreases |s| - lo
  {
    if lo < |s| && IsSpace(s[lo]) then LeadingSpaceEnd(s, lo + 1) else lo
  }

  /** Index just past the last character before `hi` and at or after `lo`
      that is not white space, or `lo` when there is none. */
  function TrailingSpaceStart(s: string, lo: nat, hi: nat): (k: nat)
    requires lo <= hi <= |s|
    ensures lo <= k <= hi
    decreases hi
  {
    if lo < hi && IsSpace(s[hi - 1]) then TrailingSpaceStart(s, lo, hi - 1) else hi
  }

  /** `s` with leading and trailing white space removed: the start index
      moves right past white space, then the end index moves left past
      white space, never below the start. */
  function TrimSpace(s: string): string
  {
    var start := LeadingSpaceEnd(s, 0);
    s[start..TrailingSpaceStart(s, start, |s|)]
  }

  /** The scan from the left stops at the first character that is not white
      space. */
  lemma {:induction false} LeadingSpaceEndIsFirst(s: string, lo: nat)
    requires lo <= |s|
    ensures var k := LeadingSpaceEnd(s, lo);
      (forall i :: lo <= i < k ==> IsSpace(s[i])) && (k < |s| ==> !IsSpace(s[k]))
    decreases |s| - lo
  {
    if lo < |s| && IsSpace(s[lo]) {
      LeadingSpaceEndIsFirst(s, lo + 1);
    }
  }

  /** The scan from the right stops after the last character that is not
      white space. */
  lemma {:induction false} TrailingSpaceStartIsLast(s: string, lo: nat, hi: nat)
    requires lo <= hi <= |s|
    ensures var k := TrailingSpaceStart(s, lo, hi);
      (forall i :: k <= i < hi ==> IsSpace(s[i])) && (k > lo ==> !IsSpace(s[k - 1]))
    decreases hi
  {
    if lo < hi && IsSpace(s[hi - 1]) {
      TrailingSpaceStartIsLast(s, lo, hi - 1);
    }
  }

  /** Any index with only white space before it and none at it is where the
      scan from the left stops. */
  lemma {:induction false} LeadingSpaceEndUnique(s: string, lo: nat, k: nat)
    requires lo <= k <= |s|
    requires forall i :: lo <= i < k ==> IsSpace(s[i])
    requires k == |s| || !IsSpace(s[k])
    ensures LeadingSpaceEnd(s, lo) == k
    decreases k - lo
  {
    if lo < k {
      LeadingSpaceEndUnique(s, lo + 1, k);
    }
  }

  /** Any index with only white space after it and none just before it is
      where the scan from the right stops. */
  lemma {:induction false} TrailingSpaceStartUnique(s: string, lo: nat, hi: nat, k: nat)
    requires lo <= k <= hi <= |s|
    requires forall i :: k <= i < hi ==> IsSpace(s[i])
    requires k == lo || !IsSpace(s[k - 1])
    ensures TrailingSpaceStart(s, lo, hi) == k
    decreases hi
  {
    if k < hi {
      TrailingSpaceStartUnique(s, lo, hi - 1, k);
    }
  }

  /** TrimSpace keeps the characters of `s` between the two scans' stops,
      neither starting nor ending with white space, and cuts only white
      space on either side. */
  lemma {:induction false} TrimSpaceIsCore(s: string)
    ensures var k := LeadingSpaceEnd(s, 0); var e := TrailingSpaceStart(s, k, |s|);
      && TrimSpace(s) == s[k..e]
      && (forall i :: 0 <= i < k ==> IsSpace(s[i]))
      && (forall i :: e <= i < |s| ==> IsSpace(s[i]))
      && (k < e ==> !IsSpace(s[k]) && !IsSpace(s[e - 1]))
  {
    var k := LeadingSpaceEnd(s, 0);
    LeadingSpaceEndIsFirst(s, 0);
    TrailingSpaceStartIsLast(s, k, |s|);
  }

  /** Padding on the left shifts where the scan from the left stops. */
  lemma {:induction false} PaddedLeadingEnd(t: string, before: string, s: string, after: string)
    requires t == before + s + after && AllSpace(before) && AllSpace(after)
    ensures var k := LeadingSpaceEnd(s, 0);
      LeadingSpaceEnd(t, 0) == if k < |s| then |before| + k else |t|
  {
    var k := LeadingSpaceEnd(s, 0);
    LeadingSpaceEndIsFirst(s, 0);
    if k < |s| {
      forall i | 0 <= i < |before| + k
        ensures IsSpace(t[i])
      {
        if i >= |before| {
          assert t[i] == s[i - |before|];
        }
      }
      assert t[|before| + k] == s[k];
      LeadingSpaceEndUnique(t, 0, |before| + k);
    } else {
      forall i | 0 <= i < |t|
        ensures IsSpace(t[i])
      {
        if |before| <= i < |before| + |s| {
          assert t[i] == s[i - |before|];
        } else if i >= |before| + |s| {
          assert t[i] == after[i - |before| - |s|];
        }
      }
      LeadingSpaceEndUnique(t, 0, |t|);
    }
  }

  /** Padding on the right does not move where the scan from the right
      stops, relative to the text. */
  lemma {:induction false} PaddedTrailingStart(t: string, before: string, s: string, after: string, k: nat)
    requires t == before + s + after && AllSpace(after)
    requires k < |s| && !IsSpace(s[k])
    ensures TrailingSpaceStart(t, |before| + k, |t|) == |before| + TrailingSpaceStart(s, k, |s|)
  {
    var e := TrailingSpaceStart(s, k, |s|);
    TrailingSpaceStartIsLast(s, k, |s|);
    var b := |before|;
    forall i | b + e <= i < |t|
      ensures IsSpace(t[i])
    {
      if i < b + |s| {
        assert t[i] == s[i - b];
      } else {
        assert t[i] == after[i - b - |s|];
      }
    }
    assert e > k;
    assert t[b + e - 1] == s[e - 1];
    TrailingSpaceStartUnique(t, b + k, |t|, b + e);
  }

  /** White space added on either side never changes the trimmed text. */
  lemma {:induction false} TrimSpaceIgnoresPadding(before: string, s: string, after: string)
    requires AllSpace(before) && AllSpace(after)
    ensures TrimSpace(before + s + after) == TrimSpace(s)
  {
    var t := before + s + after;
    var b := |before|;
    var k := LeadingSpaceEnd(s, 0);
    PaddedLeadingEnd(t, before, s, after);
    if k < |s| {
      LeadingSpaceEndIsFirst(s, 0);
      PaddedTrailingStart(t, before, s, after, k);
      PaddedSlice(t, before, s, after, k, TrailingSpaceStart(s, k, |s|));
    }
  }

  lemma {:induction false} PaddedSlice(t: string, before: string, s: string, after: string, k: nat, e: nat)
    requires t == before + s + after && k <= e <= |s|
    ensures t[|before| + k..|before| + e] == s[k..e]
  {
    assert forall i :: 0 <= i < e - k ==> t[|before| + k..|before| + e][i] == s[k..e][i];
  }

  /** Text of white space alone trims to nothing. */
  lemma {:induction false} TrimSpaceOfBlank(s: string)
    requires AllSpace(s)
    ensures TrimSpace(s) == []
  {
    LeadingSpaceEndUnique(s, 0, |s|);
  }

  /** Text that neither starts nor ends with white space is its own trim. */
  lemma {:induction false} TrimSpaceOfTrimmed(s: string)
    requires s == [] || (!IsSpace(s[0]) && !IsSpace(s[|s| - 1]))
    ensures TrimSpace(s) == s
  {
    assert s[0..|s|] == s;
  }
}
