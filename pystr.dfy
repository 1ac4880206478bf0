/** Python's string operations used by the Crux tool adapter: the `in`
    operator on strings, `str.find`, and the open-ended slice `s[i:]`
    with Python's reading of negative indices. */
module PyStr {

  /** `pat` occurs in `s` starting at index `i`. */
  predicate OccursAt(s: string, pat: string, i: int)
  {
    0 <= i && i + |pat| <= |s| && s[i..i + |pat|] == pat
  }

  /** Python's `pat in s` for strings: `pat` is a substring of `s`. */
  predicate Contains(s: string, pat: string)
  {
    exists i :: 0 <= i <= |s| && OccursAt(s, pat, i)
  }

  /** The search behind `s.find(pat, from)`: the least index at or after
      `from` where `pat` occurs, or -1 when there is none. */
  function FindFrom(s: string, pat: string, from: nat): (r: int)
    requires from <= |s|
    decreases |s| - from
    ensures r == -1 || (from <= r && OccursAt(s, pat, r))
    ensures r == -1 <==> forall i :: from <= i <= |s| ==> !OccursAt(s, pat, i)
    ensures forall i :: from <= i < r ==> !OccursAt(s, pat, i)
  {
    if from + |pat| > |s| then -1
    else if s[from..from + |pat|] == pat then from
    else FindFrom(s, pat, from + 1)
  }

  /** Python's `s.find(pat)`: the index of the first occurrence of `pat`
      in `s`, or -1 when `pat` does not occur. */
  function Find(s: string, pat: string): (r: int)
    ensures -1 <= r <= |s|
    ensures r >= 0 <==> Contains(s, pat)
    ensures r >= 0 ==> OccursAt(s, pat, r) && forall i :: 0 <= i < r ==> !OccursAt(s, pat, i)
  {
    FindFrom(s, pat, 0)
  }

  /** Python's `s[i:]`: a negative `i` counts from the end (clamped at the
      start), an `i` past the end gives the empty string. */
  function SliceFrom(s: string, i: int): (r: string)
    ensures |r| <= |s| && r == s[|s| - |r|..]
    ensures 0 <= i <= |s| ==> r == s[i..]
    ensures i > |s| ==> r == []
    ensures -|s| <= i < 0 ==> |r| == -i
    ensures i < -|s| ==> r == s
  {
    var start := if i < 0 then (if |s| + i < 0 then 0 else |s| + i)
                 else (if i > |s| then |s| else i);
    s[start..]
  }

  /** If `inner` begins `outer`, every string containing `outer` contains
      `inner`. */
  lemma ContainsPrefix(s: string, outer: string, inner: string)
    requires |inner| <= |outer| && outer[..|inner|] == inner
    requires Contains(s, outer)
    ensures Contains(s, inner)
  {
    var i :| 0 <= i <= |s| && OccursAt(s, outer, i);
    assert s[i..i + |inner|] == s[i..i + |outer|][..|inner|];
    assert OccursAt(s, inner, i);
  }
}
