/** String utilities shared by the Python and the JavaScript side; each side supplies its own
    notion of white space. */
module Strings {
  import opened Wrappers

  /** The first `n` elements, or all of them when there are fewer: Python's slice `s[:n]`
      and JavaScript's `s.substring(0, n)` alike clamp the end to the length. */
  function Take<T>(s: seq<T>, n: nat): (r: seq<T>)
    ensures |r| == Min(n, |s|) && r <= s
  {
    if n < |s| then s[..n] else s
  }

  /** Removes the longest prefix made of `ws` characters. */
  function TrimStart(s: string, ws: char -> bool): (r: string)
    ensures |r| <= |s| && r == s[|s| - |r|..]
    ensures forall k :: 0 <= k < |s| - |r| ==> ws(s[k])
    ensures r == [] || !ws(r[0])
  {
    if s != [] && ws(s[0]) then TrimStart(s[1..], ws) else s
  }

  /** Removes the longest suffix made of `ws` characters. */
  function TrimEnd(s: string, ws: char -> bool): (r: string)
    ensures |r| <= |s| && r == s[..|r|]
    ensures forall k :: |r| <= k < |s| ==> ws(s[k])
    ensures r == [] || !ws(r[|r| - 1])
  {
    if s != [] && ws(s[|s| - 1]) then TrimEnd(s[..|s| - 1], ws) else s
  }

  /** `r` is the infix of `s` starting at `i`, and everything before and after it is `ws`. */
  ghost predicate CutAt(s: string, r: string, i: int, ws: char -> bool)
  {
    && 0 <= i <= |s| - |r|
    && r == s[i..i + |r|]
    && (forall k :: 0 <= k < i ==> ws(s[k]))
    && (forall k :: i + |r| <= k < |s| ==> ws(s[k]))
  }

  /** Cutting a prefix of `s` and then a suffix of that prefix, each of white space only,
      leaves an infix of `s` with white space only around it. */
  lemma CutOfTrims(s: string, e: string, r: string, ws: char -> bool)
    requires |e| <= |s| && e == s[..|e|] && forall k :: |e| <= k < |s| ==> ws(s[k])
    requires |r| <= |e| && r == e[|e| - |r|..] && forall k :: 0 <= k < |e| - |r| ==> ws(e[k])
    ensures CutAt(s, r, |e| - |r|, ws)
  {
    var i := |e| - |r|;
    assert forall k :: 0 <= k < i ==> s[k] == e[k];
  }

  /** Removes white space at both ends: the result is the infix of `s` that neither starts
      nor ends with white space, and everything cut off on either side is white space. */
  function Trim(s: string, ws: char -> bool): (r: string)
    ensures r == [] || (!ws(r[0]) && !ws(r[|r| - 1]))
    ensures exists i :: CutAt(s, r, i, ws)
  {
    var e := TrimEnd(s, ws);
    var r := TrimStart(e, ws);
    CutOfTrims(s, e, r, ws);
    r
  }

  /** Trimming twice is trimming once. */
  lemma TrimIdempotent(s: string, ws: char -> bool)
    ensures Trim(Trim(s, ws), ws) == Trim(s, ws)
  {
  }

  /** A string that neither starts nor ends with white space is its own trim. */
  lemma TrimOfTrimmed(s: string, ws: char -> bool)
    requires s == [] || (!ws(s[0]) && !ws(s[|s| - 1]))
    ensures Trim(s, ws) == s
  {
  }
}
