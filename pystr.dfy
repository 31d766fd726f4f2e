/** The Python `str` operations that agent.py applies to a model reply. */
module PyStr {
  import opened Wrappers
  import Strings

  /** Python's `str.isspace` for one character: the characters `str.strip()` removes. */
  predicate IsSpace(c: char)
  {
    || '\U{9}' <= c <= '\U{D}'
    || '\U{1C}' <= c <= '\U{20}'
    || c == '\U{85}' || c == '\U{A0}' || c == '\U{1680}'
    || '\U{2000}' <= c <= '\U{200A}'
    || c == '\U{2028}' || c == '\U{2029}' || c == '\U{202F}' || c == '\U{205F}'
    || c == '\U{3000}'
  }

  /** `s.strip()` */
  function Strip(s: string): string
  {
    Strings.Trim(s, IsSpace)
  }

  /** The index of the first `c` in `s`, or `|s|` when there is none. */
  function IndexOf(s: string, c: char): (i: nat)
    ensures i <= |s| && c !in s[..i]
    ensures i < |s| ==> s[i] == c
  {
    if s == [] then 0
    else if s[0] == c then 0
    else
      var j := IndexOf(s[1..], c);
      assert s[..j + 1] == [s[0]] + s[1..][..j];
      j + 1
  }

  /** The index of the last `c` in `s`, or -1 when there is none. */
  function LastIndexOf(s: string, c: char): (j: int)
    ensures -1 <= j < |s| && forall k :: j < k < |s| ==> s[k] != c
    ensures 0 <= j ==> s[j] == c
  {
    if s == [] then -1
    else if s[|s| - 1] == c then |s| - 1
    else LastIndexOf(s[..|s| - 1], c)
  }

  /** Any position of `c` with no `c` before it is the one `IndexOf` finds. */
  lemma IndexOfIs(s: string, c: char, i: nat)
    requires i < |s| && s[i] == c && c !in s[..i]
    ensures IndexOf(s, c) == i
  {
  }

  /** Any position of `c` with no `c` after it is the one `LastIndexOf` finds. */
  lemma LastIndexOfIs(s: string, c: char, j: nat)
    requires j < |s| && s[j] == c && c !in s[j + 1..]
    ensures LastIndexOf(s, c) == j
  {
  }

  /** `s.split(sep, 1)[1]`: what follows the first `sep`, or None when there is no `sep` and
      the index raises IndexError. */
  function SplitOnceTail(s: string, sep: char): (r: Option<string>)
    ensures r.None? <==> sep !in s
  {
    var i := IndexOf(s, sep);
    if i < |s| then Some(s[i + 1..]) else None
  }

  /** `s.rsplit(sep, 1)[0]`: what precedes the last `sep`, or all of `s` when there is none. */
  function RsplitOnceHead(s: string, sep: char): (r: string)
    ensures sep !in s ==> r == s
  {
    var j := LastIndexOf(s, sep);
    if 0 <= j then s[..j] else s
  }
}
