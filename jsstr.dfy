/** The JavaScript `String` operations that the render callbacks of page.tsx use. */
module JsStr {
  import opened Wrappers
  import Strings

  /** ECMAScript WhiteSpace and LineTerminator: the characters `String.prototype.trim` removes. */
  predicate IsWhiteSpace(c: char)
  {
    || c == '\U{9}' || c == '\U{A}' || c == '\U{B}' || c == '\U{C}' || c == '\U{D}'
    || c == '\U{20}' || c == '\U{A0}' || c == '\U{1680}'
    || '\U{2000}' <= c <= '\U{200A}'
    || c == '\U{2028}' || c == '\U{2029}' || c == '\U{202F}' || c == '\U{205F}'
    || c == '\U{3000}' || c == '\U{FEFF}'
  }

  /** `s.trim()` */
  function Trim(s: string): string
  {
    Strings.Trim(s, IsWhiteSpace)
  }

  function LowerChar(c: char): char
  {
    if 'A' <= c <= 'Z' then (c as int + 32) as char else c
  }

  function UpperChar(c: char): char
  {
    if 'a' <= c <= 'z' then (c as int - 32) as char else c
  }

  /** `s.toLowerCase()`, character by character. */
  function ToLowerCase(s: string): (r: string)
    ensures |r| == |s| && forall k :: 0 <= k < |s| ==> r[k] == LowerChar(s[k])
  {
    seq(|s|, k requires 0 <= k < |s| => LowerChar(s[k]))
  }

  /** `s.charAt(0).toUpperCase() + s.slice(1)`: only the first character is upper-cased. */
  function Capitalize(s: string): (r: string)
    ensures |r| == |s|
    ensures s != [] ==> r[0] == UpperChar(s[0]) && r[1..] == s[1..]
    ensures r == s <==> s == [] || !('a' <= s[0] <= 'z')
    ensures r != [] ==> !('a' <= r[0] <= 'z')
  {
    if s == [] then "" else [UpperChar(s[0])] + s[1..]
  }

  /** Capitalising a label twice is capitalising it once. */
  lemma CapitalizeIdempotent(s: string)
    ensures Capitalize(Capitalize(s)) == Capitalize(s)
  {
  }

  /** Lower-casing keeps a character white space exactly when it was. */
  lemma LowerKeepsWhiteSpace(c: char)
    ensures IsWhiteSpace(LowerChar(c)) == IsWhiteSpace(c)
  {
  }

  /** Lower-casing does not touch white space, so trimming and lower-casing commute. */
  lemma TrimLowerCommute(s: string)
    ensures Trim(ToLowerCase(s)) == ToLowerCase(Trim(s))
  {
    TrimEndLower(s);
    TrimStartLower(Strings.TrimEnd(s, IsWhiteSpace));
  }

  lemma {:induction false} TrimEndLower(s: string)
    ensures Strings.TrimEnd(ToLowerCase(s), IsWhiteSpace) == ToLowerCase(Strings.TrimEnd(s, IsWhiteSpace))
    decreases |s|
  {
    var l := ToLowerCase(s);
    if s != [] {
      LowerKeepsWhiteSpace(s[|s| - 1]);
      assert l[|s| - 1] == LowerChar(s[|s| - 1]);
      if IsWhiteSpace(s[|s| - 1]) {
        TrimEndLower(s[..|s| - 1]);
        assert l[..|s| - 1] == ToLowerCase(s[..|s| - 1]);
      }
    }
  }

  lemma {:induction false} TrimStartLower(s: string)
    ensures Strings.TrimStart(ToLowerCase(s), IsWhiteSpace) == ToLowerCase(Strings.TrimStart(s, IsWhiteSpace))
    decreases |s|
  {
    var l := ToLowerCase(s);
    if s != [] {
      LowerKeepsWhiteSpace(s[0]);
      assert l[0] == LowerChar(s[0]);
      if IsWhiteSpace(s[0]) {
        TrimStartLower(s[1..]);
        assert l[1..] == ToLowerCase(s[1..]);
      }
    }
  }

  /** Lower-casing twice is lower-casing once. */
  lemma LowerIdempotent(s: string)
    ensures ToLowerCase(ToLowerCase(s)) == ToLowerCase(s)
  {
  }
}
