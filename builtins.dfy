/**
 * The few Python built-ins the annotation tool relies on, written out so
 * that their edge cases are explicit: `str.lower`, `str.strip`,
 * `str.endswith`, list indexing (which accepts negative indices) and
 * `int(float)` (which truncates toward zero).
 */
module Builtins {

  predicate IsAsciiUpper(c: char) {
    'A' <= c <= 'Z'
  }

  /** `str.lower` on one character; only A-Z are mapped. */
  function LowerChar(c: char): (r: char)
    ensures !IsAsciiUpper(r)
    ensures !IsAsciiUpper(c) ==> r == c
  {
    if IsAsciiUpper(c) then (c as int + 32) as char else c
  }

  /** `str.lower`, character by character. */
  function Lower(s: string): (r: string)
    ensures |r| == |s|
    ensures forall i :: 0 <= i < |s| ==> r[i] == LowerChar(s[i])
  {
    if s == [] then [] else [LowerChar(s[0])] + Lower(s[1..])
  }

  /** Lower-casing twice is lower-casing once. */
  lemma LowerIdempotent(s: string)
    ensures Lower(Lower(s)) == Lower(s)
  {
  }

  /** The characters for which Python's `str.isspace` holds. */
  predicate IsSpace(c: char) {
    c in {'\t', '\n', '\U{B}', '\U{C}', '\r', '\U{1C}', '\U{1D}', '\U{1E}', '\U{1F}', ' ',
          '\U{85}', '\U{A0}', '\U{1680}', '\U{2000}', '\U{2001}', '\U{2002}', '\U{2003}',
          '\U{2004}', '\U{2005}', '\U{2006}', '\U{2007}', '\U{2008}', '\U{2009}', '\U{200A}',
          '\U{2028}', '\U{2029}', '\U{202F}', '\U{205F}', '\U{3000}'}
  }

  /** `str.lstrip()`: drops leading whitespace. */
  function TrimLeft(s: string): (r: string)
    ensures |r| <= |s|
    ensures r == [] || !IsSpace(r[0])
  {
    if s != [] && IsSpace(s[0]) then TrimLeft(s[1..]) else s
  }

  /** `str.rstrip()`: drops trailing whitespace. */
  function TrimRight(s: string): (r: string)
    ensures |r| <= |s|
    ensures r == [] || !IsSpace(r[|r| - 1])
  {
    if s != [] && IsSpace(s[|s| - 1]) then TrimRight(s[..|s| - 1]) else s
  }

  /** `str.strip()` with no argument: drops leading and trailing whitespace. */
  function Strip(s: string): (r: string)
    ensures |r| <= |s|
    ensures r == [] || (!IsSpace(r[0]) && !IsSpace(r[|r| - 1]))
  {
    TrimRightDropsTrailingSpaces(TrimLeft(s));
    TrimRight(TrimLeft(s))
  }

  /** TrimLeft keeps a suffix of s and drops only whitespace. */
  lemma {:induction false} TrimLeftDropsLeadingSpaces(s: string)
    ensures var r := TrimLeft(s);
            r == s[|s| - |r|..] && forall i :: 0 <= i < |s| - |r| ==> IsSpace(s[i])
  {
    if s != [] && IsSpace(s[0]) {
      TrimLeftDropsLeadingSpaces(s[1..]);
      var r := TrimLeft(s);
      assert forall i :: 1 <= i < |s| - |r| ==> s[i] == s[1..][i - 1];
    }
  }

  /** TrimRight keeps a prefix of s and drops only whitespace. */
  lemma {:induction false} TrimRightDropsTrailingSpaces(s: string)
    ensures var r := TrimRight(s);
            r == s[..|r|] && forall i :: |r| <= i < |s| ==> IsSpace(s[i])
  {
    if s != [] && IsSpace(s[|s| - 1]) {
      TrimRightDropsTrailingSpaces(s[..|s| - 1]);
      var r := TrimRight(s);
      assert forall i :: |r| <= i < |s| - 1 ==> s[i] == s[..|s| - 1][i];
    }
  }

  /** Strip keeps a slice of s with only whitespace before and after it. */
  lemma StripKeepsMiddle(s: string)
    ensures exists a, b :: 0 <= a <= b <= |s| && Strip(s) == s[a..b] &&
                           (forall i :: 0 <= i < a ==> IsSpace(s[i])) &&
                           (forall i :: b <= i < |s| ==> IsSpace(s[i]))
  {
    var l := TrimLeft(s);
    TrimLeftDropsLeadingSpaces(s);
    TrimRightDropsTrailingSpaces(l);
    var a := |s| - |l|;
    var b := a + |Strip(s)|;
    assert Strip(s) == s[a..b];
    assert forall i :: b <= i < |s| ==> s[i] == l[i - a];
  }

  /** `s.endswith(suffix)`. */
  predicate EndsWith(s: string, suffix: string) {
    |suffix| <= |s| && s[|s| - |suffix|..] == suffix
  }

  /** An index Python accepts for a list of length n: negative ones count from the end. */
  predicate ValidIndex(i: int, n: int) {
    -n <= i < n
  }

  /** The position that `xs[i]` reads when `ValidIndex(i, |xs|)`. */
  function Position(i: int, n: int): (p: int)
    requires ValidIndex(i, n)
    ensures 0 <= p < n
  {
    if i < 0 then i + n else i
  }

  /** `int(v)` for a float v: truncation toward zero (not the floor). */
  function Truncate(v: real): (r: int)
    ensures 0.0 <= v ==> r as real <= v < r as real + 1.0
    ensures v < 0.0 ==> r as real - 1.0 < v <= r as real
  {
    if 0.0 <= v then v.Floor else -((-v).Floor)
  }
}
