/** The few string operations of Python's `str` that the core relies on:
    `lower()`, the `in` substring test and `strip()`. */
module Strings {

  /** Python's `str.isspace()` on one character: the code points Python
      treats as whitespace, which are the ones `strip()` removes. */
  predicate IsSpace(c: char) {
    var n := c as int;
    (0x09 <= n <= 0x0d) || (0x1c <= n <= 0x20) || n == 0x85 || n == 0xa0
    || n == 0x1680 || (0x2000 <= n <= 0x200a) || n == 0x2028 || n == 0x2029
    || n == 0x202f || n == 0x205f || n == 0x3000
  }

  /** `strip()` without its right-hand half: drops leading whitespace. */
  function TrimLeft(s: string): (r: string)
    ensures |r| <= |s| && r == s[|s| - |r|..]
    ensures forall i :: 0 <= i < |s| - |r| ==> IsSpace(s[i])
    ensures r == [] || !IsSpace(r[0])
  {
    if s != [] && IsSpace(s[0]) then TrimLeft(s[1..]) else s
  }

  /** Drops trailing whitespace. */
  function TrimRight(s: string): (r: string)
    ensures |r| <= |s| && r == s[..|r|]
    ensures forall i :: |r| <= i < |s| ==> IsSpace(s[i])
    ensures r == [] || !IsSpace(r[|r| - 1])
  {
    if s != [] && IsSpace(s[|s| - 1]) then TrimRight(s[..|s| - 1]) else s
  }

  /** `r` occurs in `s` starting at position `i`. */
  predicate SliceAt(s: string, i: int, r: string) {
    0 <= i <= |s| - |r| && s[i..i + |r|] == r
  }

  /** Python's `str.strip()` with no argument: the part of `s` between its
      leading and its trailing whitespace. */
  function Strip(s: string): (r: string)
    ensures |r| <= |s|
    ensures r == [] || (!IsSpace(r[0]) && !IsSpace(r[|r| - 1]))
    ensures exists i :: SliceAt(s, i, r)
             && (forall j :: 0 <= j < i ==> IsSpace(s[j]))
             && (forall j :: i + |r| <= j < |s| ==> IsSpace(s[j]))
  {
    var l := TrimLeft(s);
    var r := TrimRight(l);
    var i := |s| - |l|;
    assert SliceAt(s, i, r);
    r
  }

  /** `not key.strip()`: a string strips to nothing exactly when every one of
      its characters is whitespace. */
  lemma StripEmptyIffAllSpace(s: string)
    ensures Strip(s) == [] <==> forall i :: 0 <= i < |s| ==> IsSpace(s[i])
  {
    var l := TrimLeft(s);
    if l != [] {
      assert !IsSpace(l[0]);
      assert TrimRight(l) != [];
      assert !IsSpace(s[|s| - |l|]);
    }
  }

  /** ASCII case mapping of `str.lower()`. */
  function LowerChar(c: char): (d: char)
    ensures 'A' <= c <= 'Z' ==> d as int == c as int + 32
    ensures !('A' <= c <= 'Z') ==> d == c
    ensures !('A' <= d <= 'Z')
  {
    if 'A' <= c <= 'Z' then (c as int + 32) as char else c
  }

  /** `str.lower()`. */
  function Lower(s: string): (r: string)
    ensures |r| == |s|
    ensures forall i :: 0 <= i < |s| ==> r[i] == LowerChar(s[i])
  {
    seq(|s|, i requires 0 <= i < |s| => LowerChar(s[i]))
  }

  /** Two strings that differ at most in the case of their letters. */
  predicate SameIgnoringCase(a: string, b: string) {
    |a| == |b| && forall i :: 0 <= i < |a| ==> LowerChar(a[i]) == LowerChar(b[i])
  }

  lemma LowerOfSameIgnoringCase(a: string, b: string)
    requires SameIgnoringCase(a, b)
    ensures Lower(a) == Lower(b)
  {
  }

  /** Python's `needle in hay` on strings: `needle` occurs contiguously in `hay`. */
  function IsSubstring(needle: string, hay: string): (b: bool)
    ensures needle == [] ==> b
    ensures b ==> |needle| <= |hay|
    ensures needle <= hay ==> b
    ensures b <==> exists i :: SliceAt(hay, i, needle)
  {
    assert needle <= hay ==> needle <= hay[0..];
    assert forall i :: 0 <= i <= |hay| - |needle| ==> (needle <= hay[i..] <==> SliceAt(hay, i, needle));
    exists i :: 0 <= i <= |hay| - |needle| && needle <= hay[i..]
  }
}
