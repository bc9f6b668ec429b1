/** The two string operations the source relies on: `toLowerCase` on the
    ASCII range and `String.prototype.includes`. */
module Text {

  /** `toLowerCase` of one character: ASCII capitals map to small letters,
      every other character is left alone. */
  function LowerChar(c: char): (r: char)
    ensures !('A' <= r <= 'Z')
    ensures 'A' <= c <= 'Z' ==> r as int == c as int + 32
    ensures !('A' <= c <= 'Z') ==> r == c
  {
    if 'A' <= c <= 'Z' then (c as int + 32) as char else c
  }

  function Lower(s: string): (r: string)
    ensures |r| == |s|
    ensures forall i :: 0 <= i < |s| ==> r[i] == LowerChar(s[i])
  {
    if s == [] then [] else [LowerChar(s[0])] + Lower(s[1..])
  }

  predicate IsLower(s: string) {
    forall i :: 0 <= i < |s| ==> !('A' <= s[i] <= 'Z')
  }

  /** Lower-casing an already lower-cased name changes nothing, so looking up
      a lower-cased name a second time through `Lower` finds the same key. */
  lemma {:induction false} LowerIdempotent(s: string)
    ensures IsLower(Lower(s))
    ensures Lower(Lower(s)) == Lower(s)
  {
    if s != [] {
      LowerIdempotent(s[1..]);
      assert Lower(Lower(s)) == [LowerChar(LowerChar(s[0]))] + Lower(Lower(s[1..]));
    }
  }

  predicate IsPrefix(p: string, s: string) {
    |p| <= |s| && s[..|p|] == p
  }

  /** `s.includes(sub)`: `sub` occurs in `s` at some position. */
  function Contains(s: string, sub: string): (r: bool)
    ensures r <==> exists k :: 0 <= k <= |s| - |sub| && IsPrefix(sub, s[k..])
    decreases |s|
  {
    if IsPrefix(sub, s) then
      assert IsPrefix(sub, s[0..]);
      true
    else if s == [] then
      false
    else
      var r := Contains(s[1..], sub);
      assert forall k :: 1 <= k <= |s| - |sub| ==> s[k..] == s[1..][k - 1..];
      r
  }
}
