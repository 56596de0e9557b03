/**
 The two string operations the topic search relies on: lower-casing
 (`String.prototype.toLowerCase`, restricted to ASCII letters) and substring
 containment (`String.prototype.includes`).
 */
module Text {

  predicate IsUpper(c: char) {
    'A' <= c <= 'Z'
  }

  /** Lower-cases one ASCII letter; every other character is kept as it is. */
  function LowerChar(c: char): (r: char)
    ensures !IsUpper(r)
    ensures !IsUpper(c) ==> r == c
    ensures IsUpper(c) ==> r as int - 'a' as int == c as int - 'A' as int
  {
    if IsUpper(c) then (c as int + 32) as char else c
  }

  /** `s.toLowerCase()`: lower-cases every character of `s`, position by position. */
  function Lower(s: string): (r: string)
    ensures |r| == |s|
    ensures forall i :: 0 <= i < |s| ==> r[i] == LowerChar(s[i])
  {
    if |s| == 0 then [] else [LowerChar(s[0])] + Lower(s[1..])
  }

  /** Lower-casing twice is lower-casing once. */
  lemma LowerIdempotent(s: string)
    ensures Lower(Lower(s)) == Lower(s)
  {
    assert forall i :: 0 <= i < |s| ==> Lower(Lower(s))[i] == Lower(s)[i];
  }

  /** `sub` occurs in `s` starting at index `i`. */
  predicate OccursAt(s: string, sub: string, i: nat) {
    i + |sub| <= |s| && s[i..i + |sub|] == sub
  }

  /** `sub` occurs in `s` at some position. */
  ghost predicate OccursIn(s: string, sub: string) {
    exists i: nat :: OccursAt(s, sub, i)
  }

  /** When `sub` does not start `s`, it occurs in `s` iff it occurs in the tail of `s`. */
  lemma OccursInTail(s: string, sub: string)
    requires |s| > 0 && !OccursAt(s, sub, 0)
    ensures OccursIn(s, sub) <==> OccursIn(s[1..], sub)
  {
    forall i: nat | OccursAt(s[1..], sub, i)
      ensures OccursAt(s, sub, i + 1)
    {
      assert s[1..][i..i + |sub|] == s[i + 1..i + 1 + |sub|];
    }
    forall i: nat | OccursAt(s, sub, i)
      ensures i >= 1 && OccursAt(s[1..], sub, i - 1)
    {
      if i > 0 {
        assert s[1..][i - 1..i - 1 + |sub|] == s[i..i + |sub|];
      }
    }
  }

  /** `s.includes(sub)`: tries every start position of `s` from left to right, and
      answers true exactly when `sub` occurs in `s` at some position. */
  function Contains(s: string, sub: string): (r: bool)
    ensures r <==> OccursIn(s, sub)
    decreases |s|
  {
    if |sub| <= |s| && s[..|sub|] == sub then
      assert OccursAt(s, sub, 0);
      true
    else if |s| == 0 then
      assert forall i: nat :: !OccursAt(s, sub, i);
      false
    else
      OccursInTail(s, sub);
      Contains(s[1..], sub)
  }

  /** The empty string is contained in every string (`"abc".includes("")` is true). */
  lemma ContainsEmpty(s: string)
    ensures Contains(s, "")
  {
  }
}
