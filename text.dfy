/** The two string operations the line-item filter needs: lower-casing
    (`toLowerCase()` / `lower()`, ASCII letters only) and substring search
    (JavaScript `includes`, Python `in`). */
module Text {

  predicate IsUpper(c: char) { 'A' <= c <= 'Z' }

  function LowerChar(c: char): char {
    if IsUpper(c) then (c as int + 32) as char else c
  }

  /** Lower-cases the ASCII letters of `s` and leaves every other character alone. */
  function Lower(s: string): (r: string)
    ensures |r| == |s|
    ensures forall i :: 0 <= i < |r| ==> !IsUpper(r[i])
    ensures forall i :: 0 <= i < |s| && !IsUpper(s[i]) ==> r[i] == s[i]
    ensures forall i :: 0 <= i < |s| && IsUpper(s[i]) ==> r[i] as int == s[i] as int + 32
  {
    if |s| == 0 then "" else Lower(s[..|s| - 1]) + [LowerChar(s[|s| - 1])]
  }

  /** `t` occurs in `s` starting at position `i`. */
  ghost predicate OccursAt(s: string, t: string, i: nat) {
    i + |t| <= |s| && s[i..i + |t|] == t
  }

  /** `t` occurs in `s` at some position. */
  ghost predicate HasSubstring(s: string, t: string) {
    exists i: nat :: OccursAt(s, t, i)
  }

  /** Substring search: tries `t` at the front of `s`, then at each later position. */
  function Includes(s: string, t: string): (r: bool)
    ensures r <==> HasSubstring(s, t)
    decreases |s|
  {
    if |t| > |s| then
      assert !HasSubstring(s, t);
      false
    else if s[..|t|] == t then
      assert OccursAt(s, t, 0);
      true
    else
      HasSubstringLater(s, t);
      Includes(s[1..], t)
  }

  /** When `t` is not at the front of `s`, it occurs in `s` exactly when it occurs in `s[1..]`. */
  lemma HasSubstringLater(s: string, t: string)
    requires |t| <= |s| && s[..|t|] != t
    ensures HasSubstring(s, t) <==> HasSubstring(s[1..], t)
  {
    if HasSubstring(s, t) {
      var i: nat :| OccursAt(s, t, i);
      assert i != 0;
      assert s[1..][i - 1..i - 1 + |t|] == s[i..i + |t|];
      assert OccursAt(s[1..], t, i - 1);
    }
    if HasSubstring(s[1..], t) {
      var i: nat :| OccursAt(s[1..], t, i);
      assert s[i + 1..i + 1 + |t|] == s[1..][i..i + |t|];
      assert OccursAt(s, t, i + 1);
    }
  }

  /** Lower-casing twice is lower-casing once. */
  lemma {:induction false} LowerIdempotent(s: string)
    ensures Lower(Lower(s)) == Lower(s)
  {
    if |s| > 0 {
      LowerIdempotent(s[..|s| - 1]);
      assert Lower(s)[..|s| - 1] == Lower(s[..|s| - 1]);
    }
  }
}
