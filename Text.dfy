/**
 * The few string operations the pipeline driver relies on: lower-casing a
 * message and searching it for a fixed phrase. Lower-casing is ASCII only.
 */
module Text {

  function LowerChar(c: char): (d: char)
    ensures 'A' <= c <= 'Z' ==> d as int == c as int + 32
    ensures !('A' <= c <= 'Z') ==> d == c
  {
    if 'A' <= c <= 'Z' then (c as int + 32) as char else c
  }

  /** `lowercase()`, restricted to the ASCII letters. */
  function Lowercase(s: string): (r: string)
    ensures |r| == |s|
    ensures forall i :: 0 <= i < |s| ==> r[i] == LowerChar(s[i])
  {
    if s == [] then [] else [LowerChar(s[0])] + Lowercase(s[1..])
  }

  predicate NoUppercase(s: string) {
    forall i :: 0 <= i < |s| ==> !('A' <= s[i] <= 'Z')
  }

  /** Text without upper-case ASCII letters is its own lower case. */
  lemma {:induction false} LowercaseKeepsLowercase(s: string)
    requires NoUppercase(s)
    ensures Lowercase(s) == s
  {
    var l := Lowercase(s);
    assert forall i :: 0 <= i < |s| ==> l[i] == s[i];
  }

  predicate StartsWith(s: string, prefix: string) {
    |prefix| <= |s| && s[..|prefix|] == prefix
  }

  /** `contains`: `sub` occurs in `s`, looked for from the front. */
  function Contains(s: string, sub: string): bool
    decreases |s|
  {
    if StartsWith(s, sub) then true
    else if s == [] then false
    else Contains(s[1..], sub)
  }

  /** `Contains` holds exactly when `sub` starts at some position of `s`. */
  lemma {:induction false} ContainsIffOccurs(s: string, sub: string)
    ensures Contains(s, sub) <==> exists i :: 0 <= i <= |s| - |sub| && StartsWith(s[i..], sub)
    decreases |s|
  {
    if StartsWith(s, sub) {
      assert StartsWith(s[0..], sub);
    } else if s == [] {
    } else {
      ContainsIffOccurs(s[1..], sub);
      if Contains(s, sub) {
        var k :| 0 <= k <= |s[1..]| - |sub| && StartsWith(s[1..][k..], sub);
        assert s[1..][k..] == s[k + 1..];
      }
      if exists i :: 0 <= i <= |s| - |sub| && StartsWith(s[i..], sub) {
        var k :| 0 <= k <= |s| - |sub| && StartsWith(s[k..], sub);
        assert k != 0;
        assert s[1..][k - 1..] == s[k..];
      }
    }
  }

  /** Nothing longer than `s` occurs in it. */
  lemma {:induction false} ContainsNeedsRoom(s: string, sub: string)
    requires |s| < |sub|
    ensures !Contains(s, sub)
    decreases |s|
  {
    if s != [] {
      ContainsNeedsRoom(s[1..], sub);
    }
  }

  lemma ContainsItself(s: string)
    ensures Contains(s, s)
  {
    assert s[..|s|] == s;
  }

  /** Kotlin's `endsWith("\n")`. */
  predicate EndsWithNewline(s: string) {
    |s| > 0 && s[|s| - 1] == '\n'
  }
}
