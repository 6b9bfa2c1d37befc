// String helpers shared by the models: the Go `strings` and JavaScript
// string primitives the source relies on, over `seq<char>`.
module Text {

  /** `strings.HasPrefix(s, p)` / `s.startsWith(p)`. */
  predicate HasPrefix(s: string, p: string)
  {
    |p| <= |s| && s[..|p|] == p
  }

  /** `strings.TrimPrefix(s, p)`: drops `p` when `s` starts with it. */
  function TrimPrefix(s: string, p: string): (r: string)
    ensures HasPrefix(s, p) ==> s == p + r
    ensures !HasPrefix(s, p) ==> r == s
  {
    if HasPrefix(s, p) then s[|p|..] else s
  }

  lemma TrimPrefixOfConcat(p: string, q: string)
    ensures TrimPrefix(p + q, p) == q
  {
    assert (p + q)[..|p|] == p;
    assert (p + q)[|p|..] == q;
  }

  /** `strings.Contains(s, t)` / `s.includes(t)`. */
  predicate Contains(s: string, t: string)
  {
    HasPrefix(s, t) || (s != [] && Contains(s[1..], t))
  }

  /** Index of the first `c` in `s`, or `|s|` when there is none. */
  function IndexOf(s: string, c: char): (i: nat)
    ensures i <= |s|
    ensures i < |s| ==> s[i] == c
    ensures forall k :: 0 <= k < i ==> s[k] != c
  {
    if s == [] then 0
    else if s[0] == c then 0
    else 1 + IndexOf(s[1..], c)
  }

  /** ASCII lower-casing of one character. */
  function LowerChar(c: char): (d: char)
  {
    if 'A' <= c <= 'Z' then (c as int - 'A' as int + 'a' as int) as char else c
  }

  /** ASCII lower-casing of a string (`strings.ToLower`, `toLowerCase`). */
  function Lower(s: string): (r: string)
    ensures |r| == |s|
    ensures forall i :: 0 <= i < |s| ==> r[i] == LowerChar(s[i])
  {
    if s == [] then [] else [LowerChar(s[0])] + Lower(s[1..])
  }

  predicate IsUpper(c: char) { 'A' <= c <= 'Z' }
  predicate IsLowerLetter(c: char) { 'a' <= c <= 'z' }
  predicate IsDigit(c: char) { '0' <= c <= '9' }

  /** JavaScript regular-expression `\w`: `[A-Za-z0-9_]`. */
  predicate IsWordChar(c: char) { IsUpper(c) || IsLowerLetter(c) || IsDigit(c) || c == '_' }

  /** ASCII upper-casing of one character (`toUpperCase` on `\w`). */
  function UpperChar(c: char): (d: char)
  {
    if 'a' <= c <= 'z' then (c as int - 'a' as int + 'A' as int) as char else c
  }

  /** No string occurs twice. */
  predicate Distinct(s: seq<string>)
  {
    forall i, j :: 0 <= i < j < |s| ==> s[i] != s[j]
  }

  /** A string found in `s` is found after any text put in front of `s`. */
  lemma {:induction false} ContainsAfter(p: string, s: string, t: string)
    requires Contains(s, t)
    ensures Contains(p + s, t)
    decreases |p|
  {
    if p == [] {
      assert p + s == s;
    } else {
      ContainsAfter(p[1..], s, t);
      assert (p + s)[1..] == p[1..] + s;
    }
  }

  /** A string found in `s` is found in any extension of `s`. */
  lemma {:induction false} ContainsBefore(s: string, q: string, t: string)
    requires Contains(s, t)
    ensures Contains(s + q, t)
    decreases |s|
  {
    if HasPrefix(s, t) {
      assert (s + q)[..|t|] == s[..|t|];
    } else {
      ContainsBefore(s[1..], q, t);
      assert (s + q)[1..] == s[1..] + q;
    }
  }

  /** A string found in `s` is found in any text around `s`. */
  lemma ContainsWithin(p: string, s: string, q: string, t: string)
    requires Contains(s, t)
    ensures Contains(p + s + q, t)
  {
    ContainsBefore(s, q, t);
    ContainsAfter(p, s + q, t);
    assert p + s + q == p + (s + q);
  }
}
