/** The string operations of JavaScript that the dashboard relies on, restricted
    to ASCII: `toUpperCase`, `toLowerCase`, `includes` and the global
    replacement of `-` by a space. */
module Strings {

  /** `c` is an upper-case ASCII letter. */
  predicate IsUpper(c: char) { 'A' <= c <= 'Z' }

  /** `c` is a lower-case ASCII letter. */
  predicate IsLower(c: char) { 'a' <= c <= 'z' }

  /** `toUpperCase` on one ASCII character: letters move to upper case,
      everything else is kept. */
  function UpperChar(c: char): (u: char)
    ensures !IsLower(u)
    ensures u == c <==> !IsLower(c)
    ensures IsLower(c) ==> IsUpper(u) && u as int + 32 == c as int
  {
    if IsLower(c) then (c as int - 32) as char else c
  }

  /** `toLowerCase` on one ASCII character. */
  function LowerChar(c: char): (l: char)
    ensures !IsUpper(l)
    ensures l == c <==> !IsUpper(c)
    ensures IsUpper(c) ==> IsLower(l) && l as int == c as int + 32
  {
    if IsUpper(c) then (c as int + 32) as char else c
  }

  /** `s.toLowerCase()`: every character lower-cased, nothing added or dropped. */
  function Lower(s: string): (r: string)
    ensures |r| == |s|
    ensures forall i :: 0 <= i < |s| ==> r[i] == LowerChar(s[i])
  {
    if s == [] then [] else [LowerChar(s[0])] + Lower(s[1..])
  }

  /** A lower-cased string holds no upper-case letter. */
  lemma LowerHasNoUpper(s: string)
    ensures forall i :: 0 <= i < |Lower(s)| ==> !IsUpper(Lower(s)[i])
  {
  }

  /** `t` occurs in `s` starting at position `i`. */
  ghost predicate OccursAt(s: string, t: string, i: int)
  {
    0 <= i && i + |t| <= |s| && s[i..i + |t|] == t
  }

  /** `s.includes(t)`: some position of `s` starts a copy of `t`. */
  function Includes(s: string, t: string): (b: bool)
    ensures b <==> exists i :: OccursAt(s, t, i)
  {
    if |t| > |s| then false
    else if s[..|t|] == t then
      assert OccursAt(s, t, 0);
      true
    else
      var rest := Includes(s[1..], t);
      if rest then
        assert exists j :: OccursAt(s, t, j) by {
          var i :| OccursAt(s[1..], t, i);
          assert s[i + 1..i + 1 + |t|] == s[1..][i..i + |t|];
          assert OccursAt(s, t, i + 1);
        }
        true
      else
        assert forall i :: OccursAt(s, t, i) ==> i == 0 || OccursAt(s[1..], t, i - 1) by {
          forall i | OccursAt(s, t, i) && i != 0 ensures OccursAt(s[1..], t, i - 1) {
            assert s[1..][i - 1..i - 1 + |t|] == s[i..i + |t|];
          }
        }
        false
  }

  /** Every string includes the empty string. */
  lemma IncludesEmpty(s: string)
    ensures Includes(s, "")
  {
    assert OccursAt(s, "", 0);
  }

  /** `s.replace(/-/g, ' ')` on one character. */
  function DashToSpace(c: char): char
  {
    if c == '-' then ' ' else c
  }

  /** `s.replace(/-/g, ' ')`: every `-` becomes a space, every other character
      stays where it was. */
  function ReplaceDashes(s: string): (r: string)
    ensures |r| == |s|
    ensures forall i :: 0 <= i < |s| && s[i] == '-' ==> r[i] == ' '
    ensures forall i :: 0 <= i < |s| && s[i] != '-' ==> r[i] == s[i]
  {
    seq(|s|, i requires 0 <= i < |s| => DashToSpace(s[i]))
  }

  /** After the replacement no `-` is left. */
  lemma ReplaceDashesLeavesNoDash(s: string)
    ensures '-' !in ReplaceDashes(s)
  {
    assert forall i :: 0 <= i < |s| ==> ReplaceDashes(s)[i] != '-';
  }
}
