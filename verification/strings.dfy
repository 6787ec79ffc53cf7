/**
 * The two string operations the vendor check relies on: `String.prototype.toLowerCase`
 * (restricted to ASCII letters) and `String.prototype.includes`.
 */
module Strings {

  /** Lower-cases one character; only 'A'..'Z' change. */
  function LowerChar(c: char): char {
    if 'A' <= c <= 'Z' then (c as int - 'A' as int + 'a' as int) as char else c
  }

  /** Upper-cases one character; only 'a'..'z' change. */
  function UpperChar(c: char): char {
    if 'a' <= c <= 'z' then (c as int - 'a' as int + 'A' as int) as char else c
  }

  /** `s.toLowerCase()` on ASCII letters: character by character, same length. */
  function ToLower(s: string): (r: string)
    ensures |r| == |s|
  {
    seq(|s|, i requires 0 <= i < |s| => LowerChar(s[i]))
  }

  /** `s.toUpperCase()` on ASCII letters. */
  function ToUpper(s: string): (r: string)
    ensures |r| == |s|
  {
    seq(|s|, i requires 0 <= i < |s| => UpperChar(s[i]))
  }

  /** Lower-casing forgets any earlier upper-casing: case does not matter to a lower-cased match. */
  lemma ToLowerOfToUpper(s: string)
    ensures ToLower(ToUpper(s)) == ToLower(s)
  {
  }

  /** `sub` occurs in `s` starting at index `i`. */
  predicate OccursAt(s: string, sub: string, i: int) {
    0 <= i && i + |sub| <= |s| && s[i..i + |sub|] == sub
  }

  /** Reference meaning of "contains as a substring". */
  ghost predicate Occurs(s: string, sub: string) {
    exists i :: OccursAt(s, sub, i)
  }

  lemma OccursAtShift(s: string, sub: string, i: int)
    requires |s| > 0 && 0 <= i
    ensures OccursAt(s[1..], sub, i) <==> OccursAt(s, sub, i + 1)
  {
  }

  /** A non-empty needle whose first character never appears in `s` does not occur in it. */
  lemma AbsentFirstCharNeverOccurs(s: string, sub: string)
    requires |sub| > 0 && sub[0] !in s
    ensures !Occurs(s, sub)
  {
  }

  /**
   * `s.includes(sub)`: a left-to-right scan that tries every start position.
   * The empty needle occurs in every string, as in JavaScript.
   */
  function Includes(s: string, sub: string): (b: bool)
    ensures b <==> Occurs(s, sub)
    decreases |s|
  {
    if |sub| > |s| then
      assert forall i :: !OccursAt(s, sub, i);
      false
    else if s[..|sub|] == sub then
      assert OccursAt(s, sub, 0);
      true
    else
      var rest := Includes(s[1..], sub);
      assert Occurs(s, sub) ==> Occurs(s[1..], sub) by {
        if Occurs(s, sub) {
          var i :| OccursAt(s, sub, i);
          assert i != 0;
          assert OccursAt(s[1..], sub, i - 1) by { OccursAtShift(s, sub, i - 1); }
        }
      }
      assert Occurs(s[1..], sub) ==> Occurs(s, sub) by {
        if Occurs(s[1..], sub) {
          var i :| OccursAt(s[1..], sub, i);
          OccursAtShift(s, sub, i);
        }
      }
      rest
  }
}
