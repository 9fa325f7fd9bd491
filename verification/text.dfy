/**
 The three string operations the message router relies on:
 `String.prototype.startsWith`, `toLowerCase` and the first element of
 `split(" ")`.
 */
module Text {

  /** `s.startsWith(prefix)`: an exact, case-sensitive prefix test. */
  predicate StartsWith(s: string, prefix: string)
  {
    |prefix| <= |s| && s[..|prefix|] == prefix
  }

  predicate IsUpper(c: char)
  {
    'A' <= c <= 'Z'
  }

  /** Lower-case mapping of one character (ASCII letters only). */
  function LowerChar(c: char): char
  {
    if IsUpper(c) then (c as int - 'A' as int + 'a' as int) as char else c
  }

  /** `s.toLowerCase()`, character by character. */
  function ToLower(s: string): (r: string)
    ensures |r| == |s|
    ensures forall i :: 0 <= i < |s| ==> r[i] == LowerChar(s[i])
    ensures forall i :: 0 <= i < |r| ==> !IsUpper(r[i])
  {
    if |s| == 0 then "" else [LowerChar(s[0])] + ToLower(s[1..])
  }

  /**
   `s.split(" ")[0]`: the text before the first space, or all of `s` when it
   has none (so the empty string for an empty `s` or a leading space).
   */
  function FirstToken(s: string): (r: string)
    ensures StartsWith(s, r)
    ensures forall i :: 0 <= i < |r| ==> r[i] != ' '
    ensures |r| == |s| || s[|r|] == ' '
  {
    if |s| == 0 || s[0] == ' ' then ""
    else
      var t := FirstToken(s[1..]);
      assert s[..|t| + 1] == [s[0]] + s[1..][..|t|];
      [s[0]] + t
  }

  /** The three properties above pin the first token down uniquely. */
  lemma FirstTokenUnique(s: string, t: string)
    requires StartsWith(s, t)
    requires forall i :: 0 <= i < |t| ==> t[i] != ' '
    requires |t| == |s| || s[|t|] == ' '
    ensures t == FirstToken(s)
  {

  }

  /** Lower-casing leaves a prefix that has no upper-case letters in place. */
  lemma ToLowerKeepsLowerPrefix(s: string, prefix: string)
    requires StartsWith(s, prefix)
    requires forall i :: 0 <= i < |prefix| ==> !IsUpper(prefix[i])
    ensures StartsWith(ToLower(s), prefix)
  {

  }
}
