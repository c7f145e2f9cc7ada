/**
 * The case-insensitive string comparison the core relies on (idStr::Icmp).
 * Icmp folds the ASCII letters 'A'..'Z' to lower case and compares the two
 * strings character by character; it returns 0 exactly when both strings
 * have the same length and agree on every folded character.
 */
module IdStr {

  /** Folds an ASCII capital letter to lower case; every other character is kept. */
  function ToLower(c: char): char
  {
    if 'A' <= c <= 'Z' then (c as int + 32) as char else c
  }

  /** idStr::Icmp(a, b) == 0 */
  predicate IEquals(a: string, b: string)
  {
    |a| == |b| && forall k :: 0 <= k < |a| ==> ToLower(a[k]) == ToLower(b[k])
  }
}
