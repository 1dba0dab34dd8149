/** Where a text occurs in another. */
module Strings {
  predicate OccursAt(s: string, sub: string, i: nat) {
    i + |sub| <= |s| && s[i..i + |sub|] == sub
  }

  predicate Suffix(s: string, t: string) {
    |s| <= |t| && t[|t| - |s|..] == s
  }

  predicate Contains(s: string, sub: string) {
    exists i: nat :: i <= |s| && OccursAt(s, sub, i)
  }
}
