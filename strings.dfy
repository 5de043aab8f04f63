/** Python's `sub in s` test on strings. */
module Strings {

  /** `sub` occurs in `s` starting at position `i`. */
  predicate OccursAt(s: string, sub: string, i: nat) {
    i + |sub| <= |s| && s[i..i + |sub|] == sub
  }

  /** `sub in s`, looking for `sub` at position `from` or later. */
  predicate ContainsFrom(s: string, sub: string, from: nat)
    decreases |s| - from
  {
    from + |sub| <= |s| && (OccursAt(s, sub, from) || ContainsFrom(s, sub, from + 1))
  }

  predicate Contains(s: string, sub: string) {
    ContainsFrom(s, sub, 0)
  }

  /** An occurrence fixes the characters of `s` under the first two of `sub`. */
  lemma OccursAtHead(s: string, sub: string, i: nat)
    requires OccursAt(s, sub, i) && |sub| >= 2
    ensures s[i] == sub[0] && s[i + 1] == sub[1]
  {
    assert s[i..i + |sub|][0] == s[i] && s[i..i + |sub|][1] == s[i + 1];
  }

  /** The scan finds `sub` exactly when some window of `s` at or after `from` equals it. */
  lemma {:induction false} ContainsFromIsWindow(s: string, sub: string, from: nat)
    ensures ContainsFrom(s, sub, from) <==> exists i :: from <= i && OccursAt(s, sub, i)
    decreases |s| - from
  {
    if from + |sub| <= |s| {
      ContainsFromIsWindow(s, sub, from + 1);
    }
  }
}
