/** Two facts about taking one element out of a sequence. */
module Sequences {

  /** A sequence is its prefix, the element at `j`, and its suffix. */
  lemma {:induction false} SplitAround<T>(s: seq<T>, j: nat)
    requires j < |s|
    ensures s == s[..j] + [s[j]] + s[j + 1..]
  {
  }

  /** Removing the element at `j` removes one copy of it from the multiset. */
  lemma {:induction false} MultisetWithout<T>(s: seq<T>, j: nat)
    requires j < |s|
    ensures multiset(s[..j] + s[j + 1..]) == multiset(s) - multiset{s[j]}
  {
    SplitAround(s, j);
    calc {
      multiset(s);
      multiset(s[..j] + [s[j]] + s[j + 1..]);
      multiset(s[..j]) + multiset{s[j]} + multiset(s[j + 1..]);
      multiset(s[..j] + s[j + 1..]) + multiset{s[j]};
    }
  }
}
