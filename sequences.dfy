/** Facts about sequences and their reorderings used by the ledger proofs. */
module Sequences {

  /** Taking one matched element out of two reorderings of each other leaves two reorderings of each other. */
  lemma RemoveMatched<T>(o1: seq<T>, o2: seq<T>, j: nat)
    requires multiset(o1) == multiset(o2)
    requires o1 != [] && j < |o2| && o2[j] == o1[0]
    ensures multiset(o1[1..]) == multiset(o2[..j] + o2[j + 1..])
  {
    var w, before, after := o1[0], o2[..j], o2[j + 1..];
    assert o1 == [w] + o1[1..];
    assert o2 == (before + after[..0]) + [w] + after;
    assert multiset(o1) == multiset([w]) + multiset(o1[1..]);
    assert multiset(o2) == multiset(before) + multiset([w]) + multiset(after);
    assert multiset(before + after) == multiset(before) + multiset(after);
    forall v ensures multiset(o1[1..])[v] == multiset(before + after)[v] {
      assert multiset(o1)[v] == multiset([w])[v] + multiset(o1[1..])[v];
      assert multiset(o2)[v] == multiset(before)[v] + multiset([w])[v] + multiset(after)[v];
    }
  }

  lemma Around<T>(s: seq<T>, j: nat)
    requires j < |s|
    ensures s == s[..j] + [s[j]] + s[j + 1..]
  {
  }

  /** A prefix that ends in `x` splits into the shorter prefix and `x`. */
  lemma PrefixEndingIn<T>(s: seq<T>, p: seq<T>, x: T)
    requires |p| < |s| && s[..|p| + 1] == p + [x]
    ensures s[|p|] == x && s[..|p|] == p
  {
  }
}
