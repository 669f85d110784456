/** The topic-name hash (an ordinal sum) that gives each topic its rotation start offset. */
module Hashing {

  /** Sum of the character ordinals of s, as Python's `ord` gives them. */
  function OrdSum(s: string): nat
  {
    if s == [] then 0 else OrdSum(s[..|s| - 1]) + s[|s| - 1] as nat
  }

  /** hashval(s, siz): the ordinal sum reduced modulo siz. */
  function Hash(s: string, siz: int): (r: nat)
    requires siz > 0
    ensures r < siz
  {
    OrdSum(s) % siz
  }

  /** The accumulating loop of hashval; a zero siz is a division error, hence the precondition. */
  method HashVal(s: string, siz: int) returns (h: int)
    requires siz > 0
    ensures h == OrdSum(s) % siz
    ensures 0 <= h < siz
  {
    var hash := 0;
    for i := 0 to |s|
      invariant hash == OrdSum(s[..i])
    {
      assert s[..i + 1][..i] == s[..i];
      hash := hash + s[i] as int;
    }
    assert s[..|s|] == s;
    h := hash % siz;
  }

  lemma {:induction false} OrdSumConcat(s: string, t: string)
    ensures OrdSum(s + t) == OrdSum(s) + OrdSum(t)
    decreases |t|
  {
    if t == [] {
      assert s + t == s;
    } else {
      assert (s + t)[..|s + t| - 1] == s + t[..|t| - 1];
      OrdSumConcat(s, t[..|t| - 1]);
    }
  }

  /** The ordinal sum ignores character order. */
  lemma {:induction false} OrdSumPermutation(s: string, t: string)
    requires multiset(s) == multiset(t)
    ensures OrdSum(s) == OrdSum(t)
    decreases |s|
  {
    if s == [] {
      assert |t| == |multiset(t)| == 0;
    } else {
      var c := s[|s| - 1];
      var s' := s[..|s| - 1];
      assert s == s' + [c];
      assert c in multiset(t);
      var i :| 0 <= i < |t| && t[i] == c;
      var t' := t[..i] + t[i + 1..];
      assert t == t[..i] + [c] + t[i + 1..];
      assert multiset(s) == multiset(s') + multiset{c};
      assert multiset(t) == multiset(t[..i]) + multiset{c} + multiset(t[i + 1..]);
      assert multiset(t') == multiset(t[..i]) + multiset(t[i + 1..]);
      assert multiset(s') == multiset(s) - multiset{c};
      assert multiset(t') == multiset(t) - multiset{c};
      OrdSumPermutation(s', t');
      OrdSumConcat(t[..i] + [c], t[i + 1..]);
      OrdSumConcat(t[..i], [c]);
      OrdSumConcat(t[..i], t[i + 1..]);
      assert ([] + [c])[..0] == [];
    }
  }

  /** Topics whose names are anagrams of each other start their rotations at the same broker. */
  lemma AnagramsShareHash(s: string, t: string, siz: int)
    requires siz > 0
    requires multiset(s) == multiset(t)
    ensures Hash(s, siz) == Hash(t, siz)
  {
    OrdSumPermutation(s, t);
  }
}
