/** Facts about cutting a sequence at the boundary of two concatenated parts. */
module SeqFacts {

  /** If the suffix of m from position k is x followed by rest, then x and rest can be cut back out of m. */
  lemma TailSplit<T>(m: seq<T>, k: nat, x: seq<T>, rest: seq<T>)
    requires k <= |m| && m[k..] == x + rest
    ensures k + |x| <= |m|
    ensures m[k..k + |x|] == x
    ensures m[k + |x|..] == rest
  {
    assert m[k..][..|x|] == x;
    assert m[k..][|x|..] == rest;
  }

  /** A sequence is its prefix before i, its element at i and its suffix after i. */
  lemma SplitAt<T>(s: seq<T>, i: nat)
    requires i < |s|
    ensures s == (s[..i] + [s[i]]) + s[i + 1..]
  {
  }
}
