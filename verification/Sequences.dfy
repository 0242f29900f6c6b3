/** Facts about sequences that the solver needs to be pointed to. */
module Sequences {

  lemma Assoc<T>(a: seq<T>, b: seq<T>, c: seq<T>)
    ensures a + b + c == a + (b + c)
  {
  }

  lemma SlicesJoin<T>(p: seq<T>, i: nat, j: nat, k: nat)
    requires i <= j <= k <= |p|
    ensures p[i..k] == p[i..j] + p[j..k]
  {
  }

  lemma SliceSnoc<T>(s: seq<T>, n: nat)
    requires n < |s|
    ensures s[..n] + [s[n]] == s[..n + 1]
  {
  }

  lemma SliceOfSlice<T>(s: seq<T>, i: nat, n: nat)
    requires i + n <= |s|
    ensures s[i..][..n] == s[i..i + n] && s[i..][n..] == s[i + n..]
  {
  }
}
