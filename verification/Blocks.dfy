/** Sequences made of blocks standing one after the other. */
module Blocks {

  /** The first `n` blocks, joined. */
  function Join<T>(bs: seq<seq<T>>, n: nat): seq<T>
    requires n <= |bs|
  {
    if n == 0 then [] else Join(bs, n - 1) + bs[n - 1]
  }

  /** `t` stands in `p` at `off`. */
  predicate Holds<T(==)>(p: seq<T>, off: nat, t: seq<T>) { off + |t| <= |p| && p[off..off + |t|] == t }

  lemma HoldsParts<T>(p: seq<T>, off: nat, a: seq<T>, b: seq<T>)
    requires Holds(p, off, a + b)
    ensures Holds(p, off, a) && Holds(p, off + |a|, b)
  {
    assert p[off..off + |a|] == p[off..off + |a + b|][..|a|] == (a + b)[..|a|];
    assert p[off + |a|..off + |a| + |b|] == p[off..off + |a + b|][|a|..] == (a + b)[|a|..];
  }

  lemma Between<T>(pre: seq<T>, t: seq<T>, post: seq<T>)
    ensures Holds(pre + t + post, |pre|, t)
  {
  }

  /** Each block of a joined sequence stands at the end of those before it. */
  lemma {:induction false} BlockHeld<T>(p: seq<T>, at: nat, bs: seq<seq<T>>, n: nat, i: nat)
    requires i < n <= |bs| && Holds(p, at, Join(bs, n))
    ensures Holds(p, at + |Join(bs, i)|, bs[i])
    decreases n
  {
    HoldsParts(p, at, Join(bs, n - 1), bs[n - 1]);
    if i < n - 1 { BlockHeld(p, at, bs, n - 1, i); }
  }

  /** Joining looks only at the blocks it joins. */
  lemma {:induction false} JoinSame<T>(bs: seq<seq<T>>, cs: seq<seq<T>>, n: nat)
    requires n <= |bs| && n <= |cs| && forall i | 0 <= i < n :: bs[i] == cs[i]
    ensures Join(bs, n) == Join(cs, n)
    decreases n
  {
    if n > 0 {
      JoinSame(bs, cs, n - 1);
      assert bs[n - 1] == cs[n - 1];
    }
  }

  lemma JoinSnoc<T>(bs: seq<seq<T>>, b: seq<T>)
    ensures Join(bs + [b], |bs| + 1) == Join(bs, |bs|) + b
  {
    JoinSame(bs, bs + [b], |bs|);
    assert (bs + [b])[|bs|] == b;
  }
}
