/** What the two text codecs share: quoting with backslashes, and running an
    automaton over a text. */
module TextFold {

  // ---------- quoting ----------

  /** A quote or a backslash gets a backslash in front of it. */
  function EscapedChar(c: char, quote: char): string { if c == quote || c == '\\' then ['\\', c] else [c] }

  /** The first `n` characters, escaped. */
  function EscapedTo(v: string, n: nat, quote: char): string
    requires n <= |v|
  {
    if n == 0 then [] else EscapedTo(v, n - 1, quote) + EscapedChar(v[n - 1], quote)
  }

  function Quoted(v: string, quote: char): string { [quote] + EscapedTo(v, |v|, quote) + [quote] }

  method AppendQuoted(s: string, v: string, quote: char) returns (r: string)
    ensures r == s + Quoted(v, quote)
  {
    r := s + [quote];
    for i := 0 to |v|
      invariant r == s + ([quote] + EscapedTo(v, i, quote))
    {
      if v[i] == quote || v[i] == '\\' {
        r := r + ['\\'];
      }
      r := r + [v[i]];
    }
    r := r + [quote];
  }

  // ---------- automata ----------

  /** The state after s[i], ..., s[j - 1]. */
  function Range<S>(step: (S, char) -> S, st: S, s: string, i: nat, j: nat): S
    requires i <= j <= |s|
    decreases j - i
  {
    if i == j then st else step(Range(step, st, s, i, j - 1), s[j - 1])
  }

  function All<S>(step: (S, char) -> S, st: S, s: string): S { Range(step, st, s, 0, |s|) }

  /** Only the characters read matter. */
  lemma {:induction false} Same<S>(step: (S, char) -> S, st: S, s: string, i: nat, t: string, n: nat)
    requires n <= |t| && i + n <= |s| && forall k | 0 <= k < n :: s[i + k] == t[k]
    ensures Range(step, st, s, i, i + n) == Range(step, st, t, 0, n)
    decreases n
  {
    if n > 0 {
      Same(step, st, s, i, t, n - 1);
      assert s[i + (n - 1)] == t[n - 1];
    }
  }

  lemma {:induction false} Join<S>(step: (S, char) -> S, st: S, s: string, i: nat, j: nat, k: nat)
    requires i <= j <= k <= |s|
    ensures Range(step, st, s, i, k) == Range(step, Range(step, st, s, i, j), s, j, k)
    decreases k - j
  {
    if j < k { Join(step, st, s, i, j, k - 1); }
  }

  lemma Concat<S>(step: (S, char) -> S, st: S, a: string, b: string)
    ensures All(step, st, a + b) == All(step, All(step, st, a), b)
  {
    Join(step, st, a + b, 0, |a|, |a + b|);
    Same(step, st, a + b, 0, a, |a|);
    Same(step, All(step, st, a), a + b, |a|, b, |b|);
  }

  lemma One<S>(step: (S, char) -> S, st: S, c: char)
    ensures All(step, st, [c]) == step(st, c)
  {
    assert Range(step, st, [c], 0, 0) == st;
  }
}
