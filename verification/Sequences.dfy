/** A few facts about sequences, each stated once so that proofs can cite it. */
module Sequences {
  lemma ConcatAssociates<T>(a: seq<T>, b: seq<T>, c: seq<T>)
    ensures a + (b + c) == (a + b) + c
  {
  }

  lemma TailGrows<T>(s: seq<T>, n: nat, more: seq<T>)
    requires n <= |s|
    ensures (s + more)[|s + more| - (n + |more|)..] == s[|s| - n..] + more
  {
  }

  lemma HeadDropGrows<T>(s: seq<T>, n: nat, more: seq<T>)
    requires n <= |s|
    ensures (s + more)[n..] == s[n..] + more
  {
  }

  /** A sequence that grew at its end twice. */
  lemma GrowsTwice<T>(a: seq<T>, b: seq<T>, c: seq<T>)
    requires |a| <= |b| <= |c| && b[..|a|] == a && c[..|b|] == b
    ensures c[..|a|] == a
    ensures c[|a|..] == b[|a|..] + c[|b|..]
  {
    assert c == b + c[|b|..];
  }

  /** Dropping more of the front of a tail. */
  lemma TailOfTail<T>(s: seq<T>, n: nat, d: nat)
    requires d <= n <= |s|
    ensures s[|s| - n..][d..] == s[|s| - (n - d)..]
  {
  }

  /** Moving the front of one sequence to the end of another. */
  lemma FrontMoves<T>(a: seq<T>, b: seq<T>, n: nat)
    requires n <= |b|
    ensures (a + b[..n]) + b[n..] == a + b
  {
  }

  /** A tail in two parts: the first of them prolongs the front. */
  lemma PrefixOfTail<T>(s: seq<T>, n: nat, a: seq<T>, b: seq<T>)
    requires n <= |s| && s[n..] == a + b
    ensures n + |a| <= |s| && s[..n + |a|] == s[..n] + a
  {
    assert s == s[..n] + (a + b);
  }
}
