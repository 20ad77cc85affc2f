// Facts about concatenation and slicing that the proofs of the other
// modules use, stated once for sequences of any element type so that the
// solver meets them without the surrounding definitions.

module Sequences {

  /** Concatenation is associative. */
  lemma AppendAssociative<T>(a: seq<T>, b: seq<T>, c: seq<T>)
    ensures (a + b) + c == a + (b + c)
  {
  }

  /** A list followed by the first n elements of q is that list followed by
      the first n - 1 of them and then the n-th. */
  lemma AppendPrefixStep<T>(list: seq<T>, q: seq<T>, n: nat)
    requires 0 < n <= |q|
    ensures list + q[..n] == (list + q[..n - 1]) + [q[n - 1]]
  {
    assert q[..n] == q[..n - 1] + [q[n - 1]];
  }

  /** A slice inside the front of a concatenation is a slice of the front. */
  lemma SliceOfFront<T>(front: seq<T>, back: seq<T>, lo: nat, hi: nat)
    requires lo <= hi <= |front|
    ensures (front + back)[lo..hi] == front[lo..hi]
  {
  }

  /** A concatenation starts with its front and ends with its back. */
  lemma FrontAndBack<T>(front: seq<T>, back: seq<T>)
    ensures (front + back)[..|front|] == front
    ensures (front + back)[|front|..] == back
  {
  }

  /** A sequence that starts with a starts with every prefix of a. */
  lemma PrefixOfPrefix<T>(a: seq<T>, b: seq<T>, k: nat)
    requires k <= |a|
    ensures (a + b)[..k] == a[..k]
  {
  }
}
