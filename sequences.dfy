/** Generic facts about appending to sequences, used to follow a writer's lines as they grow. */
module Sequences {

  lemma AppendAssoc<T>(a: seq<T>, b: seq<T>, c: seq<T>)
    ensures a + b + c == a + (b + c)
  {
  }

  /** Appending element `i` of `s` to its first `i` elements gives its first `i + 1`. */
  lemma AppendNext<T>(a: seq<T>, s: seq<T>, i: nat)
    requires i < |s|
    ensures a + s[..i] + [s[i]] == a + s[..i + 1]
  {
    assert s[..i + 1] == s[..i] + [s[i]];
  }

  lemma AppendTwo<T>(a: seq<T>, x: T, y: T)
    ensures a + [x] + [y] == a + [x, y]
  {
  }

  lemma AppendThree<T>(a: seq<T>, x: T, y: T, z: T)
    ensures a + [x] + [y] + [z] == a + [x, y, z]
  {
  }

  lemma TakeAll<T>(s: seq<T>)
    ensures s[..|s|] == s
  {
  }

  /** A slice of the middle part of `pre + mid + post`, located in the whole. */
  lemma SliceOfInfix<T>(pre: seq<T>, mid: seq<T>, post: seq<T>, p: nat, n: nat)
    requires p + n <= |mid|
    ensures |pre| + p + n <= |pre + mid + post|
    ensures (pre + mid + post)[|pre| + p..|pre| + p + n] == mid[p..p + n]
  {
    assert (pre + mid + post)[|pre|..|pre| + |mid|] == mid;
  }

  /** A block that follows `a` in a prefix of `whole` sits right after `a` in `whole`. */
  lemma BlockInPrefix<T>(whole: seq<T>, a: seq<T>, block: seq<T>)
    requires |a + block| <= |whole| && whole[..|a + block|] == a + block
    ensures |a| + |block| <= |whole|
    ensures whole[|a|..|a| + |block|] == block
  {
    assert whole[|a|..|a| + |block|] == (a + block)[|a|..];
  }

  /** The front of `pre + rest` is `pre`. */
  lemma PrefixOfAppend<T>(pre: seq<T>, rest: seq<T>)
    ensures (pre + rest)[..|pre|] == pre
  {
  }

  /** Past its first element, `[x] + s` is `s`. */
  lemma IndexPastHead<T>(x: T, s: seq<T>, k: nat)
    requires 1 <= k <= |s|
    ensures ([x] + s)[k] == s[k - 1]
  {
  }

  /** The first two parts of `a + b + c`, located in the whole. */
  lemma PartsOfTriple<T>(a: seq<T>, b: seq<T>, c: seq<T>)
    ensures (a + b + c)[0..|a|] == a
    ensures (a + b + c)[|a|..|a| + |b|] == b
  {
    assert (a + b + c)[0..|a|] == (a + b)[0..|a|];
  }

  /** A slice of the right part of `a + r`, located in the whole. */
  lemma SliceOfRight<T>(a: seq<T>, r: seq<T>, q: nat, n: nat)
    requires q + n <= |r|
    ensures (a + r)[|a| + q..|a| + q + n] == r[q..q + n]
  {
  }

  /** The front of a suffix is a slice of the whole. */
  lemma TakeOfDrop<T>(s: seq<T>, a: nat, m: nat)
    requires a + m <= |s|
    ensures s[a..][..m] == s[a..a + m]
  {
  }

  /** An element of a suffix is an element of the whole, shifted. */
  lemma IndexOfDrop<T>(s: seq<T>, a: nat, k: nat)
    requires a <= k < |s|
    ensures s[a..][k - a] == s[k]
  {
  }
}
