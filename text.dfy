/**
 * The two pieces of string handling the bean renderer relies on:
 * Java's String.trim (applied to documentation text) and the
 * separator join of Guava's Joiner and Collectors.joining.
 */
module Text {
  import opened Sequences

  predicate StartsWith(s: string, prefix: string)
  {
    |prefix| <= |s| && s[..|prefix|] == prefix
  }

  predicate EndsWith(s: string, suffix: string)
  {
    |suffix| <= |s| && s[|s| - |suffix|..] == suffix
  }

  /** A string cannot start with a prefix it differs from at some position. */
  lemma NotStartsWithAt(s: string, prefix: string, k: nat)
    requires k < |s| && k < |prefix| && s[k] != prefix[k]
    ensures !StartsWith(s, prefix)
  {
  }

  /** A character Java's String.trim removes: any code point up to U+0020. */
  predicate IsTrimmable(c: char)
  {
    c <= ' '
  }

  /** `s` without its trimmable characters at the front. */
  function TrimStart(s: string): (r: string)
    ensures |r| <= |s|
  {
    if s != [] && IsTrimmable(s[0]) then TrimStart(s[1..]) else s
  }

  /** `s` without its trimmable characters at the back. */
  function TrimEnd(s: string): (r: string)
    ensures |r| <= |s|
  {
    if s != [] && IsTrimmable(s[|s| - 1]) then TrimEnd(s[..|s| - 1]) else s
  }

  /**
   * Java's String.trim: the slice of `s` left after dropping trimmable
   * characters from the front and then from the back.
   */
  function Trim(s: string): string
  {
    TrimEnd(TrimStart(s))
  }

  /** How many characters Trim drops at the front of `s`. */
  function LeadingCount(s: string): nat
  {
    |s| - |TrimStart(s)|
  }

  /** TrimStart drops only trimmable characters, from the front, and stops at the first other one. */
  lemma {:induction false} TrimStartSpec(s: string)
    ensures TrimStart(s) == s[|s| - |TrimStart(s)|..]
    ensures forall k :: 0 <= k < |s| - |TrimStart(s)| ==> IsTrimmable(s[k])
    ensures TrimStart(s) == [] || !IsTrimmable(TrimStart(s)[0])
    decreases |s|
  {
    if s != [] && IsTrimmable(s[0]) {
      var t := TrimStart(s[1..]);
      TrimStartSpec(s[1..]);
      assert s[1..][|s| - 1 - |t|..] == s[|s| - |t|..];
      forall k | 0 <= k < |s| - |t|
        ensures IsTrimmable(s[k])
      {
        if k > 0 {
          assert s[k] == s[1..][k - 1];
        }
      }
    }
  }

  /** TrimEnd drops only trimmable characters, from the back, and stops at the last other one. */
  lemma {:induction false} TrimEndSpec(s: string)
    ensures TrimEnd(s) == s[..|TrimEnd(s)|]
    ensures forall k :: |TrimEnd(s)| <= k < |s| ==> IsTrimmable(s[k])
    ensures TrimEnd(s) == [] || !IsTrimmable(TrimEnd(s)[|TrimEnd(s)| - 1])
    decreases |s|
  {
    if s != [] && IsTrimmable(s[|s| - 1]) {
      var t := TrimEnd(s[..|s| - 1]);
      TrimEndSpec(s[..|s| - 1]);
      assert s[..|s| - 1][..|t|] == s[..|t|];
      forall k | |t| <= k < |s|
        ensures IsTrimmable(s[k])
      {
        if k < |s| - 1 {
          assert s[k] == s[..|s| - 1][k];
        }
      }
    }
  }

  /** Trim's result is the slice of `s` after LeadingCount characters, and everything around it is trimmable. */
  lemma TrimSlice(s: string)
    ensures LeadingCount(s) + |Trim(s)| <= |s|
    ensures Trim(s) == s[LeadingCount(s)..LeadingCount(s) + |Trim(s)|]
    ensures forall k :: 0 <= k < LeadingCount(s) ==> IsTrimmable(s[k])
    ensures forall k :: LeadingCount(s) + |Trim(s)| <= k < |s| ==> IsTrimmable(s[k])
  {
    var t := TrimStart(s);
    var a := |s| - |t|;
    var r := TrimEnd(t);
    TrimStartSpec(s);
    TrimEndSpec(t);
    TakeOfDrop(s, a, |r|);
    forall k | a + |r| <= k < |s|
      ensures IsTrimmable(s[k])
    {
      IndexOfDrop(s, a, k);
    }
  }

  /** Trim's result neither starts nor ends with a trimmable character. */
  lemma TrimEnds(s: string)
    ensures Trim(s) == [] || (!IsTrimmable(Trim(s)[0]) && !IsTrimmable(Trim(s)[|Trim(s)| - 1]))
  {
    var t := TrimStart(s);
    var r := TrimEnd(t);
    TrimStartSpec(s);
    TrimEndSpec(t);
    if r != [] {
      assert r[0] == t[0];
    }
  }

  /** Trim returns the empty string exactly when every character is trimmable. */
  lemma TrimEmpty(s: string)
    ensures Trim(s) == [] <==> forall k :: 0 <= k < |s| ==> IsTrimmable(s[k])
  {
    var t := TrimStart(s);
    TrimStartSpec(s);
    TrimEndSpec(t);
    if Trim(s) == [] {
      assert t == [];
    } else {
      var a := |s| - |t|;
      assert t != [] && t[0] == s[a];
    }
  }

  /**
   * What String.trim promises: the result is the slice of `s` left after
   * dropping trimmable characters at both ends, and neither starts nor
   * ends with one; it is empty exactly when all of `s` is trimmable.
   */
  lemma TrimSpec(s: string)
    ensures LeadingCount(s) + |Trim(s)| <= |s|
    ensures Trim(s) == s[LeadingCount(s)..LeadingCount(s) + |Trim(s)|]
    ensures forall k :: 0 <= k < LeadingCount(s) ==> IsTrimmable(s[k])
    ensures forall k :: LeadingCount(s) + |Trim(s)| <= k < |s| ==> IsTrimmable(s[k])
    ensures Trim(s) == [] || (!IsTrimmable(Trim(s)[0]) && !IsTrimmable(Trim(s)[|Trim(s)| - 1]))
    ensures Trim(s) == [] <==> forall k :: 0 <= k < |s| ==> IsTrimmable(s[k])
  {
    TrimSlice(s);
    TrimEnds(s);
    TrimEmpty(s);
  }

  /** Trimming an already trimmed string changes nothing. */
  lemma TrimIdempotent(s: string)
    ensures Trim(Trim(s)) == Trim(s)
  {
    var r := Trim(s);
    TrimEnds(s);
    if r != [] {
      assert TrimStart(r) == r;
      assert TrimEnd(r) == r;
    }
  }

  /** The items of `xs` with `sep` between each neighbouring pair. */
  function Join(xs: seq<string>, sep: string): string
  {
    if |xs| == 0 then ""
    else if |xs| == 1 then xs[0]
    else xs[0] + sep + Join(xs[1..], sep)
  }

  /** Where item `i` of `xs` starts in `Join(xs, sep)`: the items before it, each followed by `sep`. */
  function JoinOffset(xs: seq<string>, sep: string, i: nat): nat
    requires i < |xs|
    decreases i
  {
    if i == 0 then 0 else |xs[0]| + |sep| + JoinOffset(xs[1..], sep, i - 1)
  }

  /** The joined text holds item `i` at its offset, and ends right after the last item. */
  lemma {:induction false} JoinItemAt(xs: seq<string>, sep: string, i: nat)
    requires i < |xs|
    ensures JoinOffset(xs, sep, i) + |xs[i]| <= |Join(xs, sep)|
    ensures Join(xs, sep)[JoinOffset(xs, sep, i)..JoinOffset(xs, sep, i) + |xs[i]|] == xs[i]
    ensures i + 1 == |xs| ==> JoinOffset(xs, sep, i) + |xs[i]| == |Join(xs, sep)|
    decreases i
  {
    if i == 0 {
      if |xs| > 1 {
        PartsOfTriple(xs[0], sep, Join(xs[1..], sep));
      }
    } else {
      JoinItemAt(xs[1..], sep, i - 1);
      assert xs[1..][i - 1] == xs[i];
      SliceOfRight(xs[0] + sep, Join(xs[1..], sep), JoinOffset(xs[1..], sep, i - 1), |xs[i]|);
    }
  }

  /** Every item but the last is followed by `sep` in the joined text. */
  lemma {:induction false} JoinSepAfter(xs: seq<string>, sep: string, i: nat)
    requires i + 1 < |xs|
    ensures JoinOffset(xs, sep, i) + |xs[i]| + |sep| <= |Join(xs, sep)|
    ensures Join(xs, sep)[JoinOffset(xs, sep, i) + |xs[i]|..JoinOffset(xs, sep, i) + |xs[i]| + |sep|] == sep
    decreases i
  {
    if i == 0 {
      PartsOfTriple(xs[0], sep, Join(xs[1..], sep));
      assert JoinOffset(xs, sep, i) + |xs[i]| == |xs[0]|;
    } else {
      JoinSepAfter(xs[1..], sep, i - 1);
      var q := JoinOffset(xs[1..], sep, i - 1);
      assert xs[1..][i - 1] == xs[i];
      assert JoinOffset(xs, sep, i) + |xs[i]| == |xs[0] + sep| + (q + |xs[i]|);
      SliceOfRight(xs[0] + sep, Join(xs[1..], sep), q + |xs[i]|, |sep|);
    }
  }

  /**
   * The joined text holds item `i` at its offset, followed by `sep`
   * unless it is the last item, and ends right after the last item.
   */
  lemma JoinOffsetSpec(xs: seq<string>, sep: string, i: nat)
    requires i < |xs|
    ensures JoinOffset(xs, sep, i) + |xs[i]| <= |Join(xs, sep)|
    ensures Join(xs, sep)[JoinOffset(xs, sep, i)..JoinOffset(xs, sep, i) + |xs[i]|] == xs[i]
    ensures i + 1 < |xs| ==>
              JoinOffset(xs, sep, i) + |xs[i]| + |sep| <= |Join(xs, sep)| &&
              Join(xs, sep)[JoinOffset(xs, sep, i) + |xs[i]|..JoinOffset(xs, sep, i) + |xs[i]| + |sep|] == sep
    ensures i + 1 == |xs| ==> JoinOffset(xs, sep, i) + |xs[i]| == |Join(xs, sep)|
  {
    JoinItemAt(xs, sep, i);
    if i + 1 < |xs| {
      JoinSepAfter(xs, sep, i);
    }
  }

  /** Consecutive items are placed one after the other, `sep` apart. */
  lemma {:induction false} JoinOffsetNext(xs: seq<string>, sep: string, i: nat)
    requires i + 1 < |xs|
    ensures JoinOffset(xs, sep, i + 1) == JoinOffset(xs, sep, i) + |xs[i]| + |sep|
    decreases i
  {
    if i > 0 {
      JoinOffsetNext(xs[1..], sep, i - 1);
    }
  }

  /** Item `i` of a join embedded between `pre` and `post`, located in the whole text. */
  lemma ItemInJoin(pre: string, xs: seq<string>, sep: string, post: string, i: nat)
    requires i < |xs|
    ensures |pre| + JoinOffset(xs, sep, i) + |xs[i]| <= |pre + Join(xs, sep) + post|
    ensures (pre + Join(xs, sep) + post)[|pre| + JoinOffset(xs, sep, i)..|pre| + JoinOffset(xs, sep, i) + |xs[i]|] == xs[i]
  {
    JoinOffsetSpec(xs, sep, i);
    SliceOfInfix(pre, Join(xs, sep), post, JoinOffset(xs, sep, i), |xs[i]|);
  }
}
