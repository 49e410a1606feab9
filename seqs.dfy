/** Generic facts about sequences: order-preserving subsequences, prefixes and flattening. */
module Seqs {

  /** `a` is obtained from `b` by deleting elements, keeping the order of the rest. */
  ghost predicate IsSubsequence<T>(a: seq<T>, b: seq<T>)
    decreases |b|
  {
    if |b| == 0 then |a| == 0
    else
      || IsSubsequence(a, b[..|b| - 1])
      || (|a| > 0 && a[|a| - 1] == b[|b| - 1] && IsSubsequence(a[..|a| - 1], b[..|b| - 1]))
  }

  /** The first `n` elements of `s`, or all of `s` when it is shorter. */
  function Take<T>(s: seq<T>, n: int): (r: seq<T>)
    ensures |r| == if n <= 0 then 0 else if n < |s| then n else |s|
    ensures r <= s
  {
    if n <= 0 then [] else if n < |s| then s[..n] else s
  }

  /**
   * Topping up a prefix `a` of `c` from its continuation `b` until there are `n` elements:
   * either `n` are reached, giving the first `n` of `c`, or all of `b` is used.
   */
  lemma TakeAfter<T>(a: seq<T>, b: seq<T>, c: seq<T>, n: int)
    requires a + b <= c && |a| < n
    ensures |a + Take(b, n - |a|)| >= n ==> a + Take(b, n - |a|) == Take(c, n)
    ensures |a + Take(b, n - |a|)| < n ==> a + Take(b, n - |a|) == a + b
  {
    if n - |a| < |b| {
      assert a + b[..n - |a|] == (a + b)[..n];
    }
  }

  /** The sequences of `ss`, one after another. */
  function Flatten<T>(ss: seq<seq<T>>): seq<T>
  {
    if |ss| == 0 then [] else Flatten(ss[..|ss| - 1]) + ss[|ss| - 1]
  }

  /** Sum of the lengths of the sequences of `ss`, counted from the front. */
  function TotalLength<T>(ss: seq<seq<T>>): nat
  {
    if |ss| == 0 then 0 else |ss[0]| + TotalLength(ss[1..])
  }

  lemma {:induction false} SubsequenceEmpty<T>(b: seq<T>)
    ensures IsSubsequence([], b)
    decreases |b|
  {
    if |b| > 0 {
      SubsequenceEmpty(b[..|b| - 1]);
    }
  }

  /** A prefix of a subsequence of `b` is a subsequence of `b`. */
  lemma {:induction false} SubsequencePrefix<T>(a: seq<T>, b: seq<T>, n: nat)
    requires IsSubsequence(a, b)
    requires n <= |a|
    ensures IsSubsequence(a[..n], b)
    decreases |b|
  {
    if |b| == 0 {
      assert a[..n] == [];
    } else if IsSubsequence(a, b[..|b| - 1]) {
      SubsequencePrefix(a, b[..|b| - 1], n);
    } else if n == |a| {
      assert a[..n] == a;
    } else {
      SubsequencePrefix(a[..|a| - 1], b[..|b| - 1], n);
      assert a[..|a| - 1][..n] == a[..n];
    }
  }

  /** Extending both sides by the same element, or only the larger side, keeps a subsequence. */
  lemma SubsequenceSnoc<T>(a: seq<T>, b: seq<T>, x: T, keep: bool)
    requires IsSubsequence(a, b)
    ensures IsSubsequence(if keep then a + [x] else a, b + [x])
  {
    assert (b + [x])[..|b|] == b;
    if keep {
      assert (a + [x])[..|a|] == a;
    }
  }

  /** Appending to the larger side keeps a subsequence. */
  lemma {:induction false} SubsequenceAppendRight<T>(a: seq<T>, b: seq<T>, c: seq<T>)
    requires IsSubsequence(a, b)
    ensures IsSubsequence(a, b + c)
    decreases |c|
  {
    if |c| == 0 {
      assert b + c == b;
    } else {
      SubsequenceAppendRight(a, b, c[..|c| - 1]);
      SubsequenceSnoc(a, b + c[..|c| - 1], c[|c| - 1], false);
      assert b + c[..|c| - 1] + [c[|c| - 1]] == b + c;
    }
  }

  lemma {:induction false} FlattenAppend<T>(xs: seq<seq<T>>, ys: seq<seq<T>>)
    ensures Flatten(xs + ys) == Flatten(xs) + Flatten(ys)
    decreases |ys|
  {
    if |ys| == 0 {
      assert xs + ys == xs;
    } else {
      var init := ys[..|ys| - 1];
      assert (xs + ys)[..|xs + ys| - 1] == xs + init;
      FlattenAppend(xs, init);
    }
  }

  lemma FlattenSingle<T>(s: seq<T>)
    ensures Flatten([s]) == s
  {
    assert [s][..0] == [];
  }

  /** Element `k` of the `i`-th sequence sits in `Flatten(ss)` right after the sequences before it. */
  lemma FlattenAt<T>(ss: seq<seq<T>>, i: nat, k: nat)
    requires i < |ss| && k < |ss[i]|
    ensures |Flatten(ss[..i])| + k < |Flatten(ss)|
    ensures Flatten(ss)[|Flatten(ss[..i])| + k] == ss[i][k]
  {
    var pre, rest := ss[..i], ss[i + 1..];
    assert ss == pre + ([ss[i]] + rest);
    FlattenSingle(ss[i]);
    FlattenAppend([ss[i]], rest);
    FlattenAppend(pre, [ss[i]] + rest);
  }

  /** Flattening adds up the lengths. */
  lemma {:induction false} FlattenLength<T>(ss: seq<seq<T>>)
    ensures |Flatten(ss)| == TotalLength(ss)
    decreases |ss|
  {
    if |ss| > 0 {
      assert ss == [ss[0]] + ss[1..];
      FlattenAppend([ss[0]], ss[1..]);
      FlattenSingle(ss[0]);
      FlattenLength(ss[1..]);
    }
  }
}
