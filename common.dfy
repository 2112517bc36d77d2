/** Option and Result values shared by every module of the model. */
module Common {

  datatype Option<+T> = None | Some(value: T)

  /** The outcome of an operation that either yields a value or fails with an error. */
  datatype Result<+T, +E> = Ok(value: T) | Err(error: E)

  /** A non-empty sequence is its prefix followed by its last element. */
  lemma SnocSplit<T>(s: seq<T>)
    requires s != []
    ensures s == s[..|s| - 1] + [s[|s| - 1]]
  {
  }

  /**
   * If `f` maps the head of `xs` to `b` and each later element to the
   * matching element of `rest`, it maps every element of `xs` to the
   * matching element of `[b] + rest`.
   */
  lemma ConsPointwise<A, B, E>(xs: seq<A>, f: A -> Result<B, E>, b: B, rest: seq<B>)
    requires xs != [] && f(xs[0]) == Ok(b) && |rest| == |xs| - 1
    requires forall i :: 0 <= i < |rest| ==> f(xs[1..][i]) == Ok(rest[i])
    ensures forall i :: 0 <= i < |xs| ==> f(xs[i]) == Ok(([b] + rest)[i])
  {
    forall i | 0 < i < |xs|
      ensures f(xs[i]) == Ok(([b] + rest)[i])
    {
      assert xs[i] == xs[1..][i - 1];
    }
  }

  /** The two parts of a concatenation are its prefix and its suffix. */
  lemma TwoParts<T>(s: seq<T>, a: seq<T>, b: seq<T>)
    requires s == a + b
    ensures s[..|a|] == a && s[|s| - |b|..] == b
  {
  }

  /** The three parts of a concatenation are its slices, counted from either end. */
  lemma ThreeParts<T>(s: seq<T>, a: seq<T>, b: seq<T>, c: seq<T>)
    requires s == a + b + c
    ensures s[..|a|] == a && s[|a|..|a| + |b|] == b
    ensures s[|s| - |c|..] == c && s[|s| - |c| - |b|..|s| - |c|] == b
  {
  }

  /**
   * The slices of `a + b + m + (c + d)`: the prefix `a`, the prefix `a + b`,
   * the middle `m`, the suffix `c + d` and the suffix `d`.
   */
  lemma FiveParts<T>(a: seq<T>, b: seq<T>, m: seq<T>, c: seq<T>, d: seq<T>)
    ensures var s := a + b + m + (c + d);
      && s[..|a|] == a
      && s[..|a + b|] == a + b && s[|a + b|..|a + b| + |m|] == m
      && s[|s| - |c + d|..] == c + d && s[|s| - |c + d| - |m|..|s| - |c + d|] == m
      && s[|s| - |d|..] == d
  {
    var s := a + b + m + (c + d);
    ThreeParts(s, a + b, m, c + d);
    TwoParts(a + b, a, b);
    PrefixOfPrefix(s, a + b, a);
    TwoParts(c + d, c, d);
    SuffixOfSuffix(s, c + d, d);
  }

  /** A slice of a slice of `s` is a slice of `s`. */
  lemma SliceOfSlice<T>(s: seq<T>, k: nat, t: seq<T>, i: nat, j: nat)
    requires k + |t| <= |s| && s[k..k + |t|] == t && i <= j <= |t|
    ensures s[k + i..k + j] == t[i..j]
  {
    assert forall n :: k + i <= n < k + j ==> s[n] == s[k..k + |t|][n - k];
  }

  /**
   * When `s` holds `pre + x + post` at offset `k`, it holds `x` at offset
   * `k + |pre|`, the last of `pre` just before and the first of `post` just after.
   */
  lemma InnerSlice<T>(s: seq<T>, k: nat, t: seq<T>, pre: seq<T>, x: seq<T>, post: seq<T>)
    requires k + |t| <= |s| && s[k..k + |t|] == t && t == pre + x + post
    ensures s[k + |pre|..k + |pre| + |x|] == x
    ensures |pre| > 0 ==> s[k + |pre| - 1] == pre[|pre| - 1]
    ensures |post| > 0 ==> k + |pre| + |x| < |s| && s[k + |pre| + |x|] == post[0]
  {
    ThreeParts(t, pre, x, post);
    SliceOfSlice(s, k, t, |pre|, |pre| + |x|);
    if |pre| > 0 {
      assert s[k + |pre| - 1] == s[k..k + |t|][|pre| - 1];
    }
    if |post| > 0 {
      assert s[k + |pre| + |x|] == s[k..k + |t|][|pre| + |x|];
    }
  }

  /** A prefix of a prefix of `s` is a prefix of `s`. */
  lemma PrefixOfPrefix<T>(s: seq<T>, p: seq<T>, q: seq<T>)
    requires |p| <= |s| && s[..|p|] == p && |q| <= |p| && p[..|q|] == q
    ensures s[..|q|] == q
  {
    assert forall i :: 0 <= i < |q| ==> s[i] == p[i];
  }

  /** A suffix of a suffix of `s` is a suffix of `s`. */
  lemma SuffixOfSuffix<T>(s: seq<T>, p: seq<T>, q: seq<T>)
    requires |p| <= |s| && s[|s| - |p|..] == p && |q| <= |p| && p[|p| - |q|..] == q
    ensures s[|s| - |q|..] == q
  {
    assert forall i :: |s| - |q| <= i < |s| ==> s[i] == p[i - (|s| - |p|)];
  }
}
