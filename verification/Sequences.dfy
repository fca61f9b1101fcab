/** Facts about slices that the solver is better told than left to find. */
module Sequences {
  lemma SliceOfSlice<T>(s: seq<T>, a: nat, b: nat, c: nat, d: nat)
    requires a <= b <= |s| && c <= d <= b - a
    ensures s[a..b][c..d] == s[a + c..a + d]
  {
    var t := s[a..b];
    var l, r := t[c..d], s[a + c..a + d];
    forall k | 0 <= k < d - c
      ensures l[k] == r[k]
    {
      assert l[k] == t[c + k] == s[a + (c + k)];
      assert r[k] == s[(a + c) + k];
    }
    assert l == r;
  }

  lemma SplitAt<T>(s: seq<T>, a: nat, b: nat, c: nat)
    requires a <= b <= c <= |s|
    ensures s[a..c] == s[a..b] + s[b..c]
  {}

  lemma Assoc<T>(a: seq<T>, b: seq<T>, c: seq<T>)
    ensures a + b + c == a + (b + c)
  {}

  /** A sequence from a on, in four pieces. */
  lemma SplitInFour<T>(s: seq<T>, a: nat, b: nat, c: nat, d: nat)
    requires a <= b <= c <= d <= |s|
    ensures s[a..] == s[a..b] + s[b..c] + s[c..d] + s[d..]
  {
    SplitAt(s, a, b, c);
    SplitAt(s, a, c, d);
    SplitAt(s, a, d, |s|);
    assert s[a..|s|] == s[a..] && s[d..|s|] == s[d..];
  }

  lemma StoreNext<T>(s: seq<T>, k: nat, x: T)
    requires k < |s|
    ensures s[k := x][..k + 1] == s[..k] + [x]
  {}

  /** Sequences that agree up to some place agree at the first. */
  lemma SameFirst<T>(a: seq<T>, b: seq<T>, k: nat)
    requires k < |a| && k < |b|
    ensures a[..k] == b[..k] && k > 0 ==> a[0] == b[0]
  {
    if k > 0 {
      assert a[..k][0] == a[0] && b[..k][0] == b[0];
    }
  }

  lemma TakeNext<T>(s: seq<T>, k: nat)
    requires k < |s|
    ensures s[..k + 1] == s[..k] + [s[k]]
  {}
}
