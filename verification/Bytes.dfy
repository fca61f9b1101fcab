/** Go strings: sequences of bytes, ordered byte by byte. Dafny's own `<=` on
    sequences is "is a prefix of", which is Go's strings.HasPrefix with the
    arguments swapped. */
module Bytes {
  import opened Sequences

  type Byte = b: int | 0 <= b < 256
  type Str = seq<Byte>

  const SLASH: Byte := 47
  const STAR: Byte := 42
  const COLON: Byte := 58
  const DOT: Byte := 46
  const SEMICOLON: Byte := 59
  const COMMA: Byte := 44

  /** Go's `a <= b` on strings. */
  predicate Leq(a: Str, b: Str) {
    |a| == 0 || (|b| > 0 && (a[0] < b[0] || (a[0] == b[0] && Leq(a[1..], b[1..]))))
  }

  /** That is: the one is a prefix of the other, or the first byte in which they differ
      is smaller. */
  lemma {:induction false} LeqByFirstDifference(a: Str, b: Str)
    ensures Leq(a, b) <==> a <= b || exists k: nat :: k < |a| && k < |b| && a[..k] == b[..k] && a[k] < b[k]
  {
    if |a| > 0 && |b| > 0 {
      if a[0] == b[0] {
        LeqByFirstDifference(a[1..], b[1..]);
        assert a <= b <==> a[1..] <= b[1..];
        if k: nat :| k < |a[1..]| && k < |b[1..]| && a[1..][..k] == b[1..][..k] && a[1..][k] < b[1..][k] {
          assert a[..k + 1] == [a[0]] + a[1..][..k] && b[..k + 1] == [b[0]] + b[1..][..k];
          assert a[k + 1] < b[k + 1];
        }
        if k: nat :| k < |a| && k < |b| && a[..k] == b[..k] && a[k] < b[k] {
          assert a[1..][..k - 1] == a[..k][1..] && b[1..][..k - 1] == b[..k][1..];
          assert a[1..][k - 1] < b[1..][k - 1];
        }
      } else if a[0] < b[0] {
        assert a[..0] == b[..0];
      } else {
        forall k: nat | k < |a| && k < |b|
          ensures a[..k] == b[..k] && k > 0 ==> a[0] == b[0]
        {
          SameFirst(a, b, k);
        }
      }
    }
  }

  lemma {:induction false} PrefixIsLeq(a: Str, b: Str)
    requires a <= b
    ensures Leq(a, b)
  {
    if |a| > 0 {
      assert a[1..] <= b[1..];
      PrefixIsLeq(a[1..], b[1..]);
    }
  }

  lemma {:induction false} LeqIsTotal(a: Str, b: Str)
    ensures Leq(a, b) || Leq(b, a)
  {
    if |a| > 0 && |b| > 0 {
      LeqIsTotal(a[1..], b[1..]);
    }
  }

  /** Two ordered strings that share their first |s| bytes are ordered by the
      byte that follows. */
  lemma {:induction false} LeqComparesNextByte(a: Str, b: Str, s: Str)
    requires s <= a && s <= b && |s| < |a| && |s| < |b|
    requires Leq(a, b)
    ensures a[|s|] <= b[|s|]
  {
    if |s| > 0 {
      assert a[0] == s[0] == b[0];
      assert s[1..] <= a[1..] && s[1..] <= b[1..];
      LeqComparesNextByte(a[1..], b[1..], s[1..]);
    }
  }

  /** Two prefixes of one string are comparable. */
  lemma PrefixesCompare(a: Str, b: Str, s: Str)
    requires a <= s && b <= s
    ensures a <= b || b <= a
  {
    if |a| <= |b| {
      assert a == s[..|a|] == b[..|a|];
    } else {
      assert b == s[..|b|] == a[..|b|];
    }
  }
}
