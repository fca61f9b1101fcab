/** The pseudo-trie and its construction (web/bytecode_compiler.go:84-165). */
module Tries {
  import opened Bytes
  import opened Routing
  import opened Sequences

  datatype Trie = Trie(prefix: Str, segments: seq<Segment>)

  /** A route matching at this point (or -1), and the children tried after it. */
  datatype Segment = Segment(route: int, children: seq<Trie>)

  // ----- what a trie for a list of routes is -----

  function SegmentsCount(segs: seq<Segment>): nat {
    if segs == [] then 0 else SegmentCount(segs[0]) + SegmentsCount(segs[1..])
  }

  function SegmentCount(seg: Segment): nat {
    (if seg.route == -1 then 0 else 1) + ChildrenCount(seg.children)
  }

  function ChildrenCount(cs: seq<Trie>): nat {
    if cs == [] then 0 else SegmentsCount(cs[0].segments) + ChildrenCount(cs[1..])
  }

  /** The segments hold exactly the routes lo..hi of `all`, once each and in order;
      a route sits at the node whose path, spelled out from the root, is its whole
      prefix; and siblings differ, increasing, in their first byte. */
  ghost predicate SegmentsFor(segs: seq<Segment>, all: seq<Route>, lo: nat, hi: nat, spelled: Str)
    requires hi <= |all|
    decreases segs
  {
    if segs == [] then lo == hi
    else
      var mid := lo + SegmentCount(segs[0]);
      mid <= hi && SegmentFor(segs[0], all, lo, mid, spelled) && SegmentsFor(segs[1..], all, mid, hi, spelled)
  }

  ghost predicate SegmentFor(seg: Segment, all: seq<Route>, lo: nat, hi: nat, spelled: Str)
    requires hi <= |all|
    decreases seg
  {
    if seg.route == -1 then ChildrenFor(seg.children, all, lo, hi, spelled)
    else
      && seg.route == lo < hi
      && all[lo].prefix == spelled
      && ChildrenFor(seg.children, all, lo + 1, hi, spelled)
  }

  ghost predicate ChildrenFor(cs: seq<Trie>, all: seq<Route>, lo: nat, hi: nat, spelled: Str)
    requires hi <= |all|
    decreases cs
  {
    if cs == [] then lo == hi
    else
      var mid := lo + SegmentsCount(cs[0].segments);
      && lo < mid <= hi
      && cs[0].prefix != []
      && (|cs| > 1 ==> cs[1].prefix != [] && cs[0].prefix[0] < cs[1].prefix[0])
      && SegmentsFor(cs[0].segments, all, lo, mid, spelled + cs[0].prefix)
      && ChildrenFor(cs[1..], all, mid, hi, spelled)
  }

  ghost predicate TrieFor(t: Trie, routes: seq<Route>) {
    SegmentsFor(t.segments, routes, 0, |routes|, [])
  }

  lemma {:induction false} SegmentsSnoc(segs: seq<Segment>, seg: Segment, all: seq<Route>, lo: nat, mid: nat, hi: nat, spelled: Str)
    requires mid <= hi <= |all|
    requires SegmentsFor(segs, all, lo, mid, spelled)
    requires SegmentFor(seg, all, mid, hi, spelled) && SegmentCount(seg) == hi - mid
    ensures SegmentsFor(segs + [seg], all, lo, hi, spelled)
    decreases |segs|
  {
    if segs == [] {
      assert (segs + [seg])[1..] == [];
    } else {
      SegmentsSnoc(segs[1..], seg, all, lo + SegmentCount(segs[0]), mid, hi, spelled);
      assert (segs + [seg])[1..] == segs[1..] + [seg];
    }
  }

  lemma {:induction false} ChildrenSnoc(cs: seq<Trie>, c: Trie, all: seq<Route>, lo: nat, mid: nat, hi: nat, spelled: Str)
    requires mid < hi <= |all| && c.prefix != []
    requires ChildrenFor(cs, all, lo, mid, spelled)
    requires cs != [] ==> cs[|cs| - 1].prefix != [] && cs[|cs| - 1].prefix[0] < c.prefix[0]
    requires SegmentsFor(c.segments, all, mid, hi, spelled + c.prefix) && SegmentsCount(c.segments) == hi - mid
    ensures ChildrenFor(cs + [c], all, lo, hi, spelled)
    decreases |cs|
  {
    if cs == [] {
      assert (cs + [c])[1..] == [];
    } else {
      ChildrenSnoc(cs[1..], c, all, lo + SegmentsCount(cs[0].segments), mid, hi, spelled);
      assert (cs + [c])[1..] == cs[1..] + [c];
    }
  }

  /** The counts say how many routes the parts hold. */
  lemma {:induction false} SegmentsHoldAll(segs: seq<Segment>, all: seq<Route>, lo: nat, hi: nat, spelled: Str)
    requires hi <= |all| && SegmentsFor(segs, all, lo, hi, spelled)
    ensures SegmentsCount(segs) == hi - lo
    decreases segs
  {
    if segs != [] {
      SegmentsHoldAll(segs[1..], all, lo + SegmentCount(segs[0]), hi, spelled);
    }
  }

  lemma {:induction false} ChildrenHoldAll(cs: seq<Trie>, all: seq<Route>, lo: nat, hi: nat, spelled: Str)
    requires hi <= |all| && ChildrenFor(cs, all, lo, hi, spelled)
    ensures ChildrenCount(cs) == hi - lo
    decreases cs
  {
    if cs != [] {
      ChildrenHoldAll(cs[1..], all, lo + SegmentsCount(cs[0].segments), hi, spelled);
    }
  }

  /** The routes of a trie in order, each with the path spelled out to its node. */
  function WalkSegments(segs: seq<Segment>, spelled: Str): seq<(int, Str)>
    decreases segs, 0
  {
    if segs == [] then []
    else
      (if segs[0].route == -1 then [] else [(segs[0].route, spelled)])
      + WalkChildren(segs[0].children, spelled)
      + WalkSegments(segs[1..], spelled)
  }

  function WalkChildren(cs: seq<Trie>, spelled: Str): seq<(int, Str)>
    decreases cs, 0
  {
    if cs == [] then []
    else WalkSegments(cs[0].segments, spelled + cs[0].prefix) + WalkChildren(cs[1..], spelled)
  }

  function Numbered(all: seq<Route>, lo: nat, hi: nat): (r: seq<(int, Str)>)
    requires lo <= hi <= |all|
    ensures |r| == hi - lo
  {
    seq(hi - lo, k requires 0 <= k < hi - lo => (lo + k, all[lo + k].prefix))
  }

  lemma NumberedAppend(all: seq<Route>, lo: nat, mid: nat, hi: nat)
    requires lo <= mid <= hi <= |all|
    ensures Numbered(all, lo, hi) == Numbered(all, lo, mid) + Numbered(all, mid, hi)
  {}

  lemma {:induction false} SegmentsWalk(segs: seq<Segment>, all: seq<Route>, lo: nat, hi: nat, spelled: Str)
    requires hi <= |all| && SegmentsFor(segs, all, lo, hi, spelled)
    ensures lo <= hi && WalkSegments(segs, spelled) == Numbered(all, lo, hi)
    decreases segs, 0
  {
    hide Numbered;
    if segs == [] {
      assert Numbered(all, lo, hi) == [];
    } else {
      var mid := lo + SegmentCount(segs[0]);
      var first := if segs[0].route == -1 then lo else lo + 1;
      ChildrenWalk(segs[0].children, all, first, mid, spelled);
      SegmentsWalk(segs[1..], all, mid, hi, spelled);
      NumberedAppend(all, lo, mid, hi);
      NumberedAppend(all, lo, first, mid);
      if first == lo {
        assert Numbered(all, lo, first) == [];
      } else {
        NumberedOne(all, lo);
      }
    }
  }

  lemma NumberedOne(all: seq<Route>, k: nat)
    requires k < |all|
    ensures Numbered(all, k, k + 1) == [(k, all[k].prefix)]
  {}

  lemma {:induction false} ChildrenWalk(cs: seq<Trie>, all: seq<Route>, lo: nat, hi: nat, spelled: Str)
    requires hi <= |all| && ChildrenFor(cs, all, lo, hi, spelled)
    ensures lo <= hi && WalkChildren(cs, spelled) == Numbered(all, lo, hi)
    decreases cs, 0
  {
    hide Numbered;
    if cs == [] {
      assert Numbered(all, lo, hi) == [];
    } else {
      var mid := lo + SegmentsCount(cs[0].segments);
      SegmentsWalk(cs[0].segments, all, lo, mid, spelled + cs[0].prefix);
      ChildrenWalk(cs[1..], all, mid, hi, spelled);
      NumberedAppend(all, lo, mid, hi);
    }
  }

  /** A trie for a route list, read in order, gives every index once, in order, at
      the node that spells that route's prefix. */
  lemma TrieShape(t: Trie, routes: seq<Route>)
    requires TrieFor(t, routes)
    ensures var w := WalkSegments(t.segments, []);
            |w| == |routes| && forall k | 0 <= k < |w| :: w[k] == (k, routes[k].prefix)
  {
    SegmentsWalk(t.segments, routes, 0, |routes|, []);
  }

  /** Any two siblings start with different bytes, in increasing order. */
  lemma {:induction false} SiblingsIncrease(cs: seq<Trie>, all: seq<Route>, lo: nat, hi: nat, spelled: Str, i: nat, j: nat)
    requires hi <= |all| && ChildrenFor(cs, all, lo, hi, spelled) && i < j < |cs|
    ensures cs[i].prefix != [] && cs[j].prefix != [] && cs[i].prefix[0] < cs[j].prefix[0]
    decreases j
  {
    var mid := lo + SegmentsCount(cs[0].segments);
    if i > 0 {
      SiblingsIncrease(cs[1..], all, mid, hi, spelled, i - 1, j - 1);
    } else if j > 1 {
      SiblingsIncrease(cs[1..], all, mid, hi, spelled, 0, j - 1);
    }
  }

  // ----- building -----

  /** web/bytecode_compiler.go:128-138 */
  method CommonPrefix(s1: Str, s2: Str) returns (p: Str)
    ensures p <= s1 && p <= s2
    ensures |p| < |s1| && |p| < |s2| ==> s1[|p|] != s2[|p|]
    decreases |s1|
  {
    if |s1| > |s2| {
      p := CommonPrefix(s2, s1);
      return;
    }
    for i := 0 to |s1|
      invariant s1[..i] == s2[..i]
    {
      if s1[i] != s2[i] {
        return s1[..i];
      }
    }
    return s1;
  }

  /** A bound on the length of every prefix; what is left of it shrinks with depth. */
  ghost function LongestPrefix(all: seq<Route>): (n: nat)
    ensures forall k | 0 <= k < |all| :: |all[k].prefix| <= n
  {
    if all == [] then 0
    else
      var m := LongestPrefix(all[1..]);
      assert forall k | 1 <= k < |all| :: all[k] == all[1..][k - 1];
      if |all[0].prefix| <= m then m else |all[0].prefix|
  }

  ghost predicate SliceAt(routes: seq<Route>, dr: nat, all: seq<Route>) {
    dr + |routes| <= |all| && routes == all[dr..dr + |routes|]
  }

  ghost predicate AllExtend(routes: seq<Route>, spelled: Str) {
    forall k | 0 <= k < |routes| :: spelled <= routes[k].prefix
  }

  function RebaseOne(seg: Segment, dr: nat): Segment {
    if seg.route == -1 then seg else seg.(route := seg.route + dr)
  }

  function Rebase(segs: seq<Segment>, dr: nat): (r: seq<Segment>)
    ensures |r| == |segs|
  {
    seq(|segs|, i requires 0 <= i < |segs| => RebaseOne(segs[i], dr))
  }

  lemma RebaseSnoc(segs: seq<Segment>, seg: Segment, dr: nat)
    ensures Rebase(segs + [seg], dr) == Rebase(segs, dr) + [RebaseOne(seg, dr)]
  {}

  function Start(route: int): nat
    requires route >= -1
  {
    if route == -1 then 0 else route
  }

  /** Children built for what follows a segment's route complete the segment. */
  lemma SegmentDone(route: int, children: seq<Trie>, routes: seq<Route>, i: nat, dr: nat, all: seq<Route>, spelled: Str)
    requires SliceAt(routes, dr, all) && -1 <= route < i <= |routes|
    requires route >= 0 ==> routes[route].prefix == spelled
    requires ChildrenFor(children, all, dr + route + 1, dr + i, spelled)
    ensures var seg := RebaseOne(Segment(route, children), dr);
            SegmentFor(seg, all, dr + Start(route), dr + i, spelled) && SegmentCount(seg) == i - Start(route)
  {
    ChildrenHoldAll(children, all, dr + route + 1, dr + i, spelled);
    if route >= 0 {
      assert routes[route] == all[dr + route];
    }
  }

  lemma SegmentAppended(segs: seq<Segment>, route: int, children: seq<Trie>, routes: seq<Route>, i: nat, dr: nat, all: seq<Route>, spelled: Str)
    requires SliceAt(routes, dr, all) && -1 <= route < i <= |routes|
    requires route >= 0 ==> routes[route].prefix == spelled
    requires SegmentsFor(Rebase(segs, dr), all, dr, dr + Start(route), spelled)
    requires ChildrenFor(children, all, dr + route + 1, dr + i, spelled)
    ensures SegmentsFor(Rebase(segs + [Segment(route, children)], dr), all, dr, dr + i, spelled)
  {
    var seg := Segment(route, children);
    SegmentDone(route, children, routes, i, dr, all, spelled);
    SegmentsSnoc(Rebase(segs, dr), RebaseOne(seg, dr), all, dr, dr + Start(route), dr + i, spelled);
    RebaseSnoc(segs, seg, dr);
  }

  lemma SubSlice(routes: seq<Route>, dr: nat, all: seq<Route>, lo: nat, hi: nat, spelled: Str)
    requires SliceAt(routes, dr, all) && lo <= hi <= |routes|
    ensures SliceAt(routes[lo..hi], dr + lo, all)
    ensures AllExtend(routes, spelled) ==> AllExtend(routes[lo..hi], spelled)
  {
    SliceOfSlice(all, dr, dr + |routes|, lo, hi);
  }

  /** web/bytecode_compiler.go:96-126. `all` is the whole route list, of which
      `routes` is the part from dr on, and `spelled` the path down to this node. */
  method BuildTrie(routes: seq<Route>, dp: nat, dr: nat, ghost all: seq<Route>, ghost spelled: Str) returns (t: Trie)
    requires SliceAt(routes, dr, all) && Ordered(all)
    requires |spelled| == dp && AllExtend(routes, spelled)
    ensures SegmentsFor(t.segments, all, dr, dr + |routes|, spelled)
    ensures SegmentsCount(t.segments) == |routes|
    decreases LongestPrefix(all) - dp, 2
  {
    hide Ordered;
    var children: seq<Segment> := [];
    var ts := Segment(-1, []);
    var i := 0;
    while i < |routes|
      invariant 0 <= i <= |routes|
      invariant ts.children == [] && -1 <= ts.route && ts.route < i
      invariant ts.route >= 0 ==> routes[ts.route].prefix == spelled
      invariant SegmentsFor(Rebase(children, dr), all, dr, dr + Start(ts.route), spelled)
      invariant forall k | ts.route < k < i :: |routes[k].prefix| != dp
    {
      if |routes[i].prefix| == dp {
        assert routes[i].prefix == spelled;
        if i == 0 {
          ts := ts.(route := 0);
        } else {
          children := AppendSegment(children, ts, routes, i, dp, dr, all, spelled);
          ts := Segment(i, []);
        }
      }
      i := i + 1;
    }
    children := AppendSegment(children, ts, routes, |routes|, dp, dr, all, spelled);

    ghost var local := children;
    for j := 0 to |children|
      invariant |children| == |local|
      invariant forall k | 0 <= k < |local| :: children[k] == if k < j then RebaseOne(local[k], dr) else local[k]
    {
      if children[j].route != -1 {
        children := children[j := children[j].(route := children[j].route + dr)];
      }
    }
    assert children == Rebase(local, dr);
    SegmentsHoldAll(children, all, dr, dr + |routes|, spelled);
    t := Trie([], children);
  }

  /** The step written out twice in the source (lines 107-109 and 115-117): the
      routes after the segment's own become its children. */
  method AppendSegment(children: seq<Segment>, ts: Segment, routes: seq<Route>, i: nat, dp: nat, dr: nat,
                       ghost all: seq<Route>, ghost spelled: Str) returns (r: seq<Segment>)
    requires SliceAt(routes, dr, all) && Ordered(all)
    requires |spelled| == dp && AllExtend(routes, spelled)
    requires -1 <= ts.route < i <= |routes|
    requires ts.route >= 0 ==> routes[ts.route].prefix == spelled
    requires forall k | ts.route < k < i :: |routes[k].prefix| != dp
    requires SegmentsFor(Rebase(children, dr), all, dr, dr + Start(ts.route), spelled)
    ensures SegmentsFor(Rebase(r, dr), all, dr, dr + i, spelled)
    decreases LongestPrefix(all) - dp, 1
  {
    hide SegmentsFor, ChildrenFor, Rebase, Ordered;
    SubSlice(routes, dr, all, ts.route + 1, i, spelled);
    var subroutes := routes[ts.route + 1..i];
    var built := BuildTrieSegment(subroutes, dp, dr + ts.route + 1, all, spelled);
    SegmentAppended(children, ts.route, built, routes, i, dr, all, spelled);
    r := children + [ts.(children := built)];
  }

  /** The common prefix is empty only where the next byte goes up. */
  lemma NextGroupSortsHigher(routes: seq<Route>, i: nat, dr: nat, all: seq<Route>, spelled: Str, p: Str)
    requires SliceAt(routes, dr, all) && Ordered(all) && 0 < i < |routes|
    requires p != [] && spelled + p <= routes[i - 1].prefix
    requires spelled <= routes[i].prefix && |spelled| < |routes[i].prefix|
    requires p[0] != routes[i].prefix[|spelled|]
    ensures p[0] < routes[i].prefix[|spelled|]
  {
    var a, b := routes[i - 1].prefix, routes[i].prefix;
    assert OrderedAt(all, dr + i - 1);
    assert a == all[dr + i - 1].prefix && b == all[dr + i].prefix;
    assert (spelled + p)[|spelled|] == p[0] == a[|spelled|];
    assert spelled == (spelled + p)[..|spelled|] <= a;
    LeqComparesNextByte(a, b, spelled);
  }

  /** Routes i of the current group still share the shortened prefix. */
  lemma GroupShares(routes: seq<Route>, start: nat, i: nat, spelled: Str, p: Str, ip: Str, cp: Str)
    requires start <= i < |routes| && AllExtend(routes, spelled)
    requires forall k | start <= k < i :: spelled + p <= routes[k].prefix
    requires ip == routes[i].prefix[|spelled|..] && cp <= p && cp <= ip
    ensures forall k | start <= k < i + 1 :: spelled + cp <= routes[k].prefix
  {
    assert spelled + cp <= spelled + p;
    assert routes[i].prefix == spelled + ip;
    assert spelled + cp <= spelled + ip;
  }

  /** web/bytecode_compiler.go:140-165 */
  method BuildTrieSegment(routes: seq<Route>, dp: nat, dr: nat, ghost all: seq<Route>, ghost spelled: Str) returns (tries: seq<Trie>)
    requires SliceAt(routes, dr, all) && Ordered(all)
    requires |spelled| == dp && AllExtend(routes, spelled)
    requires forall k | 0 <= k < |routes| :: |routes[k].prefix| != dp
    ensures ChildrenFor(tries, all, dr, dr + |routes|, spelled)
    decreases LongestPrefix(all) - dp, 0
  {
    hide Ordered, LongestPrefix;
    tries := [];
    if |routes| == 0 {
      return;
    }
    var start := 0;
    var p := routes[0].prefix[dp..];
    for i := 1 to |routes|
      invariant 0 <= start < i && p != []
      invariant forall k | start <= k < i :: spelled + p <= routes[k].prefix
      invariant ChildrenFor(tries, all, dr, dr + start, spelled)
      invariant tries != [] ==> tries[|tries| - 1].prefix != [] && tries[|tries| - 1].prefix[0] < p[0]
    {
      var ip := routes[i].prefix[dp..];
      var cp := CommonPrefix(p, ip);
      if |cp| == 0 {
        tries := AppendTrie(tries, routes, start, i, dp, dr, p, all, spelled);
        NextGroupSortsHigher(routes, i, dr, all, spelled, p);
        assert routes[i].prefix == spelled + ip;
        start := i;
        p := ip;
      } else {
        GroupShares(routes, start, i, spelled, p, ip, cp);
        assert cp[0] == p[0];
        p := cp;
      }
    }
    tries := AppendTrie(tries, routes, start, |routes|, dp, dr, p, all, spelled);
  }

  /** The step written out twice in the source (lines 152-154 and 162-164). */
  method AppendTrie(tries: seq<Trie>, routes: seq<Route>, start: nat, end: nat, dp: nat, dr: nat, p: Str,
                    ghost all: seq<Route>, ghost spelled: Str) returns (r: seq<Trie>)
    requires SliceAt(routes, dr, all) && Ordered(all) && |spelled| == dp
    requires start < end <= |routes| && p != []
    requires forall k | start <= k < end :: spelled + p <= routes[k].prefix
    requires ChildrenFor(tries, all, dr, dr + start, spelled)
    requires tries != [] ==> tries[|tries| - 1].prefix != [] && tries[|tries| - 1].prefix[0] < p[0]
    ensures ChildrenFor(r, all, dr, dr + end, spelled)
    ensures r != [] && r[|r| - 1].prefix == p
    decreases LongestPrefix(all) - dp - |p|, 3
  {
    hide Ordered, ChildrenFor, SegmentsFor;
    assert |spelled + p| <= |routes[start].prefix| && routes[start] == all[dr + start];
    SubSlice(routes, dr, all, start, end, spelled);
    var t := BuildTrie(routes[start..end], dp + |p|, dr + start, all, spelled + p);
    t := t.(prefix := p);
    ChildrenSnoc(tries, t, all, dr, dr + start, dr + end, spelled);
    r := tries + [t];
  }
}
