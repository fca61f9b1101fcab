/** Which node of the trie a place in its code belongs to: the path spelled out to the
    node whose cursor is set there. */
module Nodes {
  import opened Bytes
  import opened Options
  import opened Tries
  import opened Bytecode

  /** The node whose SetCursor lies at x, in the code of segments with their heads from
      `head` and their subs from `sub` on. */
  function NodeAt(segs: seq<Segment>, head: int, sub: int, spelled: Str, x: int): Option<Str>
    decreases segs, 1
  {
    if segs == [] then None
    else if head <= x < head + HeadLen(segs[0]) || sub <= x < sub + ChildrenLen(segs[0].children) then
      SegmentNode(segs[0], head, sub, spelled, x)
    else NodeAt(segs[1..], head + HeadLen(segs[0]), sub + ChildrenLen(segs[0].children), spelled, x)
  }

  /** A segment begins by setting the cursor to its node. */
  function SegmentNode(seg: Segment, head: int, sub: int, spelled: Str, x: int): Option<Str>
    decreases seg, 2
  {
    if x == head then Some(spelled) else NodeBelow(seg.children, sub, spelled, x)
  }

  function NodeBelow(cs: seq<Trie>, sub: int, spelled: Str, x: int): Option<Str>
    decreases cs, 1
  {
    if cs == [] then None
    else if sub <= x < sub + ChildLen(cs[0]) then ChildNode(cs[0], sub, spelled, x)
    else NodeBelow(cs[1..], sub + ChildLen(cs[0]), spelled, x)
  }

  function ChildNode(c: Trie, sub: int, spelled: Str, x: int): Option<Str>
    decreases c, 1
  {
    var base := sub + ExpectsLen(Rest(c.prefix));
    if base <= x < base + TrieLen(c.segments) then TrieNode(c.segments, base, spelled + c.prefix, x) else None
  }

  function TrieNode(segs: seq<Segment>, base: int, spelled: Str, x: int): Option<Str>
    decreases segs, 2
  {
    NodeAt(segs, base, base + HeadsLen(segs) + 1, spelled, x)
  }

  /** If the instruction has been executed n > 0 times, the path starts with its node. */
  predicate Fits(n: nat, node: Option<Str>, path: Str) {
    n > 0 && node.Some? ==> node.value <= path
  }

  lemma {:induction false} NoNodeOutside(segs: seq<Segment>, head: int, sub: int, spelled: Str, x: int)
    requires x < sub && !(head <= x < head + HeadsLen(segs))
    ensures NodeAt(segs, head, sub, spelled, x) == None
  {
    hide SegmentNode;
    if segs != [] {
      NoNodeOutside(segs[1..], head + HeadLen(segs[0]), sub + ChildrenLen(segs[0].children), spelled, x);
    }
  }

  lemma {:induction false} NoNodeBelow(cs: seq<Trie>, sub: int, spelled: Str, x: int)
    requires x < sub
    ensures NodeBelow(cs, sub, spelled, x) == None
  {
    hide ChildNode;
    if cs != [] {
      NoNodeBelow(cs[1..], sub + ChildLen(cs[0]), spelled, x);
    }
  }

  // ----- counting executions by region -----

  /** One if x lies among the `size` instructions from `at` on. */
  function Within(x: int, at: int, size: nat): nat {
    if at <= x < at + size then 1 else 0
  }

  lemma WithinOne(x: int, at: int)
    ensures Within(x, at, 1) == if x == at then 1 else 0
  {}

  lemma WithinSplit(x: int, at: int, a: nat, b: nat)
    ensures Within(x, at, a + b) == Within(x, at, a) + Within(x, at + a, b)
  {}

  lemma FitsTrie(segs: seq<Segment>, base: int, spelled: Str, x: int, path: Str, a: nat, b: nat)
    requires Fits(a, TrieNode(segs, base, spelled, x), path) && b <= Within(x, base + HeadsLen(segs), 1)
    ensures Fits(a + b, TrieNode(segs, base, spelled, x), path)
  {
    if b > 0 {
      NoNodeOutside(segs, base, base + HeadsLen(segs) + 1, spelled, x);
    }
  }

  lemma FitsSegments(segs: seq<Segment>, head: int, sub: int, spelled: Str, x: int, path: Str, a: nat, b: nat)
    requires segs != [] && head + HeadsLen(segs) < sub
    requires a <= Within(x, head, HeadLen(segs[0])) + Within(x, sub, ChildrenLen(segs[0].children))
    requires b <= Within(x, head + HeadLen(segs[0]), HeadsLen(segs[1..])) + Within(x, sub + ChildrenLen(segs[0].children), SubsLen(segs[1..]))
    requires Fits(a, SegmentNode(segs[0], head, sub, spelled, x), path)
    requires Fits(b, NodeAt(segs[1..], head + HeadLen(segs[0]), sub + ChildrenLen(segs[0].children), spelled, x), path)
    ensures Fits(a + b, NodeAt(segs, head, sub, spelled, x), path)
  {
    hide SegmentNode, HeadLen, ChildrenLen, SubsLen;
  }

  lemma FitsSegment(seg: Segment, head: int, sub: int, spelled: Str, x: int, path: Str, a: nat, b: nat)
    requires spelled <= path && head + HeadLen(seg) < sub
    requires a <= Within(x, head, HeadLen(seg)) && Fits(b, NodeBelow(seg.children, sub, spelled, x), path)
    ensures Fits(a + b, SegmentNode(seg, head, sub, spelled, x), path)
  {
    hide NodeBelow;
    if a > 0 {
      NoNodeBelow(seg.children, sub, spelled, x);
    }
  }

  lemma FitsFirstChild(cs: seq<Trie>, at: int, sub: int, spelled: Str, x: int, path: Str, a: nat, b: nat)
    requires cs != [] && at + |cs| <= sub && a <= Within(x, at, 1)
    requires b <= Within(x, sub, ChildLen(cs[0])) && Fits(b, ChildNode(cs[0], sub, spelled, x), path)
    ensures Fits(a + b, NodeBelow(cs, sub, spelled, x), path)
  {
    hide ChildNode;
    if a > 0 {
      NoNodeBelow(cs, sub, spelled, x);
    }
  }

  lemma FitsLaterChild(cs: seq<Trie>, at: int, sub: int, spelled: Str, x: int, path: Str, a: nat, b: nat)
    requires cs != [] && at + |cs| <= sub && a <= Within(x, at, 1)
    requires b <= Within(x, at + 1, |cs| - 1) + Within(x, sub + ChildLen(cs[0]), ChildrenLen(cs[1..]))
    requires Fits(b, NodeBelow(cs[1..], sub + ChildLen(cs[0]), spelled, x), path)
    ensures Fits(a + b, NodeBelow(cs, sub, spelled, x), path)
  {
    hide ChildNode, ChildLen, ChildrenLen;
    if x < sub {
      NoNodeBelow(cs, sub, spelled, x);
    }
  }

  lemma FitsChild(c: Trie, sub: int, spelled: Str, x: int, path: Str, a: nat, b: nat)
    requires var k := ExpectsLen(Rest(c.prefix));
             && a <= Within(x, sub, k) && b <= Within(x, sub + k, TrieLen(c.segments))
             && Fits(b, TrieNode(c.segments, sub + k, spelled + c.prefix, x), path)
    ensures Fits(a + b, ChildNode(c, sub, spelled, x), path)
  {
    hide TrieNode, ExpectsLen, TrieLen;
  }
}
