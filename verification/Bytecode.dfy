/** The routing bytecode: a reference assembler with absolute addresses, and the
    source's encoder, which emits relative code and links it in place
    (web/bytecode_compiler.go:50-82 and 167-265). */
module Bytecode {
  import opened Bytes
  import opened Routing
  import opened Sequences
  import opened Tries

  /** Up to three bytes to compare, a mode, and an index. */
  datatype Instr = Instr(mode: bv8, b0: Byte, b1: Byte, b2: Byte, i: int)

  const LENGTH_MASK: bv8 := 3
  const JUMP_ON_MATCH: bv8 := 4
  const ROUTE: bv8 := 8
  const SET_CURSOR: bv8 := 16
  const FAIL: bv8 := 32

  function Min3(n: nat): nat {
    if n < 3 then n else 3
  }

  function LengthBits(n: nat): bv8
    requires n <= 3
  {
    if n == 0 then 0 else if n == 1 then 1 else if n == 2 then 2 else 3
  }

  /** Go's `copy(bs[:], p)` into a zeroed three-byte array. */
  function Load(mode: bv8, p: Str, i: int): Instr {
    Instr(mode, if |p| > 0 then p[0] else 0, if |p| > 1 then p[1] else 0, if |p| > 2 then p[2] else 0, i)
  }

  predicate Fixed(x: Instr) {
    x.mode & (ROUTE | SET_CURSOR) != 0
  }

  // ----- the reference assembler -----

  function SetCursor(dp: nat): Instr {
    Instr(SET_CURSOR, 0, 0, 0, dp)
  }

  function RunRoute(route: int): Instr {
    Instr(ROUTE, 0, 0, 0, route)
  }

  function Wildcard(exit: int): Instr {
    Instr(JUMP_ON_MATCH, 0, 0, 0, exit)
  }

  /** Jump to `target` if the next bytes begin p. */
  function Branch(p: Str, target: int): Instr {
    Load(LengthBits(Min3(|p|)) | JUMP_ON_MATCH, p, target)
  }

  /** Jump to `exit` unless the next bytes begin p. */
  function Expect(p: Str, exit: int): Instr {
    Load(LengthBits(Min3(|p|)), p, exit)
  }

  function Rest(p: Str): Str {
    p[Min3(|p|)..]
  }

  function Expects(p: Str, exit: int): seq<Instr> {
    if p == [] then [] else [Expect(p, exit)] + Expects(Rest(p), exit)
  }

  function ExpectsLen(p: Str): nat {
    if p == [] then 0 else 1 + ExpectsLen(Rest(p))
  }

  function HeadLen(seg: Segment): nat {
    (if seg.route == -1 then 1 else 2) + |seg.children|
  }

  function HeadsLen(segs: seq<Segment>): nat {
    if segs == [] then 0 else HeadLen(segs[0]) + HeadsLen(segs[1..])
  }

  function ChildLen(c: Trie): nat {
    ExpectsLen(Rest(c.prefix)) + TrieLen(c.segments)
  }

  function ChildrenLen(cs: seq<Trie>): nat
    decreases cs
  {
    if cs == [] then 0 else ChildLen(cs[0]) + ChildrenLen(cs[1..])
  }

  function SubsLen(segs: seq<Segment>): nat
    decreases segs, 0
  {
    if segs == [] then 0 else ChildrenLen(segs[0].children) + SubsLen(segs[1..])
  }

  function TrieLen(segs: seq<Segment>): nat
    decreases segs, 1
  {
    HeadsLen(segs) + 1 + SubsLen(segs)
  }

  /** One branch per child, each to where that child's code starts. */
  function Branches(cs: seq<Trie>, sub: int): seq<Instr> {
    if cs == [] then []
    else [Branch(cs[0].prefix, sub)] + Branches(cs[1..], sub + ChildLen(cs[0]))
  }

  function Head(seg: Segment, dp: nat, sub: int): seq<Instr> {
    [SetCursor(dp)] + (if seg.route == -1 then [] else [RunRoute(seg.route)]) + Branches(seg.children, sub)
  }

  function Heads(segs: seq<Segment>, dp: nat, sub: int): seq<Instr> {
    if segs == [] then []
    else Head(segs[0], dp, sub) + Heads(segs[1..], dp, sub + ChildrenLen(segs[0].children))
  }

  /** Code of the children: each expects the rest of its prefix and then runs its
      own trie; all of them leave to `exit`. */
  function Children(cs: seq<Trie>, dp: nat, sub: int, exit: int): seq<Instr>
    decreases cs
  {
    if cs == [] then []
    else
      var n := ExpectsLen(Rest(cs[0].prefix));
      Expects(Rest(cs[0].prefix), exit)
      + Assemble(cs[0].segments, dp + |cs[0].prefix|, sub + n, exit)
      + Children(cs[1..], dp, sub + ChildLen(cs[0]), exit)
  }

  /** The children of each segment leave to the head of the next segment. */
  function Subs(segs: seq<Segment>, dp: nat, head: int, sub: int): seq<Instr>
    decreases segs, 0
  {
    if segs == [] then []
    else
      var next := head + HeadLen(segs[0]);
      Children(segs[0].children, dp, sub, next) + Subs(segs[1..], dp, next, sub + ChildrenLen(segs[0].children))
  }

  /** Code for a trie placed at `base`: all heads, a jump to `exit`, all subs. */
  function Assemble(segs: seq<Segment>, dp: nat, base: int, exit: int): seq<Instr>
    decreases segs, 1
  {
    var subs := base + HeadsLen(segs) + 1;
    Heads(segs, dp, subs) + [Wildcard(exit)] + Subs(segs, dp, base, subs)
  }

  // ----- lengths -----

  lemma {:induction false} ExpectsLength(p: Str, exit: int)
    ensures |Expects(p, exit)| == ExpectsLen(p)
    decreases |p|
  {
    if p != [] {
      ExpectsLength(Rest(p), exit);
    }
  }

  lemma {:induction false} BranchesLength(cs: seq<Trie>, sub: int)
    ensures |Branches(cs, sub)| == |cs|
  {
    if cs != [] {
      BranchesLength(cs[1..], sub + ChildLen(cs[0]));
    }
  }

  lemma {:induction false} HeadsLength(segs: seq<Segment>, dp: nat, sub: int)
    ensures |Heads(segs, dp, sub)| == HeadsLen(segs)
  {
    if segs != [] {
      HeadLength(segs[0], dp, sub);
      HeadsLength(segs[1..], dp, sub + ChildrenLen(segs[0].children));
    }
  }

  lemma HeadLength(seg: Segment, dp: nat, sub: int)
    ensures |Head(seg, dp, sub)| == HeadLen(seg)
  {
    BranchesLength(seg.children, sub);
  }

  lemma {:induction false} ChildrenLength(cs: seq<Trie>, dp: nat, sub: int, exit: int)
    ensures |Children(cs, dp, sub, exit)| == ChildrenLen(cs)
    decreases cs
  {
    if cs != [] {
      var n := ExpectsLen(Rest(cs[0].prefix));
      ExpectsLength(Rest(cs[0].prefix), exit);
      AssembleLength(cs[0].segments, dp + |cs[0].prefix|, sub + n, exit);
      ChildrenLength(cs[1..], dp, sub + ChildLen(cs[0]), exit);
    }
  }

  lemma {:induction false} SubsLength(segs: seq<Segment>, dp: nat, head: int, sub: int)
    ensures |Subs(segs, dp, head, sub)| == SubsLen(segs)
    decreases segs, 0
  {
    if segs != [] {
      var next := head + HeadLen(segs[0]);
      ChildrenLength(segs[0].children, dp, sub, next);
      SubsLength(segs[1..], dp, next, sub + ChildrenLen(segs[0].children));
    }
  }

  lemma {:induction false} AssembleLength(segs: seq<Segment>, dp: nat, base: int, exit: int)
    ensures |Assemble(segs, dp, base, exit)| == TrieLen(segs)
    decreases segs, 1
  {
    var subs := base + HeadsLen(segs) + 1;
    HeadsLength(segs, dp, subs);
    SubsLength(segs, dp, base, subs);
  }

  // ----- relocation -----

  function MovedAddress(i: int, d: int, exit: int): int {
    if i == -1 then exit else i + d
  }

  /** Linking one instruction: route and cursor operands stay, the placeholder -1
      becomes the exit, and addresses move by d. */
  function MoveOne(x: Instr, d: int, exit: int): Instr {
    if Fixed(x) then x else x.(i := MovedAddress(x.i, d, exit))
  }

  function Move(code: seq<Instr>, d: int, exit: int): (r: seq<Instr>)
    ensures |r| == |code|
  {
    seq(|code|, k requires 0 <= k < |code| => MoveOne(code[k], d, exit))
  }

  lemma MoveAppend(a: seq<Instr>, b: seq<Instr>, d: int, exit: int)
    ensures Move(a + b, d, exit) == Move(a, d, exit) + Move(b, d, exit)
  {}

  lemma {:induction false} MoveExpects(p: Str, from: int, d: int, exit: int)
    ensures Move(Expects(p, from), d, exit) == Expects(p, MovedAddress(from, d, exit))
    decreases |p|
  {
    if p != [] {
      MoveExpects(Rest(p), from, d, exit);
      MoveAppend([Expect(p, from)], Expects(Rest(p), from), d, exit);
    }
  }

  lemma {:induction false} MoveBranches(cs: seq<Trie>, sub: nat, d: int, exit: int)
    ensures Move(Branches(cs, sub), d, exit) == Branches(cs, sub + d)
  {
    if cs != [] {
      MoveBranches(cs[1..], sub + ChildLen(cs[0]), d, exit);
      MoveAppend([Branch(cs[0].prefix, sub)], Branches(cs[1..], sub + ChildLen(cs[0])), d, exit);
    }
  }

  lemma MoveHead(seg: Segment, dp: nat, sub: nat, d: int, exit: int)
    ensures Move(Head(seg, dp, sub), d, exit) == Head(seg, dp, sub + d)
  {
    var front := [SetCursor(dp)] + (if seg.route == -1 then [] else [RunRoute(seg.route)]);
    MoveBranches(seg.children, sub, d, exit);
    MoveAppend(front, Branches(seg.children, sub), d, exit);
    assert Move(front, d, exit) == front;
  }

  lemma {:induction false} MoveHeads(segs: seq<Segment>, dp: nat, sub: nat, d: int, exit: int)
    ensures Move(Heads(segs, dp, sub), d, exit) == Heads(segs, dp, sub + d)
  {
    if segs != [] {
      var sub' := sub + ChildrenLen(segs[0].children);
      MoveHead(segs[0], dp, sub, d, exit);
      MoveHeads(segs[1..], dp, sub', d, exit);
      MoveAppend(Head(segs[0], dp, sub), Heads(segs[1..], dp, sub'), d, exit);
    }
  }

  lemma {:induction false} MoveChildren(cs: seq<Trie>, dp: nat, sub: nat, from: int, d: int, exit: int)
    requires from >= -1
    ensures Move(Children(cs, dp, sub, from), d, exit) == Children(cs, dp, sub + d, MovedAddress(from, d, exit))
    decreases cs
  {
    if cs != [] {
      var n := ExpectsLen(Rest(cs[0].prefix));
      var a := Expects(Rest(cs[0].prefix), from);
      var b := Assemble(cs[0].segments, dp + |cs[0].prefix|, sub + n, from);
      var c := Children(cs[1..], dp, sub + ChildLen(cs[0]), from);
      MoveExpects(Rest(cs[0].prefix), from, d, exit);
      MoveAssembled(cs[0].segments, dp + |cs[0].prefix|, sub + n, from, d, exit);
      MoveChildren(cs[1..], dp, sub + ChildLen(cs[0]), from, d, exit);
      MoveAppend(a + b, c, d, exit);
      MoveAppend(a, b, d, exit);
    }
  }

  lemma {:induction false} MoveSubs(segs: seq<Segment>, dp: nat, head: nat, sub: nat, d: int, exit: int)
    ensures Move(Subs(segs, dp, head, sub), d, exit) == Subs(segs, dp, head + d, sub + d)
    decreases segs, 0
  {
    if segs != [] {
      var next := head + HeadLen(segs[0]);
      var sub' := sub + ChildrenLen(segs[0].children);
      MoveChildren(segs[0].children, dp, sub, next, d, exit);
      MoveSubs(segs[1..], dp, next, sub', d, exit);
      MoveAppend(Children(segs[0].children, dp, sub, next), Subs(segs[1..], dp, next, sub'), d, exit);
    }
  }

  /** Linking code assembled for one place and an open exit gives exactly the code
      assembled for the new place and exit: every operand lands on its target. */
  lemma {:induction false} MoveAssembled(segs: seq<Segment>, dp: nat, base: nat, from: int, d: int, exit: int)
    requires from >= -1
    ensures Move(Assemble(segs, dp, base, from), d, exit) == Assemble(segs, dp, base + d, MovedAddress(from, d, exit))
    decreases segs, 1
  {
    var subs := base + HeadsLen(segs) + 1;
    MoveHeads(segs, dp, subs, d, exit);
    MoveSubs(segs, dp, base, subs, d, exit);
    MoveAppend(Heads(segs, dp, subs) + [Wildcard(from)], Subs(segs, dp, base, subs), d, exit);
    MoveAppend(Heads(segs, dp, subs), [Wildcard(from)], d, exit);
    assert Move([Wildcard(from)], d, exit) == [Wildcard(MovedAddress(from, d, exit))];
  }

  // ----- the -1 that survives -----

  ghost predicate Linked(code: seq<Instr>) {
    forall k | 0 <= k < |code| :: code[k].i != -1
  }

  lemma {:induction false} LinkedExpects(p: Str, exit: nat)
    ensures Linked(Expects(p, exit))
    decreases |p|
  {
    if p != [] {
      LinkedExpects(Rest(p), exit);
    }
  }

  lemma {:induction false} LinkedBranches(cs: seq<Trie>, sub: nat)
    ensures Linked(Branches(cs, sub))
  {
    if cs != [] {
      LinkedBranches(cs[1..], sub + ChildLen(cs[0]));
    }
  }

  lemma {:induction false} LinkedHeads(segs: seq<Segment>, dp: nat, sub: nat)
    ensures Linked(Heads(segs, dp, sub))
  {
    if segs != [] {
      LinkedBranches(segs[0].children, sub);
      LinkedHeads(segs[1..], dp, sub + ChildrenLen(segs[0].children));
    }
  }

  lemma {:induction false} LinkedChildren(cs: seq<Trie>, dp: nat, sub: nat, exit: nat)
    ensures Linked(Children(cs, dp, sub, exit))
    decreases cs
  {
    if cs != [] {
      LinkedExpects(Rest(cs[0].prefix), exit);
      LinkedAssembled(cs[0].segments, dp + |cs[0].prefix|, sub + ExpectsLen(Rest(cs[0].prefix)), exit);
      LinkedChildren(cs[1..], dp, sub + ChildLen(cs[0]), exit);
    }
  }

  lemma {:induction false} LinkedSubs(segs: seq<Segment>, dp: nat, head: nat, sub: nat)
    ensures Linked(Subs(segs, dp, head, sub))
    decreases segs, 0
  {
    if segs != [] {
      var next := head + HeadLen(segs[0]);
      LinkedChildren(segs[0].children, dp, sub, next);
      LinkedSubs(segs[1..], dp, next, sub + ChildrenLen(segs[0].children));
    }
  }

  lemma {:induction false} LinkedAssembled(segs: seq<Segment>, dp: nat, base: nat, exit: nat)
    ensures Linked(Assemble(segs, dp, base, exit))
    decreases segs, 1
  {
    LinkedHeads(segs, dp, base + HeadsLen(segs) + 1);
    LinkedSubs(segs, dp, base, base + HeadsLen(segs) + 1);
  }

  /** Exactly one -1 is left in the code of a trie with an open exit: the jump
      between the heads and the subs. */
  lemma OneOpenExit(segs: seq<Segment>, dp: nat, base: nat)
    ensures var code := Assemble(segs, dp, base, -1);
            |code| == TrieLen(segs)
            && forall k | 0 <= k < |code| :: code[k].i == -1 <==> k == HeadsLen(segs)
  {
    var subs := base + HeadsLen(segs) + 1;
    HeadsLength(segs, dp, subs);
    SubsLength(segs, dp, base, subs);
    LinkedHeads(segs, dp, subs);
    LinkedSubs(segs, dp, base, subs);
  }

  // ----- the source's encoder -----

  lemma MovedPrefix(code: seq<Instr>, now: seq<Instr>, d: int, exit: int)
    requires |now| == |code| && forall k | 0 <= k < |code| :: now[k] == MoveOne(code[k], d, exit)
    ensures now == Move(code, d, exit)
  {}

  /** web/bytecode_compiler.go:190-196 */
  method ShiftHead(code: seq<Instr>, d: int) returns (mm: seq<Instr>)
    requires Linked(code)
    ensures mm == Move(code, d, -1)
  {
    mm := code;
    for j := 0 to |code|
      invariant |mm| == |code|
      invariant forall k | 0 <= k < |code| :: mm[k] == if k < j then MoveOne(code[k], d, -1) else code[k]
    {
      if mm[j].mode & (ROUTE | SET_CURSOR) != 0 {
        continue;
      }
      mm := mm[j := mm[j].(i := mm[j].i + d)];
    }
    MovedPrefix(code, mm, d, -1);
  }

  /** web/bytecode_compiler.go:206-215 */
  method LinkSub(code: seq<Instr>, d: int, next: int) returns (sub: seq<Instr>)
    ensures sub == Move(code, d, next)
  {
    sub := code;
    for j := 0 to |code|
      invariant |sub| == |code|
      invariant forall k | 0 <= k < |code| :: sub[k] == if k < j then MoveOne(code[k], d, next) else code[k]
    {
      if sub[j].mode & (ROUTE | SET_CURSOR) != 0 {
        continue;
      }
      if sub[j].i == -1 {
        sub := sub[j := sub[j].(i := next)];
      } else {
        sub := sub[j := sub[j].(i := sub[j].i + d)];
      }
    }
    MovedPrefix(code, sub, d, next);
  }

  lemma HeadIsLinked(seg: Segment, dp: nat)
    ensures Linked(Head(seg, dp, 0))
  {
    LinkedBranches(seg.children, 0);
  }

  ghost predicate EncodedAtZero(segs: seq<Segment>, dp: nat, ms: seq<seq<Instr>>, subs: seq<seq<Instr>>) {
    |ms| == |subs| == |segs| && forall k: nat | k < |segs| :: AtZero(segs[k], dp, ms[k], subs[k])
  }

  ghost predicate AtZero(seg: Segment, dp: nat, me: seq<Instr>, sub: seq<Instr>) {
    me == Head(seg, dp, 0) && sub == Children(seg.children, dp, 0, -1)
  }

  lemma AtZeroLengths(seg: Segment, dp: nat, me: seq<Instr>, sub: seq<Instr>)
    requires AtZero(seg, dp, me, sub)
    ensures |me| == HeadLen(seg) && |sub| == ChildrenLen(seg.children)
  {
    HeadLength(seg, dp, 0);
    ChildrenLength(seg.children, dp, 0, -1);
  }

  /** web/bytecode_compiler.go:175-220. Encoding every segment at zero and linking
      the pieces in place is the same as assembling the trie at `off`. */
  method EncodeTrie(t: Trie, dp: nat, off: nat) returns (m: seq<Instr>)
    ensures m == Assemble(t.segments, dp, off, -1)
    decreases t.segments, 2
  {
    var ms, subs, msl := EncodeSegments(t.segments, dp);
    m := LinkHeads(t.segments, dp, off, ms, subs, msl);
    HeadsLength(t.segments, dp, off + msl + 1);
    m := m + [Wildcard(-1)];
    m := LinkSubs(t.segments, dp, off, ms, subs, m);
  }

  /** web/bytecode_compiler.go:176-184 */
  method EncodeSegments(segs: seq<Segment>, dp: nat) returns (ms: seq<seq<Instr>>, subs: seq<seq<Instr>>, msl: nat)
    ensures EncodedAtZero(segs, dp, ms, subs) && msl == HeadsLen(segs)
    decreases segs, 1
  {
    ms, subs, msl := [], [], 0;
    for i := 0 to |segs|
      invariant |ms| == |subs| == i
      invariant forall k: nat | k < i :: AtZero(segs[k], dp, ms[k], subs[k])
      invariant msl + HeadsLen(segs[i..]) == HeadsLen(segs)
    {
      var me, sub := EncodeSegment(segs[i], dp, 0);
      assert AtZero(segs[i], dp, me, sub);
      AtZeroLengths(segs[i], dp, me, sub);
      ms, subs := ms + [me], subs + [sub];
      msl := msl + |me|;
      assert segs[i..][1..] == segs[i + 1..];
    }
  }

  /** web/bytecode_compiler.go:188-199 */
  method LinkHeads(segs: seq<Segment>, dp: nat, off: nat, ms: seq<seq<Instr>>, subs: seq<seq<Instr>>, msl: nat) returns (m: seq<Instr>)
    requires EncodedAtZero(segs, dp, ms, subs)
    ensures m == Heads(segs, dp, off + msl + 1)
  {
    hide Head, Children, Assemble;
    var subl := 0;
    m := [];
    for i := 0 to |segs|
      invariant 0 <= subl
      invariant m + Heads(segs[i..], dp, off + msl + 1 + subl) == Heads(segs, dp, off + msl + 1)
    {
      assert AtZero(segs[i], dp, ms[i], subs[i]);
      assert segs[i..][1..] == segs[i + 1..];
      m := AppendHead(m, segs[i..], dp, off + msl + 1 + subl, ms[i], subs[i]);
      subl := subl + |subs[i]|;
    }
  }

  /** One turn of the loop above, for the first of the segments left. */
  method AppendHead(m: seq<Instr>, segs: seq<Segment>, dp: nat, at: nat, me: seq<Instr>, sub: seq<Instr>) returns (r: seq<Instr>)
    requires segs != [] && AtZero(segs[0], dp, me, sub)
    ensures r + Heads(segs[1..], dp, at + |sub|) == m + Heads(segs, dp, at)
  {
    hide Head, Heads, Children;
    AtZeroLengths(segs[0], dp, me, sub);
    HeadIsLinked(segs[0], dp);
    var mm := ShiftHead(me, at);
    MoveHead(segs[0], dp, 0, at, -1);
    HeadsUnfold(segs, dp, at, m);
    r := m + mm;
  }

  /** web/bytecode_compiler.go:203-217 */
  method LinkSubs(segs: seq<Segment>, dp: nat, off: nat, ms: seq<seq<Instr>>, subs: seq<seq<Instr>>, front: seq<Instr>) returns (m: seq<Instr>)
    requires EncodedAtZero(segs, dp, ms, subs)
    ensures m == front + Subs(segs, dp, off, off + |front|)
  {
    m := front;
    var msl := 0;
    for i := 0 to |segs|
      invariant 0 <= msl
      invariant m + Subs(segs[i..], dp, off + msl, off + |m|) == front + Subs(segs, dp, off, off + |front|)
    {
      assert AtZero(segs[i], dp, ms[i], subs[i]);
      assert segs[i..][1..] == segs[i + 1..];
      m := AppendSub(m, segs[i..], dp, off, msl, ms[i], subs[i]);
      msl := msl + |ms[i]|;
    }
  }

  /** One turn of the loop above, for the first of the segments left. */
  method AppendSub(m: seq<Instr>, segs: seq<Segment>, dp: nat, off: nat, msl: nat, me: seq<Instr>, sub: seq<Instr>) returns (r: seq<Instr>)
    requires segs != [] && AtZero(segs[0], dp, me, sub)
    ensures r + Subs(segs[1..], dp, off + msl + |me|, off + |r|) == m + Subs(segs, dp, off + msl, off + |m|)
  {
    hide Children, Subs, Head, Assemble;
    AtZeroLengths(segs[0], dp, me, sub);
    var linked := LinkSub(sub, off + |m|, off + (msl + |me|));
    MoveChildren(segs[0].children, dp, 0, -1, off + |m|, off + (msl + |me|));
    SubsUnfold(segs, dp, off + msl, off + |m|, m);
    r := m + linked;
  }

  lemma HeadsUnfold(segs: seq<Segment>, dp: nat, sub: int, m: seq<Instr>)
    requires segs != []
    ensures m + Heads(segs, dp, sub) == m + Head(segs[0], dp, sub) + Heads(segs[1..], dp, sub + ChildrenLen(segs[0].children))
  {}

  lemma SubsUnfold(segs: seq<Segment>, dp: nat, head: int, sub: int, m: seq<Instr>)
    requires segs != []
    ensures var next := head + HeadLen(segs[0]);
            m + Subs(segs, dp, head, sub)
            == m + Children(segs[0].children, dp, sub, next) + Subs(segs[1..], dp, next, sub + ChildrenLen(segs[0].children))
  {}

  lemma ChildrenUnfold(cs: seq<Trie>, dp: nat, sub: int, m: seq<Instr>)
    requires cs != []
    ensures var n := ExpectsLen(Rest(cs[0].prefix));
            m + Children(cs, dp, sub, -1)
            == m + Expects(Rest(cs[0].prefix), -1) + Assemble(cs[0].segments, dp + |cs[0].prefix|, sub + n, -1)
               + Children(cs[1..], dp, sub + ChildLen(cs[0]), -1)
  {
    hide Expects, Assemble, ExpectsLen, TrieLen;
  }

  /** web/bytecode_compiler.go:241-246: the rest of a prefix, three bytes at a time. */
  method AppendExpects(sub: seq<Instr>, prefix: Str) returns (r: seq<Instr>)
    ensures r == sub + Expects(Rest(prefix), -1)
  {
    r := sub;
    var p := prefix;
    var bc := Min3(|p|);
    while |p| > bc
      invariant bc == Min3(|p|)
      invariant r + Expects(Rest(p), -1) == sub + Expects(Rest(prefix), -1)
      decreases |p|
    {
      p := p[bc..];
      bc := Min3(|p|);
      r := r + [Load(LengthBits(bc), p, -1)];
    }
  }

  /** web/bytecode_compiler.go:222-251 */
  method EncodeSegment(ts: Segment, dp: nat, off: nat) returns (me: seq<Instr>, sub: seq<Instr>)
    ensures me == Head(ts, dp, off)
    ensures sub == Children(ts.children, dp, off, -1)
    decreases ts, 1
  {
    hide Children, Assemble, Branch, Branches, ChildLen, LengthBits, Load;
    var cs := ts.children;
    var o := if ts.route != -1 then 2 else 1;
    me := seq(|cs| + o, _ => Instr(0, 0, 0, 0, 0));
    me := me[0 := SetCursor(dp)];
    if ts.route != -1 {
      me := me[1 := RunRoute(ts.route)];
    }
    sub := [];
    for i := 0 to |cs|
      invariant |me| == |cs| + o
      invariant me[..i + o] + Branches(cs[i..], off + |sub|) == Head(ts, dp, off)
      invariant sub + Children(cs[i..], dp, off + |sub|, -1) == Children(cs, dp, off, -1)
    {
      assert cs[i..][1..] == cs[i + 1..];
      StoreBranch(me, i + o, cs[i..], off + |sub|);
      var bc := Min3(|cs[i].prefix|);
      BranchIsLoad(cs[i].prefix, off + |sub|);
      me := me[i + o := Load(LengthBits(bc) | JUMP_ON_MATCH, cs[i].prefix, off + |sub|)];
      sub := AppendChild(sub, cs[i..], dp, off);
    }
    assert me[..|cs| + o] == me;
    NoChildren(dp, off + |sub|, -1);
    NoBranches(off + |sub|);
  }

  lemma BranchIsLoad(p: Str, target: int)
    ensures Branch(p, target) == Load(LengthBits(Min3(|p|)) | JUMP_ON_MATCH, p, target)
  {}

  lemma NoBranches(sub: int)
    ensures Branches([], sub) == []
  {}

  lemma NoChildren(dp: nat, sub: int, exit: int)
    ensures Children([], dp, sub, exit) == []
  {}

  lemma StoreBranch(me: seq<Instr>, k: nat, cs: seq<Trie>, sub: int)
    requires cs != [] && k < |me|
    ensures var me' := me[k := Branch(cs[0].prefix, sub)];
            me'[..k + 1] + Branches(cs[1..], sub + ChildLen(cs[0])) == me[..k] + Branches(cs, sub)
  {
    hide Branch, ChildLen;
    var x := Branch(cs[0].prefix, sub);
    StoreNext(me, k, x);
    Assoc(me[..k], [x], Branches(cs[1..], sub + ChildLen(cs[0])));
  }

  /** web/bytecode_compiler.go:241-248, for the first of the children left. */
  method AppendChild(sub: seq<Instr>, cs: seq<Trie>, dp: nat, off: nat) returns (r: seq<Instr>)
    requires cs != []
    ensures |r| == |sub| + ChildLen(cs[0])
    ensures r + Children(cs[1..], dp, off + |r|, -1) == sub + Children(cs, dp, off + |sub|, -1)
    decreases cs, 0
  {
    hide Children, Expects, Assemble, ExpectsLen, TrieLen;
    var t := cs[0];
    ChildrenUnfold(cs, dp, off + |sub|, sub);
    ExpectsLength(Rest(t.prefix), -1);
    r := AppendExpects(sub, t.prefix);
    AssembleLength(t.segments, dp + |t.prefix|, off + |r|, -1);
    var code := EncodeTrie(t, dp + |t.prefix|, off + |r|);
    r := r + code;
  }

  // ----- compile -----

  function Flagged(code: seq<Instr>): (r: seq<Instr>)
    ensures |r| == |code|
  {
    seq(|code|, k requires 0 <= k < |code| => if code[k].i == -1 then code[k].(mode := code[k].mode | FAIL) else code[k])
  }

  lemma FlaggedAppend(a: seq<Instr>, b: seq<Instr>)
    ensures Flagged(a + b) == Flagged(a) + Flagged(b)
  {}

  /** The machine for a trie: its code at address zero, where the jump out of the
      trie gives up instead. */
  function Machine(t: Trie): seq<Instr> {
    var subs := HeadsLen(t.segments) + 1;
    Heads(t.segments, 0, subs) + [Wildcard(-1).(mode := JUMP_ON_MATCH | FAIL)] + Subs(t.segments, 0, 0, subs)
  }

  lemma FlaggedIsMachine(t: Trie)
    ensures Flagged(Assemble(t.segments, 0, 0, -1)) == Machine(t)
  {
    var subs := HeadsLen(t.segments) + 1;
    LinkedHeads(t.segments, 0, subs);
    LinkedSubs(t.segments, 0, 0, subs);
    FlaggedAppend(Heads(t.segments, 0, subs) + [Wildcard(-1)], Subs(t.segments, 0, 0, subs));
    FlaggedAppend(Heads(t.segments, 0, subs), [Wildcard(-1)]);
  }

  /** What compiling a route list gives: nothing for no routes, else the machine of
      a trie that holds exactly these routes. */
  ghost predicate IsCompiled(sm: seq<Instr>, routes: seq<Route>) {
    if routes == [] then sm == [] else exists t :: TrieFor(t, routes) && sm == Machine(t)
  }

  /** web/bytecode_compiler.go:253-265 */
  method Compile(routes: seq<Route>) returns (m: seq<Instr>)
    requires Ordered(routes)
    ensures IsCompiled(m, routes)
  {
    if |routes| == 0 {
      return [];
    }
    var t := BuildTrie(routes, 0, 0, routes, []);
    var code := EncodeTrie(t, 0, 0);
    m := code;
    for i := 0 to |code|
      invariant |m| == |code|
      invariant forall k | 0 <= k < |code| :: m[k] == if k < i then Flagged(code)[k] else code[k]
    {
      if m[i].i == -1 {
        m := m[i := m[i].(mode := m[i].mode | FAIL)];
      }
    }
    assert m == Flagged(code);
    FlaggedIsMachine(t);
    assert TrieFor(t, routes);
  }
}
