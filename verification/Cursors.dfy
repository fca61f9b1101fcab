/** Runner safety at every SetCursor (web/bytecode_runner.go:34-40): the path is long
    enough, and starts with the node of the trie that the machine is at. */
module Cursors {
  import opened Bytes
  import opened Options
  import opened Routing
  import opened Tries
  import opened Bytecode
  import opened Nodes
  import opened Machines

  /** The instruction sets the cursor exactly if it begins a segment of this node, and
      then to the length of what the node spells. */
  predicate Marks(x: Instr, node: Option<Str>) {
    match node
    case Some(spelled) => x == SetCursor(|spelled|)
    case None => x.mode & SET_CURSOR == 0
  }

  ghost predicate NoCursors(code: seq<Instr>) {
    forall k: nat | k < |code| :: Marks(code[k], None)
  }

  lemma NoCursorBit(n: nat)
    requires n <= 3
    ensures LengthBits(n) & SET_CURSOR == 0 && (LengthBits(n) | JUMP_ON_MATCH) & SET_CURSOR == 0
  {
    if n == 0 {
    } else {
      ModeBits(n);
    }
  }

  lemma {:induction false} ExpectsSetNoCursor(w: Str, exit: int)
    ensures NoCursors(Expects(w, exit))
    decreases |w|
  {
    if w != [] {
      NoCursorBit(Min3(|w|));
      ExpectsSetNoCursor(Rest(w), exit);
    }
  }

  lemma {:induction false} BranchesSetNoCursor(cs: seq<Trie>, sub: int)
    ensures NoCursors(Branches(cs, sub))
  {
    hide ChildLen;
    if cs != [] {
      NoCursorBit(Min3(|cs[0].prefix|));
      BranchesSetNoCursor(cs[1..], sub + ChildLen(cs[0]));
    }
  }

  lemma InCode(sm: seq<Instr>, at: int, code: seq<Instr>, x: int)
    requires HasCode(sm, at, code) && at <= x < at + |code|
    ensures 0 <= x < |sm| && sm[x] == code[x - at]
  {
    assert sm[at..at + |code|][x - at] == sm[x];
  }

  // ----- the code of a trie -----

  lemma HeadMarks(sm: seq<Instr>, seg: Segment, head: int, sub: int, spelled: Str, x: int)
    requires HasCode(sm, head, Head(seg, |spelled|, sub)) && head <= x < head + HeadLen(seg)
    ensures 0 <= x < |sm| && Marks(sm[x], if x == head then Some(spelled) else None)
  {
    hide HasCode, Branches, ChildLen;
    HeadLength(seg, |spelled|, sub);
    InCode(sm, head, Head(seg, |spelled|, sub), x);
    BranchesSetNoCursor(seg.children, sub);
  }

  lemma {:induction false} ChildMarks(sm: seq<Instr>, c: Trie, sub: int, exit: int, spelled: Str, x: int)
    requires ChildCode(sm, c, sub, exit, |spelled|) && sub <= x < sub + ChildLen(c)
    ensures 0 <= x < |sm| && Marks(sm[x], ChildNode(c, sub, spelled, x))
    decreases c, 1
  {
    hide HasCode, Expects, Assemble, TrieNode, Marks, Rest, TrieLen;
    var w := Rest(c.prefix);
    var base := sub + ExpectsLen(w);
    if x < base {
      ExpectsLength(w, exit);
      InCode(sm, sub, Expects(w, exit), x);
      ExpectsSetNoCursor(w, exit);
    } else {
      TrieMarks(sm, c.segments, base, exit, spelled + c.prefix, x);
    }
  }

  lemma {:induction false} ChildrenMarks(sm: seq<Instr>, cs: seq<Trie>, at: int, sub: int, exit: int, spelled: Str, x: int)
    requires 0 <= at && 0 <= sub && HasCode(sm, at, Branches(cs, sub)) && HasCode(sm, sub, Children(cs, |spelled|, sub, exit))
    requires sub <= x < sub + ChildrenLen(cs)
    ensures 0 <= x < |sm| && Marks(sm[x], NodeBelow(cs, sub, spelled, x))
    decreases cs, 1
  {
    hide HasCode, Children, Branches, ChildCode, ChildNode, Marks, ChildLen, Branch;
    ChildrenCode(sm, cs, at, sub, exit, |spelled|);
    if x < sub + ChildLen(cs[0]) {
      ChildMarks(sm, cs[0], sub, exit, spelled, x);
    } else {
      ChildrenMarks(sm, cs[1..], at + 1, sub + ChildLen(cs[0]), exit, spelled, x);
    }
  }

  lemma {:induction false} SegmentMarks(sm: seq<Instr>, seg: Segment, head: int, sub: int, spelled: Str, x: int)
    requires 0 <= head && head + HeadLen(seg) < sub && HasCode(sm, head, Head(seg, |spelled|, sub))
    requires HasCode(sm, sub, Children(seg.children, |spelled|, sub, head + HeadLen(seg)))
    requires head <= x < head + HeadLen(seg) || sub <= x < sub + ChildrenLen(seg.children)
    ensures 0 <= x < |sm| && Marks(sm[x], SegmentNode(seg, head, sub, spelled, x))
    decreases seg, 2
  {
    hide HasCode, Children, Branches, NodeBelow, Marks, ChildrenLen;
    if x < sub {
      HeadMarks(sm, seg, head, sub, spelled, x);
      NoNodeBelow(seg.children, sub, spelled, x);
    } else {
      BranchesAt(sm, seg, head, sub, |spelled|);
      ChildrenMarks(sm, seg.children, head + OwnLen(seg), sub, head + HeadLen(seg), spelled, x);
    }
  }

  lemma BranchesAt(sm: seq<Instr>, seg: Segment, head: int, sub: int, dp: nat)
    requires 0 <= head && HasCode(sm, head, Head(seg, dp, sub))
    ensures HasCode(sm, head + OwnLen(seg), Branches(seg.children, sub))
  {
    hide HasCode, Branches;
    CodeSplit(sm, head, [SetCursor(dp)] + (if seg.route == -1 then [] else [RunRoute(seg.route)]), Branches(seg.children, sub));
  }

  lemma {:induction false} SegmentsMarks(sm: seq<Instr>, segs: seq<Segment>, head: int, sub: int, spelled: Str, x: int)
    requires 0 <= head && head + HeadsLen(segs) < sub
    requires HasCode(sm, head, Heads(segs, |spelled|, sub)) && HasCode(sm, sub, Subs(segs, |spelled|, head, sub))
    requires head <= x < head + HeadsLen(segs) || sub <= x < sub + SubsLen(segs)
    ensures 0 <= x < |sm| && Marks(sm[x], NodeAt(segs, head, sub, spelled, x))
    decreases segs, 1
  {
    hide HasCode, Head, Children, SegmentNode, Marks, HeadLen, ChildrenLen;
    var dp, next, sub' := |spelled|, head + HeadLen(segs[0]), sub + ChildrenLen(segs[0].children);
    HeadLength(segs[0], dp, sub);
    ChildrenLength(segs[0].children, dp, sub, next);
    CodeSplit(sm, head, Head(segs[0], dp, sub), Heads(segs[1..], dp, sub'));
    CodeSplit(sm, sub, Children(segs[0].children, dp, sub, next), Subs(segs[1..], dp, next, sub'));
    if head <= x < next || sub <= x < sub' {
      SegmentMarks(sm, segs[0], head, sub, spelled, x);
    } else {
      SegmentsMarks(sm, segs[1..], next, sub', spelled, x);
    }
  }

  lemma {:induction false} TrieMarks(sm: seq<Instr>, segs: seq<Segment>, base: int, exit: int, spelled: Str, x: int)
    requires 0 <= base && HasCode(sm, base, Assemble(segs, |spelled|, base, exit)) && base <= x < base + TrieLen(segs)
    ensures 0 <= x < |sm| && Marks(sm[x], TrieNode(segs, base, spelled, x))
    decreases segs, 2
  {
    hide HasCode, Assemble, NodeAt, Heads, Subs, Wildcard;
    var jump := base + HeadsLen(segs);
    TrieCode(sm, segs, base, exit, |spelled|);
    if x == jump {
      NoNodeOutside(segs, base, jump + 1, spelled, x);
      JumpSetsNoCursor(exit);
    } else {
      SegmentsMarks(sm, segs, base, jump + 1, spelled, x);
    }
  }

  lemma JumpSetsNoCursor(exit: int)
    ensures Marks(Wildcard(exit), None) && Marks(Wildcard(exit).(mode := JUMP_ON_MATCH | FAIL), None)
  {}

  /** The instructions that set the cursor are exactly those that begin a segment, and
      each sets it to the length of what its node spells. */
  lemma MachineMarks(t: Trie, x: int)
    requires 0 <= x < |Machine(t)|
    ensures Marks(Machine(t)[x], TrieNode(t.segments, 0, [], x))
  {
    hide Machine, HasCode, NodeAt, Heads, Subs, Wildcard;
    var sm, segs := Machine(t), t.segments;
    var jump := HeadsLen(segs);
    MachineCode(sm, t);
    if x == jump {
      NoNodeOutside(segs, 0, jump + 1, [], x);
      JumpSetsNoCursor(-1);
    } else {
      SegmentsMarks(sm, segs, 0, jump + 1, [], x);
    }
  }

  // ----- the runs -----

  lemma VisitedNow<C>(rm: RouteMachine, rq: Request<C>, st: Status<C>)
    requires st.Running?
    ensures Visits(rm, rq, st, 1, st.pc) == 1
  {
    StepFirst(rm, rq, st, 0, st.pc);
    StepsNone(rm, rq, Step(rm, rq, st), st.pc);
  }

  /** At every step of every run of compiled code the machine is at an instruction, and
      if that sets the cursor, it sets it to the end of what the current node spells,
      with which the path starts. */
  lemma CursorsFit<C>(rm: RouteMachine, rq: Request<C>, ctx: C, t: Trie, n: nat)
    requires TrieFor(t, rm.routes) && rm.sm == Machine(t)
    ensures var st := Steps(rm, rq, Running(0, rq.path, Initial(ctx)), n);
            st != Fault && (st.Running? ==>
              && 0 <= st.pc < |rm.sm|
              && (rm.sm[st.pc].mode & SET_CURSOR != 0 ==>
                    exists spelled: Str :: TrieNode(t.segments, 0, [], st.pc) == Some(spelled) && spelled <= rq.path && rm.sm[st.pc].i == |spelled|))
  {
    hide Step, Steps, Visits, Machine, TrieFor, TryAll, TrieNode;
    var st0 := Running(0, rq.path, Initial(ctx));
    var st := Steps(rm, rq, st0, n);
    var x := if st.Running? then st.pc else 0;
    var h := RunMachine(rm, rq, ctx, t, x);
    NoFaultBefore(rm, rq, st0, n, h);
    if st.Running? {
      VisitsAdd(rm, rq, st0, n, 1, x);
      VisitedNow(rm, rq, st);
      VisitsAdd(rm, rq, st0, n + 1, h - n - 1, x);
      MachineMarks(t, x);
    }
  }

  /** A run that halts at h has been running, without fault, until then. */
  lemma NoFaultBefore<C>(rm: RouteMachine, rq: Request<C>, st0: Status<C>, n: nat, h: nat)
    requires Steps(rm, rq, st0, h).Halted?
    ensures var st := Steps(rm, rq, st0, n);
            st != Fault && (st.Running? ==> n < h && 0 <= st.pc < |rm.sm|)
  {
    hide Steps;
    var st := Steps(rm, rq, st0, n);
    if n >= h {
      StepsAdd(rm, rq, st0, h, n - h);
      DoneStaysDone(rm, rq, Steps(rm, rq, st0, h), n - h);
    } else {
      StepsAdd(rm, rq, st0, n, h - n);
      if st == Fault {
        DoneStaysDone(rm, rq, st, h - n);
      } else if st.Running? && !(0 <= st.pc < |rm.sm|) {
        StepsAdd(rm, rq, st, 1, h - n - 1);
        StepFirst(rm, rq, st, 0, 0);
        StepsNone(rm, rq, Step(rm, rq, st), 0);
        DoneStaysDone(rm, rq, Step(rm, rq, st), h - n - 1);
      }
    }
  }
}
