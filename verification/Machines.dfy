/** What the bytecode means: a small-step semantics of the interpreter in
    web/bytecode_runner.go:23-83, and the proof that compiled code behaves as the
    naive router over the plausible routes. */
module Machines {
  import opened Bytes
  import opened Sequences
  import opened Routing
  import opened Tries
  import opened Bytecode
  import opened Nodes

  datatype RouteMachine = RouteMachine(sm: seq<Instr>, routes: seq<Route>)

  /** At instruction pc with p left of the path, or done. Fault is whatever must
      never happen: leaving the code, a bad operand, or coming to a route anywhere
      but right behind its own prefix. */
  datatype Status<C> = Running(pc: int, p: Str, s: Progress<C>) | Halted(out: Outcome<C>) | Fault

  function LengthOf(mode: bv8): nat {
    var n := mode & LENGTH_MASK;
    if n == 0 then 0 else if n == 1 then 1 else if n == 2 then 2 else 3
  }

  predicate Hits(x: Instr, p: Str) {
    var n := LengthOf(x.mode);
    && n <= |p|
    && (n > 0 ==> p[0] == x.b0)
    && (n > 1 ==> p[1] == x.b1)
    && (n > 2 ==> p[2] == x.b2)
  }

  function Step<C>(rm: RouteMachine, rq: Request<C>, st: Status<C>): Status<C> {
    if !st.Running? then st
    else if !(0 <= st.pc < |rm.sm|) then Fault
    else
      var x := rm.sm[st.pc];
      if x.mode & SET_CURSOR != 0 then
        if 0 <= x.i <= |rq.path| then Running(st.pc + 1, rq.path[x.i..], st.s) else Fault
      else
        var hit := Hits(x, st.p);
        var p := if hit then st.p[LengthOf(x.mode)..] else st.p;
        if hit && x.mode & ROUTE != 0 then
          if !(0 <= x.i < |rm.routes|) then Fault
          else if !(rm.routes[x.i].prefix + p == rq.path) then Fault
          else
            match TryRoute(rm.routes[x.i], rq, st.s)
            case Took(r, at) => Halted(Took(r, at))
            case Missed(at) => Running(st.pc + 1, p, at)
        else if hit != (x.mode & JUMP_ON_MATCH == 0) then
          if x.mode & FAIL != 0 then Halted(Missed(st.s)) else Running(x.i, p, st.s)
        else Running(st.pc + 1, p, st.s)
  }

  function Steps<C>(rm: RouteMachine, rq: Request<C>, st: Status<C>, n: nat): Status<C>
    decreases n
  {
    if n == 0 then st else Steps(rm, rq, Step(rm, rq, st), n - 1)
  }

  lemma {:induction false} StepsAdd<C>(rm: RouteMachine, rq: Request<C>, st: Status<C>, a: nat, b: nat)
    ensures Steps(rm, rq, st, a + b) == Steps(rm, rq, Steps(rm, rq, st, a), b)
    decreases a
  {
    hide Step, Visits;
    if a > 0 {
      StepsAdd(rm, rq, Step(rm, rq, st), a - 1, b);
    }
  }

  lemma StepFirst<C>(rm: RouteMachine, rq: Request<C>, st: Status<C>, n: nat, x: int)
    ensures Steps(rm, rq, st, n + 1) == Steps(rm, rq, Step(rm, rq, st), n)
    ensures Visits(rm, rq, st, n + 1, x) == (if st.Running? && st.pc == x then 1 else 0) + Visits(rm, rq, Step(rm, rq, st), n, x)
  {}

  /** How often the first n steps execute instruction x. */
  function Visits<C>(rm: RouteMachine, rq: Request<C>, st: Status<C>, n: nat, x: int): nat
    decreases n
  {
    if n == 0 then 0
    else (if st.Running? && st.pc == x then 1 else 0) + Visits(rm, rq, Step(rm, rq, st), n - 1, x)
  }

  lemma {:induction false} VisitsAdd<C>(rm: RouteMachine, rq: Request<C>, st: Status<C>, a: nat, b: nat, x: int)
    ensures Visits(rm, rq, st, a + b, x) == Visits(rm, rq, st, a, x) + Visits(rm, rq, Steps(rm, rq, st, a), b, x)
    decreases a
  {
    hide Step;
    if a > 0 {
      VisitsAdd(rm, rq, Step(rm, rq, st), a - 1, b, x);
    }
  }

  lemma StepsNone<C>(rm: RouteMachine, rq: Request<C>, st: Status<C>, x: int)
    ensures Steps(rm, rq, st, 0) == st && Visits(rm, rq, st, 0, x) == 0
  {}

  // ----- one instruction -----

  lemma StepSetCursor<C>(rm: RouteMachine, rq: Request<C>, pc: nat, p: Str, s: Progress<C>, dp: nat)
    requires pc < |rm.sm| && rm.sm[pc] == SetCursor(dp) && dp <= |rq.path|
    ensures Step(rm, rq, Running(pc, p, s)) == Running(pc + 1, rq.path[dp..], s)
  {}

  lemma StepRoute<C>(rm: RouteMachine, rq: Request<C>, pc: nat, p: Str, s: Progress<C>, r: nat)
    requires pc < |rm.sm| && rm.sm[pc] == RunRoute(r)
    requires r < |rm.routes| && rm.routes[r].prefix + p == rq.path
    ensures Step(rm, rq, Running(pc, p, s)) ==
            match TryRoute(rm.routes[r], rq, s)
            case Took(x, at) => Halted(Took(x, at))
            case Missed(at) => Running(pc + 1, p, at)
  {
    assert LengthOf(ROUTE) == 0;
    assert p[0..] == p;
  }

  lemma StepWildcard<C>(rm: RouteMachine, rq: Request<C>, pc: nat, p: Str, s: Progress<C>, exit: int)
    requires pc < |rm.sm| && rm.sm[pc] == Wildcard(exit)
    ensures Step(rm, rq, Running(pc, p, s)) == Running(exit, p, s)
  {
    assert LengthOf(JUMP_ON_MATCH) == 0;
    assert p[0..] == p;
  }

  lemma StepGiveUp<C>(rm: RouteMachine, rq: Request<C>, pc: nat, p: Str, s: Progress<C>)
    requires pc < |rm.sm| && rm.sm[pc] == Wildcard(-1).(mode := JUMP_ON_MATCH | FAIL)
    ensures Step(rm, rq, Running(pc, p, s)) == Halted(Missed(s))
  {
    assert LengthOf(JUMP_ON_MATCH | FAIL) == 0;
  }

  function Begin(p: Str): Str {
    p[..Min3(|p|)]
  }

  lemma ModeBits(n: nat)
    requires 0 < n <= 3
    ensures var b := LengthBits(n);
            && LengthOf(b) == n && b & SET_CURSOR == 0 && b & ROUTE == 0 && b & JUMP_ON_MATCH == 0 && b & FAIL == 0
    ensures var b := LengthBits(n) | JUMP_ON_MATCH;
            && LengthOf(b) == n && b & SET_CURSOR == 0 && b & ROUTE == 0 && b & JUMP_ON_MATCH != 0 && b & FAIL == 0
  {
    if n == 1 {
    } else if n == 2 {
    } else {
    }
  }

  lemma HitsPrefix(mode: bv8, w: Str, i: int, p: Str)
    requires w != [] && LengthOf(mode) == Min3(|w|)
    ensures Hits(Load(mode, w, i), p) <==> Begin(w) <= p
  {
    hide LengthOf;
    var n := Min3(|w|);
    if n <= |p| {
      assert Begin(w) <= p <==> (forall k | 0 <= k < n :: w[k] == p[k]);
    }
  }

  lemma StepBranch<C>(rm: RouteMachine, rq: Request<C>, pc: nat, p: Str, s: Progress<C>, w: Str, target: int)
    requires pc < |rm.sm| && w != [] && rm.sm[pc] == Branch(w, target)
    ensures Step(rm, rq, Running(pc, p, s)) ==
            if Begin(w) <= p then Running(target, p[Min3(|w|)..], s) else Running(pc + 1, p, s)
  {
    hide LengthOf, LengthBits, Hits;
    ModeBits(Min3(|w|));
    HitsPrefix(LengthBits(Min3(|w|)) | JUMP_ON_MATCH, w, target, p);
  }

  lemma StepExpect<C>(rm: RouteMachine, rq: Request<C>, pc: nat, p: Str, s: Progress<C>, w: Str, exit: int)
    requires pc < |rm.sm| && w != [] && rm.sm[pc] == Expect(w, exit)
    ensures Step(rm, rq, Running(pc, p, s)) ==
            if Begin(w) <= p then Running(pc + 1, p[Min3(|w|)..], s) else Running(exit, p, s)
  {
    hide LengthOf, LengthBits, Hits;
    ModeBits(Min3(|w|));
    HitsPrefix(LengthBits(Min3(|w|)), w, exit, p);
  }

  // ----- code in place -----

  ghost predicate HasCode(sm: seq<Instr>, at: int, code: seq<Instr>) {
    0 <= at && at + |code| <= |sm| && sm[at..at + |code|] == code
  }

  lemma CodeSplit(sm: seq<Instr>, at: int, a: seq<Instr>, b: seq<Instr>)
    requires HasCode(sm, at, a + b)
    ensures HasCode(sm, at, a) && HasCode(sm, at + |a|, b)
  {
    SliceOfSlice(sm, at, at + |a + b|, 0, |a|);
    SliceOfSlice(sm, at, at + |a + b|, |a|, |a + b|);
    assert (a + b)[0..|a|] == a && (a + b)[|a|..|a + b|] == b;
  }

  lemma CodeHead(sm: seq<Instr>, at: int, x: Instr, b: seq<Instr>)
    requires HasCode(sm, at, [x] + b)
    ensures 0 <= at < |sm| && sm[at] == x && HasCode(sm, at + 1, b)
  {
    CodeSplit(sm, at, [x], b);
    assert sm[at..at + 1][0] == sm[at];
  }

  // ----- simulation -----

  /** The run has come to where the outcome says: halted with the route taken, or
      at pc with nothing taken. */
  ghost predicate Lands<C>(st: Status<C>, o: Outcome<C>, pc: int) {
    match o
    case Took(_, _) => st == Halted(o)
    case Missed(s) => st.Running? && st.pc == pc && st.s == s
  }

  lemma {:induction false} RunExpects<C>(rm: RouteMachine, rq: Request<C>, w: Str, at: int, p: Str, s: Progress<C>, exit: int, x: int) returns (n: nat)
    requires HasCode(rm.sm, at, Expects(w, exit))
    ensures n <= ExpectsLen(w) && Visits(rm, rq, Running(at, p, s), n, x) <= Within(x, at, ExpectsLen(w))
    ensures w <= p ==> Steps(rm, rq, Running(at, p, s), n) == Running(at + ExpectsLen(w), p[|w|..], s)
    ensures !(w <= p) ==> Lands(Steps(rm, rq, Running(at, p, s), n), Missed(s), exit)
    decreases |w|
  {
    hide Step, Expect, Steps, Visits;
    if w == [] {
      n := 0;
      StepsNone(rm, rq, Running(at, p, s), x);
      assert p[0..] == p;
    } else {
      CodeHead(rm.sm, at, Expect(w, exit), Expects(Rest(w), exit));
      StepExpect(rm, rq, at, p, s, w, exit);
      assert w == Begin(w) + Rest(w);
      if Begin(w) <= p {
        var p' := p[Min3(|w|)..];
        assert p == Begin(w) + p';
        assert w <= p <==> Rest(w) <= p';
        var m := RunExpects(rm, rq, Rest(w), at + 1, p', s, exit, x);
        assert w <= p ==> p'[|Rest(w)|..] == p[|w|..];
        StepFirst(rm, rq, Running(at, p, s), m, x);
        n := m + 1;
      } else {
        assert !(w <= p) by {
          assert Begin(w) <= w;
        }
        StepFirst(rm, rq, Running(at, p, s), 0, x);
        StepsNone(rm, rq, Running(exit, p, s), x);
        n := 1;
      }
    }
  }

  /** Every route below a node extends the path spelled out to that node. */
  lemma {:induction false} SegmentsExtend(segs: seq<Segment>, all: seq<Route>, lo: nat, hi: nat, spelled: Str)
    requires hi <= |all| && SegmentsFor(segs, all, lo, hi, spelled)
    ensures lo <= hi && forall k | lo <= k < hi :: spelled <= all[k].prefix
    decreases segs, 0
  {
    if segs != [] {
      var mid := lo + SegmentCount(segs[0]);
      var first := if segs[0].route == -1 then lo else lo + 1;
      ChildrenExtend(segs[0].children, all, first, mid, spelled);
      SegmentsExtend(segs[1..], all, mid, hi, spelled);
    }
  }

  /** ... and below the children of a node goes on with a byte not below that of
      the first child. */
  lemma {:induction false} ChildrenExtend(cs: seq<Trie>, all: seq<Route>, lo: nat, hi: nat, spelled: Str)
    requires hi <= |all| && ChildrenFor(cs, all, lo, hi, spelled)
    ensures lo <= hi
    ensures forall k | lo <= k < hi :: spelled <= all[k].prefix && |spelled| < |all[k].prefix|
    ensures cs != [] ==> cs[0].prefix != [] && forall k | lo <= k < hi :: cs[0].prefix[0] <= all[k].prefix[|spelled|]
    decreases cs, 0
  {
    if cs != [] {
      var mid := lo + SegmentsCount(cs[0].segments);
      SegmentsExtend(cs[0].segments, all, lo, mid, spelled + cs[0].prefix);
      ChildrenExtend(cs[1..], all, mid, hi, spelled);
      forall k | lo <= k < mid
        ensures spelled <= all[k].prefix && |spelled| < |all[k].prefix| && cs[0].prefix[0] == all[k].prefix[|spelled|]
      {
        assert spelled + cs[0].prefix <= all[k].prefix;
        assert (spelled + cs[0].prefix)[|spelled|] == cs[0].prefix[0];
      }
      if |cs| > 1 {
        assert cs[1..][0] == cs[1];
      }
    }
  }

  ghost predicate AnyPlausible(all: seq<Route>, lo: nat, hi: nat, path: Str)
    requires hi <= |all|
  {
    exists k :: lo <= k < hi && all[k].prefix <= path
  }

  lemma NonePlausible(all: seq<Route>, lo: nat, hi: nat, path: Str)
    requires lo <= hi <= |all| && !AnyPlausible(all, lo, hi, path)
    ensures Plausible(all[lo..hi], path) == []
  {
    forall k | 0 <= k < hi - lo
      ensures !(all[lo..hi][k].prefix <= path)
    {
      assert all[lo..hi][k] == all[lo + k];
    }
    PlausibleNone(all[lo..hi], path);
  }

  lemma PrefixContinues(a: Str, b: Str, path: Str)
    requires a <= path
    ensures a + b <= path <==> b <= path[|a|..]
  {
    assert path == a + path[|a|..];
  }

  /** A child whose prefix does not continue the path holds nothing plausible. */
  lemma ChildImplausible(c: Trie, all: seq<Route>, lo: nat, hi: nat, spelled: Str, path: Str)
    requires hi <= |all| && SegmentsFor(c.segments, all, lo, hi, spelled + c.prefix)
    requires spelled <= path && !(c.prefix <= path[|spelled|..])
    ensures lo <= hi && Plausible(all[lo..hi], path) == []
  {
    SegmentsExtend(c.segments, all, lo, hi, spelled + c.prefix);
    PrefixContinues(spelled, c.prefix, path);
    forall k | lo <= k < hi
      ensures !(all[k].prefix <= path)
    {
      assert spelled + c.prefix <= all[k].prefix;
    }
    NonePlausible(all, lo, hi, path);
  }

  /** Once a child's first byte agrees with the path, no later sibling can hold
      anything plausible: this is what the order of the routes is for. */
  lemma LaterSiblingsImplausible(cs: seq<Trie>, all: seq<Route>, lo: nat, mid: nat, hi: nat, spelled: Str, path: Str)
    requires hi <= |all| && cs != [] && ChildrenFor(cs, all, lo, hi, spelled)
    requires mid == lo + SegmentsCount(cs[0].segments)
    requires spelled <= path && |spelled| < |path| && path[|spelled|] == cs[0].prefix[0]
    ensures mid <= hi && Plausible(all[mid..hi], path) == []
  {
    ChildrenExtend(cs[1..], all, mid, hi, spelled);
    if |cs| > 1 {
      assert cs[1..][0] == cs[1];
    }
    forall k | mid <= k < hi
      ensures !(all[k].prefix <= path)
    {
      assert all[k].prefix[|spelled|] > path[|spelled|];
    }
    NonePlausible(all, mid, hi, path);
  }

  /** The naive router on the plausible ones of the routes lo..hi. */
  function Scan<C>(all: seq<Route>, lo: nat, hi: nat, rq: Request<C>, s: Progress<C>): Outcome<C>
    requires lo <= hi <= |all|
  {
    TryAll(Plausible(all[lo..hi], rq.path), rq, s)
  }

  /** The scan over a range is the scan over its parts, one after the other. */
  lemma ScanSplit<C>(all: seq<Route>, lo: nat, mid: nat, hi: nat, rq: Request<C>, s: Progress<C>)
    requires lo <= mid <= hi <= |all|
    ensures TryAll(Plausible(all[lo..hi], rq.path), rq, s)
         == AndThen(TryAll(Plausible(all[lo..mid], rq.path), rq, s), Plausible(all[mid..hi], rq.path), rq)
  {
    SplitAt(all, lo, mid, hi);
    PlausibleAppend(all[lo..mid], all[mid..hi], rq.path);
    TryAllAppend(Plausible(all[lo..mid], rq.path), Plausible(all[mid..hi], rq.path), rq, s);
  }

  lemma ScanNothing<C>(all: seq<Route>, lo: nat, rq: Request<C>, s: Progress<C>)
    requires lo <= |all|
    ensures Scan(all, lo, lo, rq, s) == Missed(s)
  {
    assert all[lo..lo] == [];
  }

  lemma ScanOnlyFirst<C>(all: seq<Route>, lo: nat, mid: nat, hi: nat, rq: Request<C>, s: Progress<C>)
    requires lo <= mid <= hi <= |all| && Plausible(all[mid..hi], rq.path) == []
    ensures Scan(all, lo, hi, rq, s) == Scan(all, lo, mid, rq, s)
  {
    ScanSplit(all, lo, mid, hi, rq, s);
  }

  lemma ScanOnlySecond<C>(all: seq<Route>, lo: nat, mid: nat, hi: nat, rq: Request<C>, s: Progress<C>)
    requires lo <= mid <= hi <= |all| && Plausible(all[lo..mid], rq.path) == []
    ensures Scan(all, lo, hi, rq, s) == Scan(all, mid, hi, rq, s)
  {
    ScanSplit(all, lo, mid, hi, rq, s);
  }

  lemma {:induction false} RunChildren<C>(
    rm: RouteMachine, rq: Request<C>, cs: seq<Trie>, at: int, sub: int, exit: int, lo: nat, hi: nat, spelled: Str, s: Progress<C>, x: int) returns (n: nat)
    requires lo <= hi <= |rm.routes| && ChildrenFor(cs, rm.routes, lo, hi, spelled)
    requires spelled <= rq.path && exit == at + |cs| && 0 <= at && at + |cs| <= sub
    requires HasCode(rm.sm, at, Branches(cs, sub)) && HasCode(rm.sm, sub, Children(cs, |spelled|, sub, exit))
    ensures n <= |cs| + ChildrenLen(cs)
    ensures Visits(rm, rq, Running(at, rq.path[|spelled|..], s), n, x) <= Within(x, at, |cs|) + Within(x, sub, ChildrenLen(cs))
    ensures Lands(Steps(rm, rq, Running(at, rq.path[|spelled|..], s), n), Scan(rm.routes, lo, hi, rq, s), exit)
    ensures Fits(Visits(rm, rq, Running(at, rq.path[|spelled|..], s), n, x), NodeBelow(cs, sub, spelled, x), rq.path)
    decreases cs, 1
  {
    if cs == [] {
      n := 0;
      assert rm.routes[lo..hi] == [];
    } else {
      n := RunFirstChild(rm, rq, cs, at, sub, exit, lo, hi, spelled, s, x);
    }
  }

  lemma {:induction false} RunFirstChild<C>(
    rm: RouteMachine, rq: Request<C>, cs: seq<Trie>, at: int, sub: int, exit: int, lo: nat, hi: nat, spelled: Str, s: Progress<C>, x: int) returns (n: nat)
    requires cs != []
    requires lo <= hi <= |rm.routes| && ChildrenFor(cs, rm.routes, lo, hi, spelled)
    requires spelled <= rq.path && exit == at + |cs| && 0 <= at && at + |cs| <= sub
    requires HasCode(rm.sm, at, Branches(cs, sub)) && HasCode(rm.sm, sub, Children(cs, |spelled|, sub, exit))
    ensures n <= |cs| + ChildrenLen(cs)
    ensures Visits(rm, rq, Running(at, rq.path[|spelled|..], s), n, x) <= Within(x, at, |cs|) + Within(x, sub, ChildrenLen(cs))
    ensures Lands(Steps(rm, rq, Running(at, rq.path[|spelled|..], s), n), Scan(rm.routes, lo, hi, rq, s), exit)
    ensures Fits(Visits(rm, rq, Running(at, rq.path[|spelled|..], s), n, x), NodeBelow(cs, sub, spelled, x), rq.path)
    decreases cs, 0
  {
    hide Step, Branch, HasCode, SegmentsFor, Children, Branches, ChildrenFor, ChildCode, Scan, TryAll, AndThen, Plausible, ChildLen, Lands, Steps, Visits, Within, NodeBelow, ChildNode;
    WithinSplit(x, at, 1, |cs| - 1);
    WithinSplit(x, sub, ChildLen(cs[0]), ChildrenLen(cs[1..]));
    WithinOne(x, at);
    var c := cs[0];
    var p := rq.path[|spelled|..];
    var mid := lo + SegmentsCount(c.segments);
    ChildrenCode(rm.sm, cs, at, sub, exit, |spelled|);
    ChildrenParts(cs, rm.routes, lo, hi, spelled);
    StepBranch(rm, rq, at, p, s, c.prefix, sub);
    if Begin(c.prefix) <= p {
      LaterSiblingsImplausible(cs, rm.routes, lo, mid, hi, spelled, rq.path) by {
        assert p[0] == Begin(c.prefix)[0] == c.prefix[0];
      }
      ScanOnlyFirst(rm.routes, lo, mid, hi, rq, s);
      var m := RunChild(rm, rq, c, sub, exit, lo, mid, spelled, s, x);
      StepFirst(rm, rq, Running(at, p, s), m, x);
      n := m + 1;
      var st := Running(sub, p[Min3(|c.prefix|)..], s);
      FitsFirstChild(cs, at, sub, spelled, x, rq.path, Within(x, at, 1), Visits(rm, rq, st, m, x));
    } else {
      ChildImplausible(c, rm.routes, lo, mid, spelled, rq.path) by {
        assert Begin(c.prefix) <= c.prefix;
      }
      ScanOnlySecond(rm.routes, lo, mid, hi, rq, s);
      var m := RunChildren(rm, rq, cs[1..], at + 1, sub + ChildLen(c), exit, mid, hi, spelled, s, x);
      StepFirst(rm, rq, Running(at, p, s), m, x);
      n := m + 1;
      FitsLaterChild(cs, at, sub, spelled, x, rq.path, Within(x, at, 1), Visits(rm, rq, Running(at + 1, p, s), m, x));
    }
  }

  /** What is known of the first of several siblings. */
  lemma ChildrenParts(cs: seq<Trie>, all: seq<Route>, lo: nat, hi: nat, spelled: Str)
    requires cs != [] && lo <= hi <= |all| && ChildrenFor(cs, all, lo, hi, spelled)
    ensures var c, mid := cs[0], lo + SegmentsCount(cs[0].segments);
            && c.prefix != [] && lo < mid <= hi
            && SegmentsFor(c.segments, all, lo, mid, spelled + c.prefix)
            && ChildrenFor(cs[1..], all, mid, hi, spelled)
  {}

  /** Where the code of the first of several siblings lies. */
  lemma ChildrenCode(sm: seq<Instr>, cs: seq<Trie>, at: int, sub: int, exit: int, dp: nat)
    requires cs != [] && 0 <= at && 0 <= sub
    requires HasCode(sm, at, Branches(cs, sub)) && HasCode(sm, sub, Children(cs, dp, sub, exit))
    ensures at < |sm| && sm[at] == Branch(cs[0].prefix, sub)
    ensures HasCode(sm, at + 1, Branches(cs[1..], sub + ChildLen(cs[0])))
    ensures ChildCode(sm, cs[0], sub, exit, dp)
    ensures HasCode(sm, sub + ChildLen(cs[0]), Children(cs[1..], dp, sub + ChildLen(cs[0]), exit))
  {
    hide HasCode, Branch, Expects, Assemble, ExpectsLen, TrieLen, Rest;
    var c := cs[0];
    var n := ExpectsLen(Rest(c.prefix));
    var x, y, z := Expects(Rest(c.prefix), exit), Assemble(c.segments, dp + |c.prefix|, sub + n, exit), Children(cs[1..], dp, sub + ChildLen(c), exit);
    CodeHead(sm, at, Branch(c.prefix, sub), Branches(cs[1..], sub + ChildLen(c)));
    ExpectsLength(Rest(c.prefix), exit);
    AssembleLength(c.segments, dp + |c.prefix|, sub + n, exit);
    assert Children(cs, dp, sub, exit) == x + y + z;
    CodeSplit(sm, sub, x + y, z);
    CodeSplit(sm, sub, x, y);
  }

  /** The code of a child: the rest of its prefix, then its trie. */
  ghost predicate ChildCode(sm: seq<Instr>, c: Trie, sub: int, exit: int, dp: nat) {
    var n := ExpectsLen(Rest(c.prefix));
    && 0 <= sub
    && HasCode(sm, sub, Expects(Rest(c.prefix), exit))
    && HasCode(sm, sub + n, Assemble(c.segments, dp + |c.prefix|, sub + n, exit))
  }

  /** After the branch into a child, the rest of its prefix decides whether the path
      continues with it. */
  lemma ChildCursor(w: Str, p: Str, spelled: Str, path: Str)
    requires spelled <= path && p == path[|spelled|..] && Begin(w) <= p
    ensures var p' := p[Min3(|w|)..];
            (Rest(w) <= p' <==> w <= p) && (Rest(w) <= p' <==> spelled + w <= path)
  {
    assert w == Begin(w) + Rest(w);
    PrefixContinues(Begin(w), Rest(w), p);
    PrefixContinues(spelled, w, path);
  }

  lemma {:induction false} RunChild<C>(
    rm: RouteMachine, rq: Request<C>, c: Trie, sub: int, exit: int, lo: nat, hi: nat, spelled: Str, s: Progress<C>, x: int) returns (n: nat)
    requires lo <= hi <= |rm.routes| && SegmentsFor(c.segments, rm.routes, lo, hi, spelled + c.prefix)
    requires spelled <= rq.path && c.prefix != [] && Begin(c.prefix) <= rq.path[|spelled|..]
    requires ChildCode(rm.sm, c, sub, exit, |spelled|)
    ensures n <= ChildLen(c)
    ensures Visits(rm, rq, Running(sub, rq.path[|spelled|..][Min3(|c.prefix|)..], s), n, x) <= Within(x, sub, ChildLen(c))
    ensures Lands(Steps(rm, rq, Running(sub, rq.path[|spelled|..][Min3(|c.prefix|)..], s), n), Scan(rm.routes, lo, hi, rq, s), exit)
    ensures Fits(Visits(rm, rq, Running(sub, rq.path[|spelled|..][Min3(|c.prefix|)..], s), n, x), ChildNode(c, sub, spelled, x), rq.path)
    decreases c, 1
  {
    hide Step, SegmentsFor, Assemble, Expects, HasCode, Steps, Plausible, ExpectsLen, TrieLen, AndThen, Rest, TryRoute, Visits, Within, TrieNode, ChildNode;
    WithinSplit(x, sub, ExpectsLen(Rest(c.prefix)), TrieLen(c.segments));
    var p := rq.path[|spelled|..];
    var p' := p[Min3(|c.prefix|)..];
    var st := Running(sub, p', s);
    var k := ExpectsLen(Rest(c.prefix));
    var a := RunExpects(rm, rq, Rest(c.prefix), sub, p', s, exit, x);
    ChildCursor(c.prefix, p, spelled, rq.path);
    if Rest(c.prefix) <= p' {
      var b := RunTrie(rm, rq, c.segments, sub + k, exit, lo, hi, spelled + c.prefix, p'[|Rest(c.prefix)|..], s, x);
      StepsAdd(rm, rq, st, a, b);
      VisitsAdd(rm, rq, st, a, b, x);
      n := a + b;
      FitsChild(c, sub, spelled, x, rq.path, Visits(rm, rq, st, a, x), Visits(rm, rq, Steps(rm, rq, st, a), b, x));
    } else {
      ChildImplausible(c, rm.routes, lo, hi, spelled, rq.path);
      n := a;
      FitsChild(c, sub, spelled, x, rq.path, Visits(rm, rq, st, a, x), 0);
    }
  }

  /** Where the parts of a trie's code lie. */
  lemma TrieCode(sm: seq<Instr>, segs: seq<Segment>, base: int, exit: int, dp: nat)
    requires HasCode(sm, base, Assemble(segs, dp, base, exit))
    ensures var subs := base + HeadsLen(segs) + 1;
            && HasCode(sm, base, Heads(segs, dp, subs)) && HasCode(sm, subs, Subs(segs, dp, base, subs))
            && 0 <= base + HeadsLen(segs) < |sm| && sm[base + HeadsLen(segs)] == Wildcard(exit)
  {
    hide Heads, Subs, HasCode, Wildcard;
    var subs := base + HeadsLen(segs) + 1;
    HeadsLength(segs, dp, subs);
    CodeSplit(sm, base, Heads(segs, dp, subs) + [Wildcard(exit)], Subs(segs, dp, base, subs));
    CodeSplit(sm, base, Heads(segs, dp, subs), [Wildcard(exit)]);
    CodeHead(sm, base + HeadsLen(segs), Wildcard(exit), []) by {
      assert [Wildcard(exit)] + [] == [Wildcard(exit)];
    }
  }

  lemma {:induction false} RunTrie<C>(
    rm: RouteMachine, rq: Request<C>, segs: seq<Segment>, base: int, exit: int, lo: nat, hi: nat, spelled: Str, p: Str, s: Progress<C>, x: int) returns (n: nat)
    requires lo <= hi <= |rm.routes| && SegmentsFor(segs, rm.routes, lo, hi, spelled)
    requires spelled <= rq.path && 0 <= base && HasCode(rm.sm, base, Assemble(segs, |spelled|, base, exit))
    ensures n <= TrieLen(segs) && Visits(rm, rq, Running(base, p, s), n, x) <= Within(x, base, TrieLen(segs))
    ensures Lands(Steps(rm, rq, Running(base, p, s), n), Scan(rm.routes, lo, hi, rq, s), exit)
    ensures Fits(Visits(rm, rq, Running(base, p, s), n, x), TrieNode(segs, base, spelled, x), rq.path)
    decreases segs, 2
  {
    hide Step, SegmentsFor, Assemble, Heads, Subs, HasCode, Wildcard, Steps, Visits, Within, TryAll, Plausible, NodeAt;
    WithinSplit(x, base, HeadsLen(segs), 1 + SubsLen(segs));
    WithinSplit(x, base + HeadsLen(segs), 1, SubsLen(segs));
    WithinOne(x, base + HeadsLen(segs));
    TrieCode(rm.sm, segs, base, exit, |spelled|);
    var subs := base + HeadsLen(segs) + 1;
    n := RunSegments(rm, rq, segs, base, subs, lo, hi, spelled, p, s, x);
    var st := Steps(rm, rq, Running(base, p, s), n);
    if st.Running? {
      StepWildcard(rm, rq, st.pc, st.p, st.s, exit);
      StepsAdd(rm, rq, Running(base, p, s), n, 1);
      VisitsAdd(rm, rq, Running(base, p, s), n, 1, x);
      StepFirst(rm, rq, st, 0, x);
      StepsNone(rm, rq, Running(exit, st.p, st.s), x);
      FitsTrie(segs, base, spelled, x, rq.path, Visits(rm, rq, Running(base, p, s), n, x), Visits(rm, rq, st, 1, x));
      n := n + 1;
    }
  }

  lemma {:induction false} RunSegments<C>(
    rm: RouteMachine, rq: Request<C>, segs: seq<Segment>, head: int, sub: int, lo: nat, hi: nat, spelled: Str, p: Str, s: Progress<C>, x: int) returns (n: nat)
    requires lo <= hi <= |rm.routes| && SegmentsFor(segs, rm.routes, lo, hi, spelled)
    requires spelled <= rq.path && 0 <= head && head + HeadsLen(segs) < sub
    requires HasCode(rm.sm, head, Heads(segs, |spelled|, sub)) && HasCode(rm.sm, sub, Subs(segs, |spelled|, head, sub))
    ensures n <= HeadsLen(segs) + SubsLen(segs)
    ensures Visits(rm, rq, Running(head, p, s), n, x) <= Within(x, head, HeadsLen(segs)) + Within(x, sub, SubsLen(segs))
    ensures Lands(Steps(rm, rq, Running(head, p, s), n), Scan(rm.routes, lo, hi, rq, s), head + HeadsLen(segs))
    ensures Fits(Visits(rm, rq, Running(head, p, s), n, x), NodeAt(segs, head, sub, spelled, x), rq.path)
    decreases segs, 1
  {
    hide Step, HasCode, Head, Children, Plausible, TryRoute, Steps, SegmentFor, HeadLen, ChildrenLen, SegmentCount, Visits, Within, NodeAt, SegmentNode;
    if segs == [] {
      n := 0;
      ScanNothing(rm.routes, lo, rq, s);
      StepsNone(rm, rq, Running(head, p, s), x);
    } else {
      var dp, mid := |spelled|, lo + SegmentCount(segs[0]);
      var next, sub' := head + HeadLen(segs[0]), sub + ChildrenLen(segs[0].children);
      HeadLength(segs[0], dp, sub);
      ChildrenLength(segs[0].children, dp, sub, next);
      CodeSplit(rm.sm, head, Head(segs[0], dp, sub), Heads(segs[1..], dp, sub'));
      CodeSplit(rm.sm, sub, Children(segs[0].children, dp, sub, next), Subs(segs[1..], dp, next, sub'));
      SegmentsExtend(segs[1..], rm.routes, mid, hi, spelled);
      SegmentExtends(segs[0], rm.routes, lo, mid, spelled);
      n := RunSegment(rm, rq, segs[0], head, sub, lo, mid, spelled, p, s, x);
      WithinSplit(x, head, HeadLen(segs[0]), HeadsLen(segs[1..]));
      WithinSplit(x, sub, ChildrenLen(segs[0].children), SubsLen(segs[1..]));
      ScanSplit(rm.routes, lo, mid, hi, rq, s);
      var st := Steps(rm, rq, Running(head, p, s), n);
      if st.Running? {
        var m := RunSegments(rm, rq, segs[1..], next, sub', mid, hi, spelled, st.p, st.s, x);
        StepsAdd(rm, rq, Running(head, p, s), n, m);
        VisitsAdd(rm, rq, Running(head, p, s), n, m, x);
        FitsSegments(segs, head, sub, spelled, x, rq.path, Visits(rm, rq, Running(head, p, s), n, x), Visits(rm, rq, st, m, x));
        n := n + m;
      } else {
        FitsSegments(segs, head, sub, spelled, x, rq.path, Visits(rm, rq, Running(head, p, s), n, x), 0);
      }
    }
  }

  lemma SegmentExtends(seg: Segment, all: seq<Route>, lo: nat, hi: nat, spelled: Str)
    requires hi <= |all| && SegmentFor(seg, all, lo, hi, spelled)
    ensures lo <= hi
  {
    ChildrenExtend(seg.children, all, if seg.route == -1 then lo else lo + 1, hi, spelled);
  }

  /** What the first instructions of a segment do: set the cursor, and try the route of
      the node if it has one. */
  function AfterHead<C>(rm: RouteMachine, rq: Request<C>, seg: Segment, head: int, p: Str, s: Progress<C>): Status<C>
    requires seg.route == -1 || 0 <= seg.route < |rm.routes|
  {
    if seg.route == -1 then Running(head + 1, p, s)
    else match TryRoute(rm.routes[seg.route], rq, s)
      case Took(r, at) => Halted(Took(r, at))
      case Missed(at) => Running(head + 2, p, at)
  }

  function OwnLen(seg: Segment): nat {
    if seg.route == -1 then 1 else 2
  }

  lemma RunHead<C>(
    rm: RouteMachine, rq: Request<C>, seg: Segment, head: int, sub: int, spelled: Str, p: Str, s: Progress<C>, x: int)
    requires seg.route == -1 || (0 <= seg.route < |rm.routes| && rm.routes[seg.route].prefix == spelled)
    requires spelled <= rq.path && 0 <= head && HasCode(rm.sm, head, Head(seg, |spelled|, sub))
    ensures HasCode(rm.sm, head + OwnLen(seg), Branches(seg.children, sub))
    ensures Steps(rm, rq, Running(head, p, s), OwnLen(seg)) == AfterHead(rm, rq, seg, head, rq.path[|spelled|..], s)
    ensures Visits(rm, rq, Running(head, p, s), OwnLen(seg), x) <= Within(x, head, OwnLen(seg))
  {
    hide Step, HasCode, Branches, SetCursor, RunRoute, Steps, Visits, TryRoute;
    var dp, p' := |spelled|, rq.path[|spelled|..];
    var st0, st1 := Running(head, p, s), Running(head + 1, p', s);
    if seg.route == -1 {
      assert Head(seg, dp, sub) == [SetCursor(dp)] + Branches(seg.children, sub);
      CodeHead(rm.sm, head, SetCursor(dp), Branches(seg.children, sub));
      StepSetCursor(rm, rq, head, p, s, dp);
      StepFirst(rm, rq, st0, 0, x);
      StepsNone(rm, rq, st1, x);
    } else {
      var r := seg.route;
      assert Head(seg, dp, sub) == [SetCursor(dp)] + ([RunRoute(r)] + Branches(seg.children, sub));
      CodeHead(rm.sm, head, SetCursor(dp), [RunRoute(r)] + Branches(seg.children, sub));
      CodeHead(rm.sm, head + 1, RunRoute(r), Branches(seg.children, sub));
      StepSetCursor(rm, rq, head, p, s, dp);
      StepRoute(rm, rq, head + 1, p', s, r);
      StepFirst(rm, rq, st0, 1, x);
      StepFirst(rm, rq, st1, 0, x);
      StepsNone(rm, rq, Step(rm, rq, st1), x);
    }
  }

  lemma {:induction false} RunSegment<C>(
    rm: RouteMachine, rq: Request<C>, seg: Segment, head: int, sub: int, lo: nat, hi: nat, spelled: Str, p: Str, s: Progress<C>, x: int) returns (n: nat)
    requires lo <= hi <= |rm.routes| && SegmentFor(seg, rm.routes, lo, hi, spelled)
    requires spelled <= rq.path && 0 <= head && head + HeadLen(seg) < sub
    requires HasCode(rm.sm, head, Head(seg, |spelled|, sub))
    requires HasCode(rm.sm, sub, Children(seg.children, |spelled|, sub, head + HeadLen(seg)))
    ensures n <= HeadLen(seg) + ChildrenLen(seg.children)
    ensures Visits(rm, rq, Running(head, p, s), n, x) <= Within(x, head, HeadLen(seg)) + Within(x, sub, ChildrenLen(seg.children))
    ensures Lands(Steps(rm, rq, Running(head, p, s), n), Scan(rm.routes, lo, hi, rq, s), head + HeadLen(seg))
    ensures Fits(Visits(rm, rq, Running(head, p, s), n, x), SegmentNode(seg, head, sub, spelled, x), rq.path)
    decreases seg, 2
  {
    hide Step, HasCode, Head, Children, Branches, ChildrenFor, Steps, Visits, Within, NodeBelow, SegmentNode, TryRoute, Plausible, TryAll;
    var k, st0 := OwnLen(seg), Running(head, p, s);
    RunHead(rm, rq, seg, head, sub, spelled, p, s, x);
    WithinSplit(x, head, k, |seg.children|);
    if seg.route != -1 {
      ScanOwnRoute(rm.routes, lo, hi, rq, s);
    }
    var st := Steps(rm, rq, st0, k);
    if st.Running? {
      var m := RunChildren(rm, rq, seg.children, head + k, sub, head + HeadLen(seg), if k == 1 then lo else lo + 1, hi, spelled, st.s, x);
      StepsAdd(rm, rq, st0, k, m);
      VisitsAdd(rm, rq, st0, k, m, x);
      n := k + m;
      FitsSegment(seg, head, sub, spelled, x, rq.path, Visits(rm, rq, st0, k, x), Visits(rm, rq, st, m, x));
    } else {
      n := k;
      FitsSegment(seg, head, sub, spelled, x, rq.path, Visits(rm, rq, st0, k, x), 0);
    }
  }

  lemma ScanOwnRoute<C>(all: seq<Route>, lo: nat, hi: nat, rq: Request<C>, s: Progress<C>)
    requires lo < hi <= |all| && all[lo].prefix <= rq.path
    ensures Scan(all, lo, hi, rq, s) == AndThen(TryRoute(all[lo], rq, s), Plausible(all[lo + 1..hi], rq.path), rq)
  {
    assert all[lo..hi][1..] == all[lo + 1..hi];
    var rest := Plausible(all[lo + 1..hi], rq.path);
    assert Plausible(all[lo..hi], rq.path) == [all[lo]] + rest;
    assert ([all[lo]] + rest)[1..] == rest;
  }

  // ----- the theorem -----

  function Initial<C>(ctx: C): Progress<C> {
    Progress(ctx, 0, [])
  }

  /** The run of compiled code from the start, and how often it visits x. */
  lemma RunMachine<C>(rm: RouteMachine, rq: Request<C>, ctx: C, t: Trie, x: int) returns (n: nat)
    requires TrieFor(t, rm.routes) && rm.sm == Machine(t)
    ensures n <= |rm.sm|
    ensures Steps(rm, rq, Running(0, rq.path, Initial(ctx)), n) == Halted(TryAll(Plausible(rm.routes, rq.path), rq, Initial(ctx)))
    ensures Visits(rm, rq, Running(0, rq.path, Initial(ctx)), n, x) <= 1
    ensures Fits(Visits(rm, rq, Running(0, rq.path, Initial(ctx)), n, x), TrieNode(t.segments, 0, [], x), rq.path)
  {
    hide Step, HasCode, Heads, Subs, Machine, SegmentsFor, Wildcard, Steps, Visits, NodeAt;
    var segs := t.segments;
    var subs := HeadsLen(segs) + 1;
    var st0 := Running(0, rq.path, Initial(ctx));
    HeadsLength(segs, 0, subs);
    SubsLength(segs, 0, 0, subs);
    MachineCode(rm.sm, t);
    assert rm.routes[0..|rm.routes|] == rm.routes;
    n := RunSegments(rm, rq, segs, 0, subs, 0, |rm.routes|, [], rq.path, Initial(ctx), x);
    var st := Steps(rm, rq, st0, n);
    if st.Running? {
      StepGiveUp(rm, rq, st.pc, st.p, st.s);
      StepsAdd(rm, rq, st0, n, 1);
      VisitsAdd(rm, rq, st0, n, 1, x);
      StepFirst(rm, rq, st, 0, x);
      StepsNone(rm, rq, Step(rm, rq, st), x);
      FitsTrie(segs, 0, [], x, rq.path, Visits(rm, rq, st0, n, x), Visits(rm, rq, st, 1, x));
      n := n + 1;
    }
  }

  lemma RunCompiled<C>(rm: RouteMachine, rq: Request<C>, ctx: C, x: int) returns (n: nat)
    requires IsCompiled(rm.sm, rm.routes) && rm.sm != []
    ensures n <= |rm.sm|
    ensures Steps(rm, rq, Running(0, rq.path, Initial(ctx)), n) == Halted(TryAll(Plausible(rm.routes, rq.path), rq, Initial(ctx)))
    ensures Visits(rm, rq, Running(0, rq.path, Initial(ctx)), n, x) <= 1
  {
    hide Steps, Visits, Machine, TrieFor, TryAll;
    var t :| TrieFor(t, rm.routes) && rm.sm == Machine(t);
    n := RunMachine(rm, rq, ctx, t, x);
  }

  /** Compiled code behaves as the naive router over the plausible routes in list
      order: same route, same calls of Match in the same order, same context, same
      methods. It never faults, and it halts within as many steps as the code is
      long, although failures jump backward. */
  lemma CompiledRunsLikeNaive<C>(rm: RouteMachine, rq: Request<C>, ctx: C) returns (n: nat)
    requires IsCompiled(rm.sm, rm.routes) && rm.sm != []
    ensures n <= |rm.sm|
    ensures Steps(rm, rq, Running(0, rq.path, Initial(ctx)), n) == Halted(TryAll(Plausible(rm.routes, rq.path), rq, Initial(ctx)))
  {
    hide Steps, IsCompiled;
    n := RunCompiled(rm, rq, ctx, 0);
  }

  lemma {:induction false} DoneStaysDone<C>(rm: RouteMachine, rq: Request<C>, st: Status<C>, n: nat)
    requires !st.Running?
    ensures Steps(rm, rq, st, n) == st
    decreases n
  {
    if n > 0 {
      DoneStaysDone(rm, rq, st, n - 1);
    }
  }

  lemma {:induction false} DoneVisitsNothing<C>(rm: RouteMachine, rq: Request<C>, st: Status<C>, n: nat, x: int)
    requires !st.Running?
    ensures Visits(rm, rq, st, n, x) == 0
    decreases n
  {
    if n > 0 {
      DoneVisitsNothing(rm, rq, st, n - 1, x);
    }
  }

  /** However long one watches, no instruction is executed twice for one request. */
  lemma EachInstructionOnce<C>(rm: RouteMachine, rq: Request<C>, ctx: C, n: nat, x: int)
    requires IsCompiled(rm.sm, rm.routes) && rm.sm != []
    ensures Visits(rm, rq, Running(0, rq.path, Initial(ctx)), n, x) <= 1
  {
    hide Steps, Visits, IsCompiled, Step;
    var st := Running(0, rq.path, Initial(ctx));
    var h := RunCompiled(rm, rq, ctx, x);
    if h <= n {
      VisitsAdd(rm, rq, st, h, n - h, x);
      DoneVisitsNothing(rm, rq, Steps(rm, rq, st, h), n - h, x);
    } else {
      VisitsAdd(rm, rq, st, n, h - n, x);
    }
  }

  lemma MachineCode(sm: seq<Instr>, t: Trie)
    requires sm == Machine(t)
    ensures var subs := HeadsLen(t.segments) + 1;
            && HasCode(sm, 0, Heads(t.segments, 0, subs))
            && HasCode(sm, subs, Subs(t.segments, 0, 0, subs))
            && HeadsLen(t.segments) < |sm| && sm[HeadsLen(t.segments)] == Wildcard(-1).(mode := JUMP_ON_MATCH | FAIL)
            && |sm| == TrieLen(t.segments)
  {
    hide Heads, Subs;
    var subs := HeadsLen(t.segments) + 1;
    var quit := Wildcard(-1).(mode := JUMP_ON_MATCH | FAIL);
    HeadsLength(t.segments, 0, subs);
    SubsLength(t.segments, 0, 0, subs);
    CodeSplit(sm, 0, Heads(t.segments, 0, subs) + [quit], Subs(t.segments, 0, 0, subs));
    CodeSplit(sm, 0, Heads(t.segments, 0, subs), [quit]);
  }

  /** Only an empty route list compiles to no code. */
  lemma NoCodeNoRoutes(sm: seq<Instr>, routes: seq<Route>)
    requires IsCompiled(sm, routes)
    ensures sm == [] <==> routes == []
  {
    forall t
      ensures Machine(t) != []
    {
      MachineCode(Machine(t), t);
    }
  }
}
