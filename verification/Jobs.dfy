/** What a call of CloseIdle, Drain or DrainAll has done by the time it waits or has
    returned (graceful/listener/listener.go:109-144), whatever happens meanwhile. */
module Jobs {
  import opened Options
  import opened Draining
  import opened DrainingProofs
  import opened DrainingTheorems

  /** Connections go to the shards in turn, the first one to shard 1. */
  lemma ShardsTakeTurns(c: nat, n: nat)
    requires n > 0
    ensures ShardOf(0, n) == 1 % n
    ensures ShardOf(c + 1, n) == if ShardOf(c, n) + 1 == n then 0 else ShardOf(c, n) + 1
  {
    var q, r := (c + 1) / n, (c + 1) % n;
    if r + 1 == n {
      assert c + 2 == (q + 1) * n;
      MultipleLeavesNothing(q + 1, n);
    } else {
      assert c + 2 == q * n + (r + 1);
      RemainderIs(q, n, r + 1);
    }
  }

  lemma RemainderIs(q: nat, n: nat, r: nat)
    requires r < n
    ensures (q * n + r) % n == r
  {
    var x := q * n + r;
    var d := q - x / n;
    assert d * n == q * n - (x / n) * n == x % n - r;
    if d > 0 {
      Multiples(d, n);
    } else if d < 0 {
      Multiples(-d, n);
    }
  }

  lemma Multiples(d: int, n: nat)
    requires d > 0
    ensures d * n >= n
  {}

  lemma MultipleLeavesNothing(q: nat, n: nat)
    requires n > 0
    ensures (q * n) % n == 0
  {
    RemainderIs(q, n, 0);
  }

  // ----- Drain and DrainAll -----

  /** Inside Drain, or DrainAll if all. */
  predicate InDrain(pc: PC, all: bool) {
    match pc
    case JobAt(job, _) => job == DrainJob(all)
    case Sweeping(job, _, _) => job == DrainJob(all)
    case Holding(_, _, Back(job, _, _)) => job == DrainJob(all)
    case Waiting(a, _) => a == all
    case _ => false
  }

  /** A critical section goes on, or returns to where it was entered from. */
  lemma HoldingReturns(s: State, t: nat, op: Op, s': State)
    requires s.shards != [] && At(s, t).Holding? && Step(s, t, op) == Some(s')
    ensures At(s', t) == Resume(At(s, t).k) || (At(s', t).Holding? && At(s', t).k == At(s, t).k)
    ensures |s'.shards| == |s.shards| && forall i: nat | i < |s.shards| :: s'.shards[i].drain == s.shards[i].drain
  {
    hide Proceed, ShardOf, Resume, StepReady;
    var Holding(c, todo, k) := At(s, t);
    ProceedReturns(s, t, c, todo, k);
    ProceedDrains(s, t, c, todo, k);
  }

  lemma ProceedReturns(s: State, t: nat, c: nat, todo: Todo, k: Cont)
    requires s.shards != [] && c < |s.conns|
    ensures var pc := At(Proceed(s, t, c, todo, k), t); pc == Resume(k) || (pc.Holding? && pc.k == k)
  {
    hide ShardOf, Resume;
  }

  lemma ProceedDrains(s: State, t: nat, c: nat, todo: Todo, k: Cont)
    requires s.shards != [] && c < |s.conns|
    ensures var s' := Proceed(s, t, c, todo, k);
            |s'.shards| == |s.shards| && forall i: nat | i < |s.shards| :: s'.shards[i].drain == s.shards[i].drain
  {
    hide ShardOf, Resume;
  }

  lemma DrainGoesOn(s: State, t: nat, op: Op, s': State, all: bool)
    requires s.shards != [] && Step(s, t, op) == Some(s') && InDrain(At(s, t), all)
    ensures InDrain(At(s', t), all) || (At(s', t) == Ready && s'.drained && At(s, t).Waiting? && At(s, t).all == all)
  {
    hide ShardOf, StepReady, Proceed;
    if At(s, t).Holding? {
      HoldingReturns(s, t, op, s');
      hide Step;
    }
  }

  lemma DrainStarts(s: State, t: nat, s': State, all: bool)
    requires s.shards != [] && At(s, t) == Ready && Step(s, t, Drain(all)) == Some(s')
    ensures InDrain(At(s', t), all)
  {}

  lemma SweptLasts(s: State, t: nat, op: Op, s': State, all: bool)
    requires s.shards != [] && Step(s, t, op) == Some(s') && SweptTo(s, all, |s.shards|)
    ensures SweptTo(s', all, |s'.shards|)
  {
    hide Step;
    StepFrame(s, t, op, s', t + 1);
  }

  lemma DrainedLasts(s: State, t: nat, op: Op, s': State)
    requires s.shards != [] && Step(s, t, op) == Some(s') && s.drained
    ensures s'.drained
  {
    hide Enter, Proceed, StepReady, ShardOf, OnRead, OnClose, OnMarkIdle, OnMarkInUse, OnCloseIfIdle, OnDisown;
    match At(s, t) {
      case Ready => ReadyTouches(s, t, op, s');
      case Rejected(c) => EnterTouchesOne(s, t, c, OnClose(s.conns[c].f), User);
      case Deferred(c) => EnterTouchesOne(s, t, c, OnMarkIdle(s.conns[c].f), User);
      case Holding(c, todo, k) => WaitingHolding(s, t, s');
      case Sweeping(job, i, left) =>
        if op.Take? {
          var f := s.conns[op.c].f;
          EnterTouchesOne(s, t, op.c, if job.All() then OnClose(f) else OnCloseIfIdle(f), Back(job, i, left - {op.c}));
        }
      case _ =>
    }
  }

  /** From the call on, the goroutine is inside it, or every shard has been swept and
      the call has returned. */
  lemma {:induction false} DrainSweeps(states: seq<State>, who: seq<nat>, ops: seq<Op>, j: nat, m: nat, all: bool)
    requires IsRun(states, who, ops) && j < m < |states|
    requires At(states[j], who[j]) == Ready && ops[j] == Drain(all)
    ensures InDrain(At(states[m], who[j]), all) || (states[m].drained && SweptTo(states[m], all, |states[m].shards|))
    decreases m
  {
    hide Step, Core, Sweeps, Counted, Init, SweptTo;
    var s, t, op, s' := states[m - 1], who[m - 1], ops[m - 1], states[m];
    assert Next(s, t, op, s');
    if j == m - 1 {
      DrainStarts(s, t, s', all);
    } else {
      DrainSweeps(states, who, ops, j, m - 1, all);
      RunKeepsInvariants(states, who, ops, m - 1);
      if s.drained && SweptTo(s, all, |s.shards|) {
        DrainedLasts(s, t, op, s');
        SweptLasts(s, t, op, s', all);
      } else if t == who[j] {
        DrainGoesOn(s, t, op, s', all);
        if At(s', t) == Ready {
          WaitingHasSwept(s, t, all);
          SweptLasts(s, t, op, s', all);
        }
      } else {
        StepFrame(s, t, op, s', who[j]);
      }
    }
  }

  lemma WaitingHasSwept(s: State, t: nat, all: bool)
    requires Sweeps(s) && At(s, t).Waiting? && At(s, t).all == all
    ensures SweptTo(s, all, |s.shards|)
  {
    assert JobOk(s, t);
  }

  lemma {:induction false} SweptFrom(states: seq<State>, who: seq<nat>, ops: seq<Op>, m: nat, k: nat, all: bool)
    requires IsRun(states, who, ops) && m <= k < |states| && SweptTo(states[m], all, |states[m].shards|)
    ensures SweptTo(states[k], all, |states[k].shards|)
    decreases k
  {
    hide Step, Init, SweptTo;
    if m < k {
      SweptFrom(states, who, ops, m, k - 1, all);
      assert Next(states[k - 1], who[k - 1], ops[k - 1], states[k]);
      SweptLasts(states[k - 1], who[k - 1], ops[k - 1], states[k], all);
    }
  }

  /** If a goroutine calls Drain or DrainAll at step j, then from the first state m in
      which this call waits or has returned: every shard drains, and every live
      connection outside a critical section is busy; after DrainAll nothing is
      tracked, and every connection outside a critical section is closed or
      disowned. Nothing is assumed about the use of disown. */
  lemma DrainReaches(states: seq<State>, who: seq<nat>, ops: seq<Op>, j: nat, m: nat, k: nat, all: bool)
    requires IsRun(states, who, ops) && j < m <= k < |states|
    requires At(states[j], who[j]) == Ready && ops[j] == Drain(all)
    requires At(states[m], who[j]).Waiting? || At(states[m], who[j]) == Ready
    ensures forall i: nat | i < |states[k].shards| :: states[k].shards[i].drain && i in states[k].swept
    ensures forall c: nat | c < |states[k].conns| && states[k].conns[c].shared && states[k].conns[c].owner == None ::
              states[k].conns[c].f.busy || states[k].conns[c].f.closed || states[k].conns[c].f.disowned
    ensures all ==> forall i: nat | i < |states[k].shards| :: states[k].shards[i].all == {} && i in states[k].sweptAll
    ensures all ==> forall c: nat | c < |states[k].conns| && states[k].conns[c].shared && states[k].conns[c].owner == None ::
              states[k].conns[c].f.closed || states[k].conns[c].f.disowned
  {
    hide Step, Core, Counted, Init, SweepOk, JobOk;
    DrainSweeps(states, who, ops, j, m, all);
    RunKeepsInvariants(states, who, ops, m);
    if At(states[m], who[j]).Waiting? && InDrain(At(states[m], who[j]), all) {
      WaitingHasSwept(states[m], who[j], all);
    }
    SweptFrom(states, who, ops, m, k, all);
    RunKeepsInvariants(states, who, ops, k);
    forall i: nat | i < |states[k].shards|
      ensures states[k].shards[i].drain && i in states[k].swept
      ensures all ==> states[k].shards[i].all == {} && i in states[k].sweptAll
    {
      assert ShardSwept(states[k], i);
    }
    forall c: nat | c < |states[k].conns| && states[k].conns[c].shared && states[k].conns[c].owner == None
      ensures states[k].conns[c].f.busy || !Live(states[k].conns[c].f)
      ensures all ==> !Live(states[k].conns[c].f)
    {
      SweptConn(states[k], c, all);
    }
  }

  lemma SweptConn(s: State, c: nat, all: bool)
    requires Core(s) && Sweeps(s) && SweptTo(s, all, |s.shards|)
    requires c < |s.conns| && s.conns[c].shared && s.conns[c].owner == None
    ensures s.conns[c].f.busy || !Live(s.conns[c].f)
    ensures all ==> !Live(s.conns[c].f)
  {
    hide ShardOf, ThreadOk, SweepOk, JobOk;
    assert ConnOk(s, c) && ShardSwept(s, Home(s, c));
    assert !IdleNow(s, Home(s, c), c);
  }

  /** Such a call that has returned leaves the listener drained. */
  lemma DrainReturns(states: seq<State>, who: seq<nat>, ops: seq<Op>, j: nat, m: nat, k: nat, all: bool)
    requires IsRun(states, who, ops) && j < m <= k < |states|
    requires At(states[j], who[j]) == Ready && ops[j] == Drain(all) && At(states[m], who[j]) == Ready
    ensures states[k].drained
    decreases k
  {
    hide Step, Init, SweptTo;
    if m < k {
      DrainReturns(states, who, ops, j, m, k - 1, all);
      assert Next(states[k - 1], who[k - 1], ops[k - 1], states[k]);
      DrainedLasts(states[k - 1], who[k - 1], ops[k - 1], states[k]);
    } else {
      DrainSweeps(states, who, ops, j, m, all);
    }
  }

  // ----- only Drain and DrainAll make a shard drain -----

  ghost predicate Undrained(s: State) {
    && (forall i: nat | i < |s.shards| :: !s.shards[i].drain)
    && (forall t: nat :: !Drains(At(s, t)))
  }

  predicate Drains(pc: PC) {
    InDrain(pc, true) || InDrain(pc, false)
  }

  lemma UndrainedReady(s: State, t: nat, op: Op, s': State)
    requires s.shards != [] && At(s, t) == Ready && StepReady(s, t, op) == Some(s') && !op.Drain?
    ensures s'.shards == s.shards && !Drains(At(s', t))
  {
    hide ShardOf, OnRead, OnClose, OnMarkIdle, OnMarkInUse, OnCloseIfIdle, OnDisown;
  }

  lemma UndrainedOther(s: State, t: nat, op: Op, s': State)
    requires s.shards != [] && At(s, t) != Ready && Step(s, t, op) == Some(s')
    requires !Drains(At(s, t))
    ensures !Drains(At(s', t))
    ensures |s'.shards| == |s.shards| && forall i: nat | i < |s.shards| :: s'.shards[i].drain == s.shards[i].drain
  {
    hide ShardOf, StepReady;
    if At(s, t).Holding? {
      HoldingReturns(s, t, op, s');
      hide Step;
    } else {
      hide Proceed;
    }
  }

  lemma UndrainedStep(s: State, t: nat, op: Op, s': State)
    requires s.shards != [] && Step(s, t, op) == Some(s') && Undrained(s) && !(At(s, t) == Ready && op.Drain?)
    ensures Undrained(s')
  {
    hide Drains, Step, ShardOf;
    forall u: nat
      ensures !Drains(At(s', u))
    {
      assert !Drains(At(s, u));
      if u != t {
        StepFrame(s, t, op, s', u);
      } else {
        UndrainedOwn(s, t, op, s');
      }
    }
    UndrainedOwn(s, t, op, s');
  }

  lemma UndrainedOwn(s: State, t: nat, op: Op, s': State)
    requires s.shards != [] && Step(s, t, op) == Some(s') && !(At(s, t) == Ready && op.Drain?)
    requires !Drains(At(s, t))
    ensures !Drains(At(s', t))
    ensures |s'.shards| == |s.shards| && forall i: nat | i < |s.shards| :: s'.shards[i].drain == s.shards[i].drain
  {
    hide Drains;
    if At(s, t) == Ready {
      hide StepReady;
      UndrainedReady(s, t, op, s');
    } else {
      hide Step;
      UndrainedOther(s, t, op, s');
    }
  }

  /** A shard drains only after somebody has called Drain or DrainAll; CloseIdle does
      not make it drain. */
  lemma {:induction false} DrainsOnlyWhenAsked(states: seq<State>, who: seq<nat>, ops: seq<Op>, k: nat)
    requires IsRun(states, who, ops) && k < |states|
    requires forall j: nat | j < k :: !(At(states[j], who[j]) == Ready && ops[j].Drain?)
    ensures Undrained(states[k])
    ensures forall i: nat | i < |states[k].shards| :: !states[k].shards[i].drain
  {
    hide Step, Undrained;
    if k > 0 {
      DrainsOnlyWhenAsked(states, who, ops, k - 1);
      assert Next(states[k - 1], who[k - 1], ops[k - 1], states[k]);
      hide Init;
      UndrainedStep(states[k - 1], who[k - 1], ops[k - 1], states[k]);
    } else {
      UndrainedInitially(states[0]);
    }
    UndrainedMeans(states[k]);
  }

  lemma UndrainedInitially(s: State)
    requires Init(s)
    ensures Undrained(s)
  {}

  lemma UndrainedMeans(s: State)
    requires Undrained(s)
    ensures forall i: nat | i < |s.shards| :: !s.shards[i].drain
  {}

  // ----- CloseIdle -----

  /** Tracked and idle, in the sets and by the flags. */
  predicate Idling(s: State, c: nat) {
    s.shards != [] && c < |s.conns| && s.conns[c].shared && s.conns[c].f == Flags(false, false, false) && InAll(s, c) && InIdle(s, c)
  }

  /** Closed or disowned, or about to be marked so. */
  predicate Leaving(s: State, c: nat) {
    && c < |s.conns|
    && (s.conns[c].f.closed || s.conns[c].f.disowned
        || (s.conns[c].owner.Some? && At(s, s.conns[c].owner.value).Holding? && At(s, s.conns[c].owner.value).todo == HandedOff))
  }

  predicate BusyAt(s: State, c: nat) {
    c < |s.conns| && s.conns[c].f.busy
  }

  lemma LeavingLasts(s: State, t: nat, op: Op, s': State, c: nat)
    requires Core(s) && Step(s, t, op) == Some(s') && Leaving(s, c)
    ensures Leaving(s', c)
  {
    hide Step, ShardOf, ThreadOk;
    assert ConnOk(s, c);
    StepTouches(s, t, op, s');
    if Touched(s, t, op) == c {
      LeavingTouched(s, t, op, s', c);
    }
  }

  lemma LeavingTouched(s: State, t: nat, op: Op, s': State, c: nat)
    requires Core(s) && Step(s, t, op) == Some(s') && Leaving(s, c) && Touched(s, t, op) == c
    ensures Leaving(s', c)
  {
    hide ShardOf;
    assert ThreadOk(s, t) && ConnOk(s, c);
    hide Core;
  }

  /** An idle connection stays in the idle set until it is used or leaves. */
  lemma IdlingGoesOn(s: State, t: nat, op: Op, s': State, c: nat)
    requires Core(s) && Step(s, t, op) == Some(s') && Idling(s, c)
    ensures Idling(s', c) || Leaving(s', c) || BusyAt(s', c)
  {
    hide Step, ShardOf, ThreadOk;
    assert ConnOk(s, c);
    StepTouches(s, t, op, s');
    if Touched(s, t, op) == c {
      IdlingTouched(s, t, op, s', c);
    } else {
      IdlingElsewhere(s, t, op, s', c);
    }
  }

  lemma IdlingTouched(s: State, t: nat, op: Op, s': State, c: nat)
    requires Core(s) && Step(s, t, op) == Some(s') && Idling(s, c) && Touched(s, t, op) == c
    ensures Idling(s', c) || Leaving(s', c) || BusyAt(s', c)
  {
    hide ShardOf;
    assert ThreadOk(s, t) && ConnOk(s, c);
    hide Core;
  }

  lemma IdlingElsewhere(s: State, t: nat, op: Op, s': State, c: nat)
    requires Core(s) && Step(s, t, op) == Some(s') && Idling(s, c) && Touched(s, t, op) != c
    requires Frame(s, t, s', Touched(s, t, op))
    ensures Idling(s', c)
  {
    hide ShardOf, Proceed, StepReady, OnRead, OnClose, OnMarkIdle, OnMarkInUse, OnCloseIfIdle, OnDisown;
    assert ThreadOk(s, t);
    hide Core;
    if At(s, t) == Ready {
      IdlingReady(s, t, op, s', c);
    } else if At(s, t).Holding? {
      IdlingHolding(s, t, c);
    }
  }

  lemma IdlingReady(s: State, t: nat, op: Op, s': State, c: nat)
    requires s.shards != [] && At(s, t) == Ready && StepReady(s, t, op) == Some(s') && Idling(s, c) && Touched(s, t, op) != c
    requires Frame(s, t, s', Touched(s, t, op))
    ensures Idling(s', c)
  {
    hide ShardOf, OnRead, OnClose, OnMarkIdle, OnMarkInUse, OnCloseIfIdle, OnDisown;
  }

  lemma IdlingHolding(s: State, t: nat, c: nat)
    requires At(s, t).Holding? && Idling(s, c) && At(s, t).c != c && At(s, t).c < |s.conns|
    ensures Idling(Proceed(s, t, At(s, t).c, At(s, t).todo, At(s, t).k), c)
  {
    hide ShardOf, Resume;
  }

  /** Inside CloseIdle, with c still before it; h is the home of c. */
  predicate Ahead(pc: PC, h: nat, c: nat) {
    match pc
    case JobAt(job, i) => job == IdleJob && i <= h
    case Sweeping(job, i, left) => job == IdleJob && (i < h || (i == h && c in left))
    case Holding(_, _, Back(job, i, left)) => job == IdleJob && (i < h || (i == h && c in left))
    case _ => false
  }

  lemma AheadGoesOn(s: State, t: nat, op: Op, s': State, c: nat)
    requires Core(s) && Step(s, t, op) == Some(s') && Idling(s, c) && Ahead(At(s, t), Home(s, c), c)
    ensures Ahead(At(s', t), Home(s, c), c) || Leaving(s', c)
  {
    hide ShardOf, Core, Proceed, Ahead, Leaving, Step, Idling;
    SetsOfCore(s);
    match At(s, t) {
      case Sweeping(_, _, _) => AheadSweeping(s, t, op, s', c);
      case Holding(d, todo, k) => AheadHolding(s, t, op, s', c);
      case _ => AheadNext(s, t, op, s', c);
    }
  }

  lemma AheadSweeping(s: State, t: nat, op: Op, s': State, c: nat)
    requires s.shards != [] && At(s, t).Sweeping? && Step(s, t, op) == Some(s') && Idling(s, c) && Ahead(At(s, t), Home(s, c), c)
    ensures Ahead(At(s', t), Home(s, c), c) || Leaving(s', c)
  {
    hide ShardOf, StepReady, Proceed;
  }

  lemma AheadHolding(s: State, t: nat, op: Op, s': State, c: nat)
    requires s.shards != [] && At(s, t).Holding? && Step(s, t, op) == Some(s') && Ahead(At(s, t), Home(s, c), c)
    ensures Ahead(At(s', t), Home(s, c), c)
  {
    hide ShardOf, StepReady;
    HoldingReturns(s, t, op, s');
    hide Step;
  }

  lemma AheadNext(s: State, t: nat, op: Op, s': State, c: nat)
    requires s.shards != [] && !At(s, t).Holding? && !At(s, t).Sweeping? && Step(s, t, op) == Some(s')
    requires Idling(s, c) && Ahead(At(s, t), Home(s, c), c)
    ensures Ahead(At(s', t), Home(s, c), c)
  {
    hide ShardOf, StepReady, Proceed;
  }

  lemma {:induction false} IdleCall(states: seq<State>, who: seq<nat>, ops: seq<Op>, j: nat, m: nat, c: nat)
    requires IsRun(states, who, ops) && j < m < |states|
    requires At(states[j], who[j]) == Ready && ops[j] == CloseIdle && Idling(states[j], c)
    requires forall k: nat | j < k <= m :: !BusyAt(states[k], c)
    ensures Leaving(states[m], c) || (Idling(states[m], c) && Ahead(At(states[m], who[j]), Home(states[m], c), c))
    decreases m
  {
    hide Core, Sweeps, Counted, Init, Idling, Ahead, Leaving, BusyAt, Step;
    var s, t, op, s' := states[m - 1], who[m - 1], ops[m - 1], states[m];
    assert Next(s, t, op, s');
    RunKeepsInvariants(states, who, ops, m - 1);
    if j == m - 1 {
      IdlingGoesOn(s, t, op, s', c);
      IdleStarts(s, t, s', c);
    } else {
      IdleCall(states, who, ops, j, m - 1, c);
      if Leaving(s, c) {
        LeavingLasts(s, t, op, s', c);
      } else {
        IdlingGoesOn(s, t, op, s', c);
        SetsOfCore(s);
        if t == who[j] {
          AheadGoesOn(s, t, op, s', c);
        }
        StepFrame(s, t, op, s', if t == who[j] then t + 1 else who[j]);
      }
    }
  }

  lemma IdleStarts(s: State, t: nat, s': State, c: nat)
    requires s.shards != [] && At(s, t) == Ready && Step(s, t, CloseIdle) == Some(s')
    ensures s'.shards == s.shards && Ahead(At(s', t), Home(s, c), c)
  {
    hide ShardOf;
  }

  /** If a goroutine calls CloseIdle while c is idle, on whatever shard, then by the
      time the call returns c has been in use, or is closed or disowned (unless a
      disown of it is under way). */
  lemma CloseIdleReaches(states: seq<State>, who: seq<nat>, ops: seq<Op>, j: nat, m: nat, c: nat)
    requires IsRun(states, who, ops) && j < m < |states|
    requires At(states[j], who[j]) == Ready && ops[j] == CloseIdle && At(states[m], who[j]) == Ready
    requires c < |states[j].conns| && states[j].conns[c].shared && states[j].conns[c].owner == None
    requires Live(states[j].conns[c].f) && !states[j].conns[c].f.busy
    ensures c < |states[m].conns| || exists k: nat :: j < k <= m && BusyAt(states[k], c)
    ensures (exists k: nat :: j < k <= m && BusyAt(states[k], c))
            || (states[m].conns[c].owner == None ==> states[m].conns[c].f.closed || states[m].conns[c].f.disowned)
  {
    hide Core, Sweeps, Counted, Init, Step;
    RunKeepsInvariants(states, who, ops, j);
    IdleIsIdling(states[j], c);
    if forall k: nat | j < k <= m :: !BusyAt(states[k], c) {
      IdleCall(states, who, ops, j, m, c);
    }
  }

  lemma IdleIsIdling(s: State, c: nat)
    requires Core(s) && c < |s.conns| && s.conns[c].shared && s.conns[c].owner == None && Live(s.conns[c].f) && !s.conns[c].f.busy
    ensures Idling(s, c)
  {
    hide ShardOf, ThreadOk;
    assert ConnOk(s, c);
  }

  // ----- SetReadDeadline outside Deadline mode -----

  ghost predicate NoneDeferred(s: State) {
    forall t :: !At(s, t).Deferred?
  }

  lemma DeferredStep(s: State, t: nat, op: Op, s': State)
    requires s.shards != [] && Step(s, t, op) == Some(s')
    ensures s'.mode == s.mode
    ensures s.mode != Deadline && !At(s, t).Deferred? ==> !At(s', t).Deferred?
  {
    hide ShardOf, Proceed, OnRead, OnClose, OnMarkIdle, OnMarkInUse, OnCloseIfIdle, OnDisown;
    if At(s, t).Holding? {
      DeferredHolding(s, t);
    }
  }

  lemma DeferredHolding(s: State, t: nat)
    requires s.shards != [] && At(s, t).Holding? && At(s, t).c < |s.conns|
    ensures var s' := Proceed(s, t, At(s, t).c, At(s, t).todo, At(s, t).k);
            s'.mode == s.mode && !At(s', t).Deferred?
  {
    hide ShardOf;
  }

  /** In the other modes no goroutine is ever about to mark a connection idle for
      SetReadDeadline; and the mode never changes. */
  lemma {:induction false} OnlyDeadlineDefers(states: seq<State>, who: seq<nat>, ops: seq<Op>, k: nat)
    requires IsRun(states, who, ops) && k < |states|
    ensures states[k].mode == states[0].mode && (states[k].mode != Deadline ==> NoneDeferred(states[k]))
  {
    hide Step;
    if k > 0 {
      var s, t, op, s' := states[k - 1], who[k - 1], ops[k - 1], states[k];
      OnlyDeadlineDefers(states, who, ops, k - 1);
      assert Next(s, t, op, s');
      hide Init;
      DeferredStep(s, t, op, s');
      forall u | s'.mode != Deadline
        ensures !At(s', u).Deferred?
      {
        if u != t {
          StepFrame(s, t, op, s', u);
        }
      }
    }
  }

  /** So in Automatic mode a connection that has been read stays in use, SetReadDeadline
      or not, until it is marked idle, closed or disowned by a call, or DrainAll closes
      it. */
  lemma InUseInAutomaticMode(states: seq<State>, who: seq<nat>, ops: seq<Op>, j: nat, k: nat, c: nat)
    requires IsRun(states, who, ops) && j < k < |states|
    requires At(states[j], who[j]) == Ready && ops[j] == Read(c, true) && states[j].mode == Automatic
    requires c < |states[j].conns| && !states[j].conns[c].f.disowned && !states[j].conns[c].f.closed
    requires forall m: nat | j < m < k :: At(states[m], who[m]) == Ready ==> ops[m] != MarkIdle(c) && ops[m] != Close(c) && ops[m] != Disown(c)
    requires forall m: nat | j < m < k :: At(states[m], who[m]).Sweeping? && At(states[m], who[m]).job == DrainJob(true) ==> ops[m] != Take(c)
    ensures InUse(states[k], c)
  {
    hide Next, Init, NoneDeferred;
    forall m: nat | j < m < k
      ensures !EndsUse(states[m], who[m], ops[m], c)
    {
      OnlyDeadlineDefers(states, who, ops, m);
      OnlyDeadlineDefers(states, who, ops, j);
      NotDeferred(states[m], who[m]);
    }
    InUseIsNotClosed(states, who, ops, j, k, c);
  }

  lemma NotDeferred(s: State, t: nat)
    requires NoneDeferred(s)
    ensures !At(s, t).Deferred?
  {}
}
