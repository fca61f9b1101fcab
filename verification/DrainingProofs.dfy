/** Safety of draining over whole runs: what a returned closeConns, CloseIdle, Drain
    or DrainAll has achieved, whatever the interleaving. */
module DrainingProofs {
  import opened Options
  import opened Draining

  // ----- one step, seen from one shard -----

  /** Tracked connections a sweep of idle ones still has to deal with. */
  predicate IdleNow(s: State, i: nat, c: nat)
    requires i < |s.shards|
  {
    c in s.shards[i].all && c < |s.conns| && s.conns[c].owner == None && !s.conns[c].f.busy
  }

  ghost predicate OnlyShrinks(s: State, s': State, i: nat)
    requires i < |s.shards| && |s'.shards| == |s.shards|
  {
    && s'.shards[i].drain
    && s'.shards[i].all <= s.shards[i].all
    && forall c: nat {:trigger IdleNow(s', i, c)} | IdleNow(s', i, c) :: IdleNow(s, i, c)
  }

  /** What is known of the connection a goroutine has locked. */
  lemma OwnedConn(s: State, t: nat)
    requires Core(s) && Owns(At(s, t)).Some?
    ensures var c := Owns(At(s, t)).value; c < |s.conns| && s.conns[c].owner == Some(t) && ConnOk(s, c)
  {
    hide ConnOk;
    assert ThreadOk(s, t);
  }

  lemma FreeConn(s: State, c: nat)
    requires Core(s) && Free(s, c)
    ensures Settled(s.conns[c], InAll(s, c), InIdle(s, c))
  {
    hide ThreadOk, ShardOf;
    assert ConnOk(s, c);
  }

  lemma EnterShrinks(s: State, t: nat, c: nat, r: (Flags, Option<Todo>), k: Cont, i: nat)
    requires s.shards != [] && c < |s.conns| && i < |s.shards| && s.shards[i].drain
    ensures Enter(s, t, c, r, k).shards == s.shards && OnlyShrinks(s, Enter(s, t, c, r, k), i)
  {}

  lemma ProceedShrinks(s: State, t: nat, c: nat, todo: Todo, k: Cont, i: nat)
    requires Core(s) && At(s, t) == Holding(c, todo, k) && i < |s.shards| && s.shards[i].drain
    ensures c < |s.conns| && |Proceed(s, t, c, todo, k).shards| == |s.shards| && OnlyShrinks(s, Proceed(s, t, c, todo, k), i)
  {
    hide ShardOf;
    OwnedConn(s, t);
    HeldAtHome(s, i, c);
  }

  lemma ConstructShrinks(s: State, t: nat, s': State, i: nat)
    requires Core(s) && (At(s, t).Accepted? || At(s, t).Tracking?) && Step(s, t, Go) == Some(s')
    requires i < |s.shards| && s.shards[i].drain
    ensures |s'.shards| == |s.shards| && OnlyShrinks(s, s', i)
  {
    hide ShardOf;
    OwnedConn(s, t);
    HeldAtHome(s, i, Owns(At(s, t)).value);
  }

  /** On a draining shard nothing is newly tracked, and nothing tracked becomes idle
      outside a critical section. */
  lemma DrainingOnlyShrinks(s: State, t: nat, op: Op, s': State, i: nat)
    requires Core(s) && Step(s, t, op) == Some(s') && i < |s.shards| && s.shards[i].drain
    ensures |s'.shards| == |s.shards| && OnlyShrinks(s, s', i)
  {
    hide Core, Enter, Proceed, ShardOf, OnRead, OnClose, OnMarkIdle, OnMarkInUse, OnCloseIfIdle, OnDisown;
    match At(s, t) {
      case Ready => ReadyShrinks(s, t, op, s', i);
      case Accepted(c) => ConstructShrinks(s, t, s', i);
      case Tracking(c) => ConstructShrinks(s, t, s', i);
      case Rejected(c) => EnterShrinks(s, t, c, OnClose(s.conns[c].f), User, i);
      case Deferred(c) => EnterShrinks(s, t, c, OnMarkIdle(s.conns[c].f), User, i);
      case Holding(c, todo, k) => ProceedShrinks(s, t, c, todo, k, i);
      case JobAt(job, j) =>
      case Sweeping(job, j, left) =>
        if op.Take? {
          var f := s.conns[op.c].f;
          EnterShrinks(s, t, op.c, if job.All() then OnClose(f) else OnCloseIfIdle(f), Back(job, j, left - {op.c}), i);
        }
      case Waiting(all, j) =>
    }
  }

  lemma ReadyShrinks(s: State, t: nat, op: Op, s': State, i: nat)
    requires Core(s) && At(s, t) == Ready && StepReady(s, t, op) == Some(s') && i < |s.shards| && s.shards[i].drain
    ensures |s'.shards| == |s.shards| && OnlyShrinks(s, s', i)
  {
    hide ThreadOk, Enter, ShardOf, OnRead, OnClose, OnMarkIdle, OnMarkInUse, OnCloseIfIdle, OnDisown;
    match op {
      case Accept =>
        assert Core(s);
      case Read(c, ok) => EnterShrinks(s, t, c, OnRead(s.mode, s.conns[c].f, ok), User, i);
      case Close(c) => EnterShrinks(s, t, c, OnClose(s.conns[c].f), User, i);
      case MarkIdle(c) => EnterShrinks(s, t, c, OnMarkIdle(s.conns[c].f), User, i);
      case MarkInUse(c) => EnterShrinks(s, t, c, OnMarkInUse(s.conns[c].f), User, i);
      case Disown(c) => EnterShrinks(s, t, c, OnDisown(s.conns[c].f), User, i);
      case _ =>
    }
  }

  // ----- what sweeps still owe -----

  datatype Sweep = Sweep(job: Job, i: nat, left: set<nat>, now: Option<nat>)

  function SweepOf(pc: PC): Option<Sweep> {
    match pc
    case Sweeping(job, i, left) => Some(Sweep(job, i, left, None))
    case Holding(c, _, Back(job, i, left)) => Some(Sweep(job, i, left, Some(c)))
    case _ => None
  }

  /** A draining sweep has every connection it must close still before it. */
  ghost predicate SweepOk(s: State, t: nat) {
    match SweepOf(At(s, t))
    case None => true
    case Some(Sweep(job, i, left, now)) =>
      && i < |s.shards|
      && (At(s, t).Holding? ==> At(s, t).todo == Untrack || At(s, t).todo == Done)
      && (job.DrainJob? ==>
            && s.shards[i].drain
            && (forall c: nat {:trigger IdleNow(s, i, c)} | IdleNow(s, i, c) :: c in left)
            && (job.all ==> forall c: nat | c in s.shards[i].all :: c in left || now == Some(c)))
  }

  ghost predicate SweptTo(s: State, all: bool, n: nat) {
    forall i: nat | i < n && i < |s.shards| :: i in s.swept && (all ==> i in s.sweptAll)
  }

  /** A drain has swept every shard behind it. */
  ghost predicate JobOk(s: State, t: nat) {
    match At(s, t)
    case JobAt(DrainJob(all), i) => SweptTo(s, all, i)
    case Waiting(all, _) => SweptTo(s, all, |s.shards|)
    case Sweeping(DrainJob(all), i, _) => SweptTo(s, all, i)
    case Holding(_, _, Back(DrainJob(all), i, _)) => SweptTo(s, all, i)
    case _ => true
  }

  /** After closeConns(_, true): draining, and nothing tracked is idle outside a
      critical section. After closeConns(true, true): nothing is tracked. */
  ghost predicate ShardSwept(s: State, i: nat)
    requires i < |s.shards|
  {
    && (i in s.swept ==> s.shards[i].drain && forall c: nat {:trigger IdleNow(s, i, c)} :: !IdleNow(s, i, c))
    && (i in s.sweptAll ==> s.shards[i].drain && s.shards[i].all == {})
  }

  ghost predicate Sweeps(s: State) {
    && (forall t :: SweepOk(s, t) && JobOk(s, t))
    && (forall i: nat | i < |s.shards| :: ShardSwept(s, i))
  }

  lemma SweepsInitially(s: State)
    requires Init(s)
    ensures Sweeps(s)
  {}

  lemma OthersSweep(s: State, t: nat, op: Op, s': State, u: nat)
    requires Core(s) && Step(s, t, op) == Some(s') && u != t && SweepOk(s, u) && JobOk(s, u)
    ensures SweepOk(s', u) && JobOk(s', u)
  {
    hide Step, ConnOk, ThreadOk, ShardOf;
    StepFrame(s, t, op, s', u);
    var w := SweepOf(At(s, u));
    if w.Some? && w.value.job.DrainJob? {
      DrainingOnlyShrinks(s, t, op, s', w.value.i);
    }
  }

  lemma EnterFrame(s: State, t: nat, c: nat, r: (Flags, Option<Todo>), k: Cont, u: nat)
    requires c < |s.conns| && u != t
    ensures var s' := Enter(s, t, c, r, k); At(s', u) == At(s, u) && s'.shards == s.shards && s'.swept == s.swept && s'.sweptAll == s.sweptAll
  {}

  lemma ProceedFrame(s: State, t: nat, c: nat, todo: Todo, k: Cont, u: nat)
    requires c < |s.conns| && u != t && s.shards != []
    ensures var s' := Proceed(s, t, c, todo, k);
            At(s', u) == At(s, u) && |s'.shards| == |s.shards| && s'.swept == s.swept && s'.sweptAll == s.sweptAll
  {
    hide ShardOf, Resume;
  }

  /** A step leaves other goroutines where they are and forgets nothing. */
  lemma StepFrame(s: State, t: nat, op: Op, s': State, u: nat)
    requires s.shards != [] && Step(s, t, op) == Some(s') && u != t
    ensures At(s', u) == At(s, u) && |s'.shards| == |s.shards| && s.swept <= s'.swept && s.sweptAll <= s'.sweptAll
  {
    hide Enter, Proceed, ShardOf, OnRead, OnClose, OnMarkIdle, OnMarkInUse, OnCloseIfIdle, OnDisown;
    match At(s, t) {
      case Ready =>
        match op {
          case Read(c, ok) => EnterFrame(s, t, c, OnRead(s.mode, s.conns[c].f, ok), User, u);
          case Close(c) => EnterFrame(s, t, c, OnClose(s.conns[c].f), User, u);
          case MarkIdle(c) => EnterFrame(s, t, c, OnMarkIdle(s.conns[c].f), User, u);
          case MarkInUse(c) => EnterFrame(s, t, c, OnMarkInUse(s.conns[c].f), User, u);
          case Disown(c) => EnterFrame(s, t, c, OnDisown(s.conns[c].f), User, u);
          case _ =>
        }
      case Rejected(c) => EnterFrame(s, t, c, OnClose(s.conns[c].f), User, u);
      case Deferred(c) => EnterFrame(s, t, c, OnMarkIdle(s.conns[c].f), User, u);
      case Holding(c, todo, k) => ProceedFrame(s, t, c, todo, k, u);
      case Sweeping(job, j, left) =>
        if op.Take? {
          var f := s.conns[op.c].f;
          EnterFrame(s, t, op.c, if job.All() then OnClose(f) else OnCloseIfIdle(f), Back(job, j, left - {op.c}), u);
        }
      case _ =>
    }
  }

  lemma TakeKeepsSweep(s: State, t: nat, op: Op, s': State)
    requires Core(s) && SweepOk(s, t) && JobOk(s, t)
    requires At(s, t).Sweeping? && op.Take? && Step(s, t, op) == Some(s')
    ensures SweepOk(s', t) && JobOk(s', t)
  {
    hide ShardOf, Core;
    var Sweeping(job, i, left) := At(s, t);
    var c := op.c;
    FreeConn(s, c);
    SetsOfCore(s);
    HeldAtHome(s, i, c);
    if job.DrainJob? {
      var f := s.conns[c].f;
      EnterShrinks(s, t, c, if job.All() then OnClose(f) else OnCloseIfIdle(f), Back(job, i, left - {c}), i);
      assert !IdleNow(s', i, c);
      forall d: nat | IdleNow(s', i, d)
        ensures d in left - {c}
      {
        assert IdleNow(s, i, d);
      }
    }
  }

  lemma SetsOfCore(s: State)
    requires Core(s)
    ensures SetsOk(s)
  {}

  lemma ProceedKeepsSweep(s: State, t: nat, s': State)
    requires Core(s) && SweepOk(s, t) && JobOk(s, t)
    requires At(s, t).Holding? && Step(s, t, Go) == Some(s')
    ensures SweepOk(s', t) && JobOk(s', t)
  {
    hide ShardOf, Core;
    var Holding(c, todo, k) := At(s, t);
    OwnedConn(s, t);
    SetsOfCore(s);
    if k.Back? {
      HeldAtHome(s, k.i, c);
      if k.job.DrainJob? {
        ProceedShrinks(s, t, c, todo, k, k.i);
      }
    }
  }

  lemma SnapshotStartsSweep(s: State, t: nat, job: Job, i: nat)
    requires Core(s) && At(s, t) == JobAt(job, i) && i < |s.shards| && JobOk(s, t)
    ensures SweepOk(Snapshot(s, t, job, i), t) && JobOk(Snapshot(s, t, job, i), t)
  {
    hide ShardOf, Core;
    var s' := Snapshot(s, t, job, i);
    if job.DrainJob? {
      forall c: nat | IdleNow(s', i, c)
        ensures c in s.shards[i].idle
      {
        IdleIsInIdle(s, i, c);
      }
    }
  }

  lemma IdleIsInIdle(s: State, i: nat, c: nat)
    requires Core(s) && i < |s.shards| && IdleNow(s, i, c)
    ensures c in s.shards[i].idle
  {
    hide ShardOf, ThreadOk;
    assert ConnOk(s, c);
    HeldAtHome(s, i, c);
  }

  /** The goroutine that steps stays on course as well. */
  lemma OwnSweep(s: State, t: nat, op: Op, s': State)
    requires Core(s) && Step(s, t, op) == Some(s') && SweepOk(s, t) && JobOk(s, t)
    ensures SweepOk(s', t) && JobOk(s', t)
  {
    hide Snapshot, Proceed, ShardOf, OnRead, OnClose, OnMarkIdle, OnMarkInUse, OnCloseIfIdle, OnDisown, ConnOk, ThreadOk;
    match At(s, t) {
      case Ready => ReadyStartsNoSweep(s, t, op, s');
      case Sweeping(job, i, left) =>
        if op.Take? {
          TakeKeepsSweep(s, t, op, s');
        }
      case Holding(c, todo, k) => ProceedKeepsSweep(s, t, s');
      case JobAt(job, i) =>
        if i < |s.shards| {
          SnapshotStartsSweep(s, t, job, i);
        }
      case _ =>
    }
  }

  lemma ReadyStartsNoSweep(s: State, t: nat, op: Op, s': State)
    requires s.shards != [] && At(s, t) == Ready && StepReady(s, t, op) == Some(s')
    ensures SweepOk(s', t) && JobOk(s', t)
  {
    hide ShardOf, OnRead, OnClose, OnMarkIdle, OnMarkInUse, OnCloseIfIdle, OnDisown;
  }

  /** Only the return of closeConns adds to what has been swept. */
  lemma SweptGrows(s: State, t: nat, op: Op, s': State)
    requires s.shards != [] && Step(s, t, op) == Some(s')
    ensures || (s'.swept == s.swept && s'.sweptAll == s.sweptAll)
            || (At(s, t).Sweeping? && At(s, t).left == {} && s' == Swept(s, t, At(s, t).job, At(s, t).i))
  {
    hide Enter, Proceed, ShardOf, OnRead, OnClose, OnMarkIdle, OnMarkInUse, OnCloseIfIdle, OnDisown;
    match At(s, t) {
      case Ready =>
        match op {
          case Read(c, ok) => EnterFrame(s, t, c, OnRead(s.mode, s.conns[c].f, ok), User, t + 1);
          case Close(c) => EnterFrame(s, t, c, OnClose(s.conns[c].f), User, t + 1);
          case MarkIdle(c) => EnterFrame(s, t, c, OnMarkIdle(s.conns[c].f), User, t + 1);
          case MarkInUse(c) => EnterFrame(s, t, c, OnMarkInUse(s.conns[c].f), User, t + 1);
          case Disown(c) => EnterFrame(s, t, c, OnDisown(s.conns[c].f), User, t + 1);
          case _ =>
        }
      case Rejected(c) => EnterFrame(s, t, c, OnClose(s.conns[c].f), User, t + 1);
      case Deferred(c) => EnterFrame(s, t, c, OnMarkIdle(s.conns[c].f), User, t + 1);
      case Holding(c, todo, k) => ProceedFrame(s, t, c, todo, k, t + 1);
      case Sweeping(job, j, left) =>
        if op.Take? {
          var f := s.conns[op.c].f;
          EnterFrame(s, t, op.c, if job.All() then OnClose(f) else OnCloseIfIdle(f), Back(job, j, left - {op.c}), t + 1);
        }
      case _ =>
    }
  }

  lemma ShardSweptKept(s: State, t: nat, op: Op, s': State, i: nat)
    requires Core(s) && Sweeps(s) && Step(s, t, op) == Some(s') && i < |s.shards| == |s'.shards|
    ensures ShardSwept(s', i)
  {
    hide Core, ShardOf, Step;
    assert ShardSwept(s, i) && SweepOk(s, t);
    SetsOfCore(s);
    SweptGrows(s, t, op, s');
    if s.shards[i].drain {
      DrainingOnlyShrinks(s, t, op, s', i);
    }
  }

  lemma SweepsKept(s: State, t: nat, op: Op, s': State)
    requires Core(s) && Sweeps(s) && Step(s, t, op) == Some(s')
    ensures Sweeps(s')
  {
    hide Core, ShardOf, Step, SweepOk, JobOk, ShardSwept;
    SetsOfCore(s);
    StepFrame(s, t, op, s', t + 1);
    forall u
      ensures SweepOk(s', u) && JobOk(s', u)
    {
      assert SweepOk(s, u) && JobOk(s, u);
      if u == t {
        OwnSweep(s, t, op, s');
      } else {
        OthersSweep(s, t, op, s', u);
      }
    }
    forall i: nat | i < |s'.shards|
      ensures ShardSwept(s', i)
    {
      ShardSweptKept(s, t, op, s', i);
    }
  }
}
