/** What the draining protocol guarantees over whole runs: complete draining, an
    exact WaitGroup, and connections in use left alone. */
module DrainingTheorems {
  import opened Options
  import opened Draining
  import opened DrainingProofs

  // ----- which connection a step touches -----

  function Touched(s: State, t: nat, op: Op): nat {
    match At(s, t)
    case Accepted(c) => c
    case Tracking(c) => c
    case Rejected(c) => c
    case Deferred(c) => c
    case Holding(c, _, _) => c
    case Sweeping(_, _, _) => if op.Take? then op.c else |s.conns|
    case Ready =>
      if op.Read? || op.Close? || op.SetReadDeadline? || op.MarkIdle? || op.MarkInUse? || op.Disown? then op.c else |s.conns|
    case _ => |s.conns|
  }

  /** All a step may change of the connections. */
  ghost predicate Frame(s: State, t: nat, s': State, c: nat) {
    && |s'.conns| >= |s.conns|
    && (|s'.conns| > |s.conns| ==> c == |s.conns| && |s'.conns| == c + 1)
    && (forall d: nat | d < |s.conns| && d != c :: s'.conns[d] == s.conns[d])
    && (forall u: nat | u != t :: At(s', u) == At(s, u))
  }

  lemma EnterTouchesOne(s: State, t: nat, c: nat, r: (Flags, Option<Todo>), k: Cont)
    requires c < |s.conns|
    ensures Frame(s, t, Enter(s, t, c, r, k), c)
    ensures !At(Enter(s, t, c, r, k), t).Waiting? && Enter(s, t, c, r, k).drained == s.drained
  {}

  lemma StepTouches(s: State, t: nat, op: Op, s': State)
    requires s.shards != [] && Step(s, t, op) == Some(s')
    ensures Frame(s, t, s', Touched(s, t, op))
  {
    hide Enter, Proceed, Frame, StepReady, ShardOf, OnRead, OnClose, OnMarkIdle, OnMarkInUse, OnCloseIfIdle, OnDisown;
    match At(s, t) {
      case Ready => ReadyTouches(s, t, op, s');
      case Rejected(c) => EnterTouchesOne(s, t, c, OnClose(s.conns[c].f), User);
      case Deferred(c) => EnterTouchesOne(s, t, c, OnMarkIdle(s.conns[c].f), User);
      case Holding(c, todo, k) => HoldingFrame(s, t, s');
      case Sweeping(job, i, left) =>
        if op.Take? {
          var f := s.conns[op.c].f;
          EnterTouchesOne(s, t, op.c, if job.All() then OnClose(f) else OnCloseIfIdle(f), Back(job, i, left - {op.c}));
        } else {
          PlainTouches(s, t, op, s');
        }
      case _ => PlainTouches(s, t, op, s');
    }
  }

  lemma ReadyTouches(s: State, t: nat, op: Op, s': State)
    requires At(s, t) == Ready && StepReady(s, t, op) == Some(s')
    ensures Frame(s, t, s', Touched(s, t, op))
    ensures !At(s', t).Waiting? && s'.drained == s.drained
  {
    hide Enter, OnRead, OnClose, OnMarkIdle, OnMarkInUse, OnDisown;
    match op {
      case Read(c, ok) => EnterTouchesOne(s, t, c, OnRead(s.mode, s.conns[c].f, ok), User);
      case Close(c) => EnterTouchesOne(s, t, c, OnClose(s.conns[c].f), User);
      case MarkIdle(c) => EnterTouchesOne(s, t, c, OnMarkIdle(s.conns[c].f), User);
      case MarkInUse(c) => EnterTouchesOne(s, t, c, OnMarkInUse(s.conns[c].f), User);
      case Disown(c) => EnterTouchesOne(s, t, c, OnDisown(s.conns[c].f), User);
      case _ =>
    }
  }

  lemma PlainTouches(s: State, t: nat, op: Op, s': State)
    requires s.shards != [] && Step(s, t, op) == Some(s')
    requires var pc := At(s, t); pc.Accepted? || pc.Tracking? || pc.JobAt? || pc.Waiting? || (pc.Sweeping? && !op.Take?)
    ensures Frame(s, t, s', Touched(s, t, op))
  {
    hide ShardOf, Enter, Proceed, StepReady;
  }

  lemma HoldingFrame(s: State, t: nat, s': State)
    requires s.shards != [] && At(s, t).Holding? && (Step(s, t, Go) == Some(s'))
    ensures Frame(s, t, s', At(s, t).c)
  {
    hide ShardOf, Resume;
  }

  // ----- connections in use -----

  /** Busy and open, and no one is about to change that. */
  ghost predicate InUse(s: State, c: nat) {
    && c < |s.conns|
    && s.conns[c].shared
    && s.conns[c].f == Flags(true, false, false)
    && (s.conns[c].owner.Some? ==>
          At(s, s.conns[c].owner.value).Holding? && At(s, s.conns[c].owner.value).todo == TellInUse)
  }

  /** The steps that may end the use of c: it is marked idle (by the user, or by
      SetReadDeadline in Deadline mode), closed by the user, disowned, or closed by
      DrainAll. */
  predicate EndsUse(s: State, t: nat, op: Op, c: nat) {
    match At(s, t)
    case Ready => op == MarkIdle(c) || op == Close(c) || op == Disown(c)
    case Deferred(d) => d == c
    case Sweeping(job, _, _) => job.All() && op == Take(c)
    case _ => false
  }

  lemma UseGoesOn(s: State, t: nat, op: Op, s': State, c: nat)
    requires Core(s) && Step(s, t, op) == Some(s') && InUse(s, c) && !EndsUse(s, t, op, c)
    ensures InUse(s', c)
  {
    hide ShardOf, Step, ThreadOk;
    assert ConnOk(s, c);
    StepTouches(s, t, op, s');
    if Touched(s, t, op) == c {
      UseOfTouched(s, t, op, s', c);
    }
  }

  lemma UseOfTouched(s: State, t: nat, op: Op, s': State, c: nat)
    requires Core(s) && Step(s, t, op) == Some(s') && InUse(s, c) && !EndsUse(s, t, op, c)
    requires Touched(s, t, op) == c
    ensures InUse(s', c)
  {
    hide ShardOf;
    assert ConnOk(s, c);
    assert ThreadOk(s, t);
  }

  // ----- the WaitGroup -----

  function Bit(b: bool): int {
    if b then 1 else 0
  }

  /** What a connection has added to its shard's counter, on balance. */
  function Weight(x: Conn): int {
    if x.added then 1 - Bit(x.closeDone) - Bit(x.disownDone) else 0
  }

  function Sum(conns: seq<Conn>, i: nat, n: nat): int
    requires n > 0
  {
    if conns == [] then 0
    else
      var c := |conns| - 1;
      Sum(conns[..c], i, n) + if ShardOf(c, n) == i then Weight(conns[c]) else 0
  }

  lemma {:induction false} SumUpdate(conns: seq<Conn>, c: nat, x: Conn, i: nat, n: nat)
    requires n > 0 && c < |conns|
    ensures Sum(conns[c := x], i, n) == Sum(conns, i, n) + if ShardOf(c, n) == i then Weight(x) - Weight(conns[c]) else 0
  {
    hide ShardOf, Weight;
    var k := |conns| - 1;
    if c < k {
      SumUpdate(conns[..k], c, x, i, n);
      assert conns[c := x][..k] == conns[..k][c := x];
    } else {
      assert conns[c := x][..k] == conns[..k];
    }
  }

  lemma {:induction false} SumAtLeast(conns: seq<Conn>, c: nat, i: nat, n: nat)
    requires n > 0 && c < |conns| && ShardOf(c, n) == i
    requires forall d: nat | d < |conns| :: Weight(conns[d]) >= 0
    ensures Sum(conns, i, n) >= Weight(conns[c])
  {
    hide ShardOf, Weight;
    var k := |conns| - 1;
    if c < k {
      SumAtLeast(conns[..k], c, i, n);
    } else {
      SumNonNegative(conns[..k], i, n);
    }
  }

  lemma {:induction false} SumNonNegative(conns: seq<Conn>, i: nat, n: nat)
    requires n > 0 && forall d: nat | d < |conns| :: Weight(conns[d]) >= 0
    ensures Sum(conns, i, n) >= 0
  {
    hide ShardOf, Weight;
    if conns != [] {
      SumNonNegative(conns[..|conns| - 1], i, n);
    }
  }

  /** Every shard's counter is the balance over its connections. */
  ghost predicate Counted(s: State) {
    s.shards != [] && forall i: nat | i < |s.shards| :: s.shards[i].wg == Sum(s.conns, i, |s.shards|)
  }

  /** A step that changes one connection and counts what it changed. */
  lemma CountedUpdate(s: State, s': State, c: nat)
    requires Counted(s) && |s'.shards| == |s.shards| && c < |s.conns| && |s'.conns| == |s.conns|
    requires s'.conns == s.conns[c := s'.conns[c]]
    requires forall i: nat | i < |s.shards| ::
      s'.shards[i].wg == s.shards[i].wg + if Home(s, c) == i then Weight(s'.conns[c]) - Weight(s.conns[c]) else 0
    ensures Counted(s')
  {
    hide ShardOf, Weight, Sum;
    forall i: nat | i < |s'.shards|
      ensures s'.shards[i].wg == Sum(s'.conns, i, |s'.shards|)
    {
      SumUpdate(s.conns, c, s'.conns[c], i, |s.shards|);
    }
  }

  lemma CountedEnter(s: State, t: nat, c: nat, r: (Flags, Option<Todo>), k: Cont)
    requires Counted(s) && c < |s.conns|
    ensures Counted(Enter(s, t, c, r, k))
  {
    hide ShardOf, Sum;
    if r.1.Some? {
      CountedUpdate(s, Enter(s, t, c, r, k), c);
    }
  }

  lemma CountedProceed(s: State, t: nat, c: nat, todo: Todo, k: Cont)
    requires Core(s) && Counted(s) && At(s, t) == Holding(c, todo, k)
    ensures c < |s.conns| && Counted(Proceed(s, t, c, todo, k))
  {
    hide ShardOf, Sum, Resume;
    OwnedConn(s, t);
    var s' := Proceed(s, t, c, todo, k);
    assert s.conns[c := s.conns[c]] == s.conns;
    CountedUpdate(s, s', c);
  }

  lemma CountedKept(s: State, t: nat, op: Op, s': State)
    requires Core(s) && Counted(s) && Step(s, t, op) == Some(s')
    ensures Counted(s')
  {
    hide Enter, Proceed, ShardOf, ConnOk, ThreadOk, Sum, OnRead, OnClose, OnMarkIdle, OnMarkInUse, OnCloseIfIdle, OnDisown;
    match At(s, t) {
      case Ready => CountedReady(s, t, op, s');
      case Accepted(c) => CountedAccepted(s, t, c, s');
      case Tracking(c) => CountedTracking(s, t, c, s');
      case Rejected(c) => CountedEnter(s, t, c, OnClose(s.conns[c].f), User);
      case Deferred(c) => CountedEnter(s, t, c, OnMarkIdle(s.conns[c].f), User);
      case Holding(c, todo, k) => CountedProceed(s, t, c, todo, k);
      case Sweeping(job, i, left) =>
        if op.Take? {
          var f := s.conns[op.c].f;
          CountedEnter(s, t, op.c, if job.All() then OnClose(f) else OnCloseIfIdle(f), Back(job, i, left - {op.c}));
        }
      case _ =>
    }
  }

  lemma CountedReady(s: State, t: nat, op: Op, s': State)
    requires Counted(s) && At(s, t) == Ready && StepReady(s, t, op) == Some(s')
    ensures Counted(s')
  {
    hide Enter, ShardOf, OnRead, OnClose, OnMarkIdle, OnMarkInUse, OnCloseIfIdle, OnDisown;
    match op {
      case Accept =>
        assert s'.conns[..|s.conns|] == s.conns;
      case Read(c, ok) => CountedEnter(s, t, c, OnRead(s.mode, s.conns[c].f, ok), User);
      case Close(c) => CountedEnter(s, t, c, OnClose(s.conns[c].f), User);
      case MarkIdle(c) => CountedEnter(s, t, c, OnMarkIdle(s.conns[c].f), User);
      case MarkInUse(c) => CountedEnter(s, t, c, OnMarkInUse(s.conns[c].f), User);
      case Disown(c) => CountedEnter(s, t, c, OnDisown(s.conns[c].f), User);
      case _ =>
    }
  }

  lemma CountedAccepted(s: State, t: nat, c: nat, s': State)
    requires Core(s) && Counted(s) && At(s, t) == Accepted(c) && Step(s, t, Go) == Some(s')
    ensures Counted(s')
  {
    hide ShardOf, Sum;
    OwnedConn(s, t);
    CountedUpdate(s, s', c);
  }

  lemma CountedTracking(s: State, t: nat, c: nat, s': State)
    requires Core(s) && Counted(s) && At(s, t) == Tracking(c) && Step(s, t, Go) == Some(s')
    ensures Counted(s')
  {
    hide ShardOf, Sum;
    OwnedConn(s, t);
    assert s.conns[c := s.conns[c]] == s.conns;
    CountedUpdate(s, s', c);
  }

  // ----- disowning what is already closed -----

  /** The one call that spoils the count: disown only asks whether the connection is
      disowned, not whether it is closed. */
  predicate DisownsClosed(s: State, t: nat, op: Op) {
    At(s, t) == Ready && op.Disown? && Free(s, op.c) && s.conns[op.c].f.closed && !s.conns[op.c].f.disowned
  }

  ghost predicate ProperAt(s: State, c: nat)
    requires c < |s.conns|
  {
    var x := s.conns[c];
    && !(x.f.closed && x.f.disowned)
    && (x.owner.Some? && At(s, x.owner.value).Holding? && (At(s, x.owner.value).todo == HandOff || At(s, x.owner.value).todo == HandedOff)
        ==> !x.f.closed)
  }

  /** No connection is both closed and disowned, or on the way there. */
  ghost predicate Proper(s: State) {
    forall c: nat | c < |s.conns| :: ProperAt(s, c)
  }

  lemma ProperElsewhere(s: State, t: nat, op: Op, s': State, d: nat)
    requires Core(s) && Step(s, t, op) == Some(s') && d < |s.conns| && d != Touched(s, t, op)
    ensures d < |s'.conns| && (ProperAt(s', d) <==> ProperAt(s, d))
  {
    hide ShardOf, Step, ThreadOk;
    assert ConnOk(s, d);
    StepTouches(s, t, op, s');
  }

  lemma ProperWhereTouched(s: State, t: nat, op: Op, s': State, c: nat)
    requires Core(s) && Step(s, t, op) == Some(s') && c < |s'.conns| && c == Touched(s, t, op)
    requires c < |s.conns| ==> ProperAt(s, c)
    ensures ProperAt(s', c) <==> !DisownsClosed(s, t, op)
  {
    hide ShardOf, Proceed, Enter, StepReady, ConnOk, ThreadOk;
    match At(s, t) {
      case Ready => ProperReady(s, t, op, s', c);
      case Accepted(_) => OwnedConn(s, t); ProperConstructed(s, t, s', c);
      case Tracking(_) => OwnedConn(s, t); ProperConstructed(s, t, s', c);
      case Rejected(_) => OwnedConn(s, t); ProperEnter(s, t, c, OnClose(s.conns[c].f), User);
      case Deferred(_) => FreeConn(s, c); ProperEnter(s, t, c, OnMarkIdle(s.conns[c].f), User);
      case Holding(_, todo, k) => ProperProceed(s, t, c, todo, k);
      case Sweeping(job, i, left) =>
        if op.Take? {
          FreeConn(s, c);
          var f := s.conns[c].f;
          ProperEnter(s, t, c, if job.All() then OnClose(f) else OnCloseIfIdle(f), Back(job, i, left - {c}));
        }
      case _ =>
    }
  }

  lemma ProperReady(s: State, t: nat, op: Op, s': State, c: nat)
    requires Core(s) && At(s, t) == Ready && StepReady(s, t, op) == Some(s') && c < |s'.conns| && c == Touched(s, t, op)
    requires c < |s.conns| ==> ProperAt(s, c)
    ensures ProperAt(s', c) <==> !DisownsClosed(s, t, op)
  {
    hide ShardOf, Enter, ConnOk, ThreadOk, Settled;
    match op {
      case Accept =>
      case Read(_, ok) => ProperEnter(s, t, c, OnRead(s.mode, s.conns[c].f, ok), User);
      case Close(_) => ProperEnter(s, t, c, OnClose(s.conns[c].f), User);
      case MarkIdle(_) => ProperEnter(s, t, c, OnMarkIdle(s.conns[c].f), User);
      case MarkInUse(_) => ProperEnter(s, t, c, OnMarkInUse(s.conns[c].f), User);
      case Disown(_) => ProperEnter(s, t, c, OnDisown(s.conns[c].f), User);
      case _ =>
    }
  }

  /** Entering leaves a proper connection unless it starts to hand off a closed one. */
  lemma ProperEnter(s: State, t: nat, c: nat, r: (Flags, Option<Todo>), k: Cont)
    requires c < |s.conns| && ProperAt(s, c)
    requires s.conns[c].owner == None || s.conns[c].owner == Some(t)
    requires At(s, t).Holding? ==> s.conns[c].owner != Some(t)
    requires r.1.Some? ==> !(r.0.closed && r.0.disowned)
    ensures ProperAt(Enter(s, t, c, r, k), c) <==> !(r.1 == Some(HandOff) && r.0.closed) && !(r.1 == Some(HandedOff) && r.0.closed)
  {}

  lemma ProperConstructed(s: State, t: nat, s': State, c: nat)
    requires Core(s) && (At(s, t).Accepted? || At(s, t).Tracking?) && Step(s, t, Go) == Some(s')
    requires c < |s.conns| && Owns(At(s, t)) == Some(c) && ProperAt(s, c)
    ensures c < |s'.conns| && ProperAt(s', c)
  {
    hide ShardOf, Core;
    OwnedConn(s, t);
  }

  lemma ProperProceed(s: State, t: nat, c: nat, todo: Todo, k: Cont)
    requires Core(s) && At(s, t) == Holding(c, todo, k) && c < |s.conns| && ProperAt(s, c)
    ensures ProperAt(Proceed(s, t, c, todo, k), c)
  {
    hide ShardOf, Core, Resume;
    OwnedConn(s, t);
  }

  lemma ProperKeptExactly(s: State, t: nat, op: Op, s': State)
    requires Core(s) && Step(s, t, op) == Some(s') && Proper(s)
    ensures Proper(s') <==> !DisownsClosed(s, t, op)
  {
    hide ShardOf, Step, ConnOk, ThreadOk, ProperAt;
    StepTouches(s, t, op, s');
    var c := Touched(s, t, op);
    forall d: nat | d < |s.conns| && d != c
      ensures d < |s'.conns| && ProperAt(s', d)
    {
      assert ProperAt(s, d);
      ProperElsewhere(s, t, op, s', d);
    }
    if c < |s'.conns| {
      if c < |s.conns| {
        assert ProperAt(s, c);
      }
      ProperWhereTouched(s, t, op, s', c);
    }
  }

  /** Once a connection is closed and disowned, or on the way there, it stays so. */
  lemma ImproperStays(s: State, t: nat, op: Op, s': State, c: nat)
    requires Core(s) && Step(s, t, op) == Some(s') && c < |s.conns| && !ProperAt(s, c)
    ensures c < |s'.conns| && !ProperAt(s', c)
  {
    hide ShardOf, Proceed, Enter, StepReady, ConnOk, ThreadOk, Step;
    if c != Touched(s, t, op) {
      ProperElsewhere(s, t, op, s', c);
    } else {
      ImproperWhereTouched(s, t, op, s', c);
    }
  }

  lemma ImproperWhereTouched(s: State, t: nat, op: Op, s': State, c: nat)
    requires Core(s) && Step(s, t, op) == Some(s') && c < |s.conns| && !ProperAt(s, c) && c == Touched(s, t, op)
    ensures c < |s'.conns| && !ProperAt(s', c)
  {
    hide ShardOf, Proceed, Enter, StepReady, ConnOk, ThreadOk;
    match At(s, t) {
      case Ready => ImproperReady(s, t, op, s', c);
      case Accepted(_) => OwnedConn(s, t); NewIsProper(s, t, c);
      case Tracking(_) => OwnedConn(s, t); NewIsProper(s, t, c);
      case Rejected(_) => OwnedConn(s, t); NewIsProper(s, t, c);
      case Deferred(_) => ImproperEnter(s, t, c, OnMarkIdle(s.conns[c].f), User);
      case Holding(_, todo, k) => ImproperProceed(s, t, c, todo, k);
      case Sweeping(job, i, left) =>
        if op.Take? {
          var f := s.conns[c].f;
          ImproperEnter(s, t, c, if job.All() then OnClose(f) else OnCloseIfIdle(f), Back(job, i, left - {c}));
        }
      case _ =>
    }
  }

  lemma ImproperReady(s: State, t: nat, op: Op, s': State, c: nat)
    requires Core(s) && At(s, t) == Ready && StepReady(s, t, op) == Some(s') && c < |s.conns| && c == Touched(s, t, op) && !ProperAt(s, c)
    ensures c < |s'.conns| && !ProperAt(s', c)
  {
    hide ShardOf, Enter, ConnOk, ThreadOk, Settled;
    match op {
      case Read(_, ok) => ImproperEnter(s, t, c, OnRead(s.mode, s.conns[c].f, ok), User);
      case Close(_) => ImproperEnter(s, t, c, OnClose(s.conns[c].f), User);
      case MarkIdle(_) => ImproperEnter(s, t, c, OnMarkIdle(s.conns[c].f), User);
      case MarkInUse(_) => ImproperEnter(s, t, c, OnMarkInUse(s.conns[c].f), User);
      case Disown(_) => ImproperEnter(s, t, c, OnDisown(s.conns[c].f), User);
      case _ =>
    }
  }

  lemma ImproperEnter(s: State, t: nat, c: nat, r: (Flags, Option<Todo>), k: Cont)
    requires c < |s.conns| && !ProperAt(s, c) && s.conns[c].owner == None
    requires r.1.Some? && s.conns[c].f.closed && s.conns[c].f.disowned ==> r.0.closed && r.0.disowned
    ensures |Enter(s, t, c, r, k).conns| == |s.conns| && !ProperAt(Enter(s, t, c, r, k), c)
  {}

  lemma NewIsProper(s: State, t: nat, c: nat)
    requires Core(s) && Owns(At(s, t)) == Some(c) && !At(s, t).Holding? && c < |s.conns|
    ensures ProperAt(s, c)
  {
    hide ShardOf;
    assert ThreadOk(s, t);
    assert ConnOk(s, c);
  }

  lemma ImproperProceed(s: State, t: nat, c: nat, todo: Todo, k: Cont)
    requires Core(s) && At(s, t) == Holding(c, todo, k) && c < |s.conns| && !ProperAt(s, c)
    ensures |Proceed(s, t, c, todo, k).conns| == |s.conns| && !ProperAt(Proceed(s, t, c, todo, k), c)
  {
    hide ShardOf, Core, Resume;
    OwnedConn(s, t);
  }

  // ----- the counter, by the flags -----

  /** Past Add, and neither closed nor disowned. */
  predicate Managed(s: State, c: nat) {
    c < |s.conns| && s.conns[c].added && Live(s.conns[c].f)
  }

  /** Marked closed by a goroutine that has not called Done yet. */
  predicate BeingClosed(s: State, c: nat) {
    && c < |s.conns| && s.conns[c].owner.Some?
    && var pc := At(s, s.conns[c].owner.value); pc.Holding? && (pc.todo == Untrack || pc.todo == Done)
  }

  /** Closed, and disowned as well. */
  predicate BothWays(s: State, c: nat) {
    c < |s.conns| && s.conns[c].f.closed && s.conns[c].f.disowned
  }

  /** How many of the first n connections are on shard i and have the property. */
  function Count(s: State, i: nat, n: nat, p: (State, nat) -> bool): nat
    requires s.shards != []
  {
    if n == 0 then 0 else Count(s, i, n - 1, p) + if Home(s, n - 1) == i && p(s, n - 1) then 1 else 0
  }

  lemma {:induction false} CountNone(s: State, i: nat, n: nat, p: (State, nat) -> bool)
    requires s.shards != [] && forall c: nat | c < n :: !p(s, c)
    ensures Count(s, i, n, p) == 0
  {
    hide ShardOf;
    if n > 0 {
      CountNone(s, i, n - 1, p);
    }
  }

  lemma {:induction false} CountSome(s: State, i: nat, n: nat, p: (State, nat) -> bool, c: nat)
    requires s.shards != [] && c < n && Home(s, c) == i && p(s, c)
    ensures Count(s, i, n, p) > 0
  {
    hide ShardOf;
    if c < n - 1 {
      CountSome(s, i, n - 1, p, c);
    }
  }

  lemma WeightByFlags(s: State, c: nat)
    requires Core(s) && c < |s.conns|
    ensures Weight(s.conns[c]) == Bit(Managed(s, c)) + Bit(BeingClosed(s, c)) - Bit(BothWays(s, c))
  {
    hide ShardOf, ThreadOk;
    assert ConnOk(s, c);
  }

  lemma {:induction false} SumByFlags(s: State, i: nat, n: nat)
    requires Core(s) && n <= |s.conns|
    ensures Sum(s.conns[..n], i, |s.shards|) == Count(s, i, n, Managed) + Count(s, i, n, BeingClosed) - Count(s, i, n, BothWays)
  {
    hide ShardOf, Core, Weight, Managed, BeingClosed, BothWays;
    if n > 0 {
      SumByFlags(s, i, n - 1);
      WeightByFlags(s, n - 1);
      assert s.conns[..n][..n - 1] == s.conns[..n - 1];
    }
  }

  // ----- when wait returns -----

  lemma TrackedWeighsOne(s: State, i: nat, c: nat)
    requires Core(s) && i < |s.shards| && c in s.shards[i].all
    ensures c < |s.conns| && Home(s, c) == i && Weight(s.conns[c]) == 1
  {
    hide ShardOf;
    HeldAtHome(s, i, c);
    assert ConnOk(s, c);
  }

  lemma ProperWeighs(s: State, c: nat)
    requires Core(s) && c < |s.conns| && ProperAt(s, c)
    ensures Weight(s.conns[c]) >= 0
  {
    hide ShardOf, ThreadOk;
    assert ConnOk(s, c);
  }

  /** A counter at zero means that nothing is tracked. */
  lemma ZeroMeansEmpty(s: State, i: nat)
    requires Core(s) && Counted(s) && Proper(s) && i < |s.shards| && s.shards[i].wg == 0
    ensures s.shards[i].all == {}
  {
    hide ShardOf, Core, Weight, Sum, ProperAt;
    forall d: nat | d < |s.conns|
      ensures Weight(s.conns[d]) >= 0
    {
      assert ProperAt(s, d);
      ProperWeighs(s, d);
    }
    if c :| c in s.shards[i].all {
      TrackedWeighsOne(s, i, c);
      SumAtLeast(s.conns, c, i, |s.shards|);
    }
  }

  ghost predicate EmptyTo(s: State, n: nat) {
    forall i: nat | i < n && i < |s.shards| :: s.shards[i].all == {}
  }

  /** A waiting drain has seen every shard behind it empty; after one has returned
      all shards are empty and draining. */
  ghost predicate Emptied(s: State) {
    && (forall t: nat :: At(s, t).Waiting? ==> EmptyTo(s, At(s, t).i))
    && (s.drained ==> EmptyTo(s, |s.shards|) && SweptTo(s, false, |s.shards|))
  }

  lemma EmptyLasts(s: State, t: nat, op: Op, s': State, n: nat)
    requires Core(s) && Sweeps(s) && Step(s, t, op) == Some(s')
    requires EmptyTo(s, n) && SweptTo(s, false, |s.shards|)
    ensures EmptyTo(s', n)
  {
    hide Step, ConnOk, ThreadOk, ShardOf;
    StepFrame(s, t, op, s', t + 1);
    forall i: nat | i < n && i < |s'.shards|
      ensures s'.shards[i].all == {}
    {
      assert ShardSwept(s, i);
      DrainingOnlyShrinks(s, t, op, s', i);
    }
  }

  /** What starts, advances and ends waiting. */
  lemma WaitingSteps(s: State, t: nat, op: Op, s': State)
    requires s.shards != [] && Step(s, t, op) == Some(s')
    ensures At(s', t).Waiting? ==>
              || At(s', t).i == 0
              || (At(s, t).Waiting? && At(s, t).i + 1 == At(s', t).i && At(s, t).i < |s.shards| && s.shards[At(s, t).i].wg == 0)
    ensures s'.drained ==> s.drained || (At(s, t).Waiting? && At(s, t).i >= |s.shards|)
  {
    hide Enter, Proceed, Frame, StepReady, ShardOf, OnRead, OnClose, OnMarkIdle, OnMarkInUse, OnCloseIfIdle, OnDisown;
    match At(s, t) {
      case Ready => ReadyTouches(s, t, op, s');
      case Rejected(c) => EnterTouchesOne(s, t, c, OnClose(s.conns[c].f), User);
      case Deferred(c) => EnterTouchesOne(s, t, c, OnMarkIdle(s.conns[c].f), User);
      case Holding(c, todo, k) => WaitingHolding(s, t, s');
      case Sweeping(job, i, left) =>
        if op.Take? {
          var f := s.conns[op.c].f;
          EnterTouchesOne(s, t, op.c, if job.All() then OnClose(f) else OnCloseIfIdle(f), Back(job, i, left - {op.c}));
        }
      case _ =>
    }
  }

  lemma WaitingHolding(s: State, t: nat, s': State)
    requires s.shards != [] && At(s, t).Holding? && Step(s, t, Go) == Some(s')
    ensures !At(s', t).Waiting? && s'.drained == s.drained
  {
    hide ShardOf;
  }

  lemma EmptiedKept(s: State, t: nat, op: Op, s': State)
    requires Core(s) && Sweeps(s) && Counted(s) && Proper(s) && Emptied(s) && Step(s, t, op) == Some(s')
    ensures Emptied(s')
  {
    hide Step, Core, Proper, Counted, ShardOf, SweepOk, ShardSwept;
    SetsOfCore(s);
    StepFrame(s, t, op, s', t + 1);
    WaitingSteps(s, t, op, s');
    assert JobOk(s, t);
    forall u: nat | At(s', u).Waiting?
      ensures EmptyTo(s', At(s', u).i)
    {
      if u != t {
        StepFrame(s, t, op, s', u);
        assert JobOk(s, u);
        EmptyLasts(s, t, op, s', At(s, u).i);
      } else if At(s', t).i > 0 {
        ZeroMeansEmpty(s, At(s, t).i);
        EmptyLasts(s, t, op, s', At(s, t).i + 1);
      }
    }
    if s'.drained {
      EmptyLasts(s, t, op, s', |s.shards|);
    }
  }

  // ----- runs -----

  ghost predicate Next(s: State, t: nat, op: Op, s': State) {
    s.shards != [] && Step(s, t, op) == Some(s')
  }

  /** The states of a run, and who took which step. */
  ghost predicate IsRun(states: seq<State>, who: seq<nat>, ops: seq<Op>) {
    && |states| == |who| + 1 == |ops| + 1 && Init(states[0])
    && forall k: nat | k < |who| :: Next(states[k], who[k], ops[k], states[k + 1])
  }

  lemma {:induction false} RunKeepsInvariants(states: seq<State>, who: seq<nat>, ops: seq<Op>, k: nat)
    requires IsRun(states, who, ops) && k < |states|
    ensures Core(states[k]) && Sweeps(states[k]) && Counted(states[k])
  {
    hide Core, Sweeps, Counted, Step, Init;
    if k == 0 {
      CoreInitially(states[0]);
      SweepsInitially(states[0]);
      CountedInitially(states[0]);
    } else {
      RunKeepsInvariants(states, who, ops, k - 1);
      assert Next(states[k - 1], who[k - 1], ops[k - 1], states[k]);
      CoreKept(states[k - 1], who[k - 1], ops[k - 1], states[k]);
      SweepsKept(states[k - 1], who[k - 1], ops[k - 1], states[k]);
      CountedKept(states[k - 1], who[k - 1], ops[k - 1], states[k]);
    }
  }

  lemma CountedInitially(s: State)
    requires Init(s)
    ensures Counted(s)
  {}

  /** In every reachable state the counter of a shard is the number of its
      connections past Add that are neither closed nor disowned, and of those still
      being closed, less the number of those that are both closed and disowned. */
  lemma CounterInEveryState(states: seq<State>, who: seq<nat>, ops: seq<Op>, k: nat, i: nat)
    requires IsRun(states, who, ops) && k < |states| && i < |states[k].shards|
    ensures var s, n := states[k], |states[k].conns|;
            s.shards[i].wg == Count(s, i, n, Managed) + Count(s, i, n, BeingClosed) - Count(s, i, n, BothWays)
  {
    hide Count, Sum, Core, Step, Init;
    RunKeepsInvariants(states, who, ops, k);
    var s := states[k];
    SumByFlags(s, i, |s.conns|);
    assert s.conns[..|s.conns|] == s.conns;
  }

  /** No goroutine is in the middle of closing or disowning a connection. */
  ghost predicate Steady(s: State) {
    forall t :: At(s, t).Holding? ==> At(s, t).todo == TellInUse || At(s, t).todo == TellIdle
  }

  /** Every shard's counter is the number of its connections past Add that are
      neither closed nor disowned. */
  ghost predicate Exact(s: State) {
    s.shards != [] && forall i: nat | i < |s.shards| :: s.shards[i].wg == Count(s, i, |s.conns|, Managed)
  }

  /** Between closings, the counters are exact if and only if disown has never been
      called on a closed connection. */
  lemma WaitGroupIsExact(states: seq<State>, who: seq<nat>, ops: seq<Op>, k: nat)
    requires IsRun(states, who, ops) && k < |states| && Steady(states[k])
    ensures Exact(states[k]) <==> forall j: nat | j < k :: !DisownsClosed(states[j], who[j], ops[j])
  {
    hide Count, Core, Counted, Sweeps, Step, Init, DisownsClosed, Proper;
    RunKeepsInvariants(states, who, ops, k);
    ProperNow(states, who, ops, k);
    var s, n := states[k], |states[k].conns|;
    SetsOfCore(s);
    SteadyProper(s);
    forall i: nat | i < |s.shards|
      ensures s.shards[i].wg == Count(s, i, n, Managed) - Count(s, i, n, BothWays)
      ensures Proper(s) ==> Count(s, i, n, BothWays) == 0
    {
      CounterInEveryState(states, who, ops, k, i);
      CountNone(s, i, n, BeingClosed);
      if Proper(s) {
        CountNone(s, i, n, BothWays);
      }
    }
    if !Proper(s) {
      var c: nat :| BothWays(s, c);
      CountSome(s, Home(s, c), n, BothWays, c);
    }
  }

  lemma SteadyProper(s: State)
    requires Steady(s)
    ensures forall c: nat :: !BeingClosed(s, c)
    ensures Proper(s) <==> forall c: nat :: !BothWays(s, c)
  {
    if forall c: nat :: !BothWays(s, c) {
      forall c: nat | c < |s.conns|
        ensures ProperAt(s, c)
      {
        assert !BothWays(s, c);
      }
    }
    if Proper(s) {
      forall c: nat
        ensures !BothWays(s, c)
      {
        if c < |s.conns| {
          assert ProperAt(s, c);
        }
      }
    }
  }

  /** A run never disowns a closed connection if and only if no connection ever gets
      closed and disowned, or on the way there. */
  lemma {:induction false} ProperExactly(states: seq<State>, who: seq<nat>, ops: seq<Op>, k: nat)
    requires IsRun(states, who, ops) && k < |states|
    ensures (forall j: nat | j <= k :: Proper(states[j])) <==>
            (forall j: nat | j < k :: !DisownsClosed(states[j], who[j], ops[j]))
  {
    hide Proper, DisownsClosed, Step, Core, Init;
    if k == 0 {
      ProperInitially(states[0]);
    } else {
      ProperExactly(states, who, ops, k - 1);
      RunKeepsInvariants(states, who, ops, k - 1);
      assert Next(states[k - 1], who[k - 1], ops[k - 1], states[k]);
      if Proper(states[k - 1]) {
        ProperKeptExactly(states[k - 1], who[k - 1], ops[k - 1], states[k]);
      }
    }
  }

  /** ... so the present state already tells. */
  lemma {:induction false} ProperNow(states: seq<State>, who: seq<nat>, ops: seq<Op>, k: nat)
    requires IsRun(states, who, ops) && k < |states|
    ensures Proper(states[k]) <==> forall j: nat | j < k :: !DisownsClosed(states[j], who[j], ops[j])
  {
    hide DisownsClosed, Step, Core, Sweeps, Counted, Init, ProperAt;
    if k == 0 {
      ProperInitially(states[0]);
    } else {
      var s, t, op, s' := states[k - 1], who[k - 1], ops[k - 1], states[k];
      ProperNow(states, who, ops, k - 1);
      RunKeepsInvariants(states, who, ops, k - 1);
      assert Next(s, t, op, s');
      if Proper(s) {
        ProperKeptExactly(s, t, op, s');
      } else {
        var c: nat :| c < |s.conns| && !ProperAt(s, c);
        ImproperStays(s, t, op, s', c);
      }
    }
  }

  lemma ProperInitially(s: State)
    requires Init(s)
    ensures Proper(s)
  {}

  /** Once closeConns(_, true) has returned on a shard, in every later state every
      live connection of the shard outside a critical section is busy, and nothing
      new is ever tracked there; once closeConns(true, true) has returned, nothing is
      tracked there at all. */
  lemma DrainingIsComplete(states: seq<State>, who: seq<nat>, ops: seq<Op>, j: nat, k: nat, i: nat)
    requires IsRun(states, who, ops) && j <= k < |states| && i < |states[j].shards| && i in states[j].swept
    ensures |states[k].shards| == |states[j].shards|
    ensures states[k].shards[i].all <= states[j].shards[i].all
    ensures forall c: nat | c < |states[k].conns| && states[k].conns[c].owner == None && states[k].conns[c].shared
                            && states[k].shards != [] && Home(states[k], c) == i && Live(states[k].conns[c].f) :: states[k].conns[c].f.busy
    ensures i in states[j].sweptAll ==> states[k].shards[i].all == {}
    decreases k - j
  {
    hide Step, Init, ShardOf, ThreadOk, Sum;
    RunKeepsInvariants(states, who, ops, j);
    assert ShardSwept(states[j], i);
    if j == k {
      forall c: nat | c < |states[k].conns| && states[k].conns[c].owner == None && states[k].conns[c].shared
                      && Home(states[k], c) == i && Live(states[k].conns[c].f)
        ensures states[k].conns[c].f.busy
      {
        assert ConnOk(states[k], c);
        assert !IdleNow(states[k], i, c);
      }
    } else {
      assert Next(states[j], who[j], ops[j], states[j + 1]);
      DrainingOnlyShrinks(states[j], who[j], ops[j], states[j + 1], i);
      StepFrame(states[j], who[j], ops[j], states[j + 1], who[j] + 1);
      DrainingIsComplete(states, who, ops, j + 1, k, i);
    }
  }

  /** If no closed connection is ever disowned, then once Drain or DrainAll has
      returned, no shard tracks any connection, then or later. */
  lemma {:induction false} DrainLeavesNothing(states: seq<State>, who: seq<nat>, ops: seq<Op>, k: nat)
    requires IsRun(states, who, ops) && k < |states|
    requires forall j: nat | j < k :: !DisownsClosed(states[j], who[j], ops[j])
    ensures Emptied(states[k])
  {
    hide Step, Core, Sweeps, Counted, Proper, Emptied, Init, DisownsClosed;
    if k == 0 {
      EmptiedInitially(states[0]);
    } else {
      DrainLeavesNothing(states, who, ops, k - 1);
      RunKeepsInvariants(states, who, ops, k - 1);
      ProperExactly(states, who, ops, k - 1);
      assert Next(states[k - 1], who[k - 1], ops[k - 1], states[k]);
      EmptiedKept(states[k - 1], who[k - 1], ops[k - 1], states[k]);
    }
  }

  /** So then every connection that Accept has handed out is closed or disowned, but
      for those inside a critical section, which are on the way there. */
  lemma DrainClosesEverything(states: seq<State>, who: seq<nat>, ops: seq<Op>, k: nat, c: nat)
    requires IsRun(states, who, ops) && k < |states| && states[k].drained
    requires forall j: nat | j < k :: !DisownsClosed(states[j], who[j], ops[j])
    requires c < |states[k].conns| && states[k].conns[c].shared
    ensures states[k].conns[c].owner == None ==> states[k].conns[c].f.closed || states[k].conns[c].f.disowned
    ensures states[k].shards != [] && !InAll(states[k], c)
  {
    hide Step, Init, ShardOf, ThreadOk, Sweeps, Counted;
    DrainLeavesNothing(states, who, ops, k);
    RunKeepsInvariants(states, who, ops, k);
    assert ConnOk(states[k], c);
  }

  lemma EmptiedInitially(s: State)
    requires Init(s)
    ensures Emptied(s)
  {}

  /** A Read that reports data on a managed connection in Automatic or Deadline mode
      found it open, and leaves it in use; one that lost the race against a close
      reports an error. */
  lemma ReadPutsInUse(s: State, t: nat, c: nat, s': State)
    requires Core(s) && At(s, t) == Ready && Step(s, t, Read(c, true)) == Some(s')
    requires s.mode != Manual && !s.conns[c].f.disowned
    ensures ReportsData(s.conns[c].f, true) <==> !s.conns[c].f.closed
    ensures ReportsData(s.conns[c].f, true) ==> InUse(s', c)
  {
    hide ShardOf;
    FreeConn(s, c);
  }

  /** From such a Read on, no CloseIdle and no Drain closes the connection, stale
      snapshots included, as long as nobody marks it idle, closes it, disowns it or
      drains all. */
  lemma {:induction false} InUseIsNotClosed(states: seq<State>, who: seq<nat>, ops: seq<Op>, j: nat, k: nat, c: nat)
    requires IsRun(states, who, ops) && j < k < |states|
    requires At(states[j], who[j]) == Ready && ops[j] == Read(c, true) && states[j].mode != Manual
    requires c < |states[j].conns| && !states[j].conns[c].f.disowned && ReportsData(states[j].conns[c].f, true)
    requires forall m: nat | j < m < k :: !EndsUse(states[m], who[m], ops[m], c)
    ensures InUse(states[k], c)
    decreases k
  {
    hide Step, Core, Sweeps, Counted, Init, InUse, EndsUse;
    RunKeepsInvariants(states, who, ops, k - 1);
    assert Next(states[k - 1], who[k - 1], ops[k - 1], states[k]);
    if j == k - 1 {
      ReadPutsInUse(states[j], who[j], c, states[k]);
    } else {
      InUseIsNotClosed(states, who, ops, j, k - 1, c);
      UseGoesOn(states[k - 1], who[k - 1], ops[k - 1], states[k], c);
    }
  }
}
