/** A shard's idle set may hold connections that it no longer tracks: when exactly,
    and until when. */
module IdleSets {
  import opened Options
  import opened Draining
  import opened DrainingProofs
  import opened DrainingTheorems

  /** Idle for the shard, though the shard does not track it. */
  predicate Stray(s: State, c: nat) {
    s.shards != [] && InIdle(s, c) && !InAll(s, c)
  }

  /** Goroutine t is inside a critical section of c and about to do this. */
  predicate IsAbout(s: State, t: nat, c: nat, todo: Todo) {
    At(s, t).Holding? && At(s, t).c == c && At(s, t).todo == todo
  }

  /** markIdle, past its check of `busy`, is about to add to the idle set a connection
      that is closed or disowned: shard.markIdle only asks whether the shard drains. */
  predicate GoesAstray(s: State, t: nat, c: nat) {
    && IsAbout(s, t, c, TellIdle)
    && s.shards != [] && !s.shards[Home(s, c)].drain && !Live(FlagsOf(s, c))
  }

  /** disown, past its check of `disowned`, is about to remove the connection. */
  predicate IsForgotten(s: State, t: nat, c: nat) {
    IsAbout(s, t, c, HandOff)
  }

  lemma SameSets(s: State, s': State, c: nat)
    requires s.shards != [] && |s'.shards| == |s.shards|
    requires forall i: nat | i < |s.shards| :: s'.shards[i].all == s.shards[i].all && s'.shards[i].idle == s.shards[i].idle
    ensures Stray(s', c) <==> Stray(s, c)
  {
    hide ShardOf;
  }

  lemma StrayProceed(s: State, t: nat, d: nat, todo: Todo, k: Cont, c: nat)
    requires Core(s) && At(s, t) == Holding(d, todo, k)
    ensures d < |s.conns| && (Stray(Proceed(s, t, d, todo, k), c) <==> GoesAstray(s, t, c) || (Stray(s, c) && !IsForgotten(s, t, c)))
  {
    hide ShardOf, Resume;
    OwnedConn(s, t);
    hide Core;
  }

  lemma StrayConstructed(s: State, t: nat, s': State, c: nat)
    requires Core(s) && (At(s, t).Accepted? || At(s, t).Tracking?) && Step(s, t, Go) == Some(s')
    ensures Stray(s', c) <==> Stray(s, c)
  {
    hide ShardOf;
    OwnedConn(s, t);
    hide Core;
  }

  /** One step: a connection strays when markIdle adds it, and is stray no more only
      when disown removes it. */
  lemma StrayStep(s: State, t: nat, op: Op, s': State, c: nat)
    requires Core(s) && Step(s, t, op) == Some(s')
    ensures Stray(s', c) <==> GoesAstray(s, t, c) || (Stray(s, c) && !IsForgotten(s, t, c))
  {
    hide Core, Enter, Proceed, Stray, ShardOf, OnRead, OnClose, OnMarkIdle, OnMarkInUse, OnCloseIfIdle, OnDisown;
    SetsOfCore(s);
    match At(s, t) {
      case Ready => StrayReady(s, t, op, s', c);
      case Accepted(_) => StrayConstructed(s, t, s', c);
      case Tracking(_) => StrayConstructed(s, t, s', c);
      case Rejected(d) => EnterFrame(s, t, d, OnClose(s.conns[d].f), User, t + 1); SameSets(s, s', c);
      case Deferred(d) => EnterFrame(s, t, d, OnMarkIdle(s.conns[d].f), User, t + 1); SameSets(s, s', c);
      case Holding(d, todo, k) => StrayProceed(s, t, d, todo, k, c);
      case Sweeping(job, i, left) =>
        if op.Take? {
          var f := s.conns[op.c].f;
          EnterFrame(s, t, op.c, if job.All() then OnClose(f) else OnCloseIfIdle(f), Back(job, i, left - {op.c}), t + 1);
        }
        SameSets(s, s', c);
      case _ => SameSets(s, s', c);
    }
  }

  lemma StrayReady(s: State, t: nat, op: Op, s': State, c: nat)
    requires s.shards != [] && At(s, t) == Ready && StepReady(s, t, op) == Some(s')
    ensures Stray(s', c) <==> Stray(s, c)
  {
    hide Enter, Stray, ShardOf, OnRead, OnClose, OnMarkIdle, OnMarkInUse, OnCloseIfIdle, OnDisown;
    match op {
      case Read(d, ok) => EnterFrame(s, t, d, OnRead(s.mode, s.conns[d].f, ok), User, t + 1);
      case Close(d) => EnterFrame(s, t, d, OnClose(s.conns[d].f), User, t + 1);
      case MarkIdle(d) => EnterFrame(s, t, d, OnMarkIdle(s.conns[d].f), User, t + 1);
      case MarkInUse(d) => EnterFrame(s, t, d, OnMarkInUse(s.conns[d].f), User, t + 1);
      case Disown(d) => EnterFrame(s, t, d, OnDisown(s.conns[d].f), User, t + 1);
      case _ =>
    }
    SameSets(s, s', c);
  }

  /** No disown has removed c after step j and before state k. */
  ghost predicate Kept(states: seq<State>, who: seq<nat>, j: nat, k: nat, c: nat)
    requires k < |states| == |who| + 1
  {
    forall m: nat | j < m < k :: !IsForgotten(states[m], who[m], c)
  }

  lemma KeptOneMore(states: seq<State>, who: seq<nat>, j: nat, k: nat, c: nat)
    requires j < k < |who| && |states| == |who| + 1
    ensures Kept(states, who, j, k + 1, c) <==> Kept(states, who, j, k, c) && !IsForgotten(states[k], who[k], c)
  {
    hide IsForgotten;
  }

  ghost predicate WentAstray(states: seq<State>, who: seq<nat>, j: nat, k: nat, c: nat)
    requires k < |states| == |who| + 1
  {
    j < k && GoesAstray(states[j], who[j], c) && Kept(states, who, j, k, c)
  }

  /** Over a run: a connection is stray if and only if markIdle added it while it was
      closed or disowned and its shard did not drain, and no disown has removed it
      since. Sweeps, reads, closes and drains change nothing about it. */
  lemma {:induction false} StrayExactly(states: seq<State>, who: seq<nat>, ops: seq<Op>, k: nat, c: nat)
    requires IsRun(states, who, ops) && k < |states|
    ensures Stray(states[k], c) <==> exists j: nat :: WentAstray(states, who, j, k, c)
  {
    hide Step, Core, Sweeps, Counted, Init, GoesAstray, IsForgotten, Stray, Kept;
    if k == 0 {
      NoneStrayInitially(states[0], c);
    } else {
      var n := k - 1;
      StrayExactly(states, who, ops, n, c);
      RunKeepsInvariants(states, who, ops, n);
      assert Next(states[n], who[n], ops[n], states[k]);
      StrayStep(states[n], who[n], ops[n], states[k], c);
      forall j: nat | j < n
        ensures WentAstray(states, who, j, k, c) <==> WentAstray(states, who, j, n, c) && !IsForgotten(states[n], who[n], c)
      {
        KeptOneMore(states, who, j, n, c);
      }
      assert WentAstray(states, who, n, k, c) <==> GoesAstray(states[n], who[n], c) by {
        NothingBetween(states, who, n, c);
      }
      if j: nat :| WentAstray(states, who, j, n, c) {
        NotBoth(states[n], who[n], c);
        assert WentAstray(states, who, j, k, c) || IsForgotten(states[n], who[n], c);
      }
    }
  }

  lemma NothingBetween(states: seq<State>, who: seq<nat>, n: nat, c: nat)
    requires n < |who| && |states| == |who| + 1
    ensures Kept(states, who, n, n + 1, c)
  {}

  lemma NoneStrayInitially(s: State, c: nat)
    requires Init(s)
    ensures !Stray(s, c)
  {}

  lemma NotBoth(s: State, t: nat, c: nat)
    ensures !(GoesAstray(s, t, c) && IsForgotten(s, t, c))
  {}

  /** A stray connection is closed or disowned, so no sweep does anything to it; and
      once it is disowned it stays where it is for good. */
  lemma StrayIsNotLive(s: State, c: nat)
    requires Core(s) && Stray(s, c)
    ensures c < |s.conns| && (s.conns[c].owner == None ==> !Live(s.conns[c].f) && OnCloseIfIdle(s.conns[c].f) == (s.conns[c].f, None))
  {
    hide ShardOf, ThreadOk;
    HeldAtHome(s, Home(s, c), c);
    assert ConnOk(s, c);
  }

  lemma DisownedStays(s: State, t: nat, op: Op, s': State, c: nat)
    requires Core(s) && Step(s, t, op) == Some(s') && c < |s.conns| && s.conns[c].f.disowned
    ensures c < |s'.conns| && s'.conns[c].f.disowned && !IsForgotten(s, t, c)
  {
    hide ShardOf, Step;
    assert ThreadOk(s, t) && ConnOk(s, c);
    StepTouches(s, t, op, s');
    if Touched(s, t, op) == c {
      DisownedStaysTouched(s, t, op, s', c);
    }
  }

  lemma DisownedStaysTouched(s: State, t: nat, op: Op, s': State, c: nat)
    requires Core(s) && Step(s, t, op) == Some(s') && c < |s.conns| && s.conns[c].f.disowned && Touched(s, t, op) == c
    ensures c < |s'.conns| && s'.conns[c].f.disowned
  {
    hide ShardOf;
    assert ThreadOk(s, t) && ConnOk(s, c);
    hide Core;
  }

  lemma {:induction false} DisownedStrayIsForGood(states: seq<State>, who: seq<nat>, ops: seq<Op>, j: nat, k: nat, c: nat)
    requires IsRun(states, who, ops) && j <= k < |states| && Stray(states[j], c)
    requires c < |states[j].conns| && states[j].conns[c].f.disowned
    ensures Stray(states[k], c) && c < |states[k].conns| && states[k].conns[c].f.disowned
    decreases k
  {
    hide Step, Core, Sweeps, Counted, Init, GoesAstray, IsForgotten, Stray;
    if j < k {
      var n := k - 1;
      DisownedStrayIsForGood(states, who, ops, j, n, c);
      RunKeepsInvariants(states, who, ops, n);
      assert Next(states[n], who[n], ops[n], states[k]);
      StrayStep(states[n], who[n], ops[n], states[k], c);
      DisownedStays(states[n], who[n], ops[n], states[k], c);
    }
  }

  // ----- the calls behind these steps -----

  /** markIdle finds c busy, or disown finds it not disowned. */
  predicate Begins(s: State, t: nat, op: Op, c: nat, todo: Todo) {
    && Free(s, c)
    && match todo
       case TellIdle => s.conns[c].f.busy && ((At(s, t) == Ready && op == MarkIdle(c)) || (At(s, t) == Deferred(c) && op == Go))
       case HandOff => !s.conns[c].f.disowned && At(s, t) == Ready && op == Disown(c)
       case _ => false
  }

  /** What the call leaves of the flags. */
  function Left(f: Flags, todo: Todo): Flags {
    if todo == TellIdle then f.(busy := false) else f
  }

  /** A goroutine is about to tell the shard so exactly after such a call. */
  lemma BeginsStep(s: State, t: nat, op: Op, s': State, c: nat, todo: Todo)
    requires Core(s) && Step(s, t, op) == Some(s') && (todo == TellIdle || todo == HandOff)
    ensures IsAbout(s', t, c, todo) <==> Begins(s, t, op, c, todo)
    ensures Begins(s, t, op, c, todo) ==> FlagsOf(s', c) == Left(FlagsOf(s, c), todo)
  {
    hide ShardOf, Core, Enter, Proceed, StepReady, OnRead, OnClose, OnMarkIdle, OnMarkInUse, OnCloseIfIdle, OnDisown;
    SetsOfCore(s);
    match At(s, t) {
      case Ready => BeginsReady(s, t, op, s', c, todo);
      case Rejected(d) => BeginsEnter(s, t, d, OnClose(s.conns[d].f), User); ClosesOnly(s.conns[d].f);
      case Deferred(d) => BeginsEnter(s, t, d, OnMarkIdle(s.conns[d].f), User); MarksOnly(s.conns[d].f);
      case Holding(d, what, k) => BeginsNothing(s, t, s');
      case Sweeping(job, i, left) =>
        if op.Take? {
          var f := s.conns[op.c].f;
          BeginsEnter(s, t, op.c, if job.All() then OnClose(f) else OnCloseIfIdle(f), Back(job, i, left - {op.c}));
          ClosesOnly(f);
        }
      case _ =>
    }
  }

  lemma ClosesOnly(f: Flags)
    ensures OnClose(f).1 != Some(TellIdle) && OnClose(f).1 != Some(HandOff)
    ensures OnCloseIfIdle(f).1 != Some(TellIdle) && OnCloseIfIdle(f).1 != Some(HandOff)
  {}

  lemma MarksOnly(f: Flags)
    ensures OnMarkIdle(f) == if f.busy then (f.(busy := false), Some(TellIdle)) else (f, None)
  {}

  lemma BeginsEnter(s: State, t: nat, d: nat, r: (Flags, Option<Todo>), k: Cont)
    requires d < |s.conns|
    ensures var s' := Enter(s, t, d, r, k);
            && (forall c, todo :: IsAbout(s', t, c, todo) <==> c == d && r.1 == Some(todo))
            && (r.1.Some? ==> FlagsOf(s', d) == r.0)
  {}

  lemma BeginsNothing(s: State, t: nat, s': State)
    requires Core(s) && At(s, t).Holding? && Step(s, t, Go) == Some(s')
    ensures At(s', t).Holding? ==> At(s', t).todo != TellIdle && At(s', t).todo != HandOff
  {
    hide ShardOf;
    OwnedConn(s, t);
    hide Core;
  }

  lemma BeginsReady(s: State, t: nat, op: Op, s': State, c: nat, todo: Todo)
    requires At(s, t) == Ready && StepReady(s, t, op) == Some(s') && (todo == TellIdle || todo == HandOff)
    ensures IsAbout(s', t, c, todo) <==> Begins(s, t, op, c, todo)
    ensures Begins(s, t, op, c, todo) ==> FlagsOf(s', c) == Left(FlagsOf(s, c), todo)
  {
    hide Enter, OnMarkIdle, OnClose;
    match op {
      case Read(d, ok) => BeginsEnter(s, t, d, OnRead(s.mode, s.conns[d].f, ok), User);
      case Close(d) => BeginsEnter(s, t, d, OnClose(s.conns[d].f), User); ClosesOnly(s.conns[d].f);
      case MarkIdle(d) => BeginsEnter(s, t, d, OnMarkIdle(s.conns[d].f), User); MarksOnly(s.conns[d].f);
      case MarkInUse(d) => BeginsEnter(s, t, d, OnMarkInUse(s.conns[d].f), User);
      case Disown(d) => BeginsEnter(s, t, d, OnDisown(s.conns[d].f), User);
      case _ =>
    }
  }

  lemma OthersLeaveAlone(s: State, t: nat, op: Op, s': State, u: nat, c: nat)
    requires Core(s) && Step(s, t, op) == Some(s') && u != t && Owns(At(s, u)) == Some(c)
    ensures At(s', u) == At(s, u) && FlagsOf(s', c) == FlagsOf(s, c)
  {
    hide ShardOf, Step;
    assert ThreadOk(s, t) && ThreadOk(s, u);
    StepTouches(s, t, op, s');
    if Touched(s, t, op) == c {
      NotTouched(s, t, op, s', c);
    }
  }

  lemma NotTouched(s: State, t: nat, op: Op, s': State, c: nat)
    requires Core(s) && Step(s, t, op) == Some(s') && c < |s.conns| && Touched(s, t, op) == c
    ensures s.conns[c].owner == None || s.conns[c].owner == Some(t) || s'.conns == s.conns
  {
    hide ShardOf;
    assert ThreadOk(s, t);
    hide Core;
  }

  /** So every connection that goes astray was busy, and closed or disowned, when
      markIdle was called; and every one forgotten was not disowned when disown was. */
  lemma {:induction false} CallBefore(states: seq<State>, who: seq<nat>, ops: seq<Op>, k: nat, t: nat, c: nat, todo: Todo) returns (m: nat)
    requires IsRun(states, who, ops) && k < |states| && (todo == TellIdle || todo == HandOff)
    requires IsAbout(states[k], t, c, todo)
    ensures m < k && who[m] == t && Begins(states[m], t, ops[m], c, todo)
    ensures FlagsOf(states[k], c) == Left(FlagsOf(states[m], c), todo)
    decreases k
  {
    hide Step, Core, Sweeps, Counted, Begins;
    if k > 0 {
      m := k - 1;
      RunKeepsInvariants(states, who, ops, m);
      assert Next(states[m], who[m], ops[m], states[k]);
      if who[m] == t {
        BeginsStep(states[m], t, ops[m], states[k], c, todo);
      } else {
        StepTouches(states[m], who[m], ops[m], states[k]);
        OthersLeaveAlone(states[m], who[m], ops[m], states[k], t, c);
        m := CallBefore(states, who, ops, m, t, c, todo);
      }
    }
  }

  lemma StrayWasMarkedIdle(states: seq<State>, who: seq<nat>, ops: seq<Op>, k: nat, c: nat) returns (m: nat)
    requires IsRun(states, who, ops) && k < |states| && Stray(states[k], c)
    ensures m < k && Begins(states[m], who[m], ops[m], c, TellIdle) && !Live(FlagsOf(states[m], c))
  {
    hide Step, Core, Sweeps, Counted, Init, Begins, Stray, Kept;
    StrayExactly(states, who, ops, k, c);
    var j: nat :| WentAstray(states, who, j, k, c);
    m := CallBefore(states, who, ops, j, who[j], c, TellIdle);
  }
}
