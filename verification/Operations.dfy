/** What each operation on a connection does, flag by flag and set by set, when its
    critical section is not interrupted (graceful/listener/conn.go:35-151). */
module Operations {
  import opened Options
  import opened Draining

  /** Beside goroutine t, connection c and the shard of c, nothing has changed. */
  ghost predicate Elsewhere(s: State, s': State, t: nat, c: nat) {
    && s.shards != [] && |s'.shards| == |s.shards| && |s'.conns| == |s.conns|
    && (forall d: nat | d < |s.conns| && d != c :: s'.conns[d] == s.conns[d])
    && (forall i: nat | i < |s.shards| && i != Home(s, c) :: s'.shards[i] == s.shards[i])
    && (forall u: nat | u != t :: At(s', u) == At(s, u))
    && s'.mode == s.mode && s'.swept == s.swept && s'.sweptAll == s.sweptAll && s'.drained == s.drained
  }

  lemma ProceedElsewhere(s: State, t: nat, c: nat, todo: Todo, k: Cont)
    requires s.shards != [] && c < |s.conns|
    ensures Elsewhere(s, Proceed(s, t, c, todo, k), t, c)
    ensures At(Proceed(s, t, c, todo, k), t) == Resume(k) || exists todo' :: At(Proceed(s, t, c, todo, k), t) == Holding(c, todo', k)
  {
    hide ShardOf, Resume;
  }

  lemma {:induction false} FinishElsewhere(s: State, t: nat, c: nat, k: Cont, fuel: nat)
    requires s.shards != [] && c < |s.conns|
    requires At(s, t) == Resume(k) || exists todo :: At(s, t) == Holding(c, todo, k)
    ensures Elsewhere(s, Finish(s, t, fuel), t, c)
    decreases fuel
  {
    hide ShardOf, Proceed, Elsewhere;
    if At(s, t).Holding? && fuel > 0 {
      var s' := Proceed(s, t, c, At(s, t).todo, k);
      ProceedElsewhere(s, t, c, At(s, t).todo, k);
      SameShards(s, s', t, c);
      FinishElsewhere(s', t, c, k, fuel - 1);
      ElsewhereAgain(s, s', Finish(s', t, fuel - 1), t, c);
    } else {
      NothingElsewhere(s, t, c);
    }
  }

  lemma SameShards(s: State, s': State, t: nat, c: nat)
    requires Elsewhere(s, s', t, c)
    ensures s'.shards != [] && |s'.conns| == |s.conns|
  {}

  lemma NothingElsewhere(s: State, t: nat, c: nat)
    requires s.shards != []
    ensures Elsewhere(s, s, t, c)
  {}

  lemma ElsewhereAgain(a: State, b: State, c: State, t: nat, x: nat)
    requires Elsewhere(a, b, t, x) && Elsewhere(b, c, t, x)
    ensures Elsewhere(a, c, t, x)
  {
    hide ShardOf;
  }

  lemma EnterElsewhere(s: State, t: nat, c: nat, r: (Flags, Option<Todo>), k: Cont)
    requires s.shards != [] && c < |s.conns|
    ensures Elsewhere(s, Enter(s, t, c, r, k), t, c)
    ensures var pc := At(Enter(s, t, c, r, k), t); pc == Resume(k) || exists todo :: pc == Holding(c, todo, k)
  {
    hide ShardOf, Resume;
  }

  /** The section r of c, run by t alone. */
  ghost predicate RunsAlone(s: State, s': State, t: nat, c: nat, r: (Flags, Option<Todo>), k: Cont) {
    c < |s.conns| && Elsewhere(s, s', t, c) && Ended(s', t, c, Home(s, c), Section(s.conns[c].f, s.shards[Home(s, c)], c, r), k)
  }

  lemma SectionAlone(s: State, t: nat, c: nat, r: (Flags, Option<Todo>), k: Cont)
    requires s.shards != [] && c < |s.conns| && s.conns[c].owner == None
    ensures RunsAlone(s, Finish(Enter(s, t, c, r, k), t, 3), t, c, r, k)
  {
    hide ShardOf, Finish, Enter, Elsewhere, Section;
    var s1 := Enter(s, t, c, r, k);
    EnterElsewhere(s, t, c, r, k);
    SameShards(s, s1, t, c);
    FinishElsewhere(s1, t, c, k, 3);
    ElsewhereAgain(s, s1, Finish(s1, t, 3), t, c);
    UninterruptedSection(s, t, c, r, k);
  }

  /** One operation, from the call to the unlock; the state as it is if it must wait. */
  function Whole(s: State, t: nat, op: Op): State
    requires s.shards != []
  {
    match Step(s, t, op)
    case None => s
    case Some(s1) => if s1.shards == [] then s1 else Finish(s1, t, 3)
  }

  /** The outcome, part by part: the flags, the shard's sets and counter, and where t
      goes on. No drain flag changes. */
  ghost predicate Becomes(s: State, s': State, t: nat, c: nat, f: Flags, idle: set<nat>, all: set<nat>, wg: int, pc: PC) {
    && c < |s.conns| && Elsewhere(s, s', t, c) && At(s', t) == pc
    && s'.conns[c].f == f && s'.conns[c].owner == None
    && s'.shards[Home(s, c)].idle == idle && s'.shards[Home(s, c)].all == all && s'.shards[Home(s, c)].wg == wg
    && s'.shards[Home(s, c)].drain == s.shards[Home(s, c)].drain
  }

  ghost predicate Callable(s: State, t: nat, c: nat) {
    s.shards != [] && At(s, t) == Ready && Free(s, c)
  }

  /** The whole of an operation whose section on c starts with r. */
  lemma WholeIsSection(s: State, t: nat, op: Op, c: nat, r: (Flags, Option<Todo>), k: Cont)
    requires s.shards != [] && Free(s, c) && Step(s, t, op) == Some(Enter(s, t, c, r, k))
    ensures RunsAlone(s, Whole(s, t, op), t, c, r, k)
  {
    hide ShardOf, Finish, Enter, Step, RunsAlone, Elsewhere;
    EnterElsewhere(s, t, c, r, k);
    SameShards(s, Enter(s, t, c, r, k), t, c);
    SectionAlone(s, t, c, r, k);
  }

  /** Read: in Manual mode, and for a connection that is busy, closed or disowned, no
      flag and no shard changes, from the call on; otherwise it becomes busy and leaves
      the idle set. */
  lemma ReadAlone(s: State, t: nat, c: nat, ok: bool)
    requires Callable(s, t, c)
    ensures Step(s, t, Read(c, ok)).Some?
    ensures var f, sh := s.conns[c].f, s.shards[Home(s, c)];
      if s.mode == Manual || f.busy || f.closed || f.disowned then
        && Step(s, t, Read(c, ok)).value.conns == s.conns && Step(s, t, Read(c, ok)).value.shards == s.shards
        && Becomes(s, Whole(s, t, Read(c, ok)), t, c, f, sh.idle, sh.all, sh.wg, Ready)
      else Becomes(s, Whole(s, t, Read(c, ok)), t, c, Flags(true, false, false), sh.idle - {c}, sh.all, sh.wg, Ready)
  {
    hide ShardOf, Finish, Elsewhere;
    WholeIsSection(s, t, Read(c, ok), c, OnRead(s.mode, s.conns[c].f, ok), User);
    hide Whole;
  }

  /** Close: once, and not after disowning. */
  lemma CloseAlone(s: State, t: nat, c: nat)
    requires Callable(s, t, c)
    ensures Step(s, t, Close(c)).Some?
    ensures var f, sh := s.conns[c].f, s.shards[Home(s, c)];
      if f.closed || f.disowned then Becomes(s, Whole(s, t, Close(c)), t, c, f, sh.idle, sh.all, sh.wg, Ready)
      else Becomes(s, Whole(s, t, Close(c)), t, c, Flags(f.busy, true, false), sh.idle - {c}, sh.all - {c}, sh.wg - 1, Ready)
  {
    hide ShardOf, Finish, Elsewhere;
    WholeIsSection(s, t, Close(c), c, OnClose(s.conns[c].f), User);
    hide Whole;
  }

  /** markIdle, called by the user or for SetReadDeadline: a busy connection becomes
      idle, for the shard as well, or is closed if the shard drains. */
  lemma MarkIdleAlone(s: State, t: nat, c: nat, op: Op)
    requires s.shards != [] && Free(s, c)
    requires (At(s, t) == Ready && op == MarkIdle(c)) || (At(s, t) == Deferred(c) && op == Go)
    ensures Step(s, t, op).Some?
    ensures var f, sh := s.conns[c].f, s.shards[Home(s, c)];
      if !f.busy then Becomes(s, Whole(s, t, op), t, c, f, sh.idle, sh.all, sh.wg, Ready)
      else if !sh.drain then Becomes(s, Whole(s, t, op), t, c, Flags(false, f.closed, f.disowned), sh.idle + {c}, sh.all, sh.wg, Ready)
      else if f.closed || f.disowned then Becomes(s, Whole(s, t, op), t, c, Flags(false, f.closed, f.disowned), sh.idle, sh.all, sh.wg, Ready)
      else Becomes(s, Whole(s, t, op), t, c, Flags(false, true, false), sh.idle - {c}, sh.all - {c}, sh.wg - 1, Ready)
  {
    hide ShardOf, Finish, Elsewhere;
    WholeIsSection(s, t, op, c, OnMarkIdle(s.conns[c].f), User);
    hide Whole;
  }

  /** markInUse: a live idle connection becomes busy and leaves the idle set. */
  lemma MarkInUseAlone(s: State, t: nat, c: nat)
    requires Callable(s, t, c)
    ensures Step(s, t, MarkInUse(c)).Some?
    ensures var f, sh := s.conns[c].f, s.shards[Home(s, c)];
      if f.busy || f.closed || f.disowned then Becomes(s, Whole(s, t, MarkInUse(c)), t, c, f, sh.idle, sh.all, sh.wg, Ready)
      else Becomes(s, Whole(s, t, MarkInUse(c)), t, c, Flags(true, false, false), sh.idle - {c}, sh.all, sh.wg, Ready)
  {
    hide ShardOf, Finish, Elsewhere;
    WholeIsSection(s, t, MarkInUse(c), c, OnMarkInUse(s.conns[c].f), User);
    hide Whole;
  }

  /** disown: once, closed or not. */
  lemma DisownAlone(s: State, t: nat, c: nat)
    requires Callable(s, t, c)
    ensures Step(s, t, Disown(c)).Some?
    ensures var f, sh := s.conns[c].f, s.shards[Home(s, c)];
      if f.disowned then Becomes(s, Whole(s, t, Disown(c)), t, c, f, sh.idle, sh.all, sh.wg, Ready)
      else Becomes(s, Whole(s, t, Disown(c)), t, c, Flags(f.busy, f.closed, true), sh.idle - {c}, sh.all - {c}, sh.wg - 1, Ready)
  {
    hide ShardOf, Finish, Elsewhere;
    WholeIsSection(s, t, Disown(c), c, OnDisown(s.conns[c].f), User);
    hide Whole;
  }

  /** One turn of closeConns: closing all closes what is neither closed nor disowned;
      closing the idle also leaves what is busy. */
  lemma TakeAlone(s: State, t: nat, job: Job, i: nat, left: set<nat>, c: nat)
    requires s.shards != [] && Free(s, c) && At(s, t) == Sweeping(job, i, left) && c in left
    ensures Step(s, t, Take(c)).Some?
    ensures var f, sh, pc := s.conns[c].f, s.shards[Home(s, c)], Sweeping(job, i, left - {c});
      if f.closed || f.disowned || (f.busy && job != DrainJob(true)) then Becomes(s, Whole(s, t, Take(c)), t, c, f, sh.idle, sh.all, sh.wg, pc)
      else Becomes(s, Whole(s, t, Take(c)), t, c, Flags(f.busy, true, false), sh.idle - {c}, sh.all - {c}, sh.wg - 1, pc)
  {
    hide ShardOf, Finish, Elsewhere;
    var f := s.conns[c].f;
    WholeIsSection(s, t, Take(c), c, if job.All() then OnClose(f) else OnCloseIfIdle(f), Back(job, i, left - {c}));
    hide Whole;
  }

  /** SetReadDeadline: in Deadline mode, and unless the connection is disowned, markIdle
      follows; otherwise that is all. */
  lemma SetReadDeadlineAlone(s: State, t: nat, c: nat)
    requires Callable(s, t, c)
    ensures Step(s, t, SetReadDeadline(c)).Some?
    ensures var s1 := Step(s, t, SetReadDeadline(c)).value;
      s1.conns == s.conns && s1.shards == s.shards
      && At(s1, t) == if s.mode == Deadline && !s.conns[c].f.disowned then Deferred(c) else Ready
  {
    hide ShardOf;
  }
}
