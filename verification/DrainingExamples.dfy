/** Runs of the draining protocol, on one shard with one goroutine, that show what
    goes wrong when a closed connection is disowned, and how a connection strays into
    the idle set. */
module DrainingExamples {
  import opened Options
  import opened Draining
  import opened DrainingProofs
  import opened DrainingTheorems
  import opened IdleSets

  datatype Run = Run(states: seq<State>, who: seq<nat>, ops: seq<Op>)

  ghost predicate Legal(r: Run) {
    IsRun(r.states, r.who, r.ops)
  }

  function Last(r: Run): State
    requires r.states != []
  {
    r.states[|r.states| - 1]
  }

  function Then(r: Run, op: Op, s: State): Run {
    Run(r.states + [s], r.who + [0], r.ops + [op])
  }

  lemma OneMore(r: Run, op: Op, s: State)
    requires Legal(r) && Next(Last(r), 0, op, s)
    ensures Legal(Then(r, op, s)) && Last(Then(r, op, s)) == s
  {
    hide Next, Init;
    var r' := Then(r, op, s);
    forall k: nat | k < |r'.who|
      ensures Next(r'.states[k], r'.who[k], r'.ops[k], r'.states[k + 1])
    {
      if k < |r.who| {
        assert Next(r.states[k], r.who[k], r.ops[k], r.states[k + 1]);
      }
    }
  }

  /** One shard, and goroutine 0 where it is. */
  function Alone(pc: PC, sh: Shard, conns: seq<Conn>): State {
    State(Automatic, [sh], conns, map[0 := pc], {}, {}, false)
  }

  function Start(): Run {
    Run([State(Automatic, [Shard({}, {}, 0, false)], [], map[], {}, {}, false)], [], [])
  }

  lemma StartIsLegal()
    ensures Legal(Start()) && Init(Last(Start()))
  {}

  /** A connection that Accept has handed out, unlocked. */
  function Handed(f: Flags, closeDone: bool, disownDone: bool): Conn {
    Conn(f, true, true, closeDone, disownDone, None)
  }

  function Fresh(): Conn { Handed(Flags(false, false, false), false, false) }
  function Busy(): Conn { Handed(Flags(true, false, false), false, false) }

  /** Equality of states over one shard, part by part. */
  ghost predicate Same(s: State, s': State) {
    && |s.shards| == |s'.shards| == 1
    && s.shards[0].all == s'.shards[0].all && s.shards[0].idle == s'.shards[0].idle
    && s.shards[0].wg == s'.shards[0].wg && s.shards[0].drain == s'.shards[0].drain
    && s.conns == s'.conns && s.threads == s'.threads
    && s.mode == s'.mode && s.swept == s'.swept && s.sweptAll == s'.sweptAll && s.drained == s'.drained
  }

  lemma Becomes(s: State, op: Op, s': State)
    requires |s.shards| == 1 && Step(s, 0, op).Some? && Same(Step(s, 0, op).value, s')
    ensures Next(s, 0, op, s')
  {
    hide Step;
    assert Step(s, 0, op).value.shards == s'.shards;
  }

  // ----- whole operations, step by step -----

  lemma Accepts(r: Run, sh: Shard, conns: seq<Conn>) returns (r': Run)
    requires Legal(r) && !sh.drain && At(Last(r), 0) == Ready
    requires Last(r).(threads := map[0 := Ready]) == Alone(Ready, sh, conns) && Last(r).threads[0 := Ready] == map[0 := Ready]
    ensures Legal(r') && Last(r') == Alone(Ready, Tracked(sh.(wg := sh.wg + 1), |conns|), conns + [Fresh()])
  {
    var c := |conns|;
    var new_ := Conn(Flags(false, false, false), false, false, false, false, Some(0));
    var sh1 := sh.(wg := sh.wg + 1);
    var s1 := Alone(Accepted(c), sh, conns + [new_]);
    var s2 := Alone(Tracking(c), sh1, conns + [new_.(added := true)]);
    var s3 := Alone(Ready, Tracked(sh1, c), conns + [Fresh()]);
    assert Last(r).threads[0 := Accepted(c)] == map[0 := Accepted(c)] by {
      assert Last(r).threads[0 := Ready][0 := Accepted(c)] == map[0 := Accepted(c)];
    }
    Becomes(Last(r), Accept, s1);
    Becomes(s1, Go, s2);
    Becomes(s2, Go, s3);
    r' := Three(r, Accept, s1, s2, s3);
  }

  lemma Three(r: Run, op: Op, s1: State, s2: State, s3: State) returns (r': Run)
    requires Legal(r) && Next(Last(r), 0, op, s1) && Next(s1, 0, Go, s2) && Next(s2, 0, Go, s3)
    ensures Legal(r') && Last(r') == s3 && r'.ops == r.ops + [op, Go, Go]
  {
    hide Next, Init, IsRun;
    OneMore(r, op, s1);
    OneMore(Then(r, op, s1), Go, s2);
    OneMore(Then(Then(r, op, s1), Go, s2), Go, s3);
    r' := Then(Then(Then(r, op, s1), Go, s2), Go, s3);
  }

  lemma Two(r: Run, op: Op, s1: State, s2: State) returns (r': Run)
    requires Legal(r) && Next(Last(r), 0, op, s1) && Next(s1, 0, Go, s2)
    ensures Legal(r') && Last(r') == s2
  {
    hide Next, Init, IsRun;
    OneMore(r, op, s1);
    OneMore(Then(r, op, s1), Go, s2);
    r' := Then(Then(r, op, s1), Go, s2);
  }

  lemma Reads(r: Run, sh: Shard, conns: seq<Conn>, c: nat) returns (r': Run)
    requires Legal(r) && Last(r) == Alone(Ready, sh, conns) && c < |conns| && conns[c] == Fresh()
    ensures Legal(r') && Last(r') == Alone(Ready, InUsed(sh, c), conns[c := Busy()])
  {
    var s1 := Alone(Holding(c, TellInUse, User), sh, conns[c := Busy().(owner := Some(0))]);
    var s2 := Alone(Ready, InUsed(sh, c), conns[c := Busy()]);
    Becomes(Last(r), Read(c, true), s1);
    Becomes(s1, Go, s2);
    r' := Two(r, Read(c, true), s1, s2);
  }

  lemma Closes(r: Run, sh: Shard, conns: seq<Conn>, c: nat) returns (r': Run)
    requires Legal(r) && Last(r) == Alone(Ready, sh, conns) && c < |conns|
    requires conns[c] == Handed(conns[c].f, false, false) && Live(conns[c].f)
    ensures Legal(r') && Last(r') == Alone(Ready, Released(Untracked(sh, c)), conns[c := Handed(conns[c].f.(closed := true), true, false)])
  {
    var x := Handed(conns[c].f.(closed := true), false, false);
    var s1 := Alone(Holding(c, Untrack, User), sh, conns[c := x.(owner := Some(0))]);
    var s2 := Alone(Holding(c, Done, User), Untracked(sh, c), conns[c := x.(owner := Some(0))]);
    var s3 := Alone(Ready, Released(Untracked(sh, c)), conns[c := x.(closeDone := true)]);
    Becomes(Last(r), Close(c), s1);
    Becomes(s1, Go, s2);
    Becomes(s2, Go, s3);
    r' := Three(r, Close(c), s1, s2, s3);
  }

  lemma Disowns(r: Run, sh: Shard, conns: seq<Conn>, c: nat) returns (r': Run)
    requires Legal(r) && Last(r) == Alone(Ready, sh, conns) && c < |conns|
    requires conns[c] == Handed(conns[c].f, conns[c].closeDone, false) && !conns[c].f.disowned
    ensures Legal(r') && r'.ops == r.ops + [Disown(c), Go, Go]
    ensures Last(r') == Alone(Ready, Released(Untracked(sh, c)), conns[c := conns[c].(f := conns[c].f.(disowned := true), disownDone := true)])
  {
    var x := conns[c];
    var s1 := Alone(Holding(c, HandOff, User), sh, conns[c := x.(owner := Some(0))]);
    var s2 := Alone(Holding(c, HandedOff, User), Untracked(sh, c), conns[c := x.(owner := Some(0))]);
    var s3 := Alone(Ready, Released(Untracked(sh, c)), conns[c := x.(f := x.f.(disowned := true), disownDone := true)]);
    Becomes(Last(r), Disown(c), s1);
    Becomes(s1, Go, s2);
    Becomes(s2, Go, s3);
    r' := Three(r, Disown(c), s1, s2, s3);
  }

  lemma MarksIdle(r: Run, sh: Shard, conns: seq<Conn>, c: nat) returns (r': Run)
    requires Legal(r) && Last(r) == Alone(Ready, sh, conns) && c < |conns| && !sh.drain
    requires conns[c].shared && conns[c].owner == None && conns[c].f.busy
    ensures Legal(r') && Last(r') == Alone(Ready, Idled(sh, c), conns[c := conns[c].(f := conns[c].f.(busy := false))])
  {
    var x := conns[c].(f := conns[c].f.(busy := false));
    var s1 := Alone(Holding(c, TellIdle, User), sh, conns[c := x.(owner := Some(0))]);
    var s2 := Alone(Ready, Idled(sh, c), conns[c := x]);
    Becomes(Last(r), MarkIdle(c), s1);
    Becomes(s1, Go, s2);
    r' := Two(r, MarkIdle(c), s1, s2);
  }

  /** With nothing idle and the counter at zero, Drain goes straight through. */
  lemma Drains(r: Run, sh: Shard, conns: seq<Conn>) returns (r': Run)
    requires Legal(r) && Last(r) == Alone(Ready, sh, conns) && sh.idle == {} && sh.wg == 0
    ensures Legal(r') && Last(r').drained && Last(r').shards == [sh.(drain := true)] && Last(r').conns == conns
  {
    hide IsRun;
    r' := DrainSweeps(r, sh, conns);
    r' := DrainWaits(r', sh.(drain := true), conns);
  }

  lemma DrainSweeps(r: Run, sh: Shard, conns: seq<Conn>) returns (r': Run)
    requires Legal(r) && Last(r) == Alone(Ready, sh, conns) && sh.idle == {}
    ensures Legal(r') && Last(r') == Alone(JobAt(DrainJob(false), 1), sh.(drain := true), conns).(swept := {0})
  {
    var d := sh.(drain := true);
    var s1 := Alone(JobAt(DrainJob(false), 0), sh, conns);
    var s2 := Alone(Sweeping(DrainJob(false), 0, {}), d, conns);
    var s3 := Alone(JobAt(DrainJob(false), 1), d, conns).(swept := {0});
    Becomes(Last(r), Drain(false), s1);
    Becomes(s1, Go, s2);
    Becomes(s2, Go, s3);
    r' := Three(r, Drain(false), s1, s2, s3);
  }

  lemma DrainWaits(r: Run, sh: Shard, conns: seq<Conn>) returns (r': Run)
    requires Legal(r) && Last(r) == Alone(JobAt(DrainJob(false), 1), sh, conns).(swept := {0}) && sh.wg == 0
    ensures Legal(r') && Last(r') == Alone(Ready, sh, conns).(swept := {0}, drained := true)
  {
    var s1 := Alone(Waiting(false, 0), sh, conns).(swept := {0});
    var s2 := Alone(Waiting(false, 1), sh, conns).(swept := {0});
    var s3 := Alone(Ready, sh, conns).(swept := {0}, drained := true);
    Becomes(Last(r), Go, s1);
    Becomes(s1, Go, s2);
    Becomes(s2, Go, s3);
    r' := Three(r, Go, s1, s2, s3);
  }

  // ----- disowning what is closed -----

  /** Two connections are accepted, the first is in use, the second is closed and
      then disowned: the counter drops to zero, and Drain returns while the first is
      still open, in use and tracked. */
  lemma DisownAfterCloseLosesCount() returns (r: Run)
    ensures Legal(r)
    ensures var s := Last(r);
            && s.drained && |s.shards| == 1 && s.shards[0].wg == 0
            && 0 in s.shards[0].all && InUse(s, 0)
  {
    hide IsRun;
    StartIsLegal();
    var empty: Shard := Shard({}, {}, 0, false);
    r := Accepts(Start(), empty, []);
    var one := Tracked(empty.(wg := 1), 0);
    assert [] + [Fresh()] == [Fresh()];
    r := Accepts(r, one, [Fresh()]);
    var two := Tracked(one.(wg := 2), 1);
    assert [Fresh()] + [Fresh()] == [Fresh(), Fresh()];
    r := Reads(r, two, [Fresh(), Fresh()], 0);
    var three := InUsed(two, 0);
    assert [Fresh(), Fresh()][0 := Busy()] == [Busy(), Fresh()];
    r := Closes(r, three, [Busy(), Fresh()], 1);
    var four := Released(Untracked(three, 1));
    var x := Handed(Flags(false, true, false), true, false);
    assert [Busy(), Fresh()][1 := x] == [Busy(), x];
    r := Disowns(r, four, [Busy(), x], 1);
    var five := Released(Untracked(four, 1));
    var y := Handed(Flags(false, true, true), true, true);
    assert [Busy(), x][1 := y] == [Busy(), y];
    r := Drains(r, five, [Busy(), y]);
  }

  // ----- straying into the idle set -----

  /** A connection is accepted and read, closed while in use, and then marked idle: it
      strays, until it is disowned. */
  lemma ClosedStraysUntilDisowned() returns (r: Run, r': Run)
    ensures Legal(r) && Stray(Last(r), 0) && FlagsOf(Last(r), 0) == Flags(false, true, false)
    ensures Legal(r') && !Stray(Last(r'), 0) && r'.ops == r.ops + [Disown(0), Go, Go]
  {
    hide IsRun;
    var x := Handed(Flags(true, true, false), true, false);
    var y := Handed(Flags(false, true, false), true, false);
    var sh: Shard;
    r, sh := Begun();
    r := Closes(r, sh, [Busy()], 0);
    sh := Released(Untracked(sh, 0));
    assert [Busy()][0 := x] == [x];
    r := MarksIdle(r, sh, [x], 0);
    sh := Idled(sh, 0);
    assert [x][0 := y] == [y];
    r' := Disowns(r, sh, [y], 0);
  }

  /** One that is disowned while in use, and then marked idle, strays for good. */
  lemma DisownedStrays() returns (r: Run)
    ensures Legal(r) && Stray(Last(r), 0) && FlagsOf(Last(r), 0) == Flags(false, false, true)
  {
    hide IsRun;
    var x := Handed(Flags(true, false, true), false, true);
    var sh: Shard;
    r, sh := Begun();
    r := Disowns(r, sh, [Busy()], 0);
    sh := Released(Untracked(sh, 0));
    assert [Busy()][0 := x] == [x];
    r := MarksIdle(r, sh, [x], 0);
  }

  /** One connection, accepted and in use. */
  lemma Begun() returns (r: Run, sh: Shard)
    ensures Legal(r) && Last(r) == Alone(Ready, sh, [Busy()]) && !sh.drain && 0 in sh.all
  {
    hide IsRun;
    StartIsLegal();
    var empty: Shard := Shard({}, {}, 0, false);
    r := Accepts(Start(), empty, []);
    sh := Tracked(empty.(wg := 1), 0);
    assert [] + [Fresh()] == [Fresh()];
    r := Reads(r, sh, [Fresh()], 0);
    sh := InUsed(sh, 0);
    assert [Fresh()][0 := Busy()] == [Busy()];
  }
}
