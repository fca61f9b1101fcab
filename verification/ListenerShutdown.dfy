/** The two protocols together: what the end of a shutdown says about the connections
    of the listeners (graceful/signal.go:213-221 calls Drain or DrainAll of
    graceful/listener). */
module ListenerShutdown {
  import opened Options
  import opened Shutdown
  import Passes
  import D = Draining
  import T = DrainingTheorems
  import J = Jobs

  /** What one listener has done so far. */
  datatype ListenerRun = ListenerRun(states: seq<D.State>, who: seq<nat>, ops: seq<D.Op>)

  ghost predicate Reachable(r: ListenerRun) {
    r.states != [] && T.IsRun(r.states, r.who, r.ops)
  }

  function Now(r: ListenerRun): D.State
    requires r.states != []
  {
    r.states[|r.states| - 1]
  }

  /** No closed connection has been disowned. */
  ghost predicate WellUsed(r: ListenerRun)
    requires Reachable(r)
  {
    forall j: nat | j < |r.who| :: !T.DisownsClosed(r.states[j], r.who[j], r.ops[j])
  }

  /** Somebody has called DrainAll, or Drain, and that call has returned. */
  ghost predicate Returned(r: ListenerRun, all: bool)
    requires Reachable(r)
  {
    exists j: nat, m: nat :: ReturnedAt(r, all, j, m)
  }

  ghost predicate ReturnedAt(r: ListenerRun, all: bool, j: nat, m: nat)
    requires Reachable(r)
  {
    && j < m < |r.states| && j < |r.who| && j < |r.ops|
    && D.At(r.states[j], r.who[j]) == D.Ready && r.ops[j] == D.Drain(all) && D.At(r.states[m], r.who[j]) == D.Ready
  }

  /** The goroutine of listener k reports only after its DrainAll, if the shutdown was
      forced, or its Drain has returned. */
  ghost predicate Agrees(log: seq<Event>, runs: seq<ListenerRun>) {
    && (forall k: nat | k < |runs| :: Reachable(runs[k]))
    && (forall f, k: nat {:trigger Drained(f, k) in log} | Drained(f, k) in log :: k < |runs| && Returned(runs[k], f))
  }

  /** Every connection that Accept has handed out and that nobody has locked is closed
      or disowned. */
  ghost predicate NoneOpen(s: D.State) {
    forall c: nat | c < |s.conns| && s.conns[c].shared && s.conns[c].owner == None :: s.conns[c].f.closed || s.conns[c].f.disowned
  }

  lemma DrainedLeavesNoneOpen(r: ListenerRun, all: bool)
    requires Reachable(r) && Returned(r, all) && (all || WellUsed(r))
    ensures NoneOpen(Now(r))
    ensures all ==> forall i: nat | i < |Now(r).shards| :: Now(r).shards[i].all == {}
  {
    hide T.DisownsClosed, T.Next, D.Init;
    var s, n := Now(r), |r.states| - 1;
    var j: nat, m: nat :| ReturnedAt(r, all, j, m);
    J.DrainReaches(r.states, r.who, r.ops, j, m, n, all);
    J.DrainReturns(r.states, r.who, r.ops, j, m, n, all);
    forall c: nat | c < |s.conns| && s.conns[c].shared && s.conns[c].owner == None
      ensures s.conns[c].f.closed || s.conns[c].f.disowned
    {
      if !all {
        T.DrainClosesEverything(r.states, r.who, r.ops, n, c);
      }
    }
  }

  /** A closeListeners that is over has left no connection of any listener it found
      open: each is closed or disowned. After a forced one nothing is tracked, however
      disown has been used. */
  lemma OverLeavesNoneOpen(log: seq<Event>, runs: seq<ListenerRun>, f: bool, found: seq<nat>)
    requires Orderly(log) && CloseOver(f, found) in log && Agrees(log, runs)
    requires f || forall k: nat | k < |runs| :: WellUsed(runs[k])
    ensures |found| <= |runs|
    ensures forall k: nat | k < |found| :: NoneOpen(Now(runs[k]))
    ensures f ==> forall k: nat | k < |found| :: forall i: nat | i < |Now(runs[k]).shards| :: Now(runs[k]).shards[i].all == {}
  {
    hide Orderly, NoneOpen, T.IsRun, WellUsed, Returned;
    OverMeansDrained(log, f, found);
    if found != [] {
      assert Drained(f, |found| - 1) in log;
    }
    forall k: nat | k < |found|
      ensures NoneOpen(Now(runs[k]))
      ensures f ==> forall i: nat | i < |Now(runs[k]).shards| :: Now(runs[k]).shards[i].all == {}
    {
      assert Drained(f, k) in log;
      DrainedLeavesNoneOpen(runs[k], f);
    }
  }

  /** When `wait` has been closed, some closeListeners has left none open. */
  lemma NoConnectionOutlivesWait(log: seq<Event>, runs: seq<ListenerRun>) returns (f: bool, found: seq<nat>)
    requires Orderly(log) && Notify in log && Agrees(log, runs)
    requires forall k: nat | k < |runs| :: WellUsed(runs[k])
    ensures CloseOver(f, found) in log && |found| <= |runs|
    ensures forall k: nat | k < |found| :: NoneOpen(Now(runs[k]))
  {
    hide Orderly, NoneOpen, T.IsRun, WellUsed, Returned, AllDrained;
    NoPosthookBeforeDrained(log);
    f, found :| CloseOver(f, found) in log && AllDrained(log, f, found);
    OverLeavesNoneOpen(log, runs, f, found);
  }

  /** When a forced shutdown has returned, the listeners that a forced closeListeners
      found track no connection, in use or not, and have none open. */
  lemma ForcedShutdownLeavesNothing(states: seq<State>, who: seq<nat>, ops: seq<Op>, j: nat, k: nat, runs: seq<ListenerRun>) returns (found: seq<nat>)
    requires IsRun(states, who, ops) && j < k < |states| && ops[j] == Call(true) && At(states[k], who[j]).at == Idle
    requires Agrees(states[k].log, runs)
    ensures CloseOver(true, found) in states[k].log && |found| <= |runs|
    ensures forall l: nat | l < |found| :: NoneOpen(Now(runs[l])) && forall i: nat | i < |Now(runs[l]).shards| :: Now(runs[l]).shards[i].all == {}
  {
    hide Step, Init, NoneOpen, T.IsRun, Returned, Orderly;
    Passes.CallReturns(states, who, ops, j, k, true);
    ShutdownIsOrderly(states, who, ops, k);
    found :| CloseOver(true, found) in states[k].log;
    OverLeavesNoneOpen(states[k].log, runs, true, found);
  }
}
