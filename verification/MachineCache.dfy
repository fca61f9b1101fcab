/** The cached machine under concurrency (web/router.go:67-82 and 126-154,
    web/atomic.go:10-18): any number of goroutines handling routes, compiling and
    serving requests, interleaved at every shared access. The route list is only
    touched under the lock; the machine pointer is loaded without it. */
module MachineCache {
  import opened Options
  import opened Routing
  import opened Insertion
  import opened Bytecode
  import opened Machines

  /** Where a goroutine is. A request remembers how many routes had been handled
      when it began. */
  datatype PC =
    | Idle
    | Inserting(r: Route)
    | Cleared(r: Route, newRoutes: seq<Route>)
    | Compiling(request: Option<nat>)
    | Encoded(request: Option<nat>, sm: seq<Instr>)
    | Asking(start: nat)
    | Waiting(start: nat)
    | Serving(start: nat, rm: RouteMachine)

  datatype State = State(
    routes: seq<Route>,
    machine: Option<RouteMachine>,
    lock: Option<nat>,
    threads: map<nat, PC>,
    history: seq<Route>)

  function At(s: State, t: nat): PC {
    if t in s.threads then s.threads[t] else Idle
  }

  function Goto(s: State, t: nat, pc: PC): State {
    s.(threads := s.threads[t := pc])
  }

  /** One step of goroutine t. */
  ghost predicate Next(s: State, t: nat, s': State) {
    match At(s, t)
    case Idle =>
      || (s.lock == None && exists r :: s' == Goto(s, t, Inserting(r)).(lock := Some(t)))
      || (s.lock == None && s' == Goto(s, t, Compiling(None)).(lock := Some(t)))
      || s' == Goto(s, t, Asking(|s.history|))
    case Inserting(r) =>
      s' == Goto(s, t, Cleared(r, Inserted(s.routes, r))).(machine := None)
    case Cleared(r, newRoutes) =>
      s' == Goto(s, t, Idle).(routes := newRoutes, history := s.history + [r], lock := None)
    case Asking(start) =>
      s' == Goto(s, t, if s.machine.Some? then Serving(start, s.machine.value) else Waiting(start))
    case Waiting(start) =>
      s.lock == None && s' == Goto(s, t, Compiling(Some(start))).(lock := Some(t))
    case Compiling(request) =>
      exists sm :: IsCompiled(sm, s.routes) && s' == Goto(s, t, Encoded(request, sm))
    case Encoded(request, sm) =>
      var rm := RouteMachine(sm, s.routes);
      s' == Goto(s, t, if request.Some? then Serving(request.value, rm) else Idle).(machine := Some(rm), lock := None)
    case Serving(_, _) =>
      s' == Goto(s, t, Idle)
  }

  ghost predicate Init(s: State) {
    s.routes == s.history == [] && s.machine == None && s.lock == None && s.threads == map[]
  }

  /** The machine was compiled from the list as it stood after some number of
      handled routes, no fewer than when the request began. */
  ghost predicate FromOneSnapshot(rm: RouteMachine, start: nat, history: seq<Route>) {
    && IsCompiled(rm.sm, rm.routes)
    && exists e :: start <= e <= |history| && rm.routes == Built(history[..e])
  }

  predicate HoldsLock(pc: PC) {
    pc.Inserting? || pc.Cleared? || pc.Compiling? || pc.Encoded?
  }

  ghost predicate ThreadInv(s: State, t: nat) {
    && (HoldsLock(At(s, t)) <==> s.lock == Some(t))
    && match At(s, t)
       case Cleared(r, newRoutes) => s.machine == None && newRoutes == Inserted(s.routes, r)
       case Compiling(request) => request.Some? ==> request.value <= |s.history|
       case Encoded(request, sm) => IsCompiled(sm, s.routes) && (request.Some? ==> request.value <= |s.history|)
       case Asking(start) => start <= |s.history|
       case Waiting(start) => start <= |s.history|
       case Serving(start, rm) => FromOneSnapshot(rm, start, s.history)
       case _ => true
  }

  ghost predicate Inv(s: State) {
    && s.routes == Built(s.history)
    && (s.machine.Some? ==> s.machine.value.routes == s.routes && IsCompiled(s.machine.value.sm, s.routes))
    && forall t :: ThreadInv(s, t)
  }

  lemma CurrentIsSnapshot(s: State, rm: RouteMachine, start: nat)
    requires s.routes == Built(s.history) && rm.routes == s.routes && IsCompiled(rm.sm, s.routes)
    requires start <= |s.history|
    ensures FromOneSnapshot(rm, start, s.history)
  {
    assert s.history[..|s.history|] == s.history;
  }

  lemma SnapshotLasts(rm: RouteMachine, start: nat, history: seq<Route>, r: Route)
    requires FromOneSnapshot(rm, start, history)
    ensures FromOneSnapshot(rm, start, history + [r])
  {
    var e :| start <= e <= |history| && rm.routes == Built(history[..e]);
    assert (history + [r])[..e] == history[..e];
  }

  lemma OtherThreads(s: State, t: nat, s': State, u: nat)
    requires Inv(s) && Next(s, t, s') && u != t
    ensures ThreadInv(s', u)
  {
    hide IsCompiled, Built, Inserted;
    assert ThreadInv(s, u) && ThreadInv(s, t);
    assert At(s', u) == At(s, u);
    if At(s, t).Cleared? && At(s, u).Serving? {
      SnapshotLasts(At(s, u).rm, At(s, u).start, s.history, At(s, t).r);
    }
  }

  lemma InvKept(s: State, t: nat, s': State)
    requires Inv(s) && Next(s, t, s')
    ensures Inv(s')
  {
    hide IsCompiled, Built, Inserted, FromOneSnapshot;
    assert ThreadInv(s, t);
    match At(s, t) {
      case Cleared(r, newRoutes) => BuiltOneMore(s.history, r);
      case Asking(start) =>
        if s.machine.Some? {
          CurrentIsSnapshot(s, s.machine.value, start);
        }
      case Encoded(request, sm) =>
        if request.Some? {
          CurrentIsSnapshot(s, RouteMachine(sm, s.routes), request.value);
        }
      case _ =>
    }
    forall u
      ensures ThreadInv(s', u)
    {
      if u != t {
        OtherThreads(s, t, s', u);
      }
    }
  }

  /** A run: states, and the goroutine that made each step. */
  ghost predicate IsRun(states: seq<State>, who: seq<nat>) {
    && |states| == |who| + 1 && Init(states[0])
    && forall i | 0 <= i < |who| :: Next(states[i], who[i], states[i + 1])
  }

  /** In every state of every run, also inside critical sections, the stored machine
      is nil or the compilation of exactly the current routes; and every request is
      served by bytecode and routes of one snapshot of the list that was current
      while the request was under way. */
  lemma {:induction false} CacheIsCoherent(states: seq<State>, who: seq<nat>, i: nat)
    requires IsRun(states, who) && i < |states|
    ensures Inv(states[i])
  {
    if i > 0 {
      CacheIsCoherent(states, who, i - 1);
      InvKept(states[i - 1], who[i - 1], states[i]);
    }
  }

  /** So a request behaves as the naive router on the first e handled routes, for an
      e no smaller than the number handled when the request began. */
  lemma ServedLikeNaive<C>(states: seq<State>, who: seq<nat>, i: nat, t: nat, rq: Request<C>, ctx: C) returns (e: nat, n: nat)
    requires IsRun(states, who) && i < |states| && At(states[i], t).Serving?
    ensures var start, rm := At(states[i], t).start, At(states[i], t).rm;
            && start <= e <= |states[i].history|
            && (rm.sm == [] ==> e == 0)
            && (rm.sm != [] ==> n <= |rm.sm| && Steps(rm, rq, Running(0, rq.path, Initial(ctx)), n)
                                == Halted(TryAll(Plausible(states[i].history[..e], rq.path), rq, Initial(ctx))))
  {
    hide Step, TryAll;
    var start, rm := At(states[i], t).start, At(states[i], t).rm;
    CacheIsCoherent(states, who, i);
    assert ThreadInv(states[i], t);
    e :| start <= e <= |states[i].history| && rm.routes == Built(states[i].history[..e]);
    BuiltKeepsInsertionOrder(states[i].history[..e]);
    n := 0;
    if rm.sm != [] {
      n := CompiledRunsLikeNaive(rm, rq, ctx);
    } else {
      NoCodeNoRoutes(rm.sm, rm.routes);
      assert |multiset(rm.routes)| == |rm.routes|;
      assert |multiset(states[i].history[..e])| == e;
    }
  }

  // ----- which routes a request sees -----

  /** The routes whose handle has finished before state k, in order. */
  function HandledBefore(states: seq<State>, who: seq<nat>, k: nat): seq<Route>
    requires k <= |who| && |states| == |who| + 1
  {
    if k == 0 then []
    else
      var pc := At(states[k - 1], who[k - 1]);
      HandledBefore(states, who, k - 1) + if pc.Cleared? then [pc.r] else []
  }

  lemma HistoryStep(s: State, t: nat, s': State)
    requires Next(s, t, s')
    ensures s'.history == s.history + if At(s, t).Cleared? then [At(s, t).r] else []
  {
    hide IsCompiled, Inserted;
  }

  lemma {:induction false} HistoryIsHandled(states: seq<State>, who: seq<nat>, k: nat)
    requires IsRun(states, who) && k < |states|
    ensures states[k].history == HandledBefore(states, who, k)
  {
    hide Next;
    if k > 0 {
      HistoryIsHandled(states, who, k - 1);
      HistoryStep(states[k - 1], who[k - 1], states[k]);
    }
  }

  lemma {:induction false} HandledGrows(states: seq<State>, who: seq<nat>, b: nat, k: nat)
    requires b <= k <= |who| && |states| == |who| + 1
    ensures HandledBefore(states, who, b) <= HandledBefore(states, who, k)
    decreases k
  {
    if b < k {
      HandledGrows(states, who, b, k - 1);
    }
  }

  /** The request a goroutine is serving, by the number it began with. */
  function StartOf(pc: PC): Option<nat> {
    match pc
    case Compiling(request) => request
    case Encoded(request, _) => request
    case Asking(start) => Some(start)
    case Waiting(start) => Some(start)
    case Serving(start, _) => Some(start)
    case _ => None
  }

  lemma RequestStep(s: State, t: nat, s': State)
    requires Next(s, t, s') && StartOf(At(s', t)).Some?
    ensures StartOf(At(s, t)) == StartOf(At(s', t)) || (At(s, t) == Idle && At(s', t) == Asking(|s.history|))
  {
    hide IsCompiled, Inserted;
  }

  lemma OthersStay(s: State, t: nat, s': State, u: nat)
    requires Next(s, t, s') && u != t
    ensures At(s', u) == At(s, u)
  {
    hide IsCompiled, Inserted;
  }

  /** The step b in which the request of goroutine t began. */
  lemma {:induction false} RequestBegan(states: seq<State>, who: seq<nat>, i: nat, t: nat) returns (b: nat)
    requires IsRun(states, who) && i < |states| && StartOf(At(states[i], t)).Some?
    ensures b < i && who[b] == t && At(states[b], t) == Idle && At(states[b + 1], t).Asking?
    ensures forall m: nat | b < m <= i :: At(states[m], t) != Idle
    ensures StartOf(At(states[i], t)) == Some(|HandledBefore(states, who, b)|)
  {
    hide Next, StartOf;
    if i > 0 {
      b := i - 1;
      if who[b] == t {
        RequestStep(states[b], t, states[i]);
      } else {
        OthersStay(states[b], who[b], states[i], t);
      }
      if StartOf(At(states[b], t)) == StartOf(At(states[i], t)) {
        b := RequestBegan(states, who, i - 1, t);
      } else {
        HistoryIsHandled(states, who, b);
      }
      NotIdle(At(states[i], t));
      StartOfAsking(At(states[i], t));
    } else {
      NotIdle(At(states[0], t));
    }
  }

  lemma NotIdle(pc: PC)
    ensures StartOf(pc).Some? ==> pc != Idle
  {}

  lemma StartOfAsking(pc: PC)
    ensures pc.Asking? ==> StartOf(pc) == Some(pc.start)
  {}

  /** A request is served by bytecode and routes built from the routes handled so far,
      in the order of their handle calls, up to some point, and that point is no earlier
      than the beginning of the request: every route handled by then is among them. */
  lemma HandledBeforeIsServed(states: seq<State>, who: seq<nat>, i: nat, t: nat) returns (b: nat, e: nat)
    requires IsRun(states, who) && i < |states| && At(states[i], t).Serving?
    ensures b < i && who[b] == t && At(states[b], t) == Idle && At(states[b + 1], t).Asking?
    ensures forall m: nat | b < m <= i :: At(states[m], t) != Idle
    ensures |HandledBefore(states, who, b)| <= e <= |HandledBefore(states, who, i)|
    ensures HandledBefore(states, who, b) <= HandledBefore(states, who, i)[..e]
    ensures At(states[i], t).rm.routes == Built(HandledBefore(states, who, i)[..e])
    ensures IsCompiled(At(states[i], t).rm.sm, At(states[i], t).rm.routes)
    ensures forall k: nat | k < b && At(states[k], who[k]).Cleared? :: At(states[k], who[k]).r in HandledBefore(states, who, i)[..e]
  {
    hide Next, IsCompiled, Built;
    var start, rm := At(states[i], t).start, At(states[i], t).rm;
    CacheIsCoherent(states, who, i);
    assert ThreadInv(states[i], t);
    e :| start <= e <= |states[i].history| && rm.routes == Built(states[i].history[..e]);
    HistoryIsHandled(states, who, i);
    b := RequestBegan(states, who, i, t);
    HandledGrows(states, who, b, i);
    forall k: nat | k < b && At(states[k], who[k]).Cleared?
      ensures At(states[k], who[k]).r in HandledBefore(states, who, i)[..e]
    {
      HandledGrows(states, who, k + 1, b);
      var r := At(states[k], who[k]).r;
      assert HandledBefore(states, who, k + 1)[|HandledBefore(states, who, k + 1)| - 1] == r;
    }
  }
}
