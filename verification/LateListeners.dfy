/** What posthooks may rely on: all listening connections are closed before they run
    (graceful/signal.go:68-69), unless a listener was registered too late. */
module LateListeners {
  import opened Options
  import opened Sequences
  import opened Shutdown
  import opened ShutdownSteps

  /** A closeListeners call for this kind of shutdown takes the mutex, and with it the
      list of listeners. */
  predicate Snapshots(s: State, t: nat, op: Op, f: bool) {
    op == Go && At(s, t).at == CloseLock && At(s, t).force == f
  }

  predicate AddsListener(op: Op) {
    op.Register? && op.r.AddListener?
  }

  /** The closeListeners call of this kind has its listeners. */
  predicate Taken(s: State, f: bool) {
    match CloseGate(s, f)
    case Unused => false
    case Running(t) => At(s, t).at == Spawning || At(s, t).at == Joining
    case Over => true
  }

  ghost predicate TakenKept(s: State, s': State, f: bool) {
    (Taken(s', f) <==> Taken(s, f)) && (Taken(s, f) ==> GroupOf(s', f).found == GroupOf(s, f).found)
  }

  // ----- one step -----

  /** Neither gate nor group nor a goroutine inside closeListeners has moved. */
  lemma TakenFrame(s: State, t: nat, s': State, f: bool)
    requires Inv(s) && s'.close == s.close && s'.groups == s.groups
    requires s'.threads == s.threads || s'.threads == s.threads[t := At(s', t)]
    requires !InClose(At(s, t).at)
    ensures TakenKept(s, s', f)
  {
    hide Inv, ProgressOk, Global, Orderly;
    var gate := CloseGate(s, f);
    if gate.Running? {
      InvParts(s, gate.t);
    }
  }

  lemma TakenWork(s: State, g: bool, k: nat, s': State, f: bool)
    requires StepWork(s, g, k) == Some(s')
    ensures TakenKept(s, s', f)
  {
    hide StepWork, GroupOf, CloseGate;
    WorkShape(s, g, k, s');
  }

  /** What a step inside closeListeners makes of either kind's list. */
  ghost predicate TakenBy(s: State, s': State, f: bool, takes: bool) {
    && (Taken(s', f) <==> Taken(s, f) || takes)
    && (Taken(s, f) ==> !takes && GroupOf(s', f).found == GroupOf(s, f).found)
    && (takes ==> GroupOf(s', f).found == s.listeners)
  }

  lemma TakenSetClosing(s: State, t: nat, s': State, f: bool)
    requires GatesOk(s, t, SetClosing, At(s, t).force) && At(s, t).at == SetClosing && SetClosingFlag(s, t, At(s, t).force) == Some(s')
    ensures TakenBy(s, s', f, false)
  {}

  lemma TakenCloseLock(s: State, t: nat, s': State, f: bool)
    requires GatesOk(s, t, CloseLock, At(s, t).force) && At(s, t).at == CloseLock && LockForClose(s, t, At(s, t).force) == Some(s')
    ensures TakenBy(s, s', f, f == At(s, t).force)
  {}

  lemma TakenSpawning(s: State, t: nat, s': State, f: bool)
    requires GatesOk(s, t, Spawning, At(s, t).force) && At(s, t).at == Spawning && Spawn(s, t, At(s, t).force, At(s, t).k) == Some(s')
    ensures TakenBy(s, s', f, false)
  {}

  lemma TakenJoining(s: State, t: nat, s': State, f: bool)
    requires GatesOk(s, t, Joining, At(s, t).force) && At(s, t).at == Joining && Join(s, t, At(s, t).force) == Some(s')
    ensures TakenBy(s, s', f, false)
  {}

  lemma TakenInClose(s: State, t: nat, s': State, f: bool)
    requires Inv(s) && InClose(At(s, t).at) && StepShutdown(s, t, At(s, t).force, At(s, t).k) == Some(s')
    ensures TakenBy(s, s', f, Snapshots(s, t, Go, f))
  {
    hide Inv, ProgressOk, GatesOk, Global, Orderly, TakenBy, SetClosingFlag, LockForClose, Spawn, Join;
    InvParts(s, t);
    match At(s, t).at {
      case SetClosing => TakenSetClosing(s, t, s', f);
      case CloseLock => TakenCloseLock(s, t, s', f);
      case Spawning => TakenSpawning(s, t, s', f);
      case Joining => TakenJoining(s, t, s', f);
      case _ =>
    }
  }

  lemma TakenAtClose(s: State, t: nat, s': State, f: bool)
    requires At(s, t).at == AtClose && EnterClose(s, t, At(s, t).force) == Some(s')
    requires CloseGate(s, f) != Running(t)
    ensures TakenKept(s, s', f)
  {}

  /** The steps outside closeListeners leave its gates and groups alone. */
  ghost predicate CloseKept(s: State, s': State) {
    s'.close == s.close && s'.groups == s.groups
  }

  lemma PreKeepsClose(s: State, t: nat, f: bool, k: nat)
    ensures EnterPre(s, t, f).Some? ==> CloseKept(s, EnterPre(s, t, f).value)
    ensures LockForPre(s, t, f).Some? ==> CloseKept(s, LockForPre(s, t, f).value)
    ensures RunPreHook(s, t, f, k).Some? ==> CloseKept(s, RunPreHook(s, t, f, k).value)
  {
    hide Goto;
    OnlyGoto(s, t, PreLock, f, 0);
    OnlyGoto(s, t, PreHooks, f, 0);
    OnlyGoto(s, t, PreHooks, f, k + 1);
    OnlyGoto(s, t, AtClose, f, 0);
  }

  lemma PostKeepsClose(s: State, t: nat, f: bool, k: nat)
    ensures EnterPost(s, t, f).Some? ==> CloseKept(s, EnterPost(s, t, f).value)
    ensures LockForPost(s, t, f).Some? ==> CloseKept(s, LockForPost(s, t, f).value)
    ensures RunPostHook(s, t, f, k).Some? ==> CloseKept(s, RunPostHook(s, t, f, k).value)
  {
    hide Goto;
    OnlyGoto(s, t, PostLock, f, 0);
    OnlyGoto(s, t, PostHooks, f, 0);
    OnlyGoto(s, t, PostHooks, f, k + 1);
    OnlyGoto(s, t, AtNotify, f, 0);
  }

  lemma NotifyKeepsClose(s: State, t: nat, f: bool)
    ensures EnterNotify(s, t, f).Some? ==> CloseKept(s, EnterNotify(s, t, f).value)
    ensures CloseWait(s, t, f).Some? ==> CloseKept(s, CloseWait(s, t, f).value)
  {
    hide Goto;
    OnlyGoto(s, t, Notifying, f, 0);
    OnlyGoto(s, t, Idle, f, 0);
  }

  lemma OutsideClose(s: State, t: nat, s': State)
    requires !InClose(At(s, t).at) && At(s, t).at != AtClose && StepShutdown(s, t, At(s, t).force, At(s, t).k) == Some(s')
    ensures CloseKept(s, s')
  {
    hide CloseKept, EnterPre, LockForPre, RunPreHook, EnterPost, LockForPost, RunPostHook, EnterNotify, CloseWait;
    var f, k := At(s, t).force, At(s, t).k;
    PreKeepsClose(s, t, f, k);
    PostKeepsClose(s, t, f, k);
    NotifyKeepsClose(s, t, f);
  }

  lemma NotInClose(s: State, t: nat, f: bool)
    requires ThreadOk(s, t) && !InClose(At(s, t).at)
    ensures CloseGate(s, f) != Running(t)
  {
    hide ProgressOk, CloseGate;
  }

  /** The list is taken once and then kept. */
  lemma TakenStep(s: State, t: nat, op: Op, s': State, f: bool)
    requires Inv(s) && Step(s, t, op) == Some(s')
    ensures TakenBy(s, s', f, Snapshots(s, t, op, f))
  {
    hide Inv, Taken, StepWork, StepShutdown, EnterClose, GroupOf, CloseGate;
    match op {
      case Work(g, k) => TakenWork(s, g, k, s', f);
      case Register(_) => TakenFrame(s, t, s', f);
      case Call(_) => TakenFrame(s, t, s', f);
      case Go => TakenGo(s, t, s', f);
    }
  }

  lemma TakenGo(s: State, t: nat, s': State, f: bool)
    requires Inv(s) && StepShutdown(s, t, At(s, t).force, At(s, t).k) == Some(s')
    ensures TakenBy(s, s', f, Snapshots(s, t, Go, f))
  {
    hide Inv, Taken, EnterClose, GroupOf, CloseGate, ThreadOk, Global, Orderly;
    if InClose(At(s, t).at) {
      TakenInClose(s, t, s', f);
    } else if At(s, t).at == AtClose {
      InvParts(s, t);
      NotInClose(s, t, f);
      TakenAtClose(s, t, s', f);
    } else {
      OutsideClose(s, t, s');
      GoMoves(s, t, s');
      hide StepShutdown;
      TakenFrame(s, t, s', f);
    }
  }

  lemma ListenersStep(s: State, t: nat, op: Op, s': State)
    requires Step(s, t, op) == Some(s')
    ensures s.listeners <= s'.listeners && (|s'.listeners| == |s.listeners| <==> !AddsListener(op))
  {
    hide StepShutdown, GroupOf;
    if op == Go {
      GoMoves(s, t, s');
    }
  }

  // ----- over runs -----

  /** What a finished closeListeners reports is the list it took. */
  ghost predicate Reported(s: State) {
    forall f, found {:trigger CloseOver(f, found) in s.log} :: CloseOver(f, found) in s.log ==> Taken(s, f) && GroupOf(s, f).found == found
  }

  lemma JoinReports(s: State, t: nat, f: bool, s': State)
    requires Join(s, t, f) == Some(s')
    ensures GroupOf(s', f) == GroupOf(s, f) && Taken(s', f)
  {}

  lemma GoJoins(s: State, t: nat, s': State)
    requires At(s, t).at == Joining && StepShutdown(s, t, At(s, t).force, At(s, t).k) == Some(s')
    ensures var f := At(s, t).force; GroupOf(s', f) == GroupOf(s, f) && Taken(s', f)
  {
    hide Join, GroupOf, Taken;
    JoinReports(s, t, At(s, t).force, s');
  }

  lemma ReportedKept(s: State, t: nat, op: Op, s': State)
    requires Inv(s) && Reported(s) && Step(s, t, op) == Some(s')
    ensures Reported(s')
  {
    hide Inv, Taken, StepShutdown, StepWork, CloseGate, GroupOf;
    forall f, found | CloseOver(f, found) in s'.log
      ensures Taken(s', f) && GroupOf(s', f).found == found
    {
      TakenStep(s, t, op, s', f);
      if op.Work? {
        WorkShape(s, op.force, op.k, s');
      } else if op == Go {
        GoMoves(s, t, s');
        if At(s, t).at == Joining {
          GoJoins(s, t, s');
        }
      }
    }
  }

  ghost predicate ListenersKept(ops: seq<Op>, j: nat, k: nat) {
    forall m: nat | j <= m < k && m < |ops| :: !AddsListener(ops[m])
  }

  lemma {:induction false} RunReports(states: seq<State>, who: seq<nat>, ops: seq<Op>, k: nat)
    requires IsRun(states, who, ops) && k < |states|
    ensures Reported(states[k])
  {
    hide Inv, Step, Taken;
    if k > 0 {
      RunReports(states, who, ops, k - 1);
      RunKeepsInv(states, who, ops, k - 1);
      ReportedKept(states[k - 1], who[k - 1], ops[k - 1], states[k]);
    }
  }

  lemma {:induction false} ListenersGrow(states: seq<State>, who: seq<nat>, ops: seq<Op>, j: nat, k: nat)
    requires IsRun(states, who, ops) && j <= k < |states|
    ensures states[j].listeners <= states[k].listeners
    ensures |states[k].listeners| == |states[j].listeners| <==> ListenersKept(ops, j, k)
    decreases k
  {
    hide Step, Init, AddsListener;
    if j < k {
      ListenersGrow(states, who, ops, j, k - 1);
      ListenersStep(states[k - 1], who[k - 1], ops[k - 1], states[k]);
    }
  }

  /** Step j takes the list for this kind of shutdown ... */
  ghost predicate TakesAt(states: seq<State>, who: seq<nat>, ops: seq<Op>, j: nat, f: bool) {
    j < |states| && j < |who| && j < |ops| && Snapshots(states[j], who[j], ops[j], f)
  }

  /** ... and then the list stays what it was at that step. */
  lemma {:induction false} TakenSince(states: seq<State>, who: seq<nat>, ops: seq<Op>, j: nat, k: nat, f: bool)
    requires IsRun(states, who, ops) && j < k < |states| && TakesAt(states, who, ops, j, f)
    ensures Taken(states[k], f) && GroupOf(states[k], f).found == states[j].listeners
    decreases k
  {
    hide Inv, Step, Taken, GroupOf, Snapshots, Init;
    RunKeepsInv(states, who, ops, k - 1);
    TakenStep(states[k - 1], who[k - 1], ops[k - 1], states[k], f);
    if j < k - 1 {
      TakenSince(states, who, ops, j, k - 1, f);
    }
  }

  lemma {:induction false} TakenBefore(states: seq<State>, who: seq<nat>, ops: seq<Op>, k: nat, f: bool) returns (j: nat)
    requires IsRun(states, who, ops) && k < |states| && Taken(states[k], f)
    ensures j < k && TakesAt(states, who, ops, j, f)
  {
    hide Inv, Step, GroupOf, Snapshots;
    if k > 0 {
      RunKeepsInv(states, who, ops, k - 1);
      TakenStep(states[k - 1], who[k - 1], ops[k - 1], states[k], f);
      hide Taken, Init;
      j := k - 1;
      if Taken(states[k - 1], f) {
        j := TakenBefore(states, who, ops, k - 1, f);
      }
    }
  }

  // ----- the promise -----

  /** The listener registered as number l has been closed and drained by a
      closeListeners that is over. */
  ghost predicate ListenerGone(s: State, l: nat) {
    exists f, found :: Gone(s, l, f, found)
  }

  ghost predicate Gone(s: State, l: nat, f: bool, found: seq<nat>) {
    && CloseOver(f, found) in s.log && Close(f, l) in s.log && Drained(f, l) in s.log
    && l < |found| && l < |s.listeners| && found[l] == s.listeners[l]
  }

  /** Every registered listener has. */
  ghost predicate AllGone(s: State) {
    forall l: nat | l < |s.listeners| :: ListenerGone(s, l)
  }

  /** A finished closeListeners took its list at step j, and no listener has been
      registered since. */
  ghost predicate NoneSince(states: seq<State>, who: seq<nat>, ops: seq<Op>, j: nat, k: nat, f: bool)
    requires k < |states|
  {
    j < k && TakesAt(states, who, ops, j, f) && CloseIsOver(states[k].log, f) && ListenersKept(ops, j, k)
  }

  lemma FoundAt(states: seq<State>, who: seq<nat>, ops: seq<Op>, k: nat, f: bool, found: seq<nat>) returns (j: nat)
    requires IsRun(states, who, ops) && k < |states| && CloseOver(f, found) in states[k].log
    ensures j < k && TakesAt(states, who, ops, j, f) && found == states[j].listeners
    ensures found <= states[k].listeners && (found == states[k].listeners <==> ListenersKept(ops, j, k))
  {
    hide Inv, Step, Taken, Snapshots, Init, AddsListener, ListenersKept;
    RunReports(states, who, ops, k);
    j := TakenBefore(states, who, ops, k, f);
    TakenSince(states, who, ops, j, k, f);
    ListenersGrow(states, who, ops, j, k);
  }

  lemma OverAtPost(s: State)
    requires Inv(s) && !s.post.Unused?
    ensures Orderly(s.log) && exists f :: CloseIsOver(s.log, f)
  {}

  lemma AllFoundGone(s: State, f: bool, found: seq<nat>)
    requires Orderly(s.log) && CloseOver(f, found) in s.log && found == s.listeners
    ensures AllGone(s)
  {
    hide Orderly;
    OverMeansDrained(s.log, f, found);
    forall l: nat | l < |s.listeners|
      ensures ListenerGone(s, l)
    {
      assert Gone(s, l, f, found);
    }
  }

  /** From the start of the posthook pass on: all registered listeners have been closed
      and drained if and only if none has been registered since some closeListeners,
      now over, took its list. */
  lemma PosthooksFindAllGone(states: seq<State>, who: seq<nat>, ops: seq<Op>, k: nat)
    requires IsRun(states, who, ops) && k < |states| && !states[k].post.Unused?
    ensures AllGone(states[k]) <==> exists j: nat, f :: NoneSince(states, who, ops, j, k, f)
  {
    hide Inv, Step, Taken, Snapshots, Init, AddsListener, ListenersKept, Orderly, IsRun, TakesAt;
    var s := states[k];
    RunKeepsInv(states, who, ops, k);
    OverAtPost(s);
    if AllGone(s) {
      var f :| CloseIsOver(s.log, f);
      var found :| CloseOver(f, found) in s.log;
      if s.listeners != [] {
        var last := |s.listeners| - 1;
        assert ListenerGone(s, last);
        f, found :| Gone(s, last, f, found);
      }
      var j := FoundAt(states, who, ops, k, f, found);
      assert NoneSince(states, who, ops, j, k, f);
    }
    if j: nat, f :| NoneSince(states, who, ops, j, k, f) {
      var found :| CloseOver(f, found) in s.log;
      RunReports(states, who, ops, k);
      TakenSince(states, who, ops, j, k, f);
      ListenersGrow(states, who, ops, j, k);
      AllFoundGone(s, f, found);
    }
  }

  // ----- a listener that comes too late -----

  datatype Run = Run(states: seq<State>, who: seq<nat>, ops: seq<Op>)

  ghost predicate Legal(r: Run) {
    r.states != [] && IsRun(r.states, r.who, r.ops)
  }

  function Last(r: Run): State
    requires r.states != []
  {
    r.states[|r.states| - 1]
  }

  function Then(r: Run, t: nat, op: Op, s: State): Run {
    Run(r.states + [s], r.who + [t], r.ops + [op])
  }

  lemma OneMore(r: Run, t: nat, op: Op, s: State)
    requires Legal(r) && Step(Last(r), t, op) == Some(s)
    ensures Legal(Then(r, t, op, s)) && Last(Then(r, t, op, s)) == s
  {
    hide Step, Init;
    var r' := Then(r, t, op, s);
    forall k: nat | k < |r'.who|
      ensures Step(r'.states[k], r'.who[k], r'.ops[k]) == Some(r'.states[k + 1])
    {
      if k < |r.who| {
        assert Step(r.states[k], r.who[k], r.ops[k]) == Some(r.states[k + 1]);
      }
    }
  }

  /** Goroutine 0 takes a step to s: equality is checked part by part. */
  lemma Goes(r: Run, op: Op, s: State) returns (r': Run)
    requires Legal(r) && Step(Last(r), 0, op).Some? && Same(Step(Last(r), 0, op).value, s)
    ensures Legal(r') && Last(r') == s
  {
    hide Step, IsRun;
    OneMore(r, 0, op, s);
    r' := Then(r, 0, op, s);
  }

  ghost predicate Same(s: State, s': State) {
    && s.mu == s'.mu && s.listeners == s'.listeners && s.prehooks == s'.prehooks && s.posthooks == s'.posthooks
    && s.closing == s'.closing && s.pre == s'.pre && s.close == s'.close && s.post == s'.post && s.notify == s'.notify
    && s.groups == s'.groups && s.threads == s'.threads && s.log == s'.log
  }

  /** Nothing registered, nothing called. */
  function Quiet(): State {
    State(None, [], [], [], false, Unused, map[], Unused, Unused, map[], map[], [])
  }

  /** Goroutine 0 in a graceful shutdown, without hooks. */
  function Shutting(s: State, at: Stage): State {
    s.(threads := map[0 := PC(at, false, 0)])
  }

  lemma PrehooksPass(r: Run) returns (r': Run)
    requires Legal(r) && Last(r) == Quiet()
    ensures Legal(r') && Last(r') == Shutting(Quiet(), AtClose).(pre := Over, log := [PreOver([])])
  {
    hide IsRun;
    var s := Quiet();
    r' := Goes(r, Call(false), Shutting(s, AtPre));
    r' := Goes(r', Go, Shutting(s, PreLock).(pre := Running(0)));
    r' := Goes(r', Go, Shutting(s, PreHooks).(pre := Running(0), mu := Some(0)));
    r' := Goes(r', Go, Shutting(s, AtClose).(pre := Over, log := [PreOver([])]));
  }

  lemma NothingToClose(r: Run, s: State) returns (r': Run)
    requires Legal(r) && Last(r) == Shutting(s, AtClose) && s.listeners == [] && s.mu == None && s.close == map[] && s.groups == map[]
    ensures Legal(r') && Last(r') == Shutting(s, Spawning).(close := map[false := Running(0)], groups := map[false := Group([], [])], closing := true, mu := Some(0))
  {
    hide IsRun;
    var u := s.(close := map[false := Running(0)]);
    r' := Goes(r, Go, Shutting(u, SetClosing));
    r' := Goes(r', Go, Shutting(u, CloseLock).(closing := true));
    r' := Goes(r', Go, Shutting(u, Spawning).(groups := map[false := Group([], [])], closing := true, mu := Some(0)));
  }

  lemma NothingToJoin(r: Run, s: State) returns (r': Run)
    requires Legal(r) && Last(r) == Shutting(s, Spawning) && s.listeners == [] && s.mu == Some(0)
    requires s.close == map[false := Running(0)] && s.groups == map[false := Group([], [])]
    ensures Legal(r') && Last(r') == Shutting(s, AtPost).(mu := None, close := map[false := Over], log := s.log + [CloseOver(false, [])])
  {
    hide IsRun;
    r' := Goes(r, Go, Shutting(s, Joining).(mu := None));
    r' := Goes(r', Go, Shutting(s, AtPost).(mu := None, close := map[false := Over], log := s.log + [CloseOver(false, [])]));
  }

  lemma Registers(r: Run, s: State, l: nat) returns (r': Run)
    requires Legal(r) && Last(r) == Shutting(s, AtPost) && s.mu == None
    ensures Legal(r') && Last(r') == Shutting(s, AtPost).(listeners := s.listeners + [l])
  {
    hide IsRun;
    var s' := Shutting(s, AtPost).(listeners := s.listeners + [l]);
    OneMore(r, 1, Register(AddListener(l)), s');
    r' := Then(r, 1, Register(AddListener(l)), s');
  }

  lemma PosthooksBegin(r: Run, s: State) returns (r': Run)
    requires Legal(r) && Last(r) == Shutting(s, AtPost) && s.post == Unused
    ensures Legal(r') && Last(r') == Shutting(s, PostLock).(post := Running(0))
  {
    hide IsRun;
    r' := Goes(r, Go, Shutting(s, PostLock).(post := Running(0)));
  }

  lemma PosthooksLock(r: Run, s: State) returns (r': Run)
    requires Legal(r) && Last(r) == Shutting(s, PostLock) && s.mu == None
    ensures Legal(r') && Last(r') == Shutting(s, PostHooks).(mu := Some(0))
  {
    hide IsRun;
    r' := Goes(r, Go, Shutting(s, PostHooks).(mu := Some(0)));
  }

  lemma PosthooksEnd(r: Run, s: State) returns (r': Run)
    requires Legal(r) && Last(r) == Shutting(s, PostHooks) && s.posthooks == []
    ensures Legal(r') && Last(r') == Shutting(s, AtNotify).(mu := None, post := Over, log := s.log + [PostOver([])])
  {
    hide IsRun;
    r' := Goes(r, Go, Shutting(s, AtNotify).(mu := None, post := Over, log := s.log + [PostOver([])]));
  }

  lemma NotifyBegins(r: Run, s: State) returns (r': Run)
    requires Legal(r) && Last(r) == Shutting(s, AtNotify) && s.notify == Unused
    ensures Legal(r') && Last(r') == Shutting(s, Notifying).(notify := Running(0))
  {
    hide IsRun;
    r' := Goes(r, Go, Shutting(s, Notifying).(notify := Running(0)));
  }

  lemma WaitCloses(r: Run, s: State) returns (r': Run)
    requires Legal(r) && Last(r) == Shutting(s, Notifying)
    ensures Legal(r') && Last(r') == Shutting(s, Idle).(notify := Over, log := s.log + [Notify])
  {
    hide IsRun;
    r' := Goes(r, Go, Shutting(s, Idle).(notify := Over, log := s.log + [Notify]));
  }

  /** A listener is registered between the end of closeListeners and the posthooks:
      the posthook pass is made and `wait` is closed, while that listener has been
      neither closed nor drained. */
  lemma LateListenerStaysOpen() returns (r: Run)
    ensures Legal(r) && Notify in Last(r).log && Last(r).post.Over?
    ensures Last(r).listeners == [7] && !ListenerGone(Last(r), 0)
  {
    hide IsRun;
    var s: State;
    r, s := LateListener();
    r := PosthooksEnd(r, s);
    s := s.(mu := None, post := Over, log := s.log + [PostOver([])]);
    r := NotifyBegins(r, s);
    s := s.(notify := Running(0));
    r := WaitCloses(r, s);
    assert Last(r).log == [PreOver([]), CloseOver(false, []), PostOver([]), Notify];
  }

  /** The posthook pass begins after a listener has been registered. */
  lemma LateListener() returns (r: Run, s: State)
    ensures Legal(r) && Last(r) == Shutting(s, PostHooks) && s.log == [PreOver([]), CloseOver(false, [])]
    ensures s.listeners == [7] && s.posthooks == [] && s.notify == Unused
  {
    hide IsRun;
    r, s := Listenerless();
    r := Registers(r, s, 7);
    s := s.(listeners := [7]);
    r := PosthooksBegin(r, s);
    s := s.(post := Running(0));
    r := PosthooksLock(r, s);
    s := s.(mu := Some(0));
  }

  /** A graceful shutdown that has found no listener. */
  lemma Listenerless() returns (r: Run, s: State)
    ensures Legal(r) && Last(r) == Shutting(s, AtPost) && s.log == [PreOver([]), CloseOver(false, [])]
    ensures s.listeners == s.posthooks == [] && s.mu == None && s.post == s.notify == Unused
  {
    hide IsRun;
    QuietIsLegal();
    r := PrehooksPass(Run([Quiet()], [], []));
    s := Quiet().(pre := Over, log := [PreOver([])]);
    r := NothingToClose(r, s);
    s := s.(close := map[false := Running(0)], groups := map[false := Group([], [])], closing := true, mu := Some(0));
    r := NothingToJoin(r, s);
    s := s.(mu := None, close := map[false := Over], log := s.log + [CloseOver(false, [])]);
  }

  lemma QuietIsLegal()
    ensures Legal(Run([Quiet()], [], []))
  {}
}
