/** What a run of shutdowns has done: the passes run the hooks that were registered, and
    a call that returns has had everything done (graceful/signal.go:168-200). */
module Passes {
  import opened Options
  import opened Sequences
  import opened Shutdown
  import opened ShutdownSteps

  // ----- what has been registered -----

  /** The prehooks of the Register steps, in order; likewise the posthooks and the
      listeners. */
  function PreRegistered(ops: seq<Op>): seq<nat> {
    if ops == [] then []
    else
      var op := ops[|ops| - 1];
      PreRegistered(ops[..|ops| - 1]) + if op.Register? && op.r.AddPreHook? then [op.r.h] else []
  }

  function PostRegistered(ops: seq<Op>): seq<nat> {
    if ops == [] then []
    else
      var op := ops[|ops| - 1];
      PostRegistered(ops[..|ops| - 1]) + if op.Register? && op.r.AddPostHook? then [op.r.h] else []
  }

  function ListenersRegistered(ops: seq<Op>): seq<nat> {
    if ops == [] then []
    else
      var op := ops[|ops| - 1];
      ListenersRegistered(ops[..|ops| - 1]) + if op.Register? && op.r.AddListener? then [op.r.l] else []
  }

  lemma RegisteredStep(s: State, t: nat, op: Op, s': State)
    requires Step(s, t, op) == Some(s')
    ensures s'.prehooks == s.prehooks + if op.Register? && op.r.AddPreHook? then [op.r.h] else []
    ensures s'.posthooks == s.posthooks + if op.Register? && op.r.AddPostHook? then [op.r.h] else []
    ensures s'.listeners == s.listeners + if op.Register? && op.r.AddListener? then [op.r.l] else []
  {
    hide StepShutdown, StepWork;
    match op {
      case Work(f, k) => WorkShape(s, f, k, s');
      case Go => GoMoves(s, t, s');
      case _ =>
    }
  }

  /** In every state the hooks and listeners are those registered so far, in order. */
  lemma {:induction false} RegisteredSoFar(states: seq<State>, who: seq<nat>, ops: seq<Op>, k: nat)
    requires IsRun(states, who, ops) && k < |states|
    ensures states[k].prehooks == PreRegistered(ops[..k])
    ensures states[k].posthooks == PostRegistered(ops[..k])
    ensures states[k].listeners == ListenersRegistered(ops[..k])
  {
    hide Step;
    if k > 0 {
      RegisteredSoFar(states, who, ops, k - 1);
      RegisteredStep(states[k - 1], who[k - 1], ops[k - 1], states[k]);
      assert ops[..k][..k - 1] == ops[..k - 1];
    }
  }

  // ----- one step, seen in the log -----

  /** Every step adds at most one event. */
  lemma LogStep(s: State, t: nat, op: Op, s': State)
    requires Step(s, t, op) == Some(s')
    ensures s'.log == s.log || (|s'.log| == |s.log| + 1 && s'.log == s.log + [s'.log[|s.log|]])
    ensures |s'.log| == |s.log| + 1 ==> match s'.log[|s.log|]
      case PreOver(hooks) => hooks == s.prehooks && op == Go && At(s, t).at == PreHooks && |s.prehooks| <= At(s, t).k
      case PostOver(hooks) => hooks == s.posthooks && op == Go && At(s, t).at == PostHooks && |s.posthooks| <= At(s, t).k
      case _ => true
  {
    hide StepShutdown, StepWork, GroupOf;
    match op {
      case Work(f, k) => WorkShape(s, f, k, s');
      case Go => GoMoves(s, t, s');
      case _ =>
    }
  }

  lemma LastInOrder(log: seq<Event>)
    requires Orderly(log) && log != []
    ensures InOrder(log[..|log| - 1], log[|log| - 1])
  {}

  /** Whether a pass is over, by the log. */
  lemma OverByLog(s: State)
    requires Inv(s)
    ensures s.pre.Over? <==> PreIsOver(s.log)
    ensures s.post.Over? <==> PostIsOver(s.log)
  {}

  lemma OverAppears(log: seq<Event>, e: Event)
    ensures PreIsOver(log + [e]) && !PreIsOver(log) ==> e.PreOver?
    ensures PostIsOver(log + [e]) && !PostIsOver(log) ==> e.PostOver?
  {
    LogGrows(log, e);
  }

  /** The step that ends the posthook pass: the hooks that have run are exactly the
      hooks that are registered then. Likewise for the prehooks. */
  lemma PassEnds(s: State, t: nat, op: Op, s': State)
    requires Inv(s) && Inv(s') && Step(s, t, op) == Some(s')
    ensures !s.pre.Over? && s'.pre.Over? ==> PreHooksRun(s'.log) == s.prehooks == s'.prehooks
    ensures !s.post.Over? && s'.post.Over? ==> PostHooksRun(s'.log) == s.posthooks == s'.posthooks
  {
    hide Inv, Step, PreHooksRun, PostHooksRun, PreIsOver, PostIsOver, CloseIsOver;
    OverByLog(s);
    OverByLog(s');
    LogStep(s, t, op, s');
    if s'.log != s.log {
      var e := s'.log[|s.log|];
      OverAppears(s.log, e);
      InvParts(s', t);
      LastInOrder(s'.log);
      assert s'.log[..|s'.log| - 1] == s.log;
      HooksGrow(s.log, e);
      RegisteredStep(s, t, op, s');
    }
  }

  /** After a pass no hook of it runs any more. */
  lemma NothingAfterPass(s: State, t: nat, op: Op, s': State)
    requires Inv(s) && Inv(s') && Step(s, t, op) == Some(s')
    ensures s.pre.Over? ==> s'.pre.Over? && PreHooksRun(s'.log) == PreHooksRun(s.log)
    ensures s.post.Over? ==> s'.post.Over? && PostHooksRun(s'.log) == PostHooksRun(s.log)
  {
    hide Inv, Step, PreHooksRun, PostHooksRun, PreIsOver, PostIsOver, CloseIsOver;
    OverByLog(s);
    OverByLog(s');
    LogStep(s, t, op, s');
    if s'.log != s.log {
      var e := s'.log[|s.log|];
      InvParts(s', t);
      LastInOrder(s'.log);
      assert s'.log[..|s'.log| - 1] == s.log;
      LogGrows(s.log, e);
    }
  }

  // ----- over runs -----

  /** When the prehook pass is over, the hooks that have run are exactly those that were
      registered before the step j that ended it, once each and in order. */
  lemma {:induction false} PrehooksRunAsRegistered(states: seq<State>, who: seq<nat>, ops: seq<Op>, k: nat) returns (j: nat)
    requires IsRun(states, who, ops) && k < |states| && states[k].pre.Over?
    ensures j < k && !states[j].pre.Over? && states[j + 1].pre.Over?
    ensures PreHooksRun(states[k].log) == states[j].prehooks == PreRegistered(ops[..j])
  {
    hide Step, Inv, PreHooksRun, PreRegistered;
    if k > 0 {
      j := k - 1;
      RunKeepsInv(states, who, ops, j);
      RunKeepsInv(states, who, ops, k);
      if states[j].pre.Over? {
        NothingAfterPass(states[j], who[j], ops[j], states[k]);
        j := PrehooksRunAsRegistered(states, who, ops, k - 1);
      } else {
        PassEnds(states[j], who[j], ops[j], states[k]);
        RegisteredSoFar(states, who, ops, j);
      }
    }
  }

  lemma {:induction false} PosthooksRunAsRegistered(states: seq<State>, who: seq<nat>, ops: seq<Op>, k: nat) returns (j: nat)
    requires IsRun(states, who, ops) && k < |states| && states[k].post.Over?
    ensures j < k && !states[j].post.Over? && states[j + 1].post.Over?
    ensures PostHooksRun(states[k].log) == states[j].posthooks == PostRegistered(ops[..j])
  {
    hide Step, Inv, PostHooksRun, PostRegistered;
    if k > 0 {
      j := k - 1;
      RunKeepsInv(states, who, ops, j);
      RunKeepsInv(states, who, ops, k);
      if states[j].post.Over? {
        NothingAfterPass(states[j], who[j], ops[j], states[k]);
        j := PosthooksRunAsRegistered(states, who, ops, k - 1);
      } else {
        PassEnds(states[j], who[j], ops[j], states[k]);
        RegisteredSoFar(states, who, ops, j);
      }
    }
  }

  // ----- when a call has returned -----

  /** Everything a shutdown with this argument stands for has been done. */
  ghost predicate AllDone(log: seq<Event>, f: bool) {
    PreIsOver(log) && CloseIsOver(log, f) && PostIsOver(log) && Notify in log
  }

  lemma AllDoneLasts(s: State, t: nat, op: Op, s': State, f: bool)
    requires Step(s, t, op) == Some(s') && AllDone(s.log, f)
    ensures AllDone(s'.log, f)
  {
    hide Step, PreIsOver, PostIsOver, CloseIsOver;
    LogStep(s, t, op, s');
    if s'.log != s.log {
      LogGrows(s.log, s'.log[|s.log|]);
    }
  }

  /** At the last gate, everything before it is over. */
  lemma AtTheEnd(s: State, t: nat)
    requires Inv(s) && PastPost(At(s, t).at)
    ensures var f := At(s, t).force; PreIsOver(s.log) && CloseIsOver(s.log, f) && PostIsOver(s.log) && (s.notify.Over? ==> Notify in s.log)
  {
    hide Orderly, PreIsOver, PostIsOver, CloseIsOver;
    assert ThreadOk(s, t);
    assert GroupOk(s, false) && GroupOk(s, true);
  }

  /** Goroutine t is still in its call, with the same argument, or all is done. */
  lemma CallGoesOn(s: State, t: nat, op: Op, s': State)
    requires Inv(s) && Step(s, t, op) == Some(s') && At(s, t).at != Idle
    ensures At(s', t).at != Idle ==> At(s', t).force == At(s, t).force
    ensures At(s', t).at == Idle ==> AllDone(s'.log, At(s, t).force)
  {
    hide Inv, StepShutdown, StepWork, AllDone, GroupOf, Adds;
    match op {
      case Work(f, k) => WorkShape(s, f, k, s');
      case Go =>
        GoMoves(s, t, s');
        if At(s', t).at == Idle {
          AtTheEnd(s, t);
          LastStep(s, t, s'.log);
        }
      case _ =>
    }
  }

  lemma LastStep(s: State, t: nat, log: seq<Event>)
    requires At(s, t).at == Notifying || (At(s, t).at == AtNotify && s.notify.Over?)
    requires log == s.log + Adds(s, t)
    requires var f := At(s, t).force; PreIsOver(s.log) && CloseIsOver(s.log, f) && PostIsOver(s.log) && (s.notify.Over? ==> Notify in s.log)
    ensures AllDone(log, At(s, t).force)
  {
    hide PreIsOver, PostIsOver, CloseIsOver;
    if At(s, t).at == Notifying {
      LogGrows(s.log, Notify);
    } else {
      assert s.log + [] == s.log;
    }
  }

  lemma OthersStay(s: State, t: nat, op: Op, s': State, u: nat)
    requires Step(s, t, op) == Some(s') && u != t
    ensures At(s', u) == At(s, u)
  {
    hide StepShutdown, StepWork;
    match op {
      case Work(f, k) => WorkShape(s, f, k, s');
      case Go => GoMoves(s, t, s');
      case _ =>
    }
  }

  lemma CallStarts(s: State, t: nat, f: bool, s': State)
    requires Step(s, t, Call(f)) == Some(s')
    ensures At(s', t).at != Idle && At(s', t).force == f
  {}

  /** When a shutdown called with f has returned, the prehook pass is over, a
      closeListeners of this kind is over, the posthook pass is over, and `wait` has been
      closed. */
  lemma {:induction false} CallReturns(states: seq<State>, who: seq<nat>, ops: seq<Op>, j: nat, k: nat, f: bool)
    requires IsRun(states, who, ops) && j < k < |states| && ops[j] == Call(f)
    ensures At(states[k], who[j]).at == Idle ==>
              var log := states[k].log;
              && (exists hooks :: PreOver(hooks) in log) && (exists found :: CloseOver(f, found) in log)
              && (exists hooks :: PostOver(hooks) in log) && Notify in log
    ensures (At(states[k], who[j]).at != Idle && At(states[k], who[j]).force == f) || AllDone(states[k].log, f)
    decreases k
  {
    hide Step, Inv, AllDone, Init;
    var s, t, op, s' := states[k - 1], who[k - 1], ops[k - 1], states[k];
    if j == k - 1 {
      CallStarts(s, t, f, s');
    } else {
      CallReturns(states, who, ops, j, k - 1, f);
      RunKeepsInv(states, who, ops, k - 1);
      if AllDone(s.log, f) {
        AllDoneLasts(s, t, op, s', f);
      } else if t == who[j] {
        CallGoesOn(s, t, op, s');
      } else {
        OthersStay(s, t, op, s', who[j]);
      }
    }
    AllDoneMeans(s'.log, f);
  }

  lemma AllDoneMeans(log: seq<Event>, f: bool)
    ensures AllDone(log, f) ==>
              && (exists hooks :: PreOver(hooks) in log) && (exists found :: CloseOver(f, found) in log)
              && (exists hooks :: PostOver(hooks) in log) && Notify in log
  {}
}
