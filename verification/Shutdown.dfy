/** Shutting down (graceful/signal.go:168-223): any number of concurrent graceful and
    forced shutdown calls, hooks and listeners being registered meanwhile, and one
    goroutine per listener to close and drain it. */
module Shutdown {
  import opened Sequences
  import opened Options

  /** sync.Once: not called yet, being run by a goroutine, or over. */
  datatype Once = Unused | Running(t: nat) | Over

  /** What can be observed, in order. The Over events carry the hooks or listeners
      that were registered when the pass was made. */
  datatype Event =
    | Pre(h: nat)
    | PreOver(hooks: seq<nat>)
    | Close(force: bool, k: nat)
    | Drained(force: bool, k: nat)
    | CloseOver(force: bool, found: seq<nat>)
    | Post(h: nat)
    | PostOver(hooks: seq<nat>)
    | Notify

  /** The goroutine of one listener, inside closeListeners. */
  datatype Phase = Closing | Draining | Finished

  datatype Stage =
    | Idle
    | AtPre | PreLock | PreHooks
    | AtClose | SetClosing | CloseLock | Spawning | Joining
    | AtPost | PostLock | PostHooks
    | AtNotify | Notifying

  /** Where a goroutine is in `shutdown`, its argument, and its loop counter. */
  datatype PC = PC(at: Stage, force: bool, k: nat)

  /** One run of closeListeners: the listeners it found, and its goroutines. */
  datatype Group = Group(found: seq<nat>, phases: seq<Phase>)

  datatype State = State(
    mu: Option<nat>,
    listeners: seq<nat>,
    prehooks: seq<nat>,
    posthooks: seq<nat>,
    closing: bool,
    pre: Once,
    close: map<bool, Once>,   // closeOnce and forceOnce, by force
    post: Once,
    notify: Once,
    groups: map<bool, Group>,
    threads: map<nat, PC>,
    log: seq<Event>)

  function At(s: State, t: nat): PC {
    if t in s.threads then s.threads[t] else PC(Idle, false, 0)
  }

  function Goto(s: State, t: nat, at: Stage, force: bool, k: nat): State {
    s.(threads := s.threads[t := PC(at, force, k)])
  }

  function CloseGate(s: State, f: bool): Once {
    if f in s.close then s.close[f] else Unused
  }

  function GroupOf(s: State, f: bool): Group {
    if f in s.groups then s.groups[f] else Group([], [])
  }

  function Logged(s: State, e: Event): State {
    s.(log := s.log + [e])
  }

  /** Registrations by other parts of the program, each under the mutex. */
  datatype Registration = AddListener(l: nat) | AddPreHook(h: nat) | AddPostHook(h: nat)

  datatype Op = Call(force: bool) | Register(r: Registration) | Go | Work(force: bool, k: nat)

  /** One step of goroutine t; None if it must wait. Work is a step of a goroutine
      that closeListeners started. */
  function Step(s: State, t: nat, op: Op): Option<State> {
    match op
    case Work(f, k) => StepWork(s, f, k)
    case Register(r) => if s.mu == None && At(s, t).at == Idle then Some(Registered(s, r)) else None
    case Call(f) => if At(s, t).at == Idle then Some(Goto(s, t, AtPre, f, 0)) else None
    case Go => StepShutdown(s, t, At(s, t).force, At(s, t).k)
  }

  function Registered(s: State, r: Registration): State {
    match r
    case AddListener(l) => s.(listeners := s.listeners + [l])
    case AddPreHook(h) => s.(prehooks := s.prehooks + [h])
    case AddPostHook(h) => s.(posthooks := s.posthooks + [h])
  }

  /** signal.go:213-221: close the listener, drain it, be done. */
  function StepWork(s: State, f: bool, k: nat): Option<State> {
    var g := GroupOf(s, f);
    if k >= |g.phases| then None
    else match g.phases[k]
      case Closing => Some(Logged(s, Close(f, k)).(groups := s.groups[f := g.(phases := g.phases[k := Draining])]))
      case Draining => Some(Logged(s, Drained(f, k)).(groups := s.groups[f := g.(phases := g.phases[k := Finished])]))
      case Finished => None
  }

  function StepShutdown(s: State, t: nat, f: bool, k: nat): Option<State> {
    match At(s, t).at
    case Idle => None
    case AtPre => EnterPre(s, t, f)
    case PreLock => LockForPre(s, t, f)
    case PreHooks => RunPreHook(s, t, f, k)
    case AtClose => EnterClose(s, t, f)
    case SetClosing => SetClosingFlag(s, t, f)
    case CloseLock => LockForClose(s, t, f)
    case Spawning => Spawn(s, t, f, k)
    case Joining => Join(s, t, f)
    case AtPost => EnterPost(s, t, f)
    case PostLock => LockForPost(s, t, f)
    case PostHooks => RunPostHook(s, t, f, k)
    case AtNotify => EnterNotify(s, t, f)
    case Notifying => CloseWait(s, t, f)
  }

  // preOnce, lines 171-177

  function EnterPre(s: State, t: nat, f: bool): Option<State> {
    if s.pre.Unused? then Some(Goto(s, t, PreLock, f, 0).(pre := Running(t)))
    else if s.pre.Over? then Some(Goto(s, t, AtClose, f, 0)) else None
  }

  function LockForPre(s: State, t: nat, f: bool): Option<State> {
    if s.mu == None then Some(Goto(s, t, PreHooks, f, 0).(mu := Some(t))) else None
  }

  function RunPreHook(s: State, t: nat, f: bool, k: nat): Option<State> {
    if k < |s.prehooks| then Some(Logged(Goto(s, t, PreHooks, f, k + 1), Pre(s.prehooks[k])))
    else Some(Logged(Goto(s, t, AtClose, f, 0).(mu := None, pre := Over), PreOver(s.prehooks)))
  }

  // forceOnce or closeOnce, lines 179-187, around closeListeners, lines 202-223

  function EnterClose(s: State, t: nat, f: bool): Option<State> {
    if CloseGate(s, f).Unused? then Some(Goto(s, t, SetClosing, f, 0).(close := s.close[f := Running(t)]))
    else if CloseGate(s, f).Over? then Some(Goto(s, t, AtPost, f, 0)) else None
  }

  function SetClosingFlag(s: State, t: nat, f: bool): Option<State> {
    Some(Goto(s, t, CloseLock, f, 0).(closing := true))
  }

  function LockForClose(s: State, t: nat, f: bool): Option<State> {
    if s.mu == None then Some(Goto(s, t, Spawning, f, 0).(mu := Some(t), groups := s.groups[f := Group(s.listeners, [])])) else None
  }

  function Spawn(s: State, t: nat, f: bool, k: nat): Option<State> {
    var g := GroupOf(s, f);
    if k < |s.listeners| then Some(Goto(s, t, Spawning, f, k + 1).(groups := s.groups[f := g.(phases := g.phases + [Closing])]))
    else Some(Goto(s, t, Joining, f, 0).(mu := None))
  }

  function Join(s: State, t: nat, f: bool): Option<State> {
    var g := GroupOf(s, f);
    if AllFinished(g) then Some(Logged(Goto(s, t, AtPost, f, 0).(close := s.close[f := Over]), CloseOver(f, g.found))) else None
  }

  // postOnce, lines 189-195

  function EnterPost(s: State, t: nat, f: bool): Option<State> {
    if s.post.Unused? then Some(Goto(s, t, PostLock, f, 0).(post := Running(t)))
    else if s.post.Over? then Some(Goto(s, t, AtNotify, f, 0)) else None
  }

  function LockForPost(s: State, t: nat, f: bool): Option<State> {
    if s.mu == None then Some(Goto(s, t, PostHooks, f, 0).(mu := Some(t))) else None
  }

  function RunPostHook(s: State, t: nat, f: bool, k: nat): Option<State> {
    if k < |s.posthooks| then Some(Logged(Goto(s, t, PostHooks, f, k + 1), Post(s.posthooks[k])))
    else Some(Logged(Goto(s, t, AtNotify, f, 0).(mu := None, post := Over), PostOver(s.posthooks)))
  }

  // notifyOnce, lines 197-199

  function EnterNotify(s: State, t: nat, f: bool): Option<State> {
    if s.notify.Unused? then Some(Goto(s, t, Notifying, f, 0).(notify := Running(t)))
    else if s.notify.Over? then Some(Goto(s, t, Idle, f, 0)) else None
  }

  function CloseWait(s: State, t: nat, f: bool): Option<State> {
    Some(Logged(Goto(s, t, Idle, f, 0).(notify := Over), Notify))
  }

  predicate AllFinished(g: Group) {
    forall k: nat | k < |g.phases| :: g.phases[k].Finished?
  }

  ghost predicate Init(s: State) {
    && s.listeners == s.prehooks == s.posthooks == []
    && s.mu == None && !s.closing && s.pre == Unused && s.post == Unused && s.notify == Unused
    && s.close == map[] && s.groups == map[] && s.threads == map[] && s.log == []
  }

  // ----- what an orderly log is -----

  function PreHooksRun(log: seq<Event>): seq<nat> {
    if log == [] then []
    else PreHooksRun(log[..|log| - 1]) + if log[|log| - 1].Pre? then [log[|log| - 1].h] else []
  }

  function PostHooksRun(log: seq<Event>): seq<nat> {
    if log == [] then []
    else PostHooksRun(log[..|log| - 1]) + if log[|log| - 1].Post? then [log[|log| - 1].h] else []
  }

  ghost predicate PreIsOver(log: seq<Event>) { exists hooks :: PreOver(hooks) in log }
  ghost predicate PostIsOver(log: seq<Event>) { exists hooks :: PostOver(hooks) in log }
  ghost predicate CloseIsOver(log: seq<Event>, f: bool) { exists found :: CloseOver(f, found) in log }

  /** An event may only come after these:
      - a prehook: before the prehook pass is over, and before any listener is closed;
      - the end of a pass: once, when exactly the hooks registered have run, in the
        order of their registration (for the posthooks: after some closeListeners);
      - closing a listener: after the prehook pass;
      - the end of closeListeners: once, when every listener it found has drained;
      - a posthook: after some closeListeners is over, before the pass is over;
      - the close of `wait`: once, after the posthook pass. */
  ghost predicate InOrder(before: seq<Event>, e: Event) {
    match e
    case Pre(_) => !PreIsOver(before) && forall f, k :: Close(f, k) !in before
    case PreOver(hooks) => !PreIsOver(before) && PreHooksRun(before) == hooks
    case Close(_, _) => PreIsOver(before)
    case Drained(f, k) => Close(f, k) in before
    case CloseOver(f, found) => !CloseIsOver(before, f) && forall k: nat | k < |found| :: Drained(f, k) in before
    case Post(_) => !PostIsOver(before) && exists f :: CloseIsOver(before, f)
    case PostOver(hooks) => !PostIsOver(before) && PostHooksRun(before) == hooks && exists f :: CloseIsOver(before, f)
    case Notify => PostIsOver(before) && Notify !in before
  }

  ghost predicate Orderly(log: seq<Event>) {
    forall p: nat | p < |log| :: InOrder(log[..p], log[p])
  }

  lemma OrderlyOneMore(log: seq<Event>, e: Event)
    requires Orderly(log) && InOrder(log, e)
    ensures Orderly(log + [e])
  {
    hide InOrder;
    var log' := log + [e];
    forall p: nat | p < |log'|
      ensures InOrder(log'[..p], log'[p])
    {
      if p < |log| {
        assert log'[..p] == log[..p];
        assert InOrder(log[..p], log[p]);
      } else {
        assert log'[..p] == log;
      }
    }
  }

  lemma HooksGrow(log: seq<Event>, e: Event)
    ensures PreHooksRun(log + [e]) == PreHooksRun(log) + if e.Pre? then [e.h] else []
    ensures PostHooksRun(log + [e]) == PostHooksRun(log) + if e.Post? then [e.h] else []
  {
    assert (log + [e])[..|log|] == log;
  }

  lemma LogGrows(log: seq<Event>, e: Event)
    ensures PreHooksRun(log + [e]) == PreHooksRun(log) + if e.Pre? then [e.h] else []
    ensures PostHooksRun(log + [e]) == PostHooksRun(log) + if e.Post? then [e.h] else []
    ensures PreIsOver(log + [e]) <==> PreIsOver(log) || e.PreOver?
    ensures PostIsOver(log + [e]) <==> PostIsOver(log) || e.PostOver?
    ensures forall f :: CloseIsOver(log + [e], f) <==> CloseIsOver(log, f) || (e.CloseOver? && e.force == f)
    ensures forall x :: x in log + [e] <==> x in log || x == e
  {
    assert (log + [e])[..|log|] == log;
    if e.PreOver? {
      assert PreOver(e.hooks) in log + [e];
    }
    if e.PostOver? {
      assert PostOver(e.hooks) in log + [e];
    }
    if e.CloseOver? {
      assert CloseOver(e.force, e.found) in log + [e];
    }
  }

  // ----- the invariant -----

  predicate InPre(at: Stage) { at == PreLock || at == PreHooks }
  predicate InClose(at: Stage) { at == SetClosing || at == CloseLock || at == Spawning || at == Joining }
  predicate InPost(at: Stage) { at == PostLock || at == PostHooks }
  predicate HoldsMu(at: Stage) { at == PreHooks || at == Spawning || at == PostHooks }
  predicate PastClose(at: Stage) { at == AtPost || InPost(at) || PastPost(at) }
  predicate PastPre(at: Stage) { at == AtClose || InClose(at) || PastClose(at) }
  predicate PastPost(at: Stage) { at == AtNotify || at == Notifying }

  /** A goroutine is where the mutex and the gates say it is, and has come past the
      gates behind it ... */
  ghost predicate GatesOk(s: State, t: nat, at: Stage, f: bool) {
    && (s.mu == Some(t) <==> HoldsMu(at))
    && (s.pre == Running(t) <==> InPre(at))
    && (CloseGate(s, f) == Running(t) <==> InClose(at)) && CloseGate(s, !f) != Running(t)
    && (s.post == Running(t) <==> InPost(at))
    && (s.notify == Running(t) <==> at == Notifying)
    && (PastPre(at) ==> s.pre.Over?)
    && (PastClose(at) ==> CloseGate(s, f).Over?)
    && (PastPost(at) ==> s.post.Over?)
  }

  /** ... and has done so much of its pass. */
  ghost predicate ProgressOk(s: State, at: Stage, f: bool, k: nat) {
    && (InPre(at) ==> k <= |s.prehooks| && PreHooksRun(s.log) == s.prehooks[..k])
    && (InPost(at) ==> k <= |s.posthooks| && PostHooksRun(s.log) == s.posthooks[..k])
    && (at == SetClosing || at == CloseLock ==> GroupOf(s, f).phases == [])
    && (at == Spawning ==> k <= |s.listeners| && GroupOf(s, f).found == s.listeners && |GroupOf(s, f).phases| == k)
    && (at == Joining ==> |GroupOf(s, f).phases| == |GroupOf(s, f).found|)
    && (InClose(at) && at != SetClosing ==> s.closing)
    && (at == PreLock || at == PostLock ==> k == 0)
  }

  ghost predicate ThreadOk(s: State, t: nat) {
    GatesOk(s, t, At(s, t).at, At(s, t).force) && ProgressOk(s, At(s, t).at, At(s, t).force, At(s, t).k)
  }

  /** The gates agree with the log, and so do the listeners' goroutines. */
  ghost predicate Global(s: State) {
    && (s.pre.Over? <==> PreIsOver(s.log))
    && (s.pre.Unused? ==> PreHooksRun(s.log) == [])
    && (!s.pre.Over? ==> forall f, k :: Close(f, k) !in s.log)
    && (s.post.Over? <==> PostIsOver(s.log))
    && (s.post.Unused? ==> PostHooksRun(s.log) == [])
    && (!s.post.Unused? ==> exists f :: CloseIsOver(s.log, f))
    && (s.notify.Over? <==> Notify in s.log)
    && (s.notify != Unused ==> s.post.Over?)
    && GroupOk(s, false) && GroupOk(s, true)
  }

  ghost predicate GroupOk(s: State, f: bool) {
    var g := GroupOf(s, f);
    && (CloseGate(s, f).Over? <==> CloseIsOver(s.log, f))
    && (CloseGate(s, f).Unused? ==> g.phases == [])
    && (g.phases != [] ==> s.pre.Over? && s.closing)
    && |g.phases| <= |g.found|
    && forall k: nat | k < |g.phases| :: PhaseOk(s.log, f, k, g.phases[k])
  }

  ghost predicate PhaseOk(log: seq<Event>, f: bool, k: nat, phase: Phase) {
    && (phase != Closing ==> Close(f, k) in log)
    && (phase == Finished ==> Drained(f, k) in log)
  }

  ghost predicate Inv(s: State) {
    Orderly(s.log) && Global(s) && forall t :: ThreadOk(s, t)
  }

  lemma InvInitially(s: State)
    requires Init(s)
    ensures Inv(s)
  {}

  lemma PhasesLast(log: seq<Event>, e: Event, f: bool, g: Group)
    requires forall k: nat | k < |g.phases| :: PhaseOk(log, f, k, g.phases[k])
    ensures forall k: nat | k < |g.phases| :: PhaseOk(log + [e], f, k, g.phases[k])
  {
    forall k: nat | k < |g.phases|
      ensures PhaseOk(log + [e], f, k, g.phases[k])
    {
      assert PhaseOk(log, f, k, g.phases[k]);
    }
  }

  // ----- steps without an event -----

  /** What another goroutine u relies on stays as it was. */
  ghost predicate FrameFor(s: State, s': State, u: nat) {
    var at := At(s, u).at;
    && At(s', u) == At(s, u)
    && (s'.mu == Some(u) <==> s.mu == Some(u))
    && (s'.pre == Running(u) <==> s.pre == Running(u)) && (s.pre.Over? ==> s'.pre.Over?)
    && (s'.post == Running(u) <==> s.post == Running(u)) && (s.post.Over? ==> s'.post.Over?)
    && (s'.notify == Running(u) <==> s.notify == Running(u))
    && (s.closing ==> s'.closing)
    && CloseFrame(s, s', u, false) && CloseFrame(s, s', u, true)
    && (InPre(at) ==> PreHooksRun(s'.log) == PreHooksRun(s.log) && s.prehooks <= s'.prehooks)
    && (InPost(at) ==> PostHooksRun(s'.log) == PostHooksRun(s.log) && s.posthooks <= s'.posthooks)
    && (at == Spawning ==> s'.listeners == s.listeners)
  }

  ghost predicate CloseFrame(s: State, s': State, u: nat, f: bool) {
    && (CloseGate(s', f) == Running(u) <==> CloseGate(s, f) == Running(u))
    && (CloseGate(s, f).Over? ==> CloseGate(s', f).Over?)
    && (CloseGate(s, f) == Running(u) ==> GroupOf(s', f).found == GroupOf(s, f).found && |GroupOf(s', f).phases| == |GroupOf(s, f).phases|)
  }

  lemma FrameKeeps(s: State, s': State, u: nat)
    requires ThreadOk(s, u) && FrameFor(s, s', u)
    ensures ThreadOk(s', u)
  {
    hide PreHooksRun, PostHooksRun, CloseGate, GroupOf;
  }

  /** Steps outside closeListeners leave its gates and groups alone. */
  lemma CloseUntouched(s: State, s': State, u: nat)
    requires s'.close == s.close && s'.groups == s.groups
    ensures forall f :: CloseGate(s', f) == CloseGate(s, f) && GroupOf(s', f) == GroupOf(s, f)
    ensures CloseFrame(s, s', u, false) && CloseFrame(s, s', u, true)
  {}

  lemma GroupsLogged(s: State, s': State, e: Event, f: bool)
    requires GroupOk(s, f) && s'.close == s.close && s'.groups == s.groups && s'.log == s.log + [e] && !e.CloseOver?
    requires (s.pre.Over? ==> s'.pre.Over?) && (s.closing ==> s'.closing)
    ensures GroupOk(s', f)
  {
    hide PreHooksRun, PostHooksRun, PreIsOver, PostIsOver, CloseIsOver, PhaseOk;
    LogGrows(s.log, e);
    PhasesLast(s.log, e, f, GroupOf(s, f));
  }

  lemma InvParts(s: State, t: nat)
    requires Inv(s)
    ensures Orderly(s.log) && Global(s) && ThreadOk(s, t)
  {}

  lemma InvFrom(s: State, t: nat, s': State)
    requires Inv(s) && Orderly(s'.log) && Global(s') && ThreadOk(s', t)
    requires forall u: nat | u != t :: FrameFor(s, s', u)
    ensures Inv(s')
  {
    hide Orderly, Global, FrameFor, ThreadOk;
    forall u
      ensures ThreadOk(s', u)
    {
      InvParts(s, u);
      if u != t {
        assert FrameFor(s, s', u);
        FrameKeeps(s, s', u);
      }
    }
  }

  lemma RegisterKeeps(s: State, r: Registration)
    requires Inv(s) && s.mu == None
    ensures Inv(Registered(s, r))
  {
    hide Orderly, PreHooksRun, PostHooksRun, PreIsOver, PostIsOver, CloseIsOver, GroupOk, Inv;
    var s' := Registered(s, r);
    InvParts(s, 0);
    GroupUntouched(s, s', false);
    GroupUntouched(s, s', true);
    forall u: nat
      ensures FrameFor(s, s', u)
    {
      InvParts(s, u);
      RegisterFrame(s, r, u);
    }
    FrameKeeps(s, s', 0);
    InvFrom(s, 0, s');
  }

  lemma RegisterFrame(s: State, r: Registration, u: nat)
    requires ThreadOk(s, u) && s.mu == None
    ensures FrameFor(s, Registered(s, r), u)
  {
    hide PreHooksRun, PostHooksRun, CloseGate, GroupOf, CloseFrame, ProgressOk;
    CloseUntouched(s, Registered(s, r), u);
  }

  lemma GroupUntouched(s: State, s': State, f: bool)
    requires GroupOk(s, f) && s'.close == s.close && s'.groups == s.groups && s'.log == s.log
    requires (s.pre.Over? ==> s'.pre.Over?) && (s.closing ==> s'.closing)
    ensures GroupOk(s', f)
  {
    hide CloseIsOver, PhaseOk;
  }

  // ----- silent steps: gates, locks, starting goroutines -----

  lemma AtPreGlobal(s: State, t: nat, s': State)
    requires Global(s) && At(s, t).at == AtPre && EnterPre(s, t, At(s, t).force) == Some(s')
    ensures Global(s') && s'.log == s.log
  {
    hide PreHooksRun, PostHooksRun, PreIsOver, PostIsOver, CloseIsOver, GroupOk, CloseGate, GroupOf;
    GroupUntouched(s, s', false);
    GroupUntouched(s, s', true);
  }

  lemma AtPreSelf(s: State, t: nat, s': State)
    requires Global(s) && ThreadOk(s, t) && At(s, t).at == AtPre && EnterPre(s, t, At(s, t).force) == Some(s')
    ensures ThreadOk(s', t)
  {
    hide PreHooksRun, PostHooksRun, PreIsOver, PostIsOver, CloseIsOver, GroupOk, CloseGate, GroupOf;
    CloseUntouched(s, s', t);
  }

  lemma FromAtPre(s: State, t: nat, s': State)
    requires Inv(s) && At(s, t).at == AtPre && EnterPre(s, t, At(s, t).force) == Some(s')
    ensures Inv(s')
  {
    hide Inv, Orderly, Global, PreHooksRun, PostHooksRun, CloseGate, GroupOf, CloseFrame, ProgressOk;
    InvParts(s, t);
    AtPreGlobal(s, t, s');
    AtPreSelf(s, t, s');
    forall u: nat | u != t
      ensures FrameFor(s, s', u)
    {
      InvParts(s, u);
      CloseUntouched(s, s', u);
    }
    InvFrom(s, t, s');
  }

  lemma FromPreLock(s: State, t: nat, s': State)
    requires Inv(s) && At(s, t).at == PreLock && LockForPre(s, t, At(s, t).force) == Some(s')
    ensures Inv(s')
  {
    hide Inv, Orderly, PreHooksRun, PostHooksRun, PreIsOver, PostIsOver, CloseIsOver, GroupOk, CloseGate, GroupOf, CloseFrame;
    InvParts(s, t);
    CloseUntouched(s, s', t);
    GroupUntouched(s, s', false);
    GroupUntouched(s, s', true);
    forall u: nat | u != t
      ensures FrameFor(s, s', u)
    {
      InvParts(s, u);
      CloseUntouched(s, s', u);
    }
    InvFrom(s, t, s');
  }

  lemma EnterCloseGates(s: State, t: nat, s': State, f: bool)
    requires GroupOk(s, f) && At(s, t).at == AtClose && EnterClose(s, t, At(s, t).force) == Some(s')
    ensures GroupOk(s', f) && GroupOf(s', f) == GroupOf(s, f)
    ensures forall u: nat | u != t :: CloseFrame(s, s', u, f)
  {
    hide PreHooksRun, PostHooksRun, CloseIsOver, PhaseOk;
  }

  lemma FromAtClose(s: State, t: nat, s': State)
    requires Inv(s) && At(s, t).at == AtClose && EnterClose(s, t, At(s, t).force) == Some(s')
    ensures Inv(s')
  {
    hide Inv, Orderly, PreHooksRun, PostHooksRun, PreIsOver, PostIsOver, CloseIsOver, GroupOk, CloseFrame, GroupOf;
    InvParts(s, t);
    EnterCloseGates(s, t, s', false);
    EnterCloseGates(s, t, s', true);
    forall u: nat | u != t
      ensures FrameFor(s, s', u)
    {
      InvParts(s, u);
    }
    EnterCloseSelf(s, t, s');
    InvFrom(s, t, s');
  }

  lemma EnterCloseSelf(s: State, t: nat, s': State)
    requires Global(s) && ThreadOk(s, t) && At(s, t).at == AtClose && EnterClose(s, t, At(s, t).force) == Some(s')
    ensures ThreadOk(s', t)
  {
    hide PreHooksRun, PostHooksRun, PreIsOver, PostIsOver, CloseIsOver, PhaseOk, CloseFrame;
  }

  lemma FromSetClosing(s: State, t: nat, s': State)
    requires Inv(s) && At(s, t).at == SetClosing && SetClosingFlag(s, t, At(s, t).force) == Some(s')
    ensures Inv(s')
  {
    hide Inv, Orderly, PreHooksRun, PostHooksRun, PreIsOver, PostIsOver, CloseIsOver, GroupOk, CloseGate, GroupOf, CloseFrame;
    InvParts(s, t);
    CloseUntouched(s, s', t);
    GroupUntouched(s, s', false);
    GroupUntouched(s, s', true);
    forall u: nat | u != t
      ensures FrameFor(s, s', u)
    {
      InvParts(s, u);
      CloseUntouched(s, s', u);
    }
    InvFrom(s, t, s');
  }

  lemma FromCloseLock(s: State, t: nat, s': State)
    requires Inv(s) && At(s, t).at == CloseLock && LockForClose(s, t, At(s, t).force) == Some(s')
    ensures Inv(s')
  {
    hide Inv, Orderly, PreHooksRun, PostHooksRun, PreIsOver, PostIsOver, CloseIsOver, PhaseOk;
    InvParts(s, t);
    forall u: nat | u != t
      ensures FrameFor(s, s', u)
    {
      InvParts(s, u);
    }
    InvFrom(s, t, s');
  }

  lemma SpawningSelf(s: State, t: nat, s': State)
    requires Global(s) && ThreadOk(s, t) && At(s, t).at == Spawning && Spawn(s, t, At(s, t).force, At(s, t).k) == Some(s')
    ensures ThreadOk(s', t) && s'.log == s.log
  {
    hide PreHooksRun, PostHooksRun, PreIsOver, PostIsOver, CloseIsOver, PhaseOk;
  }

  lemma SpawningGlobal(s: State, t: nat, s': State)
    requires Global(s) && ThreadOk(s, t) && At(s, t).at == Spawning && Spawn(s, t, At(s, t).force, At(s, t).k) == Some(s')
    ensures Global(s')
  {
    hide PreHooksRun, PostHooksRun, PreIsOver, PostIsOver, CloseIsOver, GroupOk;
    SpawningGroup(s, t, s', false);
    SpawningGroup(s, t, s', true);
  }

  lemma SpawningGroup(s: State, t: nat, s': State, f: bool)
    requires GroupOk(s, f) && ThreadOk(s, t) && At(s, t).at == Spawning && Spawn(s, t, At(s, t).force, At(s, t).k) == Some(s')
    ensures GroupOk(s', f)
  {
    hide PreHooksRun, PostHooksRun, PreIsOver, PostIsOver, CloseIsOver, PhaseOk;
    var g, g' := GroupOf(s, f), GroupOf(s', f);
    forall k: nat | k < |g'.phases|
      ensures PhaseOk(s'.log, f, k, g'.phases[k])
    {
      if k < |g.phases| {
        assert PhaseOk(s.log, f, k, g.phases[k]);
      } else {
        NewPhaseOk(s.log, f, k);
      }
    }
  }

  lemma NewPhaseOk(log: seq<Event>, f: bool, k: nat)
    ensures PhaseOk(log, f, k, Closing)
  {}

  lemma SpawningFrame(s: State, t: nat, s': State, u: nat)
    requires ThreadOk(s, t) && ThreadOk(s, u) && u != t && At(s, t).at == Spawning && Spawn(s, t, At(s, t).force, At(s, t).k) == Some(s')
    ensures FrameFor(s, s', u)
  {
    hide PreHooksRun, PostHooksRun, ProgressOk, CloseFrame;
    SpawningGates(s, t, s', u, false);
    SpawningGates(s, t, s', u, true);
  }

  lemma SpawningGates(s: State, t: nat, s': State, u: nat, f: bool)
    requires GatesOk(s, t, Spawning, At(s, t).force)
    requires u != t && At(s, t).at == Spawning && Spawn(s, t, At(s, t).force, At(s, t).k) == Some(s')
    ensures CloseFrame(s, s', u, f)
  {
    hide PreHooksRun, PostHooksRun;
  }

  lemma FromSpawning(s: State, t: nat, s': State)
    requires Inv(s) && At(s, t).at == Spawning && Spawn(s, t, At(s, t).force, At(s, t).k) == Some(s')
    ensures Inv(s')
  {
    hide Orderly, Inv, Global, ThreadOk, FrameFor, InOrder, Spawn;
    InvParts(s, t);
    SpawningSelf(s, t, s');
    SpawningGlobal(s, t, s');
    forall u: nat | u != t
      ensures FrameFor(s, s', u)
    {
      InvParts(s, u);
      SpawningFrame(s, t, s', u);
    }
    InvFrom(s, t, s');
  }

  lemma FromAtPost(s: State, t: nat, s': State)
    requires Inv(s) && At(s, t).at == AtPost && EnterPost(s, t, At(s, t).force) == Some(s')
    ensures Inv(s')
  {
    hide Inv, Orderly, PreHooksRun, PostHooksRun, PreIsOver, PostIsOver, CloseIsOver, GroupOk, CloseGate, GroupOf, CloseFrame;
    InvParts(s, t);
    OverIsLogged(s, At(s, t).force);
    CloseUntouched(s, s', t);
    GroupUntouched(s, s', false);
    GroupUntouched(s, s', true);
    forall u: nat | u != t
      ensures FrameFor(s, s', u)
    {
      InvParts(s, u);
      CloseUntouched(s, s', u);
    }
    InvFrom(s, t, s');
  }

  lemma OverIsLogged(s: State, f: bool)
    requires Global(s)
    ensures CloseGate(s, f).Over? <==> CloseIsOver(s.log, f)
  {
    assert GroupOk(s, f);
  }

  lemma FromPostLock(s: State, t: nat, s': State)
    requires Inv(s) && At(s, t).at == PostLock && LockForPost(s, t, At(s, t).force) == Some(s')
    ensures Inv(s')
  {
    hide Inv, Orderly, PreHooksRun, PostHooksRun, PreIsOver, PostIsOver, CloseIsOver, GroupOk, CloseGate, GroupOf, CloseFrame;
    InvParts(s, t);
    CloseUntouched(s, s', t);
    GroupUntouched(s, s', false);
    GroupUntouched(s, s', true);
    forall u: nat | u != t
      ensures FrameFor(s, s', u)
    {
      InvParts(s, u);
      CloseUntouched(s, s', u);
    }
    InvFrom(s, t, s');
  }

  lemma FromAtNotify(s: State, t: nat, s': State)
    requires Inv(s) && At(s, t).at == AtNotify && EnterNotify(s, t, At(s, t).force) == Some(s')
    ensures Inv(s')
  {
    hide Inv, Orderly, PreHooksRun, PostHooksRun, PreIsOver, PostIsOver, CloseIsOver, GroupOk, CloseGate, GroupOf, CloseFrame;
    InvParts(s, t);
    CloseUntouched(s, s', t);
    GroupUntouched(s, s', false);
    GroupUntouched(s, s', true);
    forall u: nat | u != t
      ensures FrameFor(s, s', u)
    {
      InvParts(s, u);
      CloseUntouched(s, s', u);
    }
    InvFrom(s, t, s');
  }

  // ----- steps that can be observed -----

  lemma PreHooksProgress(s: State, t: nat)
    requires ThreadOk(s, t) && At(s, t).at == PreHooks
    ensures At(s, t).k <= |s.prehooks| && PreHooksRun(s.log) == s.prehooks[..At(s, t).k]
  {}

  lemma PreHooksInOrder(s: State, t: nat, s': State)
    requires Global(s) && ThreadOk(s, t) && At(s, t).at == PreHooks && RunPreHook(s, t, At(s, t).force, At(s, t).k) == Some(s')
    ensures |s'.log| == |s.log| + 1 && s'.log == s.log + [s'.log[|s.log|]] && InOrder(s.log, s'.log[|s.log|])
  {
    hide PreHooksRun, PostHooksRun, PreIsOver, PostIsOver, CloseIsOver, GroupOk, CloseGate, GroupOf, ProgressOk;
    PreHooksProgress(s, t);
    if At(s, t).k >= |s.prehooks| {
      assert s.prehooks[..At(s, t).k] == s.prehooks;
    }
  }

  lemma PreHooksGlobal(s: State, t: nat, s': State)
    requires Global(s) && ThreadOk(s, t) && At(s, t).at == PreHooks && RunPreHook(s, t, At(s, t).force, At(s, t).k) == Some(s')
    ensures Global(s')
  {
    hide PreHooksRun, PostHooksRun, PreIsOver, PostIsOver, CloseIsOver, GroupOk, CloseGate, GroupOf, ProgressOk;
    LogGrows(s.log, s'.log[|s.log|]);
    GroupsLogged(s, s', s'.log[|s.log|], false);
    GroupsLogged(s, s', s'.log[|s.log|], true);
  }

  lemma PreHooksGates(s: State, t: nat, s': State)
    requires GatesOk(s, t, PreHooks, At(s, t).force) && At(s, t).at == PreHooks && RunPreHook(s, t, At(s, t).force, At(s, t).k) == Some(s')
    ensures GatesOk(s', t, At(s', t).at, At(s', t).force)
  {
    hide CloseGate, CloseFrame;
    CloseUntouched(s, s', t);
  }

  lemma PreHooksSelf(s: State, t: nat, s': State)
    requires ThreadOk(s, t) && At(s, t).at == PreHooks && RunPreHook(s, t, At(s, t).force, At(s, t).k) == Some(s')
    ensures ProgressOk(s', At(s', t).at, At(s', t).force, At(s', t).k)
  {
    hide PreHooksRun, PostHooksRun, GatesOk, GroupOf;
    var k := At(s, t).k;
    PreHooksProgress(s, t);
    if k < |s.prehooks| {
      HooksGrow(s.log, Pre(s.prehooks[k]));
      TakeNext(s.prehooks, k);
      assert At(s', t) == PC(PreHooks, At(s, t).force, k + 1);
    } else {
      assert At(s', t) == PC(AtClose, At(s, t).force, 0);
    }
  }

  lemma PreHooksFrame(s: State, t: nat, s': State, u: nat)
    requires ThreadOk(s, t) && ThreadOk(s, u) && u != t && At(s, t).at == PreHooks && RunPreHook(s, t, At(s, t).force, At(s, t).k) == Some(s')
    ensures FrameFor(s, s', u)
  {
    hide PreHooksRun, PostHooksRun, CloseGate, GroupOf, CloseFrame, ProgressOk;
    var k := At(s, t).k;
    CloseUntouched(s, s', u);
    HooksGrow(s.log, if k < |s.prehooks| then Pre(s.prehooks[k]) else PreOver(s.prehooks));
  }

  lemma FromPreHooks(s: State, t: nat, s': State)
    requires Inv(s) && At(s, t).at == PreHooks && RunPreHook(s, t, At(s, t).force, At(s, t).k) == Some(s')
    ensures Inv(s')
  {
    hide Inv, Orderly, InOrder, Global, GatesOk, ProgressOk, FrameFor, RunPreHook;
    InvParts(s, t);
    PreHooksInOrder(s, t, s');
    PreHooksGlobal(s, t, s');
    PreHooksGates(s, t, s');
    PreHooksSelf(s, t, s');
    OrderlyOneMore(s.log, s'.log[|s.log|]);
    forall u: nat | u != t
      ensures FrameFor(s, s', u)
    {
      InvParts(s, u);
      PreHooksFrame(s, t, s', u);
    }
    InvFrom(s, t, s');
  }

  lemma PostHooksProgress(s: State, t: nat)
    requires ThreadOk(s, t) && At(s, t).at == PostHooks
    ensures At(s, t).k <= |s.posthooks| && PostHooksRun(s.log) == s.posthooks[..At(s, t).k]
  {}

  lemma PostHooksInOrder(s: State, t: nat, s': State)
    requires Global(s) && ThreadOk(s, t) && At(s, t).at == PostHooks && RunPostHook(s, t, At(s, t).force, At(s, t).k) == Some(s')
    ensures |s'.log| == |s.log| + 1 && s'.log == s.log + [s'.log[|s.log|]] && InOrder(s.log, s'.log[|s.log|])
  {
    hide PreHooksRun, PostHooksRun, PreIsOver, PostIsOver, CloseIsOver, GroupOk, CloseGate, GroupOf, ProgressOk;
    PostHooksProgress(s, t);
    if At(s, t).k >= |s.posthooks| {
      assert s.posthooks[..At(s, t).k] == s.posthooks;
    }
  }

  lemma PostHooksGlobal(s: State, t: nat, s': State)
    requires Global(s) && ThreadOk(s, t) && At(s, t).at == PostHooks && RunPostHook(s, t, At(s, t).force, At(s, t).k) == Some(s')
    ensures Global(s')
  {
    hide PreHooksRun, PostHooksRun, PreIsOver, PostIsOver, CloseIsOver, GroupOk, CloseGate, GroupOf, ProgressOk;
    LogGrows(s.log, s'.log[|s.log|]);
    GroupsLogged(s, s', s'.log[|s.log|], false);
    GroupsLogged(s, s', s'.log[|s.log|], true);
  }

  lemma PostHooksGates(s: State, t: nat, s': State)
    requires GatesOk(s, t, PostHooks, At(s, t).force) && At(s, t).at == PostHooks && RunPostHook(s, t, At(s, t).force, At(s, t).k) == Some(s')
    ensures GatesOk(s', t, At(s', t).at, At(s', t).force)
  {
    hide CloseGate, CloseFrame;
    CloseUntouched(s, s', t);
  }

  lemma PostHooksSelf(s: State, t: nat, s': State)
    requires ThreadOk(s, t) && At(s, t).at == PostHooks && RunPostHook(s, t, At(s, t).force, At(s, t).k) == Some(s')
    ensures ProgressOk(s', At(s', t).at, At(s', t).force, At(s', t).k)
  {
    hide PreHooksRun, PostHooksRun, GatesOk, GroupOf;
    var k := At(s, t).k;
    PostHooksProgress(s, t);
    if k < |s.posthooks| {
      HooksGrow(s.log, Post(s.posthooks[k]));
      TakeNext(s.posthooks, k);
      assert At(s', t) == PC(PostHooks, At(s, t).force, k + 1);
    } else {
      assert At(s', t) == PC(AtNotify, At(s, t).force, 0);
    }
  }

  lemma PostHooksFrame(s: State, t: nat, s': State, u: nat)
    requires ThreadOk(s, t) && ThreadOk(s, u) && u != t && At(s, t).at == PostHooks && RunPostHook(s, t, At(s, t).force, At(s, t).k) == Some(s')
    ensures FrameFor(s, s', u)
  {
    hide PreHooksRun, PostHooksRun, CloseGate, GroupOf, CloseFrame, ProgressOk;
    var k := At(s, t).k;
    CloseUntouched(s, s', u);
    HooksGrow(s.log, if k < |s.posthooks| then Post(s.posthooks[k]) else PostOver(s.posthooks));
  }

  lemma FromPostHooks(s: State, t: nat, s': State)
    requires Inv(s) && At(s, t).at == PostHooks && RunPostHook(s, t, At(s, t).force, At(s, t).k) == Some(s')
    ensures Inv(s')
  {
    hide Inv, Orderly, InOrder, Global, GatesOk, ProgressOk, FrameFor, RunPostHook;
    InvParts(s, t);
    PostHooksInOrder(s, t, s');
    PostHooksGlobal(s, t, s');
    PostHooksGates(s, t, s');
    PostHooksSelf(s, t, s');
    OrderlyOneMore(s.log, s'.log[|s.log|]);
    forall u: nat | u != t
      ensures FrameFor(s, s', u)
    {
      InvParts(s, u);
      PostHooksFrame(s, t, s', u);
    }
    InvFrom(s, t, s');
  }

  lemma JoiningInOrder(s: State, t: nat, s': State)
    requires Global(s) && ThreadOk(s, t) && At(s, t).at == Joining && Join(s, t, At(s, t).force) == Some(s')
    ensures |s'.log| == |s.log| + 1 && s'.log == s.log + [s'.log[|s.log|]] && InOrder(s.log, s'.log[|s.log|])
  {
    hide PreHooksRun, PostHooksRun, PreIsOver, PostIsOver, CloseIsOver;
    var f := At(s, t).force;
    var g := GroupOf(s, f);
    forall k: nat | k < |g.found|
      ensures Drained(f, k) in s.log
    {
      assert PhaseOk(s.log, f, k, g.phases[k]);
    }
  }

  lemma FromJoining(s: State, t: nat, s': State)
    requires Inv(s) && At(s, t).at == Joining && Join(s, t, At(s, t).force) == Some(s')
    ensures Inv(s')
  {
    hide Inv, Orderly, InOrder, PreHooksRun, PostHooksRun, PreIsOver, PostIsOver, CloseIsOver, PhaseOk;
    InvParts(s, t);
    var e := s'.log[|s.log|];
    JoiningInOrder(s, t, s');
    OrderlyOneMore(s.log, e);
    LogGrows(s.log, e);
    PhasesLast(s.log, e, false, GroupOf(s, false));
    PhasesLast(s.log, e, true, GroupOf(s, true));
    forall u: nat | u != t
      ensures FrameFor(s, s', u)
    {
      InvParts(s, u);
    }
    InvFrom(s, t, s');
  }

  lemma NotifyingGlobal(s: State, t: nat, s': State)
    requires Global(s) && ThreadOk(s, t) && At(s, t).at == Notifying && CloseWait(s, t, At(s, t).force) == Some(s')
    ensures Global(s') && InOrder(s.log, Notify)
  {
    hide PreHooksRun, PostHooksRun, PreIsOver, PostIsOver, CloseIsOver, GroupOk, CloseGate, GroupOf, ProgressOk;
    LogGrows(s.log, Notify);
    GroupsLogged(s, s', Notify, false);
    GroupsLogged(s, s', Notify, true);
  }

  lemma NotifyingSelf(s: State, t: nat, s': State)
    requires ThreadOk(s, t) && At(s, t).at == Notifying && CloseWait(s, t, At(s, t).force) == Some(s')
    ensures ThreadOk(s', t) && s'.log == s.log + [Notify]
  {
    hide PreHooksRun, PostHooksRun, CloseGate, GroupOf;
    CloseUntouched(s, s', t);
  }

  lemma NotifyingFrame(s: State, t: nat, s': State, u: nat)
    requires ThreadOk(s, t) && u != t && At(s, t).at == Notifying && CloseWait(s, t, At(s, t).force) == Some(s')
    ensures FrameFor(s, s', u)
  {
    hide PreHooksRun, PostHooksRun, CloseGate, GroupOf, CloseFrame, ProgressOk;
    HooksGrow(s.log, Notify);
    CloseUntouched(s, s', u);
  }

  lemma FromNotifying(s: State, t: nat, s': State)
    requires Inv(s) && At(s, t).at == Notifying && CloseWait(s, t, At(s, t).force) == Some(s')
    ensures Inv(s')
  {
    hide Inv, Orderly, InOrder, Global, ThreadOk, FrameFor, CloseWait;
    InvParts(s, t);
    NotifyingGlobal(s, t, s');
    NotifyingSelf(s, t, s');
    OrderlyOneMore(s.log, Notify);
    forall u: nat | u != t
      ensures FrameFor(s, s', u)
    {
      NotifyingFrame(s, t, s', u);
    }
    InvFrom(s, t, s');
  }

  lemma CallKeeps(s: State, t: nat, f: bool)
    requires Inv(s) && At(s, t).at == Idle
    ensures Inv(Goto(s, t, AtPre, f, 0))
  {
    hide Orderly, PreHooksRun, PostHooksRun, PreIsOver, PostIsOver, CloseIsOver, GroupOk, Inv, CloseFrame, GroupOf;
    var s' := Goto(s, t, AtPre, f, 0);
    InvParts(s, t);
    GroupUntouched(s, s', false);
    GroupUntouched(s, s', true);
    CloseUntouched(s, s', t);
    forall u: nat | u != t
      ensures FrameFor(s, s', u)
    {
      InvParts(s, u);
      CloseUntouched(s, s', u);
    }
    InvFrom(s, t, s');
  }

  // ----- the goroutines of closeListeners -----

  /** What a step of a listener's goroutine changes. */
  lemma WorkShape(s: State, f: bool, k: nat, s': State)
    requires StepWork(s, f, k) == Some(s')
    ensures |s'.log| == |s.log| + 1 && s'.log == s.log + [s'.log[|s.log|]]
    ensures var e := s'.log[|s.log|]; e == Close(f, k) || e == Drained(f, k)
    ensures GroupOf(s, f).phases != [] && GroupOf(s', !f) == GroupOf(s, !f)
    ensures GroupOf(s', f).found == GroupOf(s, f).found && |GroupOf(s', f).phases| == |GroupOf(s, f).phases|
    ensures forall f' :: CloseGate(s', f') == CloseGate(s, f')
    ensures s' == s.(groups := s'.groups, log := s'.log)
  {}

  lemma WorkGroup(s: State, f: bool, k: nat, s': State, f': bool)
    requires Global(s) && StepWork(s, f, k) == Some(s')
    ensures GroupOk(s', f')
  {
    assert GroupOk(s, f');
    hide PreHooksRun, PostHooksRun, PreIsOver, PostIsOver, CloseIsOver, PhaseOk, Global, StepWork, GroupOf, CloseGate;
    var e := s'.log[|s.log|];
    WorkShape(s, f, k, s');
    LogGrows(s.log, e);
    if f' == f {
      WorkPhases(s, f, k, s');
    } else {
      PhasesLast(s.log, e, f', GroupOf(s, f'));
    }
  }

  lemma WorkPhases(s: State, f: bool, k: nat, s': State)
    requires StepWork(s, f, k) == Some(s')
    requires forall j: nat | j < |GroupOf(s, f).phases| :: PhaseOk(s.log, f, j, GroupOf(s, f).phases[j])
    ensures forall j: nat | j < |GroupOf(s', f).phases| :: PhaseOk(s'.log, f, j, GroupOf(s', f).phases[j])
  {
    forall j: nat | j < |GroupOf(s', f).phases|
      ensures PhaseOk(s'.log, f, j, GroupOf(s', f).phases[j])
    {
      assert PhaseOk(s.log, f, j, GroupOf(s, f).phases[j]);
    }
  }

  lemma WorkInOrder(s: State, f: bool, k: nat, s': State)
    requires Global(s) && StepWork(s, f, k) == Some(s')
    ensures |s'.log| == |s.log| + 1 && s'.log == s.log + [s'.log[|s.log|]] && InOrder(s.log, s'.log[|s.log|])
  {
    hide PreHooksRun, PostHooksRun, PreIsOver, PostIsOver, CloseIsOver, CloseGate;
    WorkShape(s, f, k, s');
    assert GroupOk(s, f);
    assert PhaseOk(s.log, f, k, GroupOf(s, f).phases[k]);
  }

  lemma WorkGlobal(s: State, f: bool, k: nat, s': State)
    requires Global(s) && StepWork(s, f, k) == Some(s')
    ensures Global(s')
  {
    hide PreHooksRun, PostHooksRun, PreIsOver, PostIsOver, CloseIsOver, PhaseOk, StepWork, GroupOf;
    WorkShape(s, f, k, s');
    LogGrows(s.log, s'.log[|s.log|]);
    assert GroupOk(s, f);
    WorkGroup(s, f, k, s', false);
    WorkGroup(s, f, k, s', true);
    hide GroupOk;
  }

  lemma WorkFrame(s: State, f: bool, k: nat, s': State, u: nat)
    requires StepWork(s, f, k) == Some(s')
    ensures FrameFor(s, s', u)
  {
    hide PreHooksRun, PostHooksRun, StepWork, GroupOf, CloseGate;
    WorkShape(s, f, k, s');
    HooksGrow(s.log, s'.log[|s.log|]);
  }

  lemma WorkKeeps(s: State, f: bool, k: nat, s': State)
    requires Inv(s) && StepWork(s, f, k) == Some(s')
    ensures Inv(s')
  {
    hide Orderly, Inv, Global, ThreadOk, FrameFor, InOrder, StepWork;
    InvParts(s, 0);
    WorkInOrder(s, f, k, s');
    OrderlyOneMore(s.log, s'.log[|s.log|]);
    WorkGlobal(s, f, k, s');
    forall u: nat
      ensures FrameFor(s, s', u)
    {
      WorkFrame(s, f, k, s', u);
    }
    FrameKeeps(s, s', 0);
    InvFrom(s, 0, s');
  }

  // ----- runs -----

  lemma InvKept(s: State, t: nat, op: Op, s': State)
    requires Inv(s) && Step(s, t, op) == Some(s')
    ensures Inv(s')
  {
    hide Inv, StepWork, Registered;
    match op {
      case Work(f, k) => WorkKeeps(s, f, k, s');
      case Register(r) => RegisterKeeps(s, r);
      case Call(f) => CallKeeps(s, t, f);
      case Go => GoKeeps(s, t, s');
    }
  }

  lemma GoKeeps(s: State, t: nat, s': State)
    requires Inv(s) && Step(s, t, Go) == Some(s')
    ensures Inv(s')
  {
    hide Inv, EnterPre, LockForPre, RunPreHook, EnterClose, SetClosingFlag, LockForClose, Spawn, Join,
      EnterPost, LockForPost, RunPostHook, EnterNotify, CloseWait;
    match At(s, t).at {
      case AtPre => FromAtPre(s, t, s');
      case PreLock => FromPreLock(s, t, s');
      case PreHooks => FromPreHooks(s, t, s');
      case AtClose => FromAtClose(s, t, s');
      case SetClosing => FromSetClosing(s, t, s');
      case CloseLock => FromCloseLock(s, t, s');
      case Spawning => FromSpawning(s, t, s');
      case Joining => FromJoining(s, t, s');
      case AtPost => FromAtPost(s, t, s');
      case PostLock => FromPostLock(s, t, s');
      case PostHooks => FromPostHooks(s, t, s');
      case AtNotify => FromAtNotify(s, t, s');
      case Notifying => FromNotifying(s, t, s');
      case Idle =>
    }
  }

  ghost predicate IsRun(states: seq<State>, who: seq<nat>, ops: seq<Op>) {
    && |states| == |who| + 1 == |ops| + 1 && Init(states[0])
    && forall k: nat | k < |who| :: Step(states[k], who[k], ops[k]) == Some(states[k + 1])
  }

  lemma {:induction false} RunKeepsInv(states: seq<State>, who: seq<nat>, ops: seq<Op>, k: nat)
    requires IsRun(states, who, ops) && k < |states|
    ensures Inv(states[k])
  {
    hide Inv, Step, Init;
    if k == 0 {
      InvInitially(states[0]);
    } else {
      RunKeepsInv(states, who, ops, k - 1);
      InvKept(states[k - 1], who[k - 1], ops[k - 1], states[k]);
    }
  }

  /** Any number of concurrent shutdowns, forced or not, leave an orderly log. */
  lemma ShutdownIsOrderly(states: seq<State>, who: seq<nat>, ops: seq<Op>, k: nat)
    requires IsRun(states, who, ops) && k < |states|
    ensures Orderly(states[k].log)
  {
    hide Step, Init;
    RunKeepsInv(states, who, ops, k);
  }

  /** Place by place, what comes before what. */
  lemma OrderMeans(log: seq<Event>, p: nat)
    requires Orderly(log) && p < |log|
    ensures match log[p]
      case Pre(_) => forall q: nat | q < p :: !log[q].PreOver? && !log[q].Close?
      case PreOver(_) => forall q: nat | q < p :: !log[q].PreOver?
      case Close(_, _) => exists q: nat :: q < p && log[q].PreOver?
      case Drained(f, k) => exists q: nat :: q < p && log[q] == Close(f, k)
      case CloseOver(f, found) =>
        && (forall q: nat | q < p :: !(log[q].CloseOver? && log[q].force == f))
        && (forall k: nat | k < |found| :: exists q: nat :: q < p && log[q] == Drained(f, k))
      case Post(_) => (forall q: nat | q < p :: !log[q].PostOver?) && exists q: nat :: q < p && log[q].CloseOver?
      case PostOver(_) => (forall q: nat | q < p :: !log[q].PostOver?) && exists q: nat :: q < p && log[q].CloseOver?
      case Notify => (forall q: nat | q < p :: !log[q].Notify?) && exists q: nat :: q < p && log[q].PostOver?
  {
    var before := log[..p];
    assert InOrder(before, log[p]);
    hide Orderly, PreHooksRun, PostHooksRun;
    forall q: nat | q < p
      ensures log[q] in before
      ensures log[q].PreOver? ==> PreIsOver(before)
      ensures log[q].PostOver? ==> PostIsOver(before)
      ensures log[q].CloseOver? ==> CloseIsOver(before, log[q].force)
      ensures log[q].Close? ==> Close(log[q].force, log[q].k) in before
    {
      assert before[q] == log[q];
      match log[q] {
        case PreOver(hooks) => assert PreOver(hooks) in before;
        case PostOver(hooks) => assert PostOver(hooks) in before;
        case CloseOver(f, found) => assert CloseOver(f, found) in before;
        case _ =>
      }
    }
    forall e | e in before
      ensures exists q: nat :: q < p && log[q] == e
    {
      var q: nat :| q < |before| && before[q] == e;
      assert log[q] == e;
    }
  }

  lemma OrderlyPrefix(log: seq<Event>)
    requires Orderly(log) && log != []
    ensures var n := |log| - 1; Orderly(log[..n]) && InOrder(log[..n], log[n]) && log == log[..n] + [log[n]]
  {
    hide InOrder;
    var n := |log| - 1;
    forall p: nat | p < n
      ensures InOrder(log[..n][..p], log[..n][p])
    {
      assert log[..n][..p] == log[..p];
      assert InOrder(log[..p], log[p]);
    }
  }

  /** What an orderly log says of a finished pass: the hooks that have run, in all,
      are the registered ones, once each and in order. */
  lemma {:induction false} PassesRunEachHookOnce(log: seq<Event>, hooks: seq<nat>)
    requires Orderly(log)
    ensures PreOver(hooks) in log ==> PreHooksRun(log) == hooks
    ensures PostOver(hooks) in log ==> PostHooksRun(log) == hooks
    decreases |log|
  {
    hide Orderly;
    if log != [] {
      var n := |log| - 1;
      OrderlyPrefix(log);
      HooksGrow(log[..n], log[n]);
      PassesRunEachHookOnce(log[..n], hooks);
    }
  }

  ghost predicate AllDrained(log: seq<Event>, f: bool, found: seq<nat>) {
    forall k: nat | k < |found| :: Close(f, k) in log && Drained(f, k) in log
  }

  /** What an orderly log says of a finished closeListeners. */
  lemma {:induction false} OverMeansDrained(log: seq<Event>, f: bool, found: seq<nat>)
    requires Orderly(log) && CloseOver(f, found) in log
    ensures AllDrained(log, f, found)
    decreases |log|
  {
    hide Orderly;
    var n := |log| - 1;
    OrderlyPrefix(log);
    if log[n] == CloseOver(f, found) {
      forall k: nat | k < |found|
        ensures Close(f, k) in log
      {
        DrainedMeansClosed(log[..n], f, k);
      }
    } else {
      OverMeansDrained(log[..n], f, found);
    }
  }

  lemma {:induction false} DrainedMeansClosed(log: seq<Event>, f: bool, k: nat)
    requires Orderly(log) && Drained(f, k) in log
    ensures Close(f, k) in log
    decreases |log|
  {
    hide Orderly;
    var n := |log| - 1;
    OrderlyPrefix(log);
    if log[n] != Drained(f, k) {
      DrainedMeansClosed(log[..n], f, k);
    }
  }

  lemma {:induction false} PosthooksFollowClose(log: seq<Event>)
    requires Orderly(log) && (Notify in log || PostIsOver(log) || exists h :: Post(h) in log)
    ensures exists f :: CloseIsOver(log, f)
    decreases |log|
  {
    hide Orderly, PostHooksRun, PreHooksRun, PreIsOver;
    var before, e := log[..|log| - 1], log[|log| - 1];
    OrderlyPrefix(log);
    LogGrows(before, e);
    if !e.Post? && !e.PostOver? {
      PosthooksFollowClose(before);
    }
    var f :| CloseIsOver(before, f);
    assert CloseIsOver(log, f);
  }

  /** Once a posthook has run, or `wait` has been closed, some closeListeners has had
      every listener it found closed and drained. */
  lemma NoPosthookBeforeDrained(log: seq<Event>)
    requires Orderly(log) && (Notify in log || PostIsOver(log) || exists h :: Post(h) in log)
    ensures exists f, found :: CloseOver(f, found) in log && AllDrained(log, f, found)
  {
    hide Orderly, AllDrained;
    PosthooksFollowClose(log);
    var f :| CloseIsOver(log, f);
    var found :| CloseOver(f, found) in log;
    OverMeansDrained(log, f, found);
  }
}
