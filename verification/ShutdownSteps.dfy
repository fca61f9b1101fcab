/** One step of a goroutine inside shutdown: what it adds to the log, and what it leaves
    alone. */
module ShutdownSteps {
  import opened Options
  import opened Shutdown

  /** Goroutine t, called with f, is now at `at`; the events are new; what has been
      registered is as before. */
  ghost predicate Moves(s: State, t: nat, s': State, at: Stage, f: bool, events: seq<Event>) {
    && At(s', t).at == at && At(s', t).force == f && s'.threads == s.threads[t := At(s', t)]
    && s'.log == s.log + events
    && s'.listeners == s.listeners && s'.prehooks == s.prehooks && s'.posthooks == s.posthooks
  }

  lemma FromGoto(s: State, t: nat, at: Stage, f: bool, k: nat, s': State, events: seq<Event>)
    requires s'.threads == Goto(s, t, at, f, k).threads && s'.log == s.log + events
    requires s'.listeners == s.listeners && s'.prehooks == s.prehooks && s'.posthooks == s.posthooks
    ensures Moves(s, t, s', at, f, events)
  {}

  /** Goto touches nothing but the goroutine. */
  lemma OnlyGoto(s: State, t: nat, at: Stage, f: bool, k: nat)
    ensures Goto(s, t, at, f, k) == s.(threads := Goto(s, t, at, f, k).threads)
  {}

  lemma EnterPreMoves(s: State, t: nat, f: bool)
    ensures EnterPre(s, t, f).Some? ==>
              if s.pre.Unused? then Moves(s, t, EnterPre(s, t, f).value, PreLock, f, [])
              else Moves(s, t, EnterPre(s, t, f).value, AtClose, f, [])
  {
    hide Goto, Moves, CloseGate, GroupOf;
    OnlyGoto(s, t, PreLock, f, 0);
    OnlyGoto(s, t, AtClose, f, 0);
    if s.pre.Unused? {
      FromGoto(s, t, PreLock, f, 0, EnterPre(s, t, f).value, []);
    } else if EnterPre(s, t, f).Some? {
      FromGoto(s, t, AtClose, f, 0, EnterPre(s, t, f).value, []);
    }
  }

  lemma LockForPreMoves(s: State, t: nat, f: bool)
    ensures LockForPre(s, t, f).Some? ==> Moves(s, t, LockForPre(s, t, f).value, PreHooks, f, [])
  {
    hide Goto, Moves, CloseGate, GroupOf, AllFinished;
    OnlyGoto(s, t, PreHooks, f, 0);
    if LockForPre(s, t, f).Some? {
      FromGoto(s, t, PreHooks, f, 0, LockForPre(s, t, f).value, []);
    }
  }

  lemma RunPreHookMoves(s: State, t: nat, f: bool, k: nat)
    ensures RunPreHook(s, t, f, k).Some? ==>
              if k < |s.prehooks| then Moves(s, t, RunPreHook(s, t, f, k).value, PreHooks, f, [Pre(s.prehooks[k])])
              else Moves(s, t, RunPreHook(s, t, f, k).value, AtClose, f, [PreOver(s.prehooks)])
  {
    hide Goto, Moves, CloseGate, GroupOf;
    OnlyGoto(s, t, PreHooks, f, k + 1);
    OnlyGoto(s, t, AtClose, f, 0);
    if k < |s.prehooks| {
      FromGoto(s, t, PreHooks, f, k + 1, RunPreHook(s, t, f, k).value, [Pre(s.prehooks[k])]);
    } else if RunPreHook(s, t, f, k).Some? {
      FromGoto(s, t, AtClose, f, 0, RunPreHook(s, t, f, k).value, [PreOver(s.prehooks)]);
    }
  }

  lemma EnterCloseMoves(s: State, t: nat, f: bool)
    ensures EnterClose(s, t, f).Some? ==>
              if CloseGate(s, f).Unused? then Moves(s, t, EnterClose(s, t, f).value, SetClosing, f, [])
              else Moves(s, t, EnterClose(s, t, f).value, AtPost, f, [])
  {
    hide Goto, Moves, CloseGate, GroupOf;
    OnlyGoto(s, t, SetClosing, f, 0);
    OnlyGoto(s, t, AtPost, f, 0);
    if CloseGate(s, f).Unused? {
      FromGoto(s, t, SetClosing, f, 0, EnterClose(s, t, f).value, []);
    } else if EnterClose(s, t, f).Some? {
      FromGoto(s, t, AtPost, f, 0, EnterClose(s, t, f).value, []);
    }
  }

  lemma SetClosingFlagMoves(s: State, t: nat, f: bool)
    ensures SetClosingFlag(s, t, f).Some? ==> Moves(s, t, SetClosingFlag(s, t, f).value, CloseLock, f, [])
  {
    hide Goto, Moves, CloseGate, GroupOf, AllFinished;
    OnlyGoto(s, t, CloseLock, f, 0);
    if SetClosingFlag(s, t, f).Some? {
      FromGoto(s, t, CloseLock, f, 0, SetClosingFlag(s, t, f).value, []);
    }
  }

  lemma LockForCloseMoves(s: State, t: nat, f: bool)
    ensures LockForClose(s, t, f).Some? ==> Moves(s, t, LockForClose(s, t, f).value, Spawning, f, [])
  {
    hide Goto, Moves, CloseGate, GroupOf, AllFinished;
    OnlyGoto(s, t, Spawning, f, 0);
    if LockForClose(s, t, f).Some? {
      FromGoto(s, t, Spawning, f, 0, LockForClose(s, t, f).value, []);
    }
  }

  lemma SpawnMoves(s: State, t: nat, f: bool, k: nat)
    ensures Spawn(s, t, f, k).Some? ==>
              if k < |s.listeners| then Moves(s, t, Spawn(s, t, f, k).value, Spawning, f, [])
              else Moves(s, t, Spawn(s, t, f, k).value, Joining, f, [])
  {
    hide Goto, Moves, CloseGate, GroupOf;
    OnlyGoto(s, t, Spawning, f, k + 1);
    OnlyGoto(s, t, Joining, f, 0);
    if k < |s.listeners| {
      FromGoto(s, t, Spawning, f, k + 1, Spawn(s, t, f, k).value, []);
    } else if Spawn(s, t, f, k).Some? {
      FromGoto(s, t, Joining, f, 0, Spawn(s, t, f, k).value, []);
    }
  }

  lemma JoinMoves(s: State, t: nat, f: bool)
    ensures Join(s, t, f).Some? ==> Moves(s, t, Join(s, t, f).value, AtPost, f, [CloseOver(f, GroupOf(s, f).found)])
  {
    hide Goto, Moves, CloseGate, GroupOf, AllFinished;
    OnlyGoto(s, t, AtPost, f, 0);
    if Join(s, t, f).Some? {
      FromGoto(s, t, AtPost, f, 0, Join(s, t, f).value, [CloseOver(f, GroupOf(s, f).found)]);
    }
  }

  lemma EnterPostMoves(s: State, t: nat, f: bool)
    ensures EnterPost(s, t, f).Some? ==>
              if s.post.Unused? then Moves(s, t, EnterPost(s, t, f).value, PostLock, f, [])
              else Moves(s, t, EnterPost(s, t, f).value, AtNotify, f, [])
  {
    hide Goto, Moves, CloseGate, GroupOf;
    OnlyGoto(s, t, PostLock, f, 0);
    OnlyGoto(s, t, AtNotify, f, 0);
    if s.post.Unused? {
      FromGoto(s, t, PostLock, f, 0, EnterPost(s, t, f).value, []);
    } else if EnterPost(s, t, f).Some? {
      FromGoto(s, t, AtNotify, f, 0, EnterPost(s, t, f).value, []);
    }
  }

  lemma LockForPostMoves(s: State, t: nat, f: bool)
    ensures LockForPost(s, t, f).Some? ==> Moves(s, t, LockForPost(s, t, f).value, PostHooks, f, [])
  {
    hide Goto, Moves, CloseGate, GroupOf, AllFinished;
    OnlyGoto(s, t, PostHooks, f, 0);
    if LockForPost(s, t, f).Some? {
      FromGoto(s, t, PostHooks, f, 0, LockForPost(s, t, f).value, []);
    }
  }

  lemma RunPostHookMoves(s: State, t: nat, f: bool, k: nat)
    ensures RunPostHook(s, t, f, k).Some? ==>
              if k < |s.posthooks| then Moves(s, t, RunPostHook(s, t, f, k).value, PostHooks, f, [Post(s.posthooks[k])])
              else Moves(s, t, RunPostHook(s, t, f, k).value, AtNotify, f, [PostOver(s.posthooks)])
  {
    hide Goto, Moves, CloseGate, GroupOf;
    OnlyGoto(s, t, PostHooks, f, k + 1);
    OnlyGoto(s, t, AtNotify, f, 0);
    if k < |s.posthooks| {
      FromGoto(s, t, PostHooks, f, k + 1, RunPostHook(s, t, f, k).value, [Post(s.posthooks[k])]);
    } else if RunPostHook(s, t, f, k).Some? {
      FromGoto(s, t, AtNotify, f, 0, RunPostHook(s, t, f, k).value, [PostOver(s.posthooks)]);
    }
  }

  lemma EnterNotifyMoves(s: State, t: nat, f: bool)
    ensures EnterNotify(s, t, f).Some? ==>
              if s.notify.Unused? then Moves(s, t, EnterNotify(s, t, f).value, Notifying, f, [])
              else Moves(s, t, EnterNotify(s, t, f).value, Idle, f, [])
  {
    hide Goto, Moves, CloseGate, GroupOf;
    OnlyGoto(s, t, Notifying, f, 0);
    OnlyGoto(s, t, Idle, f, 0);
    if s.notify.Unused? {
      FromGoto(s, t, Notifying, f, 0, EnterNotify(s, t, f).value, []);
    } else if EnterNotify(s, t, f).Some? {
      FromGoto(s, t, Idle, f, 0, EnterNotify(s, t, f).value, []);
    }
  }

  lemma CloseWaitMoves(s: State, t: nat, f: bool)
    ensures CloseWait(s, t, f).Some? ==> Moves(s, t, CloseWait(s, t, f).value, Idle, f, [Notify])
  {
    hide Goto, Moves, CloseGate, GroupOf, AllFinished;
    OnlyGoto(s, t, Idle, f, 0);
    if CloseWait(s, t, f).Some? {
      FromGoto(s, t, Idle, f, 0, CloseWait(s, t, f).value, [Notify]);
    }
  }

  /** What the next step of t adds to the log. */
  function Adds(s: State, t: nat): seq<Event> {
    var pc := At(s, t);
    match pc.at
    case PreHooks => if pc.k < |s.prehooks| then [Pre(s.prehooks[pc.k])] else [PreOver(s.prehooks)]
    case Joining => [CloseOver(pc.force, GroupOf(s, pc.force).found)]
    case PostHooks => if pc.k < |s.posthooks| then [Post(s.posthooks[pc.k])] else [PostOver(s.posthooks)]
    case Notifying => [Notify]
    case _ => []
  }

  lemma GoMoves(s: State, t: nat, s': State)
    requires StepShutdown(s, t, At(s, t).force, At(s, t).k) == Some(s')
    ensures Moves(s, t, s', At(s', t).at, At(s, t).force, Adds(s, t))
    ensures At(s', t).at == Idle ==> At(s, t).at == Notifying || (At(s, t).at == AtNotify && s.notify.Over?)
  {
    hide Goto, GroupOf, CloseGate, AllFinished, EnterPre, LockForPre, RunPreHook, EnterClose, SetClosingFlag, LockForClose,
      Spawn, Join, EnterPost, LockForPost, RunPostHook, EnterNotify, CloseWait;
    var f, k := At(s, t).force, At(s, t).k;
    match At(s, t).at {
      case AtPre => EnterPreMoves(s, t, f);
      case PreLock => LockForPreMoves(s, t, f);
      case PreHooks => RunPreHookMoves(s, t, f, k);
      case AtClose => EnterCloseMoves(s, t, f);
      case SetClosing => SetClosingFlagMoves(s, t, f);
      case CloseLock => LockForCloseMoves(s, t, f);
      case Spawning => SpawnMoves(s, t, f, k);
      case Joining => JoinMoves(s, t, f);
      case AtPost => EnterPostMoves(s, t, f);
      case PostLock => LockForPostMoves(s, t, f);
      case PostHooks => RunPostHookMoves(s, t, f, k);
      case AtNotify => EnterNotifyMoves(s, t, f); ReturnsWhenOver(s, t, f);
      case Notifying => CloseWaitMoves(s, t, f);
      case Idle =>
    }
  }

  lemma ReturnsWhenOver(s: State, t: nat, f: bool)
    ensures EnterNotify(s, t, f).Some? && !s.notify.Unused? ==> s.notify.Over?
  {}
}
