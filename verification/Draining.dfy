/** The draining protocol of graceful/listener as atomic steps of any number of
    goroutines over any number of connections. Each connection's flags are guarded
    by its own mutex, each shard's sets by the shard's; a critical section on a
    connection is broken up at every access to the shard, and closeConns at every
    point where it holds no lock. */
module Draining {
  import opened Options

  datatype Mode = Manual | Automatic | Deadline

  /** The state machine a connection's mutex protects (conn.go:17-20). */
  datatype Flags = Flags(busy: bool, closed: bool, disowned: bool)

  /** What a critical section still has to do before it unlocks. */
  datatype Todo =
    | TellInUse   // shard.markInUse
    | TellIdle    // shard.markIdle
    | Untrack     // shard.disown, on the way to closing
    | Done        // WaitGroup.Done, after closing
    | HandOff     // shard.disown, on the way to disowning
    | HandedOff   // set disowned, WaitGroup.Done

  // ----- what each operation does under the connection's lock -----
  // The new flags, and what is left to do; None if the operation is over.

  /** The deferred function of Read, conn.go:36-59. */
  function OnRead(mode: Mode, f: Flags, ok: bool): (Flags, Option<Todo>) {
    if f.disowned || (f.closed && ok) then (f, None)
    else if mode != Manual && !f.busy && !f.closed then (f.(busy := true), Some(TellInUse))
    else (f, None)
  }

  /** Does Read report data? It does not when it lost the race against a close. */
  predicate ReportsData(f: Flags, ok: bool) {
    ok && (f.disowned || !f.closed)
  }

  /** Close, conn.go:64-79 */
  function OnClose(f: Flags): (Flags, Option<Todo>) {
    if f.disowned || f.closed then (f, None) else (f.(closed := true), Some(Untrack))
  }

  /** markIdle, conn.go:94-101 */
  function OnMarkIdle(f: Flags): (Flags, Option<Todo>) {
    if !f.busy then (f, None) else (f.(busy := false), Some(TellIdle))
  }

  /** markInUse, conn.go:112-120 */
  function OnMarkInUse(f: Flags): (Flags, Option<Todo>) {
    if !f.busy && !f.closed && !f.disowned then (f.(busy := true), Some(TellInUse)) else (f, None)
  }

  /** closeIfIdle, conn.go:122-134 */
  function OnCloseIfIdle(f: Flags): (Flags, Option<Todo>) {
    if !f.busy && !f.closed && !f.disowned then (f.(closed := true), Some(Untrack)) else (f, None)
  }

  /** disown, conn.go:138-151 */
  function OnDisown(f: Flags): (Flags, Option<Todo>) {
    if f.disowned then (f, None) else (f, Some(HandOff))
  }

  // ----- shards -----

  /** shard.go:5-13, over connections of any type K: numbers here, objects in
      Listener.dfy. */
  datatype ShardOver<K(==)> = Shard(idle: set<K>, all: set<K>, wg: int, drain: bool)

  /** The protocol numbers connections in the order they were accepted. */
  type Shard = ShardOver<nat>

  function Tracked<K>(sh: ShardOver<K>, c: K): ShardOver<K> {
    sh.(all := sh.all + {c}, idle := sh.idle + {c})
  }

  function Untracked<K>(sh: ShardOver<K>, c: K): ShardOver<K> {
    sh.(all := sh.all - {c}, idle := sh.idle - {c})
  }

  function Idled<K>(sh: ShardOver<K>, c: K): ShardOver<K> {
    sh.(idle := sh.idle + {c})
  }

  function InUsed<K>(sh: ShardOver<K>, c: K): ShardOver<K> {
    sh.(idle := sh.idle - {c})
  }

  function Released<K>(sh: ShardOver<K>): ShardOver<K> {
    sh.(wg := sh.wg - 1)
  }

  /** A whole critical section on connection c, if nothing comes in between: from
      the flags f and the shard sh, given how the operation starts. */
  function Section<K>(f: Flags, sh: ShardOver<K>, c: K, r: (Flags, Option<Todo>)): (Flags, ShardOver<K>) {
    match r.1
    case None => (f, sh)
    case Some(TellInUse) => (r.0, InUsed(sh, c))
    case Some(TellIdle) =>
      if !sh.drain then (r.0, Idled(sh, c))
      else if !r.0.closed && !r.0.disowned then (r.0.(closed := true), Released(Untracked(sh, c)))
      else (r.0, sh)
    case Some(HandOff) => (r.0.(disowned := true), Released(Untracked(sh, c)))
    case Some(HandedOff) => (r.0.(disowned := true), Released(sh))
    case Some(Untrack) => (r.0, Released(Untracked(sh, c)))
    case Some(Done) => (r.0, Released(sh))
  }

  // ----- the whole listener -----

  /** Beside the flags: whether WaitGroup.Add and either kind of Done have been
      called for it, whether Accept has published it, and which goroutine is
      constructing it or inside one of its critical sections. */
  datatype Conn = Conn(f: Flags, added: bool, shared: bool, closeDone: bool, disownDone: bool, owner: Option<nat>)

  /** CloseIdle, Drain and DrainAll, listener.go:109-144 */
  datatype Job = IdleJob | DrainJob(all: bool) {
    predicate All() { DrainJob? && all }
  }

  /** Whom a critical section returns to. */
  datatype Cont = User | Back(job: Job, i: nat, left: set<nat>)

  datatype PC =
    | Ready
    | Accepted(c: nat)                          // wrapped; next WaitGroup.Add
    | Tracking(c: nat)                          // next shard.track
    | Rejected(c: nat)                          // track refused; next Close
    | Deferred(c: nat)                          // SetReadDeadline will call markIdle
    | Holding(c: nat, todo: Todo, k: Cont)      // inside a critical section of c
    | JobAt(job: Job, i: nat)                   // next closeConns on shard i
    | Sweeping(job: Job, i: nat, left: set<nat>) // closeConns on shard i, no lock held
    | Waiting(all: bool, i: nat)                // next wait on shard i

  datatype State = State(
    mode: Mode,
    shards: seq<Shard>,
    conns: seq<Conn>,
    threads: map<nat, PC>,
    swept: set<nat>,      // shards on which some closeConns(_, true) has returned
    sweptAll: set<nat>,   // ... some closeConns(true, true) has returned
    drained: bool)        // some Drain or DrainAll has returned

  datatype Op =
    | Accept
    | Read(c: nat, ok: bool)
    | Close(c: nat)
    | SetReadDeadline(c: nat)
    | MarkIdle(c: nat)
    | MarkInUse(c: nat)
    | Disown(c: nat)
    | CloseIdle
    | Drain(all: bool)
    | Take(c: nat)
    | Go

  function At(s: State, t: nat): PC {
    if t in s.threads then s.threads[t] else Ready
  }

  function Goto(s: State, t: nat, pc: PC): State {
    s.(threads := s.threads[t := pc])
  }

  /** listener.go:80-81; connection numbers start at 1. */
  function ShardOf(c: nat, n: nat): (i: nat)
    requires n > 0
    ensures i < n
  {
    (c + 1) % n
  }

  function Home(s: State, c: nat): nat
    requires s.shards != []
  {
    ShardOf(c, |s.shards|)
  }

  function SetShard(s: State, i: nat, sh: Shard): State
    requires i < |s.shards|
  {
    s.(shards := s.shards[i := sh])
  }

  function SetConn(s: State, c: nat, x: Conn): State
    requires c < |s.conns|
  {
    s.(conns := s.conns[c := x])
  }

  function Resume(k: Cont): PC {
    match k case User => Ready case Back(job, i, left) => Sweeping(job, i, left)
  }

  /** Someone outside may lock the connection now. */
  predicate Free(s: State, c: nat) {
    c < |s.conns| && s.conns[c].shared && s.conns[c].owner == None
  }

  /** Lock c and do the first part of an operation. */
  function Enter(s: State, t: nat, c: nat, r: (Flags, Option<Todo>), k: Cont): State
    requires c < |s.conns|
  {
    match r.1
    case None => Goto(s, t, Resume(k))
    case Some(todo) => Goto(SetConn(s, c, s.conns[c].(f := r.0, owner := Some(t))), t, Holding(c, todo, k))
  }

  function Call(s: State, t: nat, c: nat, r: (Flags, Option<Todo>)): Option<State> {
    if Free(s, c) then Some(Enter(s, t, c, r, User)) else None
  }

  function FlagsOf(s: State, c: nat): Flags {
    if c < |s.conns| then s.conns[c].f else Flags(false, false, false)
  }

  /** The rest of a critical section, one shared access at a time. */
  function Proceed(s: State, t: nat, c: nat, todo: Todo, k: Cont): State
    requires c < |s.conns| && s.shards != []
  {
    var i := Home(s, c);
    var sh, x := s.shards[i], s.conns[c];
    var unlocked := x.(owner := None);
    match todo
    case TellInUse => Goto(SetConn(SetShard(s, i, InUsed(sh, c)), c, unlocked), t, Resume(k))
    case TellIdle =>
      if !sh.drain then Goto(SetConn(SetShard(s, i, Idled(sh, c)), c, unlocked), t, Resume(k))
      else if !x.f.closed && !x.f.disowned then Goto(SetConn(s, c, x.(f := x.f.(closed := true))), t, Holding(c, Untrack, k))
      else Goto(SetConn(s, c, unlocked), t, Resume(k))
    case Untrack => Goto(SetShard(s, i, Untracked(sh, c)), t, Holding(c, Done, k))
    case Done => Goto(SetConn(SetShard(s, i, sh.(wg := sh.wg - 1)), c, unlocked.(closeDone := true)), t, Resume(k))
    case HandOff => Goto(SetShard(s, i, Untracked(sh, c)), t, Holding(c, HandedOff, k))
    case HandedOff =>
      Goto(SetConn(SetShard(s, i, sh.(wg := sh.wg - 1)), c, unlocked.(f := x.f.(disowned := true), disownDone := true)), t, Resume(k))
  }

  /** closeConns up to its unlock, shard.go:64-81 */
  function Snapshot(s: State, t: nat, job: Job, i: nat): State
    requires i < |s.shards|
  {
    var sh := s.shards[i];
    Goto(SetShard(s, i, sh.(drain := sh.drain || job.DrainJob?)), t,
         Sweeping(job, i, if job.All() then sh.all else sh.idle))
  }

  /** closeConns returns, and its caller moves on to the next shard. */
  function Swept(s: State, t: nat, job: Job, i: nat): State {
    Goto(s, t, JobAt(job, i + 1)).(
      swept := if job.DrainJob? then s.swept + {i} else s.swept,
      sweptAll := if job.All() then s.sweptAll + {i} else s.sweptAll)
  }

  /** What goroutine t does next, given its choice; None if it has to wait. */
  function Step(s: State, t: nat, op: Op): Option<State>
    requires s.shards != []
  {
    match At(s, t)
    case Ready => StepReady(s, t, op)
    case Accepted(c) =>
      if op != Go || c >= |s.conns| then None
      else
        var i := Home(s, c);
        Some(Goto(SetConn(SetShard(s, i, s.shards[i].(wg := s.shards[i].wg + 1)), c, s.conns[c].(added := true)), t, Tracking(c)))
    case Tracking(c) =>
      if op != Go || c >= |s.conns| then None
      else
        var i := Home(s, c);
        if s.shards[i].drain then Some(Goto(s, t, Rejected(c)))
        else Some(Goto(SetConn(SetShard(s, i, Tracked(s.shards[i], c)), c, s.conns[c].(shared := true, owner := None)), t, Ready))
    case Rejected(c) =>
      if op != Go || c >= |s.conns| then None else Some(Enter(s, t, c, OnClose(s.conns[c].f), User))
    case Deferred(c) =>
      if op != Go then None else Call(s, t, c, OnMarkIdle(FlagsOf(s, c)))
    case Holding(c, todo, k) =>
      if op != Go || c >= |s.conns| then None else Some(Proceed(s, t, c, todo, k))
    case JobAt(job, i) =>
      if op != Go then None
      else if i < |s.shards| then Some(Snapshot(s, t, job, i))
      else Some(Goto(s, t, if job.DrainJob? then Waiting(job.all, 0) else Ready))
    case Sweeping(job, i, left) =>
      if op == Go && left == {} then Some(Swept(s, t, job, i))
      else if op.Take? && op.c in left && Free(s, op.c) then
        var f := s.conns[op.c].f;
        Some(Enter(s, t, op.c, if job.All() then OnClose(f) else OnCloseIfIdle(f), Back(job, i, left - {op.c})))
      else None
    case Waiting(all, i) =>
      if op != Go then None
      else if i >= |s.shards| then Some(Goto(s, t, Ready).(drained := true))
      else if s.shards[i].wg == 0 then Some(Goto(s, t, Waiting(all, i + 1)))
      else None
  }

  function StepReady(s: State, t: nat, op: Op): Option<State> {
    match op
    case Accept =>
      var x := Conn(Flags(false, false, false), false, false, false, false, Some(t));
      Some(Goto(s.(conns := s.conns + [x]), t, Accepted(|s.conns|)))
    case Read(c, ok) => Call(s, t, c, OnRead(s.mode, FlagsOf(s, c), ok))
    case Close(c) => Call(s, t, c, OnClose(FlagsOf(s, c)))
    case SetReadDeadline(c) =>
      if !Free(s, c) then None
      else Some(Goto(s, t, if !s.conns[c].f.disowned && s.mode == Deadline then Deferred(c) else Ready))
    case MarkIdle(c) => Call(s, t, c, OnMarkIdle(FlagsOf(s, c)))
    case MarkInUse(c) => Call(s, t, c, OnMarkInUse(FlagsOf(s, c)))
    case Disown(c) => Call(s, t, c, OnDisown(FlagsOf(s, c)))
    case CloseIdle => Some(Goto(s, t, JobAt(IdleJob, 0)))
    case Drain(all) => Some(Goto(s, t, JobAt(DrainJob(all), 0)))
    case Take(_) => None
    case Go => None
  }

  ghost predicate Init(s: State) {
    && s.shards != [] && s.conns == [] && s.threads == map[]
    && (forall i | 0 <= i < |s.shards| :: s.shards[i] == Shard({}, {}, 0, false))
    && s.swept == s.sweptAll == {} && !s.drained
  }

  // ----- invariant: connections, locks and sets -----

  /** The connection a goroutine is constructing or has locked. */
  function Owns(pc: PC): Option<nat> {
    match pc
    case Accepted(c) => Some(c)
    case Tracking(c) => Some(c)
    case Rejected(c) => Some(c)
    case Holding(c, _, _) => Some(c)
    case _ => None
  }

  predicate InAll(s: State, c: nat)
    requires s.shards != []
  {
    c in s.shards[Home(s, c)].all
  }

  predicate InIdle(s: State, c: nat)
    requires s.shards != []
  {
    c in s.shards[Home(s, c)].idle
  }

  /** Live: neither closed nor disowned. */
  predicate Live(f: Flags) {
    !f.closed && !f.disowned
  }

  /** Outside critical sections: the sets say exactly what the flags say. */
  ghost predicate Settled(x: Conn, inAll: bool, inIdle: bool) {
    && x.added && x.shared
    && x.closeDone == x.f.closed && x.disownDone == x.f.disowned
    && (inAll <==> Live(x.f))
    && (inAll ==> (inIdle <==> !x.f.busy))
  }

  /** Inside one, by what is left to do. */
  ghost predicate Underway(x: Conn, todo: Todo, inAll: bool, inIdle: bool) {
    && x.added
    && match todo
       case TellInUse => x.shared && x.f == Flags(true, false, false) && inAll && !x.closeDone && !x.disownDone
       case TellIdle =>
         && x.shared && !x.f.busy && (inAll <==> Live(x.f))
         && x.closeDone == x.f.closed && x.disownDone == x.f.disowned
       case Untrack => x.f.closed && !x.f.disowned && !x.closeDone && !x.disownDone && (inIdle ==> inAll)
       case Done => x.f.closed && !x.f.disowned && !x.closeDone && !x.disownDone && !inAll && !inIdle
       case HandOff => x.shared && !x.f.disowned && !x.disownDone && x.closeDone == x.f.closed && (inAll <==> !x.f.closed)
       case HandedOff => x.shared && !x.f.disowned && !x.disownDone && x.closeDone == x.f.closed && !inAll && !inIdle
  }

  ghost predicate ConnOk(s: State, c: nat)
    requires s.shards != [] && c < |s.conns|
  {
    var x, inAll, inIdle := s.conns[c], InAll(s, c), InIdle(s, c);
    match x.owner
    case None => Settled(x, inAll, inIdle) || (!x.shared && x.f.closed && x.closeDone && x.added && !x.f.disowned && !x.disownDone && !inAll)
    case Some(t) =>
      match At(s, t)
      case Accepted(d) => c == d && !x.added && Unborn(x, inAll, inIdle)
      case Tracking(d) => c == d && x.added && Unborn(x, inAll, inIdle)
      case Rejected(d) => c == d && x.added && Unborn(x, inAll, inIdle) && s.shards[Home(s, c)].drain
      case Holding(d, todo, _) => c == d && Underway(x, todo, inAll, inIdle)
      case _ => false
  }

  ghost predicate Unborn(x: Conn, inAll: bool, inIdle: bool) {
    x.f == Flags(false, false, false) && !x.shared && !x.closeDone && !x.disownDone && !inAll && !inIdle
  }

  ghost predicate ThreadOk(s: State, t: nat) {
    var own := Owns(At(s, t));
    own.Some? ==> own.value < |s.conns| && s.conns[own.value].owner == Some(t)
  }

  predicate Holds(sh: Shard, c: nat) {
    c in sh.all || c in sh.idle
  }

  /** The sets only hold connections that belong to the shard. */
  ghost predicate SetsOk(s: State) {
    && s.shards != []
    && forall i: nat, c: nat {:trigger Holds(s.shards[i], c)} | i < |s.shards| && Holds(s.shards[i], c) :: c < |s.conns| && Home(s, c) == i
  }

  ghost predicate Core(s: State) {
    && SetsOk(s)
    && (forall c: nat | c < |s.conns| :: ConnOk(s, c))
    && (forall t :: ThreadOk(s, t))
  }

  // ----- the invariant is kept -----

  /** The step of t changed nothing but t itself and connection c, its membership in
      the shards' sets, and counters and drain flags. */
  ghost predicate Touches(s: State, s': State, t: nat, c: nat) {
    && s.shards != [] && |s'.shards| == |s.shards| && |s.conns| <= |s'.conns| && |s'.conns| <= |s.conns| + 1
    && (c < |s.conns| || |s'.conns| == |s.conns| || c == |s.conns|)
    && (|s'.conns| > |s.conns| ==> c == |s.conns|)
    && (forall d: nat | d < |s.conns| && d != c :: s'.conns[d] == s.conns[d])
    && (forall u | u != t :: At(s', u) == At(s, u))
    && (forall i: nat | i < |s.shards| :: SameButFor(s.shards[i], s'.shards[i], c))
  }

  ghost predicate SameButFor(a: Shard, b: Shard, c: nat) {
    && (forall d: nat | d != c :: (d in a.all <==> d in b.all) && (d in a.idle <==> d in b.idle))
    && (a.drain ==> b.drain)
  }

  /** t owns c, or nobody does and t owns nothing. */
  ghost predicate MayTouch(s: State, t: nat, c: nat) {
    || Owns(At(s, t)) == Some(c)
    || (Owns(At(s, t)) == None && (c < |s.conns| ==> s.conns[c].owner == None))
  }

  lemma OtherConns(s: State, s': State, t: nat, c: nat, d: nat)
    requires Core(s) && Touches(s, s', t, c) && MayTouch(s, t, c) && d != c && d < |s.conns|
    ensures ConnOk(s', d)
  {
    hide ShardOf, Underway, Settled, Unborn;
    assert ConnOk(s, d);
    var i := Home(s, d);
    assert SameButFor(s.shards[i], s'.shards[i], c);
    assert s.conns[d].owner != Some(t);
  }

  lemma OtherThreads(s: State, s': State, t: nat, c: nat, u: nat)
    requires Core(s) && Touches(s, s', t, c) && MayTouch(s, t, c) && u != t
    ensures ThreadOk(s', u)
  {
    assert ThreadOk(s, u) && ThreadOk(s, t);
  }

  lemma OtherSets(s: State, s': State, t: nat, c: nat)
    requires Core(s) && Touches(s, s', t, c)
    requires forall i: nat | i < |s'.shards| && Holds(s'.shards[i], c) :: c < |s'.conns| && Home(s, c) == i
    ensures SetsOk(s')
  {
    hide ShardOf;
    forall i: nat, d: nat | i < |s'.shards| && Holds(s'.shards[i], d)
      ensures d < |s'.conns| && Home(s', d) == i
    {
      if d != c {
        assert SameButFor(s.shards[i], s'.shards[i], c);
        assert Holds(s.shards[i], d);
        assert d < |s.conns| && Home(s, d) == i;
        assert Home(s', d) == Home(s, d);
      } else {
        assert Holds(s'.shards[i], c);
        assert Home(s', d) == Home(s, d);
      }
    }
  }

  lemma CoreFromParts(s: State, s': State, t: nat, c: nat)
    requires Core(s) && Touches(s, s', t, c) && MayTouch(s, t, c)
    requires forall i: nat | i < |s'.shards| && Holds(s'.shards[i], c) :: c < |s'.conns| && Home(s, c) == i
    requires ThreadOk(s', t) && (c < |s'.conns| ==> ConnOk(s', c))
    ensures Core(s')
  {
    hide ConnOk, ThreadOk, Touches, MayTouch, Home;
    OtherSets(s, s', t, c);
    forall d: nat | d < |s'.conns|
      ensures ConnOk(s', d)
    {
      if d != c {
        SizeOf(s, s', t, c, d);
        OtherConns(s, s', t, c, d);
      }
    }
    forall u
      ensures ThreadOk(s', u)
    {
      if u != t {
        OtherThreads(s, s', t, c, u);
      }
    }
  }

  lemma SizeOf(s: State, s': State, t: nat, c: nat, d: nat)
    requires Touches(s, s', t, c) && d < |s'.conns| && d != c
    ensures d < |s.conns|
  {}

  lemma EnterTouches(s: State, t: nat, c: nat, r: (Flags, Option<Todo>), k: Cont)
    requires s.shards != [] && c < |s.conns|
    ensures Touches(s, Enter(s, t, c, r, k), t, c)
  {
    assert forall i: nat | i < |s.shards| :: SameButFor(s.shards[i], s.shards[i], c);
  }

  lemma SetShardTouches(s: State, t: nat, c: nat, i: nat, sh: Shard, x: Conn, pc: PC)
    requires c < |s.conns| && i < |s.shards| && SameButFor(s.shards[i], sh, c)
    ensures Touches(s, Goto(SetConn(SetShard(s, i, sh), c, x), t, pc), t, c)
  {}

  lemma SetConnTouches(s: State, t: nat, c: nat, x: Conn, pc: PC)
    requires s.shards != [] && c < |s.conns|
    ensures Touches(s, Goto(SetConn(s, c, x), t, pc), t, c)
  {
    assert forall i: nat | i < |s.shards| :: SameButFor(s.shards[i], s.shards[i], c);
  }

  lemma ProceedTouches(s: State, t: nat, c: nat, todo: Todo, k: Cont)
    requires s.shards != [] && c < |s.conns|
    ensures Touches(s, Proceed(s, t, c, todo, k), t, c)
  {
    hide Touches, Resume;
    var i := Home(s, c);
    var sh, x, s' := s.shards[i], s.conns[c], Proceed(s, t, c, todo, k);
    if todo == TellIdle && sh.drain {
      SetConnTouches(s, t, c, s'.conns[c], At(s', t));
    } else {
      assert s.conns[c := x] == s.conns;
      SetShardTouches(s, t, c, i, s'.shards[i], s'.conns[c], At(s', t));
    }
  }

  lemma HeldAtHome(s: State, i: nat, c: nat)
    requires SetsOk(s) && i < |s.shards|
    ensures Holds(s.shards[i], c) ==> c < |s.conns| && Home(s, c) == i
  {}

  /** Moving a goroutine that owns nothing, or only history, keeps the rest. */
  lemma GotoCore(s: State, t: nat, pc: PC, s': State)
    requires Core(s) && Owns(At(s, t)) == None && Owns(pc) == None
    requires s'.shards == s.shards && s'.conns == s.conns && s'.threads == s.threads[t := pc]
    ensures Core(s')
  {
    hide ShardOf, Settled, Underway, Unborn;
    var c := |s.conns|;
    assert forall i: nat | i < |s.shards| :: SameButFor(s.shards[i], s.shards[i], c);
    assert Touches(s, s', t, c);
    forall i: nat | i < |s'.shards|
      ensures !Holds(s'.shards[i], c)
    {
      HeldAtHome(s, i, c);
    }
    CoreFromParts(s, s', t, c);
  }

  /** Every operation leaves the connection as its next step expects it. */
  lemma OperationsStartWell(mode: Mode, x: Conn, t: nat, ok: bool, inAll: bool, inIdle: bool)
    requires Settled(x, inAll, inIdle)
    ensures forall r | r in [OnRead(mode, x.f, ok), OnClose(x.f), OnMarkIdle(x.f), OnMarkInUse(x.f), OnCloseIfIdle(x.f), OnDisown(x.f)]
              && r.1.Some? :: Underway(x.(f := r.0, owner := Some(t)), r.1.value, inAll, inIdle)
  {}

  lemma EnterCore(s: State, t: nat, c: nat, r: (Flags, Option<Todo>), k: Cont)
    requires Core(s) && c < |s.conns| && MayTouch(s, t, c)
    requires r.1.Some? ==> Underway(s.conns[c].(f := r.0, owner := Some(t)), r.1.value, InAll(s, c), InIdle(s, c))
    requires r.1.None? ==> Owns(At(s, t)) == None
    ensures Core(Enter(s, t, c, r, k))
  {
    hide ShardOf, Settled, Underway, Unborn;
    var s' := Enter(s, t, c, r, k);
    if r.1.None? {
      GotoCore(s, t, Resume(k), s');
    } else {
      EnterTouches(s, t, c, r, k);
      CoreFromParts(s, s', t, c);
    }
  }

  lemma CallCore(s: State, t: nat, c: nat, r: (Flags, Option<Todo>), k: Cont, ok: bool)
    requires Core(s) && Free(s, c) && Owns(At(s, t)) == None
    requires var f := s.conns[c].f;
             r in [OnRead(s.mode, f, ok), OnClose(f), OnMarkIdle(f), OnMarkInUse(f), OnCloseIfIdle(f), OnDisown(f)]
    ensures Core(Enter(s, t, c, r, k))
  {
    hide ShardOf, Underway, Unborn, OnRead, OnClose, OnMarkIdle, OnMarkInUse, OnCloseIfIdle, OnDisown;
    assert ConnOk(s, c);
    OperationsStartWell(s.mode, s.conns[c], t, ok, InAll(s, c), InIdle(s, c));
    EnterCore(s, t, c, r, k);
  }

  lemma ProceedCore(s: State, t: nat, c: nat, todo: Todo, k: Cont)
    requires Core(s) && At(s, t) == Holding(c, todo, k)
    ensures c < |s.conns| && Core(Proceed(s, t, c, todo, k))
  {
    hide ShardOf, Touches;
    assert ThreadOk(s, t);
    assert ConnOk(s, c);
    var s' := Proceed(s, t, c, todo, k);
    ProceedTouches(s, t, c, todo, k);
    ProceedSets(s, t, c, todo, k);
    assert ConnOk(s', c) by {
      ProceedConn(s, t, c, todo, k);
    }
    CoreFromParts(s, s', t, c) by {
      hide ConnOk;
    }
  }

  lemma ProceedSets(s: State, t: nat, c: nat, todo: Todo, k: Cont)
    requires Core(s) && At(s, t) == Holding(c, todo, k) && c < |s.conns|
    ensures var s' := Proceed(s, t, c, todo, k);
            forall i: nat | i < |s'.shards| && Holds(s'.shards[i], c) :: c < |s'.conns| && Home(s, c) == i
  {
    hide ShardOf, ConnOk, ThreadOk;
    var s' := Proceed(s, t, c, todo, k);
    forall i: nat | i < |s'.shards| && Holds(s'.shards[i], c)
      ensures c < |s'.conns| && Home(s, c) == i
    {
      HeldAtHome(s, i, c);
    }
  }

  lemma ProceedConn(s: State, t: nat, c: nat, todo: Todo, k: Cont)
    requires Core(s) && At(s, t) == Holding(c, todo, k) && c < |s.conns| && ConnOk(s, c) && s.conns[c].owner == Some(t)
    ensures ConnOk(Proceed(s, t, c, todo, k), c)
  {
    hide ShardOf, Core;
  }

  lemma AcceptCore(s: State, t: nat)
    requires Core(s) && At(s, t) == Ready
    ensures Core(StepReady(s, t, Accept).value)
  {
    hide ShardOf, Settled, Underway;
    var c := |s.conns|;
    var s' := StepReady(s, t, Accept).value;
    assert forall i: nat | i < |s.shards| :: SameButFor(s.shards[i], s.shards[i], c);
    assert Touches(s, s', t, c);
    assert !InAll(s, c) && !InIdle(s, c) by {
      HeldAtHome(s, Home(s, c), c);
    }
    forall i: nat | i < |s'.shards|
      ensures !Holds(s'.shards[i], c)
    {
      HeldAtHome(s, i, c);
    }
    CoreFromParts(s, s', t, c);
  }

  lemma AcceptedCore(s: State, t: nat, c: nat, s': State)
    requires Core(s) && At(s, t) == Accepted(c) && Step(s, t, Go) == Some(s')
    ensures Core(s')
  {
    hide ShardOf, Touches, Settled, Underway;
    assert ThreadOk(s, t);
    assert ConnOk(s, c);
    var i := Home(s, c);
    SetShardTouches(s, t, c, i, s'.shards[i], s'.conns[c], Tracking(c));
    OnlyHome(s, s', c, i);
    CoreFromParts(s, s', t, c);
  }

  lemma TrackingCore(s: State, t: nat, c: nat, s': State)
    requires Core(s) && At(s, t) == Tracking(c) && Step(s, t, Go) == Some(s')
    ensures Core(s')
  {
    hide ShardOf, Touches, Underway;
    assert ThreadOk(s, t);
    assert ConnOk(s, c);
    var i := Home(s, c);
    if s.shards[i].drain {
      assert s.conns[c := s.conns[c]] == s.conns;
      SetConnTouches(s, t, c, s.conns[c], Rejected(c));
    } else {
      SetShardTouches(s, t, c, i, s'.shards[i], s'.conns[c], Ready);
    }
    OnlyHome(s, s', c, i);
    CoreFromParts(s, s', t, c);
  }

  /** A step that changes no shard but the home of c puts c nowhere else. */
  lemma OnlyHome(s: State, s': State, c: nat, i: nat)
    requires Core(s) && c < |s.conns| && |s'.conns| == |s.conns| && |s'.shards| == |s.shards| && i == Home(s, c)
    requires forall j: nat | j < |s.shards| && j != i :: s'.shards[j] == s.shards[j]
    ensures forall j: nat | j < |s'.shards| && Holds(s'.shards[j], c) :: c < |s'.conns| && Home(s, c) == j
  {
    hide ShardOf, ConnOk, ThreadOk;
    forall j: nat | j < |s'.shards| && Holds(s'.shards[j], c)
      ensures c < |s'.conns| && Home(s, c) == j
    {
      HeldAtHome(s, j, c);
    }
  }

  lemma RejectedCore(s: State, t: nat, c: nat)
    requires Core(s) && At(s, t) == Rejected(c)
    ensures c < |s.conns| && Core(Enter(s, t, c, OnClose(s.conns[c].f), User))
  {
    hide ShardOf, Touches, Settled;
    assert ThreadOk(s, t);
    assert ConnOk(s, c);
    EnterCore(s, t, c, OnClose(s.conns[c].f), User);
  }

  lemma SnapshotCore(s: State, t: nat, job: Job, i: nat)
    requires Core(s) && At(s, t) == JobAt(job, i) && i < |s.shards|
    ensures Core(Snapshot(s, t, job, i))
  {
    hide ShardOf, Settled, Underway, Unborn;
    var c := |s.conns|;
    var s' := Snapshot(s, t, job, i);
    assert forall j: nat | j < |s.shards| :: SameButFor(s.shards[j], s'.shards[j], c);
    assert Touches(s, s', t, c);
    forall j: nat | j < |s'.shards|
      ensures !Holds(s'.shards[j], c)
    {
      HeldAtHome(s, j, c);
    }
    CoreFromParts(s, s', t, c);
  }

  lemma ReadyCore(s: State, t: nat, op: Op, s': State)
    requires Core(s) && At(s, t) == Ready && StepReady(s, t, op) == Some(s')
    ensures Core(s')
  {
    hide Core, Enter, OnRead, OnClose, OnMarkIdle, OnMarkInUse, OnDisown;
    match op {
      case Accept => AcceptCore(s, t);
      case Read(c, ok) => CallCore(s, t, c, OnRead(s.mode, s.conns[c].f, ok), User, ok);
      case Close(c) => CallCore(s, t, c, OnClose(s.conns[c].f), User, true);
      case SetReadDeadline(c) => GotoCore(s, t, At(s', t), s');
      case MarkIdle(c) => CallCore(s, t, c, OnMarkIdle(s.conns[c].f), User, true);
      case MarkInUse(c) => CallCore(s, t, c, OnMarkInUse(s.conns[c].f), User, true);
      case Disown(c) => CallCore(s, t, c, OnDisown(s.conns[c].f), User, true);
      case CloseIdle => GotoCore(s, t, At(s', t), s');
      case Drain(all) => GotoCore(s, t, At(s', t), s');
      case _ =>
    }
  }

  /** Every step of every goroutine keeps the sets, the locks and the flags in
      agreement. */
  lemma CoreKept(s: State, t: nat, op: Op, s': State)
    requires Core(s) && Step(s, t, op) == Some(s')
    ensures Core(s')
  {
    hide Core, Enter, Proceed, Snapshot, StepReady, OnClose, OnMarkIdle, OnCloseIfIdle;
    match At(s, t) {
      case Ready => ReadyCore(s, t, op, s');
      case Accepted(c) => AcceptedCore(s, t, c, s');
      case Tracking(c) => TrackingCore(s, t, c, s');
      case Rejected(c) => RejectedCore(s, t, c);
      case Deferred(c) => CallCore(s, t, c, OnMarkIdle(s.conns[c].f), User, true);
      case Holding(c, todo, k) => ProceedCore(s, t, c, todo, k);
      case JobAt(job, i) =>
        if i < |s.shards| {
          SnapshotCore(s, t, job, i);
        } else {
          GotoCore(s, t, At(s', t), s');
        }
      case Sweeping(job, i, left) =>
        if op.Take? {
          var f := s.conns[op.c].f;
          CallCore(s, t, op.c, if job.All() then OnClose(f) else OnCloseIfIdle(f), Back(job, i, left - {op.c}), true);
        } else {
          GotoCore(s, t, JobAt(job, i + 1), s');
        }
      case Waiting(all, i) => GotoCore(s, t, At(s', t), s');
    }
  }

  lemma CoreInitially(s: State)
    requires Init(s)
    ensures Core(s)
  {}

  // ----- critical sections that are not interrupted -----

  /** The steps of goroutine t alone until it has unlocked c. */
  function Finish(s: State, t: nat, fuel: nat): State
    requires s.shards != []
    decreases fuel
  {
    match At(s, t)
    case Holding(c, todo, k) =>
      if fuel == 0 || c >= |s.conns| then s
      else
        var s' := Proceed(s, t, c, todo, k);
        if s'.shards == [] then s' else Finish(s', t, fuel - 1)
    case _ => s
  }

  lemma FinishStep(s: State, t: nat, fuel: nat, c: nat, todo: Todo, k: Cont)
    requires s.shards != [] && c < |s.conns| && At(s, t) == Holding(c, todo, k) && Proceed(s, t, c, todo, k).shards != []
    ensures Finish(s, t, fuel + 1) == Finish(Proceed(s, t, c, todo, k), t, fuel)
  {}

  lemma FinishDone(s: State, t: nat, fuel: nat)
    requires s.shards != [] && !At(s, t).Holding?
    ensures Finish(s, t, fuel) == s
  {}

  /** t has unlocked c, leaving it and its shard like this. */
  ghost predicate Ended(s: State, t: nat, c: nat, i: nat, fsh: (Flags, Shard), k: Cont) {
    && c < |s.conns| && i < |s.shards| && s.shards[i] == fsh.1
    && s.conns[c].f == fsh.0 && s.conns[c].owner == None && At(s, t) == Resume(k)
  }

  lemma FinishLast(s: State, t: nat, c: nat, todo: Todo, k: Cont, fuel: nat)
    requires s.shards != [] && c < |s.conns| && At(s, t) == Holding(c, todo, k) && fuel > 0
    requires todo == TellInUse || todo == Done || todo == HandedOff || (todo == TellIdle && (!s.shards[Home(s, c)].drain || !Live(s.conns[c].f)))
    ensures Ended(Finish(s, t, fuel), t, c, Home(s, c), Section(s.conns[c].f, s.shards[Home(s, c)], c, (s.conns[c].f, Some(todo))), k)
  {
    hide ShardOf, Finish;
    var s' := Proceed(s, t, c, todo, k);
    FinishStep(s, t, fuel - 1, c, todo, k);
    FinishDone(s', t, fuel - 1);
  }

  lemma FinishTwo(s: State, t: nat, c: nat, todo: Todo, k: Cont, fuel: nat)
    requires s.shards != [] && c < |s.conns| && At(s, t) == Holding(c, todo, k) && fuel > 1
    requires todo == Untrack || todo == HandOff
    ensures Ended(Finish(s, t, fuel), t, c, Home(s, c), Section(s.conns[c].f, s.shards[Home(s, c)], c, (s.conns[c].f, Some(todo))), k)
  {
    hide ShardOf, Finish, Resume;
    var s' := Proceed(s, t, c, todo, k);
    FinishStep(s, t, fuel - 1, c, todo, k);
    FinishLast(s', t, c, if todo == Untrack then Done else HandedOff, k, fuel - 1);
  }

  lemma FinishClosing(s: State, t: nat, c: nat, k: Cont, fuel: nat)
    requires s.shards != [] && c < |s.conns| && At(s, t) == Holding(c, TellIdle, k) && fuel > 2
    requires s.shards[Home(s, c)].drain && Live(s.conns[c].f)
    ensures Ended(Finish(s, t, fuel), t, c, Home(s, c), Section(s.conns[c].f, s.shards[Home(s, c)], c, (s.conns[c].f, Some(TellIdle))), k)
  {
    hide ShardOf, Finish, Resume;
    var s' := Proceed(s, t, c, TellIdle, k);
    FinishStep(s, t, fuel - 1, c, TellIdle, k);
    FinishTwo(s', t, c, Untrack, k, fuel - 1);
  }

  /** An operation whose critical section is not interrupted leaves the connection
      and its shard as `Section` says, and unlocked. */
  lemma UninterruptedSection(s: State, t: nat, c: nat, r: (Flags, Option<Todo>), k: Cont)
    requires s.shards != [] && c < |s.conns| && s.conns[c].owner == None
    ensures Ended(Finish(Enter(s, t, c, r, k), t, 3), t, c, Home(s, c), Section(s.conns[c].f, s.shards[Home(s, c)], c, r), k)
  {
    hide ShardOf, Finish;
    var s1 := Enter(s, t, c, r, k);
    match r.1
    case None => FinishDone(s1, t, 3);
    case Some(todo) =>
      if todo == Untrack || todo == HandOff {
        FinishTwo(s1, t, c, todo, k, 3);
      } else if todo == TellIdle && s.shards[Home(s, c)].drain && Live(r.0) {
        FinishClosing(s1, t, c, k, 3);
      } else {
        FinishLast(s1, t, c, todo, k, 3);
      }
  }
}
