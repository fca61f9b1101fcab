/** The objects of graceful/listener, method by method, each as it runs when nobody
    interferes: conn.go, shard.go. What one critical section does is `Section` of the
    protocol in Draining.dfy, which also says what happens when others do interfere. */
module Listener {
  import opened Options
  import D = Draining

  datatype Error = NoError | ErrClosing | ErrAlreadyDisowned | FromNet

  class Shard {
    var idle: set<Conn>
    var all: set<Conn>
    var wg: int
    var drain: bool

    function View(): D.ShardOver<Conn>
      reads this
    {
      D.ShardOver.Shard(idle, all, wg, drain)
    }

    constructor ()
      ensures View() == D.ShardOver.Shard({}, {}, 0, false)
    {
      idle, all, wg, drain := {}, {}, 0, false;
    }

    /** shard.go:27-37 */
    method Track(c: Conn) returns (shouldClose: bool)
      modifies this
      ensures shouldClose == old(drain)
      ensures View() == if shouldClose then old(View()) else D.Tracked(old(View()), c)
      ensures all == old(all) + (if old(drain) then {} else {c}) && idle == old(idle) + (if old(drain) then {} else {c})
      ensures wg == old(wg) && drain == old(drain)
    {
      if drain {
        return true;
      }
      all := all + {c};
      idle := idle + {c};
      return false;
    }

    /** shard.go:39-44 */
    method Disown(c: Conn)
      modifies this
      ensures View() == D.Untracked(old(View()), c)
      ensures all == old(all) - {c} && idle == old(idle) - {c} && wg == old(wg) && drain == old(drain)
    {
      all := all - {c};
      idle := idle - {c};
    }

    /** shard.go:46-55 */
    method MarkIdle(c: Conn) returns (shouldClose: bool)
      modifies this
      ensures shouldClose == old(drain)
      ensures View() == if shouldClose then old(View()) else D.Idled(old(View()), c)
      ensures idle == old(idle) + (if old(drain) then {} else {c}) && all == old(all) && wg == old(wg) && drain == old(drain)
    {
      if drain {
        return true;
      }
      idle := idle + {c};
      return false;
    }

    /** shard.go:57-61 */
    method MarkInUse(c: Conn)
      modifies this
      ensures View() == D.InUsed(old(View()), c)
      ensures idle == old(idle) - {c} && all == old(all) && wg == old(wg) && drain == old(drain)
    {
      idle := idle - {c};
    }

    /** The connections in the sets are this shard's. */
    ghost predicate Valid()
      reads this, all, idle
    {
      forall c | c in all + idle :: c.shard == this
    }

    /** Between critical sections: tracked is live, and idle is not busy. */
    ghost predicate Exact()
      reads this, all, idle
    {
      && (forall c | c in all :: D.Live(c.F()))
      && (forall c | c in all :: c in idle <==> !c.busy)
    }

    /** The connections that closeConns goes through. */
    function Chosen(everything: bool): set<Conn>
      reads this
    {
      if everything then all else idle
    }

    /** Those of a set that closing, or closing if idle, will close. */
    function Doomed(everything: bool, s: set<Conn>): set<Conn>
      reads s
    {
      set c | c in s && Closing(everything, c.F()).1 == Some(D.Untrack)
    }

    /** shard.go:63-94. Every connection of the snapshot goes through Close or
        closeIfIdle, the wrapped connection included; nothing else is touched. If the
        sets were exact, then afterwards nothing tracked is idle, and after closing all
        nothing is tracked. */
    method CloseConns(everything: bool, draining: bool)
      requires Valid()
      modifies this, all, idle
      ensures drain == (old(drain) || draining)
      ensures forall c | c in old(all + idle) :: c.Now() ==
                if c in old(Chosen(everything)) then AfterClosing(everything, old(c.Now())) else old(c.Now())
      ensures var doomed := old(Doomed(everything, Chosen(everything)));
              all == old(all) - doomed && idle == old(idle) - doomed && wg == old(wg) - |doomed|
      ensures old(Exact()) ==> Exact() && (forall c | c in all :: c.busy) && (everything ==> all == {})
    {
      if draining {
        drain := true;
      }
      var snapshot := Chosen(everything);
      ghost var before := map c | c in snapshot :: c.Now();
      label Copied:
      hide Closing, AfterClosing, Conn.Now, Exact, Doomed, DoomedIn, D.Live;
      assert DoomedIn(everything, before) == old(Doomed(everything, Chosen(everything))) by {
        SameDoomed(everything, snapshot, before);
      }
      Sweep(everything, snapshot, before);
      if old(Exact()) {
        NothingMissed@Copied(everything);
      }
    }

    lemma SameDoomed(everything: bool, snapshot: set<Conn>, before: map<Conn, (D.Flags, bool)>)
      requires before.Keys == snapshot && forall c | c in snapshot :: c.Now() == before[c]
      ensures DoomedIn(everything, before) == Doomed(everything, snapshot)
    {}

    /** Closing what was chosen, and dropping what that closed, leaves exact sets. */
    twostate lemma NothingMissed(everything: bool)
      requires old(Valid() && Exact())
      requires forall c | c in old(all + idle) :: c.Now() ==
                 if c in old(Chosen(everything)) then AfterClosing(everything, old(c.Now())) else old(c.Now())
      requires var doomed := old(Doomed(everything, Chosen(everything))); all == old(all) - doomed && idle == old(idle) - doomed
      ensures Exact() && (forall c | c in all :: c.busy) && (everything ==> all == {})
    {
      forall c | c in all
        ensures c.busy && !everything && D.Live(c.F()) && c !in idle
      {
        assert c in old(all) && D.Live(old(c.F()));
        assert c !in old(Doomed(everything, Chosen(everything)));
      }
    }

    /** The connections of the snapshot, those not in `left` closed by now. */
    ghost predicate Halfway(everything: bool, snapshot: set<Conn>, left: set<Conn>, before: map<Conn, (D.Flags, bool)>)
      reads snapshot
    {
      && left <= snapshot && before.Keys == snapshot
      && forall c | c in snapshot :: c.Now() == if c in left then before[c] else AfterClosing(everything, before[c])
    }

    /** The loop of closeConns, lines 83-93, from the connections as they were `before`. */
    method Sweep(everything: bool, snapshot: set<Conn>, ghost before: map<Conn, (D.Flags, bool)>)
      requires Valid() && snapshot <= all + idle
      requires before.Keys == snapshot && forall c | c in snapshot :: c.Now() == before[c]
      modifies this, snapshot
      ensures forall c | c in snapshot :: c.Now() == AfterClosing(everything, before[c])
      ensures View() == Removed(old(View()), DoomedIn(everything, before))
    {
      hide Closing, View, Removed, AfterClosing, Conn.Now;
      var left := snapshot;
      assert DoomedIn(everything, before) - left == {};
      RemoveNone(View());
      while left != {}
        invariant Halfway(everything, snapshot, left, before)
        invariant View() == Removed(old(View()), DoomedIn(everything, before) - left)
        decreases |left|
      {
        var c :| c in left;
        CloseOne(everything, c, snapshot, left, before, old(View()));
        left := left - {c};
      }
      assert DoomedIn(everything, before) - {} == DoomedIn(everything, before);
    }

    /** One turn of it. */
    method CloseOne(everything: bool, c: Conn, ghost snapshot: set<Conn>, ghost left: set<Conn>,
                    ghost before: map<Conn, (D.Flags, bool)>, ghost start: D.ShardOver<Conn>)
      requires c in left && c.shard == this
      requires Halfway(everything, snapshot, left, before)
      requires View() == Removed(start, DoomedIn(everything, before) - left)
      modifies this, c
      ensures c.Now() == AfterClosing(everything, old(c.Now()))
      ensures Halfway(everything, snapshot, left - {c}, before)
      ensures View() == Removed(start, DoomedIn(everything, before) - (left - {c}))
    {
      hide Removed;
      OneLess(DoomedIn(everything, before), left, c);
      RemoveOneMore(start, DoomedIn(everything, before) - left, c);
      if everything {
        var _ := c.Close();
      } else {
        var _ := c.CloseIfIdle();
      }
    }
  }

  /** A shard that has lost these connections, and as many from its counter. */
  function Removed<K>(sh: D.ShardOver<K>, gone: set<K>): D.ShardOver<K> {
    sh.(all := sh.all - gone, idle := sh.idle - gone, wg := sh.wg - |gone|)
  }

  lemma RemoveNone<K>(sh: D.ShardOver<K>)
    ensures Removed(sh, {}) == sh
  {
    assert sh.all - {} == sh.all && sh.idle - {} == sh.idle;
  }

  lemma RemoveOneMore<K>(sh: D.ShardOver<K>, gone: set<K>, c: K)
    requires c !in gone
    ensures D.Released(D.Untracked(Removed(sh, gone), c)) == Removed(sh, gone + {c})
  {
    assert sh.all - (gone + {c}) == sh.all - gone - {c};
    assert sh.idle - (gone + {c}) == sh.idle - gone - {c};
  }

  function DoomedIn(everything: bool, before: map<Conn, (D.Flags, bool)>): set<Conn> {
    set c | c in before && Closing(everything, before[c].0).1 == Some(D.Untrack)
  }

  lemma OneLess<T>(doomed: set<T>, left: set<T>, c: T)
    requires c in left
    ensures doomed - (left - {c}) == if c in doomed then doomed - left + {c} else doomed - left
  {}

  /** How closeConns treats a connection. */
  function Closing(everything: bool, f: D.Flags): (D.Flags, Option<D.Todo>) {
    if everything then D.OnClose(f) else D.OnCloseIfIdle(f)
  }

  /** The flags afterwards, and whether the wrapped connection is closed: Close does
      so for a disowned connection too. */
  function AfterClosing(everything: bool, now: (D.Flags, bool)): (D.Flags, bool) {
    var (f, net) := now;
    (Closing(everything, f).0, net || if everything then f.disowned || !f.closed else D.Live(f) && !f.busy)
  }

  class Conn {
    const shard: Shard
    const mode: D.Mode
    var busy: bool
    var closed: bool
    var disowned: bool
    var netClosed: bool // the wrapped net.Conn has been closed

    function F(): D.Flags
      reads this
    {
      D.Flags(busy, closed, disowned)
    }

    /** The flags, and whether the wrapped connection has been closed. */
    function Now(): (D.Flags, bool)
      reads this
    {
      (F(), netClosed)
    }

    constructor (shard: Shard, mode: D.Mode)
      ensures this.shard == shard && this.mode == mode && F() == D.Flags(false, false, false) && !netClosed
    {
      this.shard, this.mode := shard, mode;
      busy, closed, disowned, netClosed := false, false, false, false;
    }

    /** conn.go:26-33. A connection accepted while draining is closed at once, and
        leaves the counter as it was. */
    method Init() returns (err: Error)
      requires F() == D.Flags(false, false, false)
      modifies this, shard
      ensures err == if old(shard.drain) then ErrClosing else NoError
      ensures F() == D.Flags(false, err == ErrClosing, false)
      ensures netClosed == (err == ErrClosing || old(netClosed))
      ensures shard.View() == if err == ErrClosing then D.Untracked(old(shard.View()), this)
                              else D.Tracked(old(shard.View()).(wg := old(shard.wg) + 1), this)
      ensures if err == ErrClosing then shard.all == old(shard.all) - {this} && shard.idle == old(shard.idle) - {this} && shard.wg == old(shard.wg)
              else shard.all == old(shard.all) + {this} && shard.idle == old(shard.idle) + {this} && shard.wg == old(shard.wg) + 1
    {
      shard.wg := shard.wg + 1;
      var shouldExit := shard.Track(this);
      if shouldExit {
        var _ := Close();
        return ErrClosing;
      }
      return NoError;
    }

    /** conn.go:35-62, given whether the wrapped Read returned data. */
    method Read(readOk: bool) returns (data: bool, err: Error)
      modifies this, shard
      ensures data == D.ReportsData(old(F()), readOk)
      ensures err == if data then NoError else if readOk then ErrClosing else FromNet
      ensures (F(), shard.View()) == D.Section(old(F()), old(shard.View()), this, D.OnRead(mode, old(F()), readOk))
      ensures data == (readOk && (old(disowned) || !old(closed)))
      ensures closed == old(closed) && disowned == old(disowned)
      ensures shard.all == old(shard.all) && shard.wg == old(shard.wg) && shard.drain == old(shard.drain)
      ensures if mode == D.Manual || old(busy || closed || disowned) then busy == old(busy) && shard.idle == old(shard.idle)
              else busy && shard.idle == old(shard.idle) - {this}
      ensures netClosed == old(netClosed)
    {
      data, err := readOk, if readOk then NoError else FromNet;
      if disowned {
        return;
      }
      if closed && err == NoError {
        return false, ErrClosing;
      }
      if mode != D.Manual && !busy && !closed {
        busy := true;
        shard.MarkInUse(this);
      }
    }

    /** conn.go:64-79. A disowned connection is still closed, but no longer counted. */
    method Close() returns (err: Error)
      modifies this, shard
      ensures err == if old(closed) && !old(disowned) then ErrClosing else FromNet
      ensures (F(), shard.View()) == D.Section(old(F()), old(shard.View()), this, D.OnClose(old(F())))
      ensures busy == old(busy) && disowned == old(disowned) && closed == (old(closed) || !old(disowned)) && shard.drain == old(shard.drain)
      ensures if old(closed || disowned) then shard.idle == old(shard.idle) && shard.all == old(shard.all) && shard.wg == old(shard.wg)
              else shard.idle == old(shard.idle) - {this} && shard.all == old(shard.all) - {this} && shard.wg == old(shard.wg) - 1
      ensures netClosed == (old(netClosed) || err == FromNet)
    {
      if disowned {
        netClosed := true;
        return FromNet;
      } else if closed {
        return ErrClosing;
      }
      closed := true;
      shard.Disown(this);
      netClosed := true;
      shard.wg := shard.wg - 1; // deferred
      return FromNet;
    }

    /** conn.go:81-88 */
    method SetReadDeadline()
      modifies this, shard
      ensures if !old(disowned) && mode == D.Deadline
              then (F(), shard.View()) == D.Section(old(F()), old(shard.View()), this, D.OnMarkIdle(old(F())))
              else (F(), shard.View()) == (old(F()), old(shard.View()))
      ensures netClosed == (old(netClosed) || (closed && !old(closed)))
    {
      if !disowned && mode == D.Deadline {
        MarkIdle();
      }
    }

    /** conn.go:94-110 */
    method MarkIdle()
      modifies this, shard
      ensures (F(), shard.View()) == D.Section(old(F()), old(shard.View()), this, D.OnMarkIdle(old(F())))
      ensures !busy && disowned == old(disowned) && shard.drain == old(shard.drain)
      ensures closed == (old(closed) || (old(busy) && old(shard.drain) && !old(disowned)))
      ensures closed && !old(closed) ==>
                shard.idle == old(shard.idle) - {this} && shard.all == old(shard.all) - {this} && shard.wg == old(shard.wg) - 1
      ensures closed == old(closed) ==> shard.all == old(shard.all) && shard.wg == old(shard.wg)
      ensures closed == old(closed) ==> shard.idle == old(shard.idle) + (if old(busy) && !old(shard.drain) then {this} else {})
      ensures netClosed == (old(netClosed) || (closed && !old(closed)))
    {
      if !busy {
        return;
      }
      busy := false;
      var exit := shard.MarkIdle(this);
      if exit && !closed && !disowned {
        closed := true;
        shard.Disown(this);
        netClosed := true;
        shard.wg := shard.wg - 1; // deferred
      }
    }

    /** conn.go:112-120 */
    method MarkInUse()
      modifies this, shard
      ensures (F(), shard.View()) == D.Section(old(F()), old(shard.View()), this, D.OnMarkInUse(old(F())))
      ensures closed == old(closed) && disowned == old(disowned)
      ensures shard.all == old(shard.all) && shard.wg == old(shard.wg) && shard.drain == old(shard.drain)
      ensures if old(busy || closed || disowned) then busy == old(busy) && shard.idle == old(shard.idle)
              else busy && shard.idle == old(shard.idle) - {this}
      ensures netClosed == old(netClosed)
    {
      if !busy && !closed && !disowned {
        busy := true;
        shard.MarkInUse(this);
      }
    }

    /** conn.go:122-134 */
    method CloseIfIdle() returns (err: Error)
      modifies this, shard
      ensures (F(), shard.View()) == D.Section(old(F()), old(shard.View()), this, D.OnCloseIfIdle(old(F())))
      ensures busy == old(busy) && disowned == old(disowned) && shard.drain == old(shard.drain)
      ensures closed == (old(closed) || !old(busy || disowned))
      ensures if closed == old(closed) then shard.idle == old(shard.idle) && shard.all == old(shard.all) && shard.wg == old(shard.wg)
              else shard.idle == old(shard.idle) - {this} && shard.all == old(shard.all) - {this} && shard.wg == old(shard.wg) - 1
      ensures netClosed == (old(netClosed) || (closed && !old(closed)))
    {
      if !busy && !closed && !disowned {
        closed := true;
        shard.Disown(this);
        netClosed := true;
        shard.wg := shard.wg - 1; // deferred
        return FromNet;
      }
      return NoError;
    }

    /** conn.go:138-151 */
    method Disown() returns (err: Error)
      modifies this, shard
      ensures err == if old(disowned) then ErrAlreadyDisowned else NoError
      ensures (F(), shard.View()) == D.Section(old(F()), old(shard.View()), this, D.OnDisown(old(F())))
      ensures busy == old(busy) && closed == old(closed) && disowned && shard.drain == old(shard.drain)
      ensures if old(disowned) then shard.idle == old(shard.idle) && shard.all == old(shard.all) && shard.wg == old(shard.wg)
              else shard.idle == old(shard.idle) - {this} && shard.all == old(shard.all) - {this} && shard.wg == old(shard.wg) - 1
      ensures netClosed == old(netClosed)
    {
      if disowned {
        return ErrAlreadyDisowned;
      }
      shard.Disown(this);
      disowned := true;
      shard.wg := shard.wg - 1;
      return NoError;
    }
  }
}
