/** What the naive router does, for patterns of any kind, told by the calls of Match
    alone: which route it takes, what has been called by then, and what that has done
    to the context. */
module NaiveRouter {
  import opened Bytes
  import opened MethodSets
  import opened Routing

  /** The context after walking past the first j routes: Match is called on each whose
      prefix starts the path, or on each if the prefix does not count. */
  function ContextAt<C>(routes: seq<Route>, rq: Request<C>, ctx: C, byPrefix: bool, j: nat): C
    requires j <= |routes|
  {
    if j == 0 then ctx
    else
      var c := ContextAt(routes, rq, ctx, byPrefix, j - 1);
      if byPrefix && !(routes[j - 1].prefix <= rq.path) then c else rq.matches(routes[j - 1].pattern, c).1
  }

  /** The routes of the list that are called at all. */
  function Called(routes: seq<Route>, path: Str, byPrefix: bool): seq<Route> {
    if byPrefix then Plausible(routes, path) else routes
  }

  /** Seen from the second route on, the walk starts in the context the first left. */
  lemma {:induction false} ContextFromSecond<C>(routes: seq<Route>, rq: Request<C>, ctx: C, byPrefix: bool, j: nat)
    requires 0 < j <= |routes|
    ensures ContextAt(routes, rq, ctx, byPrefix, j) == ContextAt(routes[1..], rq, ContextAt(routes, rq, ctx, byPrefix, 1), byPrefix, j - 1)
  {
    if j > 1 {
      ContextFromSecond(routes, rq, ctx, byPrefix, j - 1);
      assert routes[1..][j - 2] == routes[j - 1];
    }
  }

  /** Match is called on route j, and succeeds. */
  predicate MatchesAt<C>(routes: seq<Route>, rq: Request<C>, ctx: C, byPrefix: bool, j: nat)
    requires j < |routes|
  {
    && (byPrefix ==> routes[j].prefix <= rq.path)
    && rq.matches(routes[j].pattern, ContextAt(routes, rq, ctx, byPrefix, j)).0
  }

  predicate TakesAt<C>(routes: seq<Route>, rq: Request<C>, ctx: C, byPrefix: bool, j: nat)
    requires j < |routes|
  {
    MatchesAt(routes, rq, ctx, byPrefix, j) && Shares(routes[j].methods, rq.m)
  }

  ghost predicate MatchingShares<C>(routes: seq<Route>, rq: Request<C>, ctx: C, byPrefix: bool, m: Methods) {
    exists j: nat :: j < |routes| && MatchesAt(routes, rq, ctx, byPrefix, j) && Shares(routes[j].methods, m)
  }

  /** Beyond the first route, everything is as on the rest of the list. */
  lemma Beyond<C>(routes: seq<Route>, rq: Request<C>, ctx: C, byPrefix: bool, j: nat)
    requires 0 < j < |routes|
    ensures var c := ContextAt(routes, rq, ctx, byPrefix, 1);
            && (MatchesAt(routes, rq, ctx, byPrefix, j) <==> MatchesAt(routes[1..], rq, c, byPrefix, j - 1))
            && (TakesAt(routes, rq, ctx, byPrefix, j) <==> TakesAt(routes[1..], rq, c, byPrefix, j - 1))
  {
    hide Shares, ContextAt;
    ContextFromSecond(routes, rq, ctx, byPrefix, j);
    assert routes[j] == routes[1..][j - 1];
  }

  lemma BeyondShares<C>(routes: seq<Route>, rq: Request<C>, ctx: C, byPrefix: bool, m: Methods)
    requires routes != []
    ensures var c := ContextAt(routes, rq, ctx, byPrefix, 1);
            MatchingShares(routes, rq, ctx, byPrefix, m) <==>
            (MatchesAt(routes, rq, ctx, byPrefix, 0) && Shares(routes[0].methods, m)) || MatchingShares(routes[1..], rq, c, byPrefix, m)
  {
    hide Shares, ContextAt, MatchesAt;
    var c, rest := ContextAt(routes, rq, ctx, byPrefix, 1), routes[1..];
    if j: nat :| j < |rest| && MatchesAt(rest, rq, c, byPrefix, j) && Shares(rest[j].methods, m) {
      Beyond(routes, rq, ctx, byPrefix, j + 1);
      assert MatchesAt(routes, rq, ctx, byPrefix, j + 1) && routes[j + 1] == rest[j];
    }
    if j: nat :| 0 < j < |routes| && MatchesAt(routes, rq, ctx, byPrefix, j) && Shares(routes[j].methods, m) {
      Beyond(routes, rq, ctx, byPrefix, j);
      assert MatchesAt(rest, rq, c, byPrefix, j - 1) && routes[j] == rest[j - 1];
    }
  }

  lemma CalledSplit(routes: seq<Route>, path: Str, byPrefix: bool, k: nat)
    requires 0 < k <= |routes|
    ensures Called(routes[..k], path, byPrefix) == Called(routes[..1], path, byPrefix) + Called(routes[1..][..k - 1], path, byPrefix)
  {
    assert routes[..k] == routes[..1] + routes[1..][..k - 1];
    PlausibleAppend(routes[..1], routes[1..][..k - 1], path);
  }

  ghost predicate Law<C>(routes: seq<Route>, rq: Request<C>, s: Progress<C>, byPrefix: bool, o: Outcome<C>, k: nat) {
    match o
    case Took(r, at) =>
      && k < |routes| && r == routes[k] && TakesAt(routes, rq, s.ctx, byPrefix, k)
      && (forall j: nat | j < k :: !TakesAt(routes, rq, s.ctx, byPrefix, j))
      && at.ctx == rq.run(r.pattern, ContextAt(routes, rq, s.ctx, byPrefix, k + 1))
      && at.tried == s.tried + Called(routes[..k + 1], rq.path, byPrefix)
    case Missed(at) =>
      && (forall j: nat | j < |routes| :: !TakesAt(routes, rq, s.ctx, byPrefix, j))
      && at.ctx == ContextAt(routes, rq, s.ctx, byPrefix, |routes|)
      && at.tried == s.tried + Called(routes, rq.path, byPrefix)
      && (forall m: Methods :: Shares(at.methods, m) <==> Shares(s.methods, m) || MatchingShares(routes, rq, s.ctx, byPrefix, m))
  }

  /** The new set is the old one and what has been added. */
  ghost predicate Collects(before: Methods, after: Methods, added: Methods) {
    forall m: Methods :: Shares(after, m) <==> Shares(before, m) || Shares(added, m)
  }

  lemma JoinedCollects(a: Methods, b: Methods)
    ensures Collects(a, Joined(a, b), b)
  {
    hide Shares, Joined;
    forall m: Methods
      ensures Shares(Joined(a, b), m) <==> Shares(a, m) || Shares(b, m)
    {
      SharesJoined(a, b, m);
    }
  }

  lemma NothingCollected(a: Methods)
    ensures Collects(a, a, 0)
  {
    hide Shares;
    forall m: Methods
      ensures !Shares(0, m)
    {
      NoMethods(m);
    }
  }

  /** The law for the whole list, from the law for the rest. */
  lemma LawFromRest<C>(routes: seq<Route>, rq: Request<C>, s: Progress<C>, s1: Progress<C>, byPrefix: bool, o: Outcome<C>, k: nat)
    requires routes != [] && Law(routes[1..], rq, s1, byPrefix, o, k)
    requires s1.ctx == ContextAt(routes, rq, s.ctx, byPrefix, 1) && !TakesAt(routes, rq, s.ctx, byPrefix, 0)
    requires s1.tried == s.tried + Called(routes[..1], rq.path, byPrefix)
    requires Collects(s.methods, s1.methods, if MatchesAt(routes, rq, s.ctx, byPrefix, 0) then routes[0].methods else 0)
    ensures Law(routes, rq, s, byPrefix, o, k + 1)
  {
    hide Shares, ContextAt, MatchesAt, TakesAt, MatchingShares, Called;
    var n := if o.Took? then k + 1 else |routes|;
    forall j: nat | 0 < j < |routes|
      ensures TakesAt(routes, rq, s.ctx, byPrefix, j) <==> TakesAt(routes[1..], rq, s1.ctx, byPrefix, j - 1)
    {
      Beyond(routes, rq, s.ctx, byPrefix, j);
    }
    if o.Took? {
      ContextFromSecond(routes, rq, s.ctx, byPrefix, k + 2);
      CalledSplit(routes, rq.path, byPrefix, k + 2);
    } else {
      ContextFromSecond(routes, rq, s.ctx, byPrefix, |routes|);
      CalledSplit(routes, rq.path, byPrefix, |routes|);
      assert routes[..|routes|] == routes && routes[1..][..|routes| - 1] == routes[1..];
      forall m: Methods
        ensures Shares(o.at.methods, m) <==> Shares(s.methods, m) || MatchingShares(routes, rq, s.ctx, byPrefix, m)
      {
        BeyondShares(routes, rq, s.ctx, byPrefix, m);
        NoMethods(m);
      }
    }
  }

  lemma {:induction false} LawHolds<C>(routes: seq<Route>, rq: Request<C>, s: Progress<C>, byPrefix: bool) returns (k: nat)
    ensures Law(routes, rq, s, byPrefix, TryAll(Called(routes, rq.path, byPrefix), rq, s), k)
  {
    k := 0;
    if routes != [] {
      FirstStep(routes, rq, s, byPrefix);
      var o := FirstOutcome(routes[0], rq, s, byPrefix);
      if o.Missed? {
        k := LawHolds(routes[1..], rq, o.at, byPrefix);
        LawFromRest(routes, rq, s, o.at, byPrefix, TryAll(Called(routes[1..], rq.path, byPrefix), rq, o.at), k);
        k := k + 1;
      }
    }
  }

  /** The first route alone. */
  function FirstOutcome<C>(r: Route, rq: Request<C>, s: Progress<C>, byPrefix: bool): Outcome<C> {
    if byPrefix && !(r.prefix <= rq.path) then Missed(s) else TryRoute(r, rq, s)
  }

  lemma FirstStep<C>(routes: seq<Route>, rq: Request<C>, s: Progress<C>, byPrefix: bool)
    requires routes != []
    ensures var o := FirstOutcome(routes[0], rq, s, byPrefix);
            && TryAll(Called(routes, rq.path, byPrefix), rq, s) == AndThen(o, Called(routes[1..], rq.path, byPrefix), rq)
            && (o.Took? ==> Law(routes, rq, s, byPrefix, o, 0))
            && (o.Missed? ==>
                  && o.at.ctx == ContextAt(routes, rq, s.ctx, byPrefix, 1) && !TakesAt(routes, rq, s.ctx, byPrefix, 0)
                  && o.at.tried == s.tried + Called(routes[..1], rq.path, byPrefix)
                  && Collects(s.methods, o.at.methods, if MatchesAt(routes, rq, s.ctx, byPrefix, 0) then routes[0].methods else 0))
  {
    hide Shares, Joined, MatchingShares, AndThen, Collects, Called, Plausible;
    if byPrefix && !(routes[0].prefix <= rq.path) {
      NotCalled(routes, rq, s);
      NothingCollected(s.methods);
    } else {
      CalledFirst(routes, rq.path, byPrefix);
      FirstMethods(routes[0], rq, s);
      OneContext(routes, rq, s.ctx, byPrefix);
    }
  }

  lemma CalledFirst(routes: seq<Route>, path: Str, byPrefix: bool)
    requires routes != [] && (byPrefix ==> routes[0].prefix <= path)
    ensures Called(routes[..1], path, byPrefix) == [routes[0]]
    ensures Called(routes, path, byPrefix) == [routes[0]] + Called(routes[1..], path, byPrefix)
  {
    var first := routes[..1];
    assert first == [routes[0]] && first[1..] == [];
    assert Plausible(first[1..], path) == [];
    assert routes == [routes[0]] + routes[1..];
  }

  lemma OneContext<C>(routes: seq<Route>, rq: Request<C>, ctx: C, byPrefix: bool)
    requires routes != [] && (byPrefix ==> routes[0].prefix <= rq.path)
    ensures ContextAt(routes, rq, ctx, byPrefix, 0) == ctx
    ensures ContextAt(routes, rq, ctx, byPrefix, 1) == rq.matches(routes[0].pattern, ctx).1
  {}

  lemma NotCalled<C>(routes: seq<Route>, rq: Request<C>, s: Progress<C>)
    requires routes != [] && !(routes[0].prefix <= rq.path)
    ensures Called(routes, rq.path, true) == Called(routes[1..], rq.path, true) && Called(routes[..1], rq.path, true) == []
    ensures ContextAt(routes, rq, s.ctx, true, 1) == s.ctx
    ensures AndThen(Missed(s), Called(routes[1..], rq.path, true), rq) == TryAll(Called(routes[1..], rq.path, true), rq, s)
  {
    var first := routes[..1];
    assert first[1..] == [];
    assert Plausible(first[1..], rq.path) == [];
  }

  lemma FirstMethods<C>(r: Route, rq: Request<C>, s: Progress<C>)
    ensures var o := TryRoute(r, rq, s);
            o.Missed? ==> Collects(s.methods, o.at.methods, if rq.matches(r.pattern, s.ctx).0 then r.methods else 0)
  {
    hide Shares, Joined;
    JoinedCollects(s.methods, r.methods);
    NothingCollected(s.methods);
  }

  /** The methods of the routes whose Match succeeds, when all are called. */
  lemma MatchingMeans<C>(routes: seq<Route>, rq: Request<C>, ctx: C, byPrefix: bool)
    ensures forall m: Methods :: MatchingShares(routes, rq, ctx, byPrefix, m) <==>
              exists j: nat :: j < |routes| && (byPrefix ==> routes[j].prefix <= rq.path)
                && rq.matches(routes[j].pattern, ContextAt(routes, rq, ctx, byPrefix, j)).0 && Shares(routes[j].methods, m)
  {
    hide Shares, ContextAt;
  }

  /** What it means to be called with success, and to be fit to take the request. */
  lemma TakesMeans<C>(routes: seq<Route>, rq: Request<C>, ctx: C, byPrefix: bool, j: nat)
    requires j < |routes|
    ensures MatchesAt(routes, rq, ctx, byPrefix, j) <==>
              (byPrefix ==> routes[j].prefix <= rq.path) && rq.matches(routes[j].pattern, ContextAt(routes, rq, ctx, byPrefix, j)).0
    ensures TakesAt(routes, rq, ctx, byPrefix, j) <==> MatchesAt(routes, rq, ctx, byPrefix, j) && routes[j].methods & rq.m != 0
  {}

  /** The context a call leaves behind: what Match makes of it, if it is called at all. */
  lemma ContextMeans<C>(routes: seq<Route>, rq: Request<C>, ctx: C, byPrefix: bool, j: nat)
    requires j < |routes|
    ensures ContextAt(routes, rq, ctx, byPrefix, 0) == ctx
    ensures var c := ContextAt(routes, rq, ctx, byPrefix, j);
            ContextAt(routes, rq, ctx, byPrefix, j + 1)
            == if byPrefix && !(routes[j].prefix <= rq.path) then c else rq.matches(routes[j].pattern, c).1
  {}

  /** The naive router takes route k exactly if k is the first whose Match succeeds, in
      the context left by the calls before, and which has the request's method. It has
      then called Match on the routes up to k and no others, and has run the pattern in
      the context that Match left. If it takes none, Match has been called on all, and
      the methods are those of the routes whose Match succeeded. */
  lemma {:induction false} NaiveLaw<C>(routes: seq<Route>, rq: Request<C>, s: Progress<C>, byPrefix: bool) returns (k: nat)
    ensures match TryAll(Called(routes, rq.path, byPrefix), rq, s)
      case Took(r, at) =>
        && k < |routes| && r == routes[k] && TakesAt(routes, rq, s.ctx, byPrefix, k)
        && (forall j: nat | j < k :: !TakesAt(routes, rq, s.ctx, byPrefix, j))
        && at.ctx == rq.run(r.pattern, ContextAt(routes, rq, s.ctx, byPrefix, k + 1))
        && at.tried == s.tried + Called(routes[..k + 1], rq.path, byPrefix)
      case Missed(at) =>
        && (forall j: nat | j < |routes| :: !TakesAt(routes, rq, s.ctx, byPrefix, j))
        && at.ctx == ContextAt(routes, rq, s.ctx, byPrefix, |routes|)
        && at.tried == s.tried + Called(routes, rq.path, byPrefix)
        && (forall m: Methods :: Shares(at.methods, m) <==> Shares(s.methods, m) || MatchingShares(routes, rq, s.ctx, byPrefix, m))
  {
    hide Shares, TryAll, ContextAt, Called, TakesAt;
    k := LawHolds(routes, rq, s, byPrefix);
  }
}
