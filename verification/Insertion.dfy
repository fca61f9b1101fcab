/** How `handle` orders routes (web/router.go:126-154), and that the order never
    shows: whatever the path, its plausible routes come in insertion order. */
module Insertion {
  import opened Bytes
  import opened Sequences
  import opened StringPatterns
  import opened MethodSets
  import opened Routing

  /** The insertion point, searched downward from i. */
  function Slot(routes: seq<Route>, i: nat, pp: Str): (k: nat)
    requires i <= |routes|
    ensures k <= i
    ensures k > 0 ==> Before(routes[k - 1].prefix, pp)
    ensures forall j | k <= j < i :: !Before(routes[j].prefix, pp)
  {
    if i == 0 || Before(routes[i - 1].prefix, pp) then i else Slot(routes, i - 1, pp)
  }

  function Inserted(routes: seq<Route>, r: Route): seq<Route> {
    var k := Slot(routes, |routes|, r.prefix);
    routes[..k] + [r] + routes[k..]
  }

  /** The list after handling the routes of a history, first to last. */
  function Built(history: seq<Route>): seq<Route> {
    if history == [] then [] else Inserted(Built(history[..|history| - 1]), history[|history| - 1])
  }

  lemma BuiltOneMore(history: seq<Route>, r: Route)
    ensures Built(history + [r]) == Inserted(Built(history), r)
  {
    assert (history + [r])[..|history|] == history;
  }

  lemma InsertedIsOrdered(routes: seq<Route>, r: Route)
    requires Ordered(routes)
    ensures Ordered(Inserted(routes, r))
  {
    var k := Slot(routes, |routes|, r.prefix);
    var after := Inserted(routes, r);
    forall j: nat | j + 1 < |after|
      ensures OrderedAt(after, j)
    {
      if j + 1 < k {
        assert OrderedAt(routes, j);
      } else if j + 1 == k {
        assert after[j] == routes[j] && after[k] == r;
      } else if j == k {
        assert after[j] == r && after[j + 1] == routes[k];
        assert !Before(routes[k].prefix, r.prefix);
        LeqIsTotal(r.prefix, routes[k].prefix);
      } else {
        assert OrderedAt(routes, j - 1);
        assert after[j] == routes[j - 1] && after[j + 1] == routes[j];
      }
    }
  }

  /** Nothing a route is moved past can match the same path. */
  lemma MovedPastImplausible(routes: seq<Route>, r: Route, path: Str)
    requires r.prefix <= path
    ensures Plausible(routes[Slot(routes, |routes|, r.prefix)..], path) == []
  {
    var k := Slot(routes, |routes|, r.prefix);
    forall j | 0 <= j < |routes[k..]|
      ensures !(routes[k..][j].prefix <= path)
    {
      var q := routes[k + j].prefix;
      assert routes[k..][j] == routes[k + j] && !Before(q, r.prefix);
      if q <= path {
        PrefixesCompare(q, r.prefix, path);
        if q <= r.prefix {
          PrefixIsLeq(q, r.prefix);
        }
      }
    }
    PlausibleNone(routes[k..], path);
  }

  /** For every path, inserting a route is appending it. */
  lemma InsertedIsAppended(routes: seq<Route>, r: Route, path: Str)
    ensures Plausible(Inserted(routes, r), path) == Plausible(routes, path) + Plausible([r], path)
  {
    hide Slot, Plausible;
    var k := Slot(routes, |routes|, r.prefix);
    var x, z := routes[..k], routes[k..];
    assert x + z == routes;
    Assoc(x, [r], z);
    PlausibleAppend(x, [r] + z, path);
    PlausibleAppend([r], z, path);
    PlausibleAppend(x, z, path);
    if r.prefix <= path {
      MovedPastImplausible(routes, r, path);
    } else {
      PlausibleNone([r], path);
    }
  }

  /** After any history: the list is ordered, it is a permutation of the history,
      and for every path its plausible routes are those of the history in the
      history's own order. */
  lemma {:induction false} BuiltKeepsInsertionOrder(history: seq<Route>)
    ensures Ordered(Built(history))
    ensures multiset(Built(history)) == multiset(history)
    ensures forall path :: Plausible(Built(history), path) == Plausible(history, path)
  {
    if history != [] {
      var n := |history| - 1;
      var before, r := history[..n], history[n];
      var routes := Built(before);
      BuiltKeepsInsertionOrder(before);
      assert history == before + [r];
      InsertedIsOrdered(routes, r);
      InsertedIsPermutation(routes, r);
      forall path
        ensures Plausible(Built(history), path) == Plausible(history, path)
      {
        InsertedIsAppended(routes, r, path);
        PlausibleAppend(before, [r], path);
      }
    }
  }

  lemma InsertedIsPermutation(routes: seq<Route>, r: Route)
    ensures multiset(Inserted(routes, r)) == multiset(routes) + multiset{r}
  {
    var k := Slot(routes, |routes|, r.prefix);
    assert routes == routes[..k] + routes[k..];
  }

  /** Two routes with comparable prefixes: the one handled first comes first. */
  lemma ComparableInInsertionOrder(history: seq<Route>, i: nat, j: nat) returns (a: nat, b: nat)
    requires i < j < |history|
    requires history[i].prefix <= history[j].prefix || history[j].prefix <= history[i].prefix
    ensures a < b < |Built(history)|
    ensures Built(history)[a] == history[i] && Built(history)[b] == history[j]
  {
    var path := if history[i].prefix <= history[j].prefix then history[j].prefix else history[i].prefix;
    BuiltKeepsInsertionOrder(history);
    var x, y := Filtered(history, path, i, j);
    a, b := Unfiltered(Built(history), path, x, y);
  }

  /** Filtering keeps the order of what it keeps ... */
  lemma {:induction false} Filtered(routes: seq<Route>, path: Str, i: nat, j: nat) returns (x: nat, y: nat)
    requires i < j < |routes| && routes[i].prefix <= path && routes[j].prefix <= path
    ensures x < y < |Plausible(routes, path)|
    ensures Plausible(routes, path)[x] == routes[i] && Plausible(routes, path)[y] == routes[j]
  {
    var d := if routes[0].prefix <= path then 1 else 0;
    if i > 0 {
      x, y := Filtered(routes[1..], path, i - 1, j - 1);
      x, y := x + d, y + d;
    } else {
      y := FilteredOne(routes[1..], path, j - 1);
      x, y := 0, y + 1;
    }
  }

  lemma {:induction false} FilteredOne(routes: seq<Route>, path: Str, j: nat) returns (y: nat)
    requires j < |routes| && routes[j].prefix <= path
    ensures y < |Plausible(routes, path)| && Plausible(routes, path)[y] == routes[j]
  {
    if j == 0 {
      y := 0;
    } else {
      y := FilteredOne(routes[1..], path, j - 1);
      y := y + if routes[0].prefix <= path then 1 else 0;
    }
  }

  /** ... and what it keeps was there in the same order. */
  lemma {:induction false} Unfiltered(routes: seq<Route>, path: Str, x: nat, y: nat) returns (i: nat, j: nat)
    requires x < y < |Plausible(routes, path)|
    ensures i < j < |routes|
    ensures routes[i] == Plausible(routes, path)[x] && routes[j] == Plausible(routes, path)[y]
  {
    if !(routes[0].prefix <= path) {
      i, j := Unfiltered(routes[1..], path, x, y);
      i, j := i + 1, j + 1;
    } else if x > 0 {
      i, j := Unfiltered(routes[1..], path, x - 1, y - 1);
      i, j := i + 1, j + 1;
    } else {
      j := UnfilteredOne(routes[1..], path, y - 1);
      i, j := 0, j + 1;
    }
  }

  lemma {:induction false} UnfilteredOne(routes: seq<Route>, path: Str, y: nat) returns (j: nat)
    requires y < |Plausible(routes, path)|
    ensures j < |routes| && routes[j] == Plausible(routes, path)[y]
  {
    if !(routes[0].prefix <= path) {
      j := UnfilteredOne(routes[1..], path, y);
      j := j + 1;
    } else if y == 0 {
      j := 0;
    } else {
      j := UnfilteredOne(routes[1..], path, y - 1);
      j := j + 1;
    }
  }

  // ----- dropping the prefix filter -----

  /** Calling Match on this route changes nothing unless its prefix fits: the context
      stays as it is, and if it matches at all the route has no methods. */
  ghost predicate Skippable<C(!new)>(r: Route, rq: Request<C>) {
    !(r.prefix <= rq.path) ==> forall c :: LeavesAlone(r, rq, c)
  }

  ghost predicate LeavesAlone<C>(r: Route, rq: Request<C>, c: C) {
    var (ok, c') := rq.matches(r.pattern, c);
    c' == c && (ok ==> r.methods == 0)
  }

  lemma LeftAlone<C>(r: Route, rq: Request<C>, s: Progress<C>)
    ensures LeavesAlone(r, rq, s.ctx) ==> var o := TryRoute(r, rq, s); o.Missed? && o.at.ctx == s.ctx && o.at.methods == s.methods
    ensures !LeavesAlone(r, rq, s.ctx) && s.methods == 0 ==>
              var o := TryRoute(r, rq, s); o.Took? || o.at.ctx != s.ctx || o.at.methods != s.methods
  {
    hide Shares, Joined;
    NoMethods(rq.m);
    NoMethods(r.methods);
    NoMethods(s.methods);
  }

  /** Two outcomes that differ only in which fruitless calls were made. */
  ghost predicate SameRouting<C>(a: Outcome<C>, b: Outcome<C>) {
    && a.at.ctx == b.at.ctx && a.at.methods == b.at.methods
    && (a.Took? <==> b.Took?) && (a.Took? ==> a.route == b.route)
  }

  lemma {:induction false} FilterChangesNothing<C(!new)>(routes: seq<Route>, rq: Request<C>, s: Progress<C>, t: Progress<C>)
    requires forall k | 0 <= k < |routes| :: Skippable(routes[k], rq)
    requires s.ctx == t.ctx && s.methods == t.methods
    ensures SameRouting(TryAll(routes, rq, s), TryAll(Plausible(routes, rq.path), rq, t))
  {
    hide Shares, Joined, LeavesAlone;
    if routes != [] {
      assert Skippable(routes[0], rq);
      var o := TryRoute(routes[0], rq, s);
      forall k | 0 <= k < |routes[1..]|
        ensures Skippable(routes[1..][k], rq)
      {
        assert Skippable(routes[k + 1], rq);
      }
      if routes[0].prefix <= rq.path {
        var o' := TryRoute(routes[0], rq, t);
        assert Plausible(routes, rq.path)[1..] == Plausible(routes[1..], rq.path);
        if o.Missed? {
          FilterChangesNothing(routes[1..], rq, o.at, o'.at);
        }
      } else {
        assert LeavesAlone(routes[0], rq, s.ctx);
        LeftAlone(routes[0], rq, s);
        assert Plausible(routes, rq.path) == Plausible(routes[1..], rq.path);
        FilterChangesNothing(routes[1..], rq, o.at, t);
      }
    }
  }

  /** Whatever list is made of these routes, trying only the plausible ones makes no
      difference. */
  ghost predicate FilterIsSafe<C(!new)>(routes: set<Route>, rq: Request<C>) {
    forall list: seq<Route>, ctx: C | (forall k | 0 <= k < |list| :: list[k] in routes) ::
      FilterIsSafeFor(list, rq, ctx)
  }

  ghost predicate FilterIsSafeFor<C>(list: seq<Route>, rq: Request<C>, ctx: C) {
    SameRouting(TryAll(list, rq, Progress(ctx, 0, [])), TryAll(Plausible(list, rq.path), rq, Progress(ctx, 0, [])))
  }

  /** So the prefix filter keeps the promise of the naive router if and only if every
      route is skippable. */
  lemma FilterIsSafeExactly<C(!new)>(routes: set<Route>, rq: Request<C>)
    ensures FilterIsSafe(routes, rq) <==> forall r | r in routes :: Skippable(r, rq)
  {
    hide Skippable, SameRouting, TryAll, Plausible;
    if FilterIsSafe(routes, rq) {
      forall r | r in routes
        ensures Skippable(r, rq)
      {
        SafeMeansSkippable(r, rq);
      }
    }
    if forall r | r in routes :: Skippable(r, rq) {
      forall list: seq<Route>, ctx: C | (forall k | 0 <= k < |list| :: list[k] in routes)
        ensures FilterIsSafeFor(list, rq, ctx)
      {
        FilterChangesNothing(list, rq, Progress(ctx, 0, []), Progress(ctx, 0, []));
      }
    }
  }

  lemma SafeMeansSkippable<C(!new)>(r: Route, rq: Request<C>)
    requires forall ctx: C :: FilterIsSafeFor([r], rq, ctx)
    ensures Skippable(r, rq)
  {
    hide LeavesAlone, TryRoute;
    if !(r.prefix <= rq.path) {
      forall c: C
        ensures LeavesAlone(r, rq, c)
      {
        var s := Progress(c, 0, []);
        assert FilterIsSafeFor([r], rq, c);
        LeftAlone(r, rq, s);
        var o := TryRoute(r, rq, s);
        assert TryAll([r], rq, s) == AndThen(o, [r][1..], rq);
        assert o.Missed? ==> TryAll([], rq, o.at) == Missed(o.at);
        assert Plausible([r], rq.path) == [];
      }
    }
  }

  /** The request runs string patterns as the source does. */
  ghost predicate RunsStringPatterns<C(!new)>(rq: Request<C>) {
    forall sp, c {:trigger rq.matches(Sinatra(sp), c)} :: rq.matches(Sinatra(sp), c) == (Matches(sp, rq.path), c)
  }

  /** String patterns declare a prefix that every match starts with. */
  lemma StringPatternsAreSkippable<C(!new)>(r: Route, rq: Request<C>)
    requires r.pattern.Sinatra? && r.prefix == r.pattern.Prefix() && RunsStringPatterns(rq)
    ensures Skippable(r, rq)
  {
    if !(r.prefix <= rq.path) {
      if Matches(r.pattern.sp, rq.path) {
        MatchStartsWithPrefix(r.pattern.sp, rq.path);
      }
    }
  }

  /** A request for "/" on which every pattern matches. */
  function MatchEverything(): Request<()> {
    Request([SLASH], 4, (p, c) => (true, c), (p, c) => c)
  }

  /** The promise needs honest prefixes. A foreign pattern that matches a path its
      declared prefix does not start takes the request from the naive router, but
      the compiled router never tries it. */
  lemma DishonestPrefixIsNotTried()
    ensures var rq, r, s := MatchEverything(), Route([STAR], 4, Foreign(0, [STAR]), 0), Progress((), 0, []);
            && !Skippable(r, rq)
            && TryAll([r], rq, s).Took?
            && TryAll(Plausible([r], rq.path), rq, s).Missed?
  {
    var rq, r := MatchEverything(), Route([STAR], 4, Foreign(0, [STAR]), 0);
    assert !LeavesAlone(r, rq, ());
    assert [r][0].prefix[0] != rq.path[0];
  }
}
