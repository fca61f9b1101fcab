/** Routes, requests and the naive router: the programming model that the compiled
    router promises to be indistinguishable from. */
module Routing {
  import opened Bytes
  import opened StringPatterns
  import opened MethodSets

  /** A pattern: a parsed string pattern, or any other one (a regular expression or
      a user's own), known only by the prefix it declares. */
  datatype Pattern = Sinatra(sp: StringPattern) | Foreign(id: nat, declared: Str) {
    function Prefix(): Str {
      match this
      case Sinatra(sp) => sp.literals[0]
      case Foreign(_, declared) => declared
    }
  }

  datatype Route = Route(prefix: Str, methods: Methods, pattern: Pattern, handler: nat)

  /** One request. Patterns may read and change a context of any type C: `matches`
      and `run` stand for the arbitrary code behind Pattern.Match and Pattern.Run
      on this request. */
  datatype Request<!C> = Request(
    path: Str,
    m: Methods,
    matches: (Pattern, C) -> (bool, C),
    run: (Pattern, C) -> C)

  /** What a router has done so far: the context, the methods of the routes that
      matched, and every route whose Match was called, in order. */
  datatype Progress<C> = Progress(ctx: C, methods: Methods, tried: seq<Route>)

  datatype Outcome<C> = Took(route: Route, at: Progress<C>) | Missed(at: Progress<C>)

  /** web/bytecode_runner.go:10-21 */
  function TryRoute<C>(r: Route, rq: Request<C>, s: Progress<C>): Outcome<C> {
    var (ok, ctx) := rq.matches(r.pattern, s.ctx);
    var tried := s.tried + [r];
    if !ok then Missed(Progress(ctx, s.methods, tried))
    else if Shares(r.methods, rq.m) then Took(r, Progress(rq.run(r.pattern, ctx), Joined(s.methods, r.methods), tried))
    else Missed(Progress(ctx, Joined(s.methods, r.methods), tried))
  }

  /** The naive router: one route after another until one takes the request. */
  function TryAll<C>(routes: seq<Route>, rq: Request<C>, s: Progress<C>): Outcome<C>
    decreases |routes|, 0
  {
    if routes == [] then Missed(s) else AndThen(TryRoute(routes[0], rq, s), routes[1..], rq)
  }

  function AndThen<C>(o: Outcome<C>, routes: seq<Route>, rq: Request<C>): Outcome<C>
    decreases |routes|, 1
  {
    match o case Took(_, _) => o case Missed(s) => TryAll(routes, rq, s)
  }

  /** The routes whose prefix is a prefix of the path, in list order. */
  function Plausible(routes: seq<Route>, path: Str): seq<Route> {
    if routes == [] then []
    else (if routes[0].prefix <= path then [routes[0]] else []) + Plausible(routes[1..], path)
  }

  lemma {:induction false} TryAllAppend<C>(a: seq<Route>, b: seq<Route>, rq: Request<C>, s: Progress<C>)
    ensures TryAll(a + b, rq, s) == AndThen(TryAll(a, rq, s), b, rq)
  {
    if a == [] {
      assert a + b == b;
    } else {
      assert (a + b)[1..] == a[1..] + b;
      var o := TryRoute(a[0], rq, s);
      if o.Missed? {
        TryAllAppend(a[1..], b, rq, o.at);
      }
    }
  }

  lemma {:induction false} PlausibleAppend(a: seq<Route>, b: seq<Route>, path: Str)
    ensures Plausible(a + b, path) == Plausible(a, path) + Plausible(b, path)
  {
    if a == [] {
      assert a + b == b;
    } else {
      assert (a + b)[1..] == a[1..] + b;
      PlausibleAppend(a[1..], b, path);
    }
  }

  lemma {:induction false} PlausibleNone(routes: seq<Route>, path: Str)
    requires forall k | 0 <= k < |routes| :: !(routes[k].prefix <= path)
    ensures Plausible(routes, path) == []
  {
    if routes != [] {
      assert !(routes[0].prefix <= path);
      forall k | 0 <= k < |routes[1..]|
        ensures !(routes[1..][k].prefix <= path)
      {
        assert routes[1..][k] == routes[k + 1];
      }
      PlausibleNone(routes[1..], path);
    }
  }

  /** The order `handle` keeps: of two neighbours, either the first sorts before the
      second or the second is a prefix of the first (web/router.go:135-139). */
  predicate Before(a: Str, b: Str) {
    Leq(a, b) || b <= a
  }

  ghost predicate Ordered(routes: seq<Route>) {
    forall k: nat | k + 1 < |routes| :: OrderedAt(routes, k)
  }

  predicate OrderedAt(routes: seq<Route>, k: nat)
    requires k + 1 < |routes|
  {
    Before(routes[k].prefix, routes[k + 1].prefix)
  }
}
