/** The router object: its route list, its cached machine, and dispatch
    (web/router.go). */
module Routers {
  import opened Bytes
  import opened Options
  import opened Sequences
  import opened StringPatterns
  import opened MethodSets
  import opened Routing
  import opened NaiveRouter
  import opened Insertion
  import opened Bytecode
  import opened Machines
  import opened Runner

  const M_IDK: Methods := 512

  /** web/router.go:34-44 */
  const VALID_METHODS: map<string, Methods> := map[
    "CONNECT" := 1, "DELETE" := 2, "GET" := 4, "HEAD" := 8, "OPTIONS" := 16,
    "PATCH" := 32, "POST" := 64, "PUT" := 128, "TRACE" := 256]

  function HttpMethod(name: string): Methods {
    if name in VALID_METHODS then VALID_METHODS[name] else M_IDK
  }

  /** The nine named methods, and all others together, have a bit of their own. */
  lemma MethodsDiffer()
    ensures VALID_METHODS.Keys == {"CONNECT", "DELETE", "GET", "HEAD", "OPTIONS", "PATCH", "POST", "PUT", "TRACE"}
    ensures forall a, b | a in VALID_METHODS :: Shares(HttpMethod(a), HttpMethod(b)) <==> a == b
  {
    hide Shares, HttpMethod;
    forall a, b | a in VALID_METHODS
      ensures Shares(HttpMethod(a), HttpMethod(b)) <==> a == b
    {
      if a != b {
        NamesDiffer(a, b);
      } else {
        HasOneBit(a);
      }
      OneBitEach(HttpMethod(a), HttpMethod(b));
    }
  }

  lemma HasOneBit(a: string)
    requires a in VALID_METHODS
    ensures HttpMethod(a) in ONE_BIT
  {}

  lemma NamesDiffer(a: string, b: string)
    requires a in VALID_METHODS && a != b
    ensures HttpMethod(a) != HttpMethod(b)
    ensures HttpMethod(a) in ONE_BIT && HttpMethod(b) in ONE_BIT
  {}

  const ONE_BIT: set<Methods> := {1, 2, 4, 8, 16, 32, 64, 128, 256, 512}

  lemma OneBitEach(x: Methods, y: Methods)
    requires x in ONE_BIT && y in ONE_BIT
    ensures Shares(x, y) <==> x == y
  {}

  // ----- from registration to dispatch -----

  /** Whatever routes were handled, in whatever order: the compiled machine takes the
      request as the naive router does on the plausible routes in the order they were
      handled, and does so within as many steps as it has instructions. */
  lemma AnyHistoryRoutesNaively<C>(history: seq<Route>, rm: RouteMachine, rq: Request<C>, ctx: C) returns (n: nat)
    requires history != [] && rm.routes == Built(history) && IsCompiled(rm.sm, rm.routes)
    ensures n <= |rm.sm|
    ensures Steps(rm, rq, Running(0, rq.path, Initial(ctx)), n) == Halted(TryAll(Plausible(history, rq.path), rq, Initial(ctx)))
  {
    hide Steps;
    BuiltKeepsInsertionOrder(history);
    assert rm.routes != [] by {
      assert |multiset(rm.routes)| == |multiset(history)|;
    }
    NoCodeNoRoutes(rm.sm, rm.routes);
    n := CompiledRunsLikeNaive(rm, rq, ctx);
  }

  /** So the route taken is the first handled whose prefix starts the path, whose Match
      succeeds in the context that the calls before it left, and which has the method;
      Match has been called on the routes up to it whose prefix starts the path. If no
      route is taken there is none such, and the methods are those of the routes whose
      Match succeeded. Patterns may be of any kind. */
  lemma {:induction false} AnyHistoryTakesFirst<C>(history: seq<Route>, rm: RouteMachine, rq: Request<C>, ctx: C) returns (n: nat, k: nat)
    requires history != [] && rm.routes == Built(history) && IsCompiled(rm.sm, rm.routes)
    ensures n <= |rm.sm| && Steps(rm, rq, Running(0, rq.path, Initial(ctx)), n).Halted?
    ensures var o := Steps(rm, rq, Running(0, rq.path, Initial(ctx)), n).out;
            && (o.Took? ==>
                  && k < |history| && o.route == history[k] && TakesAt(history, rq, ctx, true, k)
                  && (forall j: nat | j < k :: !TakesAt(history, rq, ctx, true, j))
                  && o.at.ctx == rq.run(o.route.pattern, ContextAt(history, rq, ctx, true, k + 1))
                  && o.at.tried == Plausible(history[..k + 1], rq.path))
            && (o.Missed? ==>
                  && (forall j: nat | j < |history| :: !TakesAt(history, rq, ctx, true, j))
                  && o.at.ctx == ContextAt(history, rq, ctx, true, |history|)
                  && o.at.tried == Plausible(history, rq.path)
                  && (forall m: Methods :: Shares(o.at.methods, m) <==> MatchingShares(history, rq, ctx, true, m)))
  {
    hide Steps, ContextAt, TryAll, Shares, Plausible, TakesAt, MatchingShares;
    n := AnyHistoryRoutesNaively(history, rm, rq, ctx);
    k := NaiveLaw(history, rq, Initial(ctx), true);
    NothingShared();
  }

  lemma NothingShared()
    ensures forall m: Methods :: !Shares(0, m)
  {
    forall m: Methods
      ensures !Shares(0, m)
    {
      NoMethods(m);
    }
  }

  /** With string patterns only, that is the route which trying every handled route
      in turn would take, with no prefix filter at all. */
  lemma StringHistoryRoutesNaively<C(!new)>(history: seq<Route>, rm: RouteMachine, rq: Request<C>, ctx: C) returns (n: nat, o: Outcome<C>)
    requires history != [] && rm.routes == Built(history) && IsCompiled(rm.sm, rm.routes)
    requires forall k | 0 <= k < |history| :: history[k].pattern.Sinatra? && history[k].prefix == history[k].pattern.Prefix()
    requires RunsStringPatterns(rq)
    ensures n <= |rm.sm|
    ensures Steps(rm, rq, Running(0, rq.path, Initial(ctx)), n) == Halted(o)
    ensures SameRouting(TryAll(history, rq, Initial(ctx)), o)
  {
    hide Steps;
    forall k | 0 <= k < |history|
      ensures Skippable(history[k], rq)
    {
      StringPatternsAreSkippable(history[k], rq);
    }
    n := AnyHistoryRoutesNaively(history, rm, rq, ctx);
    o := TryAll(Plausible(history, rq.path), rq, Initial(ctx));
    FilterChangesNothing(history, rq, Initial(ctx), Initial(ctx));
  }

  // ----- string patterns, end to end -----

  /** Values a context's environment may hold. */
  datatype EnvValue = MethodNames(names: seq<string>) | OtherValue(id: nat)
  type Env = Option<map<string, EnvValue>>

  /** web.C, and whatever else user code may read and change. */
  datatype WebC<X> = WebC(urlParams: Option<map<Str, Str>>, env: Env, beyond: X)

  /** The pattern's meaning and the method both allow the request. */
  ghost predicate Allows<C>(r: Route, rq: Request<C>) {
    && r.pattern.Sinatra? && Shares(r.methods, rq.m)
    && exists vals, rest :: Splits(r.pattern.sp, 0, rq.path, vals, rest)
  }

  /** The context after running a string pattern: the values of this split of the
      path, merged over the parameters already there. */
  ghost predicate Bound<X>(sp: StringPattern, path: Str, split: Split, c: WebC<X>, c': WebC<X>) {
    Splits(sp, 0, path, split.vals, split.rest) && c' == c.(urlParams := Merged(c.urlParams, Stored(sp, split)))
  }

  /** Key by key: the names have the values of their last occurrence, the star what is
      left of the path from the slash on that closes the last literal, and every other
      key, the environment and whatever else there is are as before. */
  lemma BoundMeans<X>(sp: StringPattern, path: Str, split: Split, c: WebC<X>, c': WebC<X>)
    requires Bound(sp, path, split, c, c')
    ensures c'.env == c.env && c'.beyond == c.beyond && |split.vals| == |sp.pats|
    ensures sp.pats == [] && !sp.wildcard ==> c'.urlParams == c.urlParams
    ensures sp.pats != [] || sp.wildcard ==> c'.urlParams.Some?
    ensures forall j: nat | j < |sp.pats| && IsLast(sp.pats, j) && !(sp.wildcard && sp.pats[j] == [42]) ::
              sp.pats[j] in c'.urlParams.value && c'.urlParams.value[sp.pats[j]] == split.vals[j]
    ensures sp.wildcard ==>
              && [42] in c'.urlParams.value && c'.urlParams.value[[42]] == [47] + split.rest
              && |c'.urlParams.value[[42]]| <= |path| && c'.urlParams.value[[42]] == path[|path| - |c'.urlParams.value[[42]]|..]
    ensures c'.urlParams.Some? ==> forall k: Str | !(sp.wildcard && k == [42]) && k !in sp.pats ::
              (k in c'.urlParams.value <==> c.urlParams.Some? && k in c.urlParams.value)
              && (k in c'.urlParams.value ==> c'.urlParams.value[k] == c.urlParams.value[k])
  {
    BindingMeans(sp, path, split, c.urlParams);
  }

  /** The request matches and runs string patterns as the source does. */
  ghost predicate BindsStringPatterns<X(!new)>(rq: Request<WebC<X>>) {
    && RunsStringPatterns(rq)
    && forall sp: StringPattern, c: WebC<X>, split: Split {:trigger Bound(sp, rq.path, split, c, rq.run(Sinatra(sp), c))} ::
         Splits(sp, 0, rq.path, split.vals, split.rest) ==> Bound(sp, rq.path, split, c, rq.run(Sinatra(sp), c))
  }

  /** The naive router takes the first route that allows the request, with the
      values of its split bound; if it takes none, none allows it, and the context
      is as it was. */
  ghost predicate TakesFirst<X>(routes: seq<Route>, rq: Request<WebC<X>>, ctx: WebC<X>, o: Outcome<WebC<X>>, k: nat) {
    match o
    case Took(r, at) =>
      && k < |routes| && routes[k] == r && Allows(r, rq)
      && (forall j | 0 <= j < k :: !Allows(routes[j], rq))
      && exists split :: Bound(r.pattern.sp, rq.path, split, ctx, at.ctx)
    case Missed(at) =>
      (forall j | 0 <= j < |routes| :: !Allows(routes[j], rq)) && at.ctx == ctx
  }

  lemma TryStringRoute<X(!new)>(r: Route, rq: Request<WebC<X>>, s: Progress<WebC<X>>)
    requires r.pattern.Sinatra? && BindsStringPatterns(rq)
    ensures match TryRoute(r, rq, s)
            case Took(r', at) => r' == r && Allows(r, rq) && exists split :: Bound(r.pattern.sp, rq.path, split, s.ctx, at.ctx)
            case Missed(at) => !Allows(r, rq) && at.ctx == s.ctx
  {
    hide Shares, Joined, Matches, Stored, Merged;
    var sp := r.pattern.sp;
    MatchDecidesSplits(sp, rq.path);
    assert rq.matches(Sinatra(sp), s.ctx) == (Matches(sp, rq.path), s.ctx);
    if Matches(sp, rq.path) {
      var vals, rest :| Splits(sp, 0, rq.path, vals, rest);
      var split := Split(vals, rest);
      assert Splits(sp, 0, rq.path, split.vals, split.rest);
      assert Bound(sp, rq.path, split, s.ctx, rq.run(Sinatra(sp), s.ctx));
    }
  }

  lemma {:induction false} NaiveTakesFirst<X(!new)>(routes: seq<Route>, rq: Request<WebC<X>>, s: Progress<WebC<X>>) returns (k: nat)
    requires (forall j | 0 <= j < |routes| :: routes[j].pattern.Sinatra?) && BindsStringPatterns(rq)
    ensures TakesFirst(routes, rq, s.ctx, TryAll(routes, rq, s), k)
  {
    hide Allows, Bound, TryRoute, BindsStringPatterns;
    k := 0;
    if routes != [] {
      TryStringRoute(routes[0], rq, s);
      var o := TryRoute(routes[0], rq, s);
      if o.Missed? {
        k := NaiveTakesFirst(routes[1..], rq, o.at);
        var all := TryAll(routes[1..], rq, o.at);
        forall j | 0 <= j < |routes| && (all.Took? ==> j < k + 1)
          ensures !Allows(routes[j], rq)
        {
          if j > 0 {
            assert routes[j] == routes[1..][j - 1];
          }
        }
        k := k + 1;
      }
    }
  }

  /** With string patterns only, the compiled machine takes the route handled first
      among those whose pattern the path splits into and whose methods allow the
      request, and binds the values of that split. */
  lemma StringHistoryTakesFirst<X(!new)>(history: seq<Route>, rm: RouteMachine, rq: Request<WebC<X>>, ctx: WebC<X>)
    returns (n: nat, o: Outcome<WebC<X>>, k: nat)
    requires history != [] && rm.routes == Built(history) && IsCompiled(rm.sm, rm.routes)
    requires forall k | 0 <= k < |history| :: history[k].pattern.Sinatra? && history[k].prefix == history[k].pattern.Prefix()
    requires BindsStringPatterns(rq)
    ensures n <= |rm.sm| && Steps(rm, rq, Running(0, rq.path, Initial(ctx)), n) == Halted(o)
    ensures TakesFirst(history, rq, ctx, o, k)
  {
    hide Steps, Allows, Bound, TryAll;
    n, o := StringHistoryRoutesNaively(history, rm, rq, ctx);
    k := NaiveTakesFirst(history, rq, Initial(ctx));
  }

  // ----- the methods that would have worked -----

  /** The methods collected by a run that took no route are exactly those under
      which the same request would have been taken by one. */
  lemma {:induction false} CollectedMethodsAreExact<C>(routes: seq<Route>, rq: Request<C>, m: Methods, s: Progress<C>, t: Progress<C>)
    requires s.ctx == t.ctx && TryAll(routes, rq, s).Missed?
    ensures Shares(TryAll(routes, rq, s).at.methods, m) <==>
            Shares(s.methods, m) || TryAll(routes, rq.(m := m), t).Took?
  {
    hide Shares, Joined;
    if routes != [] {
      var o, o' := TryRoute(routes[0], rq, s), TryRoute(routes[0], rq.(m := m), t);
      SharesJoined(s.methods, routes[0].methods, m);
      if o'.Took? {
        MethodsOnlyGrow(routes[1..], rq, m, o.at);
      } else {
        CollectedMethodsAreExact(routes[1..], rq, m, o.at, o'.at);
      }
    }
  }

  lemma {:induction false} MethodsOnlyGrow<C>(routes: seq<Route>, rq: Request<C>, m: Methods, s: Progress<C>)
    requires TryAll(routes, rq, s).Missed? && Shares(s.methods, m)
    ensures Shares(TryAll(routes, rq, s).at.methods, m)
  {
    hide Shares, Joined;
    if routes != [] {
      SharesJoined(s.methods, routes[0].methods, m);
      MethodsOnlyGrow(routes[1..], rq, m, TryRoute(routes[0], rq, s).at);
    }
  }

  // ----- sorted method names -----

  predicate NameLeq(a: string, b: string) {
    |a| == 0 || (|b| > 0 && (a[0] < b[0] || (a[0] == b[0] && NameLeq(a[1..], b[1..]))))
  }

  /** That is: the one is a prefix of the other, or the first byte in which they differ
      is smaller. */
  lemma {:induction false} NameLeqByFirstDifference(a: string, b: string)
    ensures NameLeq(a, b) <==> a <= b || exists k: nat :: k < |a| && k < |b| && a[..k] == b[..k] && a[k] < b[k]
  {
    if |a| > 0 && |b| > 0 {
      if a[0] == b[0] {
        NameLeqByFirstDifference(a[1..], b[1..]);
        assert a <= b <==> a[1..] <= b[1..];
        if k: nat :| k < |a[1..]| && k < |b[1..]| && a[1..][..k] == b[1..][..k] && a[1..][k] < b[1..][k] {
          assert a[..k + 1] == [a[0]] + a[1..][..k] && b[..k + 1] == [b[0]] + b[1..][..k];
          assert a[k + 1] < b[k + 1];
        }
        if k: nat :| k < |a| && k < |b| && a[..k] == b[..k] && a[k] < b[k] {
          assert a[1..][..k - 1] == a[..k][1..] && b[1..][..k - 1] == b[..k][1..];
          assert a[1..][k - 1] < b[1..][k - 1];
        }
      } else if a[0] < b[0] {
        assert a[..0] == b[..0];
      } else {
        forall k: nat | k < |a| && k < |b|
          ensures a[..k] == b[..k] && k > 0 ==> a[0] == b[0]
        {
          SameFirst(a, b, k);
        }
      }
    }
  }

  lemma {:induction false} NameLeqTransitive(a: string, b: string, c: string)
    requires NameLeq(a, b) && NameLeq(b, c)
    ensures NameLeq(a, c)
  {
    if |a| > 0 && a[0] == b[0] == c[0] {
      NameLeqTransitive(a[1..], b[1..], c[1..]);
    }
  }

  lemma {:induction false} NameLeqTotal(a: string, b: string)
    ensures NameLeq(a, b) || NameLeq(b, a)
  {
    if |a| > 0 && |b| > 0 {
      NameLeqTotal(a[1..], b[1..]);
    }
  }

  ghost predicate Sorted(names: seq<string>) {
    forall i, j | 0 <= i < j < |names| :: NameLeq(names[i], names[j])
  }

  /** sort.Strings, of Go's library. */
  method SortStrings(names: seq<string>) returns (sorted: seq<string>)
    ensures Sorted(sorted) && multiset(sorted) == multiset(names)
  {
    sorted := [];
    for i := 0 to |names|
      invariant Sorted(sorted) && multiset(sorted) == multiset(names[..i])
    {
      assert names[..i + 1] == names[..i] + [names[i]];
      sorted := InsertName(sorted, names[i]);
    }
    assert names[..|names|] == names;
  }

  method InsertName(names: seq<string>, x: string) returns (r: seq<string>)
    requires Sorted(names)
    ensures Sorted(r) && multiset(r) == multiset(names) + multiset{x}
  {
    hide NameLeq;
    var k := |names|;
    while k > 0 && !NameLeq(names[k - 1], x)
      invariant 0 <= k <= |names|
      invariant forall j | k <= j < |names| :: NameLeq(x, names[j])
    {
      NameLeqTotal(names[k - 1], x);
      k := k - 1;
    }
    forall j | 0 <= j < k
      ensures NameLeq(names[j], x)
    {
      if j < k - 1 {
        NameLeqTransitive(names[j], names[k - 1], x);
      }
    }
    r := names[..k] + [x] + names[k..];
    assert names == names[..k] + names[k..];
  }

  // ----- the router -----

  const VALID_METHODS_KEY := "goji.web.ValidMethods"

  datatype RouteMatch = RouteMatch(pattern: Option<Pattern>, handler: nat)

  class Router {
    var routes: seq<Route>
    var notFound: nat
    var machine: Option<RouteMachine>
    ghost var history: seq<Route>

    /** The list is what the history builds, and a cached machine is the compilation
        of exactly this list. */
    ghost predicate Valid()
      reads this
    {
      && routes == Built(history)
      && (forall k | 0 <= k < |history| :: history[k].prefix == history[k].pattern.Prefix())
      && (machine.Some? ==> machine.value.routes == routes && IsCompiled(machine.value.sm, routes))
    }

    constructor (notFound: nat)
      ensures Valid() && history == [] && routes == [] && machine == None && this.notFound == notFound
    {
      this.notFound := notFound;
      routes, machine, history := [], None, [];
    }

    /** web/router.go:126-154 */
    method Handle(p: Pattern, m: Methods, h: nat)
      requires Valid()
      modifies this
      ensures Valid() && notFound == old(notFound)
      ensures history == old(history) + [Route(p.Prefix(), m, p, h)]
      ensures machine == None
    {
      hide Leq, IsCompiled, Built;
      var pp := p.Prefix();
      var i := |routes|;
      while i > 0
        invariant 0 <= i <= |routes|
        invariant Slot(routes, |routes|, pp) == Slot(routes, i, pp)
      {
        var rip := routes[i - 1].prefix;
        if Leq(rip, pp) || pp <= rip {
          break;
        }
        i := i - 1;
      }
      var r := Route(pp, m, p, h);
      var newRoutes := routes[..i] + [r] + routes[i..];
      machine := None;
      assert newRoutes == Inserted(routes, r);
      routes := newRoutes;
      history := history + [r];
      BuiltOneMore(old(history), r);
    }

    /** web/router.go:67-76 */
    method CompileRoutes() returns (rm: RouteMachine)
      requires Valid()
      modifies this`machine
      ensures Valid() && machine == Some(rm)
      ensures rm.routes == routes && IsCompiled(rm.sm, rm.routes)
    {
      BuiltKeepsInsertionOrder(history);
      var sm := Compile(routes);
      rm := RouteMachine(sm, routes);
      machine := Some(rm);
    }

    /** web/router.go:78-112. The match found is that of the naive router on the
        routes in the order they were handled. When there is none, the environment,
        as the patterns have left it, gets the sorted names of exactly the methods
        that would have found one, unless no route matched at all. */
    method GetMatch<X>(rq: Request<WebC<X>>, ctx0: WebC<X>) returns (found: RouteMatch, ctx: WebC<X>, ghost tried: seq<Route>, ghost k: nat)
      requires Valid()
      modifies this`machine
      ensures Valid()
      ensures tried == TryAll(Plausible(history, rq.path), rq, Initial(ctx0)).at.tried
      ensures match TryAll(Plausible(history, rq.path), rq, Initial(ctx0))
              case Took(r, at) => found == RouteMatch(Some(r.pattern), r.handler) && ctx == at.ctx
              case Missed(at) =>
                && found == RouteMatch(None, notFound)
                && if at.methods == 0 then ctx == at.ctx
                   else exists names :: ReportsMethods(names, rq, ctx0) && Stores(at.ctx, ctx, names)
      ensures found.pattern.Some? ==>
                && k < |history| && found == RouteMatch(Some(history[k].pattern), history[k].handler)
                && TakesAt(history, rq, ctx0, true, k) && (forall j: nat | j < k :: !TakesAt(history, rq, ctx0, true, j))
                && ctx == rq.run(history[k].pattern, ContextAt(history, rq, ctx0, true, k + 1))
                && tried == Plausible(history[..k + 1], rq.path)
      ensures found.pattern.None? ==>
                && found.handler == notFound && tried == Plausible(history, rq.path)
                && (forall j: nat | j < |history| :: !TakesAt(history, rq, ctx0, true, j))
                && ctx.(env := None) == ContextAt(history, rq, ctx0, true, |history|).(env := None)
    {
      hide ContextAt, TakesAt, Plausible, TryAll, Shares, Built, IsCompiled, ReportsMethods, Listed, Ordered;
      var rm;
      if machine == None {
        rm := CompileRoutes();
      } else {
        rm := machine.value;
      }
      BuiltKeepsInsertionOrder(history);
      k := NaiveLaw(history, rq, Initial(ctx0), true);
      var methods, taken, last, calls, turns := Run(rm, rq, ctx0);
      ctx, tried := last, calls;
      if taken.Some? {
        return RouteMatch(Some(taken.value.pattern), taken.value.handler), ctx, tried, k;
      }
      found := RouteMatch(None, notFound);
      if methods == 0 {
        return found, ctx, tried, k;
      }
      var names := MethodList(methods);
      ListIsExact(names, methods, history, rq, ctx0);
      if last.env == None {
        ctx := last.(env := Some(map[VALID_METHODS_KEY := MethodNames(names)]));
      } else {
        ctx := last.(env := Some(last.env.value[VALID_METHODS_KEY := MethodNames(names)]));
      }
    }

    /** The list for the NotFound handler: sorted, and a method is named just when
        the request under that method would have been taken. */
    ghost predicate ReportsMethods<C>(names: seq<string>, rq: Request<C>, ctx: C)
      reads this
    {
      && Sorted(names)
      && forall name: string ::
           Names(names, name, name in VALID_METHODS && TryAll(Plausible(history, rq.path), rq.(m := HttpMethod(name)), Initial(ctx)).Took?)
    }

    /** No name is listed twice, they are in byte order, and a name is listed exactly
        if it is one of the nine and the request would have been taken under it. */
    lemma ReportsMeans<C>(names: seq<string>, rq: Request<C>, ctx: C)
      requires ReportsMethods(names, rq, ctx)
      ensures forall i: nat, j: nat | i < j < |names| :: names[i] != names[j] && NameLeq(names[i], names[j])
      ensures forall name: string :: name in names <==>
                name in VALID_METHODS && TryAll(Plausible(history, rq.path), rq.(m := HttpMethod(name)), Initial(ctx)).Took?
    {
      hide TryAll, Plausible, HttpMethod;
      forall name: string
        ensures name in names <==>
                name in VALID_METHODS && TryAll(Plausible(history, rq.path), rq.(m := HttpMethod(name)), Initial(ctx)).Took?
        ensures multiset(names)[name] <= 1
      {
        assert Names(names, name, name in VALID_METHODS && TryAll(Plausible(history, rq.path), rq.(m := HttpMethod(name)), Initial(ctx)).Took?);
      }
      forall i: nat, j: nat | i < j < |names|
        ensures names[i] != names[j] && NameLeq(names[i], names[j])
      {
        assert names == names[..j] + names[j..];
        assert names[i] == names[..j][i] && names[j] == names[j..][0];
        assert names[i] in names[..j] && names[j] in names[j..];
        assert multiset(names) == multiset(names[..j]) + multiset(names[j..]);
        assert multiset(names)[names[i]] <= 1;
      }
    }

    lemma ListIsExact<C>(names: seq<string>, methods: Methods, history: seq<Route>, rq: Request<C>, ctx: C)
      requires history == this.history && Listed(names, methods)
      requires TryAll(Plausible(history, rq.path), rq, Initial(ctx)).Missed?
      requires methods == TryAll(Plausible(history, rq.path), rq, Initial(ctx)).at.methods
      ensures ReportsMethods(names, rq, ctx)
    {
      forall name: string
        ensures Names(names, name, name in VALID_METHODS && TryAll(Plausible(history, rq.path), rq.(m := HttpMethod(name)), Initial(ctx)).Took?)
      {
        assert Names(names, name, name in VALID_METHODS && Shares(methods, HttpMethod(name)));
        CollectedMethodsAreExact(Plausible(history, rq.path), rq, HttpMethod(name), Initial(ctx), Initial(ctx));
      }
    }
  }

  /** The names are in the environment, new if there was none, and nothing else has
      changed. */
  ghost predicate Stores<X>(c: WebC<X>, c': WebC<X>, names: seq<string>) {
    c' == c.(env := Some((if c.env == None then map[] else c.env.value)[VALID_METHODS_KEY := MethodNames(names)]))
  }

  /** The key of ValidMethods has the names, and every other key is as before. */
  lemma StoresMeans<X>(c: WebC<X>, c': WebC<X>, names: seq<string>)
    requires Stores(c, c', names)
    ensures c'.env.Some? && "goji.web.ValidMethods" in c'.env.value && c'.env.value["goji.web.ValidMethods"] == MethodNames(names)
    ensures forall key: string | key != "goji.web.ValidMethods" ::
              (key in c'.env.value <==> c.env.Some? && key in c.env.value) && (key in c'.env.value ==> c'.env.value[key] == c.env.value[key])
    ensures c'.urlParams == c.urlParams && c'.beyond == c.beyond
  {}

  /** The name is listed, once, or not at all. */
  ghost predicate Names(names: seq<string>, name: string, listed: bool) {
    multiset(names)[name] == if listed then 1 else 0
  }

  ghost predicate Listed(names: seq<string>, methods: Methods) {
    && Sorted(names)
    && forall name: string :: Names(names, name, name in VALID_METHODS && Shares(methods, HttpMethod(name)))
  }

  /** The names not in `left` have been visited. */
  ghost predicate ListedSoFar(names: seq<string>, methods: Methods, left: set<string>) {
    forall name: string :: Names(names, name, name in VALID_METHODS.Keys - left && Shares(methods, HttpMethod(name)))
  }

  lemma NothingListedYet(methods: Methods, keys: set<string>)
    requires keys == VALID_METHODS.Keys
    ensures ListedSoFar([], methods, keys)
  {
    hide HttpMethod, Shares;
    assert keys - keys == {};
    assert forall name: string :: name !in keys - keys;
  }

  lemma OneMoreVisited(names: seq<string>, methods: Methods, left: set<string>, name: string)
    requires ListedSoFar(names, methods, left) && name in left && name in VALID_METHODS.Keys
    ensures ListedSoFar(if Shares(methods, HttpMethod(name)) then names + [name] else names, methods, left - {name})
  {
    hide HttpMethod, Shares;
    var keys := VALID_METHODS.Keys;
    var names' := if Shares(methods, HttpMethod(name)) then names + [name] else names;
    forall n: string
      ensures Names(names', n, n in keys - (left - {name}) && Shares(methods, HttpMethod(n)))
    {
      assert Names(names, n, n in keys - left && Shares(methods, HttpMethod(n)));
    }
  }

  /** web/router.go:96-102. Go visits the map in any order. */
  method MethodList(methods: Methods) returns (names: seq<string>)
    ensures Listed(names, methods)
  {
    var list: seq<string> := [];
    var left := VALID_METHODS.Keys;
    NothingListedYet(methods, left);
    while left != {}
      invariant left <= VALID_METHODS.Keys
      invariant ListedSoFar(list, methods, left)
      decreases |left|
    {
      hide ListedSoFar;
      var mname :| mname in left;
      OneMoreVisited(list, methods, left, mname);
      if Shares(methods, HttpMethod(mname)) {
        list := list + [mname];
      }
      left := left - {mname};
    }
    names := SortStrings(list);
    forall name: string
      ensures Names(names, name, name in VALID_METHODS && Shares(methods, HttpMethod(name)))
    {
      assert Names(list, name, name in VALID_METHODS.Keys - left && Shares(methods, HttpMethod(name)));
    }
  }
}
