/** The interpreter loop (web/bytecode_runner.go), proved to be the naive router. */
module Runner {
  import opened Bytes
  import opened Options
  import opened StringPatterns
  import opened MethodSets
  import opened Routing
  import opened Bytecode
  import opened Machines

  /** A run that ends well takes one good step after another. */
  lemma OneStepOn<C>(rm: RouteMachine, rq: Request<C>, st: Status<C>, n: nat, o: Outcome<C>)
    requires st.Running? && Steps(rm, rq, st, n) == Halted(o)
    ensures n > 0 && Steps(rm, rq, Step(rm, rq, st), n - 1) == Halted(o)
    ensures Step(rm, rq, st) != Fault
    ensures Step(rm, rq, st).Halted? ==> Step(rm, rq, st) == Halted(o)
  {
    hide Step;
    if !Step(rm, rq, st).Running? {
      DoneStaysDone(rm, rq, Step(rm, rq, st), n - 1);
    }
  }

  /** web/bytecode_runner.go:10-21; `ms` is written through a pointer there. */
  method MatchRoute<C>(r: Route, rq: Request<C>, ms: Methods, ctx: C, ghost tried: seq<Route>) returns (ok: bool, ms': Methods, ctx': C)
    ensures var s' := Progress(ctx', ms', tried + [r]);
            TryRoute(r, rq, Progress(ctx, ms, tried)) == if ok then Took(r, s') else Missed(s')
  {
    hide Shares, Joined;
    ms' := ms;
    ok, ctx' := CallMatch(rq, r.pattern, ctx);
    if !ok {
      return;
    }
    ms' := Joined(ms', r.methods);
    ok := Shares(r.methods, rq.m);
    if ok {
      ctx' := rq.run(r.pattern, ctx');
    }
  }

  method CallMatch<C>(rq: Request<C>, p: Pattern, ctx: C) returns (ok: bool, ctx': C)
    ensures (ok, ctx') == rq.matches(p, ctx)
  {
    var verdict := rq.matches(p, ctx);
    ok, ctx' := verdict.0, verdict.1;
  }

  /** The comparison of web/bytecode_runner.go:42-66, byte by byte from the last. */
  method Compare(x: Instr, p: Str) returns (hit: bool, p': Str)
    ensures hit == Hits(x, p)
    ensures p' == if hit then p[LengthOf(x.mode)..] else p
  {
    var length := LengthOf(x.mode);
    hit, p' := false, p;
    if length <= |p| {
      if length == 3 && p[2] != x.b2 {
        return;
      }
      if length >= 2 && p[1] != x.b1 {
        return;
      }
      if length >= 1 && p[0] != x.b0 {
        return;
      }
      p' := p[length..];
      hit := true;
    }
  }

  /** What the caller of `route` sees of an outcome. */
  ghost predicate Reports<C>(o: Outcome<C>, methods: Methods, taken: Option<Route>, ctx: C) {
    match o
    case Took(r, at) => methods == 0 && taken == Some(r) && ctx == at.ctx
    case Missed(at) => methods == at.methods && taken == None && ctx == at.ctx
  }

  /** web/bytecode_runner.go:23-83. On compiled code the loop stays in bounds, takes
      at most one turn per instruction, and reports what the naive router over the
      plausible routes would. `tried` lists the calls of Match. */
  method Run<C>(rm: RouteMachine, rq: Request<C>, ctx0: C)
    returns (methods: Methods, taken: Option<Route>, ctx: C, ghost tried: seq<Route>, ghost turns: nat)
    requires IsCompiled(rm.sm, rm.routes)
    ensures Reports(TryAll(Plausible(rm.routes, rq.path), rq, Initial(ctx0)), methods, taken, ctx)
    ensures tried == TryAll(Plausible(rm.routes, rq.path), rq, Initial(ctx0)).at.tried
    ensures turns <= |rm.sm|
  {
    hide Step, Hits, TryAll, Plausible, LengthOf;
    methods, ctx, tried, turns := 0, ctx0, [], 0;
    var p := rq.path;
    ghost var o := TryAll(Plausible(rm.routes, rq.path), rq, Initial(ctx0));
    if |rm.sm| == 0 {
      EmptyMachine(rm, rq, Initial(ctx0));
      return methods, None, ctx, tried, turns;
    }
    var i := 0;
    ghost var fuel := CompiledRunsLikeNaive(rm, rq, ctx0);
    while true
      invariant Steps(rm, rq, Running(i, p, Progress(ctx, methods, tried)), fuel) == Halted(o)
      invariant turns + fuel <= |rm.sm|
      decreases fuel
    {
      ghost var st := Running(i, p, Progress(ctx, methods, tried));
      OneStepOn(rm, rq, st, fuel, o);
      StepCases(rm, rq, i, p, Progress(ctx, methods, tried));
      fuel, turns := fuel - 1, turns + 1;
      var x := rm.sm[i];
      if x.mode & SET_CURSOR != 0 {
        p := rq.path[x.i..];
        i := i + 1;
        continue;
      }
      var hit;
      hit, p := Compare(x, p);
      if hit && x.mode & ROUTE != 0 {
        var ok;
        ok, methods, ctx := MatchRoute(rm.routes[x.i], rq, methods, ctx, tried);
        tried := tried + [rm.routes[x.i]];
        if ok {
          return 0, Some(rm.routes[x.i]), ctx, tried, turns;
        }
        i := i + 1;
      } else if hit != (x.mode & JUMP_ON_MATCH == 0) {
        if x.mode & FAIL != 0 {
          return methods, None, ctx, tried, turns;
        }
        i := x.i;
      } else {
        i := i + 1;
      }
    }
  }

  lemma EmptyMachine<C>(rm: RouteMachine, rq: Request<C>, s: Progress<C>)
    requires IsCompiled(rm.sm, rm.routes) && rm.sm == []
    ensures TryAll(Plausible(rm.routes, rq.path), rq, s) == Missed(s)
  {
    NoCodeNoRoutes(rm.sm, rm.routes);
  }

  /** The branches of one step that does not fault. */
  lemma StepCases<C>(rm: RouteMachine, rq: Request<C>, i: int, p: Str, s: Progress<C>)
    requires Step(rm, rq, Running(i, p, s)) != Fault
    ensures 0 <= i < |rm.sm|
    ensures
      var x, st' := rm.sm[i], Step(rm, rq, Running(i, p, s));
      if x.mode & SET_CURSOR != 0 then
        0 <= x.i <= |rq.path| && st' == Running(i + 1, rq.path[x.i..], s)
      else
        && (Hits(x, p) ==> LengthOf(x.mode) <= |p|)
        && var p' := if Hits(x, p) then p[LengthOf(x.mode)..] else p;
        if Hits(x, p) && x.mode & ROUTE != 0 then
          && 0 <= x.i < |rm.routes|
          && match TryRoute(rm.routes[x.i], rq, s)
             case Took(r, at) => st' == Halted(Took(r, at))
             case Missed(at) => st' == Running(i + 1, p', at)
        else if Hits(x, p) != (x.mode & JUMP_ON_MATCH == 0) then
          st' == if x.mode & FAIL != 0 then Halted(Missed(s)) else Running(x.i, p', s)
        else st' == Running(i + 1, p', s)
  {}
}
