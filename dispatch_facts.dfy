/**
 * Properties of dispatch in mic.go, stated about `Mux.Serve`, the function
 * that `RouteMux.ServeHTTP` is proved to compute.
 */
module DispatchFacts {
  import opened Wrappers
  import opened Response
  import opened Mux

  /**
   * When no route matches, no filter runs: the reply is the 404, written
   * directly on an unstarted response.
   */
  lemma NoMatchIsNotFound(routes: seq<Route>, filters: seq<Middleware>, req: Request, env: Env)
    requires FirstMatch(routes, req, env.matches).None?
    ensures var o := Serve(routes, filters, req, env);
      && o.trace == [RanNotFound] && !o.panicked
      && o.resp.started && o.resp.status == 404
      && o.resp.sent == [Status(404), Body(NotFoundBody)]
  {
    NotFoundResponds(Unstarted);
  }

  /**
   * A route handler runs only for the first matching route, and only after
   * every filter has run, in order, without starting the response.
   */
  lemma RouteRunsOnlyAfterFilters(routes: seq<Route>, filters: seq<Middleware>, req: Request, env: Env)
    ensures var o := Serve(routes, filters, req, env);
      forall j :: 0 <= j < |o.trace| && o.trace[j].RanRoute? ==>
        && j == |filters|
        && FirstMatch(routes, req, env.matches) == Some(o.trace[j].index)
        && o.trace[..j] == FilterSteps(|filters|)
        && RunChain(filters, req, env, |filters|).halt.Running?
        && !RunChain(filters, req, env, |filters|).resp.started
  {
    var o := Serve(routes, filters, req, env);
    var n := |filters|;
    var c := RunChain(filters, req, env, n);
    ChainShape(filters, req, env, n);
    ServeCases(routes, filters, req, env);
    forall j | 0 <= j < |o.trace| && o.trace[j].RanRoute?
      ensures j == n && FirstMatch(routes, req, env.matches) == Some(o.trace[j].index)
      ensures o.trace[..j] == FilterSteps(n) && c.halt.Running? && !c.resp.started
    {
      if j < |c.trace| {
        assert false;
      }
      assert o.trace[..|c.trace|] == c.trace;
    }
  }

  /** At most one route handler runs per request. */
  lemma AtMostOneRoute(routes: seq<Route>, filters: seq<Middleware>, req: Request, env: Env)
    ensures var o := Serve(routes, filters, req, env);
      forall j, l ::
        0 <= j < |o.trace| && 0 <= l < |o.trace| && o.trace[j].RanRoute? && o.trace[l].RanRoute?
        ==> j == l
  {
    RouteRunsOnlyAfterFilters(routes, filters, req, env);
  }

  /**
   * First match wins: a route registered after an earlier route that also
   * matches never has its handler run.
   */
  lemma EarlierRouteWins(routes: seq<Route>, filters: seq<Middleware>, req: Request, env: Env, a: nat, b: nat)
    requires a < b < |routes|
    requires Matched(routes[a], req, env.matches)
    ensures var o := Serve(routes, filters, req, env);
      forall j :: 0 <= j < |o.trace| ==> o.trace[j] != RanRoute(b)
  {
    RouteRunsOnlyAfterFilters(routes, filters, req, env);
  }

  /**
   * `Serve` case by case: the 404 alone when nothing matches; otherwise the
   * filter loop, and, if it ran through, the route's handler and the 404 when
   * the handler neither wrote nor panicked.
   */
  lemma ServeCases(routes: seq<Route>, filters: seq<Middleware>, req: Request, env: Env)
    ensures var o := Serve(routes, filters, req, env);
      var c := RunChain(filters, req, env, |filters|);
      match FirstMatch(routes, req, env.matches)
      case None =>
        o == Outcome(RunActions(Unstarted, NotFoundReply).resp, [RanNotFound], false)
      case Some(i) =>
        var run := RunActions(c.resp, Actions(routes[i].handler, req, env));
        && (!c.halt.Running? ==> o == Outcome(c.resp, c.trace, c.halt.Crashed?))
        && (c.halt.Running? && (run.panicked || run.resp.started) ==>
              o == Outcome(run.resp, c.trace + [RanRoute(i)], run.panicked))
        && (c.halt.Running? && !run.panicked && !run.resp.started ==>
              o == Outcome(RunActions(run.resp, NotFoundReply).resp, c.trace + [RanRoute(i), RanNotFound], false))
  {
    var c := RunChain(filters, req, env, |filters|);
    match FirstMatch(routes, req, env.matches)
    case None =>
    case Some(i) =>
      if c.halt.Running? {
        var run := RunActions(c.resp, Actions(routes[i].handler, req, env));
        var o := Outcome(run.resp, c.trace + [RanRoute(i)], run.panicked);
        assert Serve(routes, filters, req, env) == if run.panicked then o else Fallback(o);
        assert c.trace + [RanRoute(i)] + [RanNotFound] == c.trace + [RanRoute(i), RanNotFound];
      }
  }

  /**
   * Filters run from the first, in registration order, before anything else,
   * and only once a route has matched: the j-th step, when it is a filter, is
   * filter j.
   */
  lemma FiltersRunInOrder(routes: seq<Route>, filters: seq<Middleware>, req: Request, env: Env)
    ensures var o := Serve(routes, filters, req, env);
      forall j :: 0 <= j < |o.trace| && o.trace[j].RanFilter? ==>
        o.trace[j].index == j && j < |filters| && FirstMatch(routes, req, env.matches).Some?
  {
    var o := Serve(routes, filters, req, env);
    var n := |filters|;
    var c := RunChain(filters, req, env, n);
    ChainShape(filters, req, env, n);
    ServeCases(routes, filters, req, env);
    forall j | 0 <= j < |o.trace| && o.trace[j].RanFilter?
      ensures o.trace[j].index == j && j < n && FirstMatch(routes, req, env.matches).Some?
    {
      if FirstMatch(routes, req, env.matches).Some? && j < |c.trace| {
        assert o.trace[j] == c.trace[j];
      }
    }
  }

  /**
   * Filter short-circuit: when filter k is reached and starts the response
   * (or panics), no later filter, no route handler and no 404 run, and the
   * response is as filter k left it.
   */
  lemma FilterStopsDispatch(routes: seq<Route>, filters: seq<Middleware>, req: Request, env: Env, k: nat)
    requires FirstMatch(routes, req, env.matches).Some?
    requires k < |filters|
    requires RunChain(filters, req, env, k).halt.Running?
    requires var run := RunActions(RunChain(filters, req, env, k).resp, FilterActions(filters[k], req, env));
      run.panicked || run.resp.started
    ensures var o := Serve(routes, filters, req, env);
      var run := RunActions(RunChain(filters, req, env, k).resp, FilterActions(filters[k], req, env));
      && o.trace == FilterSteps(k + 1)
      && o.resp == run.resp && o.panicked == run.panicked
  {
    var c := RunChain(filters, req, env, k);
    var run := RunActions(c.resp, FilterActions(filters[k], req, env));
    ChainShape(filters, req, env, k);
    ChainShapeStep(filters, req, env, k + 1);
    var stopped := RunChain(filters, req, env, k + 1);
    assert stopped == Advance(c, k, run);
    assert !stopped.halt.Running? && stopped.resp == run.resp && stopped.halt.Crashed? == run.panicked;
    ChainStaysHalted(filters, req, env, k + 1, |filters|);
    assert Serve(routes, filters, req, env) == Outcome(stopped.resp, stopped.trace, stopped.halt.Crashed?);
  }

  /**
   * The 404 fallback: when the matched handler returns without writing, the
   * 404 reply follows it.
   */
  lemma SilentHandlerGetsNotFound(routes: seq<Route>, filters: seq<Middleware>, req: Request, env: Env)
    requires FirstMatch(routes, req, env.matches).Some?
    requires RunChain(filters, req, env, |filters|).halt.Running?
    requires var i := FirstMatch(routes, req, env.matches).value;
      var run := RunActions(RunChain(filters, req, env, |filters|).resp, Actions(routes[i].handler, req, env));
      !run.panicked && !run.resp.started
    ensures var o := Serve(routes, filters, req, env);
      var i := FirstMatch(routes, req, env.matches).value;
      && o.trace == FilterSteps(|filters|) + [RanRoute(i), RanNotFound]
      && !o.panicked && o.resp.started && o.resp.status == 404
  {
    ChainShape(filters, req, env, |filters|);
    var i := FirstMatch(routes, req, env.matches).value;
    var run := RunActions(RunChain(filters, req, env, |filters|).resp, Actions(routes[i].handler, req, env));
    NotFoundResponds(run.resp);
  }

  /**
   * A handler that wrote keeps its response: no 404 is added after it, and
   * what it forwarded is all that was forwarded.
   */
  lemma WritingHandlerIsTheResponse(routes: seq<Route>, filters: seq<Middleware>, req: Request, env: Env)
    requires FirstMatch(routes, req, env.matches).Some?
    requires RunChain(filters, req, env, |filters|).halt.Running?
    requires var i := FirstMatch(routes, req, env.matches).value;
      var run := RunActions(RunChain(filters, req, env, |filters|).resp, Actions(routes[i].handler, req, env));
      !run.panicked && run.resp.started
    ensures var o := Serve(routes, filters, req, env);
      var i := FirstMatch(routes, req, env.matches).value;
      && o.trace == FilterSteps(|filters|) + [RanRoute(i)]
      && o.resp == RunActions(RunChain(filters, req, env, |filters|).resp, Actions(routes[i].handler, req, env)).resp
  {
    ChainShape(filters, req, env, |filters|);
  }

  /** Every dispatch that does not panic ends with the response started. */
  lemma ResponseAlwaysStarted(routes: seq<Route>, filters: seq<Middleware>, req: Request, env: Env)
    ensures var o := Serve(routes, filters, req, env);
      !o.panicked ==> o.resp.started
  {
    var c := RunChain(filters, req, env, |filters|);
    ChainShape(filters, req, env, |filters|);
    ServeCases(routes, filters, req, env);
    match FirstMatch(routes, req, env.matches)
    case None =>
      NotFoundResponds(Unstarted);
    case Some(i) =>
      var run := RunActions(c.resp, Actions(routes[i].handler, req, env));
      if c.halt.Running? && !run.panicked && !run.resp.started {
        NotFoundResponds(run.resp);
      }
  }

  /** The 404 is written at most once, only as the last step, and then the status is 404. */
  lemma NotFoundOnlyLast(routes: seq<Route>, filters: seq<Middleware>, req: Request, env: Env)
    ensures var o := Serve(routes, filters, req, env);
      forall j :: 0 <= j < |o.trace| && o.trace[j] == RanNotFound ==>
        j == |o.trace| - 1 && o.resp.status == 404
  {
    var o := Serve(routes, filters, req, env);
    var c := RunChain(filters, req, env, |filters|);
    ChainShape(filters, req, env, |filters|);
    ServeCases(routes, filters, req, env);
    assert RanNotFound !in c.trace by {
      forall j | 0 <= j < |c.trace|
        ensures c.trace[j] != RanNotFound
      {
        assert c.trace[j] == RanFilter(j);
      }
    }
    match FirstMatch(routes, req, env.matches)
    case None =>
      NotFoundResponds(Unstarted);
    case Some(i) =>
      var run := RunActions(c.resp, Actions(routes[i].handler, req, env));
      if !c.halt.Running? {
        assert o.trace == c.trace;
      } else if run.panicked || run.resp.started {
        assert o.trace == c.trace + [RanRoute(i)];
        assert RanNotFound !in o.trace;
      } else {
        NotFoundResponds(run.resp);
        assert o.trace == (c.trace + [RanRoute(i)]) + [RanNotFound];
        assert RanNotFound !in c.trace + [RanRoute(i)];
      }
  }

  /** The filter `Run` registers only sets headers, so it never ends the filter loop. */
  lemma CorsFilterPassesThrough(r: Resp, req: Request, env: Env)
    ensures var run := RunActions(r, FilterActions(Cors, req, env));
      && !run.panicked && run.resp.started == r.started
      && run.resp.status == r.status && run.resp.sent == r.sent
  {
    HeaderOnlyRun(r, CorsHeaders);
  }

  /** With only CORS filters registered, the first matching route's handler always runs. */
  lemma {:induction false} CorsChainRuns(filters: seq<Middleware>, req: Request, env: Env, n: nat)
    requires n <= |filters|
    requires forall k :: 0 <= k < |filters| ==> filters[k] == Cors
    ensures RunChain(filters, req, env, n).halt.Running?
    ensures RunChain(filters, req, env, n).resp.started == false
    decreases n
  {
    if n > 0 {
      CorsChainRuns(filters, req, env, n - 1);
      var prev := RunChain(filters, req, env, n - 1);
      CorsFilterPassesThrough(prev.resp, req, env);
      var run := RunActions(prev.resp, FilterActions(Cors, req, env));
      assert filters[n - 1] == Cors;
      assert RunChain(filters, req, env, n) == Advance(prev, n - 1, run);
    }
  }

  // ---------------------------------------------------------------------------
  // Worked requests

  /** A route for "/hello$" whose handler writes "hi": the reply is exactly that body. */
  lemma HelloRoute(env: Env)
    requires env.matches("/hello$", "/hello")
    requires env.behaviour("hello", Request(GET, "/hello")) == [Write("hi")]
    ensures var o := Serve([Route(GET, "/hello$", Func("hello"))], [], Request(GET, "/hello"), env);
      o.resp.sent == [Body("hi")] && o.trace == [RanRoute(0)] && !o.panicked
  {
    var acts := [Write("hi")];
    assert acts[1..] == [];
    assert RunActions(Unstarted, acts) == Run(Apply(Unstarted, Write("hi")), false);
  }

  /** A filter that writes 403 answers the request; the matching route never runs. */
  lemma ForbiddingFilter(env: Env)
    requires env.matches("/x$", "/x")
    requires env.behaviour("deny", Request(GET, "/x")) == [WriteHeader(403)]
    ensures var o := Serve([Route(GET, "/x$", Func("x"))], [Custom("deny")], Request(GET, "/x"), env);
      o.resp.status == 403 && o.trace == [RanFilter(0)]
  {
    var routes := [Route(GET, "/x$", Func("x"))];
    var filters := [Custom("deny")];
    var req := Request(GET, "/x");
    var acts := [WriteHeader(403)];
    assert acts[1..] == [];
    var after := Apply(Unstarted, WriteHeader(403));
    assert RunActions(Unstarted, acts) == Run(after, false);
    assert FirstMatch(routes, req, env.matches) == Some(0);
    assert RunChain(filters, req, env, 1) == Chain(after, [RanFilter(0)], Stopped(0));
  }

  /** GET and POST routes on the same pattern: a POST request runs only the POST handler. */
  lemma MethodSelectsRoute(filters: seq<Middleware>, env: Env)
    requires env.matches("/a$", "/a")
    ensures var routes := [Route(GET, "/a$", Func("read")), Route(POST, "/a$", Func("write"))];
      var o := Serve(routes, filters, Request(POST, "/a"), env);
      forall j :: 0 <= j < |o.trace| && o.trace[j].RanRoute? ==> o.trace[j] == RanRoute(1)
  {
    var routes := [Route(GET, "/a$", Func("read")), Route(POST, "/a$", Func("write"))];
    assert FirstMatch(routes, Request(POST, "/a"), env.matches) == Some(1);
    RouteRunsOnlyAfterFilters(routes, filters, Request(POST, "/a"), env);
  }
}
