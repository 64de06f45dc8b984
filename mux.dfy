/**
 * The dispatcher of mic.go: the route table and filter list of `RouteMux`,
 * their registration calls, and `ServeHTTP`.
 *
 * The regular-expression engine is not modelled: `Env.matches` stands for
 * `MatchString` (an unanchored search, about which nothing is assumed) and the
 * `compiles` argument of `AddRoute` for the success of `regexp.Compile`.
 */
module Mux {
  import opened Wrappers
  import opened Response
  import Mime

  const GET := "GET"
  const POST := "POST"

  /** The parts of an `*http.Request` that dispatch looks at. */
  datatype Request = Request(verb: string, path: string)

  /** A route's handler function, as dispatch can tell them apart. */
  datatype Handler =
    | Func(name: string)          // an application handler, opaque to the mux
    | PublicFiles(dir: string)    // the handler `Public` registers, serving files under dir

  /** A filter (middleware) function. */
  datatype Middleware =
    | Custom(name: string)        // an application filter, opaque to the mux
    | Cors                        // the filter `Run` registers

  datatype Route = Route(verb: string, pattern: string, handler: Handler)

  /** What dispatch relies on but does not implement. */
  datatype Env = Env(
    matches: (string, string) -> bool,             // regex MatchString: (pattern, path)
    behaviour: (string, Request) -> seq<Action>,   // what application handler `name` does
    serveFile: (string, string) -> seq<Action>)    // http.ServeFile of a URL path under a directory

  /** The headers the filter registered by `Run` sets. */
  const CorsHeaders := [
    SetHeader("Access-Control-Allow-Origin", "*"),
    SetHeader("Access-Control-Allow-Methods", "POST, GET"),
    AddHeader("Access-Control-Allow-Headers", "Content-Type"),
    SetHeader("Content-Type", "application/json;charset=utf-8")]

  /** What a filter does to the response for a request. */
  function FilterActions(f: Middleware, req: Request, env: Env): seq<Action> {
    match f
    case Custom(name) => env.behaviour(name, req)
    case Cors => CorsHeaders
  }

  /** What a route's handler does to the response for a request. */
  function Actions(h: Handler, req: Request, env: Env): seq<Action> {
    match h
    case Func(name) => env.behaviour(name, req)
    case PublicFiles(dir) =>
      match Mime.PublicContentType(req.path)
      case None => [Panic]    // strings.Split(url, ".")[1] is out of range
      case Some(ct) => [SetHeader("Content-Type", ct)] + env.serveFile(dir, req.path)
  }

  /** The two tests of the route loop: same method, pattern found in the path. */
  predicate Matched(route: Route, req: Request, matches: (string, string) -> bool) {
    route.verb == req.verb && matches(route.pattern, req.path)
  }

  /** The route the scan of `ServeHTTP` stops at: the earliest one that matches. */
  function FirstMatch(routes: seq<Route>, req: Request, matches: (string, string) -> bool): (found: Option<nat>)
    ensures found.Some? ==> found.value < |routes| && Matched(routes[found.value], req, matches)
    ensures found.Some? ==> forall j :: 0 <= j < found.value ==> !Matched(routes[j], req, matches)
    ensures found.None? ==> forall j :: 0 <= j < |routes| ==> !Matched(routes[j], req, matches)
    decreases |routes|
  {
    if routes == [] then None
    else if Matched(routes[0], req, matches) then Some(0)
    else match FirstMatch(routes[1..], req, matches)
      case None => None
      case Some(k) => Some(k + 1)
  }

  /** One entry of the record of what ran during a request. */
  datatype Step = RanFilter(index: nat) | RanRoute(index: nat) | RanNotFound

  /** `[RanFilter(0), ..., RanFilter(n-1)]`: the first n filters, in order. */
  function FilterSteps(n: nat): (steps: seq<Step>)
    ensures |steps| == n
    ensures forall j :: 0 <= j < n ==> steps[j] == RanFilter(j)
  {
    if n == 0 then [] else FilterSteps(n - 1) + [RanFilter(n - 1)]
  }

  /** How the filter loop stands: still going, returned after filter k, or panicked in it. */
  datatype Halt = Running | Stopped(at: nat) | Crashed(at: nat)

  datatype Chain = Chain(resp: Resp, trace: seq<Step>, halt: Halt)

  /** One filter has run with outcome `run`: record it, and stop on a panic or a started response. */
  function Advance(c: Chain, k: nat, run: Run): Chain {
    var trace := c.trace + [RanFilter(k)];
    if run.panicked then Chain(run.resp, trace, Crashed(k))
    else if run.resp.started then Chain(run.resp, trace, Stopped(k))
    else Chain(run.resp, trace, Running)
  }

  /** The filter loop over the first n filters, starting from an unstarted response. */
  function RunChain(filters: seq<Middleware>, req: Request, env: Env, n: nat): Chain
    requires n <= |filters|
  {
    if n == 0 then Chain(Unstarted, [], Running)
    else
      var c := RunChain(filters, req, env, n - 1);
      if !c.halt.Running? then c
      else Advance(c, n - 1, RunActions(c.resp, FilterActions(filters[n - 1], req, env)))
  }

  /** Once the filter loop has stopped, running it further changes nothing. */
  lemma {:induction false} ChainStaysHalted(filters: seq<Middleware>, req: Request, env: Env, n: nat, m: nat)
    requires n <= m <= |filters|
    requires !RunChain(filters, req, env, n).halt.Running?
    ensures RunChain(filters, req, env, m) == RunChain(filters, req, env, n)
    decreases m
  {
    if m > n {
      ChainStaysHalted(filters, req, env, n, m - 1);
    }
  }

  /** One step of a running filter loop that has run the first k filters. */
  lemma AdvanceShape(c: Chain, k: nat, run: Run)
    requires c.halt.Running? && c.trace == FilterSteps(k)
    ensures var d := Advance(c, k, run);
      && d.trace == FilterSteps(k + 1)
      && (d.halt.Running? ==> !d.resp.started)
      && (d.halt.Stopped? ==> d.halt.at == k && d.resp.started)
      && (d.halt.Crashed? ==> d.halt.at == k)
  {
  }

  /** How many filters have run when the loop over n filters stands at h. */
  function FiltersRun(h: Halt, n: nat): nat {
    match h
    case Running => n
    case Stopped(k) => k + 1
    case Crashed(k) => k + 1
  }

  /** The filter loop after one more filter, when it was still running before it. */
  lemma ChainShapeStep(filters: seq<Middleware>, req: Request, env: Env, n: nat)
    requires 0 < n <= |filters|
    requires RunChain(filters, req, env, n - 1).halt.Running?
    requires RunChain(filters, req, env, n - 1).trace == FilterSteps(n - 1)
    ensures var c := RunChain(filters, req, env, n);
      && FiltersRun(c.halt, n) == n
      && c.trace == FilterSteps(n)
      && (c.halt.Running? ==> !c.resp.started)
      && (c.halt.Stopped? ==> c.resp.started)
  {
    var prev := RunChain(filters, req, env, n - 1);
    var run := RunActions(prev.resp, FilterActions(filters[n - 1], req, env));
    var c := Advance(prev, n - 1, run);
    AdvanceShape(prev, n - 1, run);
    assert RunChain(filters, req, env, n) == c;
  }

  /**
   * The shape of the filter loop: filters run from the first, in order, one
   * step each; while it runs nothing has started the response; it stops right
   * after the filter that started the response or panicked.
   */
  lemma {:induction false} ChainShape(filters: seq<Middleware>, req: Request, env: Env, n: nat)
    requires n <= |filters|
    ensures var c := RunChain(filters, req, env, n);
      && FiltersRun(c.halt, n) <= n
      && c.trace == FilterSteps(FiltersRun(c.halt, n))
      && (c.halt.Running? ==> !c.resp.started)
      && (c.halt.Stopped? ==> c.resp.started)
    decreases n
  {
    if n > 0 {
      ChainShape(filters, req, env, n - 1);
      var prev := RunChain(filters, req, env, n - 1);
      if prev.halt.Running? {
        ChainShapeStep(filters, req, env, n);
      } else {
        assert RunChain(filters, req, env, n) == prev;
        assert FiltersRun(prev.halt, n) == FiltersRun(prev.halt, n - 1);
      }
    }
  }

  /** The result of dispatching one request. */
  datatype Outcome = Outcome(resp: Resp, trace: seq<Step>, panicked: bool)

  /** The check after the loop: a response nothing has started gets the 404 reply. */
  function Fallback(o: Outcome): Outcome {
    if o.resp.started then o
    else Outcome(RunActions(o.resp, NotFoundReply).resp, o.trace + [RanNotFound], false)
  }

  /** What `ServeHTTP` does with a request, as a function of the table. */
  function Serve(routes: seq<Route>, filters: seq<Middleware>, req: Request, env: Env): Outcome {
    match FirstMatch(routes, req, env.matches)
    case None => Fallback(Outcome(Unstarted, [], false))
    case Some(i) =>
      var c := RunChain(filters, req, env, |filters|);
      if c.halt.Crashed? then Outcome(c.resp, c.trace, true)
      else if c.halt.Stopped? then Outcome(c.resp, c.trace, false)
      else
        var run := RunActions(c.resp, Actions(routes[i].handler, req, env));
        var o := Outcome(run.resp, c.trace + [RanRoute(i)], run.panicked);
        if run.panicked then o else Fallback(o)
  }

  /** Why a registration was refused: the pattern does not compile. */
  datatype Registration = Registered | BadPattern(pattern: string)

  /** The route table and filter list (`RouteMux`). */
  class RouteMux {
    var routes: seq<Route>
    var filters: seq<Middleware>

    /** `Server()`: an empty table. */
    constructor ()
      ensures routes == [] && filters == []
    {
      routes, filters := [], [];
    }

    /**
     * `AddRoute`: compiles the pattern and appends one route at the end. A
     * pattern that does not compile makes the source panic; here it is
     * refused and the table is left as it was.
     */
    method AddRoute(verb: string, pattern: string, handler: Handler, compiles: string -> bool)
      returns (result: Registration)
      modifies this
      ensures filters == old(filters)
      ensures compiles(pattern) ==> result == Registered && routes == old(routes) + [Route(verb, pattern, handler)]
      ensures !compiles(pattern) ==> result == BadPattern(pattern) && routes == old(routes)
    {
      if !compiles(pattern) {
        return BadPattern(pattern);
      }
      routes := routes + [Route(verb, pattern, handler)];
      result := Registered;
    }

    /** `Get`: a route for method GET. */
    method Get(pattern: string, handler: Handler, compiles: string -> bool) returns (result: Registration)
      modifies this
      ensures filters == old(filters)
      ensures compiles(pattern) ==> result == Registered && routes == old(routes) + [Route(GET, pattern, handler)]
      ensures !compiles(pattern) ==> result == BadPattern(pattern) && routes == old(routes)
    {
      result := AddRoute(GET, pattern, handler, compiles);
    }

    /** `Post`: a route for method POST. */
    method Post(pattern: string, handler: Handler, compiles: string -> bool) returns (result: Registration)
      modifies this
      ensures filters == old(filters)
      ensures compiles(pattern) ==> result == Registered && routes == old(routes) + [Route(POST, pattern, handler)]
      ensures !compiles(pattern) ==> result == BadPattern(pattern) && routes == old(routes)
    {
      result := AddRoute(POST, pattern, handler, compiles);
    }

    /**
     * `Public(prefix)`: a GET route whose pattern is the prefix followed by a
     * capture-everything group, serving files under `dir` (the working
     * directory the source reads with `os.Getwd`).
     */
    method Public(prefix: string, dir: string, compiles: string -> bool) returns (result: Registration)
      modifies this
      ensures filters == old(filters)
      ensures var pattern := Mime.PublicPattern(prefix);
        && (compiles(pattern) ==> result == Registered && routes == old(routes) + [Route(GET, pattern, PublicFiles(dir))])
        && (!compiles(pattern) ==> result == BadPattern(pattern) && routes == old(routes))
    {
      result := AddRoute(GET, Mime.PublicPattern(prefix), PublicFiles(dir), compiles);
    }

    /** `Filter`: appends one filter at the end; the routes stay. */
    method Filter(filter: Middleware)
      modifies this
      ensures filters == old(filters) + [filter]
      ensures routes == old(routes)
    {
      filters := filters + [filter];
    }

    /** `Run`, up to the listener: registers the filter that sets the CORS headers. */
    method Run()
      modifies this
      ensures filters == old(filters) + [Cors]
      ensures routes == old(routes)
    {
      Filter(Cors);
    }

    /**
     * The filter loop inside `ServeHTTP`: each filter in order, stopping after
     * one that started the response (`stop`, the early return) or panicked.
     */
    method ServeFilters(w: ResponseWriter, req: Request, env: Env)
      returns (trace: seq<Step>, panicked: bool, stop: bool)
      requires w.State() == Unstarted
      modifies w
      ensures var c := RunChain(filters, req, env, |filters|);
        && w.State() == c.resp && trace == c.trace
        && panicked == c.halt.Crashed? && stop == !c.halt.Running?
    {
      trace, panicked, stop := [], false, false;
      var k := 0;
      while k < |filters|
        invariant 0 <= k <= |filters|
        invariant RunChain(filters, req, env, k) == Chain(w.State(), trace, Running)
        invariant !panicked
      {
        ghost var c := RunChain(filters, req, env, k);
        ghost var run := RunActions(w.State(), FilterActions(filters[k], req, env));
        panicked := w.Handle(FilterActions(filters[k], req, env));
        assert run == Response.Run(w.State(), panicked);
        assert RunChain(filters, req, env, k + 1) == Advance(c, k, run);
        trace := trace + [RanFilter(k)];
        if panicked || w.started {
          ChainStaysHalted(filters, req, env, k + 1, |filters|);
          stop := true;
          return;
        }
        k := k + 1;
      }
    }

    /**
     * `ServeHTTP`: the first route whose method and pattern match; then the
     * filters, returning as soon as one has started the response; then the
     * route's handler; and a 404 when nothing has started the response. A
     * panic in a handler ends the call there.
     */
    method ServeHTTP(req: Request, env: Env) returns (w: ResponseWriter, trace: seq<Step>, panicked: bool)
      ensures fresh(w)
      ensures Outcome(w.State(), trace, panicked) == Serve(routes, filters, req, env)
    {
      w := new ResponseWriter();
      trace, panicked := [], false;
      var i := 0;
      while i < |routes|
        invariant 0 <= i <= |routes|
        invariant forall j :: 0 <= j < i ==> !Matched(routes[j], req, env.matches)
        invariant w.State() == Unstarted && trace == [] && !panicked
      {
        var route := routes[i];
        if req.verb != route.verb {
          i := i + 1;
          continue;
        }
        if !env.matches(route.pattern, req.path) {
          i := i + 1;
          continue;
        }
        assert FirstMatch(routes, req, env.matches) == Some(i);
        var stop;
        trace, panicked, stop := ServeFilters(w, req, env);
        if stop {
          return;
        }
        panicked := w.Handle(Actions(route.handler, req, env));
        trace := trace + [RanRoute(i)];
        if panicked {
          return;
        }
        break;
      }
      if !w.started {
        w.NotFound();
        trace := trace + [RanNotFound];
      }
    }
  }
}
