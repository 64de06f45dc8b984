# mic dispatch engine, modelled in Dafny

`mic` is a small Go HTTP micro-framework. Its whole engine lives in `mic.go`. A `RouteMux` holds an
append-only list of routes (method, regular expression, handler) and an append-only list of
filters. `ServeHTTP` wraps the response in a `responseWriter`, which records whether anything has
been written (`started`) and the last status code. It scans the routes in registration order and
takes the first one whose method equals the request's and whose regex is found in the path. Then it
runs the filters in order, returning as soon as one has started the response. Then it calls the
route's handler. If nothing has started the response by the end, it writes a 404. `Public(prefix)`
registers a GET route for `prefix + "(.+)"`. Its handler picks a Content-Type from the field after
the first dot of the last path segment, and then serves the file.

The project has five modules:

- `Wrappers` (wrappers.dfy): `Option`.
- `Mime` (mime.dfy): the pure parts of `Public`. These are the pattern derivation, Go's
  `strings.Split` for a one-character separator (with `Join` as its inverse), the last path
  segment, the extension field and the Content-Type switch.
- `Response` (response.dfy): the tracker. A handler's effect on the response is a sequence of
  `Action`s: header set/add/delete, `WriteHeader`, `Write`, or a panic. `Apply` and `RunActions`
  give their meaning on `Resp`, the value of the tracker's fields. The class `ResponseWriter`
  carries the fields `started` and `status`, plus the wrapped writer's header map and the list of
  writes forwarded to it. Its methods are proved against `Apply`/`RunActions`.
- `Mux` (mux.dfy): the route table and the dispatcher. Route handlers (`Handler`) are application
  functions or the handler `Public` builds; filters (`Middleware`) are application functions or the
  CORS filter `Run` registers. The handler `Public` builds is a closure passed straight to
  `AddRoute`, so it is never a filter. `FirstMatch`, `RunChain` (the filter loop)
  and `Serve` are the specification. The class `RouteMux` has the registration methods, plus
  `ServeHTTP`, which has the source's loop with `continue`/`break` and the early return.
  `ServeHTTP` is proved to compute `Serve`. The nested filter loop sits in the helper method
  `ServeFilters`.
- `DispatchFacts` (dispatch_facts.dfy): lemmas about `Serve`. They cover first match wins, at most
  one handler, filter order and short-circuit, the 404 fallback, and a response always started
  unless a handler panicked.

Dispatch depends on things the mux does not implement. They are parameters:
- `Env.matches(pattern, path)` stands for `MatchString`. That is an unanchored search, and nothing
  is assumed about it.
- the `compiles` argument of `AddRoute` stands for the success of `regexp.Compile`.
- `Env.behaviour(name, request)` gives the actions of the application handler `name`.
- `Env.serveFile(dir, path)` gives the actions of `http.ServeFile`.
- `http.NotFound` is modelled as net/http defines it (`Error` with code 404): it sets two headers,
  writes status 404, then writes the body `404 page not found\n`.

Two facts about dispatch are easy to miss. First, filters run only inside the route loop, after a
route has matched (mic.go:149-154). When no route matches, no filter runs and the 404 is written
directly (see `DispatchFacts.NoMatchIsNotFound`). Second, matching is `MatchString` (mic.go:144),
which searches for the pattern anywhere in the path rather than matching the whole path.

## Model

| member | source | states |
|---|---|---|
| Mime.PublicPattern | mic.go:71 | the pattern `Public` registers is the prefix unchanged, followed by exactly the capture group `(.+)` |
| Mime.Split | mic.go:75 | `strings.Split` with a one-character separator always yields at least one piece |
| Mime.SplitPiecesFree | mic.go:75 | no piece of a split contains the separator |
| Mime.JoinSplit | mic.go:75 | joining the pieces of a split with the separator gives back the original string |
| Mime.SplitAfterPiece | mic.go:75 | splitting a separator-free piece followed by more text glues the piece onto the first piece of the rest |
| Mime.SplitJoin | mic.go:75 | splitting a join of separator-free pieces gives back exactly those pieces (the other direction of the round trip) |
| Mime.SplitSeveral | mic.go:78 | a string splits into two or more pieces if and only if it contains the separator |
| Mime.JoinEndsWithLast | mic.go:77 | a join ends with the separator followed by its last piece |
| Mime.LastSegmentShape | mic.go:75-77 | `ur[len(ur)-1]` contains no `/`, is a suffix of the path, and is preceded by a `/` whenever it is shorter than the path |
| Mime.ExtensionFieldExists | mic.go:78 | `strings.Split(url, ".")[1]` exists if and only if the segment contains a dot (otherwise Go indexes out of range); the field contains no dot |
| Mime.ExtensionFieldPosition | mic.go:78 | the field is the text right after the FIRST dot, up to the next dot or the end: segment = stem + "." + field + rest, where the stem has no dot and rest is empty or starts with a dot |
| Mime.LastSegment | mic.go:75-77 | definition of `ur[len(ur)-1]`, the last piece of the path split at `/`; its properties are stated by `Mime.LastSegmentShape` and `Mime.LastSegmentAfterSlash` |
| Mime.ExtensionField | mic.go:78 | definition of `strings.Split(url, ".")[1]`, None where Go indexes out of range; its properties are stated by `Mime.ExtensionFieldExists`, `Mime.ExtensionFieldPosition`, `Mime.ExtensionOfTwo` and `Mime.ExtensionOfThree` |
| Mime.ContentType | mic.go:79-100 | definition of the `switch`, case by case; `Mime.ContentTypeFollowsTable` checks it against the table `MimeTable` and `Mime.ContentTypeTable` against the constants |
| Mime.PublicContentType | mic.go:75-100 | definition of the Content-Type the `Public` handler sets for a path, None where it panics; its properties are stated by `Mime.PublicContentTypeDefined`, `Mime.FileContentType`, `Mime.MiddleFieldDecides` and the worked cases below |
| Mime.ContentTypeFollowsTable | mic.go:79-100 | the switch gives the table's content type for html, png, css, jpg, js, gif, ico, pdf and txt, and `text/xml;charset=utf-8` for anything else |
| Mime.ContentTypeTable | mic.go:18-26 | each listed extension maps to its constant from mic.go:18-26, and an unlisted one (`min`) maps to the XML default |
| Mime.PublicContentTypeDefined | mic.go:75-100 | the handler's Content-Type lookup is undefined (the handler panics) exactly when the last segment has no dot |
| Mime.ExtensionOfTwo | mic.go:78 | for a file name with one dot, the field is the extension |
| Mime.ExtensionOfThree | mic.go:78 | for a file name with two dots, the field is the middle piece |
| Mime.LastSegmentAfterSlash | mic.go:75-77 | for any prefix, the last segment of `prefix + "/" + name` with a slash-free name is that name |
| Mime.FileContentType | mic.go:75-100 | a file name with one dot, under any prefix, gets its extension's content type |
| Mime.MiddleFieldDecides | mic.go:75-100 | with two dots in the file name, under any prefix, the middle field decides the content type, not the last one |
| Mime.ScriptIsJavascript | mic.go:88-89 | any `name.js` (name without a dot), under any prefix, is served as `text/javascript;charset=utf-8` |
| Mime.MinifiedScriptIsXml | mic.go:78-99 | any `name.min.js`, under any prefix, is served as `text/xml;charset=utf-8`, because its field is `min` |
| Mime.DotlessFileHasNoContentType | mic.go:78 | a file name without a dot (such as `LICENSE`), under any prefix, has no extension field, so the handler panics |
| Response.Apply | mic.go:180-197 | a write or status write sets `started` and nothing else does; only `WriteHeader` changes `status`, to its code; header actions forward nothing; `Write`/`WriteHeader` forward exactly their body/status |
| Response.RunActions | mic.go:150 | definition of calling a handler or filter with the tracker: its actions applied in order up to the first panic (used at mic.go:150 and mic.go:157); its properties are stated by `Response.RunPanicsIffPanic`, `Response.RunStartedIffWrote`, `Response.RunMonotone` and `Response.HeaderOnlyRun` |
| Response.RunPanicsIffPanic | mic.go:150 | a handler panics if and only if one of its actions is a panic |
| Response.RunStartedIffWrote | mic.go:186-197 | after a handler, the response has started if and only if it had started already or the handler wrote a status or body before any panic |
| Response.RunMonotone | mic.go:173-197 | `started` is never reset to false, and what was forwarded stays a prefix of what is forwarded later |
| Response.HeaderOnlyRun | mic.go:180-182 | a handler that only uses `Header()` leaves `started`, `status` and the forwarded writes unchanged and does not panic |
| Response.NotFoundResponds | mic.go:163 | `NotFoundReply`, the constant that defines `http.NotFound` (two headers, status 404, body `404 page not found\n`), is stated here: the 404 reply always starts the response with status 404 and forwards exactly the status and the body |
| Response.ResponseWriter.constructor | mic.go:133 | the wrapper starts unstarted, with status 0 and nothing forwarded |
| Response.ResponseWriter.Header | mic.go:180-182 | `Header()` returns the header map and changes nothing (no modifies clause) |
| Response.ResponseWriter.SetHeader | mic.go:180-182 | `Header().Set` replaces the key's values and keeps `started`, `status` and the forwarded writes |
| Response.ResponseWriter.AddHeader | mic.go:180-182 | `Header().Add` appends to the key's values and keeps `started` and `status` |
| Response.ResponseWriter.DelHeader | mic.go:180-182 | `Header().Del` drops the key and keeps `started` and `status` |
| Response.ResponseWriter.Write | mic.go:186-189 | `Write` leaves `started` true, keeps `status`, and forwards the body |
| Response.ResponseWriter.WriteHeader | mic.go:193-197 | `WriteHeader(code)` leaves `started` true and `status == code`, and forwards the status |
| Response.ResponseWriter.Perform | mic.go:180-197 | one action changes the tracker exactly as `Apply` says |
| Response.ResponseWriter.Handle | mic.go:150 | calling a handler with the tracker performs its actions in order up to a panic, as `RunActions` says |
| Response.ResponseWriter.NotFound | mic.go:162-164 | `http.NotFound` through the tracker leaves it started with status 404 |
| Mux.FirstMatch | mic.go:135-146 | the route found is the lowest index whose method equals the request's and whose pattern matches the path; none is found only when no route matches |
| Mux.Actions | mic.go:72-102 | definition of what a route handler does (the call at mic.go:157): an application handler's actions come from `Env.behaviour`; the `Public` closure sets the Content-Type from `Mime.PublicContentType` and then serves the file, or panics when there is no extension field; `DispatchFacts.SilentHandlerGetsNotFound` and `DispatchFacts.WritingHandlerIsTheResponse` state what dispatch does with it |
| Mux.FilterActions | mic.go:51-57 | definition of what a filter does (the call at mic.go:150): an application filter's actions come from `Env.behaviour`; the CORS filter runs the constant `CorsHeaders`, the four header calls at mic.go:53-56; `DispatchFacts.CorsFilterPassesThrough` and `DispatchFacts.CorsChainRuns` state its properties |
| Mux.RunChain | mic.go:149-154 | definition of the filter loop over the first n filters; its properties are stated by `Mux.ChainShape`, `Mux.ChainStaysHalted` and `Mux.ChainShapeStep`, and `Mux.RouteMux.ServeFilters` is proved to compute it |
| Mux.Fallback | mic.go:161-164 | definition of the final check: an unstarted response gets the 404 reply and the step `RanNotFound`; `DispatchFacts.NoMatchIsNotFound`, `DispatchFacts.SilentHandlerGetsNotFound` and `DispatchFacts.NotFoundOnlyLast` state its properties |
| Mux.Serve | mic.go:129-165 | definition of dispatch as a function of the table: first match, then the filter loop, then the handler, then the fallback; `Mux.RouteMux.ServeHTTP` is proved to compute it and the `DispatchFacts` lemmas state its properties |
| Mux.FilterSteps | mic.go:149 | the record of the first n filters lists filters 0 to n-1 in order |
| Mux.AdvanceShape | mic.go:149-153 | one step of a running filter loop adds exactly that filter to the record; the loop goes on only if the response has not started, and stops at that filter when it started the response |
| Mux.ChainStaysHalted | mic.go:151-152 | once the filter loop has returned, later filters change nothing |
| Mux.ChainShapeStep | mic.go:149-153 | after one more filter of a loop that was still running, exactly the first n filters are recorded, in order |
| Mux.ChainShape | mic.go:149-154 | the filter loop runs filters from the first in order, at most n of them; while it runs, the response has not started; it stops right after the filter that started the response or panicked |
| Mux.RouteMux.constructor | mic.go:47-49 | `Server()` has no routes and no filters |
| Mux.RouteMux.AddRoute | mic.go:105-120 | appends exactly one route (method, pattern, handler) at the end and keeps the filters; a pattern that does not compile is refused with the table unchanged |
| Mux.RouteMux.Get | mic.go:61-63 | registers the route with method `GET` |
| Mux.RouteMux.Post | mic.go:64-66 | registers the route with method `POST` |
| Mux.RouteMux.Public | mic.go:68-72 | registers one GET route with pattern `prefix + "(.+)"` and the public-file handler |
| Mux.RouteMux.Filter | mic.go:123-125 | appends exactly one filter at the end and keeps the routes |
| Mux.RouteMux.Run | mic.go:50-57 | appends the CORS filter and keeps the routes |
| Mux.RouteMux.ServeFilters | mic.go:149-154 | the filter loop leaves the tracker and the record as `RunChain` says, and signals the early return exactly when the loop stopped |
| Mux.RouteMux.ServeHTTP | mic.go:129-165 | the tracker is newly allocated (it aliases nothing); the tracker, the record of what ran, and whether a handler panicked are exactly `Serve` of the table |
| DispatchFacts.NoMatchIsNotFound | mic.go:135-164 | with no matching route, no filter and no handler runs, and the reply is the 404 alone |
| DispatchFacts.RouteRunsOnlyAfterFilters | mic.go:135-157 | a route handler runs only for the first match, and only after every filter ran, in order, without starting the response |
| DispatchFacts.AtMostOneRoute | mic.go:157-158 | at most one route handler runs per request |
| DispatchFacts.EarlierRouteWins | mic.go:135-158 | a route after an earlier matching route never has its handler run |
| DispatchFacts.ServeCases | mic.go:129-165 | the 404 alone when no route matches; otherwise the filter loop, then, only if it ran through, the route handler, then the 404 only if the handler neither wrote nor panicked |
| DispatchFacts.FiltersRunInOrder | mic.go:149-150 | filters run in registration order from the first, before anything else, and only once a route has matched |
| DispatchFacts.FilterStopsDispatch | mic.go:149-154 | if filter k starts the response (or panics), no later filter, no route handler and no 404 run, and the response is as filter k left it |
| DispatchFacts.SilentHandlerGetsNotFound | mic.go:157-164 | a matched handler that writes nothing is followed by the 404 |
| DispatchFacts.WritingHandlerIsTheResponse | mic.go:157-164 | a matched handler that writes is the whole response: no 404 follows it |
| DispatchFacts.ResponseAlwaysStarted | mic.go:161-164 | every dispatch without a panic ends with the response started |
| DispatchFacts.NotFoundOnlyLast | mic.go:157-164 | the 404 is written at most once, only as the last step, and leaves status 404 |
| DispatchFacts.CorsFilterPassesThrough | mic.go:51-57 | the filter `Run` registers only sets headers: it never starts the response or panics |
| DispatchFacts.CorsChainRuns | mic.go:51-57 | with only CORS filters registered, the filter loop always runs through to the route handler |
| DispatchFacts.HelloRoute | mic.go:135-158 | a GET route for `/hello$` whose handler writes `hi` produces exactly that body and runs only that route |
| DispatchFacts.ForbiddingFilter | mic.go:149-154 | a filter that writes 403 answers with 403, and the matching route never runs |
| DispatchFacts.MethodSelectsRoute | mic.go:139-141 | with GET and POST routes on the same pattern, a POST request runs only the POST route |

## Left out

- `Run`: `http.ListenAndServe(port, m)` is the network listener and is not modelled. `Run` takes no port and only registers the CORS filter.
- `Public`: `os.Getwd`, `filepath.Clean`/`Join` and `http.ServeFile` are file-system and library calls. The directory is a parameter, and `Env.serveFile` gives the actions ServeFile performs.
- `regexp.Compile` and `MatchString` are a foreign library. They are the predicates `compiles` and `Env.matches`, with nothing assumed about them.
- `ServeJson`, `ServeXml`, `ReadJson`, `ReadXml` and `ReadString` are marshalling and body-reading library calls with no dispatch logic.
- Concurrency across requests is not modelled. The table is only read while serving.
- Application handlers and filters are abstracted as the list of response actions they perform (`Env.behaviour`), which depends only on the handler's name and the request. They cannot see the response state at all: not the tracker's fields, not the header map, not what earlier filters wrote. Their other effects (reading the body, global state) are not modelled.
- A filter can change the shared `*http.Request`, for example by rewriting `r.URL.Path`, which the `Public` handler reads at mic.go:75. The model passes the same unchanged `Request` to every filter and to the handler, so it does not capture this.
- net/http's `WriteHeader` panics on a status code outside 100-999. The model's `WriteHeader` action accepts any code and never panics; a handler that panics this way is modelled only by an explicit `Panic` action.
- Response bodies are strings, not byte slices. The byte count and error that `Write` returns from the wrapped writer are not modelled.
- `sent` records what the wrapper forwards. What the wrapped writer does with it is not modelled: for example, it sends an implicit 200 on a first `Write` and ignores a second `WriteHeader`.
- Header keys are not canonicalised (`textproto.CanonicalMIMEHeaderKey`).
- Mux.RouteMux.AddRoute: an invalid pattern makes the source panic, which aborts start-up. The model instead returns `BadPattern` and leaves the table unchanged, so the caller decides.
- A panic in a handler ends `ServeHTTP` (the `panicked` result). What net/http then does with the connection is not modelled.
