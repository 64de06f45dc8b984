/**
 * The response-state tracker of mic.go (`responseWriter`): a wrapper around
 * the outbound response that forwards every write and records whether the
 * response has started and which status was written.
 *
 * What handlers and filters do to the response is abstracted as a sequence
 * of `Action`s; `Apply` and `RunActions` give their meaning on a `Resp`, the
 * value of the tracker's fields, and the class `ResponseWriter` performs them
 * in place.
 */
module Response {

  /** What the wrapper forwards to the underlying writer, in order. */
  datatype Event = Status(code: int) | Body(data: string)

  /** One thing a handler does to the response writer it is given. */
  datatype Action =
    | SetHeader(key: string, value: string)   // w.Header().Set(key, value)
    | AddHeader(key: string, value: string)   // w.Header().Add(key, value)
    | DelHeader(key: string)                  // w.Header().Del(key)
    | WriteHeader(code: int)                  // w.WriteHeader(code)
    | Write(data: string)                     // w.Write(data)
    | Panic                                   // the handler panics; nothing after it runs

  /** The header map of the underlying writer (Go's http.Header). */
  type Header = map<string, seq<string>>

  /** The tracker's fields, and what it has forwarded so far. */
  datatype Resp = Resp(started: bool, status: int, header: Header, sent: seq<Event>)

  /** The tracker as `ServeHTTP` creates it: nothing written, status zero. */
  const Unstarted := Resp(false, 0, map[], [])

  /** The actions that go through `Write` or `WriteHeader` of the tracker. */
  predicate Writes(a: Action) {
    a.WriteHeader? || a.Write?
  }

  /** The actions that only touch the header map, through `Header()`. */
  predicate TouchesHeaderOnly(a: Action) {
    a.SetHeader? || a.AddHeader? || a.DelHeader?
  }

  /** The values recorded under a key (none when the key is absent). */
  function Values(h: Header, key: string): seq<string> {
    if key in h then h[key] else []
  }

  /** The effect of one action other than a panic on the tracker. */
  function Apply(r: Resp, a: Action): (r': Resp)
    requires !a.Panic?
    ensures r'.started == (r.started || Writes(a))
    ensures r'.status == (if a.WriteHeader? then a.code else r.status)
    ensures TouchesHeaderOnly(a) ==> r'.sent == r.sent
    ensures a.Write? ==> r'.sent == r.sent + [Body(a.data)] && r'.header == r.header
    ensures a.WriteHeader? ==> r'.sent == r.sent + [Status(a.code)] && r'.header == r.header
  {
    match a
    case SetHeader(k, v) => r.(header := r.header[k := [v]])
    case AddHeader(k, v) => r.(header := r.header[k := Values(r.header, k) + [v]])
    case DelHeader(k) => r.(header := r.header - {k})
    case WriteHeader(code) => r.(started := true, status := code, sent := r.sent + [Status(code)])
    case Write(data) => r.(started := true, sent := r.sent + [Body(data)])
  }

  /** The tracker after a handler, and whether the handler panicked. */
  datatype Run = Run(resp: Resp, panicked: bool)

  /** A handler's actions performed in order, up to the first panic. */
  function RunActions(r: Resp, acts: seq<Action>): Run
    decreases |acts|
  {
    if acts == [] then Run(r, false)
    else if acts[0].Panic? then Run(r, true)
    else RunActions(Apply(r, acts[0]), acts[1..])
  }

  /** No panic among the first `j` actions. */
  predicate NoPanicBefore(acts: seq<Action>, j: int) {
    forall i :: 0 <= i < j && i < |acts| ==> !acts[i].Panic?
  }

  /** A handler panics exactly when one of its actions is a panic. */
  lemma {:induction false} RunPanicsIffPanic(r: Resp, acts: seq<Action>)
    ensures RunActions(r, acts).panicked <==> exists j :: 0 <= j < |acts| && acts[j].Panic?
    decreases |acts|
  {
    if acts != [] && !acts[0].Panic? {
      RunPanicsIffPanic(Apply(r, acts[0]), acts[1..]);
      if exists j :: 0 <= j < |acts| && acts[j].Panic? {
        var j :| 0 <= j < |acts| && acts[j].Panic?;
        assert acts[1..][j - 1].Panic?;
      }
      if exists j :: 0 <= j < |acts[1..]| && acts[1..][j].Panic? {
        var j :| 0 <= j < |acts[1..]| && acts[1..][j].Panic?;
        assert acts[j + 1].Panic?;
      }
    }
  }

  /**
   * After a handler the response has started exactly when it had started
   * before, or the handler wrote a status or body before any panic.
   */
  lemma {:induction false} RunStartedIffWrote(r: Resp, acts: seq<Action>)
    ensures RunActions(r, acts).resp.started <==>
            r.started || exists j :: 0 <= j < |acts| && Writes(acts[j]) && NoPanicBefore(acts, j)
    decreases |acts|
  {
    if acts != [] && !acts[0].Panic? {
      var tail := acts[1..];
      RunStartedIffWrote(Apply(r, acts[0]), tail);
      if exists j :: 0 <= j < |tail| && Writes(tail[j]) && NoPanicBefore(tail, j) {
        var j :| 0 <= j < |tail| && Writes(tail[j]) && NoPanicBefore(tail, j);
        assert Writes(acts[j + 1]) && NoPanicBefore(acts, j + 1) by {
          forall i | 0 <= i < j + 1 && i < |acts| ensures !acts[i].Panic? {
            if i > 0 { assert acts[i] == tail[i - 1]; }
          }
        }
      }
      if exists j :: 0 <= j < |acts| && Writes(acts[j]) && NoPanicBefore(acts, j) {
        var j :| 0 <= j < |acts| && Writes(acts[j]) && NoPanicBefore(acts, j);
        if j > 0 {
          assert Writes(tail[j - 1]) && NoPanicBefore(tail, j - 1) by {
            forall i | 0 <= i < j - 1 && i < |tail| ensures !tail[i].Panic? {
              assert tail[i] == acts[i + 1];
            }
          }
        }
      }
    }
  }

  /**
   * `started` never goes back to false, and what was forwarded stays forwarded:
   * a handler only appends to it.
   */
  lemma {:induction false} RunMonotone(r: Resp, acts: seq<Action>)
    ensures r.started ==> RunActions(r, acts).resp.started
    ensures r.sent <= RunActions(r, acts).resp.sent
    decreases |acts|
  {
    if acts != [] && !acts[0].Panic? {
      RunMonotone(Apply(r, acts[0]), acts[1..]);
    }
  }

  /**
   * A handler that only touches headers neither starts the response, nor
   * writes a status, nor forwards anything, nor panics.
   */
  lemma {:induction false} HeaderOnlyRun(r: Resp, acts: seq<Action>)
    requires forall j :: 0 <= j < |acts| ==> TouchesHeaderOnly(acts[j])
    ensures !RunActions(r, acts).panicked
    ensures RunActions(r, acts).resp.started == r.started
    ensures RunActions(r, acts).resp.status == r.status
    ensures RunActions(r, acts).resp.sent == r.sent
    decreases |acts|
  {
    if acts != [] {
      HeaderOnlyRun(Apply(r, acts[0]), acts[1..]);
    }
  }

  /** The body `http.NotFound` writes. */
  const NotFoundBody := "404 page not found\n"

  /**
   * What `http.NotFound` does to the writer it is given (net/http's `Error`
   * with code 404): two headers, the status, then the body.
   */
  const NotFoundReply := [
    SetHeader("Content-Type", "text/plain; charset=utf-8"),
    SetHeader("X-Content-Type-Options", "nosniff"),
    WriteHeader(404),
    Write(NotFoundBody)]

  /** The 404 reply always starts the response, with status 404, and appends its status and body. */
  lemma NotFoundResponds(r: Resp)
    ensures !RunActions(r, NotFoundReply).panicked
    ensures RunActions(r, NotFoundReply).resp.started
    ensures RunActions(r, NotFoundReply).resp.status == 404
    ensures RunActions(r, NotFoundReply).resp.sent == r.sent + [Status(404), Body(NotFoundBody)]
  {
    var acts := NotFoundReply;
    var r1 := Apply(r, acts[0]);
    var r2 := Apply(r1, acts[1]);
    var r3 := Apply(r2, acts[2]);
    var r4 := Apply(r3, acts[3]);
    assert acts[1..][0] == acts[1] && acts[1..][1..] == acts[2..];
    assert acts[2..][0] == acts[2] && acts[2..][1..] == acts[3..];
    assert acts[3..][0] == acts[3] && acts[3..][1..] == [];
    assert RunActions(r, acts) == RunActions(r1, acts[1..]);
    assert RunActions(r1, acts[1..]) == RunActions(r2, acts[2..]);
    assert RunActions(r2, acts[2..]) == RunActions(r3, acts[3..]);
    assert RunActions(r3, acts[3..]) == Run(r4, false);
  }

  /**
   * The tracker: `started` and `status` as in the source, with the header map
   * and the forwarded writes of the wrapped writer beside them.
   */
  class ResponseWriter {
    var started: bool
    var status: int
    var header: Header
    var sent: seq<Event>

    /** The tracker's fields as a value. */
    function State(): Resp
      reads this
    {
      Resp(started, status, header, sent)
    }

    /** `&responseWriter{writer: rw}` over a writer that has nothing yet. */
    constructor ()
      ensures State() == Unstarted
    {
      started, status, header, sent := false, 0, map[], [];
    }

    /** `Header()` hands out the header map; it changes nothing. */
    method Header() returns (h: Header)
      ensures h == header
    {
      h := header;
    }

    /** `w.Header().Set(key, value)`: replaces the key's values; started and status stay. */
    method SetHeader(key: string, value: string)
      modifies this
      ensures header == old(header)[key := [value]]
      ensures started == old(started) && status == old(status) && sent == old(sent)
    {
      header := header[key := [value]];
    }

    /** `w.Header().Add(key, value)`: appends to the key's values; started and status stay. */
    method AddHeader(key: string, value: string)
      modifies this
      ensures header == old(header)[key := Values(old(header), key) + [value]]
      ensures started == old(started) && status == old(status) && sent == old(sent)
    {
      header := header[key := Values(header, key) + [value]];
    }

    /** `w.Header().Del(key)`: drops the key; started and status stay. */
    method DelHeader(key: string)
      modifies this
      ensures header == old(header) - {key}
      ensures started == old(started) && status == old(status) && sent == old(sent)
    {
      header := header - {key};
    }

    /** `Write(p)`: marks the response started and forwards the bytes; status stays. */
    method Write(data: string)
      modifies this
      ensures started
      ensures status == old(status) && header == old(header)
      ensures sent == old(sent) + [Body(data)]
    {
      started := true;
      sent := sent + [Body(data)];
    }

    /** `WriteHeader(code)`: records the status, marks the response started, forwards the status. */
    method WriteHeader(code: int)
      modifies this
      ensures started && status == code
      ensures header == old(header)
      ensures sent == old(sent) + [Status(code)]
    {
      status := code;
      started := true;
      sent := sent + [Status(code)];
    }

    /** One action on the tracker. */
    method Perform(a: Action)
      requires !a.Panic?
      modifies this
      ensures State() == Apply(old(State()), a)
    {
      match a
      case SetHeader(k, v) => SetHeader(k, v);
      case AddHeader(k, v) => AddHeader(k, v);
      case DelHeader(k) => DelHeader(k);
      case WriteHeader(code) => WriteHeader(code);
      case Write(data) => Write(data);
    }

    /** Calls a handler with this tracker: its actions in order, up to a panic. */
    method Handle(acts: seq<Action>) returns (panicked: bool)
      modifies this
      ensures Run(State(), panicked) == RunActions(old(State()), acts)
    {
      var i := 0;
      panicked := false;
      while i < |acts|
        invariant 0 <= i <= |acts|
        invariant RunActions(State(), acts[i..]) == RunActions(old(State()), acts)
      {
        if acts[i].Panic? {
          panicked := true;
          return;
        }
        Perform(acts[i]);
        assert acts[i..][1..] == acts[i + 1..];
        i := i + 1;
      }
    }

    /** `http.NotFound(w, r)`: the 404 reply through this tracker. */
    method NotFound()
      modifies this
      ensures State() == RunActions(old(State()), NotFoundReply).resp
      ensures started && status == 404
    {
      ghost var before := State();
      var panicked := Handle(NotFoundReply);
      NotFoundResponds(before);
    }
  }
}
