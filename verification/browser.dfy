/**
 * Event correlation (internal/browser/browser.go): sorting the browser's
 * network events into the capture store, and the finisher loop that fetches
 * response bodies and writes them back into the response map.
 *
 * `Run`, `FinishAll` and the methods describe each part on its own: the
 * handlers in the order they run, and one finisher iteration (read, fetch,
 * write) as one step. `Act` and `Trace` describe the two running together:
 * each handler is one atomic step, and a finisher iteration is two, the
 * locked read and the fetch followed by the locked write, so handlers can
 * run in between.
 */
module Browser {
  import opened Wrappers
  import opened Events

  /** The events the listener sees: three kinds it handles and everything else. */
  datatype BrowserEvent =
    | ReqSent(sent: RequestWillBeSent)
    | RespReceived(received: ResponseReceived)
    | LoadFinished(finished: LoadingFinished)
    | Other

  /** The shared state the listener writes: requests, responses and the finisher channel's contents. */
  datatype Capture = Capture(requests: seq<Request>, responses: Option<ResponseMap>, pending: seq<LoadingFinished>)

  /** The state at the start of a session: no requests, a nil response map, nothing queued. */
  const EmptyCapture := Capture([], None, [])

  /** The record appended for a request-will-be-sent event. */
  function NewRequest(ev: RequestWillBeSent): (r: Request)
    ensures r.kind == "request" && r.requestId == ev.requestId && r.url == ev.url
    ensures r.content == RequestContent(ev) && r.body == []
  {
    Request(ev.requestId, "request", ev.url, RequestContent(ev), [])
  }

  /** The record upserted for a response-received event; its body is fetched later. */
  function NewResponse(ev: ResponseReceived): (r: Response)
    ensures r.kind == "response" && r.requestId == ev.requestId && r.url == ev.url
    ensures r.content == ResponseContent(ev) && r.body == []
  {
    Response(ev.requestId, "response", ev.url, ResponseContent(ev), [])
  }

  /** The listener's effect on the store for one event; the switch has no default arm. */
  function Step(c: Capture, ev: BrowserEvent): (next: Capture)
    ensures !ev.ReqSent? ==> next.requests == c.requests
    ensures !ev.RespReceived? ==> next.responses == c.responses
    ensures !ev.LoadFinished? ==> next.pending == c.pending
    ensures ev.Other? ==> next == c
  {
    match ev
    case ReqSent(e) => c.(requests := c.requests + [NewRequest(e)])
    case RespReceived(e) => c.(responses := Some(Upsert(c.responses, NewResponse(e))))
    case LoadFinished(e) => c.(pending := c.pending + [e])
    case Other => c
  }

  /**
   * The store after the listener's handlers have run for `evs`, in the order
   * they ran. Each event's handler is its own goroutine, so that order need
   * not be the order in which the browser delivered the events.
   */
  function Run(c: Capture, evs: seq<BrowserEvent>): (r: Capture)
    ensures |c.requests| <= |r.requests| && r.requests[..|c.requests|] == c.requests
    ensures c.pending <= r.pending
    ensures Entries(c.responses).Keys <= Entries(r.responses).Keys
    decreases |evs|
  {
    if evs == [] then c else Step(Run(c, evs[..|evs| - 1]), evs[|evs| - 1])
  }

  /** The requests the request-will-be-sent events of `evs` produce, in the order of `evs`. */
  function RequestsOf(evs: seq<BrowserEvent>): (r: seq<Request>)
    ensures |r| <= |evs|
    decreases |evs|
  {
    if evs == [] then []
    else
      var last := evs[|evs| - 1];
      RequestsOf(evs[..|evs| - 1]) + if last.ReqSent? then [NewRequest(last.sent)] else []
  }

  /** The loading-finished events of `evs`, in the order of `evs`. */
  function FinishedOf(evs: seq<BrowserEvent>): (r: seq<LoadingFinished>)
    ensures |r| <= |evs|
    decreases |evs|
  {
    if evs == [] then []
    else
      var last := evs[|evs| - 1];
      FinishedOf(evs[..|evs| - 1]) + if last.LoadFinished? then [last.finished] else []
  }

  /** The latest response-received event of `evs` for request `id`, if any. */
  function LastReceived(evs: seq<BrowserEvent>, id: RequestId): (found: Option<ResponseReceived>)
    ensures found.Some? ==> found.value.requestId == id
    decreases |evs|
  {
    if evs == [] then None
    else
      var last := evs[|evs| - 1];
      if last.RespReceived? && last.received.requestId == id then Some(last.received)
      else LastReceived(evs[..|evs| - 1], id)
  }

  /** Handling a stream in two pieces is handling it whole. */
  lemma {:induction false} RunAppend(c: Capture, front: seq<BrowserEvent>, back: seq<BrowserEvent>)
    ensures Run(c, front + back) == Run(Run(c, front), back)
    decreases |back|
  {
    if back == [] {
      assert front + back == front;
    } else {
      var all := front + back;
      assert all[..|all| - 1] == front + back[..|back| - 1];
      assert all[|all| - 1] == back[|back| - 1];
      RunAppend(c, front, back[..|back| - 1]);
    }
  }

  /** Every request-will-be-sent handler appends exactly one request, in the order the handlers ran. */
  lemma {:induction false} RunRequests(c: Capture, evs: seq<BrowserEvent>)
    ensures Run(c, evs).requests == c.requests + RequestsOf(evs)
    decreases |evs|
  {
    if evs != [] {
      RunRequests(c, evs[..|evs| - 1]);
    }
  }

  /** Every loading-finished handler queues its event unchanged, in the order the handlers ran. */
  lemma {:induction false} RunPending(c: Capture, evs: seq<BrowserEvent>)
    ensures Run(c, evs).pending == c.pending + FinishedOf(evs)
    decreases |evs|
  {
    if evs != [] {
      RunPending(c, evs[..|evs| - 1]);
    }
  }

  /** Only response-received events touch the map: with none in the stream it is what it was. */
  lemma {:induction false} RunResponsesOnly(c: Capture, evs: seq<BrowserEvent>)
    requires forall i :: 0 <= i < |evs| ==> !evs[i].RespReceived?
    ensures Run(c, evs).responses == c.responses
    decreases |evs|
  {
    if evs != [] {
      RunResponsesOnly(c, evs[..|evs| - 1]);
    }
  }

  /** Last write wins: the entry for `id` comes from the latest response-received event for it, else from the start. */
  lemma {:induction false} RunLastResponseWins(c: Capture, evs: seq<BrowserEvent>, id: RequestId)
    ensures Lookup(Run(c, evs).responses, id) ==
      match LastReceived(evs, id)
      case Some(e) => NewResponse(e)
      case None => Lookup(c.responses, id)
    ensures LastReceived(evs, id).Some? ==> id in Entries(Run(c, evs).responses)
    decreases |evs|
  {
    if evs != [] {
      RunLastResponseWins(c, evs[..|evs| - 1], id);
    }
  }

  /** What the listener leaves in the map: each entry filed under its own id, a response, body not yet fetched. */
  ghost predicate Captured(m: Option<ResponseMap>) {
    forall id :: id in Entries(m) ==>
      Entries(m)[id].requestId == id && Entries(m)[id].kind == "response" && Entries(m)[id].body == []
  }

  /** The listener keeps the map in the captured shape. */
  lemma {:induction false} RunCaptured(c: Capture, evs: seq<BrowserEvent>)
    requires Captured(c.responses)
    ensures Captured(Run(c, evs).responses)
    decreases |evs|
  {
    if evs != [] {
      RunCaptured(c, evs[..|evs| - 1]);
    }
  }

  /** The body fetch: the browser's answer for a request id, or None when it fails. */
  type Fetch = RequestId -> Option<Bytes>

  /** How a GetResponseBody call ends: stored, an error returned, or a panic writing into a nil map. */
  datatype FetchOutcome = Stored | FetchFailed | NilMapPanic

  /** The response map after a GetResponseBody call, with how the call ended. */
  datatype BodyWrite = BodyWrite(responses: Option<ResponseMap>, outcome: FetchOutcome)

  /**
   * GetResponseBody on record `r`: fetch by r's own id; on failure return
   * an error and leave the map alone; on success write r with the fetched
   * body under r's id.
   */
  function WriteBody(m: Option<ResponseMap>, r: Response, fetch: Fetch): (w: BodyWrite)
    ensures fetch(r.requestId).None? ==> w == BodyWrite(m, FetchFailed)
    ensures fetch(r.requestId).Some? && m.None? ==> w == BodyWrite(m, NilMapPanic)
    ensures fetch(r.requestId).Some? && m.Some? ==>
      && w.outcome == Stored && w.responses.Some?
      && w.responses.value.Keys == m.value.Keys + {r.requestId}
      && w.responses.value[r.requestId] == r.(body := fetch(r.requestId).value)
      && (forall id :: id in m.value && id != r.requestId ==> w.responses.value[id] == m.value[id])
  {
    match fetch(r.requestId)
    case None => BodyWrite(m, FetchFailed)
    case Some(body) =>
      if m.None? then BodyWrite(m, NilMapPanic)
      else BodyWrite(Some(m.value[r.requestId := r.(body := body)]), Stored)
  }

  /** The map and whether the process panicked, once the finisher loop has consumed `queue`. */
  datatype Drain = Drain(responses: Option<ResponseMap>, panicked: bool)

  /**
   * The finisher loop: for each queued event read the current entry (the
   * zero Response when absent) and hand it to GetResponseBody; a returned
   * error is ignored, a panic ends the loop.
   */
  function FinishAll(m: Option<ResponseMap>, queue: seq<LoadingFinished>, fetch: Fetch): (r: Drain)
    ensures Entries(m).Keys <= Entries(r.responses).Keys
    ensures r.panicked ==> m.None?
    ensures m.None? ==> r.responses == None
    decreases |queue|
  {
    if queue == [] then Drain(m, false)
    else
      var w := WriteBody(m, Lookup(m, queue[0].requestId), fetch);
      if w.outcome == NilMapPanic then Drain(m, true) else FinishAll(w.responses, queue[1..], fetch)
  }

  /** When every fetch fails the loop runs to the end and the map is unchanged. */
  lemma {:induction false} FinishAllFailedFetches(m: Option<ResponseMap>, queue: seq<LoadingFinished>, fetch: Fetch)
    requires forall id :: fetch(id).None?
    ensures FinishAll(m, queue, fetch) == Drain(m, false)
    decreases |queue|
  {
    if queue != [] {
      FinishAllFailedFetches(m, queue[1..], fetch);
    }
  }

  /** Once the map exists the loop never panics and the map stays allocated. */
  lemma {:induction false} FinishAllNoPanic(m: Option<ResponseMap>, queue: seq<LoadingFinished>, fetch: Fetch)
    requires m.Some?
    ensures !FinishAll(m, queue, fetch).panicked && FinishAll(m, queue, fetch).responses.Some?
    decreases |queue|
  {
    if queue != [] {
      var w := WriteBody(m, Lookup(m, queue[0].requestId), fetch);
      FinishAllNoPanic(w.responses, queue[1..], fetch);
    }
  }

  /** Every entry is filed under its own id. */
  ghost predicate Keyed(m: Option<ResponseMap>) {
    forall id :: id in Entries(m) ==> Entries(m)[id].requestId == id
  }

  /**
   * The loop adds no key but the empty id: an event whose response was never
   * recorded reads the zero Response and its write goes to the zero entry's
   * empty id, never to the event's own id.
   */
  lemma {:induction false} FinishAllKeys(m: Option<ResponseMap>, queue: seq<LoadingFinished>, fetch: Fetch)
    requires Keyed(m)
    ensures Keyed(FinishAll(m, queue, fetch).responses)
    ensures Entries(FinishAll(m, queue, fetch).responses).Keys <= Entries(m).Keys + {""}
    decreases |queue|
  {
    if queue != [] {
      var w := WriteBody(m, Lookup(m, queue[0].requestId), fetch);
      if w.outcome != NilMapPanic {
        assert Keyed(w.responses);
        assert Entries(w.responses).Keys <= Entries(m).Keys + {""};
        FinishAllKeys(w.responses, queue[1..], fetch);
      }
    }
  }

  /** An entry that already holds the body fetched for its id keeps it for the rest of the loop. */
  lemma {:induction false} FinishAllKeepsFetched(m: Option<ResponseMap>, queue: seq<LoadingFinished>, fetch: Fetch, id: RequestId)
    requires m.Some? && Keyed(m) && id in m.value && fetch(id) == Some(m.value[id].body)
    ensures FinishAll(m, queue, fetch).responses.Some?
    ensures id in FinishAll(m, queue, fetch).responses.value
    ensures FinishAll(m, queue, fetch).responses.value[id].body == fetch(id).value
    decreases |queue|
  {
    if queue != [] {
      var w := WriteBody(m, Lookup(m, queue[0].requestId), fetch);
      assert Keyed(w.responses);
      FinishAllKeepsFetched(w.responses, queue[1..], fetch, id);
    }
  }

  /**
   * The loop retrieves the body for each event: a queued event whose response
   * was recorded and whose fetch succeeds ends with exactly the fetched bytes
   * as its entry's body.
   */
  lemma {:induction false} FinishAllStores(m: Option<ResponseMap>, queue: seq<LoadingFinished>, fetch: Fetch, k: nat)
    requires m.Some? && Keyed(m) && k < |queue|
    requires queue[k].requestId in m.value && fetch(queue[k].requestId).Some?
    ensures FinishAll(m, queue, fetch).responses.Some?
    ensures queue[k].requestId in FinishAll(m, queue, fetch).responses.value
    ensures FinishAll(m, queue, fetch).responses.value[queue[k].requestId].body == fetch(queue[k].requestId).value
    decreases k
  {
    var w := WriteBody(m, Lookup(m, queue[0].requestId), fetch);
    assert Keyed(w.responses);
    if k == 0 {
      FinishAllKeepsFetched(w.responses, queue[1..], fetch, queue[0].requestId);
    } else {
      assert queue[1..][k - 1] == queue[k];
      FinishAllStores(w.responses, queue[1..], fetch, k - 1);
    }
  }

  /** A finished event with no recorded response writes the fetched body under the empty id. */
  lemma MissingResponseWritesEmptyId(m: ResponseMap, id: RequestId, fetch: Fetch)
    requires id !in m && fetch("").Some?
    ensures FinishAll(Some(m), [LoadingFinished(id)], fetch) ==
      Drain(Some(m["" := ZeroResponse.(body := fetch("").value)]), false)
  {
  }

  /** Every body in the map is empty (not fetched yet) or exactly what the browser returned for that id. */
  ghost predicate BodiesFetched(m: Option<ResponseMap>, fetch: Fetch) {
    forall id :: id in Entries(m) ==>
      Entries(m)[id].requestId == id && (Entries(m)[id].body == [] || fetch(id) == Some(Entries(m)[id].body))
  }

  /** The finisher loop never stores a partial or foreign body. */
  lemma {:induction false} FinishAllBodiesFetched(m: Option<ResponseMap>, queue: seq<LoadingFinished>, fetch: Fetch)
    requires BodiesFetched(m, fetch)
    ensures BodiesFetched(FinishAll(m, queue, fetch).responses, fetch)
    decreases |queue|
  {
    if queue != [] {
      var w := WriteBody(m, Lookup(m, queue[0].requestId), fetch);
      if w.outcome != NilMapPanic {
        assert BodiesFetched(w.responses, fetch);
        FinishAllBodiesFetched(w.responses, queue[1..], fetch);
      }
    }
  }

  /** A single handler keeps every stored body sound: new entries have empty bodies. */
  lemma StepBodiesFetched(c: Capture, ev: BrowserEvent, fetch: Fetch)
    requires BodiesFetched(c.responses, fetch)
    ensures BodiesFetched(Step(c, ev).responses, fetch)
  {
  }

  /** One atomic step of a running session. */
  datatype Action =
    | Handle(ev: BrowserEvent)  // one listener handler runs
    | Receive                   // the watcher takes the next queued event and reads its entry under the lock
    | Complete                  // the watcher fetches the body and writes the entry back under the lock

  /**
   * A running session: the stores, the watcher's copy of the entry it is
   * working on (None between iterations), and whether the process panicked.
   */
  datatype Session = Session(capture: Capture, inFlight: Option<Response>, panicked: bool)

  /** A session before any event: empty stores, the watcher idle. */
  const InitialSession := Session(EmptyCapture, None, false)

  /**
   * One step. A step that cannot run yet (a receive with nothing queued or
   * with an iteration already open, a completion with none open) leaves the
   * session unchanged, as a blocked goroutine does; after a panic nothing runs.
   */
  function Act(s: Session, a: Action, fetch: Fetch): (r: Session)
    ensures s.panicked ==> r == s
    ensures a.Handle? && !s.panicked ==> r == s.(capture := Step(s.capture, a.ev))
    ensures !a.Handle? ==> r.capture.requests == s.capture.requests
    ensures a.Receive? ==> r.capture.responses == s.capture.responses
    ensures a.Complete? ==> r.capture.pending == s.capture.pending
    ensures a.Receive? ==> r.panicked == s.panicked
    ensures (a.Receive? && (s.inFlight.Some? || s.capture.pending == [])) || (a.Complete? && s.inFlight.None?) ==> r == s
    ensures a.Receive? && !s.panicked && s.inFlight.None? && s.capture.pending != [] ==>
      && r.capture.pending == s.capture.pending[1..]
      && r.inFlight == Some(Lookup(s.capture.responses, s.capture.pending[0].requestId))
    ensures a.Complete? && !s.panicked && s.inFlight.Some? ==>
      var w := WriteBody(s.capture.responses, s.inFlight.value, fetch);
      r.capture.responses == w.responses && r.inFlight == None && r.panicked == (w.outcome == NilMapPanic)
  {
    if s.panicked then s
    else
      match a
      case Handle(ev) => s.(capture := Step(s.capture, ev))
      case Receive =>
        if s.inFlight.None? && s.capture.pending != [] then
          var head := s.capture.pending[0];
          Session(s.capture.(pending := s.capture.pending[1..]), Some(Lookup(s.capture.responses, head.requestId)), false)
        else s
      case Complete =>
        if s.inFlight.Some? then
          var w := WriteBody(s.capture.responses, s.inFlight.value, fetch);
          Session(s.capture.(responses := w.responses), None, w.outcome == NilMapPanic)
        else s
  }

  /** The session after the steps `acts`, in order. */
  function Trace(s: Session, acts: seq<Action>, fetch: Fetch): (r: Session)
    ensures s.panicked ==> r == s
    decreases |acts|
  {
    if acts == [] then s else Trace(Act(s, acts[0], fetch), acts[1..], fetch)
  }

  /** Every step keeps every stored body either empty or exactly the bytes fetched for its id. */
  lemma ActBodiesFetched(s: Session, a: Action, fetch: Fetch)
    requires BodiesFetched(s.capture.responses, fetch)
    ensures BodiesFetched(Act(s, a, fetch).capture.responses, fetch)
  {
  }

  /** On every interleaving of handlers and watcher steps, stored bodies stay sound. */
  lemma {:induction false} TraceBodiesFetched(s: Session, acts: seq<Action>, fetch: Fetch)
    requires BodiesFetched(s.capture.responses, fetch)
    ensures BodiesFetched(Trace(s, acts, fetch).capture.responses, fetch)
    decreases |acts|
  {
    if acts != [] {
      ActBodiesFetched(s, acts[0], fetch);
      TraceBodiesFetched(Act(s, acts[0], fetch), acts[1..], fetch);
    }
  }

  /** A whole session from scratch, in any interleaving: every stored body is empty or exactly the fetched bytes for its id. */
  lemma SessionBodiesFetched(acts: seq<Action>, fetch: Fetch)
    ensures BodiesFetched(Trace(InitialSession, acts, fetch).capture.responses, fetch)
  {
    TraceBodiesFetched(InitialSession, acts, fetch);
  }

  /** `n` watcher iterations with no handler in between. */
  function Iterations(n: nat): (acts: seq<Action>)
    ensures |acts| == 2 * n
  {
    if n == 0 then [] else [Receive, Complete] + Iterations(n - 1)
  }

  /** With no handler running in between, the watcher's steps do exactly what `FinishAll` describes. */
  lemma {:induction false} IterationsAreFinishAll(c: Capture, fetch: Fetch)
    ensures var r := Trace(Session(c, None, false), Iterations(|c.pending|), fetch);
      r.capture.responses == FinishAll(c.responses, c.pending, fetch).responses &&
      r.panicked == FinishAll(c.responses, c.pending, fetch).panicked
    decreases |c.pending|
  {
    if c.pending != [] {
      var s := Session(c, None, false);
      var acts := Iterations(|c.pending|);
      var rest := Iterations(|c.pending| - 1);
      assert acts[0] == Receive && acts[1..][0] == Complete;
      assert acts[1..][1..] == rest;
      var s1 := Act(s, Receive, fetch);
      var s2 := Act(s1, Complete, fetch);
      assert Trace(s, acts, fetch) == Trace(s2, rest, fetch);
      var c2 := s2.capture;
      assert c2.pending == c.pending[1..];
      if !s2.panicked {
        IterationsAreFinishAll(c2, fetch);
      }
    }
  }

  /**
   * The lost update: the watcher reads an entry, a second response-received
   * handler replaces it, and the watcher's write puts the stale copy back with
   * the fetched body, so the second response's URL is lost.
   */
  lemma StaleWriteLosesUpdate(id: RequestId, firstUrl: string, secondUrl: string, fetch: Fetch)
    requires fetch(id).Some?
    ensures var acts := [
        Handle(RespReceived(ResponseReceived(id, firstUrl))),
        Handle(LoadFinished(LoadingFinished(id))),
        Receive,
        Handle(RespReceived(ResponseReceived(id, secondUrl))),
        Complete];
      Lookup(Trace(InitialSession, acts, fetch).capture.responses, id) ==
        NewResponse(ResponseReceived(id, firstUrl)).(body := fetch(id).value)
  {
    var acts := [
        Handle(RespReceived(ResponseReceived(id, firstUrl))),
        Handle(LoadFinished(LoadingFinished(id))),
        Receive,
        Handle(RespReceived(ResponseReceived(id, secondUrl))),
        Complete];
    var s1 := Act(InitialSession, acts[0], fetch);
    var s2 := Act(s1, acts[1], fetch);
    var s3 := Act(s2, acts[2], fetch);
    var s4 := Act(s3, acts[3], fetch);
    var s5 := Act(s4, acts[4], fetch);
    assert s3.inFlight == Some(NewResponse(ResponseReceived(id, firstUrl)));
    assert Trace(InitialSession, acts, fetch) == Trace(s1, acts[1..], fetch);
    assert Trace(s1, acts[1..], fetch) == Trace(s2, acts[2..], fetch) by { assert acts[1..][1..] == acts[2..]; }
    assert Trace(s2, acts[2..], fetch) == Trace(s3, acts[3..], fetch) by { assert acts[2..][1..] == acts[3..]; }
    assert Trace(s3, acts[3..], fetch) == Trace(s4, acts[4..], fetch) by { assert acts[3..][1..] == acts[4..]; }
    assert Trace(s4, acts[4..], fetch) == s5 by { assert acts[4..][1..] == []; }
  }

  /** The finisher channel, as the sequence of events sent and not yet received. */
  class FinisherQueue {
    var pending: seq<LoadingFinished>

    constructor ()
      ensures pending == []
    {
      pending := [];
    }
  }

  /** The state the listener writes, read off the three stores. */
  function Snapshot(requests: Requests, responses: Responses, finishers: FinisherQueue): (c: Capture)
    reads requests, responses, finishers
  {
    Capture(requests.items, responses.responseMap, finishers.pending)
  }

  /** The ListenToEvents callback on one event. */
  method HandleEvent(ev: BrowserEvent, requests: Requests, responses: Responses, finishers: FinisherQueue)
    modifies requests, responses, finishers
    ensures Snapshot(requests, responses, finishers) == Step(old(Snapshot(requests, responses, finishers)), ev)
  {
    match ev
    case ReqSent(e) =>
      requests.Add(NewRequest(e));
    case RespReceived(e) =>
      responses.Add(NewResponse(e));
    case LoadFinished(e) =>
      finishers.pending := finishers.pending + [e];
    case Other =>
  }

  /** `GetResponseBody`: fetch by r's id; on success write r with the body back under the lock. */
  method GetResponseBody(r: Response, responses: Responses, fetch: Fetch) returns (outcome: FetchOutcome)
    modifies responses
    ensures BodyWrite(responses.responseMap, outcome) == WriteBody(old(responses.responseMap), r, fetch)
  {
    var fetched := fetch(r.requestId);
    if fetched.None? {
      return FetchFailed;
    }
    var updated := r.(body := fetched.value);
    if responses.responseMap.None? {
      return NilMapPanic;
    }
    responses.responseMap := Some(responses.responseMap.value[updated.requestId := updated]);
    outcome := Stored;
  }

  /** `WatchEventFinishers`: receive each queued event, read its entry, fetch and write; errors do not stop it. */
  method WatchEventFinishers(finishers: FinisherQueue, responses: Responses, fetch: Fetch) returns (panicked: bool)
    modifies finishers, responses
    ensures Drain(responses.responseMap, panicked) == FinishAll(old(responses.responseMap), old(finishers.pending), fetch)
    ensures !panicked ==> finishers.pending == []
  {
    panicked := false;
    while finishers.pending != [] && !panicked
      invariant !panicked ==>
        FinishAll(responses.responseMap, finishers.pending, fetch) ==
        FinishAll(old(responses.responseMap), old(finishers.pending), fetch)
      invariant panicked ==>
        Drain(responses.responseMap, true) == FinishAll(old(responses.responseMap), old(finishers.pending), fetch)
      decreases |finishers.pending|
    {
      var event := finishers.pending[0];
      finishers.pending := finishers.pending[1..];
      var resp := Lookup(responses.responseMap, event.requestId);
      var outcome := GetResponseBody(resp, responses, fetch);
      panicked := outcome == NilMapPanic;
    }
  }
}
