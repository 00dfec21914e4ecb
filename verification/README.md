# web-tester capture store, modelled in Dafny

web-tester drives a headless browser to a page and records the network
traffic of the page load. This project models the in-memory capture store
and the rules that put browser events into it, plus the row preparation of
the persistence step:

- `events.dfy` (module `Events`): the `Request` and `Response` records, the
  append-only `Requests` list, and the `Responses` map. The map can be nil:
  `Option<ResponseMap>` with `None` for a nil Go map. `Responses.Add`
  allocates the map on first use and then upserts. `SetBody` sets a request's
  body to its post-data entries concatenated in order. It is a loop proved
  against the function `WithBody`.
- `browser.dfy` (module `Browser`): the event listener and the finisher loop.
  `HandleEvent` is the `ListenToEvents` callback on one event. It is proved
  against `Step`, and `Run` folds `Step` over a stream in the order the
  handlers ran. Each event's handler is its own goroutine and the two `Add`
  methods take no lock, so that order need not be the browser's delivery
  order.
  `GetResponseBody` is proved against `WriteBody`. `WatchEventFinishers`
  drains the finisher queue and is proved against `FinishAll`. The body fetch
  is a function from request id to `Option<Bytes>`. That makes visible which
  id is fetched and which key is written. When no response was recorded for
  an event, the fetch uses the zero Response's empty id. If that fetch
  succeeds, the write also goes under the empty id, never the event's id.
  Writing into a nil map is a Go runtime panic (`NilMapPanic`). A panic in
  the watch goroutine ends the process, so the model's loop stops there.
  `Act` and `Trace` run the handlers and the watcher together. Each handler
  is one atomic step. A watcher iteration is two steps: `Receive` is the
  locked read, and `Complete` is the fetch followed by the locked write.
  Handlers can run between them. The body invariant is proved over every
  such interleaving.
- `database.dfy` (module `Database`): `InsertIntoDB`. A marshal failure gives
  an empty payload and the insert still goes ahead. A URL-parse failure
  returns an error before any write. An exec failure returns an error.
  `json.Marshal`, `url.Parse` and `db.Exec` are functions of the values they
  receive. The domain is `strings.Split(host, ":")[0]`, modelled with `Split`
  itself. So `"example.com:8443"` gives `"example.com"` and `"[::1]:80"`
  gives `"["`.
- `wrappers.dfy` (module `Wrappers`): `Option`.

Four behaviours of the code a reader might not expect:
- For an event with no recorded response, the finisher loop fetches with
  the empty id. If that fetch succeeds, it writes the zero Response under
  the empty id. It never writes under the event's id.
- A fetched body written into a nil response map panics. It is not stored.
- The stored domain is cut at the first `':'`, even for a bracketed IPv6
  host.
- A lost update. The watcher copies an entry under the lock and releases
  the lock for the fetch. If a response-received handler replaces the entry
  in between, the watcher's write puts back its stale copy with the fetched
  body (`StaleWriteLosesUpdate`).

## Model

| member | source | states |
|---|---|---|
| `Events.Responses.constructor` | internal/browser/events.go:11-14 | a fresh `Responses{}` has a nil map |
| `Events.Responses.Add` | internal/browser/events.go:32-37 | afterwards the map is allocated and holds the response under its id; the map is `Upsert` of the old one |
| `Events.Upsert` | internal/browser/events.go:32-37 | the added response is stored under its id, the keys are the old keys plus that id, every other entry is unchanged; a nil map counts as empty |
| `Events.UpsertIdempotent` | internal/browser/events.go:36 | adding the same response twice gives the same map as adding it once |
| `Events.UpsertLastWins` | internal/browser/events.go:36 | of two adds with the same id only the later survives: the result equals adding the second alone |
| `Events.Lookup` | internal/browser/browser.go:167 | indexing the map gives the stored entry, or the zero Response when the key is absent or the map is nil |
| `Events.Requests.constructor` | internal/browser/events.go:10 | a fresh `Requests{}` is empty |
| `Events.Requests.Add` | internal/browser/events.go:39-41 | appends: length grows by one, the last element is the request, earlier elements keep their order |
| `Events.PostData` | internal/browser/events.go:48-51 | the `+=` loop's result: no entries give an empty body, one entry gives exactly its bytes, the first entry's bytes come first |
| `Events.PostDataAppend` | internal/browser/events.go:48-51 | the concatenated post data of two entry lists joined is the two concatenations joined |
| `Events.PostDataExample` | internal/browser/events.go:48-52 | entries "ab" and "cd" give "abcd"; no entries give an empty body |
| `Events.WithBody` | internal/browser/events.go:43-53 | a non-"request" record is returned unchanged; RequestID, Type, URL and Content are never changed |
| `Events.WithBodyIsPostData` | internal/browser/events.go:47-52 | on a "request" record the body becomes exactly the in-order concatenation of the post-data entries, whatever it was before |
| `Events.WithBodyIdempotent` | internal/browser/events.go:48-52 | the body is overwritten, not appended to: applying SetBody twice equals applying it once |
| `Events.SetBody` | internal/browser/events.go:43-53 | the accumulating loop yields `WithBody(r)`; requires a "request" record's Content to be a request-will-be-sent event, since the type assertion panics otherwise |
| `Browser.NewRequest` | internal/browser/browser.go:77 | the appended record has Type "request", the event's id and URL, the event as Content and an empty body |
| `Browser.NewResponse` | internal/browser/browser.go:83 | the upserted record has Type "response", the event's id and URL, the event as Content and an empty body |
| `Browser.Step` | internal/browser/browser.go:71-92 | a request event changes only the requests, a response event only the map, a loading-finished event only the queue; any other event changes nothing |
| `Browser.HandleEvent` | internal/browser/browser.go:70-92 | the three stores after the callback are `Step` of the stores before it |
| `Browser.Run` | internal/browser/browser.go:70-92 | the listener over a stream: earlier requests and queued events stay at the front, and no response key is removed |
| `Browser.RunAppend` | internal/browser/browser.go:70-92 | handling a stream in two pieces equals handling it whole |
| `Browser.RunRequests` | internal/browser/browser.go:74-78 | each request-will-be-sent event appends exactly one request, in the order the handlers ran, after the existing ones |
| `Browser.RunPending` | internal/browser/browser.go:86-90 | each loading-finished event is queued unchanged, in the order the handlers ran |
| `Browser.RunResponsesOnly` | internal/browser/browser.go:71-92 | a stream with no response-received event leaves the map as it was |
| `Browser.RunLastResponseWins` | internal/browser/browser.go:80-84 | the entry for an id comes from the latest response-received event for it, and exists if there was one; otherwise it is the initial entry |
| `Browser.RunCaptured` | internal/browser/browser.go:80-84 | the listener keeps every entry filed under its own id, typed "response", with an empty body |
| `Browser.WriteBody` | internal/browser/browser.go:124-141 | a failed fetch returns an error and leaves the map alone; a successful one stores r with exactly the fetched body under r's id and changes no other key; into a nil map it panics |
| `Browser.GetResponseBody` | internal/browser/browser.go:121-144 | the map and outcome after the call are `WriteBody` of the map before it |
| `Browser.WatchEventFinishers` | internal/browser/browser.go:159-173 | draining the queue gives the map and panic flag of `FinishAll`, and without a panic the queue is empty |
| `Browser.FinishAll` | internal/browser/browser.go:162-171 | one finisher iteration per queued event, each read, fetch and write as one step: no key is removed; a panic happens only when the map is nil, and a nil map stays nil |
| `Browser.FinisherQueue.constructor` | internal/browser/browser.go:148-150 | the new finisher channel holds no events |
| `Browser.FinishAllStores` | internal/browser/browser.go:162-170 | the loop retrieves the body for each event: a queued event whose response was recorded and whose fetch succeeds ends with exactly the fetched bytes as its entry's body |
| `Browser.FinishAllKeepsFetched` | internal/browser/browser.go:162-170 | an entry that already holds the body fetched for its id keeps it for the rest of the loop |
| `Browser.FinishAllFailedFetches` | internal/browser/browser.go:162-171 | errors never stop the loop: when every fetch fails it runs to the end and the map is unchanged |
| `Browser.FinishAllNoPanic` | internal/browser/browser.go:141 | once the map is allocated the loop never panics and the map stays allocated |
| `Browser.FinishAllKeys` | internal/browser/browser.go:167-170 | entries stay filed under their own ids, and the loop adds no key except the empty id of the zero Response |
| `Browser.MissingResponseWritesEmptyId` | internal/browser/browser.go:167-170 | an event with no recorded response writes the zero Response with the fetched body under the empty id, not under the event's id |
| `Browser.FinishAllBodiesFetched` | internal/browser/browser.go:130-141 | the loop keeps every body either empty or exactly what the browser returned for that entry's id |
| `Browser.StepBodiesFetched` | internal/browser/browser.go:70-92 | a handler keeps every stored body either empty or exactly the fetched bytes for its id |
| `Browser.Act` | internal/browser/browser.go:70-170 | one atomic step: a handler runs `Step`; a receive removes the queue head and holds a copy of its entry as read under the lock (`Lookup`), leaving the map alone; a completion writes that copy back as `WriteBody` does and ends the iteration, leaving the queue alone; a receive never sets the panic flag; a step that cannot run yet changes nothing, and after a panic nothing changes |
| `Browser.Trace` | internal/browser/browser.go:70-170 | a sequence of steps; once the process has panicked, the session stays as it is |
| `Browser.ActBodiesFetched` | internal/browser/browser.go:124-141 | every step, handler or watcher, keeps every stored body either empty or exactly the fetched bytes for its id |
| `Browser.TraceBodiesFetched` | internal/browser/browser.go:159-173 | on any interleaving of handlers and watcher steps the stored bodies stay sound |
| `Browser.SessionBodiesFetched` | internal/browser/browser.go:159-173 | from a fresh session, on any interleaving of handlers and watcher steps, every stored body is empty or exactly the fetched bytes for its id |
| `Browser.IterationsAreFinishAll` | internal/browser/browser.go:162-171 | with no handler running between them, the watcher's receive and complete steps give `FinishAll`'s map and panic flag |
| `Browser.StaleWriteLosesUpdate` | internal/browser/browser.go:166-170 | a response-received handler that runs between the watcher's read and its write is lost: the entry ends up with the first response's URL and the fetched body |
| `Database.Split` | internal/database/database.go:36 | at least one piece; no piece contains the separator; the first piece is a prefix ending at the first separator; without a separator the only piece is the string |
| `Database.SplitJoin` | internal/database/database.go:36 | joining the pieces with the separator gives back the original string |
| `Database.Hostname` | internal/database/database.go:35-36 | the domain contains no ':', is a prefix of the Host, is the whole Host when it has no ':', and otherwise ends right before the first ':' |
| `Database.HostnameCut` | internal/database/database.go:36 | the domain is exactly the Host up to its first ':' |
| `Database.HostnamePortExample` | internal/database/database.go:36 | "example.com:8443" gives "example.com" |
| `Database.HostnameIpv6Example` | internal/database/database.go:36 | "[::1]:80" gives "[" |
| `Database.InsertIntoDB` | internal/database/database.go:18-44 | a parse failure returns an error and writes nothing; otherwise the row (testID, Type, domain, payload, Body) is written once and nil is returned if exec succeeds, else an error is returned and nothing is written; a marshal failure only empties the payload |

## Left out

- Concurrency: the goroutines, the mutex and the unbuffered channel. `Act` and `Trace` model each handler and each locked section as one atomic step. Finer races are not modelled. Neither `Requests.Add` nor `Responses.Add` takes a lock. So two appends can race, and a response handler can race with the watcher's locked read or write. Two handlers on a nil map can both allocate it, and one response is then lost. The drain in `main` running while fetches are in flight is not modelled.
- Browser.WatchEventFinishers: one loop iteration (read, fetch, write) is one step, so the lost update between the read and the write is not visible here; `Act` and `Trace` model it. The method drains the events queued so far, as if the channel were then closed. The source's loop lives for the whole process.
- Browser.FinishAll: like the method, one iteration is one step; the interleaved form is `Act` and `Trace`.
- Browser.GetResponseBody: the caller's copy of `r` also receives the fetched body in the source. Its only caller discards that copy, so the model returns only the outcome.
- The body fetch is a fixed function of the request id. A browser that answers differently for the same id at different times is not captured.
- Event payloads are reduced to the fields the store reads (ids, URLs, post-data entries). `Content` is the event itself or nil.
- Session plumbing (`New`, `TestID`, `Cancel`, `GetCtx`, `Run`): these are chromedp context handling, UUID generation and navigation, all foreign calls.
- `database.Init`, `internal/config/config.go` and `cmd/main.go`: connection set-up, environment lookup and orchestration, all I/O.
- The internals of `json.Marshal`, `url.Parse` and `db.Exec`, and all logging.
