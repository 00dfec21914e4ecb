/**
 * The in-memory capture store: the records built from browser network
 * events, the append-only list of requests and the map of responses keyed
 * by request id (internal/browser/events.go).
 */
module Events {
  import opened Wrappers

  /** One octet; Go's []byte and the bytes of a Go string. */
  newtype byte = x: int | 0 <= x < 256

  type Bytes = seq<byte>

  /** The browser's opaque request identifier. */
  type RequestId = string

  /** One chunk of a request's post data; Go keeps it as a byte string. */
  datatype PostDataEntry = PostDataEntry(bytes: Bytes)

  /** The browser's request-will-be-sent event, reduced to the fields the store reads. */
  datatype RequestWillBeSent = RequestWillBeSent(requestId: RequestId, url: string, postDataEntries: seq<PostDataEntry>)

  /** The browser's response-received event. */
  datatype ResponseReceived = ResponseReceived(requestId: RequestId, url: string)

  /** The browser's loading-finished event. */
  datatype LoadingFinished = LoadingFinished(requestId: RequestId)

  /** The untyped Content field of a record: nil, or the event the record was built from. */
  datatype Content =
    | NoContent
    | RequestContent(sent: RequestWillBeSent)
    | ResponseContent(received: ResponseReceived)

  /** A captured request; `kind` is the source's Type field. */
  datatype Request = Request(requestId: RequestId, kind: string, url: string, content: Content, body: Bytes)

  /** A captured response; `kind` is the source's Type field. */
  datatype Response = Response(requestId: RequestId, kind: string, url: string, content: Content, body: Bytes)

  /** Go's zero Response: what indexing the map yields for a missing key. */
  const ZeroResponse := Response("", "", "", NoContent, [])

  type ResponseMap = map<RequestId, Response>

  /** The entries of a possibly nil map: a nil map reads as empty. */
  function Entries(m: Option<ResponseMap>): (entries: ResponseMap)
    ensures m.None? ==> entries == map[]
  {
    match m
    case None => map[]
    case Some(entries) => entries
  }

  /** Indexing the response map: the stored entry, or the zero Response when the key is absent or the map is nil. */
  function Lookup(m: Option<ResponseMap>, id: RequestId): (r: Response)
    ensures id in Entries(m) ==> r == Entries(m)[id]
    ensures id !in Entries(m) ==> r == ZeroResponse
  {
    if m.Some? && id in m.value then m.value[id] else ZeroResponse
  }

  /** The map after `Responses.Add(response)`: allocated if it was nil, then upserted. */
  function Upsert(m: Option<ResponseMap>, response: Response): (r: ResponseMap)
    ensures response.requestId in r && r[response.requestId] == response
    ensures r.Keys == Entries(m).Keys + {response.requestId}
    ensures forall id :: id in Entries(m) && id != response.requestId ==> id in r && r[id] == Entries(m)[id]
  {
    Entries(m)[response.requestId := response]
  }

  /** Adding the same response twice gives the same map as adding it once. */
  lemma UpsertIdempotent(m: Option<ResponseMap>, response: Response)
    ensures Upsert(Some(Upsert(m, response)), response) == Upsert(m, response)
  {
  }

  /** Two adds with the same request id: only the later one is kept. */
  lemma UpsertLastWins(m: Option<ResponseMap>, first: Response, second: Response)
    requires first.requestId == second.requestId
    ensures Upsert(Some(Upsert(m, first)), second) == Upsert(m, second)
  {
  }

  /** The post-data entries' bytes, concatenated in order. */
  function PostData(entries: seq<PostDataEntry>): (data: Bytes)
    ensures entries == [] ==> data == []
    ensures entries != [] ==> entries[0].bytes <= data
    ensures |entries| == 1 ==> data == entries[0].bytes
  {
    if entries == [] then [] else entries[0].bytes + PostData(entries[1..])
  }

  /** Concatenating post data distributes over splitting the entry list. */
  lemma {:induction false} PostDataAppend(front: seq<PostDataEntry>, back: seq<PostDataEntry>)
    ensures PostData(front + back) == PostData(front) + PostData(back)
  {
    if front == [] {
      assert front + back == back;
    } else {
      assert (front + back)[1..] == front[1..] + back;
      PostDataAppend(front[1..], back);
    }
  }

  /** One entry contributes exactly its bytes. */
  lemma PostDataSingle(entry: PostDataEntry)
    ensures PostData([entry]) == entry.bytes
  {
  }

  /** Entries "ab" and "cd" give "abcd"; no entries give an empty body. */
  lemma PostDataExample()
    ensures PostData([PostDataEntry([97, 98]), PostDataEntry([99, 100])]) == [97, 98, 99, 100]
    ensures PostData([]) == []
  {
  }

  /**
   * SetBody type-asserts Content to a request-will-be-sent event on a
   * "request" record; any other Content makes it panic.
   */
  predicate CanSetBody(r: Request) {
    r.kind == "request" ==> r.content.RequestContent?
  }

  /** The record after `SetBody`. */
  function WithBody(r: Request): (updated: Request)
    requires CanSetBody(r)
    ensures r.kind != "request" ==> updated == r
    ensures updated.requestId == r.requestId && updated.kind == r.kind
    ensures updated.url == r.url && updated.content == r.content
  {
    if r.kind != "request" then r else r.(body := PostData(r.content.sent.postDataEntries))
  }

  /** SetBody overwrites rather than appends: applying it twice is applying it once. */
  lemma WithBodyIdempotent(r: Request)
    requires CanSetBody(r)
    ensures CanSetBody(WithBody(r)) && WithBody(WithBody(r)) == WithBody(r)
  {
  }

  /** On a "request" record the body becomes the post data, whatever it was before. */
  lemma WithBodyIsPostData(r: Request)
    requires r.kind == "request" && r.content.RequestContent?
    ensures WithBody(r).body == PostData(r.content.sent.postDataEntries)
  {
  }

  /** `Request.SetBody`: accumulate the post-data entries one by one, then assign the body. */
  method SetBody(r: Request) returns (updated: Request)
    requires CanSetBody(r)
    ensures updated == WithBody(r)
  {
    if r.kind != "request" {
      return r;
    }
    var entries := r.content.sent.postDataEntries;
    var postData: Bytes := [];
    var i := 0;
    while i < |entries|
      invariant 0 <= i <= |entries|
      invariant postData == PostData(entries[..i])
    {
      assert entries[..i + 1] == entries[..i] + [entries[i]];
      PostDataAppend(entries[..i], [entries[i]]);
      PostDataSingle(entries[i]);
      postData := postData + entries[i].bytes;
      i := i + 1;
    }
    assert entries[..i] == entries;
    updated := r.(body := postData);
  }

  /** The append-only list of captured requests (`Requests`). */
  class Requests {
    var items: seq<Request>

    constructor ()
      ensures items == []
    {
      items := [];
    }

    /** `Requests.Add`: append through the pointer to the slice. */
    method Add(request: Request)
      modifies this
      ensures items == old(items) + [request]
      ensures |items| == |old(items)| + 1 && items[|items| - 1] == request
      ensures items[..|old(items)|] == old(items)
    {
      items := items + [request];
    }
  }

  /** The map of captured responses keyed by request id (`Responses`); None is a nil map. */
  class Responses {
    var responseMap: Option<ResponseMap>

    /** `Responses{}`: the map starts out nil. */
    constructor ()
      ensures responseMap == None
    {
      responseMap := None;
    }

    /** `Responses.Add`: allocate the map on first use, then upsert by request id. */
    method Add(response: Response)
      modifies this
      ensures responseMap == Some(Upsert(old(responseMap), response))
      ensures response.requestId in responseMap.value && responseMap.value[response.requestId] == response
    {
      if responseMap.None? {
        responseMap := Some(map[]);
      }
      responseMap := Some(responseMap.value[response.requestId := response]);
    }
  }
}
