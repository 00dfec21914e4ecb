/**
 * Row preparation in the persistence step (internal/database/database.go,
 * InsertIntoDB). json.Marshal, url.Parse and db.Exec are collaborators whose
 * answers are given as functions of the values they receive.
 */
module Database {
  import opened Wrappers
  import opened Events

  /** The run's identifier (a UUID in the source). */
  type TestId = string

  /** The anonymous struct InsertIntoDB receives: the fields of a captured request or response. */
  datatype EventRecord = EventRecord(requestId: RequestId, kind: string, url: string, content: Content, body: Bytes)

  /** What url.Parse yields, reduced to the Host the row needs ("host" or "host:port"). */
  datatype ParsedUrl = ParsedUrl(host: string)

  /** One row of the events table: test_id, type, domain, payload, body. */
  datatype Row = Row(testId: TestId, kind: string, domain: string, payload: Bytes, body: Bytes)

  /** The two errors InsertIntoDB returns. */
  datatype InsertError = ParseUrlFailed | InsertFailed

  /** json.Marshal of the Content field; None is a marshal error. */
  type Marshal = Content -> Option<Bytes>

  /** url.Parse of the URL field; None is a parse error. */
  type ParseUrl = string -> Option<ParsedUrl>

  /** db.Exec of the INSERT with the row's values; false is an exec error. */
  type Exec = Row -> bool

  /** strings.Split with a one-character separator: the pieces between separators, at least one. */
  function Split(s: string, sep: char): (parts: seq<string>)
    ensures |parts| >= 1
    ensures forall i :: 0 <= i < |parts| ==> sep !in parts[i]
    ensures parts[0] <= s
    ensures |parts[0]| < |s| ==> s[|parts[0]|] == sep
    ensures sep !in s ==> parts == [s]
  {
    if s == [] then [[]]
    else if s[0] == sep then [[]] + Split(s[1..], sep)
    else
      var rest := Split(s[1..], sep);
      assert s == [s[0]] + s[1..];
      [[s[0]] + rest[0]] + rest[1..]
  }

  /** strings.Join with a one-character separator. */
  function Join(parts: seq<string>, sep: char): (joined: string)
    requires |parts| >= 1
    ensures parts[0] <= joined
    decreases |parts|
  {
    if |parts| == 1 then parts[0] else parts[0] + [sep] + Join(parts[1..], sep)
  }

  /** Extending the first piece extends the joined string at the front. */
  lemma JoinExtendFirst(prefix: string, parts: seq<string>, sep: char)
    requires |parts| >= 1
    ensures Join([prefix + parts[0]] + parts[1..], sep) == prefix + Join(parts, sep)
  {
  }

  /** Split loses nothing: joining the pieces back gives the original string. */
  lemma {:induction false} SplitJoin(s: string, sep: char)
    ensures Join(Split(s, sep), sep) == s
    decreases |s|
  {
    if s == [] {
    } else if s[0] == sep {
      var rest := Split(s[1..], sep);
      SplitJoin(s[1..], sep);
      assert ([[]] + rest)[1..] == rest;
      assert Join([[]] + rest, sep) == [] + [sep] + Join(rest, sep);
      assert s == [sep] + s[1..];
    } else {
      var rest := Split(s[1..], sep);
      SplitJoin(s[1..], sep);
      JoinExtendFirst([s[0]], rest, sep);
      assert s == [s[0]] + s[1..];
    }
  }

  /** The stored domain: the Host up to its first ':'; a Host without ':' is kept whole. */
  function Hostname(host: string): (domain: string)
    ensures ':' !in domain && domain <= host
    ensures ':' !in host ==> domain == host
    ensures ':' in host ==> |domain| < |host| && host[|domain|] == ':'
  {
    var parts := Split(host, ':');
    assert ':' in host ==> parts[0] != host;
    parts[0]
  }

  /** The domain is exactly the Host cut at its first ':'. */
  lemma {:induction false} HostnameCut(host: string, k: nat)
    requires k < |host| && host[k] == ':'
    requires forall i :: 0 <= i < k ==> host[i] != ':'
    ensures Hostname(host) == host[..k]
  {
  }

  /** A port is stripped from an ordinary host. */
  lemma HostnamePortExample()
    ensures Hostname("example.com:8443") == "example.com"
  {
    HostnameCut("example.com:8443", 11);
    assert "example.com:8443"[..11] == "example.com";
  }

  /** A bracketed IPv6 host is cut inside its brackets, since the cut is at the first ':'. */
  lemma HostnameIpv6Example()
    ensures Hostname("[::1]:80") == "["
  {
  }

  /**
   * `InsertIntoDB`: marshal the content (an empty payload on failure), parse
   * the URL (an error before any write on failure), strip the port from the
   * host, then write one row (an error if the write fails). Returns the error,
   * if any, and the rows written.
   */
  method InsertIntoDB(testId: TestId, event: EventRecord, marshal: Marshal, parseUrl: ParseUrl, exec: Exec)
    returns (err: Option<InsertError>, written: seq<Row>)
    ensures parseUrl(event.url).None? ==> err == Some(ParseUrlFailed) && written == []
    ensures parseUrl(event.url).Some? ==>
      var payload := if marshal(event.content).Some? then marshal(event.content).value else [];
      var row := Row(testId, event.kind, Hostname(parseUrl(event.url).value.host), payload, event.body);
      && (exec(row) ==> err == None && written == [row])
      && (!exec(row) ==> err == Some(InsertFailed) && written == [])
  {
    var eventJson: Bytes;
    match marshal(event.content) {
      case Some(json) =>
        eventJson := json;
      case None =>
        eventJson := [];
    }

    var parsed := parseUrl(event.url);
    if parsed.None? {
      return Some(ParseUrlFailed), [];
    }
    var host := parsed.value.host;
    host := Hostname(host);

    var row := Row(testId, event.kind, host, eventJson, event.body);
    if !exec(row) {
      return Some(InsertFailed), [];
    }
    return None, [row];
  }
}
