/** The status decision of `resolveDIDHandler`
    (pkg/restapi/didmethod/operation/operations.go, lines 249-280). */
module Resolve {
  import opened Results
  import opened Keys

  const DidLDJson: string := "application/did+ld+json"
  const MissingDidParam: string := "url param 'did' is missing"

  datatype Body = Text(message: string) | Document(bytes: Bytes)

  /** Status code, content type (set only on success) and body of a reply. */
  datatype Reply = Reply(status: int, contentType: Option<string>, body: Body)

  /** The parsed query string of a request: every name present carries at
      least one value, as url query parsing guarantees. */
  predicate WellFormedQuery(query: map<string, seq<string>>)
  {
    forall name :: name in query ==> |query[name]| > 0
  }

  /** The first `did` value, when there is a non-empty one. */
  function DidParam(query: map<string, seq<string>>): (r: Option<string>)
    requires WellFormedQuery(query)
    ensures r.Some? <==> "did" in query && query["did"][0] != ""
    ensures r.Some? ==> r.value == query["did"][0] && |r.value| > 0
  {
    if "did" !in query || query["did"][0] == "" then None else Some(query["did"][0])
  }

  /** `read` is the backend's resolution and `jsonBytes` the serialisation
      of what it returns. */
  function ResolveDid<R>(query: map<string, seq<string>>, read: string -> Result<R>, jsonBytes: R -> Result<Bytes>): (r: Reply)
    requires WellFormedQuery(query)
    ensures r.status in {200, 400, 500}
    ensures DidParam(query).None? ==> r == Reply(400, None, Text(MissingDidParam))
    ensures r.status == 200 <==>
      DidParam(query).Some? && read(DidParam(query).value).Ok? && jsonBytes(read(DidParam(query).value).value).Ok?
    ensures r.status == 200 ==>
      r.contentType == Some(DidLDJson) && r.body == Document(jsonBytes(read(DidParam(query).value).value).value)
    ensures DidParam(query).Some? && read(DidParam(query).value).Err? ==>
      r == Reply(400, None, Text("failed to resolve did: " + read(DidParam(query).value).reason))
    ensures DidParam(query).Some? && read(DidParam(query).value).Ok? && jsonBytes(read(DidParam(query).value).value).Err? ==>
      r.status == 500
    ensures r.status == 500 ==>
      && r.contentType.None? && r.body.Text?
      && r.body.message == "failed to marshal doc resolution: " + jsonBytes(read(DidParam(query).value).value).reason
  {
    match DidParam(query)
    case None => Reply(400, None, Text(MissingDidParam))
    case Some(did) =>
      match read(did)
      case Err(cause) => Reply(400, None, Text("failed to resolve did: " + cause))
      case Ok(resolution) =>
        match jsonBytes(resolution)
        case Err(cause) => Reply(500, None, Text("failed to marshal doc resolution: " + cause))
        case Ok(bytes) => Reply(200, Some(DidLDJson), Document(bytes))
  }

  /** A request without a usable `did` value is answered the same way
      whatever the backend would do. */
  lemma MissingParamIgnoresBackend<R>(query: map<string, seq<string>>,
                                     read1: string -> Result<R>, json1: R -> Result<Bytes>,
                                     read2: string -> Result<R>, json2: R -> Result<Bytes>)
    requires WellFormedQuery(query)
    requires DidParam(query).None?
    ensures ResolveDid(query, read1, json1) == ResolveDid(query, read2, json2)
  {
  }

  /** Only the first `did` value is looked at. */
  lemma OnlyFirstValueMatters<R>(query: map<string, seq<string>>, extra: seq<string>,
                                 read: string -> Result<R>, jsonBytes: R -> Result<Bytes>)
    requires WellFormedQuery(query)
    requires "did" in query
    ensures WellFormedQuery(query["did" := query["did"] + extra])
    ensures ResolveDid(query["did" := query["did"] + extra], read, jsonBytes) == ResolveDid(query, read, jsonBytes)
  {
    var q := query["did" := query["did"] + extra];
    assert q["did"][0] == query["did"][0];
  }
}
