/**
 * The two relay endpoints: get_paste picks and checks the paste id from the
 * request before any fetch, and get_paste_raw fetches any id it is given.
 * Reading the query string or the JSON body, and serialising the answer, are
 * framework work; the request arrives here already split into its fields.
 */
module Handler {
  import opened Wrappers
  import opened Resolver
  import opened Fetcher

  const MissingParam: string := "Please provide either \"url\" or \"id\" parameter"
  const InvalidId: string := "Invalid paste ID format"
  const NoJson: string := "No JSON data provided"

  const StatusBadRequest: nat := 400

  /** The shortest id the relay passes on. */
  const MinIdLength: nat := 3

  /**
   * A request to /api/pastefy: a GET with optional `url` and `id` query
   * parameters, or a POST whose JSON body, if any, is an object of strings.
   */
  datatype Request =
    | GetRequest(url: Option<string>, id: Option<string>)
    | PostRequest(body: Option<map<string, string>>)

  /** What get_paste decides before any upstream call. */
  datatype Decision = ClientError(message: string) | Fetch(pasteId: string)

  /** What an endpoint sends back: a JSON error, a JSON record or plain text. */
  datatype Body =
    | ErrorBody(error: string)
    | RecordBody(record: FetchResult)
    | PlainText(text: string)

  datatype Response = Response(status: nat, body: Body)

  /** Python truthiness of an optional string: present and non-empty. */
  predicate Truthy(o: Option<string>)
  {
    o.Some? && o.value != ""
  }

  /** Python's `data.get(key)` on the JSON body. */
  function Lookup(m: map<string, string>, key: string): Option<string>
  {
    if key in m then Some(m[key]) else None
  }

  /** The basic format check on the resolved id. */
  function CheckId(pasteId: string): (d: Decision)
    ensures d.Fetch? <==> |pasteId| >= MinIdLength
    ensures d.Fetch? ==> d.pasteId == pasteId
    ensures d.ClientError? ==> d.message == InvalidId
  {
    if pasteId == "" || |pasteId| < MinIdLength then ClientError(InvalidId) else Fetch(pasteId)
  }

  /**
   * The id choice and check of get_paste: a truthy `url` is resolved and wins
   * over `id`; with neither truthy the request is refused; the id chosen must
   * be at least MinIdLength long.
   */
  function ResolveParams(url: Option<string>, id: Option<string>): (d: Decision)
    ensures d == ClientError(MissingParam) <==> !Truthy(url) && !Truthy(id)
    ensures Truthy(url) ==>
      (d.Fetch? <==> |ExtractPasteId(url.value)| >= MinIdLength) &&
      (d.Fetch? ==> d.pasteId == ExtractPasteId(url.value))
    ensures !Truthy(url) && Truthy(id) ==>
      (d.Fetch? <==> |id.value| >= MinIdLength) &&
      (d.Fetch? ==> d.pasteId == id.value)
    ensures d.ClientError? ==> d.message in {MissingParam, InvalidId}
  {
    if Truthy(url) then CheckId(ExtractPasteId(url.value))
    else if !Truthy(id) then ClientError(MissingParam)
    else CheckId(id.value)
  }

  /** get_paste up to the fetch: the body check for POST, then ResolveParams. */
  function Decide(req: Request): (d: Decision)
    ensures d.Fetch? ==> |d.pasteId| >= MinIdLength
    ensures req.PostRequest? ==>
      (d == ClientError(NoJson) <==> req.body.None? || req.body.value == map[])
    ensures req.GetRequest? ==> d == ResolveParams(req.url, req.id)
    ensures req.PostRequest? && req.body.Some? && req.body.value != map[] ==>
      d == ResolveParams(Lookup(req.body.value, "url"), Lookup(req.body.value, "id"))
  {
    match req
    case GetRequest(url, id) => ResolveParams(url, id)
    case PostRequest(body) =>
      if body.None? || body.value == map[] then ClientError(NoJson)
      else ResolveParams(Lookup(body.value, "url"), Lookup(body.value, "id"))
  }

  /**
   * get_paste: a refused request is answered 400 with its message; otherwise
   * the record for the chosen id, with 200 on success and 404 on failure.
   * `upstream` is what the GET for that id would end in.
   */
  function GetPaste(req: Request, upstream: Upstream, elapsed: Millis): (resp: Response)
    ensures Decide(req).ClientError? ==>
      resp == Response(StatusBadRequest, ErrorBody(Decide(req).message))
    ensures Decide(req).Fetch? ==>
      && resp.body.RecordBody?
      && resp.body.record.pasteId == Decide(req).pasteId
      && resp.body.record.Success? == upstream.Ok?
      && (resp.status == StatusOk <==> upstream.Ok?)
      && (resp.status == StatusNotFound <==> !upstream.Ok?)
    ensures Decide(req).Fetch? ==>
      var r := GetPastefyContent(Decide(req).pasteId, upstream, elapsed);
      resp == Response(Status(r), RecordBody(r))
  {
    match Decide(req)
    case ClientError(msg) => Response(StatusBadRequest, ErrorBody(msg))
    case Fetch(pasteId) =>
      var r := GetPastefyContent(pasteId, upstream, elapsed);
      Response(Status(r), RecordBody(r))
  }

  /**
   * get_paste_raw: the paste text alone with 200 on success, the failure
   * record with 404 otherwise. The id is not checked here.
   */
  function GetPasteRaw(pasteId: string, upstream: Upstream, elapsed: Millis): (resp: Response)
    ensures upstream.Ok? ==>
      resp == Response(StatusOk, PlainText(GetOr(upstream.fields, "content", "")))
    ensures !upstream.Ok? ==>
      resp.status == StatusNotFound && resp.body.RecordBody? &&
      resp.body.record.Failure? && resp.body.record.pasteId == pasteId
    ensures !upstream.Ok? ==>
      resp == Response(StatusNotFound, RecordBody(GetPastefyContent(pasteId, upstream, elapsed)))
  {
    var r := GetPastefyContent(pasteId, upstream, elapsed);
    if r.Success? then Response(StatusOk, PlainText(r.content))
    else Response(StatusNotFound, RecordBody(r))
  }

  /** A truthy `url` decides alone: whatever `id` says is ignored. */
  lemma UrlWins(url: string, id1: Option<string>, id2: Option<string>)
    requires url != ""
    ensures ResolveParams(Some(url), id1) == ResolveParams(Some(url), id2)
  {
  }

  /** An empty parameter is treated exactly like a missing one. */
  lemma EmptyIsAbsent(url: Option<string>, id: Option<string>)
    ensures ResolveParams(Some(""), id) == ResolveParams(None, id)
    ensures ResolveParams(url, Some("")) == ResolveParams(url, None)
  {
  }

  /**
   * No upstream call is made for a refused request: its answer is the same
   * whatever the upstream would have said.
   */
  lemma RefusedWithoutFetch(req: Request, u1: Upstream, u2: Upstream, e1: Millis, e2: Millis)
    requires Decide(req).ClientError?
    ensures GetPaste(req, u1, e1) == GetPaste(req, u2, e2)
    ensures GetPaste(req, u1, e1).status == StatusBadRequest
  {
  }

  /** A URL whose last segment is too short is refused, e.g. a bare host. */
  lemma BareHostRefused()
    ensures ExtractPasteId("https://pastefy.app/") == ""
    ensures GetPaste(GetRequest(Some("https://pastefy.app/"), None), OtherErr(""), 0.0)
      == Response(StatusBadRequest, ErrorBody(InvalidId))
  {
    LastSegmentIsAfterLastSep("https://pastefy.app/");
  }

  /** A two-character id is refused without a fetch. */
  lemma ShortIdRefused(upstream: Upstream, elapsed: Millis)
    ensures GetPaste(GetRequest(None, Some("ab")), upstream, elapsed)
      == Response(StatusBadRequest, ErrorBody(InvalidId))
  {
  }

  /** A request with neither parameter is refused. */
  lemma NoParamRefused(upstream: Upstream, elapsed: Millis)
    ensures GetPaste(GetRequest(None, None), upstream, elapsed)
      == Response(StatusBadRequest, ErrorBody(MissingParam))
  {
  }

  /**
   * A full pastefy URL with an upstream body whose title is empty: the id is
   * the last segment and only the title falls back to the placeholder.
   */
  lemma FullUrlSuccess(id: string, content: string, language: string, created: string,
                       other: Option<string>, elapsed: Millis)
    requires Sep !in id && |id| >= MinIdLength
    requires language != "" && created != ""
    ensures
      var fields := map["content" := content, "title" := "", "language" := language,
                         "created" := created];
      GetPaste(GetRequest(Some(FullPrefix + id), other), Ok(fields), elapsed)
      == Response(StatusOk, RecordBody(Success(content, Placeholder, language, created, id, elapsed)))
  {
    PrefixedIdResolves(id);
  }

  /** A connection failure yields a 404 record whose error names the transport class. */
  lemma TransportFailureRecord(id: string, msg: string, elapsed: Millis)
    requires |id| >= MinIdLength
    ensures
      var resp := GetPaste(GetRequest(None, Some(id)), TransportErr(msg), elapsed);
      && resp.status == StatusNotFound
      && resp.body == RecordBody(Failure(TransportPrefix + msg, id, elapsed))
  {
  }

  /** The raw endpoint answers a successful fetch with the bare content. */
  lemma RawContentIsBare(elapsed: Millis)
    ensures GetPasteRaw("abc", Ok(map["content" := "hello"]), elapsed)
      == Response(StatusOk, PlainText("hello"))
  {
  }
}
