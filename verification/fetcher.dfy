/**
 * The upstream fetcher: maps the outcome of the one GET to the paste API onto
 * the result record the relay returns, and that record onto an HTTP status.
 * The GET itself, `raise_for_status` and JSON decoding are not modelled; their
 * outcome is the Upstream value passed in.
 */
module Fetcher {
  import opened Wrappers

  /** Prefixes that keep the two failure classes apart in the `error` text. */
  const TransportPrefix: string := "Request failed: "
  const OtherPrefix: string := "Error: "

  /** Stands in for a missing or empty title, language or creation time. */
  const Placeholder: string := "N/A"

  const StatusOk: nat := 200
  const StatusNotFound: nat := 404

  /** Elapsed wall-clock time, carried through untouched. */
  type Millis = real

  /**
   * What the upstream call ended in: a decoded JSON object, a failure raised
   * by the HTTP library (connection, timeout, non-2xx status), or any other
   * exception while reading the answer.
   */
  datatype Upstream =
    | Ok(fields: map<string, string>)
    | TransportErr(msg: string)
    | OtherErr(msg: string)

  /** The record get_pastefy_content returns; `success` is the constructor. */
  datatype FetchResult =
    | Success(content: string, title: string, language: string, created: string,
              pasteId: string, timeTakenMs: Millis)
    | Failure(error: string, pasteId: string, timeTakenMs: Millis)

  /** Python's `data.get(key, default)`. */
  function GetOr(fields: map<string, string>, key: string, default: string): string
  {
    if key in fields then fields[key] else default
  }

  /** Python's `data.get(key, '') or 'N/A'`. */
  function OrPlaceholder(fields: map<string, string>, key: string): string
  {
    var v := GetOr(fields, key, "");
    if v == "" then Placeholder else v
  }

  /** The upstream value of `key` counts as given: present and non-empty. */
  predicate Given(fields: map<string, string>, key: string)
  {
    key in fields && fields[key] != ""
  }

  /** get_pastefy_content, with the HTTP call and the clock as parameters. */
  function GetPastefyContent(pasteId: string, upstream: Upstream, elapsed: Millis): (r: FetchResult)
    ensures r.pasteId == pasteId && r.timeTakenMs == elapsed
    ensures r.Success? <==> upstream.Ok?
    ensures upstream.Ok? ==>
      var f := upstream.fields;
      && (Given(f, "title") ==> r.title == f["title"])
      && (!Given(f, "title") ==> r.title == Placeholder)
      && (Given(f, "language") ==> r.language == f["language"])
      && (!Given(f, "language") ==> r.language == Placeholder)
      && (Given(f, "created") ==> r.created == f["created"])
      && (!Given(f, "created") ==> r.created == Placeholder)
      && ("content" in f ==> r.content == f["content"])
      && ("content" !in f ==> r.content == "")
    ensures upstream.TransportErr? ==> r.error == TransportPrefix + upstream.msg
    ensures upstream.OtherErr? ==> r.error == OtherPrefix + upstream.msg
  {
    match upstream
    case Ok(data) =>
      Success(GetOr(data, "content", ""),
              OrPlaceholder(data, "title"),
              OrPlaceholder(data, "language"),
              OrPlaceholder(data, "created"),
              pasteId, elapsed)
    case TransportErr(e) => Failure(TransportPrefix + e, pasteId, elapsed)
    case OtherErr(e) => Failure(OtherPrefix + e, pasteId, elapsed)
  }

  /** The status get_paste answers a fetched record with. */
  function Status(r: FetchResult): (code: nat)
    ensures code == StatusOk <==> r.Success?
    ensures code == StatusNotFound <==> r.Failure?
  {
    if r.Success? then StatusOk else StatusNotFound
  }

  /**
   * Reads the failure class and the underlying message back out of an
   * `error` text; None when it carries neither prefix.
   */
  function ParseError(error: string): (u: Option<Upstream>)
    ensures u.Some? ==> !u.value.Ok?
    ensures u.Some? ==> |u.value.msg| < |error|
  {
    if TransportPrefix <= error then Some(TransportErr(error[|TransportPrefix|..]))
    else if OtherPrefix <= error then Some(OtherErr(error[|OtherPrefix|..]))
    else None
  }

  /**
   * The two prefixes keep the failure classes distinguishable: the error text
   * of every failure record determines which failure it was and its message.
   */
  lemma ErrorRoundTrip(pasteId: string, upstream: Upstream, elapsed: Millis)
    requires !upstream.Ok?
    ensures ParseError(GetPastefyContent(pasteId, upstream, elapsed).error) == Some(upstream)
  {
    var e := GetPastefyContent(pasteId, upstream, elapsed).error;
    if upstream.OtherErr? {
      assert e[0] != TransportPrefix[0];
      assert e[..|OtherPrefix|] == OtherPrefix;
    } else {
      assert e[..|TransportPrefix|] == TransportPrefix;
    }
  }

  /**
   * In a success record the placeholder fields are never empty, and each
   * shows the placeholder exactly when the upstream value was missing, empty
   * or itself the placeholder text.
   */
  lemma PlaceholderExactly(pasteId: string, fields: map<string, string>, elapsed: Millis, key: string)
    requires key in {"title", "language", "created"}
    ensures var r := GetPastefyContent(pasteId, Ok(fields), elapsed);
      var shown := if key == "title" then r.title else if key == "language" then r.language else r.created;
      && shown != ""
      && (shown == Placeholder <==> !Given(fields, key) || fields[key] == Placeholder)
  {
  }

  /**
   * Missing content shows as the empty text, never as the placeholder, and
   * content the upstream gave is passed on unchanged, even when empty.
   */
  lemma ContentNeverDefaulted(pasteId: string, fields: map<string, string>, elapsed: Millis)
    ensures var r := GetPastefyContent(pasteId, Ok(fields), elapsed);
      && (r.content == Placeholder ==> "content" in fields && fields["content"] == Placeholder)
      && (r.content == "" <==> "content" !in fields || fields["content"] == "")
  {
  }
}
