# Pastefy relay — a Dafny model of its request logic

The relay is a small Flask service. It takes a pastefy URL or a bare paste id,
fetches that paste from the pastefy API once, and returns a JSON record:
content, title, language, creation time, the paste id and the time taken.
If the fetch fails it returns an error record instead. A raw endpoint returns
only the paste text.

This project models the deterministic parts of `main.py` as pure Dafny
functions, and proves lemmas about them:

- `resolver.dfy` (module `Resolver`) models `extract_paste_id`. A URL that
  starts with `https://pastefy.app/` or `pastefy.app/` resolves to its last
  path segment. Any other input is returned unchanged. Python's
  `url.split('/')[-1]` is written out as `Split` (Python `str.split` with an
  explicit separator) followed by taking the last piece. The predicate
  `IsLastSegment` gives an independent description of that piece: a suffix
  with no `/`, preceded by `/` whenever it is shorter than the input. The
  lemmas prove the two descriptions agree, in both directions.
- `fetcher.dfy` (module `Fetcher`) models how `get_pastefy_content` builds
  its records. The outcome of the HTTP call is a value of type `Upstream`:
  a decoded object, a transport failure, or any other failure. The module
  also covers the 200/404 status choice and the two error prefixes, and it
  proves that a failure record's error text can be decoded back into its
  failure class and message.
- `handler.dfy` (module `Handler`) models `get_paste` and `get_paste_raw`.
  For `get_paste` this covers the empty-body check on a POST, the choice
  between `url` and `id` (Python truthiness: an empty string counts as
  absent), the minimum-length check on the id, and the final response. It
  also proves example requests, among them the forms the `home` route
  advertises (main.py:70-75): a full URL, or a bare id.
- `wrappers.dfy` (module `Wrappers`) holds the `Option` type used for request
  parameters that may be missing.

Two behaviours of the code are worth stating plainly:

- An empty `url` or `id` counts as absent, because the code tests Python
  truthiness (main.py:94-96 and 103). `ResolveParams` and `EmptyIsAbsent`
  model that.
- `time_taken_ms` is the difference of two `time.time()` wall-clock readings
  (main.py:22, 31-32), so it can be negative. The model passes the elapsed
  time through as an opaque value, claims no sign for it, and promises only
  that it is echoed unchanged into every record.

## Model

| member | source | states |
|---|---|---|
| Resolver.Split | main.py:13 | Python `split('/')` always returns at least one piece, and no piece contains `/` |
| Resolver.JoinSplit | main.py:13 | joining the pieces of `split('/')` with `/` gives back the input, so no character is lost or reordered |
| Resolver.LastSegmentIsAfterLastSep | main.py:13 | `split('/')[-1]` is a suffix of the input, contains no `/`, and is preceded by `/` when shorter than the input; it is shorter exactly when the input contains `/` |
| Resolver.LastSegmentUnique | main.py:13 | a string is the text after the last `/` (per `IsLastSegment`) if and only if it equals `split('/')[-1]` |
| Resolver.ExtractPasteId | main.py:9-18 | an input with either pastefy host prefix resolves to the text after its last `/`, which contains no `/` and is strictly shorter than the input; any other input is returned unchanged |
| Resolver.ExtractPasteIdExactly | main.py:12-15 | for an input with either host prefix, a string is the resolved id if and only if it is the text after the input's last `/` |
| Resolver.PrefixedIdResolves | main.py:12-15 | either host prefix followed by an id without `/` resolves to exactly that id |
| Resolver.ExtractPasteIdIsSuffix | main.py:9-18 | the resolved id is always a suffix of the input |
| Resolver.ExtractPasteIdIdempotent | main.py:9-18 | resolving an already resolved id returns it unchanged |
| Fetcher.GetPastefyContent | main.py:34-60 | the record echoes the paste id and the elapsed time; it is a success exactly when the upstream call succeeded; title, language and created hold the upstream value when it is given and non-empty, and `N/A` otherwise; content holds the upstream value when present, and `""` otherwise; a transport failure's error text is `Request failed: ` plus the message, and any other failure's is `Error: ` plus the message |
| Fetcher.Status | main.py:111-114 | a success record gets status 200 and a failure record gets 404 |
| Fetcher.ErrorRoundTrip | main.py:43-60 | the two prefixes keep the failure classes apart: decoding a failure record's error text gives back exactly the failure class and the message it was built from |
| Fetcher.PlaceholderExactly | main.py:37-39 | title, language and created are never empty in a success record; each is `N/A` if and only if the upstream value was missing, empty, or itself `N/A` |
| Fetcher.ContentNeverDefaulted | main.py:36 | content is never replaced by `N/A`; it is empty if and only if the upstream content was missing or empty |
| Handler.CheckId | main.py:102-107 | an id is passed on to the fetch exactly when it has at least 3 characters; otherwise the request is refused with `Invalid paste ID format` |
| Handler.ResolveParams | main.py:93-107 | the request is refused with `Please provide either "url" or "id" parameter` exactly when neither `url` nor `id` is non-empty; a non-empty `url` is resolved and its result is the id; otherwise `id` itself is used; in both cases the fetch happens only when the id has at least 3 characters |
| Handler.Decide | main.py:82-107 | a POST with a missing or empty body is refused with `No JSON data provided`, and only such a POST; a GET decides by `ResolveParams` on its `url` and `id` parameters, and a POST with a non-empty body by `ResolveParams` on the body's `url` and `id` keys; any id that reaches the fetch has at least 3 characters |
| Handler.GetPaste | main.py:81-114 | a refused request is answered with 400 and its message; otherwise the answer is exactly the `GetPastefyContent` record for the chosen id, the upstream outcome and the elapsed time (so every field is as that function states), with 200 when the upstream call succeeded and 404 when it failed |
| Handler.GetPasteRaw | main.py:116-124 | the id is not checked; on success the answer is 200 with the bare content text; on failure it is 404 with exactly the `GetPastefyContent` failure record for the given id, including its prefixed error text and elapsed time |
| Handler.UrlWins | main.py:94-95 | when `url` is non-empty, the value of `id` does not affect the decision |
| Handler.EmptyIsAbsent | main.py:94-103 | an empty `url` or `id` is treated exactly like a missing one |
| Handler.RefusedWithoutFetch | main.py:96-109 | a refused request's answer does not depend on the upstream outcome, so no fetch takes place, and its status is 400 |
| Handler.BareHostRefused | main.py:103-107 | `url = https://pastefy.app/` resolves to the empty id and is refused with `Invalid paste ID format` |
| Handler.ShortIdRefused | main.py:103-107 | `id = ab` is refused with `Invalid paste ID format`, whatever the upstream would say |
| Handler.NoParamRefused | main.py:96-100 | a GET with neither parameter is refused with the missing-parameter message |
| Handler.FullUrlSuccess | main.py:34-42 | a GET whose `url` is `https://pastefy.app/` followed by an id of at least 3 characters without `/` (such as `mFGLQfek`), with an upstream body whose title is empty, is answered with 200 and a record for that id whose title is `N/A` and whose other fields are the upstream values; any `id` parameter is ignored |
| Handler.TransportFailureRecord | main.py:43-51 | a transport failure for a valid id is answered with 404 and a record whose error is `Request failed: ` plus the message |
| Handler.RawContentIsBare | main.py:121-122 | the raw endpoint answers a successful fetch of content `hello` with the plain text `hello` |

## Left out

- Flask setup, routing, the index route `home`, `jsonify`, reading `request.args` and `request.get_json`, and `app.run` (main.py:2-7, 62-78, 126-127). These are framework plumbing. A request arrives in the model already split into its `url` and `id` fields, or its JSON body.
- The outbound `requests.get`, `raise_for_status` and `response.json()` (main.py:25-30). These are network and library calls. Their outcome is the `Upstream` value passed in. The URL template `https://pastefy.app/api/v2/paste/<id>` is not modelled.
- Timing (main.py:22, 31-32, 44-45, 53-54). The clock and the floating-point rounding are not modelled. `time_taken_ms` is an opaque `real` parameter that is echoed into the record. No sign or rounding property is claimed.
- JSON values that are not strings, and JSON bodies that are not objects. The model's POST body is a map from strings to strings. In the source, a falsy non-string value (JSON `null`, `false`, `0`) for `url` or `id` is treated as absent, like an empty string; a truthy non-string `url` makes `extract_paste_id` raise; a truthy `id` that has no length (a number or `true`) makes `len` raise; a list or object `id` has a length and is checked and fetched like a string (for example `{"id": [1,2,3]}` is fetched). A non-object body passes the `not data` check only if it is truthy, and then `.get` raises. The raising paths end in a 500 answer. None of these non-string paths is modelled. Likewise, upstream fields that are JSON `null` or non-strings are not modelled.
- Python exception classes. They are reduced to the two failure variants of `Upstream`. Whether a given fault is a `RequestException` is decided outside the model.
- The HTTP headers of the raw endpoint, such as `Content-Type: text/plain` (main.py:122). The plain-text body is modelled; the headers are not.
