# googlemaps client core, modelled in Dafny

This project models the core of the Python client for the Google Maps web
services (`googlemaps`), and proves properties of that model.

- **Client executor.** A `Client` holds the credentials, timeouts, the retry
  settings and the request headers. Its `_request` does the following, in
  order:
  - builds an authenticated URL with `_generate_auth_url`;
  - sends the request;
  - retries on 500/503/504 and on retriable API errors, with exponential
    backoff and random jitter, until a retry deadline;
  - paces requests to a queries-per-second ceiling, using a bounded window of
    send times;
  - classifies the response with `_get_body` or with the endpoint's own
    extractor.
- **Auth URL.** The authenticated URL is either signed (enterprise
  credentials: `channel`, `client`, then an HMAC `signature` over path and
  query) or keyed (`key=`). The parameters are merged with any extra
  parameters, sorted, and URL-encoded by `urlencode_params`. That function
  expands lists, encodes values as UTF-8, applies `quote_plus`, and finally
  applies `unquote_unreserved`.
- **Context executor.** The older `Context` and `common._get` executor signs
  URLs in the same two ways and has no backoff. It retries by calling itself
  again until its deadline, so a long run of retries can exhaust Python's
  recursion limit first.
- **Endpoints.** Each endpoint function checks and converts its arguments
  with the `convert` helpers (`latlng`, `join_list`, `as_list`, `time`,
  `components`, `bounds`). It then builds the request:
  - places, geocoding, static maps, roads, geolocation and address
    validation go through `Client._request`;
  - directions, distance matrix, elevation and time zone go through
    `common._get`.
- **Exceptions.** The exception taxonomy is `ApiError`, `TransportError`,
  `HTTPError`, `Timeout`, the internal `_RetriableRequest` and
  `_OverQueryLimit`.

Python values are one datatype, `Values.Value`. Python's truthiness,
`str()`, indexing, `in` and `dict.get` are defined once in `Values` and
`Builtins`, and every endpoint uses them.

- **Floats** are `Float(micros)`: a float with at most six decimals. This
  makes `"%f"` exact.
- **Parameter dicts** are maps. **JSON objects** are ordered sequences of
  entries.
- **Failures** are `Result` values that carry an `Exceptions.Error`.
- **Endpoint functions** return a description of the call they would make:
  - a `Request.ApiCall` gives the path, the parameters, the base URL, the
    extractor, the JSON body and what is done with the result (`Whole`,
    `.get(key, default)` or `[key]`);
  - a `Request.ContextCall` is the same for `common._get`.
- **Executors.** `MapsClient.Client.Call` and `Common.Get` are the
  executors that run such calls.
- **Time and transport** are parameters of the executors:
  - the transport is a function from the request number to a reply;
  - the clock is an object whose time the executor advances;
  - the jitter is a function from the retry number to a factor in [0.5, 1.5).

Where the library's prose description and its code differ, the model follows
the code:

- Enterprise signing is tried first. When the endpoint does not accept a
  client ID, a key is still used if one is configured.
- A list of parameters is not sorted: only the extra parameters are sorted,
  and they are put in front of the list.
- A malformed client secret is not rejected when the client is built.
- The channel is checked with a pattern. The model checks the pattern as
  intended; see Findings.

## Model

| member | source | states |
|---|---|---|
| Exceptions.Taxonomy | googlemaps/exceptions.py:22-68 | `_OverQueryLimit` is an API error and retriable; `HTTPError` is a transport error and not an API error; `Timeout` is none of the three; a plain `ApiError` is not retriable |
| Exceptions.ApiErrorString | googlemaps/exceptions.py:28-32 | `str(ApiError)` starts with the status, and is the bare status exactly when there is no message |
| Exceptions.ErrorString | googlemaps/exceptions.py:28-52 | `str(e)`: an API or quota error renders as its status and message; a TransportError as the wrapped exception, or "An unknown error occurred." without one; an HTTPError as "HTTP Error: " and its code |
| Exceptions.HTTPErrorStringRoundTrip | googlemaps/exceptions.py:46-52 | `str(HTTPError)` is "HTTP Error: " followed by the status code, and that code parses back |
| Decimal.IntToStringRoundTrip | googlemaps/convert.py:82-99 | the decimal text that `str(int(...))` gives parses back to the same integer, sign included |
| Decimal.FixedSixRoundTrip | googlemaps/convert.py:43-47 | `"%f"` of a six-decimal float parses back to the same value, so distinct coordinates give distinct text |
| Decimal.UnsignedFixedRoundTrip | googlemaps/convert.py:43-47 | the unsigned part of `"%f"`: the integer digits and the six padded decimals read back to the same micro-units |
| Sorting.SortedItems | googlemaps/client.py:362-366 | `sorted(d.items())` lists every entry of the dict exactly once, with keys strictly increasing |
| Sorting.SortedLookup | googlemaps/client.py:362-366 | looking a key up in the sorted items gives the dict's value for it |
| Convert.Latlng | googlemaps/convert.py:17-51 | a string passes through unchanged; a number, a bool or None is a TypeError (the numeric forms are stated by LatlngRoundTrip) |
| Convert.FormatF | googlemaps/convert.py:43-47 | `"%f"` accepts exactly the numbers (others are a TypeError); its text reads back to the number and holds no "," or "\|" |
| Convert.FormatPair | googlemaps/convert.py:43-47 | `"%f,%f"` succeeds exactly when both coordinates are numbers |
| Convert.LatlngRoundTrip | googlemaps/convert.py:17-51 | splitting `latlng(...)` at the comma and parsing both halves gives back the latitude and the longitude |
| Convert.PairRoundTrip | googlemaps/convert.py:43-47 | the two `"%f"` fields joined by "," split back into exactly those fields |
| Convert.IsList | googlemaps/convert.py:75-79 | under Python 2, lists, tuples and dicts are list-like; strings, numbers, booleans and None are not |
| Convert.AsList | googlemaps/convert.py:65-72 | a list-like value (list, tuple or dict) is kept; anything else becomes a one-element list |
| Convert.JoinList | googlemaps/convert.py:54-62 | joins the string items of `as_list(arg)` with the separator; a non-string item is a TypeError |
| Convert.JoinListSplit | googlemaps/convert.py:54-62 | for items that do not contain the separator, splitting the joined text gives the items back |
| Convert.JoinEach | googlemaps/convert.py:54-62 | join_list over converted items holds each converted item in order, separated by "\|" |
| Convert.Time | googlemaps/convert.py:82-99 | an int is written in decimal and reads back; a float is truncated toward zero; a string passes through |
| Convert.Components | googlemaps/convert.py:113-135 | a dict becomes "key:value" pieces joined by "\|"; a non-dict is a TypeError |
| Convert.ComponentsSplit | googlemaps/convert.py:113-135 | splitting the result on "\|" gives one "key:value" piece per entry, in order |
| Convert.Bounds | googlemaps/convert.py:138-176 | a string passes through; anything but a string or a dict with southwest and northeast is a TypeError (the dict form is stated by BoundsSouthwestFirst) |
| Convert.BoundsSouthwestFirst | googlemaps/convert.py:170-172 | the text before the "\|" is the south-west corner, and the text after it is the north-east corner |
| Convert.LatlngHasNoPipe | googlemaps/convert.py:43-47 | a formatted coordinate never contains "\|", so the pipe-joined lists can be split back |
| Convert.TruthyLatlng | googlemaps/places.py:267-268 | the `if location: latlng(location)` pattern: nothing for a falsy value, otherwise the conversion or its error |
| Convert.TruthyJoinList | googlemaps/geocoding.py:107-111 | the `if x: join_list(sep, x)` pattern: nothing for a falsy value, otherwise the join or its error |
| Convert.TruthyComponents | googlemaps/geocoding.py:63-64 | the `if components: convert.components(...)` pattern: nothing for a falsy value; a string passes through |
| Convert.TruthyBounds | googlemaps/geocoding.py:66-67 | the `if bounds: convert.bounds(...)` pattern: nothing for a falsy value; a string passes through |
| Convert.EachOf | googlemaps/directions.py:72-73 | a list comprehension of conversions succeeds exactly when every item converts, in order; otherwise it raises the first item's error |
| Convert.TruncateMicros | googlemaps/convert.py:82-99 | `int(x)` of a float rounds toward zero, for negative values too |
| Urlencode.Utf8Char | googlemaps/client.py:497-514 | a character encodes to 1-4 bytes; it is one byte, equal to the code point, exactly when it is ASCII |
| Urlencode.QuotePlus | googlemaps/client.py:489 | the quoted text is well formed (every "%" starts a two-hex-digit escape) and holds no "&" or "=", so a query splits back into its pieces |
| Urlencode.UrlencodePairs | googlemaps/client.py:489 | the query is well formed: every "%" starts a two-hex-digit escape, the precondition of `unquote_unreserved` |
| Urlencode.DecodeQuoteBytes | googlemaps/client.py:489 | decoding the `quote_plus` text gives back exactly the original bytes |
| Urlencode.UnquotePiece | googlemaps/client.py:489 | `unquote_unreserved` turns one Python 2 style "k=v" piece into its Python 3 style quoting |
| Urlencode.UnquoteQuery | googlemaps/client.py:489 | `unquote_unreserved` of the Python 2 style query (which escapes "~") equals the Python 3 style query |
| Urlencode.UrlencodeParse | googlemaps/client.py:469-489 | splitting an encoded query on "&" and "=" and decoding each half gives back the UTF-8 of each key and value, in order |
| Urlencode.ExpandOne | googlemaps/client.py:480-485 | a list value becomes one pair per element and a scalar value becomes one pair, each normalized |
| Urlencode.ExpandAppend | googlemaps/client.py:479-485 | expanding a concatenation of parameter lists is the concatenation of the expansions |
| Urlencode.ExpandScalars | googlemaps/client.py:479-485 | parameters without list values expand to themselves, keys and order kept |
| Urlencode.Normalize | googlemaps/client.py:497-514 | a string value is encoded as itself |
| Urlencode.ExtendPairs | googlemaps/client.py:479-485 | the expansion loop produces exactly the expanded list |
| Urlencode.UrlencodeParams | googlemaps/client.py:469-489 | the method's query equals the encoding of the expanded pairs, and the query is well formed |
| Request.DefaultCall | googlemaps/client.py:214-216 | a call with `_request`'s defaults: the client's base URL, client IDs accepted, the body classifier, no JSON body, no streaming |
| Request.Json | googlemaps/client.py:334 | the JSON of a response, or a decode error when its body is not JSON |
| Request.Finish | googlemaps/geocoding.py:75 | what an endpoint does with the body: returns it whole; `.get(key, default)` returns the value or the default; `[key]` returns the value or raises KeyError |
| Request.Clock.constructor | googlemaps/client.py:260-261 | the clock starts at the given time |
| Request.PyDict.constructor | googlemaps/common.py:101 | a mutable dict of parameters with the given entries |
| ClientBody.GetBody | googlemaps/client.py:330-345 | non-200 is HTTPError; a non-JSON body is a decode error; success means a dict whose status is OK or ZERO_RESULTS; the only retriable error is OVER_QUERY_LIMIT |
| ClientBody.GetBodyClassifies | googlemaps/client.py:336-345 | the four outcomes of a status-200 object: a missing status raises KeyError; OK or ZERO_RESULTS return the body; OVER_QUERY_LIMIT is a quota error; any other status is ApiError with error_message or None |
| ClientBody.GetBodyNotObject | googlemaps/client.py:334-336 | a JSON body that is not an object fails, with an error that is neither retriable nor an API error |
| ClientBody.Extract | googlemaps/client.py:311-317 | the raw response is returned for streamed calls; the default extractor agrees with `_get_body`; an extractor never raises Timeout |
| ClientConfig.ChannelMatchAsWritten | googlemaps/client.py:137 | what `re.match("^[a-zA-Z0-9._-]*$", channel)` accepts: a channel of allowed characters, optionally followed by one final newline |
| ClientConfig.ChannelNewlineAccepted | googlemaps/client.py:137 | the pattern as written accepts "abc\n", which the intended character check refuses |
| ClientConfig.ChannelChecksDiffer | googlemaps/client.py:136-141 | whatever the intended check accepts, the pattern accepts too; the pattern accepts more only for a channel ending in a newline |
| ClientConfig.GetExperience | googlemaps/client.py:194-202 | the experience id is the header's value when it is present, and None otherwise |
| ClientConfig.ClearExperience | googlemaps/client.py:204-212 | afterwards there is no experience id, and every other header is kept as it was |
| ClientConfig.SetExperienceAsWritten | googlemaps/client.py:179-192 | as written: no arguments or a leading None clear the id; a non-string argument raises and leaves no headers at all |
| ClientConfig.SetExperienceLosesHeaders | googlemaps/client.py:186-192 | as written, `set_experience_id("exp1", 2)` raises TypeError after the headers have been popped, so User-Agent is lost |
| ClientConfig.SetExperience | googlemaps/client.py:179-192 | no arguments or a leading None clear the id; strings are joined with ","; a non-string raises TypeError and leaves the headers unchanged; it agrees with the code when nothing raises |
| ClientConfig.SetExperienceKeepsOthers | googlemaps/client.py:186-192 | setting, clearing or failing to set the id leaves every other header unchanged |
| ClientConfig.ExperienceRoundTrip | googlemaps/client.py:179-202 | after `set_experience_id(a, b)`, `get_experience_id()` returns "a,b"; with no arguments or None it returns None |
| ClientConfig.InitialHeaders | googlemaps/client.py:164-176 | the caller's headers are kept, User-Agent is "GoogleGeoApiClientPython/" followed by the version, and the experience id is the one given |
| ClientConfig.Configure | googlemaps/client.py:129-176 | the errors come in the code's order (no credentials, a key not starting with "AIza", a bad channel, a mixed timeout); on success the settings are kept, timeout is (connect, read) when both are given, and the headers are set |
| ClientAuth.Query | googlemaps/client.py:469-489 | the query of any parameter list is well formed: every "%" starts a two-hex-digit escape |
| ClientAuth.Merge | googlemaps/client.py:362-366 | a dict is merged over the extra params and strictly sorted by key, one entry per key; a list comes unchanged after the sorted extra params |
| ClientAuth.DictParamsWin | googlemaps/client.py:364 | a key in both the params and the extra params takes the value from the params |
| ClientAuth.AuthUrl | googlemaps/client.py:347-382 | signs when the endpoint accepts a client ID and both are set; otherwise uses the key; fails with the "Must provide API key" ValueError exactly when neither applies |
| ClientAuth.SignatureLast | googlemaps/client.py:368-375 | the signed URL ends in "&signature=" and the signer's output over exactly the path, "?" and the query before it |
| ClientAuth.EnterprisePairs | googlemaps/client.py:369-371 | the enterprise pairs are the merged params, then channel (if set), then client, in that order |
| ClientAuth.KeyPairs | googlemaps/client.py:377-379 | the key pairs are the merged params followed by ("key", key) |
| ClientAuth.LastPieceDecodes | googlemaps/client.py:369-379 | the last "&" piece of the query decodes to the last pair |
| ClientAuth.CredentialLast | googlemaps/client.py:368-379 | in enterprise mode the query's last piece is client=id; in key mode it is key=key |
| Retry.Backoff | googlemaps/client.py:267-274 | the pause before retry k is 0.5 × 1.5^(k-1) × jitter, at least 0.25 s |
| Retry.BackoffGrows | googlemaps/client.py:271 | each retry's pause is 1.5 times the previous one, for the same jitter |
| Retry.FirstBackoff | googlemaps/client.py:271-274 | the first retry waits between 0.25 and 0.75 seconds |
| Retry.Record | googlemaps/client.py:316 | the sent-times deque of length queries_per_second: append the time, dropping the oldest when full; never longer than its bound |
| Retry.RatePause | googlemaps/client.py:306-309 | the pause lasts until exactly one second after the oldest recorded send |
| Retry.BudgetShrinks | googlemaps/client.py:263-274 | every retry after the first spends at least 0.25 s of the deadline, so the retries end |
| Retry.Pauses | googlemaps/client.py:267-274 | the backoff pauses of a run, in order |
| Retry.Requests | googlemaps/client.py:289-291 | the number of requests of a run |
| Retry.CountsAppend | googlemaps/client.py:299-325 | the pauses and requests of two runs one after the other are the pauses and requests of each, concatenated and added |
| Retry.WaitsAppend | googlemaps/client.py:306-309 | rate pauses happen only with a full window, last more than zero and at most one second; this holds across concatenation |
| Retry.Opening | googlemaps/client.py:267-291 | one pass opens with the backoff pause (on retries only) and then one request |
| Retry.Pause | googlemaps/client.py:306-309 | the rate pause adds no request and no backoff, and waits only when the window is full |
| Retry.Arrival | googlemaps/client.py:267-291 | the response arrives no earlier than the pass began, plus 0.25 s on a retry |
| Retry.Answer | googlemaps/client.py:297-325 | a 500/503/504 status goes round again at once; any other status goes round again exactly when the extractor raises a retriable error and quota retries are not off; a finished call returns what the extractor gave, and only a success records the send time |
| Retry.Once | googlemaps/client.py:260-325 | one pass: Timeout with no request once past the deadline; otherwise the opening, then the answer |
| Retry.Attempt | googlemaps/client.py:214-325 | the whole `_request` recursion: the clock never goes back; the window changes only on success; a Timeout (from a transport and extractors that do not raise it) means the deadline passed |
| Retry.Retried | googlemaps/client.py:297-325 | a pass that retries continues with the next retry number from its end time, and leaves less of the deadline when it backed off |
| Retry.OnceWaits | googlemaps/client.py:306-309 | every rate pause of one pass happens with a full window |
| Retry.WindowBounded | googlemaps/client.py:306-316 | the sent-times window never grows beyond queries_per_second; success appends the arrival time, dropping the oldest when full |
| Retry.ZeroCeiling | googlemaps/client.py:306 | with a ceiling of zero the window stays empty and no rate pause ever happens |
| Retry.OnceCounts | googlemaps/client.py:263-291 | a pass before the deadline sends one request, and pauses with the backoff only on a retry; past the deadline it sends nothing |
| Retry.Schedule | googlemaps/client.py:267-274 | the pauses of retries k, k+1, …, with their jitters |
| Retry.ScheduleAt | googlemaps/client.py:267-274 | the i-th pause of the schedule from retry k is the backoff of retry k+i |
| Retry.BackoffSchedule | googlemaps/client.py:214-325 | in any run, the pauses are exactly the schedule from retry 1, and there is one more request than pauses |
| Retry.DeadlineStrict | googlemaps/client.py:263-265 | a run raises Timeout with no request exactly when it starts past the deadline |
| Retry.ServerErrorRetried | googlemaps/client.py:297-301 | on any attempt before the deadline, a 500/503/504 answer leads to another pass after just the backoff and the request, with no rate pause and no change to the window |
| Retry.RetriableErrorRetried | googlemaps/client.py:318-325 | on any attempt before the deadline, a retriable extractor error is retried after the rate pause, with the window unchanged |
| Retry.QuotaFatal | googlemaps/client.py:319-320 | with retry_over_query_limit off, a quota error on any attempt is raised after that attempt's single request, and the window is unchanged |
| Retry.TransportNotRetried | googlemaps/client.py:289-295 | a transport failure on any attempt before the deadline is raised as TransportError after that attempt's one request, with the window unchanged |
| Retry.SuccessRecorded | googlemaps/client.py:311-317 | a successful extraction on any attempt returns the result after that attempt's one request and records the arrival time |
| MapsClient.CallUrl | googlemaps/client.py:276 | the URL of a call is the auth URL of its path and params, and it fails exactly as the auth URL does |
| MapsClient.Client.constructor | googlemaps/client.py:52-177 | the client holds the configured credentials, settings, timeout, base URL and headers, with an empty send window |
| MapsClient.Client.GetExperienceId | googlemaps/client.py:194-202 | returns the experience id header |
| MapsClient.Client.ClearExperienceId | googlemaps/client.py:204-212 | removes the experience id header and keeps the others |
| MapsClient.Client.SetExperienceId | googlemaps/client.py:179-192 | updates the headers and reports the error as the corrected set_experience_id does |
| MapsClient.Client.MergeParams | googlemaps/client.py:362-366 | the parameter list that signing starts from is the merge of the params with the extra params |
| MapsClient.Client.SignedUrl | googlemaps/client.py:368-375 | the signed URL is the path, "?" and the query, then "&signature=" and the signer's output over that text |
| MapsClient.Client.KeyUrl | googlemaps/client.py:377-379 | the keyed URL is the path, "?" and the query of the params followed by key |
| MapsClient.Client.GenerateAuthUrl | googlemaps/client.py:347-382 | agrees with ClientAuth.AuthUrl for the client's credentials |
| MapsClient.Client.RecordSend | googlemaps/client.py:316 | the sent-times window becomes Retry.Record of the old window |
| MapsClient.Client.Conclude | googlemaps/client.py:297-325 | the method's result, clock and window are those of Retry.Answer |
| MapsClient.Client.Pass | googlemaps/client.py:260-325 | the method's result, clock and window are those of Retry.Once |
| MapsClient.Client.Execute | googlemaps/client.py:214-325 | the recursive retry method's result, events, clock and window are those of Retry.Attempt |
| MapsClient.Client.Request | googlemaps/client.py:214-325 | `_request` from a first call: the result, events, clock and window of Retry.Attempt on the call's URL |
| MapsClient.Client.Call | googlemaps/client.py:214-325 | an endpoint call: `_request` with its extractor, then `.get(key, default)` or `[key]` on the body as the endpoint does |
| Common.NewContext | googlemaps/common.py:22-68 | the errors come in the code's order (no credentials, a bad key prefix, a mixed timeout); the timeout is the single value or the (connect, read) pair |
| Common.Urlencode2 | googlemaps/common.py:81-86 | the Python 2 `urllib.urlencode` query is well formed, and empty for no pairs |
| Common.Stamped | googlemaps/common.py:79-86 | the params dict after `_auth_url`: "key" set to the key when there is one, else "client" set to the client ID when ID and secret are both set, else unchanged; no other entry changes and no other key is added |
| Common.AuthUrl | googlemaps/common.py:70-88 | a URL is produced exactly when there is a key or both client ID and secret |
| Common.AuthUrlInPlace | googlemaps/common.py:70-88 | the caller's dict gains key= or client= as the code's `params[...] = ...` does, and the URL is AuthUrl's |
| Common.KeyWins | googlemaps/common.py:79-81 | with a key, the key branch is taken even when enterprise credentials are also set |
| Common.AuthUrlTwice | googlemaps/common.py:70-88 | stamping the dict twice is stamping it once, so a retry builds the same URL from the mutated dict |
| Common.NeverFallsThrough | googlemaps/common.py:53-88 | a context that was built successfully always produces a URL |
| Common.Classify | googlemaps/common.py:128-145 | 500/503/504 and OVER_QUERY_LIMIT are retried; a 4xx/5xx status raises HTTPError; OK or ZERO_RESULTS return the body; other statuses raise "API error" |
| Common.RedirectReadAsBody | googlemaps/common.py:132-138 | a status below 400 with an OK body is returned as success, even when it is not 200 |
| Common.RemainingShrinks | googlemaps/common.py:115-130 | each request spends at least one tick of the deadline, so the retries end |
| Common.GetPass | googlemaps/common.py:115-133 | one pass: the dict is stamped, at most one request is sent (only with credentials), and the clock advances by its latency |
| Common.GetRun | googlemaps/common.py:101-145 | the `_get` recursion: the clock never goes back; "Timed out while retrying." with no request exactly when it starts past the deadline |
| Common.GetSucceeds | googlemaps/common.py:135-138 | a successful result came from at least one request, and its body's status is OK or ZERO_RESULTS |
| Common.SameUrlEveryTime | googlemaps/common.py:122-130 | every retry requests the same URL, and the dict ends up stamped |
| Common.NoBackoff | googlemaps/common.py:118-130 | no pause between retries: the clock advances by the requests' latencies only |
| Common.Exchange | googlemaps/common.py:115-133 | the method's verdict, URLs, dict and clock are those of GetPass |
| Common.Get | googlemaps/common.py:101-145 | the recursive method's result, URLs, dict and clock are those of GetRun |
| Maps.InSet | googlemaps/maps.py:119-127 | membership of the format or map type in its allowed set; an unhashable value raises TypeError |
| Maps.MarkerList | googlemaps/maps.py:135-136 | each marker is converted, in order, and a non-iterable value fails |
| Maps.DownloadParamsHead | googlemaps/maps.py:101-127 | size is always sent; center, format and maptype when truthy; zoom and scale whenever not None, so 0 is sent too |
| Maps.DownloadParamsTail | googlemaps/maps.py:129-145 | language and region when truthy; markers, path, visible and style converted when given; no other key is sent |
| Maps.DownloadCheck | googlemaps/maps.py:103-139 | the checks fail in order: neither center nor zoom nor markers; the center conversion; the format; the map type; the markers; the style |
| Maps.Download | googlemaps/maps.py:31-153 | a raw, streamed call to /maps/api/staticmap with the checked parameters, or the first failing check's error |
| Maps.CenterOrZoom | googlemaps/maps.py:103-108 | a truthy center or any zoom other than None (0 included) passes the check; with neither it fails |
| Maps.MarkersInOrder | googlemaps/maps.py:135-136 | a list of markers becomes the list of converted markers, same length and order |
| Places.Xor | googlemaps/places.py:35-56 | `^` of sets: the elements in exactly one of the two sets |
| Places.XorOfDisjoint | googlemaps/places.py:35-56 | chained `^` of pairwise disjoint sets is their union |
| Places.FindFieldGroupsDisjoint | googlemaps/places.py:23-37 | the find-place field groups are disjoint, so the allowed set is all of them |
| Places.DetailFieldGroupsDisjoint | googlemaps/places.py:39-56 | the place-details field groups are disjoint, so the allowed set is all of them |
| Places.InvalidFields | googlemaps/places.py:99-104 | the invalid fields are exactly those outside the allowed set; an unhashable field raises TypeError |
| Places.FieldsText | googlemaps/places.py:99-107 | a falsy fields sends nothing; rejected fields that are all strings raise ValueError, and a rejected field that is not a string raises TypeError when the message joins it; otherwise the fields are sent joined with "," |
| Places.NonStringFieldTypeError | googlemaps/places.py:100-106 | `fields=[5]` or `[None]` raises TypeError, not ValueError |
| Places.UnknownFieldValueError | googlemaps/places.py:100-106 | one unknown field name raises the ValueError about the field set |
| Places.FieldsJoined | googlemaps/places.py:99-107 | a list of allowed fields is sent as their ","-join |
| Places.BiasAccepted | googlemaps/places.py:109-114 | the bias is accepted when its text before ":" is a known kind; a non-string has no `split` |
| Places.BiasByPrefix | googlemaps/places.py:109-114 | only the prefix before the first ":" decides |
| Places.FindPlaceParams | googlemaps/places.py:94-116 | input and inputtype are always sent; fields, locationbias and language only when given |
| Places.FindPlaceCheck | googlemaps/places.py:94-114 | the checks fail in order: the input type, the fields (ValueError, or TypeError for a rejected field that is not a string), the location bias |
| Places.FindPlace | googlemaps/places.py:59-118 | a default call to the find-place path with the checked parameters, or the first failing check's error, the TypeError for a rejected field that is not a string included |
| Places.SearchParamsHead | googlemaps/places.py:263-274 | query, location, radius, keyword, language and the price bounds are sent as `_places` sends them |
| Places.SearchParamsTail | googlemaps/places.py:275-286 | name, opennow, rankby, type, region and pagetoken are sent as `_places` sends them, and no other key is |
| Places.Search | googlemaps/places.py:255-289 | a default call to the search path for the url part, or the location or name conversion error |
| Places.SearchParamsOf | googlemaps/places.py:263-286 | the parameter-building statements give the search slots |
| Places.TextSearch | googlemaps/places.py:121-175 | a text search sends no keyword, name or rank_by, and fails only on the location |
| Places.TextSearchKeys | googlemaps/places.py:121-175 | a text search always sends minprice and maxprice, and never keyword, name or rankby |
| Places.NearbyRejects | googlemaps/places.py:239-247 | a request is refused when it has neither location nor page token; by distance it needs a keyword, name or type, and no radius |
| Places.NearbySearch | googlemaps/places.py:178-252 | a nearby search is refused for the rejected argument sets, and otherwise is the search call without query or region |
| Places.NearbyByDistance | googlemaps/places.py:239-252 | an accepted nearby search sends no query, sends rankby only when given, and sends no radius when ranking by distance |
| Places.PlaceParams | googlemaps/places.py:315-331 | placeid is always sent; fields, language and sessiontoken only when given |
| Places.Place | googlemaps/places.py:292-333 | a default call to the details path, or the fields error (ValueError, or TypeError for a rejected field that is not a string) |
| Places.Photo | googlemaps/places.py:362-378 | without max_width or max_height it is a ValueError; otherwise a raw streamed call with those parameters |
| Places.CountryOnly | googlemaps/places.py:486-489 | true exactly for a one-entry dict whose key is "country" |
| Places.AutocompleteParams | googlemaps/places.py:470-492 | the autocomplete parameters are sent as the code sends them, and no other key is |
| Places.CountryComponents | googlemaps/places.py:486-490 | falsy components send nothing; anything but a lone country raises ValueError; a country is sent as "country:value" |
| Places.Autocomplete | googlemaps/places.py:464-494 | a call to the autocomplete path whose result is `.get("predictions", [])`, or the location or components error |
| Places.PlacesAutocomplete | googlemaps/places.py:381-431 | the autocomplete path, with predictions taken from the body |
| Places.AutocompleteQuery | googlemaps/places.py:434-461 | the query-autocomplete path, with no components or session token |
| Geocoding.GeocodeParams | googlemaps/geocoding.py:55-73 | each argument is sent only when truthy, and components and bounds are sent converted |
| Geocoding.Geocode | googlemaps/geocoding.py:22-75 | a call whose result is `.get("results", [])`, or the components or bounds conversion error, in that order |
| Geocoding.GeocodeNothing | googlemaps/geocoding.py:55-73 | with only falsy arguments no parameter is sent |
| Geocoding.ReverseTarget | googlemaps/geocoding.py:102-105 | a string without "," is a place id; anything else is converted with latlng |
| Geocoding.ReverseParams | googlemaps/geocoding.py:102-114 | exactly one of place_id and latlng is sent, along with the converted types and the language |
| Geocoding.ReverseGeocode | googlemaps/geocoding.py:78-116 | a call whose result is `.get("results", [])`, or the first conversion error |
| Geocoding.ResultTypesJoined | googlemaps/geocoding.py:107-111 | a list of result types is sent as their "\|"-join |
| Directions.ConvertWaypoint | googlemaps/directions.py:99-103 | a string waypoint passes through, and any other value is converted with latlng |
| Directions.TruthyWaypoints | googlemaps/directions.py:71-74 | falsy waypoints send nothing; a single waypoint is converted; a list is converted item by item and joined with "\|" |
| Directions.DirectionsCheck | googlemaps/directions.py:61-80 | the checks fail in order: origin, destination, an unknown travel mode, the waypoints, avoid |
| Directions.DirectionsParamsHead | googlemaps/directions.py:61-80 | origin, destination, mode, waypoints, alternatives="true" and avoid are sent as the code sends them |
| Directions.DirectionsParamsTail | googlemaps/directions.py:82-95 | language, units, region and the converted times are sent as the code sends them, and no other key is |
| Directions.Directions | googlemaps/directions.py:7-97 | a `_get` of the directions path taking `["routes"]`, or the first failing check's error |
| Directions.UnknownModeRefused | googlemaps/directions.py:66-69 | an unknown mode raises "Invalid travel mode."; the four modes are accepted, and the check is case-sensitive |
| Directions.WaypointsSplit | googlemaps/directions.py:71-74 | the waypoints text splits on "\|" back into the converted waypoints, in order |
| DistanceMatrix.PathElement | googlemaps/distance_matrix.py:77-86 | a string element passes through, and any other element is converted with latlng |
| DistanceMatrix.PathItems | googlemaps/distance_matrix.py:81-84 | a lone tuple or a non-list is one location; a list is its items |
| DistanceMatrix.ConvertPath | googlemaps/distance_matrix.py:77-86 | the path is accepted exactly when every element converts |
| DistanceMatrix.SingleTupleAsList | googlemaps/distance_matrix.py:81-84 | a lone (lat, lng) tuple is treated like a list holding it |
| DistanceMatrix.PathSplit | googlemaps/distance_matrix.py:77-86 | the path text splits on "\|" back into the converted locations, in order |
| DistanceMatrix.MatrixParams | googlemaps/distance_matrix.py:50-72 | origins and destinations are always sent; the others only when truthy, with the time converted |
| DistanceMatrix.DistanceMatrix | googlemaps/distance_matrix.py:8-74 | a `_get` of the matrix path with the converted origins and destinations, or their conversion error, origins first |
| Elevation.Locations | googlemaps/elevation.py:5-28 | a tuple is one location; a list is converted item by item |
| Elevation.Elevation | googlemaps/elevation.py:5-28 | a `_get` of the elevation path with the locations, taking `["results"]`, or the conversion error |
| Elevation.LocationsAsPath | googlemaps/elevation.py:5-28 | the locations are converted the same way as a distance-matrix path |
| Elevation.AlongPath | googlemaps/elevation.py:30-60 | a string is an encoded polyline and is sent as "enc:" followed by it; a list is converted item by item |
| Elevation.ElevationAlongPath | googlemaps/elevation.py:30-60 | a `_get` with exactly path and samples, taking `["results"]` |
| Elevation.EncodedPathRecovered | googlemaps/elevation.py:49-50 | the polyline can be read back from the sent path after the "enc:" prefix |
| Elevation.LoneTupleRefused | googlemaps/elevation.py:49-53 | a lone (lat, lng) tuple is refused as a path, though it is accepted as locations |
| Timezone.Timezone | googlemaps/timezone.py:9-42 | a `_get` with location, timestamp and (when truthy) language, or the location conversion error |
| Timezone.TimestampReadBack | googlemaps/timezone.py:32-36 | the timestamp sent reads back as the integer given, or as a float truncated toward zero |
| AddressValidation.Extract | googlemaps/addressvalidation.py:25-31 | the body is the response's JSON whatever its status, or a decode error |
| AddressValidation.StatusIgnored | googlemaps/addressvalidation.py:25-31 | the HTTP status does not affect the result |
| AddressValidation.UspsGuardAsWritten | googlemaps/addressvalidation.py:74 | the guard as written: the value is not False, or it is not None |
| AddressValidation.UspsGuard | googlemaps/addressvalidation.py:74 | the guard as evidently intended: the value is neither False nor None |
| AddressValidation.UspsGuardAlwaysHolds | googlemaps/addressvalidation.py:74 | the guard as written holds for every value, None and False included |
| AddressValidation.UspsGuardOmitsDefaults | googlemaps/addressvalidation.py:74 | the corrected guard omits exactly None and False, and differs from the written one on None |
| AddressValidation.AddressEntries | googlemaps/addressvalidation.py:62-72 | the address dict holds addressLines first, then regionCode and locality only when not None |
| AddressValidation.ValidateAddress | googlemaps/addressvalidation.py:47-80 | a POST of the address dict to /v1:validateAddress at the validation host, with enableUspsCass only under the corrected guard |
| AddressValidation.ValidateAddressAsWritten | googlemaps/addressvalidation.py:47-80 | the same POST as the code builds it: the body always holds enableUspsCass, null on a default call |
| Geolocation.Reason | googlemaps/geolocation.py:33-36 | `body["error"]["errors"][0]["reason"]`, with a missing key read as None; any other lookup failure propagates |
| Geolocation.Extract | googlemaps/geolocation.py:25-42 | 200 and 404 return the body; 403 is a quota error carrying the reason; any other status is ApiError carrying the reason |
| Geolocation.ForbiddenIsQuota | googlemaps/geolocation.py:38-42 | an error body without detail gives an API error with status code and None, retriable exactly for 403 |
| Geolocation.GeolocateBody | googlemaps/geolocation.py:88-102 | each argument that is not None is sent under its JSON name, and nothing else is |
| Geolocation.Geolocate | googlemaps/geolocation.py:45-107 | a POST to /geolocation/v1/geolocate at the geolocation host, with that body and the geolocation extractor |
| Roads.EnvelopeError | googlemaps/roads.py:131-139 | an error envelope always gives an error |
| Roads.Extract | googlemaps/roads.py:119-144 | a non-JSON body is HTTPError (not 200) or "malformed response" (200); without an envelope, success requires 200 |
| Roads.EnvelopeWins | googlemaps/roads.py:131-139 | an error envelope decides the result whatever the status: RESOURCE_EXHAUSTED is a quota error and anything else is ApiError |
| Roads.EnvelopeRetriable | googlemaps/roads.py:131-139 | an envelope error is retriable exactly for RESOURCE_EXHAUSTED |
| Roads.SnapToRoads | googlemaps/roads.py:27-56 | a call to /v1/snapToRoads at the roads host, with client IDs refused, the path, and interpolate only when true |
| Roads.NearestRoads | googlemaps/roads.py:58-78 | a call to /v1/nearestRoads with the points only, taking `.get("snappedPoints", [])` |
| Roads.SpeedLimitParams | googlemaps/roads.py:80-92 | a list of place ids gives one placeId pair per id, in order; a single id gives one pair |
| Roads.SpeedLimits | googlemaps/roads.py:80-95 | a call to /v1/speedLimits with the repeated placeId pairs, taking `.get("speedLimits", [])` |
| Roads.SnappedSpeedLimits | googlemaps/roads.py:98-116 | a call to /v1/speedLimits with the path, returning the whole body |

## Left out

- The HTTP transport is not modelled: the `requests` session, its keyword arguments and certificate verification. A transport is a parameter that answers each request, and `http.py` and `types.py` are not part of this model.
- The check of the installed `requests` version (`client.py:150-158`) is not modelled. It only decides whether the timeout is passed as a pair, which the model keeps as a value.
- The HMAC-SHA1 signing (`sign_hmac`, `_hmac_sign`) and its base64 coding are a function parameter. So a malformed secret is not modelled.
- `convert.size`, `convert.markers`, `convert.path`, `convert.location_list` and `convert.is_string` are function parameters or simple type tests. Their bodies are not in this model.
- `make_api_method` and `_extra_params` are not modelled; the extra parameters are passed to the URL builder.
- Floats are six-decimal fixed point. Larger precision and exponent notation of `"%f"` and `str(float)` are not modelled.
- The distinction between Python 2 `unicode` and `str` is not modelled, for example in `elevation_along_path`'s `type(path) is str`.
- `convert.time` of a `datetime` is not modelled: it uses the local clock. The default time-zone timestamp `datetime.now()` is also left out, so the caller passes the timestamp.
- Python 2 dict iteration order is left open: `common._get` takes the encoder as a parameter, and parameter dicts are maps.
- Common.GetRun: termination is proved only when every request takes at least a fixed tick, since `_get` has no backoff. The model does not cover a transport answering in zero time.
- The Context endpoints return the call they would make (a `ContextCall`); `Common.Get` runs such a call separately.
- Places.FieldsText: the ValueError's message is only the fixed prefix of the text, not the listing of the allowed fields.
- Common.Classify: "API error: <status>" carries the status value rather than its rendered text. The `repr` escapes of error messages are not modelled.
- Response bodies are JSON values; `iter_content` of a streamed response is not modelled, and the raw response is returned.
- `context.py`'s `Context` is not modelled: it only stores `key` and `timeout` and checks neither (`context.py:6-16`). It is a different holder from `common.Context`, which `Common.NewContext` models.
- Common.GetRun: each retry of `common._get` is a recursive call with no pause, so CPython's RecursionError after about a thousand retries is not modelled; the model retries until the deadline.

## Findings

| source | as written | input that shows it | evidently intended | confidence | as-written member | corrected member |
|---|---|---|---|---|---|---|
| googlemaps/client.py:137 | `re.match("^[a-zA-Z0-9._-]*$", channel)` — `$` also matches before a final newline | channel "abc\n" is accepted | only letters, digits, ".", "_" and "-" are accepted | not executed | ClientConfig.ChannelNewlineAccepted | ClientConfig.Configure |
| googlemaps/addressvalidation.py:74 | `enableUspsCass is not False or enableUspsCass is not None` is always true | enableUspsCass=None sends `"enableUspsCass": null` | omit the field when it is None or False | not executed | AddressValidation.ValidateAddressAsWritten | AddressValidation.ValidateAddress |
| googlemaps/client.py:190-192 | the headers are popped before `",".join` can raise | `set_experience_id("exp1", 2)` raises TypeError and the client loses User-Agent | a failing call leaves the headers as they were | not executed | ClientConfig.SetExperienceLosesHeaders | ClientConfig.SetExperience |
