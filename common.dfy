/** The older executor that the Python-2 endpoint modules call
    (googlemaps/common.py): a Context holding the credentials and timeouts,
    the signed URL built on the caller's own params dict, and _get, which
    retries without any backoff. */
module Common {
  import opened Maybe
  import opened Values
  import opened Exceptions
  import opened Builtins
  import opened Request
  import opened Text
  import opened Urlencode

  const UserAgent := "GoogleGeoApiClientPython/0.1"
  const Host := "https://maps.googleapis.com"
  const MissingCredentialsMessage := "Must provide API key or enterprise credentials with context object."
  const InvalidKeyMessage := "Invalid API key provided."
  const TimeoutMessage := "Specify either timeout, or connect_timeout and read_timeout"
  const RetryTimeoutMessage := "Timed out while retrying."
  /** What adding None to a string raises under Python 2. */
  const NoneUrlMessage := "cannot concatenate 'str' and 'NoneType' objects"

  /** A Context once built; nothing changes it afterwards. An empty string
      stands for a credential that is None. */
  datatype Context = Context(key: string, clientId: string, clientSecret: string, timeout: Value, retryTimeout: real)

  /** A key, or a complete client ID and secret pair. */
  predicate HasCredentials(key: string, clientId: string, clientSecret: string) {
    key != "" || (clientSecret != "" && clientId != "")
  }

  /** Context.__init__: the credential, key and timeout checks in order. */
  function NewContext(key: string, clientId: string, clientSecret: string, timeout: Value,
                      connectTimeout: Value, readTimeout: Value, retryTimeout: real): (r: Result<Context>)
    ensures var mixed := Truthy(timeout) && (Truthy(connectTimeout) || Truthy(readTimeout));
      && (!HasCredentials(key, clientId, clientSecret) ==> r == Err(PlainException(MissingCredentialsMessage)))
      && (HasCredentials(key, clientId, clientSecret) && key != "" && !StartsWith(key, "AIza") ==>
            r == Err(PlainException(InvalidKeyMessage)))
      && (HasCredentials(key, clientId, clientSecret) && (key == "" || StartsWith(key, "AIza")) && mixed ==>
            r == Err(ValueError(TimeoutMessage)))
      && (r.Ok? <==> HasCredentials(key, clientId, clientSecret) && (key == "" || StartsWith(key, "AIza")) && !mixed)
    ensures r.Ok? ==>
      && r.value.key == key && r.value.clientId == clientId && r.value.clientSecret == clientSecret
      && r.value.retryTimeout == retryTimeout
      && r.value.timeout == (if Truthy(timeout) then timeout else Tuple([connectTimeout, readTimeout]))
  {
    if key == "" && !(clientSecret != "" && clientId != "") then Err(PlainException(MissingCredentialsMessage))
    else if key != "" && !StartsWith(key, "AIza") then Err(PlainException(InvalidKeyMessage))
    else if Truthy(timeout) && (Truthy(connectTimeout) || Truthy(readTimeout)) then Err(ValueError(TimeoutMessage))
    else Ok(Context(key, clientId, clientSecret, if Truthy(timeout) then timeout else Tuple([connectTimeout, readTimeout]),
      retryTimeout))
  }

  /** urllib.urlencode(params) on a dict under Python 2: the query of its
      items, in the order the dict iterates over them. */
  type Encoder = map<string, Value> -> string

  /** The order in which Python 2 iterates over a dict, which follows the key
      hashes; the same dict always gives the same order. */
  type Items = map<string, Value> -> seq<(string, Value)>

  /** urllib.urlencode under Python 2, without doseq: each key and str() of
      each value is quote_plus-ed, the pieces joined by '&'. */
  function Urlencode2(pairs: seq<(string, Value)>): (q: string)
    ensures Wellformed(q)
    ensures pairs == [] ==> q == ""
  {
    UrlencodePairs(seq(|pairs|, i requires 0 <= i < |pairs| => (pairs[i].0, Render(pairs[i].1))), true)
  }

  /** The encoder of a dict whose iteration order is `items`. */
  function Py2Encoder(items: Items): Encoder
  {
    d => Urlencode2(items(d))
  }

  /** The caller's params dict after Context._auth_url: the key is written
      into it when there is one, the client ID when there is none. */
  function Stamped(ctx: Context, d: map<string, Value>): (r: map<string, Value>)
    ensures ctx.key != "" ==> "key" in r && r["key"] == Str(ctx.key)
    ensures ctx.key == "" && ctx.clientId != "" && ctx.clientSecret != "" ==>
      "client" in r && r["client"] == Str(ctx.clientId)
    ensures !HasCredentials(ctx.key, ctx.clientId, ctx.clientSecret) ==> r == d
    ensures d.Keys <= r.Keys <= d.Keys + {"key", "client"}
    ensures forall k :: k in d && k != "key" && k != "client" ==> r[k] == d[k]
  {
    if ctx.key != "" then d["key" := Str(ctx.key)]
    else if ctx.clientId != "" && ctx.clientSecret != "" then d["client" := Str(ctx.clientId)]
    else d
  }

  /** Context._auth_url on the dict `d`: None when neither branch applies. */
  function AuthUrl(ctx: Context, path: string, d: map<string, Value>, encode: Encoder,
                   sign: (string, string) -> string): (r: Option<string>)
    ensures r.Some? <==> HasCredentials(ctx.key, ctx.clientId, ctx.clientSecret)
  {
    var query := encode(Stamped(ctx, d));
    if ctx.key != "" then Some(path + "?" + query)
    else if ctx.clientId != "" && ctx.clientSecret != "" then
      var signed := path + "?" + query;
      Some(signed + "&signature=" + sign(ctx.clientSecret, signed))
    else None
  }

  /** Context._auth_url, writing into the caller's dict. */
  method AuthUrlInPlace(ctx: Context, path: string, params: PyDict, encode: Encoder, sign: (string, string) -> string)
    returns (r: Option<string>)
    modifies params
    ensures params.entries == Stamped(ctx, old(params.entries))
    ensures r == AuthUrl(ctx, path, old(params.entries), encode, sign)
  {
    if ctx.key != "" {
      params.entries := params.entries["key" := Str(ctx.key)];
      return Some(path + "?" + encode(params.entries));
    }
    if ctx.clientId != "" && ctx.clientSecret != "" {
      params.entries := params.entries["client" := Str(ctx.clientId)];
      var signed := path + "?" + encode(params.entries);
      var sig := sign(ctx.clientSecret, signed);
      return Some(signed + "&signature=" + sig);
    }
    return None;
  }

  /** The key wins over a client ID and secret: with a key, the dict gets the
      key and no client ID, and the URL carries no signature. */
  lemma KeyWins(ctx: Context, path: string, d: map<string, Value>, encode: Encoder, sign: (string, string) -> string)
    requires ctx.key != ""
    ensures Stamped(ctx, d) == d["key" := Str(ctx.key)]
    ensures ("client" in Stamped(ctx, d) <==> "client" in d)
    ensures AuthUrl(ctx, path, d, encode, sign) == Some(path + "?" + encode(d["key" := Str(ctx.key)]))
  {
  }

  /** Calling _auth_url again on the dict it has already written into changes
      nothing and gives the same URL. */
  lemma AuthUrlTwice(ctx: Context, path: string, d: map<string, Value>, encode: Encoder, sign: (string, string) -> string)
    ensures Stamped(ctx, Stamped(ctx, d)) == Stamped(ctx, d)
    ensures AuthUrl(ctx, path, Stamped(ctx, d), encode, sign) == AuthUrl(ctx, path, d, encode, sign)
  {
    if ctx.key != "" {
      assert Stamped(ctx, Stamped(ctx, d)) == d["key" := Str(ctx.key)]["key" := Str(ctx.key)];
    } else if ctx.clientId != "" && ctx.clientSecret != "" {
      assert Stamped(ctx, Stamped(ctx, d)) == d["client" := Str(ctx.clientId)]["client" := Str(ctx.clientId)];
    }
  }

  /** A Context that was built always produces a URL: _auth_url never falls
      through to None. */
  lemma NeverFallsThrough(key: string, clientId: string, clientSecret: string, timeout: Value,
                          connectTimeout: Value, readTimeout: Value, retryTimeout: real,
                          path: string, d: map<string, Value>, encode: Encoder, sign: (string, string) -> string)
    requires NewContext(key, clientId, clientSecret, timeout, connectTimeout, readTimeout, retryTimeout).Ok?
    ensures AuthUrl(NewContext(key, clientId, clientSecret, timeout, connectTimeout, readTimeout, retryTimeout).value,
                    path, d, encode, sign).Some?
  {
  }

  /** What _get makes of one response: go round again, or settle. */
  datatype Verdict = Resend | Settle(result: Result<Value>)

  /** The body of _get after the request: 500, 503 and 504 are retried;
      raise_for_status raises on any other 4xx or 5xx; then the body's status
      decides, and OVER_QUERY_LIMIT is retried too. */
  function Classify(resp: Response): (v: Verdict)
    ensures resp.statusCode in {500, 503, 504} ==> v == Resend
    ensures 400 <= resp.statusCode < 600 && resp.statusCode !in {500, 503, 504} ==>
      v == Settle(Err(RequestsHTTPError(resp.statusCode)))
    ensures v == Resend ==>
      (resp.statusCode in {500, 503, 504} ||
       (resp.json.Some? && resp.json.value.Dict? && Lookup(resp.json.value.entries, "status") == Some(Str("OVER_QUERY_LIMIT"))))
    ensures v.Settle? && v.result.Ok? ==>
      && !(400 <= resp.statusCode < 600)
      && resp.json == Some(v.result.value) && v.result.value.Dict?
      && Lookup(v.result.value.entries, "status") in {Some(Str("OK")), Some(Str("ZERO_RESULTS"))}
    ensures (!(400 <= resp.statusCode < 600) && resp.json.Some? && resp.json.value.Dict? &&
             HasKey(resp.json.value.entries, "status")) ==>
      var status := Lookup(resp.json.value.entries, "status").value;
      status !in {Str("OK"), Str("ZERO_RESULTS"), Str("OVER_QUERY_LIMIT")} ==>
        v == Settle(Err(ApiStatusException(status)))
  {
    if resp.statusCode in {500, 503, 504} then Resend
    else if 400 <= resp.statusCode < 600 then Settle(Err(RequestsHTTPError(resp.statusCode)))
    else
      match Json(resp)
      case Err(e) => Settle(Err(e))
      case Ok(body) =>
        match Index(body, Str("status"))
        case Err(e) => Settle(Err(e))
        case Ok(status) =>
          if status == Str("OK") || status == Str("ZERO_RESULTS") then Settle(Ok(body))
          else if status == Str("OVER_QUERY_LIMIT") then Resend
          else Settle(Err(ApiStatusException(status)))
  }

  /** A 200 answer that is not a 4xx or 5xx but not 200 either is read as a
      body all the same: raise_for_status lets 1xx, 2xx and 3xx codes through. */
  lemma RedirectReadAsBody(code: int, es: seq<(string, Value)>)
    requires code < 400 && HasKey(es, "status") && Lookup(es, "status") == Some(Str("OK"))
    ensures Classify(Response(code, Some(Dict(es)))) == Settle(Ok(Dict(es)))
  {
  }

  /** Without backoff the retries end only because every request takes time:
      the scripted transport takes at least `tick` seconds per request. */
  ghost predicate Paced(script: nat -> Reply, tick: real) {
    tick > 0.0 && forall n :: script(n).latency >= tick
  }

  /** How many more requests fit before the deadline, at one per `tick`. */
  function Remaining(first: real, retryTimeout: real, now: real, tick: real): nat
    requires tick > 0.0
  {
    if now - first > retryTimeout then 0 else ((first + retryTimeout - now) / tick).Floor + 1
  }

  lemma RemainingShrinks(first: real, retryTimeout: real, now: real, later: real, tick: real)
    requires tick > 0.0 && now + tick <= later && now - first <= retryTimeout
    ensures Remaining(first, retryTimeout, later, tick) < Remaining(first, retryTimeout, now, tick)
  {
    var x := (first + retryTimeout - now) / tick;
    var y := (first + retryTimeout - later) / tick;
    assert x * tick == first + retryTimeout - now && y * tick == first + retryTimeout - later;
    assert (x - 1.0 - y) * tick == later - now - tick;
    NonNegativeFactor(x - 1.0 - y, tick);
    if later - first <= retryTimeout {
      assert y.Floor as real <= y && x < x.Floor as real + 1.0;
    }
  }

  lemma NonNegativeFactor(a: real, t: real)
    requires t > 0.0 && a * t >= 0.0
    ensures a >= 0.0
  {
  }

  /** One pass of _get before the deadline: the verdict, the URLs it
      requested (none when there was no URL), the caller's dict afterwards
      and the clock. */
  datatype Pass = Pass(verdict: Verdict, urls: seq<string>, params: map<string, Value>, now: real)

  /** The body of _get after its deadline check, for the n-th request. */
  function GetPass(ctx: Context, path: string, d: map<string, Value>, encode: Encoder, sign: (string, string) -> string,
                   script: nat -> Reply, now: real, n: nat): (p: Pass)
    ensures p.params == Stamped(ctx, d)
    ensures |p.urls| <= 1 && p.now == now + (if p.urls == [] then 0.0 else script(n).latency)
    ensures p.verdict.Resend? ==> |p.urls| == 1
    ensures p.urls != [] <==> HasCredentials(ctx.key, ctx.clientId, ctx.clientSecret)
    ensures p.urls != [] ==> p.urls[0] == Host + AuthUrl(ctx, path, d, encode, sign).value
  {
    var stamped := Stamped(ctx, d);
    match AuthUrl(ctx, path, d, encode, sign)
    case None => Pass(Settle(Err(TypeError(NoneUrlMessage))), [], stamped, now)
    case Some(authed) =>
      var url := Host + authed;
      var reply := script(n);
      var later := now + reply.latency;
      match reply.outcome
      case TimedOut => Pass(Settle(Err(RequestsTimeout)), [url], stamped, later)
      case Failed(cause) => Pass(Settle(Err(RequestsFailure(cause))), [url], stamped, later)
      case Answered(resp) => Pass(Classify(resp), [url], stamped, later)
  }

  /** What a run of _get comes to: its result, the URLs it requested, the
      caller's dict afterwards and the clock at the end. */
  datatype Fetch = Fetch(result: Result<Value>, urls: seq<string>, params: map<string, Value>, now: real)

  /** _get from its deadline check on, with the dict `d`, the first request
      made at `first`, the clock at `now` and `n` requests already sent. */
  function GetRun(ctx: Context, path: string, d: map<string, Value>, encode: Encoder, sign: (string, string) -> string,
                  script: nat -> Reply, tick: real, first: real, now: real, n: nat): (f: Fetch)
    requires Paced(script, tick)
    ensures f.now >= now
    ensures now - first > ctx.retryTimeout <==> f == Fetch(Err(PlainException(RetryTimeoutMessage)), [], d, now)
    decreases Remaining(first, ctx.retryTimeout, now, tick)
  {
    if now - first > ctx.retryTimeout then Fetch(Err(PlainException(RetryTimeoutMessage)), [], d, now)
    else
      var p := GetPass(ctx, path, d, encode, sign, script, now, n);
      match p.verdict
      case Settle(r) => Fetch(r, p.urls, p.params, p.now)
      case Resend =>
        RemainingShrinks(first, ctx.retryTimeout, now, p.now, tick);
        var rest := GetRun(ctx, path, p.params, encode, sign, script, tick, first, p.now, n + 1);
        rest.(urls := p.urls + rest.urls)
  }

  /** A body comes back only when the last answer said OK or ZERO_RESULTS. */
  lemma {:induction false} GetSucceeds(ctx: Context, path: string, d: map<string, Value>, encode: Encoder,
                                       sign: (string, string) -> string, script: nat -> Reply, tick: real,
                                       first: real, now: real, n: nat)
    requires Paced(script, tick)
    ensures var f := GetRun(ctx, path, d, encode, sign, script, tick, first, now, n);
      f.result.Ok? ==>
        && |f.urls| >= 1 && f.result.value.Dict?
        && Lookup(f.result.value.entries, "status") in {Some(Str("OK")), Some(Str("ZERO_RESULTS"))}
    decreases Remaining(first, ctx.retryTimeout, now, tick)
  {
    if now - first <= ctx.retryTimeout {
      var p := GetPass(ctx, path, d, encode, sign, script, now, n);
      if p.verdict.Resend? {
        RemainingShrinks(first, ctx.retryTimeout, now, p.now, tick);
        GetSucceeds(ctx, path, p.params, encode, sign, script, tick, first, p.now, n + 1);
      }
    }
  }

  /** Every retry sends the very same URL: the dict already holds what
      _auth_url writes into it, and the first request time is kept. */
  lemma {:induction false} SameUrlEveryTime(ctx: Context, path: string, d: map<string, Value>, encode: Encoder,
                                            sign: (string, string) -> string, script: nat -> Reply, tick: real,
                                            first: real, now: real, n: nat)
    requires Paced(script, tick)
    ensures var f := GetRun(ctx, path, d, encode, sign, script, tick, first, now, n);
      forall i :: 0 <= i < |f.urls| ==> f.urls[i] == Host + AuthUrl(ctx, path, d, encode, sign).value
    ensures var f := GetRun(ctx, path, d, encode, sign, script, tick, first, now, n);
      now - first <= ctx.retryTimeout ==> f.params == Stamped(ctx, d)
    decreases Remaining(first, ctx.retryTimeout, now, tick)
  {
    if now - first <= ctx.retryTimeout {
      var p := GetPass(ctx, path, d, encode, sign, script, now, n);
      if p.verdict.Resend? {
        RemainingShrinks(first, ctx.retryTimeout, now, p.now, tick);
        AuthUrlTwice(ctx, path, d, encode, sign);
        SameUrlEveryTime(ctx, path, p.params, encode, sign, script, tick, first, p.now, n + 1);
      }
    }
  }

  /** The seconds that requests n to n + k - 1 take. */
  function Elapsed(script: nat -> Reply, n: nat, k: nat): real
    decreases k
  {
    if k == 0 then 0.0 else script(n).latency + Elapsed(script, n + 1, k - 1)
  }

  /** _get never sleeps: the clock moves on only by the time its requests take. */
  lemma {:induction false} NoBackoff(ctx: Context, path: string, d: map<string, Value>, encode: Encoder,
                                     sign: (string, string) -> string, script: nat -> Reply, tick: real,
                                     first: real, now: real, n: nat)
    requires Paced(script, tick)
    ensures var f := GetRun(ctx, path, d, encode, sign, script, tick, first, now, n);
      f.now == now + Elapsed(script, n, |f.urls|)
    decreases Remaining(first, ctx.retryTimeout, now, tick)
  {
    if now - first <= ctx.retryTimeout {
      var p := GetPass(ctx, path, d, encode, sign, script, now, n);
      if p.verdict.Resend? {
        RemainingShrinks(first, ctx.retryTimeout, now, p.now, tick);
        NoBackoff(ctx, path, p.params, encode, sign, script, tick, first, p.now, n + 1);
        var rest := GetRun(ctx, path, p.params, encode, sign, script, tick, first, p.now, n + 1);
        assert Elapsed(script, n, 1 + |rest.urls|) == script(n).latency + Elapsed(script, n + 1, |rest.urls|);
      }
    }
  }

  /** The pass of _get after its deadline check: the URL built on the
      caller's dict, the request, and what the answer means. */
  method Exchange(ctx: Context, path: string, params: PyDict, encode: Encoder, sign: (string, string) -> string,
                  script: nat -> Reply, sent: nat, clock: Clock) returns (verdict: Verdict, urls: seq<string>)
    modifies params, clock
    ensures GetPass(ctx, path, old(params.entries), encode, sign, script, old(clock.now), sent) ==
      Pass(verdict, urls, params.entries, clock.now)
  {
    var authed := AuthUrlInPlace(ctx, path, params, encode, sign);
    if authed.None? {
      return Settle(Err(TypeError(NoneUrlMessage))), [];
    }
    var url := Host + authed.value;
    var reply := script(sent);
    clock.now := clock.now + reply.latency;
    match reply.outcome {
      case TimedOut => return Settle(Err(RequestsTimeout)), [url];
      case Failed(cause) => return Settle(Err(RequestsFailure(cause))), [url];
      case Answered(resp) => return Classify(resp), [url];
    }
  }

  /** common._get: `first` is None on the first call; a retry is the
      recursive call with the first request time kept and the same dict.
      `script` answers the n-th request, `sent` requests have gone before,
      and `urls` are the URLs requested, in order. */
  method Get(ctx: Context, path: string, params: PyDict, encode: Encoder, sign: (string, string) -> string,
             script: nat -> Reply, tick: real, first: Option<real>, sent: nat, clock: Clock)
    returns (r: Result<Value>, urls: seq<string>)
    requires Paced(script, tick)
    modifies params, clock
    ensures var f := GetRun(ctx, path, old(params.entries), encode, sign, script, tick,
                            if first.Some? then first.value else old(clock.now), old(clock.now), sent);
      r == f.result && urls == f.urls && params.entries == f.params && clock.now == f.now
    decreases Remaining(if first.Some? then first.value else clock.now, ctx.retryTimeout, clock.now, tick)
  {
    var start := if first.Some? then first.value else clock.now;
    if clock.now - start > ctx.retryTimeout {
      return Err(PlainException(RetryTimeoutMessage)), [];
    }
    ghost var now := clock.now;
    var verdict, step := Exchange(ctx, path, params, encode, sign, script, sent, clock);
    if verdict.Settle? {
      return verdict.result, step;
    }
    RemainingShrinks(start, ctx.retryTimeout, now, clock.now, tick);
    var rest;
    r, rest := Get(ctx, path, params, encode, sign, script, tick, Some(start), sent + 1, clock);
    urls := step + rest;
  }
}
