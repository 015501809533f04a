/** googlemaps.Client: the credentials and settings fixed at construction,
    the headers dict and the window of send times it updates, and the
    executor _request, which retries a call until it succeeds, fails for
    good or runs out of time. */
module MapsClient {
  import opened Maybe
  import opened Values
  import opened Exceptions
  import opened Builtins
  import opened Request
  import opened Sorting
  import opened Urlencode
  import opened ClientAuth
  import opened ClientConfig
  import opened Retry
  import ClientBody

  /** `base_url + authed_url`: the call's own base URL, or the client's. */
  function CallUrl(c: Credentials, defaultBase: string, call: ApiCall, extra: map<string, Value>, sign: Signer): (r: Result<string>)
    ensures r.Ok? <==> AuthUrl(c, call.path, call.params, extra, call.acceptsClientId, sign).Ok?
    ensures r.Err? ==> r.error == ValueError(NoKeyMessage)
  {
    var authed :- AuthUrl(c, call.path, call.params, extra, call.acceptsClientId, sign);
    Ok((if call.baseUrl.Some? then call.baseUrl.value else defaultBase) + authed)
  }

  class Client {
    const credentials: Credentials
    const settings: Settings
    const timeout: Value
    const baseUrl: string
    /** requests_kwargs["headers"], None once that entry is gone. */
    var headers: Option<Headers>
    /** sent_times: the deque of send times, bounded at queries_per_second. */
    var sentTimes: seq<real>

    /** The deque never holds more than its maximum length. */
    predicate Valid()
      reads this
    {
      |sentTimes| <= settings.queriesPerSecond
    }

    /** The client built from a configuration that Configure accepted. */
    constructor (config: Config)
      ensures credentials == config.credentials && settings == config.settings
      ensures timeout == config.timeout && baseUrl == config.baseUrl
      ensures headers == config.headers && sentTimes == []
      ensures Valid()
    {
      credentials := config.credentials;
      settings := config.settings;
      timeout := config.timeout;
      baseUrl := config.baseUrl;
      headers := config.headers;
      sentTimes := [];
    }

    /** Client.get_experience_id */
    method GetExperienceId() returns (id: Option<string>)
      ensures id == GetExperience(headers)
    {
      if headers.Some? && ExperienceIdHeader in headers.value {
        id := Some(headers.value[ExperienceIdHeader]);
      } else {
        id := None;
      }
    }

    /** Client.clear_experience_id */
    method ClearExperienceId()
      modifies this`headers
      ensures headers == ClearExperience(old(headers))
    {
      if headers.None? {
        return;
      }
      var h := headers.value;
      headers := Some(h - {ExperienceIdHeader});
    }

    /** Client.set_experience_id, joining the arguments before the headers
      dict is taken out of requests_kwargs. */
    method SetExperienceId(args: seq<Value>) returns (error: Option<Error>)
      modifies this`headers
      ensures HeaderUpdate(headers, error) == SetExperience(old(headers), args)
    {
      if |args| == 0 || args[0] == NoneV {
        ClearExperienceId();
        return None;
      }
      var joined := Join(",", args);
      if joined.Err? {
        return Some(joined.error);
      }
      var h := if headers.Some? then headers.value else map[];
      h := h[ExperienceIdHeader := joined.value];
      headers := Some(h);
      error := None;
    }

    /** The start of Client._generate_auth_url: a dict of parameters is
        merged over the extra ones and sorted; a list is appended to the
        sorted extra parameters. */
    static method MergeParams(params: Params, extra: map<string, Value>) returns (ps: seq<(string, Value)>)
      ensures ps == Merge(extra, params)
    {
      match params {
        case DictParams(d) => ps := SortedItems(extra + d);
        case ListParams(pairs) => ps := SortedItems(extra) + pairs;
      }
    }

    /** The enterprise branch of _generate_auth_url: the channel, if any, and
        the client ID are appended, and the URL is signed. */
    method SignedUrl(path: string, ps: seq<(string, Value)>, sign: Signer) returns (url: string)
      ensures var signed := path + "?" + Query(EnterpriseParams(credentials, ps));
        url == signed + "&signature=" + sign(credentials.clientSecret, signed)
    {
      var all := ps;
      if credentials.channel != "" {
        all := all + [("channel", Str(credentials.channel))];
      }
      all := all + [("client", Str(credentials.clientId))];
      assert all == EnterpriseParams(credentials, ps);
      var query := UrlencodeParams(all);
      var signed := path + "?" + query;
      var signature := sign(credentials.clientSecret, signed);
      url := signed + "&signature=" + signature;
    }

    /** The key branch of _generate_auth_url: the key is appended last. */
    method KeyUrl(path: string, ps: seq<(string, Value)>) returns (url: string)
      ensures url == path + "?" + Query(ps + [("key", Str(credentials.key))])
    {
      var query := UrlencodeParams(ps + [("key", Str(credentials.key))]);
      url := path + "?" + query;
    }

    /** Client._generate_auth_url, with the extra parameters of
        make_api_method passed in. */
    method GenerateAuthUrl(path: string, params: Params, extra: map<string, Value>, acceptsClientId: bool,
                           sign: Signer) returns (r: Result<string>)
      ensures r == AuthUrl(credentials, path, params, extra, acceptsClientId, sign)
    {
      var ps := MergeParams(params, extra);
      if acceptsClientId && credentials.clientId != "" && credentials.clientSecret != "" {
        var url := SignedUrl(path, ps, sign);
        r := Ok(url);
      } else if credentials.key != "" {
        var url := KeyUrl(path, ps);
        r := Ok(url);
      } else {
        r := Err(ValueError(NoKeyMessage));
      }
    }

    /** sent_times.append(t) on the bounded deque. */
    method RecordSend(t: real)
      requires Valid()
      modifies this`sentTimes
      ensures Valid()
      ensures sentTimes == Record(old(sentTimes), settings.queriesPerSecond, t)
    {
      if settings.queriesPerSecond == 0 {
        return;
      }
      if |sentTimes| == settings.queriesPerSecond {
        sentTimes := sentTimes[1..] + [t];
      } else {
        sentTimes := sentTimes + [t];
      }
    }

    /** The end of one pass through Client._request once `response` has
        come back: a retry on 500, 503 or 504; otherwise the rate pause, the
        extractor, and on success the send time recorded. `done` is the
        result when the call is over, None when it goes round again. */
    method Conclude(env: Env, opening: seq<Event>, response: Response, clock: Clock)
      returns (done: Option<Result<Payload>>, step: seq<Event>)
      requires Valid() && env.settings == settings
      modifies this`sentTimes, clock
      ensures Valid()
      ensures var s := Answer(env, opening, response, old(clock.now), old(sentTimes));
        && (s.Done? <==> done.Some?)
        && (s.Done? ==> done.value == s.run.result && step == s.run.events && clock.now == s.run.now && sentTimes == s.run.window)
        && (s.Again? ==> step == s.events && clock.now == s.now && sentTimes == old(sentTimes))
    {
      step := opening;
      if response.statusCode in RetriableStatuses {
        return None, step;
      }
      if sentTimes != [] && |sentTimes| == settings.queriesPerSecond {
        var elapsed := clock.now - sentTimes[0];
        if elapsed < 1.0 {
          step := step + [Waited(1.0 - elapsed)];
          clock.now := clock.now + (1.0 - elapsed);
        }
      }
      var result := env.extract(response);
      if result.Ok? {
        RecordSend(clock.now);
        return Some(result), step;
      }
      if RetryAfter(settings, result.error) {
        return None, step;
      }
      return Some(result), step;
    }

    /** One pass through the body of Client._request: the deadline check,
        the backoff pause of a retry, the URL and the request. */
    method Pass(env: Env, attempt: nat, first: real, clock: Clock)
      returns (done: Option<Result<Payload>>, step: seq<Event>)
      requires Valid() && env.settings == settings && Plausible(env)
      modifies this`sentTimes, clock
      ensures Valid()
      ensures var s := Once(env, attempt, first, old(clock.now), old(sentTimes), attempt);
        && (s.Done? <==> done.Some?)
        && (s.Done? ==> done.value == s.run.result && step == s.run.events && clock.now == s.run.now && sentTimes == s.run.window)
        && (s.Again? ==> step == s.events && clock.now == s.now && sentTimes == old(sentTimes))
    {
      var now := clock.now;
      if now - first > settings.retryTimeout {
        return Some(Err(Timeout)), [];
      }
      step := [];
      if attempt > 0 {
        var delay := Backoff(attempt, env.jitter(attempt));
        step := [Slept(delay)];
        clock.now := clock.now + delay;
      }
      if env.url.Err? {
        return Some(Err(env.url.error)), step;
      }
      var url := env.url.value;
      var reply := env.send(attempt);
      step := step + [Sent(url, env.json)];
      clock.now := clock.now + reply.latency;
      assert step == Opening(env, attempt, url) && clock.now == Arrival(env, attempt, now, attempt);
      match reply.outcome {
        case TimedOut => return Some(Err(Timeout)), step;
        case Failed(cause) => return Some(Err(TransportError(Some(cause)))), step;
        case Answered(response) =>
          done, step := Conclude(env, step, response, clock);
      }
    }

    /** Client._request from its deadline check on, for the attempt numbered
        `attempt` of a call first made at `first`; a retry is the recursive
        call with the next attempt number. */
    method Execute(env: Env, attempt: nat, first: real, clock: Clock) returns (r: Result<Payload>, events: seq<Event>)
      requires Valid() && env.settings == settings && Plausible(env)
      modifies this`sentTimes, clock
      decreases Budget(first, settings.retryTimeout, clock.now), if attempt == 0 then 1 else 0
      ensures Valid()
      ensures var run := Attempt(env, attempt, first, old(clock.now), old(sentTimes), attempt);
        r == run.result && events == run.events && sentTimes == run.window && clock.now == run.now
    {
      ghost var now := clock.now;
      ghost var window := sentTimes;
      var done, step := Pass(env, attempt, first, clock);
      if done.Some? {
        AttemptDone(env, attempt, first, now, window, attempt);
        return done.value, step;
      }
      Retried(env, attempt, first, now, window);
      var rest;
      r, rest := Execute(env, attempt + 1, first, clock);
      events := step + rest;
    }

    /** Client._request: `extract` is the endpoint's extract_body (or
        _get_body), `send` answers the n-th request, `jitter` is
        random.random() + 0.5 for the n-th retry, and `clock` is advanced by
        every sleep and every request. The URL is generated once, as every
        pass would generate the same one. */
    method Request(call: ApiCall, extra: map<string, Value>, sign: Signer, extract: Response -> Result<Payload>,
                   send: nat -> Reply, jitter: nat -> real, clock: Clock) returns (r: Result<Payload>, events: seq<Event>)
      requires Valid()
      requires Plausible(Env(settings, CallUrl(credentials, baseUrl, call, extra, sign), call.postJson, extract, send, jitter))
      modifies this`sentTimes, clock
      ensures Valid()
      ensures var env := Env(settings, CallUrl(credentials, baseUrl, call, extra, sign), call.postJson, extract, send, jitter);
        var run := Attempt(env, 0, old(clock.now), old(clock.now), old(sentTimes), 0);
        r == run.result && events == run.events && sentTimes == run.window && clock.now == run.now
    {
      var authed := GenerateAuthUrl(call.path, call.params, extra, call.acceptsClientId, sign);
      var url := if authed.Ok? then Ok((if call.baseUrl.Some? then call.baseUrl.value else baseUrl) + authed.value)
                 else Err(authed.error);
      r, events := Execute(Env(settings, url, call.postJson, extract, send, jitter), 0, clock.now, clock);
    }

    /** An endpoint function: the executor run with the extractor the call
        names, and its result post-processed. */
    method Call(call: ApiCall, extra: map<string, Value>, sign: Signer, send: nat -> Reply,
                jitter: nat -> real, clock: Clock) returns (r: Result<Payload>)
      requires Valid()
      requires Plausible(Env(settings, CallUrl(credentials, baseUrl, call, extra, sign), call.postJson,
                             resp => ClientBody.Extract(call.extractor, resp), send, jitter))
      modifies this`sentTimes, clock
      ensures Valid()
      ensures var env := Env(settings, CallUrl(credentials, baseUrl, call, extra, sign), call.postJson,
                             resp => ClientBody.Extract(call.extractor, resp), send, jitter);
        var run := Attempt(env, 0, old(clock.now), old(clock.now), old(sentTimes), 0);
        && sentTimes == run.window && clock.now == run.now
        && r == (if run.result.Ok? then Finish(call.post, run.result.value) else run.result)
    {
      var result, _ := Request(call, extra, sign, resp => ClientBody.Extract(call.extractor, resp), send, jitter, clock);
      if result.Err? {
        return result;
      }
      r := Finish(call.post, result.value);
    }
  }
}
