/** What one call of Client._request does over time, as a function of its
    inputs: the deadline check, the backoff before each retry, the HTTP request,
    the retry on 500/503/504, the pause of the sliding rate window and the
    classification of the answer. The transport is a scripted sequence of
    replies, the clock is a number of seconds, and random.random() + 0.5 is a
    jitter factor given per retry. */
module Retry {
  import opened Maybe
  import opened Values
  import opened Exceptions
  import opened Request

  /** The HTTP statuses that are retried before the answer is classified. */
  const RetriableStatuses: set<int> := {500, 503, 504}

  /** The client settings _request reads. */
  datatype Settings = Settings(retryTimeout: real, queriesPerSecond: nat, retryOverQueryLimit: bool)

  /** What the executor does, in the order it does it. */
  datatype Event =
      /** The backoff pause before a retry. */
    | Slept(seconds: real)
      /** One HTTP request: the full URL and the JSON body of a POST. */
    | Sent(url: string, json: Option<map<string, Value>>)
      /** The pause that keeps the rate under queries_per_second. */
    | Waited(seconds: real)

  /** The outcome of a call: its result, what happened, the window of send
      times afterwards and the clock afterwards. */
  datatype Run = Run(result: Result<Payload>, events: seq<Event>, window: seq<real>, now: real)

  /** What stays the same across the attempts of one call: the settings, the
      base URL followed by what _generate_auth_url returns, the JSON body of a
      POST, the extract_body function, the scripted transport (one reply per
      request) and the jitter factor of each retry. */
  datatype Env = Env(
    settings: Settings,
    url: Result<string>,
    json: Option<map<string, Value>>,
    extract: Response -> Result<Payload>,
    send: nat -> Reply,
    jitter: nat -> real)

  /** Time does not run backwards and random.random() + 0.5 lies in [0.5, 1.5). */
  ghost predicate Plausible(env: Env) {
    (forall n :: env.send(n).latency >= 0.0) && (forall a :: 0.5 <= env.jitter(a) < 1.5)
  }

  /** Neither the transport nor the extractor raises Timeout of its own. */
  ghost predicate NeverTimesOut(env: Env) {
    (forall n :: !env.send(n).outcome.TimedOut?) &&
    (forall r :: env.extract(r).Err? ==> !env.extract(r).error.Timeout?)
  }

  function Pow(b: real, n: nat): (p: real)
    requires b >= 1.0
    ensures p >= 1.0
  {
    if n == 0 then 1.0 else b * Pow(b, n - 1)
  }

  /** The pause before retry number `attempt`: 0.5 * 1.5 ** (attempt - 1),
      scaled by the jitter factor. */
  function Backoff(attempt: nat, jitter: real): (d: real)
    requires attempt > 0 && jitter >= 0.5
    ensures d >= 0.25
  {
    var base := 0.5 * Pow(1.5, attempt - 1);
    assert base * jitter >= base * 0.5;
    base * jitter
  }

  /** Each retry waits half again as long as the one before, for the same jitter. */
  lemma BackoffGrows(attempt: nat, jitter: real)
    requires attempt > 0 && jitter >= 0.5
    ensures Backoff(attempt + 1, jitter) == 1.5 * Backoff(attempt, jitter)
  {
    assert Pow(1.5, attempt) == 1.5 * Pow(1.5, attempt - 1);
  }

  /** The first retry waits between 0.25 and 0.75 seconds. */
  lemma FirstBackoff(jitter: real)
    requires 0.5 <= jitter < 1.5
    ensures 0.25 <= Backoff(1, jitter) < 0.75
  {
    assert Pow(1.5, 0) == 1.0;
  }

  /** deque.append on a deque bounded at `maxLen`: the oldest entries drop out. */
  function Record(window: seq<real>, maxLen: nat, t: real): (w: seq<real>)
    ensures |window| <= maxLen ==> |w| <= maxLen
    ensures maxLen > 0 ==> |w| > 0 && w[|w| - 1] == t
    ensures maxLen == 0 ==> w == []
    ensures |window| < maxLen ==> w == window + [t]
    ensures 0 < maxLen == |window| ==> w == window[1..] + [t]
  {
    var full := window + [t];
    if |full| <= maxLen then full
    else
      assert full[|full| - maxLen..] == if maxLen == 0 then [] else window[|window| + 1 - maxLen..] + [t];
      full[|full| - maxLen..]
  }

  /** `self.sent_times and len(self.sent_times) == self.queries_per_second`
      and the oldest send less than a second ago. */
  predicate MustWait(window: seq<real>, maxLen: nat, now: real) {
    window != [] && |window| == maxLen && now - window[0] < 1.0
  }

  /** The seconds of the rate pause: until a second after the oldest send. */
  function RatePause(window: seq<real>, now: real): (d: real)
    requires window != [] && now - window[0] < 1.0
    ensures d > 0.0 && now + d == window[0] + 1.0
  {
    1.0 - (now - window[0])
  }

  /** What is left of the retry budget, in quarter seconds; 0 once the deadline has passed. */
  function Budget(first: real, retryTimeout: real, now: real): nat {
    if now - first > retryTimeout then 0 else ((first + retryTimeout - now) * 4.0).Floor + 2
  }

  /** A later clock leaves no more budget, and a clock a quarter second later
      leaves strictly less while the deadline has not passed. */
  lemma BudgetShrinks(first: real, retryTimeout: real, now: real, later: real)
    requires now <= later && now - first <= retryTimeout
    ensures Budget(first, retryTimeout, later) <= Budget(first, retryTimeout, now)
    ensures later >= now + 0.25 ==> Budget(first, retryTimeout, later) < Budget(first, retryTimeout, now)
  {
    var x := (first + retryTimeout - now) * 4.0;
    var y := (first + retryTimeout - later) * 4.0;
    assert y <= x;
    if later - first <= retryTimeout {
      assert y.Floor as real <= y && x < x.Floor as real + 1.0;
      if later >= now + 0.25 {
        assert y <= x - 1.0;
      }
    }
  }

  /** The run with `events` happening first. */
  function Prepend(events: seq<Event>, run: Run): (r: Run)
    ensures r.result == run.result && r.window == run.window && r.now == run.now
    ensures r.events == events + run.events
  {
    run.(events := events + run.events)
  }

  lemma PrependTwice(a: seq<Event>, b: seq<Event>, run: Run)
    ensures Prepend(a + b, run) == Prepend(a, Prepend(b, run))
  {
    assert (a + b) + run.events == a + (b + run.events);
  }

  lemma PrependNothing(run: Run)
    ensures Prepend([], run) == run
  {
    assert [] + run.events == run.events;
  }

  /** Whether a classified error sends the call round again: any
      _RetriableRequest, except _OverQueryLimit when the client says not to. */
  predicate RetryAfter(s: Settings, e: Error) {
    IsRetriable(e) && !(e.OverQueryLimit? && !s.retryOverQueryLimit)
  }

  /** The seconds of the backoff pauses, in order. */
  function Pauses(events: seq<Event>): (p: seq<real>)
    ensures |p| <= |events|
  {
    if events == [] then []
    else (if events[0].Slept? then [events[0].seconds] else []) + Pauses(events[1..])
  }

  /** The number of HTTP requests made. */
  function Requests(events: seq<Event>): (n: nat)
    ensures n <= |events|
  {
    if events == [] then 0 else (if events[0].Sent? then 1 else 0) + Requests(events[1..])
  }

  lemma {:induction false} CountsAppend(a: seq<Event>, b: seq<Event>)
    ensures Pauses(a + b) == Pauses(a) + Pauses(b)
    ensures Requests(a + b) == Requests(a) + Requests(b)
  {
    if a == [] {
      assert a + b == b;
    } else {
      var ab := a + b;
      assert ab[0] == a[0];
      assert ab[1..] == a[1..] + b;
      CountsAppend(a[1..], b);
      var head := if a[0].Slept? then [a[0].seconds] else [];
      assert Pauses(ab) == head + Pauses(a[1..] + b);
      assert Pauses(a) == head + Pauses(a[1..]);
      assert head + (Pauses(a[1..]) + Pauses(b)) == (head + Pauses(a[1..])) + Pauses(b);
    }
  }

  /** Every rate pause among `events` happened with the window full, and
      lasted no longer than a second when the window's times are in the past. */
  predicate WaitsWhenFull(events: seq<Event>, window: seq<real>, maxLen: nat, now: real) {
    forall i :: 0 <= i < |events| && events[i].Waited? ==>
      && window != [] && |window| == maxLen
      && events[i].seconds > 0.0
      && (window[0] <= now ==> events[i].seconds <= 1.0)
  }

  lemma WaitsAppend(a: seq<Event>, b: seq<Event>, window: seq<real>, maxLen: nat, now: real, later: real)
    requires now <= later
    requires WaitsWhenFull(a, window, maxLen, now) && WaitsWhenFull(b, window, maxLen, later)
    ensures WaitsWhenFull(a + b, window, maxLen, now)
  {
    forall i | 0 <= i < |a + b| && (a + b)[i].Waited?
      ensures window != [] && |window| == maxLen && (a + b)[i].seconds > 0.0
      ensures window[0] <= now ==> (a + b)[i].seconds <= 1.0
    {
      if i >= |a| {
        assert (a + b)[i] == b[i - |a|];
      }
    }
  }

  /** One attempt's outcome: the call is over, or it goes round again after
      these events with the clock at `now`. */
  datatype Step = Done(run: Run) | Again(events: seq<Event>, now: real)

  function StepEvents(step: Step): seq<Event> {
    if step.Done? then step.run.events else step.events
  }

  /** The backoff pause of attempt number `attempt`, if any, then its request. */
  function Opening(env: Env, attempt: nat, url: string): (events: seq<Event>)
    requires Plausible(env)
    ensures Pauses(events) == if attempt > 0 then [Backoff(attempt, env.jitter(attempt))] else []
    ensures Requests(events) == 1
    ensures forall e :: e in events ==> !e.Waited?
  {
    var slept := if attempt > 0 then [Slept(Backoff(attempt, env.jitter(attempt)))] else [];
    CountsAppend(slept, [Sent(url, env.json)]);
    slept + [Sent(url, env.json)]
  }

  /** The rate pause after an answer that is not retried on its status, if any. */
  function Pause(window: seq<real>, maxLen: nat, now: real): (events: seq<Event>)
    ensures Pauses(events) == [] && Requests(events) == 0
    ensures WaitsWhenFull(events, window, maxLen, now)
  {
    if MustWait(window, maxLen, now) then [Waited(RatePause(window, now))] else []
  }

  /** The clock when the answer to attempt number `attempt` comes back: after
      its backoff pause and the request's latency. */
  function Arrival(env: Env, attempt: nat, now: real, sent: nat): (t: real)
    requires Plausible(env)
    ensures t >= now + (if attempt > 0 then 0.25 else 0.0)
  {
    now + (if attempt > 0 then Backoff(attempt, env.jitter(attempt)) else 0.0) + env.send(sent).latency
  }

  /** The end of an attempt whose answer came back at `t`: a retry on 500, 503
      or 504; otherwise the rate pause, then the classification by the
      extractor, retried when it raises a retriable error. */
  function Answer(env: Env, events: seq<Event>, resp: Response, t: real, window: seq<real>): (step: Step)
    ensures var waited := Pause(window, env.settings.queriesPerSecond, t);
      StepEvents(step) == events || StepEvents(step) == events + waited
    ensures step.Again? ==> step.now >= t
    ensures step.Done? ==> step.run.now >= t
    ensures step.Done? ==>
      step.run.window == if step.run.result.Ok? then Record(window, env.settings.queriesPerSecond, step.run.now) else window
    ensures step.Done? && step.run.result == Err(Timeout) ==> env.extract(resp) == Err(Timeout)
    ensures resp.statusCode in RetriableStatuses ==> step == Again(events, t)
    ensures resp.statusCode !in RetriableStatuses ==>
      (step.Again? <==> env.extract(resp).Err? && RetryAfter(env.settings, env.extract(resp).error))
    ensures step.Done? ==> step.run.result == env.extract(resp)
  {
    var s := env.settings;
    if resp.statusCode in RetriableStatuses then Again(events, t)
    else
      var waited := Pause(window, s.queriesPerSecond, t);
      var t' := if waited != [] then t + RatePause(window, t) else t;
      match env.extract(resp)
      case Ok(p) => Done(Run(Ok(p), events + waited, Record(window, s.queriesPerSecond, t'), t'))
      case Err(e) =>
        if RetryAfter(s, e) then Again(events + waited, t')
        else Done(Run(Err(e), events + waited, window, t'))
  }

  /** One pass through the body of Client._request, attempt number `attempt`:
      `first` is the time of the first request, `now` the clock on entry,
      `window` the send times and `sent` the number of requests made so far. */
  function Once(env: Env, attempt: nat, first: real, now: real, window: seq<real>, sent: nat): (step: Step)
    requires Plausible(env)
    ensures step.Done? ==> step.run.now >= now
    ensures step.Again? ==> now - first <= env.settings.retryTimeout
    ensures step.Again? ==> step.now >= now + (if attempt > 0 then 0.25 else 0.0)
    ensures step.Done? ==>
      step.run.window == if step.run.result.Ok? then Record(window, env.settings.queriesPerSecond, step.run.now) else window
    ensures step.Done? && step.run.result == Err(Timeout) && env.url.Ok? && NeverTimesOut(env) ==>
      step.run.now - first > env.settings.retryTimeout
    ensures env.url.Ok? && now - first <= env.settings.retryTimeout ==>
      var opening := Opening(env, attempt, env.url.value);
      var waited := Pause(window, env.settings.queriesPerSecond, Arrival(env, attempt, now, sent));
      StepEvents(step) == opening || StepEvents(step) == opening + waited
    ensures now - first > env.settings.retryTimeout ==> step == Done(Run(Err(Timeout), [], window, now))
    ensures env.url.Err? ==> step.Done? && forall e :: e in step.run.events ==> e.Slept?
  {
    var s := env.settings;
    if now - first > s.retryTimeout then Done(Run(Err(Timeout), [], window, now))
    else
      var pause := if attempt > 0 then Backoff(attempt, env.jitter(attempt)) else 0.0;
      if env.url.Err? then Done(Run(Err(env.url.error), if attempt > 0 then [Slept(pause)] else [], window, now + pause))
      else
        var reply := env.send(sent);
        var t := Arrival(env, attempt, now, sent);
        var events := Opening(env, attempt, env.url.value);
        match reply.outcome
        case TimedOut => Done(Run(Err(Timeout), events, window, t))
        case Failed(cause) => Done(Run(Err(TransportError(Some(cause))), events, window, t))
        case Answered(resp) => Answer(env, events, resp, t, window)
  }

  /** Client._request from attempt `attempt` on, each retry a recursive call
      with the same URL, the same first_request_time and retry_counter + 1. */
  function Attempt(env: Env, attempt: nat, first: real, now: real, window: seq<real>, sent: nat): (run: Run)
    requires Plausible(env)
    ensures run.now >= now
    ensures WaitsWhenFull(run.events, window, env.settings.queriesPerSecond, now)
    ensures run.window == if run.result.Ok? then Record(window, env.settings.queriesPerSecond, run.now) else window
    ensures run.result == Err(Timeout) && env.url.Ok? && NeverTimesOut(env) ==> run.now - first > env.settings.retryTimeout
    decreases Budget(first, env.settings.retryTimeout, now), if attempt == 0 then 1 else 0
  {
    OnceWaits(env, attempt, first, now, window, sent);
    match Once(env, attempt, first, now, window, sent)
    case Done(run) => run
    case Again(events, t) =>
      BudgetShrinks(first, env.settings.retryTimeout, now, t);
      var rest := Attempt(env, attempt + 1, first, t, window, sent + 1);
      WaitsAppend(events, rest.events, window, env.settings.queriesPerSecond, now, t);
      Prepend(events, rest)
  }

  lemma OnceWaits(env: Env, attempt: nat, first: real, now: real, window: seq<real>, sent: nat)
    requires Plausible(env)
    ensures WaitsWhenFull(StepEvents(Once(env, attempt, first, now, window, sent)),
      window, env.settings.queriesPerSecond, now)
  {
    var s := env.settings;
    if now - first <= s.retryTimeout && env.url.Ok? {
      var opening := Opening(env, attempt, env.url.value);
      var t' := Arrival(env, attempt, now, sent);
      WaitsAppend(opening, Pause(window, s.queriesPerSecond, t'), window, s.queriesPerSecond, now, t');
    }
  }

  /** The window never holds more than queries_per_second send times, and a
      full window loses its oldest entry first. */
  lemma WindowBounded(env: Env, first: real, now: real, window: seq<real>)
    requires Plausible(env) && |window| <= env.settings.queriesPerSecond
    ensures var run := Attempt(env, 0, first, now, window, 0);
      var qps := env.settings.queriesPerSecond;
      && |run.window| <= qps
      && (run.result.Ok? && 0 < qps == |window| ==> run.window == window[1..] + [run.now])
      && (run.result.Ok? && |window| < qps ==> run.window == window + [run.now])
  {
  }

  /** With queries_per_second 0 the window stays empty and nothing waits. */
  lemma ZeroCeiling(env: Env, first: real, now: real)
    requires Plausible(env) && env.settings.queriesPerSecond == 0
    ensures var run := Attempt(env, 0, first, now, [], 0);
      run.window == [] && forall e :: e in run.events ==> !e.Waited?
  {
    var run := Attempt(env, 0, first, now, [], 0);
    forall e | e in run.events ensures !e.Waited? {
      var i :| 0 <= i < |run.events| && run.events[i] == e;
    }
  }

  lemma OnceCounts(env: Env, attempt: nat, first: real, now: real, window: seq<real>, sent: nat)
    requires Plausible(env) && env.url.Ok?
    ensures var events := StepEvents(Once(env, attempt, first, now, window, sent));
      var live := now - first <= env.settings.retryTimeout;
      && Pauses(events) == (if attempt > 0 && live then [Backoff(attempt, env.jitter(attempt))] else [])
      && Requests(events) == (if live then 1 else 0)
  {
    var s := env.settings;
    if now - first <= s.retryTimeout {
      var opening := Opening(env, attempt, env.url.value);
      var t' := Arrival(env, attempt, now, sent);
      CountsAppend(opening, Pause(window, s.queriesPerSecond, t'));
    }
  }

  /** The backoff pauses of `n` retries, numbered from k on. */
  function Schedule(env: Env, k: nat, n: nat): (pauses: seq<real>)
    requires Plausible(env) && k > 0
    ensures |pauses| == n
    decreases n
  {
    if n == 0 then [] else [Backoff(k, env.jitter(k))] + Schedule(env, k + 1, n - 1)
  }

  /** Retry number k + i waits 0.5 * 1.5 ** (k + i - 1) times its jitter factor. */
  lemma {:induction false} ScheduleAt(env: Env, k: nat, n: nat, i: nat)
    requires Plausible(env) && k > 0 && i < n
    ensures Schedule(env, k, n)[i] == Backoff(k + i, env.jitter(k + i))
    decreases n
  {
    if i > 0 {
      ScheduleAt(env, k + 1, n - 1, i - 1);
    }
  }

  lemma ScheduleCons(env: Env, k: nat, m: nat)
    requires Plausible(env) && k > 0
    ensures Schedule(env, k, m + 1) == [Backoff(k, env.jitter(k))] + Schedule(env, k + 1, m)
  {
  }

  /** The counts of an attempt that is retried, followed by those of the retries. */
  lemma ScheduleAppend(env: Env, attempt: nat, a: seq<Event>, b: seq<Event>)
    requires Plausible(env)
    requires Pauses(a) == (if attempt > 0 then [Backoff(attempt, env.jitter(attempt))] else []) && Requests(a) == 1
    requires Requests(b) == |Pauses(b)| && Pauses(b) == Schedule(env, attempt + 1, |Pauses(b)|)
    ensures Requests(a + b) == |Pauses(a + b)| + (if attempt == 0 then 1 else 0)
    ensures Pauses(a + b) == Schedule(env, if attempt == 0 then 1 else attempt, |Pauses(a + b)|)
  {
    CountsAppend(a, b);
    var m := |Pauses(b)|;
    if attempt > 0 {
      ScheduleCons(env, attempt, m);
    } else {
      assert Pauses(a) + Pauses(b) == Pauses(b);
    }
  }

  /** The backoff pauses of a call: none before the first request, and one
      before each retry, the n-th retry's lasting 0.5 * 1.5 ** (n - 1) times
      its jitter factor. */
  lemma {:induction false} BackoffSchedule(env: Env, attempt: nat, first: real, now: real, window: seq<real>, sent: nat)
    requires Plausible(env) && env.url.Ok?
    ensures var events := Attempt(env, attempt, first, now, window, sent).events;
      && Requests(events) == |Pauses(events)| + (if attempt == 0 && now - first <= env.settings.retryTimeout then 1 else 0)
      && Pauses(events) == Schedule(env, if attempt == 0 then 1 else attempt, |Pauses(events)|)
    decreases Budget(first, env.settings.retryTimeout, now), if attempt == 0 then 1 else 0
  {
    var step := Once(env, attempt, first, now, window, sent);
    OnceCounts(env, attempt, first, now, window, sent);
    if step.Again? {
      BudgetShrinks(first, env.settings.retryTimeout, now, step.now);
      BackoffSchedule(env, attempt + 1, first, step.now, window, sent + 1);
      var rest := Attempt(env, attempt + 1, first, step.now, window, sent + 1);
      ScheduleAppend(env, attempt, step.events, rest.events);
    }
  }

  /** Attempt after an attempt that is sent round again. */
  lemma AttemptAgain(env: Env, attempt: nat, first: real, now: real, window: seq<real>, sent: nat)
    requires Plausible(env) && Once(env, attempt, first, now, window, sent).Again?
    ensures var step := Once(env, attempt, first, now, window, sent);
      Attempt(env, attempt, first, now, window, sent) ==
        Prepend(step.events, Attempt(env, attempt + 1, first, step.now, window, sent + 1))
  {
  }

  /** Attempt after an attempt that ends the call. */
  lemma AttemptDone(env: Env, attempt: nat, first: real, now: real, window: seq<real>, sent: nat)
    requires Plausible(env) && Once(env, attempt, first, now, window, sent).Done?
    ensures Attempt(env, attempt, first, now, window, sent) == Once(env, attempt, first, now, window, sent).run
  {
  }

  /** An attempt that goes round again: the call is its events followed by
      the next attempt, which has less of the retry budget left. */
  lemma Retried(env: Env, attempt: nat, first: real, now: real, window: seq<real>)
    requires Plausible(env) && Once(env, attempt, first, now, window, attempt).Again?
    ensures var step := Once(env, attempt, first, now, window, attempt);
      && Attempt(env, attempt, first, now, window, attempt) ==
           Prepend(step.events, Attempt(env, attempt + 1, first, step.now, window, attempt + 1))
      && Budget(first, env.settings.retryTimeout, step.now) <= Budget(first, env.settings.retryTimeout, now)
      && (attempt > 0 ==> Budget(first, env.settings.retryTimeout, step.now) < Budget(first, env.settings.retryTimeout, now))
  {
    var step := Once(env, attempt, first, now, window, attempt);
    BudgetShrinks(first, env.settings.retryTimeout, now, step.now);
    AttemptAgain(env, attempt, first, now, window, attempt);
  }

  /** The deadline is strict: a call is given up without a request exactly
      when more than retry_timeout seconds have passed since the first one. */
  lemma DeadlineStrict(env: Env, attempt: nat, first: real, now: real, window: seq<real>, sent: nat)
    requires Plausible(env) && env.url.Ok?
    ensures var run := Attempt(env, attempt, first, now, window, sent);
      now - first > env.settings.retryTimeout <==> run.result == Err(Timeout) && Requests(run.events) == 0
  {
    var step := Once(env, attempt, first, now, window, sent);
    OnceCounts(env, attempt, first, now, window, sent);
    if step.Again? {
      var rest := Attempt(env, attempt + 1, first, step.now, window, sent + 1);
      CountsAppend(step.events, rest.events);
    }
  }

  /** An answer of 500, 503 or 504 to any attempt before the deadline sends
      the same URL again: the attempt goes round again from the moment the
      answer came back, with no rate pause, and by AttemptAgain the call goes
      on as the next retry. */
  lemma ServerErrorRetried(env: Env, attempt: nat, first: real, now: real, window: seq<real>, sent: nat)
    requires Plausible(env) && env.url.Ok? && now - first <= env.settings.retryTimeout
    requires env.send(sent).outcome.Answered? && env.send(sent).outcome.response.statusCode in RetriableStatuses
    ensures Once(env, attempt, first, now, window, sent) ==
      Again(Opening(env, attempt, env.url.value), Arrival(env, attempt, now, sent))
  {
  }

  /** A retriable error from the extractor, on any attempt before the
      deadline, sends the call round again after the rate pause if the window
      was full. */
  lemma RetriableErrorRetried(env: Env, attempt: nat, first: real, now: real, window: seq<real>, sent: nat, e: Error)
    requires Plausible(env) && env.url.Ok? && now - first <= env.settings.retryTimeout
    requires env.send(sent).outcome.Answered? && env.send(sent).outcome.response.statusCode !in RetriableStatuses
    requires env.extract(env.send(sent).outcome.response) == Err(e) && IsRetriable(e)
    requires !e.OverQueryLimit? || env.settings.retryOverQueryLimit
    ensures var t := Arrival(env, attempt, now, sent);
      var waited := Pause(window, env.settings.queriesPerSecond, t);
      Once(env, attempt, first, now, window, sent) ==
        Again(Opening(env, attempt, env.url.value) + waited, if waited != [] then t + RatePause(window, t) else t)
  {
  }

  /** With retry_over_query_limit off, a quota error on any attempt ends the
      call after that attempt's one request, and it surfaces as an ApiError. */
  lemma QuotaFatal(env: Env, attempt: nat, first: real, now: real, window: seq<real>, sent: nat, e: Error)
    requires Plausible(env) && env.url.Ok? && now - first <= env.settings.retryTimeout
    requires !env.settings.retryOverQueryLimit
    requires env.send(sent).outcome.Answered? && env.send(sent).outcome.response.statusCode !in RetriableStatuses
    requires env.extract(env.send(sent).outcome.response) == Err(e) && e.OverQueryLimit?
    ensures var run := Attempt(env, attempt, first, now, window, sent);
      run.result == Err(e) && IsApiError(e) && Requests(run.events) == 1 && run.window == window
  {
    OnceCounts(env, attempt, first, now, window, sent);
  }

  /** A transport failure on any attempt before the deadline is never
      retried: it ends the call after that attempt's one request, when the
      failure came back. */
  lemma TransportNotRetried(env: Env, attempt: nat, first: real, now: real, window: seq<real>, sent: nat, cause: string)
    requires Plausible(env) && env.url.Ok? && now - first <= env.settings.retryTimeout
    requires env.send(sent).outcome == Failed(cause)
    ensures var run := Attempt(env, attempt, first, now, window, sent);
      && run.result == Err(TransportError(Some(cause))) && IsTransportError(run.result.error)
      && run.events == Opening(env, attempt, env.url.value) && Requests(run.events) == 1
      && run.now == Arrival(env, attempt, now, sent) && run.window == window
  {
  }

  /** A successful extraction on any attempt ends the call and is the only
      thing that adds a send time to the window. */
  lemma SuccessRecorded(env: Env, attempt: nat, first: real, now: real, window: seq<real>, sent: nat, p: Payload)
    requires Plausible(env) && env.url.Ok? && now - first <= env.settings.retryTimeout
    requires env.send(sent).outcome.Answered? && env.send(sent).outcome.response.statusCode !in RetriableStatuses
    requires env.extract(env.send(sent).outcome.response) == Ok(p)
    ensures var run := Attempt(env, attempt, first, now, window, sent);
      && run.result == Ok(p) && Requests(run.events) == 1
      && run.window == Record(window, env.settings.queriesPerSecond, run.now)
  {
    OnceCounts(env, attempt, first, now, window, sent);
  }
}
