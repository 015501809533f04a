/** The checks and settings of Client.__init__, and the experience-id header
    kept among the requests keyword arguments. The headers dict is
    `Some(headers)` while requests_kwargs holds a "headers" entry and `None`
    once that entry is gone. */
module ClientConfig {
  import opened Maybe
  import opened Values
  import opened Exceptions
  import opened Builtins
  import opened Text
  import opened ClientAuth
  import Retry

  const ExperienceIdHeader := "X-Goog-Maps-Experience-ID"
  const DefaultBaseUrl := "https://maps.googleapis.com"

  const MissingCredentialsMessage := "Must provide API key or enterprise credentials when creating client."
  const InvalidKeyMessage := "Invalid API key provided."
  const ChannelMessage := "The channel argument must be an ASCII alphanumeric string. The period (.), underscore (_)and hyphen (-) characters are allowed. If used without client_id, it must be 0-999."
  const TimeoutMessage := "Specify either timeout, or connect_timeout and read_timeout"

  type Headers = map<string, string>

  /** The constructor's arguments. Credentials and the channel are strings,
      "" standing for None; `userHeaders` is the "headers" entry of the
      caller's requests_kwargs, if any; `version` is googlemaps.__version__. */
  datatype Options = Options(
    credentials: Credentials,
    timeout: Value,
    connectTimeout: Value,
    readTimeout: Value,
    retryTimeout: real,
    queriesPerSecond: nat,
    retryOverQueryLimit: bool,
    experienceId: Value,
    userHeaders: Option<Headers>,
    baseUrl: string,
    version: string)

  /** A constructed client's settings. */
  datatype Config = Config(
    credentials: Credentials,
    settings: Retry.Settings,
    timeout: Value,
    headers: Option<Headers>,
    baseUrl: string)

  /** The characters of `[a-zA-Z0-9._-]`. */
  predicate ChannelChar(c: char) {
    'a' <= c <= 'z' || 'A' <= c <= 'Z' || '0' <= c <= '9' || c == '.' || c == '_' || c == '-'
  }

  /** The channel consists of allowed characters only. */
  predicate ChannelOk(channel: string) {
    forall i :: 0 <= i < |channel| ==> ChannelChar(channel[i])
  }

  /** re.match("^[a-zA-Z0-9._-]*$", channel) as written: `$` also matches just
      before a newline that ends the string. */
  predicate ChannelMatchAsWritten(channel: string) {
    ChannelOk(channel) ||
    (|channel| > 0 && channel[|channel| - 1] == '\n' && ChannelOk(channel[..|channel| - 1]))
  }

  /** The pattern as written lets a channel through that ends in a newline. */
  lemma ChannelNewlineAccepted()
    ensures ChannelMatchAsWritten("abc\n") && !ChannelOk("abc\n")
  {
    assert "abc\n"[..3] == "abc";
    assert !ChannelChar("abc\n"[3]);
  }

  /** A trailing newline is the only difference between the two checks. */
  lemma ChannelChecksDiffer(channel: string)
    ensures ChannelOk(channel) ==> ChannelMatchAsWritten(channel)
    ensures ChannelMatchAsWritten(channel) && !ChannelOk(channel) ==>
      |channel| > 0 && channel[|channel| - 1] == '\n'
  {
  }

  /** `headers.get(_X_GOOG_MAPS_EXPERIENCE_ID)`, with no headers dict at all
      counting as an empty one. */
  function GetExperience(h: Option<Headers>): (id: Option<string>)
    ensures id.Some? <==> h.Some? && ExperienceIdHeader in h.value
    ensures id.Some? ==> id.value == h.value[ExperienceIdHeader]
  {
    if h.Some? && ExperienceIdHeader in h.value then Some(h.value[ExperienceIdHeader]) else None
  }

  /** Client.clear_experience_id */
  function ClearExperience(h: Option<Headers>): (r: Option<Headers>)
    ensures r.Some? <==> h.Some?
    ensures GetExperience(r) == None
    ensures r.Some? ==> forall k :: k != ExperienceIdHeader ==> (k in r.value <==> k in h.value)
    ensures r.Some? ==> forall k :: k in r.value ==> r.value[k] == h.value[k]
  {
    if h.None? then None else Some(h.value - {ExperienceIdHeader})
  }

  /** The headers after set_experience_id, and the error it raised, if any. */
  datatype HeaderUpdate = HeaderUpdate(headers: Option<Headers>, error: Option<Error>)

  /** `len(experience_id_args) == 0 or experience_id_args[0] is None` */
  predicate ClearsExperience(args: seq<Value>) {
    args == [] || args[0] == NoneV
  }

  /** Client.set_experience_id as written: the headers dict is popped out of
      requests_kwargs before the arguments are joined, so a join that raises
      leaves requests_kwargs with no headers at all. */
  function SetExperienceAsWritten(h: Option<Headers>, args: seq<Value>): (r: HeaderUpdate)
    ensures ClearsExperience(args) ==> r == HeaderUpdate(ClearExperience(h), None)
    ensures !ClearsExperience(args) && !AllStrings(args) ==> r.headers == None && r.error.Some?
  {
    if ClearsExperience(args) then HeaderUpdate(ClearExperience(h), None)
    else
      var popped := if h.Some? then h.value else map[];
      match Join(",", args)
      case Ok(id) => HeaderUpdate(Some(popped[ExperienceIdHeader := id]), None)
      case Err(e) => HeaderUpdate(None, Some(e))
  }

  /** A failing set_experience_id("exp1", 2) loses every header, User-Agent included. */
  lemma SetExperienceLosesHeaders(userAgent: string)
    ensures var h := Some(map["User-Agent" := userAgent]);
      var r := SetExperienceAsWritten(h, [Str("exp1"), Int(2)]);
      r.error.Some? && r.error.value.TypeError? && r.headers == None && h.Some? && "User-Agent" in h.value
  {
    var args := [Str("exp1"), Int(2)];
    assert !args[1].Str?;
  }

  /** Client.set_experience_id as evidently intended: a join that raises
      leaves the headers as they were. */
  function SetExperience(h: Option<Headers>, args: seq<Value>): (r: HeaderUpdate)
    ensures ClearsExperience(args) ==> r == HeaderUpdate(ClearExperience(h), None)
    ensures !ClearsExperience(args) && AllStrings(args) ==>
      r.error == None && GetExperience(r.headers) == Some(JoinStrings(",", Strings(args)))
    ensures !ClearsExperience(args) && !AllStrings(args) ==>
      r.headers == h && r.error.Some? && r.error.value.TypeError?
    ensures r.error == None ==> SetExperienceAsWritten(h, args) == r
  {
    if ClearsExperience(args) then HeaderUpdate(ClearExperience(h), None)
    else
      match Join(",", args)
      case Ok(id) =>
        var popped := if h.Some? then h.value else map[];
        HeaderUpdate(Some(popped[ExperienceIdHeader := id]), None)
      case Err(e) => HeaderUpdate(h, Some(e))
  }

  /** Setting, clearing or failing to set the experience id leaves every other
      header as it was. */
  lemma {:induction false} SetExperienceKeepsOthers(h: Option<Headers>, args: seq<Value>, k: string)
    requires h.Some? && k != ExperienceIdHeader
    ensures var r := SetExperience(h, args).headers;
      r.Some? && (k in r.value <==> k in h.value) && (k in h.value ==> r.value[k] == h.value[k])
  {
    if ClearsExperience(args) {
      var r := ClearExperience(h);
      assert k in r.value ==> r.value[k] == h.value[k];
    }
  }

  /** set_experience_id("a", "b") makes get_experience_id() return "a,b";
      set_experience_id() and set_experience_id(None) make it return None. */
  lemma ExperienceRoundTrip(h: Option<Headers>, a: string, b: string)
    ensures GetExperience(SetExperience(h, [Str(a), Str(b)]).headers) == Some(a + "," + b)
    ensures GetExperience(SetExperience(h, []).headers) == None
    ensures GetExperience(SetExperience(h, [NoneV, Str(a)]).headers) == None
  {
    var args := [Str(a), Str(b)];
    assert AllStrings(args) && Strings(args) == [a, b];
    assert JoinStrings(",", [a, b]) == JoinStrings(",", [a]) + "," + b;
  }

  /** The headers of a new client: the caller's headers with User-Agent set,
      then set_experience_id(experience_id). */
  function InitialHeaders(user: Option<Headers>, version: string, experienceId: Value): (r: HeaderUpdate)
    ensures r.error.None? <==> experienceId.Str? || experienceId == NoneV
    ensures r.error.None? ==>
      && r.headers.Some?
      && "User-Agent" in r.headers.value
      && r.headers.value["User-Agent"] == "GoogleGeoApiClientPython/" + version
      && GetExperience(r.headers) == (if experienceId.Str? then Some(experienceId.s) else None)
    ensures r.error.None? && user.Some? ==> forall k :: k in user.value && k != ExperienceIdHeader && k != "User-Agent" ==>
      k in r.headers.value && r.headers.value[k] == user.value[k]
  {
    var base := if user.Some? then user.value else map[];
    var headers := Some(base["User-Agent" := "GoogleGeoApiClientPython/" + version]);
    var args := [experienceId];
    assert args[0] == experienceId;
    assert experienceId.Str? ==> JoinStrings(",", Strings(args)) == experienceId.s;
    var r := SetExperience(headers, args);
    forall k | k != ExperienceIdHeader ensures
      r.headers.Some? && (k in r.headers.value <==> k in headers.value) && (k in headers.value ==> r.headers.value[k] == headers.value[k])
    {
      SetExperienceKeepsOthers(headers, args, k);
    }
    r
  }

  /** Client.__init__: the credential, key, channel and timeout checks in
      order, then the settings. The channel is checked with the corrected
      pattern, ChannelOk. */
  function Configure(o: Options): (r: Result<Config>)
    ensures
      var c := o.credentials;
      var missing := c.key == "" && !Enterprise(c);
      var badKey := c.key != "" && !StartsWith(c.key, "AIza");
      var badChannel := c.channel != "" && !ChannelOk(c.channel);
      var mixed := Truthy(o.timeout) && (Truthy(o.connectTimeout) || Truthy(o.readTimeout));
      && (missing ==> r == Err(ValueError(MissingCredentialsMessage)))
      && (!missing && badKey ==> r == Err(ValueError(InvalidKeyMessage)))
      && (!missing && !badKey && badChannel ==> r == Err(ValueError(ChannelMessage)))
      && (!missing && !badKey && !badChannel && mixed ==> r == Err(ValueError(TimeoutMessage)))
      && (r.Ok? <==> !missing && !badKey && !badChannel && !mixed && (o.experienceId.Str? || o.experienceId == NoneV))
    ensures r.Ok? ==>
      && r.value.credentials == o.credentials
      && r.value.settings == Retry.Settings(o.retryTimeout, o.queriesPerSecond, o.retryOverQueryLimit)
      && r.value.timeout == (if Truthy(o.connectTimeout) && Truthy(o.readTimeout)
                             then Tuple([o.connectTimeout, o.readTimeout]) else o.timeout)
      && r.value.baseUrl == o.baseUrl
      && r.value.headers.Some?
      && "User-Agent" in r.value.headers.value
      && r.value.headers.value["User-Agent"] == "GoogleGeoApiClientPython/" + o.version
      && GetExperience(r.value.headers) == (if o.experienceId.Str? then Some(o.experienceId.s) else None)
  {
    var c := o.credentials;
    if c.key == "" && !Enterprise(c) then Err(ValueError(MissingCredentialsMessage))
    else if c.key != "" && !StartsWith(c.key, "AIza") then Err(ValueError(InvalidKeyMessage))
    else if c.channel != "" && !ChannelOk(c.channel) then Err(ValueError(ChannelMessage))
    else if Truthy(o.timeout) && (Truthy(o.connectTimeout) || Truthy(o.readTimeout)) then Err(ValueError(TimeoutMessage))
    else
      var timeout := if Truthy(o.connectTimeout) && Truthy(o.readTimeout) then Tuple([o.connectTimeout, o.readTimeout]) else o.timeout;
      var update := InitialHeaders(o.userHeaders, o.version, o.experienceId);
      if update.error.Some? then Err(update.error.value)
      else
        Ok(Config(c, Retry.Settings(o.retryTimeout, o.queriesPerSecond, o.retryOverQueryLimit), timeout,
          update.headers, o.baseUrl))
  }
}
