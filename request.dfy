/** What an endpoint function hands to the executor, what the transport hands
    back, and the post-processing the endpoint applies to the executor's result. */
module Request {
  import opened Maybe
  import opened Values
  import opened Exceptions
  import opened Builtins

  /** An HTTP response: its status code and its body decoded as JSON, or None
      when the body is not JSON. */
  datatype Response = Response(statusCode: int, json: Option<Value>)

  /** What happened to one HTTP request. */
  datatype Outcome =
    | Answered(response: Response)
      /** requests.exceptions.Timeout */
    | TimedOut
      /** Any other exception raised by the transport, by its str(). */
    | Failed(cause: string)

  /** One scripted transport reply and the seconds it took. */
  datatype Reply = Reply(outcome: Outcome, latency: real)

  /** The query parameters of a call: a dict, or a list of (key, value) pairs. */
  datatype Params = DictParams(entries: map<string, Value>) | ListParams(pairs: seq<(string, Value)>)

  /** The extract_body argument of Client._request. */
  datatype Extractor =
    | DefaultBody            // None: Client._get_body
    | RoadsBody              // roads._roads_extract
    | GeolocationBody        // geolocation._geolocation_extract
    | AddressValidationBody  // addressvalidation._addressvalidation_extract
    | RawResponse            // lambda response: response

  /** What the executor returns: a decoded body, or the response itself. */
  datatype Payload = Body(body: Value) | Raw(response: Response)

  /** What the endpoint function does with the executor's result. */
  datatype Post =
    | Whole                           // return it as it is
    | GetOr(key: string, default: Value)  // result.get(key, default)
    | IndexKey(key: string)           // result[key]

  /** The arguments of one Client._request call. */
  datatype ApiCall = ApiCall(
    path: string,
    params: Params,
    baseUrl: Option<string>,
    acceptsClientId: bool,
    extractor: Extractor,
    postJson: Option<map<string, Value>>,
    stream: bool,
    post: Post)

  /** A call with the executor's defaults: a GET, the client's base URL,
      client IDs accepted, the default extractor. */
  function DefaultCall(path: string, params: Params, post: Post): (c: ApiCall)
    ensures c.path == path && c.params == params && c.post == post
    ensures c.baseUrl == None && c.acceptsClientId && c.extractor == DefaultBody
    ensures c.postJson == None && !c.stream
  {
    ApiCall(path, params, None, true, DefaultBody, None, false, post)
  }

  /** The arguments of one common._get call made by an endpoint function of
      the older Context interface, and what the endpoint then does with the
      body it returns. */
  datatype ContextCall = ContextCall(path: string, params: map<string, Value>, post: Post)

  /** response.json() */
  function Json(r: Response): (v: Result<Value>)
    ensures v.Ok? <==> r.json.Some?
    ensures v.Ok? ==> v.value == r.json.value
    ensures v.Err? ==> v.error == JsonDecodeError
  {
    match r.json
    case Some(b) => Ok(b)
    case None => Err(JsonDecodeError)
  }

  /** The endpoint's post-processing of what the executor returned. */
  function Finish(post: Post, p: Payload): (r: Result<Payload>)
    ensures post.Whole? ==> r == Ok(p)
    ensures post.GetOr? && p.Body? && p.body.Dict? ==>
      r == Ok(Body(if HasKey(p.body.entries, post.key) then Lookup(p.body.entries, post.key).value else post.default))
    ensures post.IndexKey? && p.Body? && p.body.Dict? ==>
      (r.Ok? <==> HasKey(p.body.entries, post.key)) &&
      (r.Ok? ==> r == Ok(Body(Lookup(p.body.entries, post.key).value)))
    ensures post.IndexKey? && p.Body? && p.body.Dict? && r.Err? ==> r.error == KeyError(Str(post.key))
  {
    match post
    case Whole => Ok(p)
    case GetOr(k, d) =>
      if p.Body? then
        var v :- DictGet(p.body, k, d);
        Ok(Body(v))
      else Err(AttributeError("get"))
    case IndexKey(k) =>
      if p.Body? then
        var v :- Index(p.body, Str(k));
        Ok(Body(v))
      else Err(TypeError("'Response' object is not subscriptable"))
  }

  /** The clock that time.sleep advances and datetime.now / time.time read. */
  class Clock {
    var now: real

    constructor (start: real)
      ensures now == start
    {
      now := start;
    }
  }

  /** A Python dict the caller owns and a callee may update in place. */
  class PyDict {
    var entries: map<string, Value>

    constructor (es: map<string, Value>)
      ensures entries == es
    {
      entries := es;
    }
  }
}
