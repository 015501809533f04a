/** How Client._request turns an HTTP response into its result: the default
    body classifier Client._get_body, or the endpoint's own extractor. */
module ClientBody {
  import opened Maybe
  import opened Values
  import opened Exceptions
  import opened Builtins
  import opened Request
  import Roads
  import Geolocation
  import AddressValidation

  /** The statuses that mean success. */
  predicate IsSuccessStatus(status: Value) {
    status == Str("OK") || status == Str("ZERO_RESULTS")
  }

  /** Client._get_body */
  function GetBody(resp: Response): (r: Result<Value>)
    ensures resp.statusCode != 200 ==> r == Err(HTTPError(resp.statusCode))
    ensures resp.statusCode == 200 && resp.json.None? ==> r == Err(JsonDecodeError)
    ensures r.Ok? ==>
      && resp.statusCode == 200 && resp.json == Some(r.value)
      && r.value.Dict? && HasKey(r.value.entries, "status")
      && IsSuccessStatus(Lookup(r.value.entries, "status").value)
    ensures r.Err? && IsRetriable(r.error) ==> r.error.OverQueryLimit? && r.error.status == Str("OVER_QUERY_LIMIT")
  {
    if resp.statusCode != 200 then Err(HTTPError(resp.statusCode))
    else
      var body :- Json(resp);
      var apiStatus :- Index(body, Str("status"));
      if IsSuccessStatus(apiStatus) then Ok(body)
      else
        assert body.Dict?;
        var message := DictGet(body, "error_message", NoneV).value;
        if apiStatus == Str("OVER_QUERY_LIMIT") then Err(OverQueryLimit(apiStatus, message))
        else Err(ApiError(apiStatus, message))
  }

  /** body.get("error_message") on a dict. */
  function ErrorMessage(es: seq<(string, Value)>): Value {
    if HasKey(es, "error_message") then Lookup(es, "error_message").value else NoneV
  }

  /** The four outcomes of a status-200 JSON object: its status decides, and a
      failing status carries the error_message entry, or None. */
  lemma GetBodyClassifies(es: seq<(string, Value)>)
    ensures var r := GetBody(Response(200, Some(Dict(es))));
      && (!HasKey(es, "status") ==> r == Err(KeyError(Str("status"))))
      && (HasKey(es, "status") ==>
            var status := Lookup(es, "status").value;
            && (IsSuccessStatus(status) ==> r == Ok(Dict(es)))
            && (status == Str("OVER_QUERY_LIMIT") ==> r == Err(OverQueryLimit(status, ErrorMessage(es))))
            && (!IsSuccessStatus(status) && status != Str("OVER_QUERY_LIMIT") ==>
                  r == Err(ApiError(status, ErrorMessage(es)))))
  {
  }

  /** A 200 answer whose body is not a JSON object fails without being retried. */
  lemma GetBodyNotObject(v: Value)
    requires !v.Dict?
    ensures var r := GetBody(Response(200, Some(v)));
      r.Err? && !IsRetriable(r.error) && !IsApiError(r.error)
  {
  }

  /** Which classifier runs: the endpoint's extract_body, or _get_body. */
  function Extract(extractor: Extractor, resp: Response): (r: Result<Payload>)
    ensures extractor.RawResponse? ==> r == Ok(Raw(resp))
    ensures r.Err? ==> !r.error.Timeout?
    ensures r.Ok? && !extractor.RawResponse? ==> r.value.Body? && resp.json == Some(r.value.body)
    ensures extractor.DefaultBody? ==>
      (r.Ok? <==> GetBody(resp).Ok?) && (r.Err? ==> r.error == GetBody(resp).error)
  {
    match extractor
    case DefaultBody =>
      var b :- GetBody(resp);
      Ok(Body(b))
    case RoadsBody =>
      var b :- Roads.Extract(resp);
      Ok(Body(b))
    case GeolocationBody =>
      var b :- Geolocation.Extract(resp);
      Ok(Body(b))
    case AddressValidationBody =>
      var b :- AddressValidation.Extract(resp);
      Ok(Body(b))
    case RawResponse => Ok(Raw(resp))
  }
}
