/** The Geolocation API endpoint (googlemaps/geolocation.py). */
module Geolocation {
  import opened Maybe
  import opened Values
  import opened Exceptions
  import opened Builtins
  import opened Request

  const GeolocationBaseUrl := "https://www.googleapis.com"

  /** body["error"]["errors"][0]["reason"] */
  function ReasonChain(body: Value): Result<Value> {
    var error :- Index(body, Str("error"));
    var errors :- Index(error, Str("errors"));
    var first :- Index(errors, Int(0));
    Index(first, Str("reason"))
  }

  /** The reason of an error body, with a missing key read as None; any other
      failure of the lookup escapes. */
  function Reason(body: Value): (r: Result<Value>)
    ensures r.Err? ==> !r.error.KeyError? && r == ReasonChain(body)
    ensures ReasonChain(body).Ok? ==> r == ReasonChain(body)
  {
    var chain := ReasonChain(body);
    if chain.Err? && chain.error.KeyError? then Ok(NoneV) else chain
  }

  /** geolocation._geolocation_extract */
  function Extract(resp: Response): (r: Result<Value>)
    ensures resp.json.None? ==> r == Err(JsonDecodeError)
    ensures resp.json.Some? && (resp.statusCode == 200 || resp.statusCode == 404) ==> r == Ok(resp.json.value)
    ensures r.Ok? ==> (resp.statusCode == 200 || resp.statusCode == 404) && resp.json == Some(r.value)
    ensures resp.json.Some? && resp.statusCode == 403 && Reason(resp.json.value).Ok? ==>
      r == Err(OverQueryLimit(Int(403), Reason(resp.json.value).value))
    ensures resp.json.Some? && resp.statusCode !in {200, 403, 404} && Reason(resp.json.value).Ok? ==>
      r == Err(ApiError(Int(resp.statusCode), Reason(resp.json.value).value))
  {
    var body :- Json(resp);
    if resp.statusCode == 200 || resp.statusCode == 404 then Ok(body)
    else
      var reason :- Reason(body);
      if resp.statusCode == 403 then Err(OverQueryLimit(Int(resp.statusCode), reason))
      else Err(ApiError(Int(resp.statusCode), reason))
  }

  /** A 403 answer is the only retriable one; an error body without the
      nested reason still classifies, with reason None. */
  lemma ForbiddenIsQuota(code: int, body: seq<(string, Value)>)
    requires code != 200 && code != 404 && !HasKey(body, "error")
    ensures var r := Extract(Response(code, Some(Dict(body))));
      r.Err? && IsApiError(r.error) && (IsRetriable(r.error) <==> code == 403) &&
      r.error.message == NoneV && r.error.status == Int(code)
  {
    assert ReasonChain(Dict(body)) == Err(KeyError(Str("error")));
  }

  /** The statements of geolocation.geolocate that fill the JSON body. */
  function GeolocateSlots(homeMobileCountryCode: Value, homeMobileNetworkCode: Value, radioType: Value,
                          carrier: Value, considerIp: Value, cellTowers: Value, wifiAccessPoints: Value): Slots
  {
    map["homeMobileCountryCode" := IfNotNone(homeMobileCountryCode),
        "homeMobileNetworkCode" := IfNotNone(homeMobileNetworkCode),
        "radioType" := IfNotNone(radioType),
        "carrier" := IfNotNone(carrier),
        "considerIp" := IfNotNone(considerIp),
        "cellTowers" := IfNotNone(cellTowers),
        "wifiAccessPoints" := IfNotNone(wifiAccessPoints)]
  }

  /** Each field is in the body exactly when it is not None, with its own value,
      and nothing else is. */
  lemma GeolocateBody(homeMobileCountryCode: Value, homeMobileNetworkCode: Value, radioType: Value,
                      carrier: Value, considerIp: Value, cellTowers: Value, wifiAccessPoints: Value)
    ensures var body := Collect(GeolocateSlots(homeMobileCountryCode, homeMobileNetworkCode, radioType,
                                               carrier, considerIp, cellTowers, wifiAccessPoints));
      && Get(body, "homeMobileCountryCode") == IfNotNone(homeMobileCountryCode)
      && Get(body, "homeMobileNetworkCode") == IfNotNone(homeMobileNetworkCode)
      && Get(body, "radioType") == IfNotNone(radioType)
      && Get(body, "carrier") == IfNotNone(carrier)
      && Get(body, "considerIp") == IfNotNone(considerIp)
      && Get(body, "cellTowers") == IfNotNone(cellTowers)
      && Get(body, "wifiAccessPoints") == IfNotNone(wifiAccessPoints)
      && body.Keys <= {"homeMobileCountryCode", "homeMobileNetworkCode", "radioType",
                       "carrier", "considerIp", "cellTowers", "wifiAccessPoints"}
  {
    var s := GeolocateSlots(homeMobileCountryCode, homeMobileNetworkCode, radioType,
                            carrier, considerIp, cellTowers, wifiAccessPoints);
    CollectGet(s, "homeMobileCountryCode");
    CollectGet(s, "homeMobileNetworkCode");
    CollectGet(s, "radioType");
    CollectGet(s, "carrier");
    CollectGet(s, "considerIp");
    CollectGet(s, "cellTowers");
    CollectGet(s, "wifiAccessPoints");
  }

  /** geolocation.geolocate: each field that is not None goes into the JSON
      body under its camelCase name (GeolocateBody); the query string carries
      nothing. */
  method Geolocate(homeMobileCountryCode: Value, homeMobileNetworkCode: Value, radioType: Value,
                   carrier: Value, considerIp: Value, cellTowers: Value, wifiAccessPoints: Value)
    returns (call: ApiCall)
    ensures call.params == DictParams(map[])
    ensures call.baseUrl == Some(GeolocationBaseUrl) && call.extractor == GeolocationBody && call.acceptsClientId
    ensures call.path == "/geolocation/v1/geolocate" && call.post == Whole && !call.stream
    ensures call.postJson.Some?
    ensures Get(call.postJson.value, "homeMobileCountryCode") == IfNotNone(homeMobileCountryCode)
    ensures Get(call.postJson.value, "homeMobileNetworkCode") == IfNotNone(homeMobileNetworkCode)
    ensures Get(call.postJson.value, "radioType") == IfNotNone(radioType)
    ensures Get(call.postJson.value, "carrier") == IfNotNone(carrier)
    ensures Get(call.postJson.value, "considerIp") == IfNotNone(considerIp)
    ensures Get(call.postJson.value, "cellTowers") == IfNotNone(cellTowers)
    ensures Get(call.postJson.value, "wifiAccessPoints") == IfNotNone(wifiAccessPoints)
    ensures call.postJson.value.Keys <= {"homeMobileCountryCode", "homeMobileNetworkCode", "radioType",
      "carrier", "considerIp", "cellTowers", "wifiAccessPoints"}
  {
    var params: Slots := map[];
    params := params["homeMobileCountryCode" := IfNotNone(homeMobileCountryCode)];
    params := params["homeMobileNetworkCode" := IfNotNone(homeMobileNetworkCode)];
    params := params["radioType" := IfNotNone(radioType)];
    params := params["carrier" := IfNotNone(carrier)];
    params := params["considerIp" := IfNotNone(considerIp)];
    params := params["cellTowers" := IfNotNone(cellTowers)];
    params := params["wifiAccessPoints" := IfNotNone(wifiAccessPoints)];
    GeolocateBody(homeMobileCountryCode, homeMobileNetworkCode, radioType,
                  carrier, considerIp, cellTowers, wifiAccessPoints);
    assert params == GeolocateSlots(homeMobileCountryCode, homeMobileNetworkCode, radioType,
                                    carrier, considerIp, cellTowers, wifiAccessPoints);
    call := ApiCall("/geolocation/v1/geolocate", DictParams(map[]), Some(GeolocationBaseUrl), true, GeolocationBody,
      Some(Collect(params)), false, Whole);
  }
}
