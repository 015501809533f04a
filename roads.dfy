/** The Roads API endpoints (googlemaps/roads.py): their requests and the
    Roads-specific response classifier. */
module Roads {
  import opened Maybe
  import opened Values
  import opened Exceptions
  import opened Builtins
  import opened Request
  import Convert

  const RoadsBaseUrl := "https://roads.googleapis.com"

  /** The error a Roads "error" envelope describes: RESOURCE_EXHAUSTED is the
      retriable quota error, any other status a plain ApiError. */
  function EnvelopeError(j: Value): (r: Result<Value>)
    ensures r.Err?
  {
    var error :- Index(j, Str("error"));
    var status :- Index(error, Str("status"));
    var message :- DictGet(error, "message", NoneV);
    if status == Str("RESOURCE_EXHAUSTED") then Err(OverQueryLimit(status, message))
    else Err(ApiError(status, message))
  }

  /** roads._roads_extract */
  function Extract(resp: Response): (r: Result<Value>)
    ensures resp.json.None? && resp.statusCode != 200 ==> r == Err(HTTPError(resp.statusCode))
    ensures resp.json.None? && resp.statusCode == 200 ==>
      r == Err(ApiError(Str("UNKNOWN_ERROR"), Str("Received a malformed response.")))
    ensures resp.json.Some? && Contains(resp.json.value, Str("error")) == Ok(false) ==>
      r == (if resp.statusCode != 200 then Err(HTTPError(resp.statusCode)) else Ok(resp.json.value))
    ensures r.Ok? ==> resp.statusCode == 200 && resp.json == Some(r.value)
  {
    match resp.json
    case None =>
      if resp.statusCode != 200 then Err(HTTPError(resp.statusCode))
      else Err(ApiError(Str("UNKNOWN_ERROR"), Str("Received a malformed response.")))
    case Some(j) =>
      var hasError :- Contains(j, Str("error"));
      if hasError then EnvelopeError(j)
      else if resp.statusCode != 200 then Err(HTTPError(resp.statusCode))
      else Ok(j)
  }

  /** An error envelope decides the outcome whatever the HTTP status:
      RESOURCE_EXHAUSTED gives the retriable quota error, any other status an
      ApiError, both carrying the envelope's message (None when absent). */
  lemma EnvelopeWins(code: int, envelope: seq<(string, Value)>, error: seq<(string, Value)>)
    requires HasKey(envelope, "error") && Lookup(envelope, "error") == Some(Dict(error))
    requires HasKey(error, "status")
    ensures var status := Lookup(error, "status").value;
      var message := if HasKey(error, "message") then Lookup(error, "message").value else NoneV;
      Extract(Response(code, Some(Dict(envelope)))) ==
        if status == Str("RESOURCE_EXHAUSTED") then Err(OverQueryLimit(status, message))
        else Err(ApiError(status, message))
  {
  }

  /** A quota envelope is both an ApiError and retriable; any other envelope
      is an ApiError that is not retried. */
  lemma EnvelopeRetriable(code: int, envelope: seq<(string, Value)>, error: seq<(string, Value)>)
    requires HasKey(envelope, "error") && Lookup(envelope, "error") == Some(Dict(error))
    requires HasKey(error, "status")
    ensures var r := Extract(Response(code, Some(Dict(envelope))));
      r.Err? && IsApiError(r.error) &&
      (IsRetriable(r.error) <==> Lookup(error, "status") == Some(Str("RESOURCE_EXHAUSTED")))
  {
    EnvelopeWins(code, envelope, error);
  }

  /** roads.snap_to_roads; convert.location_list is not part of this model and
      is taken as a parameter. */
  method SnapToRoads(path: Value, interpolate: Value, locationList: Value -> string) returns (call: ApiCall)
    ensures call.params.DictParams?
    ensures Get(call.params.entries, "path") == Some(Str(locationList(path)))
    ensures Get(call.params.entries, "interpolate") == IfFlag(interpolate)
    ensures call.params.entries.Keys <= {"path", "interpolate"}
    ensures call == ApiCall("/v1/snapToRoads", call.params, Some(RoadsBaseUrl), false, RoadsBody, None, false,
      GetOr("snappedPoints", List([])))
  {
    var params := map["path" := Str(locationList(path))];
    if Truthy(interpolate) {
      params := params["interpolate" := Str("true")];
    }
    call := ApiCall("/v1/snapToRoads", DictParams(params), Some(RoadsBaseUrl), false, RoadsBody, None, false,
      GetOr("snappedPoints", List([])));
  }

  /** roads.nearest_roads */
  function NearestRoads(points: Value, locationList: Value -> string): (call: ApiCall)
    ensures call.params == DictParams(map["points" := Str(locationList(points))])
    ensures !call.acceptsClientId && call.baseUrl == Some(RoadsBaseUrl) && call.extractor == RoadsBody
    ensures call.post == GetOr("snappedPoints", List([]))
  {
    ApiCall("/v1/nearestRoads", DictParams(map["points" := Str(locationList(points))]), Some(RoadsBaseUrl), false,
      RoadsBody, None, false, GetOr("snappedPoints", List([])))
  }

  /** The parameter list of roads.speed_limits: one ("placeId", id) pair per
      element of as_list(place_ids). */
  function SpeedLimitParams(placeIds: Value): (r: seq<(string, Value)>)
    ensures (placeIds.List? || placeIds.Tuple?) ==>
      |r| == |placeIds.items| && forall i :: 0 <= i < |placeIds.items| ==> r[i] == ("placeId", placeIds.items[i])
    ensures !Convert.IsList(placeIds) ==> r == [("placeId", placeIds)]
  {
    var ids := Iterate(Convert.AsList(placeIds)).value;
    seq(|ids|, i requires 0 <= i < |ids| => ("placeId", ids[i]))
  }

  /** roads.speed_limits */
  function SpeedLimits(placeIds: Value): (call: ApiCall)
    ensures call.params.ListParams? && call.params.pairs == SpeedLimitParams(placeIds)
    ensures !call.acceptsClientId && call.baseUrl == Some(RoadsBaseUrl) && call.extractor == RoadsBody
    ensures call.post == GetOr("speedLimits", List([]))
  {
    ApiCall("/v1/speedLimits", ListParams(SpeedLimitParams(placeIds)), Some(RoadsBaseUrl), false,
      RoadsBody, None, false, GetOr("speedLimits", List([])))
  }

  /** roads.snapped_speed_limits: the whole body is returned. */
  function SnappedSpeedLimits(path: Value, locationList: Value -> string): (call: ApiCall)
    ensures call.params == DictParams(map["path" := Str(locationList(path))])
    ensures !call.acceptsClientId && call.baseUrl == Some(RoadsBaseUrl) && call.extractor == RoadsBody
    ensures call.post == Whole
  {
    ApiCall("/v1/speedLimits", DictParams(map["path" := Str(locationList(path))]), Some(RoadsBaseUrl), false,
      RoadsBody, None, false, Whole)
  }
}
