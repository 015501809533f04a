/** The Directions API endpoint of the Context interface (googlemaps/directions.py). */
module Directions {
  import opened Maybe
  import opened Values
  import opened Exceptions
  import opened Request
  import Text
  import Convert

  const DirectionsPath := "/maps/api/directions/json"
  const TravelModes: seq<string> := ["driving", "walking", "bicycling", "transit"]
  const TravelModeMessage := "Invalid travel mode."

  /** directions._convert_waypoint: a string is sent as it is, anything else
      through latlng. Since latlng passes strings through too, the two agree
      on every value. */
  function ConvertWaypoint(waypoint: Value): (r: Result<string>)
    ensures waypoint.Str? ==> r == Ok(waypoint.s)
    ensures r == Convert.Latlng(waypoint)
  {
    if !waypoint.Str? then Convert.Latlng(waypoint) else Ok(waypoint.s)
  }

  /** `mode not in [...]`: list membership by equality, so any value that is
      not one of the four strings is refused. */
  predicate KnownMode(mode: Value) {
    mode.Str? && mode.s in TravelModes
  }

  /** The waypoints sent for `if waypoints: ...`: each one converted, in
      order, and joined with "|"; nothing when waypoints is falsy. */
  function TruthyWaypoints(waypoints: Value): (r: Result<Option<string>>)
    ensures !Truthy(waypoints) ==> r == Ok(None)
    ensures Truthy(waypoints) && !Convert.IsList(waypoints) ==>
      r.Ok? == ConvertWaypoint(waypoints).Ok? && (r.Ok? ==> r.value == Some(ConvertWaypoint(waypoints).value))
  {
    if Truthy(waypoints) then
      var joined :- Convert.JoinEach("|", ConvertWaypoint, waypoints);
      Ok(Some(joined))
    else Ok(None)
  }

  /** The arguments directions lets through. */
  predicate DirectionsAccepts(origin: Value, destination: Value, mode: Value, waypoints: Value, avoid: Value) {
    && ConvertWaypoint(origin).Ok?
    && ConvertWaypoint(destination).Ok?
    && (Truthy(mode) ==> KnownMode(mode))
    && TruthyWaypoints(waypoints).Ok?
    && Convert.TruthyJoinList("|", avoid).Ok?
  }

  /** What the checks of directions convert along the way. */
  datatype Converted = Converted(origin: string, destination: string, waypoints: Option<string>,
                                 avoid: Option<string>)

  /** The conversions and the check of directions that can fail, in the order
      the code runs them: origin, destination, the mode, the waypoints, avoid. */
  function DirectionsCheck(origin: Value, destination: Value, mode: Value, waypoints: Value, avoid: Value)
    : (r: Result<Converted>)
    ensures ConvertWaypoint(origin).Err? ==> r == Err(ConvertWaypoint(origin).error)
    ensures ConvertWaypoint(origin).Ok? && ConvertWaypoint(destination).Err? ==>
      r == Err(ConvertWaypoint(destination).error)
    ensures (ConvertWaypoint(origin).Ok? && ConvertWaypoint(destination).Ok? && Truthy(mode) && !KnownMode(mode))
      ==> r == Err(PlainException(TravelModeMessage))
    ensures r.Ok? <==> DirectionsAccepts(origin, destination, mode, waypoints, avoid)
    ensures r.Ok? ==> r.value == Converted(ConvertWaypoint(origin).value, ConvertWaypoint(destination).value,
                                           TruthyWaypoints(waypoints).value,
                                           Convert.TruthyJoinList("|", avoid).value)
  {
    var o :- ConvertWaypoint(origin);
    var d :- ConvertWaypoint(destination);
    if Truthy(mode) && !KnownMode(mode) then Err(PlainException(TravelModeMessage))
    else
      var w :- TruthyWaypoints(waypoints);
      var a :- Convert.TruthyJoinList("|", avoid);
      Ok(Converted(o, d, w, a))
  }

  /** The parameters directions sends: origin and destination always, the
      rest when their argument is truthy, alternatives as the string "true". */
  function DirectionsSlots(c: Converted, mode: Value, alternatives: Value, language: Value, units: Value,
                           region: Value, departureTime: Value, arrivalTime: Value): Slots
  {
    map["origin" := Some(Str(c.origin)), "destination" := Some(Str(c.destination)), "mode" := IfTruthy(mode),
        "waypoints" := Computed(c.waypoints),
        "alternatives" := IfFlag(alternatives), "avoid" := Computed(c.avoid),
        "language" := IfTruthy(language), "units" := IfTruthy(units), "region" := IfTruthy(region),
        "departure_time" := Convert.TimeSlot(departureTime), "arrival_time" := Convert.TimeSlot(arrivalTime)]
  }

  const DirectionsKeys: set<string> := {"origin", "destination", "mode", "waypoints", "alternatives", "avoid",
    "language", "units", "region", "departure_time", "arrival_time"}

  /** Origin and destination are always sent; the mode, waypoints, alternatives
      and avoid exactly when given. */
  lemma DirectionsParamsHead(c: Converted, mode: Value, alternatives: Value, language: Value, units: Value,
                             region: Value, departureTime: Value, arrivalTime: Value)
    ensures var d := Collect(DirectionsSlots(c, mode, alternatives, language, units, region, departureTime,
                                             arrivalTime));
      && Get(d, "origin") == Some(Str(c.origin)) && Get(d, "destination") == Some(Str(c.destination))
      && Get(d, "mode") == IfTruthy(mode) && Get(d, "waypoints") == Computed(c.waypoints)
      && (Get(d, "alternatives").Some? <==> Truthy(alternatives))
      && (Truthy(alternatives) ==> Get(d, "alternatives") == Some(Str("true")))
      && Get(d, "avoid") == Computed(c.avoid)
  {
    var s := DirectionsSlots(c, mode, alternatives, language, units, region, departureTime, arrivalTime);
    CollectGet(s, "origin");
    CollectGet(s, "destination");
    CollectGet(s, "mode");
    CollectGet(s, "waypoints");
    CollectGet(s, "alternatives");
    CollectGet(s, "avoid");
  }

  /** Language, units and region are sent as given when truthy; the two times
      through convert.time, and only when truthy; nothing else is sent. */
  lemma DirectionsParamsTail(c: Converted, mode: Value, alternatives: Value, language: Value, units: Value,
                             region: Value, departureTime: Value, arrivalTime: Value)
    ensures var d := Collect(DirectionsSlots(c, mode, alternatives, language, units, region, departureTime,
                                             arrivalTime));
      && Get(d, "language") == IfTruthy(language) && Get(d, "units") == IfTruthy(units)
      && Get(d, "region") == IfTruthy(region)
      && (Get(d, "departure_time").Some? <==> Truthy(departureTime))
      && (Truthy(departureTime) ==> Get(d, "departure_time") == Some(Str(Convert.Time(departureTime))))
      && (Get(d, "arrival_time").Some? <==> Truthy(arrivalTime))
      && (Truthy(arrivalTime) ==> Get(d, "arrival_time") == Some(Str(Convert.Time(arrivalTime))))
      && d.Keys <= DirectionsKeys
  {
    var s := DirectionsSlots(c, mode, alternatives, language, units, region, departureTime, arrivalTime);
    CollectGet(s, "language");
    CollectGet(s, "units");
    CollectGet(s, "region");
    CollectGet(s, "departure_time");
    CollectGet(s, "arrival_time");
  }

  /** directions.directions, proved against DirectionsSlots: no request is
      made unless every check passes, and then the routes of the body are
      returned. */
  method Directions(origin: Value, destination: Value, mode: Value, waypoints: Value, alternatives: Value,
                    avoid: Value, language: Value, units: Value, region: Value, departureTime: Value,
                    arrivalTime: Value)
    returns (r: Result<ContextCall>)
    ensures r.Err? <==> DirectionsCheck(origin, destination, mode, waypoints, avoid).Err?
    ensures r.Err? ==> r.error == DirectionsCheck(origin, destination, mode, waypoints, avoid).error
    ensures r.Ok? ==>
      r.value == ContextCall(DirectionsPath,
                             Collect(DirectionsSlots(DirectionsCheck(origin, destination, mode, waypoints, avoid).value,
                                                     mode, alternatives, language, units, region, departureTime,
                                                     arrivalTime)),
                             IndexKey("routes"))
  {
    var checked := DirectionsCheck(origin, destination, mode, waypoints, avoid);
    if checked.Err? {
      return Err(checked.error);
    }
    var c := checked.value;
    var params: Slots := map["origin" := Some(Str(c.origin)), "destination" := Some(Str(c.destination))];
    params := params["mode" := IfTruthy(mode)];
    params := params["waypoints" := Computed(c.waypoints)];
    params := params["alternatives" := IfFlag(alternatives)];
    params := params["avoid" := Computed(c.avoid)];
    params := params["language" := IfTruthy(language)];
    params := params["units" := IfTruthy(units)];
    params := params["region" := IfTruthy(region)];
    params := params["departure_time" := Convert.TimeSlot(departureTime)];
    params := params["arrival_time" := Convert.TimeSlot(arrivalTime)];
    assert params == DirectionsSlots(c, mode, alternatives, language, units, region, departureTime, arrivalTime);
    r := Ok(ContextCall(DirectionsPath, Collect(params), IndexKey("routes")));
  }

  /** A mode outside the four travel modes is refused before any request,
      once origin and destination have converted; every one of the four is
      accepted. */
  lemma UnknownModeRefused(origin: Value, destination: Value, mode: Value, waypoints: Value, avoid: Value)
    requires ConvertWaypoint(origin).Ok? && ConvertWaypoint(destination).Ok?
    ensures Truthy(mode) && !KnownMode(mode) ==>
      DirectionsCheck(origin, destination, mode, waypoints, avoid) == Err(PlainException(TravelModeMessage))
    ensures forall m :: m in TravelModes ==> KnownMode(Str(m))
    ensures !KnownMode(Str("flying")) && !KnownMode(Str("Driving"))
  {
  }

  /** A list of waypoints is sent as the conversions of its elements, in
      order: splitting the parameter on "|" gives them back when none of
      them is a string (latlng never writes a "|"). */
  lemma {:induction false} WaypointsSplit(items: seq<Value>)
    requires items != [] && forall i :: 0 <= i < |items| ==> !items[i].Str? && Convert.Latlng(items[i]).Ok?
    ensures TruthyWaypoints(List(items)).Ok? && TruthyWaypoints(List(items)).value.Some?
    ensures var parts := Text.SplitOn('|', TruthyWaypoints(List(items)).value.value);
      |parts| == |items| && forall i :: 0 <= i < |items| ==> parts[i] == Convert.Latlng(items[i]).value
  {
    assert Truthy(List(items));
    var converted := Convert.EachOf(ConvertWaypoint, items).value;
    forall i | 0 <= i < |items| ensures '|' !in converted[i] {
      Convert.LatlngHasNoPipe(items[i]);
    }
    Text.SplitJoin('|', converted);
  }
}
