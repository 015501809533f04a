/** The Distance Matrix API endpoint of the Context interface
    (googlemaps/distance_matrix.py). */
module DistanceMatrix {
  import opened Maybe
  import opened Values
  import opened Exceptions
  import opened Builtins
  import opened Request
  import Text
  import Convert

  const DistanceMatrixPath := "/maps/api/distancematrix/json"

  /** The element conversion of _convert_path: a string as it is, anything
      else through latlng (which passes strings through as well). */
  function PathElement(k: Value): (r: Result<string>)
    ensures k.Str? ==> r == Ok(k.s)
    ensures r == Convert.Latlng(k)
  {
    if k.Str? then Ok(k.s) else Convert.Latlng(k)
  }

  /** The locations _convert_path visits: a single tuple is one location,
      anything else is coerced by as_list. */
  function PathItems(waypoints: Value): (r: seq<Value>)
    ensures waypoints.Tuple? ==> r == [waypoints]
    ensures waypoints.List? ==> r == waypoints.items
    ensures !Convert.IsList(waypoints) ==> r == [waypoints]
  {
    if waypoints.Tuple? then [waypoints] else Iterate(Convert.AsList(waypoints)).value
  }

  /** distance_matrix._convert_path: the locations converted one by one, in
      order, and joined with "|". */
  function ConvertPath(waypoints: Value): (r: Result<string>)
    ensures r.Ok? <==> forall i :: 0 <= i < |PathItems(waypoints)| ==> Convert.Latlng(PathItems(waypoints)[i]).Ok?
    ensures waypoints.Tuple? || !Convert.IsList(waypoints) ==> r == Convert.Latlng(waypoints)
  {
    var parts :- Convert.EachOf(PathElement, PathItems(waypoints));
    Ok(JoinStrings("|", parts))
  }

  /** A single tuple is sent exactly as the one-element list holding it. */
  lemma SingleTupleAsList(t: seq<Value>)
    ensures ConvertPath(Tuple(t)) == ConvertPath(List([Tuple(t)]))
  {
    assert PathItems(Tuple(t)) == PathItems(List([Tuple(t)]));
  }

  /** Origins given as a list of non-string locations are sent as their
      latlng strings: splitting the parameter on "|" gives them back. */
  lemma {:induction false} PathSplit(items: seq<Value>)
    requires items != [] && forall i :: 0 <= i < |items| ==> !items[i].Str? && Convert.Latlng(items[i]).Ok?
    ensures ConvertPath(List(items)).Ok?
    ensures var parts := Text.SplitOn('|', ConvertPath(List(items)).value);
      |parts| == |items| && forall i :: 0 <= i < |items| ==> parts[i] == Convert.Latlng(items[i]).value
  {
    var converted := Convert.EachOf(PathElement, items).value;
    forall i | 0 <= i < |items| ensures '|' !in converted[i] {
      Convert.LatlngHasNoPipe(items[i]);
    }
    Text.SplitJoin('|', converted);
  }

  /** The parameters distance_matrix sends: origins and destinations always,
      the rest only when truthy. */
  function MatrixSlots(origins: string, destinations: string, mode: Value, language: Value, avoid: Value,
                       units: Value, departureTime: Value): Slots
  {
    map["origins" := Some(Str(origins)), "destinations" := Some(Str(destinations)), "mode" := IfTruthy(mode),
        "language" := IfTruthy(language), "avoid" := IfTruthy(avoid), "units" := IfTruthy(units),
        "departure_time" := Convert.TimeSlot(departureTime)]
  }

  /** Origins and destinations are always present; mode, language, avoid
      (as given, not joined) and units only when truthy; the departure time
      through convert.time when truthy; nothing else. */
  lemma MatrixParams(origins: string, destinations: string, mode: Value, language: Value, avoid: Value,
                     units: Value, departureTime: Value)
    ensures var d := Collect(MatrixSlots(origins, destinations, mode, language, avoid, units, departureTime));
      && Get(d, "origins") == Some(Str(origins)) && Get(d, "destinations") == Some(Str(destinations))
      && Get(d, "mode") == IfTruthy(mode) && Get(d, "language") == IfTruthy(language)
      && Get(d, "avoid") == IfTruthy(avoid) && Get(d, "units") == IfTruthy(units)
      && (Get(d, "departure_time").Some? <==> Truthy(departureTime))
      && (Truthy(departureTime) ==> Get(d, "departure_time") == Some(Str(Convert.Time(departureTime))))
      && d.Keys <= {"origins", "destinations", "mode", "language", "avoid", "units", "departure_time"}
  {
    var s := MatrixSlots(origins, destinations, mode, language, avoid, units, departureTime);
    CollectGet(s, "origins");
    CollectGet(s, "destinations");
    CollectGet(s, "mode");
    CollectGet(s, "language");
    CollectGet(s, "avoid");
    CollectGet(s, "units");
    CollectGet(s, "departure_time");
  }

  /** distance_matrix.distance_matrix: the origins are converted first, then
      the destinations; the whole body is returned. */
  method DistanceMatrix(origins: Value, destinations: Value, mode: Value, language: Value, avoid: Value,
                        units: Value, departureTime: Value)
    returns (r: Result<ContextCall>)
    ensures ConvertPath(origins).Err? ==> r == Err(ConvertPath(origins).error)
    ensures ConvertPath(origins).Ok? && ConvertPath(destinations).Err? ==> r == Err(ConvertPath(destinations).error)
    ensures r.Ok? <==> ConvertPath(origins).Ok? && ConvertPath(destinations).Ok?
    ensures r.Ok? ==> var call := r.value; var d := call.params;
      && call.path == DistanceMatrixPath && call.post == Whole
      && Get(d, "origins") == Some(Str(ConvertPath(origins).value))
      && Get(d, "destinations") == Some(Str(ConvertPath(destinations).value))
      && Get(d, "mode") == IfTruthy(mode) && Get(d, "language") == IfTruthy(language)
      && Get(d, "avoid") == IfTruthy(avoid) && Get(d, "units") == IfTruthy(units)
      && Get(d, "departure_time") == Convert.TimeSlot(departureTime)
      && d.Keys <= {"origins", "destinations", "mode", "language", "avoid", "units", "departure_time"}
  {
    var o := ConvertPath(origins);
    if o.Err? {
      return Err(o.error);
    }
    var ds := ConvertPath(destinations);
    if ds.Err? {
      return Err(ds.error);
    }
    var params: Slots := map["origins" := Some(Str(o.value)), "destinations" := Some(Str(ds.value))];
    params := params["mode" := IfTruthy(mode)];
    params := params["language" := IfTruthy(language)];
    params := params["avoid" := IfTruthy(avoid)];
    params := params["units" := IfTruthy(units)];
    params := params["departure_time" := Convert.TimeSlot(departureTime)];
    MatrixParams(o.value, ds.value, mode, language, avoid, units, departureTime);
    assert params == MatrixSlots(o.value, ds.value, mode, language, avoid, units, departureTime);
    r := Ok(ContextCall(DistanceMatrixPath, Collect(params), Whole));
  }
}
