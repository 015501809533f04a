/** The Elevation API endpoints of the Context interface (googlemaps/elevation.py). */
module Elevation {
  import opened Values
  import opened Exceptions
  import opened Request
  import opened Text
  import Builtins
  import Convert
  import DistanceMatrix

  const ElevationPath := "/maps/api/elevation/json"

  /** The locations parameter of elevation: a single tuple is wrapped into a
      one-element list, then every location goes through latlng and the
      results are joined with "|". */
  function Locations(locations: Value): (r: Result<string>)
    ensures locations.Tuple? ==> r == Convert.Latlng(locations)
    ensures locations.List? ==>
      (r.Ok? <==> forall i :: 0 <= i < |locations.items| ==> Convert.Latlng(locations.items[i]).Ok?)
  {
    Convert.JoinEach("|", Convert.Latlng, if locations.Tuple? then List([locations]) else locations)
  }

  /** elevation.elevation: one parameter, and the results of the body. */
  method Elevation(locations: Value) returns (r: Result<ContextCall>)
    ensures r.Err? <==> Locations(locations).Err?
    ensures r.Err? ==> r.error == Locations(locations).error
    ensures r.Ok? ==>
      r.value == ContextCall(ElevationPath, map["locations" := Str(Locations(locations).value)], IndexKey("results"))
  {
    var params: map<string, Value> := map[];
    var wrapped := locations;
    if locations.Tuple? {
      wrapped := List([locations]);
    }
    var joined := Convert.JoinEach("|", Convert.Latlng, wrapped);
    if joined.Err? {
      return Err(joined.error);
    }
    params := params["locations" := Str(joined.value)];
    r := Ok(ContextCall(ElevationPath, params, IndexKey("results")));
  }

  /** elevation and distance_matrix encode locations alike: both wrap a
      single tuple and send strings unchanged, since latlng passes them
      through. */
  lemma LocationsAsPath(locations: Value)
    ensures Locations(locations) == DistanceMatrix.ConvertPath(locations)
  {
    Convert.EachOfSame(Convert.Latlng, DistanceMatrix.PathElement,
                       DistanceMatrix.PathItems(locations));
  }

  /** The path parameter of elevation_along_path: a string is an encoded
      polyline and gets the "enc:" prefix; anything else is a list of
      locations, each through latlng, joined with "|". No single tuple is
      wrapped here. */
  function AlongPath(path: Value): (r: Result<string>)
    ensures path.Str? ==> r.Ok? && StartsWith(r.value, "enc:") && r.value[4..] == path.s
    ensures path.List? ==>
      (r.Ok? <==> forall i :: 0 <= i < |path.items| ==> Convert.Latlng(path.items[i]).Ok?)
  {
    if path.Str? then Ok("enc:" + path.s) else Convert.JoinEach("|", Convert.Latlng, path)
  }

  /** elevation.elevation_along_path: exactly the path and the number of
      samples are sent, and the results of the body are returned. */
  function ElevationAlongPath(path: Value, samples: Value): (r: Result<ContextCall>)
    ensures r.Err? <==> AlongPath(path).Err?
    ensures r.Ok? ==> r.value.path == ElevationPath && r.value.post == IndexKey("results")
    ensures r.Ok? ==> r.value.params.Keys == {"path", "samples"} && r.value.params["samples"] == samples
    ensures r.Ok? ==> r.value.params["path"] == Str(AlongPath(path).value)
  {
    var p :- AlongPath(path);
    Ok(ContextCall(ElevationPath, map["path" := Str(p), "samples" := samples], IndexKey("results")))
  }

  /** The polyline can be read back from the request: dropping the "enc:"
      prefix of the path parameter gives it unchanged. */
  lemma EncodedPathRecovered(polyline: string, samples: Value)
    ensures var r := ElevationAlongPath(Str(polyline), samples);
      && r.Ok? && r.value.params["path"].Str?
      && StartsWith(r.value.params["path"].s, "enc:")
      && r.value.params["path"].s[4..] == polyline
  {
  }

  /** Unlike elevation, elevation_along_path does not wrap a single tuple:
      a lone (lat, lng) pair is iterated number by number and refused by
      latlng, while elevation accepts it. */
  lemma LoneTupleRefused(lat: int, lng: int, samples: Value)
    ensures ElevationAlongPath(Tuple([Int(lat), Int(lng)]), samples).Err?
    ensures Locations(Tuple([Int(lat), Int(lng)])).Ok?
  {
    var items := [Int(lat), Int(lng)];
    assert !Convert.Latlng(items[0]).Ok?;
    assert Convert.JoinEach("|", Convert.Latlng, Tuple(items)).Err?;
    assert Builtins.Index(Tuple(items), Int(0)) == Ok(Int(lat));
    assert Builtins.Index(Tuple(items), Int(1)) == Ok(Int(lng));
    assert Convert.Latlng(Tuple(items)) == Convert.FormatPair(Int(lat), Int(lng));
  }
}
