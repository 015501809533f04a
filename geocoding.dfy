/** The Geocoding API endpoints (googlemaps/geocoding.py). */
module Geocoding {
  import opened Maybe
  import opened Values
  import opened Exceptions
  import opened Builtins
  import opened Request
  import Convert

  const GeocodePath := "/maps/api/geocode/json"

  function GeocodeSlots(address: Value, placeId: Value, components: Option<string>, bounds: Option<string>,
                        region: Value, language: Value): Slots
  {
    map["address" := IfTruthy(address), "place_id" := IfTruthy(placeId), "components" := Computed(components),
        "bounds" := Computed(bounds), "region" := IfTruthy(region), "language" := IfTruthy(language)]
  }

  /** Each key is sent exactly when its argument is truthy, with the argument
      or its conversion, and no other key is. */
  lemma GeocodeParams(address: Value, placeId: Value, components: Option<string>, bounds: Option<string>,
                      region: Value, language: Value)
    ensures var d := Collect(GeocodeSlots(address, placeId, components, bounds, region, language));
      && Get(d, "address") == IfTruthy(address) && Get(d, "place_id") == IfTruthy(placeId)
      && Get(d, "components") == Computed(components) && Get(d, "bounds") == Computed(bounds)
      && Get(d, "region") == IfTruthy(region) && Get(d, "language") == IfTruthy(language)
      && d.Keys <= {"address", "place_id", "components", "bounds", "region", "language"}
  {
    var s := GeocodeSlots(address, placeId, components, bounds, region, language);
    CollectGet(s, "address");
    CollectGet(s, "place_id");
    CollectGet(s, "components");
    CollectGet(s, "bounds");
    CollectGet(s, "region");
    CollectGet(s, "language");
  }

  /** geocoding.geocode: only the conversions of components and then of
      bounds can fail; the results are returned, or [] when the key is absent. */
  method Geocode(address: Value, placeId: Value, components: Value, bounds: Value, region: Value, language: Value)
    returns (r: Result<ApiCall>)
    ensures Convert.TruthyComponents(components).Err? ==> r == Err(Convert.TruthyComponents(components).error)
    ensures Convert.TruthyComponents(components).Ok? && Convert.TruthyBounds(bounds).Err? ==>
      r == Err(Convert.TruthyBounds(bounds).error)
    ensures r.Ok? <==> Convert.TruthyComponents(components).Ok? && Convert.TruthyBounds(bounds).Ok?
    ensures r.Ok? ==> var call := r.value;
      && call == DefaultCall(GeocodePath, call.params, GetOr("results", List([])))
      && call.params.DictParams?
      && Get(call.params.entries, "address") == IfTruthy(address)
      && Get(call.params.entries, "place_id") == IfTruthy(placeId)
      && Get(call.params.entries, "components") == Computed(Convert.TruthyComponents(components).value)
      && Get(call.params.entries, "bounds") == Computed(Convert.TruthyBounds(bounds).value)
      && Get(call.params.entries, "region") == IfTruthy(region)
      && Get(call.params.entries, "language") == IfTruthy(language)
      && call.params.entries.Keys <= {"address", "place_id", "components", "bounds", "region", "language"}
  {
    var params: Slots := map[];
    params := params["address" := IfTruthy(address)];
    params := params["place_id" := IfTruthy(placeId)];
    var comps := Convert.TruthyComponents(components);
    if comps.Err? {
      return Err(comps.error);
    }
    params := params["components" := Computed(comps.value)];
    var box := Convert.TruthyBounds(bounds);
    if box.Err? {
      return Err(box.error);
    }
    params := params["bounds" := Computed(box.value)];
    params := params["region" := IfTruthy(region)];
    params := params["language" := IfTruthy(language)];
    GeocodeParams(address, placeId, comps.value, box.value, region, language);
    assert params == GeocodeSlots(address, placeId, comps.value, box.value, region, language);
    r := Ok(DefaultCall(GeocodePath, DictParams(Collect(params)), GetOr("results", List([]))));
  }

  /** A geocode call with no truthy argument sends no parameter at all. */
  lemma GeocodeNothing(address: Value, placeId: Value, components: Value, bounds: Value, region: Value,
                       language: Value)
    requires !Truthy(address) && !Truthy(placeId) && !Truthy(components) && !Truthy(bounds)
    requires !Truthy(region) && !Truthy(language)
    ensures Collect(GeocodeSlots(address, placeId, Convert.TruthyComponents(components).value,
                                 Convert.TruthyBounds(bounds).value, region, language)) == map[]
  {
    var d := Collect(GeocodeSlots(address, placeId, None, None, region, language));
    GeocodeParams(address, placeId, None, None, region, language);
    assert d.Keys == {};
  }

  /** The choice reverse_geocode makes: a string without a comma is a place
      ID; anything else is converted by latlng. */
  function ReverseTarget(latlng: Value): (r: Result<(string, Value)>)
    ensures latlng.Str? && ',' !in latlng.s ==> r == Ok(("place_id", latlng))
    ensures !(latlng.Str? && ',' !in latlng.s) ==>
      (r.Ok? <==> Convert.Latlng(latlng).Ok?) &&
      (r.Ok? ==> r.value == ("latlng", Str(Convert.Latlng(latlng).value)))
  {
    if latlng.Str? && ',' !in latlng.s then Ok(("place_id", latlng))
    else
      var text :- Convert.Latlng(latlng);
      Ok(("latlng", Str(text)))
  }

  function ReverseSlots(target: (string, Value), resultType: Option<string>, locationType: Option<string>,
                        language: Value): Slots
  {
    map[target.0 := Some(target.1), "result_type" := Computed(resultType),
        "location_type" := Computed(locationType), "language" := IfTruthy(language)]
  }

  lemma ReverseParams(target: (string, Value), resultType: Option<string>, locationType: Option<string>,
                      language: Value)
    requires target.0 == "place_id" || target.0 == "latlng"
    ensures var d := Collect(ReverseSlots(target, resultType, locationType, language));
      && Get(d, target.0) == Some(target.1)
      && Get(d, if target.0 == "place_id" then "latlng" else "place_id") == None
      && Get(d, "result_type") == Computed(resultType) && Get(d, "location_type") == Computed(locationType)
      && Get(d, "language") == IfTruthy(language)
      && d.Keys <= {"place_id", "latlng", "result_type", "location_type", "language"}
  {
    var s := ReverseSlots(target, resultType, locationType, language);
    CollectGet(s, target.0);
    CollectGet(s, if target.0 == "place_id" then "latlng" else "place_id");
    CollectGet(s, "result_type");
    CollectGet(s, "location_type");
    CollectGet(s, "language");
  }

  /** geocoding.reverse_geocode: exactly one of place_id and latlng is sent;
      the result and location types are joined with "|". */
  method ReverseGeocode(latlng: Value, resultType: Value, locationType: Value, language: Value)
    returns (r: Result<ApiCall>)
    ensures ReverseTarget(latlng).Err? ==> r == Err(ReverseTarget(latlng).error)
    ensures r.Ok? <==>
      ReverseTarget(latlng).Ok? && Convert.TruthyJoinList("|", resultType).Ok? &&
      Convert.TruthyJoinList("|", locationType).Ok?
    ensures r.Ok? ==> var call := r.value; var target := ReverseTarget(latlng).value;
      && call == DefaultCall(GeocodePath, call.params, GetOr("results", List([])))
      && call.params.DictParams?
      && Get(call.params.entries, target.0) == Some(target.1)
      && Get(call.params.entries, if target.0 == "place_id" then "latlng" else "place_id") == None
      && Get(call.params.entries, "result_type") == Computed(Convert.TruthyJoinList("|", resultType).value)
      && Get(call.params.entries, "location_type") == Computed(Convert.TruthyJoinList("|", locationType).value)
      && Get(call.params.entries, "language") == IfTruthy(language)
      && call.params.entries.Keys <= {"place_id", "latlng", "result_type", "location_type", "language"}
  {
    var target := ReverseTarget(latlng);
    if target.Err? {
      return Err(target.error);
    }
    var params: Slots := map[target.value.0 := Some(target.value.1)];
    var types := Convert.TruthyJoinList("|", resultType);
    if types.Err? {
      return Err(types.error);
    }
    params := params["result_type" := Computed(types.value)];
    var kinds := Convert.TruthyJoinList("|", locationType);
    if kinds.Err? {
      return Err(kinds.error);
    }
    params := params["location_type" := Computed(kinds.value)];
    params := params["language" := IfTruthy(language)];
    ReverseParams(target.value, types.value, kinds.value, language);
    assert params == ReverseSlots(target.value, types.value, kinds.value, language);
    r := Ok(DefaultCall(GeocodePath, DictParams(Collect(params)), GetOr("results", List([]))));
  }

  /** Result types given as a list of strings are sent joined by "|". */
  lemma ResultTypesJoined(names: seq<Value>)
    requires |names| >= 1 && AllStrings(names)
    ensures Convert.TruthyJoinList("|", List(names)) == Ok(Some(JoinStrings("|", Strings(names))))
  {
    assert Truthy(List(names));
  }
}
