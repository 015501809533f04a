/** The Places API endpoints (googlemaps/places.py): find place, text and
    nearby search, place details, photos and autocomplete. */
module Places {
  import opened Maybe
  import opened Values
  import opened Exceptions
  import opened Builtins
  import opened Request
  import opened Text
  import Convert

  /** Python's `a ^ b` on sets. */
  function Xor(a: set<string>, b: set<string>): (c: set<string>)
    ensures forall x :: x in c <==> (x in a && x !in b) || (x in b && x !in a)
  {
    (a - b) + (b - a)
  }

  /** Symmetric difference of pairwise disjoint sets is their union. */
  lemma XorOfDisjoint(a: set<string>, b: set<string>, c: set<string>)
    requires a * b == {} && a * c == {} && b * c == {}
    ensures Xor(Xor(a, b), c) == a + b + c
  {
    forall x
      ensures x in Xor(Xor(a, b), c) <==> x in a + b + c
    {
      assert x !in a * b && x !in a * c && x !in b * c;
    }
  }

  const FindFieldsBasic: set<string> := {"formatted_address", "geometry", "icon", "id", "name",
    "permanently_closed", "photos", "place_id", "plus_code", "scope", "types"}
  const FindFieldsContact: set<string> := {"opening_hours"}
  const FindFieldsAtmosphere: set<string> := {"price_level", "rating", "user_ratings_total"}
  const FindFields: set<string> := Xor(Xor(FindFieldsBasic, FindFieldsContact), FindFieldsAtmosphere)

  const DetailFieldsBasic: set<string> := {"address_component", "adr_address", "alt_id", "formatted_address",
    "geometry", "icon", "id", "name", "permanently_closed", "photo", "place_id", "plus_code", "scope",
    "type", "url", "utc_offset", "vicinity"}
  const DetailFieldsContact: set<string> := {"formatted_phone_number", "international_phone_number",
    "opening_hours", "website"}
  const DetailFieldsAtmosphere: set<string> := {"price_level", "rating", "review", "user_ratings_total"}
  const DetailFields: set<string> := Xor(Xor(DetailFieldsBasic, DetailFieldsContact), DetailFieldsAtmosphere)

  /** The basic, contact and atmosphere groups of find_place share no field,
      so the symmetric difference that defines the field set is their union. */
  lemma FindFieldGroupsDisjoint()
    ensures FindFieldsBasic * FindFieldsContact == {} && FindFieldsBasic * FindFieldsAtmosphere == {}
    ensures FindFieldsContact * FindFieldsAtmosphere == {}
    ensures FindFields == FindFieldsBasic + FindFieldsContact + FindFieldsAtmosphere
  {
    assert "opening_hours" !in FindFieldsBasic;
    XorOfDisjoint(FindFieldsBasic, FindFieldsContact, FindFieldsAtmosphere);
  }

  /** The same for the groups of place details. */
  lemma DetailFieldGroupsDisjoint()
    ensures DetailFieldsBasic * DetailFieldsContact == {} && DetailFieldsBasic * DetailFieldsAtmosphere == {}
    ensures DetailFieldsContact * DetailFieldsAtmosphere == {}
    ensures DetailFields == DetailFieldsBasic + DetailFieldsContact + DetailFieldsAtmosphere
  {
    assert "opening_hours" !in DetailFieldsBasic;
    XorOfDisjoint(DetailFieldsBasic, DetailFieldsContact, DetailFieldsAtmosphere);
  }

  /** `set(fields) - allowed`: the elements of `fields` that are not allowed
      field names. Iterating a non-iterable, or putting a list or dict in a
      set, raises TypeError. */
  function InvalidFields(fields: Value, allowed: set<string>): (r: Result<set<Value>>)
    ensures Iterate(fields).Err? ==> r == Err(Iterate(fields).error)
    ensures r.Ok? ==> Iterate(fields).Ok?
    ensures r.Ok? ==> var items := Iterate(fields).value;
      && (forall x :: x in r.value <==> x in items && !(x.Str? && x.s in allowed))
      && (r.value == {} <==> forall i :: 0 <= i < |items| ==> items[i].Str? && items[i].s in allowed)
    ensures r.Err? && Iterate(fields).Ok? ==>
      r.error.TypeError? && exists i :: 0 <= i < |Iterate(fields).value| && Unhashable(Iterate(fields).value[i])
  {
    var items :- Iterate(fields);
    if exists i :: 0 <= i < |items| && Unhashable(items[i]) then Err(TypeError("unhashable type"))
    else
      var invalid := set x | x in items && !(x.Str? && x.s in allowed);
      assert invalid == {} ==> forall i :: 0 <= i < |items| ==> items[i].Str? && items[i].s in allowed by {
        if invalid == {} {
          forall i | 0 <= i < |items| ensures items[i].Str? && items[i].s in allowed {
            assert items[i] !in invalid;
          }
        }
      }
      Ok(invalid)
  }

  /** The first sentence of the ValueError for rejected fields. */
  function FieldsMessage(endpoint: string): string {
    "Valid values for the `fields` param for `" + endpoint + "` are listed in the field set"
  }

  /** The TypeError `"', '".join(...)` raises on a member that is not a str. */
  const JoinItemError := TypeError("sequence item: expected string")

  /** The check `find_place` and `place` run on a truthy `fields`: any field
      outside the allowed set is a ValueError, unless one of the rejected
      fields is not a str, whose listing in the message raises TypeError first;
      the accepted fields are sent joined by ",". A falsy `fields` sends nothing. */
  function FieldsText(fields: Value, allowed: set<string>, endpoint: string): (r: Result<Option<string>>)
    ensures !Truthy(fields) ==> r == Ok(None)
    ensures Truthy(fields) && InvalidFields(fields, allowed).Ok? ==>
      var invalid := InvalidFields(fields, allowed).value;
      && (invalid != {} && (forall x :: x in invalid ==> x.Str?) ==> r == Err(ValueError(FieldsMessage(endpoint))))
      && ((exists x :: x in invalid && !x.Str?) ==> r == Err(JoinItemError))
    ensures r.Ok? && Truthy(fields) ==>
      && InvalidFields(fields, allowed) == Ok({})
      && Convert.JoinList(",", fields).Ok?
      && r.value == Some(Convert.JoinList(",", fields).value)
    ensures Truthy(fields) && InvalidFields(fields, allowed) == Ok({}) && Convert.JoinList(",", fields).Ok? ==> r.Ok?
  {
    if !Truthy(fields) then Ok(None)
    else
      var invalid :- InvalidFields(fields, allowed);
      if exists x :: x in invalid && !x.Str? then Err(JoinItemError)
      else if invalid != {} then Err(ValueError(FieldsMessage(endpoint)))
      else
        var text :- Convert.JoinList(",", fields);
        Ok(Some(text))
  }

  /** A list of accepted field names is sent as those names joined by ",". */
  lemma FieldsJoined(names: seq<string>, allowed: set<string>)
    requires |names| >= 1 && forall i :: 0 <= i < |names| ==> names[i] in allowed
    ensures var fields := List(seq(|names|, i requires 0 <= i < |names| => Str(names[i])));
      FieldsText(fields, allowed, "find_place") == Ok(Some(JoinStrings(",", names)))
  {
    var items := seq(|names|, i requires 0 <= i < |names| => Str(names[i]));
    var fields := List(items);
    assert Truthy(fields);
    assert AllStrings(items) && Strings(items) == names;
    assert forall i :: 0 <= i < |items| ==> !Unhashable(items[i]);
    var invalid := InvalidFields(fields, allowed);
    assert invalid.Ok?;
    assert forall i :: 0 <= i < |items| ==> items[i].Str? && items[i].s in allowed;
    assert invalid.value == {};
    assert Convert.JoinList(",", fields) == Ok(JoinStrings(",", names));
  }

  /** `fields=[5]` or `fields=[None]`: the rejected field cannot be listed in
      the ValueError's message, so the call raises TypeError instead. */
  lemma NonStringFieldTypeError(x: Value, allowed: set<string>, endpoint: string)
    requires !x.Str? && !Unhashable(x)
    ensures FieldsText(List([x]), allowed, endpoint) == Err(JoinItemError)
  {
    var invalid := InvalidFields(List([x]), allowed);
    assert Iterate(List([x])).value == [x];
    assert invalid.Ok? && x in invalid.value;
  }

  /** A single unknown field name is a ValueError. */
  lemma UnknownFieldValueError(name: string, allowed: set<string>, endpoint: string)
    requires name !in allowed
    ensures FieldsText(List([Str(name)]), allowed, endpoint) == Err(ValueError(FieldsMessage(endpoint)))
  {
    var invalid := InvalidFields(List([Str(name)]), allowed);
    assert Iterate(List([Str(name)])).value == [Str(name)];
    assert invalid.Ok? && Str(name) in invalid.value;
    assert forall y :: y in invalid.value ==> y == Str(name);
  }

  const LocationBiasKinds: seq<string> := ["ipbias", "point", "circle", "rectangle"]

  const LocationBiasMessage := "location_bias should be prefixed with one of: ['ipbias', 'point', 'circle', 'rectangle']"

  /** `location_bias.split(":")[0] in valid`; anything but a string has no split. */
  function BiasAccepted(bias: Value): (r: Result<bool>)
    ensures r.Err? <==> !bias.Str?
    ensures r.Err? ==> r.error == AttributeError("split")
  {
    if bias.Str? then Ok(SplitOn(':', bias.s)[0] in LocationBiasKinds)
    else Err(AttributeError("split"))
  }

  /** The bias is judged by the text before its first ':' alone, whatever follows. */
  lemma BiasByPrefix(kind: string, rest: string)
    requires ':' !in kind
    ensures BiasAccepted(Str(kind + ":" + rest)) == Ok(kind in LocationBiasKinds)
    ensures BiasAccepted(Str(kind)) == Ok(kind in LocationBiasKinds)
  {
    SplitHead(':', kind, rest);
  }

  predicate ValidInputType(inputType: Value) {
    inputType == Str("textquery") || inputType == Str("phonenumber")
  }

  /** The arguments find_place lets through to the request. */
  predicate FindPlaceAccepts(inputType: Value, fields: Value, locationBias: Value) {
    && ValidInputType(inputType)
    && FieldsText(fields, FindFields, "find_place").Ok?
    && (Truthy(locationBias) ==> BiasAccepted(locationBias) == Ok(true))
  }

  const FindPlacePath := "/maps/api/place/findplacefromtext/json"

  function FindPlaceSlots(input: Value, inputType: Value, fieldsText: Option<string>, locationBias: Value,
                          language: Value): Slots
  {
    map["input" := Some(input), "inputtype" := Some(inputType), "fields" := Computed(fieldsText),
        "locationbias" := IfTruthy(locationBias), "language" := IfTruthy(language)]
  }

  lemma FindPlaceParams(input: Value, inputType: Value, fieldsText: Option<string>, locationBias: Value,
                        language: Value)
    ensures var d := Collect(FindPlaceSlots(input, inputType, fieldsText, locationBias, language));
      && Get(d, "input") == Some(input) && Get(d, "inputtype") == Some(inputType)
      && Get(d, "fields") == Computed(fieldsText)
      && Get(d, "locationbias") == IfTruthy(locationBias) && Get(d, "language") == IfTruthy(language)
      && d.Keys <= {"input", "inputtype", "fields", "locationbias", "language"}
  {
    var s := FindPlaceSlots(input, inputType, fieldsText, locationBias, language);
    CollectGet(s, "input");
    CollectGet(s, "inputtype");
    CollectGet(s, "fields");
    CollectGet(s, "locationbias");
    CollectGet(s, "language");
  }

  /** The argument checks of places.find_place, in the order the code runs
      them: the input type, then the fields, then the location bias. On
      success, the fields text to send, if any. */
  function FindPlaceCheck(inputType: Value, fields: Value, locationBias: Value): (r: Result<Option<string>>)
    ensures !ValidInputType(inputType) ==> r == Err(InvalidInputType(inputType))
    ensures ValidInputType(inputType) && FieldsText(fields, FindFields, "find_place").Err? ==>
      r == Err(FieldsText(fields, FindFields, "find_place").error)
    ensures (ValidInputType(inputType) && FieldsText(fields, FindFields, "find_place").Ok? &&
             Truthy(locationBias) && BiasAccepted(locationBias) == Ok(false)) ==>
      r == Err(ValueError(LocationBiasMessage))
    ensures r.Ok? <==> FindPlaceAccepts(inputType, fields, locationBias)
    ensures r.Ok? ==> r.value == FieldsText(fields, FindFields, "find_place").value
  {
    if !ValidInputType(inputType) then Err(InvalidInputType(inputType))
    else
      var fieldsText :- FieldsText(fields, FindFields, "find_place");
      if Truthy(locationBias) then
        var accepted :- BiasAccepted(locationBias);
        if accepted then Ok(fieldsText) else Err(ValueError(LocationBiasMessage))
      else Ok(fieldsText)
  }

  /** places.find_place: nothing is sent unless every check passes. */
  method FindPlace(input: Value, inputType: Value, fields: Value, locationBias: Value, language: Value)
    returns (r: Result<ApiCall>)
    ensures r.Err? <==> FindPlaceCheck(inputType, fields, locationBias).Err?
    ensures r.Err? ==> r.error == FindPlaceCheck(inputType, fields, locationBias).error
    ensures r.Ok? ==> var call := r.value;
      && call == DefaultCall(FindPlacePath, call.params, Whole)
      && call.params.DictParams?
      && Get(call.params.entries, "input") == Some(input)
      && Get(call.params.entries, "inputtype") == Some(inputType)
      && Get(call.params.entries, "fields") == Computed(FindPlaceCheck(inputType, fields, locationBias).value)
      && Get(call.params.entries, "locationbias") == IfTruthy(locationBias)
      && Get(call.params.entries, "language") == IfTruthy(language)
      && call.params.entries.Keys <= {"input", "inputtype", "fields", "locationbias", "language"}
  {
    var params: Slots := map["input" := Some(input), "inputtype" := Some(inputType)];
    var checked := FindPlaceCheck(inputType, fields, locationBias);
    if checked.Err? {
      return Err(checked.error);
    }
    params := params["fields" := Computed(checked.value)];
    params := params["locationbias" := IfTruthy(locationBias)];
    params := params["language" := IfTruthy(language)];
    FindPlaceParams(input, inputType, checked.value, locationBias, language);
    assert params == FindPlaceSlots(input, inputType, checked.value, locationBias, language);
    r := Ok(DefaultCall(FindPlacePath, DictParams(Collect(params)), Whole));
  }

  /** The search keys of _places, each sent only for a truthy argument, except
      the price bounds, which are always sent. */
  function SearchSlots(query: Value, location: Option<string>, radius: Value, keyword: Value, language: Value,
                       minPrice: Value, maxPrice: Value, name: Option<string>, openNow: Value, rankBy: Value,
                       placeType: Value, region: Value, pageToken: Value): Slots
  {
    map["minprice" := Some(minPrice), "maxprice" := Some(maxPrice), "query" := IfTruthy(query),
        "location" := Computed(location), "radius" := IfTruthy(radius), "keyword" := IfTruthy(keyword),
        "language" := IfTruthy(language), "name" := Computed(name), "opennow" := IfFlag(openNow),
        "rankby" := IfTruthy(rankBy), "type" := IfTruthy(placeType), "region" := IfTruthy(region),
        "pagetoken" := IfTruthy(pageToken)]
  }

  const SearchKeys: set<string> := {"minprice", "maxprice", "query", "location", "radius", "keyword", "language",
    "name", "opennow", "rankby", "type", "region", "pagetoken"}

  /** The price bounds are always sent; query, radius, keyword and language
      only when truthy, the location only when it was converted. */
  lemma SearchParamsHead(query: Value, location: Option<string>, radius: Value, keyword: Value, language: Value,
                         minPrice: Value, maxPrice: Value, name: Option<string>, openNow: Value, rankBy: Value,
                         placeType: Value, region: Value, pageToken: Value)
    ensures var d := Collect(SearchSlots(query, location, radius, keyword, language, minPrice, maxPrice, name,
                                         openNow, rankBy, placeType, region, pageToken));
      && Get(d, "minprice") == Some(minPrice) && Get(d, "maxprice") == Some(maxPrice)
      && Get(d, "query") == IfTruthy(query) && Get(d, "location") == Computed(location)
      && Get(d, "radius") == IfTruthy(radius) && Get(d, "keyword") == IfTruthy(keyword)
      && Get(d, "language") == IfTruthy(language)
  {
    var s := SearchSlots(query, location, radius, keyword, language, minPrice, maxPrice, name,
                                         openNow, rankBy, placeType, region, pageToken);
    CollectGet(s, "minprice");
    CollectGet(s, "maxprice");
    CollectGet(s, "query");
    CollectGet(s, "location");
    CollectGet(s, "radius");
    CollectGet(s, "keyword");
    CollectGet(s, "language");
  }

  /** The name only when it was joined, "opennow" as "true", the rest only
      when truthy, and no key outside the search keys. */
  lemma SearchParamsTail(query: Value, location: Option<string>, radius: Value, keyword: Value, language: Value,
                         minPrice: Value, maxPrice: Value, name: Option<string>, openNow: Value, rankBy: Value,
                         placeType: Value, region: Value, pageToken: Value)
    ensures var d := Collect(SearchSlots(query, location, radius, keyword, language, minPrice, maxPrice, name,
                                         openNow, rankBy, placeType, region, pageToken));
      && Get(d, "name") == Computed(name)
      && Get(d, "opennow") == IfFlag(openNow)
      && Get(d, "rankby") == IfTruthy(rankBy) && Get(d, "type") == IfTruthy(placeType)
      && Get(d, "region") == IfTruthy(region) && Get(d, "pagetoken") == IfTruthy(pageToken)
      && d.Keys <= SearchKeys
  {
    var s := SearchSlots(query, location, radius, keyword, language, minPrice, maxPrice, name,
                                         openNow, rankBy, placeType, region, pageToken);
    CollectGet(s, "name");
    CollectGet(s, "opennow");
    CollectGet(s, "rankby");
    CollectGet(s, "type");
    CollectGet(s, "region");
    CollectGet(s, "pagetoken");
  }

  /** places._places, proved against SearchSlots (whose meaning key by key
      is SearchParamsHead and SearchParamsTail): only the conversions of the
      location and then of the name can fail. */
  method Search(urlPart: string, query: Value, location: Value, radius: Value, keyword: Value, language: Value,
                minPrice: Value, maxPrice: Value, name: Value, openNow: Value, rankBy: Value, placeType: Value,
                region: Value, pageToken: Value)
    returns (r: Result<ApiCall>)
    ensures Convert.TruthyLatlng(location).Err? ==> r == Err(Convert.TruthyLatlng(location).error)
    ensures Convert.TruthyLatlng(location).Ok? && Convert.TruthyJoinList(" ", name).Err? ==>
      r == Err(Convert.TruthyJoinList(" ", name).error)
    ensures r.Ok? <==> Convert.TruthyLatlng(location).Ok? && Convert.TruthyJoinList(" ", name).Ok?
    ensures r.Ok? ==> r.value == DefaultCall("/maps/api/place/" + urlPart + "search/json",
      DictParams(Collect(SearchSlots(query, Convert.TruthyLatlng(location).value, radius, keyword, language, minPrice,
                                     maxPrice, Convert.TruthyJoinList(" ", name).value, openNow, rankBy, placeType, region,
                                     pageToken))), Whole)
  {
    var latlng := Convert.TruthyLatlng(location);
    if latlng.Err? {
      return Err(latlng.error);
    }
    var names := Convert.TruthyJoinList(" ", name);
    if names.Err? {
      return Err(names.error);
    }
    var params := SearchParamsOf(query, latlng.value, radius, keyword, language, minPrice, maxPrice, names.value,
                                 openNow, rankBy, placeType, region, pageToken);
    r := Ok(DefaultCall("/maps/api/place/" + urlPart + "search/json", DictParams(Collect(params)), Whole));
  }

  /** The insertions of _places once the location and the name are converted. */
  method SearchParamsOf(query: Value, location: Option<string>, radius: Value, keyword: Value, language: Value,
                        minPrice: Value, maxPrice: Value, name: Option<string>, openNow: Value, rankBy: Value,
                        placeType: Value, region: Value, pageToken: Value) returns (params: Slots)
    ensures params == SearchSlots(query, location, radius, keyword, language, minPrice, maxPrice, name, openNow,
                                  rankBy, placeType, region, pageToken)
  {
    params := map[];
    params := params["minprice" := Some(minPrice)];
    params := params["maxprice" := Some(maxPrice)];
    params := params["query" := IfTruthy(query)];
    params := params["location" := Computed(location)];
    params := params["radius" := IfTruthy(radius)];
    params := params["keyword" := IfTruthy(keyword)];
    params := params["language" := IfTruthy(language)];
    params := params["name" := Computed(name)];
    params := params["opennow" := IfFlag(openNow)];
    params := params["rankby" := IfTruthy(rankBy)];
    params := params["type" := IfTruthy(placeType)];
    params := params["region" := IfTruthy(region)];
    params := params["pagetoken" := IfTruthy(pageToken)];
  }

  /** places.places: a text search, with no keyword, name or rank_by, and the
      price bounds sent even when None. */
  method TextSearch(query: Value, location: Value, radius: Value, language: Value, minPrice: Value,
                    maxPrice: Value, openNow: Value, placeType: Value, region: Value, pageToken: Value)
    returns (r: Result<ApiCall>)
    ensures r.Ok? <==> Convert.TruthyLatlng(location).Ok?
    ensures r.Ok? ==> r.value == DefaultCall("/maps/api/place/textsearch/json",
      DictParams(Collect(SearchSlots(query, Convert.TruthyLatlng(location).value, radius, NoneV, language, minPrice,
                                     maxPrice, None, openNow, NoneV, placeType, region, pageToken))), Whole)
  {
    assert "/maps/api/place/" + "text" + "search/json" == "/maps/api/place/textsearch/json";
    assert !Truthy(NoneV);
    assert Convert.TruthyJoinList(" ", NoneV) == Ok(None);
    r := Search("text", query, location, radius, NoneV, language, minPrice, maxPrice, NoneV, openNow, NoneV,
                placeType, region, pageToken);
  }

  /** A text search sends the price bounds as given, even None, and never a
      keyword, name or rank_by. */
  lemma TextSearchKeys(query: Value, location: Option<string>, radius: Value, language: Value, minPrice: Value,
                       maxPrice: Value, openNow: Value, placeType: Value, region: Value, pageToken: Value)
    ensures var d := Collect(SearchSlots(query, location, radius, NoneV, language, minPrice, maxPrice, None,
                                         openNow, NoneV, placeType, region, pageToken));
      && Get(d, "minprice") == Some(minPrice) && Get(d, "maxprice") == Some(maxPrice)
      && Get(d, "keyword") == None && Get(d, "name") == None && Get(d, "rankby") == None
  {
    SearchParamsHead(query, location, radius, NoneV, language, minPrice, maxPrice, None,
                     openNow, NoneV, placeType, region, pageToken);
    SearchParamsTail(query, location, radius, NoneV, language, minPrice, maxPrice, None,
                     openNow, NoneV, placeType, region, pageToken);
  }

  const NearbyLocationMessage := "either a location or page_token arg is required"
  const NearbyKeywordMessage := "either a keyword, name, or type arg is required when rank_by is set to distance"
  const NearbyRadiusMessage := "radius cannot be specified when rank_by is set to distance"

  /** The argument checks of places_nearby, in order: None when they pass. */
  function NearbyRejects(location: Value, radius: Value, keyword: Value, name: Value, rankBy: Value,
                         placeType: Value, pageToken: Value): (e: Option<string>)
    ensures e.None? <==>
      && (Truthy(location) || Truthy(pageToken))
      && (rankBy == Str("distance") ==> (Truthy(keyword) || Truthy(name) || Truthy(placeType)) && radius == NoneV)
    ensures !Truthy(location) && !Truthy(pageToken) ==> e == Some(NearbyLocationMessage)
  {
    if !Truthy(location) && !Truthy(pageToken) then Some(NearbyLocationMessage)
    else if rankBy == Str("distance") && !(Truthy(keyword) || Truthy(name) || Truthy(placeType)) then
      Some(NearbyKeywordMessage)
    else if rankBy == Str("distance") && radius != NoneV then Some(NearbyRadiusMessage)
    else None
  }

  /** places.places_nearby: the checks run before any request is built. */
  method NearbySearch(location: Value, radius: Value, keyword: Value, language: Value, minPrice: Value,
                      maxPrice: Value, name: Value, openNow: Value, rankBy: Value, placeType: Value,
                      pageToken: Value)
    returns (r: Result<ApiCall>)
    ensures NearbyRejects(location, radius, keyword, name, rankBy, placeType, pageToken).Some? ==>
      r == Err(ValueError(NearbyRejects(location, radius, keyword, name, rankBy, placeType, pageToken).value))
    ensures r.Ok? <==>
      NearbyRejects(location, radius, keyword, name, rankBy, placeType, pageToken).None? &&
      Convert.TruthyLatlng(location).Ok? && Convert.TruthyJoinList(" ", name).Ok?
    ensures r.Ok? ==> r.value == DefaultCall("/maps/api/place/nearbysearch/json",
      DictParams(Collect(SearchSlots(NoneV, Convert.TruthyLatlng(location).value, radius, keyword, language, minPrice,
                                     maxPrice, Convert.TruthyJoinList(" ", name).value, openNow, rankBy, placeType, NoneV,
                                     pageToken))), Whole)
  {
    var rejected := NearbyRejects(location, radius, keyword, name, rankBy, placeType, pageToken);
    if rejected.Some? {
      return Err(ValueError(rejected.value));
    }
    assert "/maps/api/place/" + "nearby" + "search/json" == "/maps/api/place/nearbysearch/json";
    r := Search("nearby", NoneV, location, radius, keyword, language, minPrice, maxPrice, name, openNow, rankBy,
                placeType, NoneV, pageToken);
  }

  /** A nearby search that passed its checks with rank_by "distance" sends the
      rank and never a radius; it never sends a query. */
  lemma NearbyByDistance(location: Value, radius: Value, keyword: Value, language: Value, minPrice: Value,
                         maxPrice: Value, name: Value, openNow: Value, rankBy: Value, placeType: Value,
                         pageToken: Value, latlng: Option<string>, names: Option<string>)
    requires NearbyRejects(location, radius, keyword, name, rankBy, placeType, pageToken).None?
    ensures var d := Collect(SearchSlots(NoneV, latlng, radius, keyword, language, minPrice, maxPrice, names,
                                         openNow, rankBy, placeType, NoneV, pageToken));
      && Get(d, "query") == None && Get(d, "rankby") == IfTruthy(rankBy)
      && (rankBy == Str("distance") ==> Get(d, "radius") == None)
  {
    SearchParamsHead(NoneV, latlng, radius, keyword, language, minPrice, maxPrice, names,
                     openNow, rankBy, placeType, NoneV, pageToken);
    SearchParamsTail(NoneV, latlng, radius, keyword, language, minPrice, maxPrice, names,
                     openNow, rankBy, placeType, NoneV, pageToken);
  }

  const PlacePath := "/maps/api/place/details/json"

  function PlaceSlots(placeId: Value, fieldsText: Option<string>, language: Value, sessionToken: Value): Slots {
    map["placeid" := Some(placeId), "fields" := Computed(fieldsText), "language" := IfTruthy(language),
        "sessiontoken" := IfTruthy(sessionToken)]
  }

  lemma PlaceParams(placeId: Value, fieldsText: Option<string>, language: Value, sessionToken: Value)
    ensures var d := Collect(PlaceSlots(placeId, fieldsText, language, sessionToken));
      && Get(d, "placeid") == Some(placeId) && Get(d, "fields") == Computed(fieldsText)
      && Get(d, "language") == IfTruthy(language) && Get(d, "sessiontoken") == IfTruthy(sessionToken)
      && d.Keys <= {"placeid", "fields", "language", "sessiontoken"}
  {
    var s := PlaceSlots(placeId, fieldsText, language, sessionToken);
    CollectGet(s, "placeid");
    CollectGet(s, "fields");
    CollectGet(s, "language");
    CollectGet(s, "sessiontoken");
  }

  /** places.place: the fields are checked against the detail field set. */
  method Place(placeId: Value, sessionToken: Value, fields: Value, language: Value) returns (r: Result<ApiCall>)
    ensures FieldsText(fields, DetailFields, "place").Err? ==> r == Err(FieldsText(fields, DetailFields, "place").error)
    ensures r.Ok? <==> FieldsText(fields, DetailFields, "place").Ok?
    ensures r.Ok? ==> var call := r.value;
      && call == DefaultCall(PlacePath, call.params, Whole)
      && call.params.DictParams?
      && Get(call.params.entries, "placeid") == Some(placeId)
      && Get(call.params.entries, "fields") == Computed(FieldsText(fields, DetailFields, "place").value)
      && Get(call.params.entries, "language") == IfTruthy(language)
      && Get(call.params.entries, "sessiontoken") == IfTruthy(sessionToken)
      && call.params.entries.Keys <= {"placeid", "fields", "language", "sessiontoken"}
  {
    var params: Slots := map["placeid" := Some(placeId)];
    var fieldsText := FieldsText(fields, DetailFields, "place");
    if fieldsText.Err? {
      return Err(fieldsText.error);
    }
    params := params["fields" := Computed(fieldsText.value)];
    params := params["language" := IfTruthy(language)];
    params := params["sessiontoken" := IfTruthy(sessionToken)];
    PlaceParams(placeId, fieldsText.value, language, sessionToken);
    assert params == PlaceSlots(placeId, fieldsText.value, language, sessionToken);
    r := Ok(DefaultCall(PlacePath, DictParams(Collect(params)), Whole));
  }

  const PhotoMessage := "a max_width or max_height arg is required"

  /** places.places_photo: a streamed request whose response is returned as
      it is (the caller iterates its content). */
  method Photo(photoReference: Value, maxWidth: Value, maxHeight: Value) returns (r: Result<ApiCall>)
    ensures r.Err? <==> !Truthy(maxWidth) && !Truthy(maxHeight)
    ensures r.Err? ==> r.error == ValueError(PhotoMessage)
    ensures r.Ok? ==> var call := r.value;
      && call == ApiCall("/maps/api/place/photo", call.params, None, true, RawResponse, None, true, Whole)
      && call.params.DictParams?
      && Get(call.params.entries, "photoreference") == Some(photoReference)
      && Get(call.params.entries, "maxwidth") == IfTruthy(maxWidth)
      && Get(call.params.entries, "maxheight") == IfTruthy(maxHeight)
      && call.params.entries.Keys <= {"photoreference", "maxwidth", "maxheight"}
  {
    if !(Truthy(maxWidth) || Truthy(maxHeight)) {
      return Err(ValueError(PhotoMessage));
    }
    var params: Slots := map["photoreference" := Some(photoReference)];
    params := params["maxwidth" := IfTruthy(maxWidth)];
    params := params["maxheight" := IfTruthy(maxHeight)];
    CollectGet(params, "photoreference");
    CollectGet(params, "maxwidth");
    CollectGet(params, "maxheight");
    r := Ok(ApiCall("/maps/api/place/photo", DictParams(Collect(params)), None, true, RawResponse, None, true,
                    Whole));
  }

  const ComponentsMessage := "Only country components are supported"

  /** `len(components) != 1 or list(components.keys())[0] != "country"`, negated:
      Ok(true) when the components pass. A sized value of length one that is
      not a dict has no `keys`; a number has no `len`. */
  function CountryOnly(components: Value): (r: Result<bool>)
    ensures r == Ok(true) <==> components.Dict? && |components.entries| == 1 && components.entries[0].0 == "country"
    ensures (components.Str? && |components.s| != 1) || ((components.List? || components.Tuple?) && |components.items| != 1)
      ==> r == Ok(false)
  {
    match components
    case Dict(es) => Ok(|es| == 1 && es[0].0 == "country")
    case Str(s) => if |s| != 1 then Ok(false) else Err(AttributeError("keys"))
    case List(xs) => if |xs| != 1 then Ok(false) else Err(AttributeError("keys"))
    case Tuple(xs) => if |xs| != 1 then Ok(false) else Err(AttributeError("keys"))
    case _ => Err(TypeError("object has no len()"))
  }

  function AutocompleteSlots(inputText: Value, sessionToken: Value, offset: Value, location: Option<string>,
                             radius: Value, language: Value, types: Value, components: Option<string>,
                             strictBounds: Value): Slots
  {
    map["input" := Some(inputText), "sessiontoken" := IfTruthy(sessionToken), "offset" := IfTruthy(offset),
        "location" := Computed(location), "radius" := IfTruthy(radius), "language" := IfTruthy(language),
        "types" := IfTruthy(types), "components" := Computed(components),
        "strictbounds" := IfFlag(strictBounds)]
  }

  const AutocompleteKeys: set<string> := {"input", "sessiontoken", "offset", "location", "radius", "language",
    "types", "components", "strictbounds"}

  lemma AutocompleteParams(inputText: Value, sessionToken: Value, offset: Value, location: Option<string>,
                           radius: Value, language: Value, types: Value, components: Option<string>,
                           strictBounds: Value)
    ensures var d := Collect(AutocompleteSlots(inputText, sessionToken, offset, location, radius, language, types,
                                               components, strictBounds));
      && Get(d, "input") == Some(inputText) && Get(d, "sessiontoken") == IfTruthy(sessionToken)
      && Get(d, "offset") == IfTruthy(offset) && Get(d, "location") == Computed(location)
      && Get(d, "radius") == IfTruthy(radius) && Get(d, "language") == IfTruthy(language)
      && Get(d, "types") == IfTruthy(types) && Get(d, "components") == Computed(components)
      && Get(d, "strictbounds") == IfFlag(strictBounds)
      && d.Keys <= AutocompleteKeys
  {
    var s := AutocompleteSlots(inputText, sessionToken, offset, location, radius, language, types,
                               components, strictBounds);
    CollectGet(s, "input");
    CollectGet(s, "sessiontoken");
    CollectGet(s, "offset");
    CollectGet(s, "location");
    CollectGet(s, "radius");
    CollectGet(s, "language");
    CollectGet(s, "types");
    CollectGet(s, "components");
    CollectGet(s, "strictbounds");
  }

  /** The components text _autocomplete sends: nothing for falsy components,
      ValueError unless they are a dict with the one key "country". */
  function CountryComponents(components: Value): (r: Result<Option<string>>)
    ensures !Truthy(components) ==> r == Ok(None)
    ensures Truthy(components) && CountryOnly(components) == Ok(false) ==> r == Err(ValueError(ComponentsMessage))
    ensures r.Ok? && Truthy(components) ==>
      && components.Dict? && |components.entries| == 1 && components.entries[0].0 == "country"
      && r.value == Some("country:" + Render(Convert.LookupValue(components.entries, "country")))
    ensures components.Dict? && |components.entries| == 1 && components.entries[0].0 == "country" ==> r.Ok?
  {
    if !Truthy(components) then Ok(None)
    else
      var only :- CountryOnly(components);
      if !only then Err(ValueError(ComponentsMessage))
      else
        var text := Convert.Components(components).value;
        var entries := Convert.ComponentEntries(components.entries);
        assert entries == [entries[0]];
        assert "country" + ":" == "country:";
        Ok(Some(text))
  }

  /** places._autocomplete: the location is converted before the components
      are checked; the predictions are returned, or [] when the key is absent. */
  method Autocomplete(urlPart: string, inputText: Value, sessionToken: Value, offset: Value, location: Value,
                      radius: Value, language: Value, types: Value, components: Value, strictBounds: Value)
    returns (r: Result<ApiCall>)
    ensures Convert.TruthyLatlng(location).Err? ==> r == Err(Convert.TruthyLatlng(location).error)
    ensures Convert.TruthyLatlng(location).Ok? && CountryComponents(components).Err? ==>
      r == Err(CountryComponents(components).error)
    ensures r.Ok? <==> Convert.TruthyLatlng(location).Ok? && CountryComponents(components).Ok?
    ensures r.Ok? ==> var call := r.value;
      && call == DefaultCall("/maps/api/place/" + urlPart + "autocomplete/json", call.params,
                             GetOr("predictions", List([])))
      && call.params.DictParams?
      && Get(call.params.entries, "input") == Some(inputText)
      && Get(call.params.entries, "sessiontoken") == IfTruthy(sessionToken)
      && Get(call.params.entries, "offset") == IfTruthy(offset)
      && Get(call.params.entries, "location") == Computed(Convert.TruthyLatlng(location).value)
      && Get(call.params.entries, "radius") == IfTruthy(radius)
      && Get(call.params.entries, "language") == IfTruthy(language)
      && Get(call.params.entries, "types") == IfTruthy(types)
      && Get(call.params.entries, "components") == Computed(CountryComponents(components).value)
      && Get(call.params.entries, "strictbounds") == IfFlag(strictBounds)
      && call.params.entries.Keys <= AutocompleteKeys
  {
    var params: Slots := map["input" := Some(inputText)];
    params := params["sessiontoken" := IfTruthy(sessionToken)];
    params := params["offset" := IfTruthy(offset)];
    var latlng := Convert.TruthyLatlng(location);
    if latlng.Err? {
      return Err(latlng.error);
    }
    params := params["location" := Computed(latlng.value)];
    params := params["radius" := IfTruthy(radius)];
    params := params["language" := IfTruthy(language)];
    params := params["types" := IfTruthy(types)];
    var country := CountryComponents(components);
    if country.Err? {
      return Err(country.error);
    }
    params := params["components" := Computed(country.value)];
    params := params["strictbounds" := IfFlag(strictBounds)];
    AutocompleteParams(inputText, sessionToken, offset, latlng.value, radius, language, types, country.value,
                       strictBounds);
    assert params == AutocompleteSlots(inputText, sessionToken, offset, latlng.value, radius, language, types,
                                       country.value, strictBounds);
    r := Ok(DefaultCall("/maps/api/place/" + urlPart + "autocomplete/json", DictParams(Collect(params)),
                        GetOr("predictions", List([]))));
  }

  /** places.places_autocomplete */
  method PlacesAutocomplete(inputText: Value, sessionToken: Value, offset: Value, location: Value, radius: Value,
                            language: Value, types: Value, components: Value, strictBounds: Value)
    returns (r: Result<ApiCall>)
    ensures r.Ok? <==> Convert.TruthyLatlng(location).Ok? && CountryComponents(components).Ok?
    ensures r.Ok? ==> (r.value.path == "/maps/api/place/autocomplete/json" &&
                       r.value.post == GetOr("predictions", List([])))
  {
    assert "/maps/api/place/" + "" + "autocomplete/json" == "/maps/api/place/autocomplete/json";
    r := Autocomplete("", inputText, sessionToken, offset, location, radius, language, types, components,
                      strictBounds);
  }

  /** places.places_autocomplete_query: no session token, types, components
      or strict bounds are ever sent. */
  method AutocompleteQuery(inputText: Value, offset: Value, location: Value, radius: Value, language: Value)
    returns (r: Result<ApiCall>)
    ensures r.Ok? <==> Convert.TruthyLatlng(location).Ok?
    ensures r.Ok? ==> var call := r.value;
      && call.path == "/maps/api/place/queryautocomplete/json" && call.params.DictParams?
      && Get(call.params.entries, "sessiontoken") == None && Get(call.params.entries, "types") == None
      && Get(call.params.entries, "components") == None && Get(call.params.entries, "strictbounds") == None
  {
    assert "/maps/api/place/" + "query" + "autocomplete/json" == "/maps/api/place/queryautocomplete/json";
    r := Autocomplete("query", inputText, NoneV, offset, location, radius, language, NoneV, NoneV, Bool(false));
  }
}
