/** The Maps Static API endpoint (googlemaps/maps.py). convert.size,
    convert.markers, convert.paths and convert.location_list are not part of
    this model and are taken as parameters. */
module Maps {
  import opened Maybe
  import opened Values
  import opened Exceptions
  import opened Builtins
  import opened Request
  import Convert

  const ImageFormats: set<string> := {"png8", "png", "png32", "gif", "jpg", "jpg-baseline"}
  const MapTypes: set<string> := {"roadmap", "satellite", "terrain", "hybrid"}

  const CenterZoomMessage := "both center and zoom are requeredwhen markers is not specifed"
  const FormatMessage := "Invalid image format"
  const MapTypeMessage := "Invalid maptype"

  /** `v in allowed` for a set of strings: a list or dict cannot be looked up. */
  function InSet(v: Value, allowed: set<string>): (r: Result<bool>)
    ensures r.Err? <==> Unhashable(v)
    ensures r.Ok? ==> (r.value <==> v.Str? && v.s in allowed)
  {
    if Unhashable(v) then Err(TypeError("unhashable type")) else Ok(v.Str? && v.s in allowed)
  }

  /** `[convert.markers(m) for m in markers]` */
  function MarkerList(markers: Value, markerOf: Value -> string): (r: Result<Value>)
    ensures r.Ok? <==> Iterate(markers).Ok?
    ensures (markers.List? || markers.Tuple?) ==>
      && r.Ok? && r.value.List?
      && |r.value.items| == |markers.items|
      && forall i :: 0 <= i < |markers.items| ==> r.value.items[i] == Str(markerOf(markers.items[i]))
  {
    var items :- Iterate(markers);
    Ok(List(seq(|items|, i requires 0 <= i < |items| => Str(markerOf(items[i])))))
  }

  /** The parameters maps_download sends, each with the condition under which
      it is set: size always, zoom and scale when not None, the rest when
      truthy (with their converted values). */
  function DownloadSlots(size: string, center: Option<string>, zoom: Value, scale: Value, format: Value,
                         maptype: Value, language: Value, region: Value, markers: Option<Value>,
                         path: Option<string>, visible: Option<string>, style: Option<string>): Slots
  {
    map["size" := Some(Str(size)), "center" := Computed(center), "zoom" := IfNotNone(zoom),
        "scale" := IfNotNone(scale), "format" := IfTruthy(format), "maptype" := IfTruthy(maptype),
        "language" := IfTruthy(language), "region" := IfTruthy(region), "markers" := markers,
        "path" := Computed(path), "visible" := Computed(visible), "style" := Computed(style)]
  }

  const DownloadKeys: set<string> := {"size", "center", "zoom", "scale", "format", "maptype", "language", "region",
    "markers", "path", "visible", "style"}

  /** Size is always sent; zoom and scale whenever they are not None, so a
      zoom or scale of 0 is sent too. */
  lemma DownloadParamsHead(size: string, center: Option<string>, zoom: Value, scale: Value, format: Value,
                           maptype: Value, language: Value, region: Value, markers: Option<Value>,
                           path: Option<string>, visible: Option<string>, style: Option<string>)
    ensures var d := Collect(DownloadSlots(size, center, zoom, scale, format, maptype, language, region,
                                           markers, path, visible, style));
      && Get(d, "size") == Some(Str(size)) && Get(d, "center") == Computed(center)
      && Get(d, "zoom") == IfNotNone(zoom) && Get(d, "scale") == IfNotNone(scale)
      && Get(d, "format") == IfTruthy(format) && Get(d, "maptype") == IfTruthy(maptype)
  {
    var s := DownloadSlots(size, center, zoom, scale, format, maptype, language, region,
                           markers, path, visible, style);
    CollectGet(s, "size");
    CollectGet(s, "center");
    CollectGet(s, "zoom");
    CollectGet(s, "scale");
    CollectGet(s, "format");
    CollectGet(s, "maptype");
  }

  /** The remaining keys appear exactly when computed, and no other key does. */
  lemma DownloadParamsTail(size: string, center: Option<string>, zoom: Value, scale: Value, format: Value,
                           maptype: Value, language: Value, region: Value, markers: Option<Value>,
                           path: Option<string>, visible: Option<string>, style: Option<string>)
    ensures var d := Collect(DownloadSlots(size, center, zoom, scale, format, maptype, language, region,
                                           markers, path, visible, style));
      && Get(d, "language") == IfTruthy(language) && Get(d, "region") == IfTruthy(region)
      && Get(d, "markers") == markers && Get(d, "path") == Computed(path)
      && Get(d, "visible") == Computed(visible) && Get(d, "style") == Computed(style)
      && d.Keys <= DownloadKeys
  {
    var s := DownloadSlots(size, center, zoom, scale, format, maptype, language, region,
                           markers, path, visible, style);
    CollectGet(s, "language");
    CollectGet(s, "region");
    CollectGet(s, "markers");
    CollectGet(s, "path");
    CollectGet(s, "visible");
    CollectGet(s, "style");
  }

  /** The check that opens maps_download: without markers, a truthy center
      or a zoom that is not None is needed; either one is enough, whatever
      the message says. */
  predicate Anchored(center: Value, zoom: Value, markers: Value) {
    Truthy(markers) || Truthy(center) || zoom != NoneV
  }

  /** The markers list when markers is truthy; nothing otherwise. */
  function TruthyMarkers(markers: Value, markerOf: Value -> string): Result<Option<Value>> {
    if Truthy(markers) then
      var m :- MarkerList(markers, markerOf);
      Ok(Some(m))
    else Ok(None)
  }

  /** An opaque conversion applied when its argument is truthy. */
  function TruthyApply(v: Value, f: Value -> string): Option<string> {
    if Truthy(v) then Some(f(v)) else None
  }

  /** The arguments maps_download lets through, checked in the order the
      code checks them. */
  predicate DownloadAccepts(center: Value, zoom: Value, format: Value, maptype: Value, markers: Value,
                            style: Value, markerOf: Value -> string) {
    && Anchored(center, zoom, markers)
    && Convert.TruthyLatlng(center).Ok?
    && (Truthy(format) ==> InSet(format, ImageFormats) == Ok(true))
    && (Truthy(maptype) ==> InSet(maptype, MapTypes) == Ok(true))
    && TruthyMarkers(markers, markerOf).Ok?
    && Convert.TruthyComponents(style).Ok?
  }

  /** What the checks of maps_download convert along the way. */
  datatype Converted = Converted(center: Option<string>, markers: Option<Value>, style: Option<string>)

  /** The checks and conversions of maps_download that can fail, in the
      order the code runs them: the center-or-zoom check, latlng(center), the
      format, the map type, the markers, components(style). */
  function DownloadCheck(center: Value, zoom: Value, format: Value, maptype: Value, markers: Value, style: Value,
                         markerOf: Value -> string): (r: Result<Converted>)
    ensures !Anchored(center, zoom, markers) ==> r == Err(ValueError(CenterZoomMessage))
    ensures (Anchored(center, zoom, markers) && Convert.TruthyLatlng(center).Ok? && Truthy(format) &&
             InSet(format, ImageFormats) == Ok(false)) ==> r == Err(ValueError(FormatMessage))
    ensures (Anchored(center, zoom, markers) && Convert.TruthyLatlng(center).Ok? &&
             (Truthy(format) ==> InSet(format, ImageFormats) == Ok(true)) &&
             Truthy(maptype) && InSet(maptype, MapTypes) == Ok(false)) ==> r == Err(ValueError(MapTypeMessage))
    ensures r.Ok? <==> DownloadAccepts(center, zoom, format, maptype, markers, style, markerOf)
    ensures r.Ok? ==> r.value == Converted(Convert.TruthyLatlng(center).value, TruthyMarkers(markers, markerOf).value,
                                           Convert.TruthyComponents(style).value)
  {
    if !Anchored(center, zoom, markers) then Err(ValueError(CenterZoomMessage))
    else
      var latlng :- Convert.TruthyLatlng(center);
      var formatKnown :- if Truthy(format) then InSet(format, ImageFormats) else Ok(true);
      if !formatKnown then Err(ValueError(FormatMessage))
      else
        var maptypeKnown :- if Truthy(maptype) then InSet(maptype, MapTypes) else Ok(true);
        if !maptypeKnown then Err(ValueError(MapTypeMessage))
        else
          var marks :- TruthyMarkers(markers, markerOf);
          var styled :- Convert.TruthyComponents(style);
          Ok(Converted(latlng, marks, styled))
  }

  /** maps.maps_download, proved against DownloadSlots: a streamed request
      whose raw response is returned, sent only when every check passes. */
  method Download(size: Value, center: Value, zoom: Value, scale: Value, format: Value, maptype: Value,
                  language: Value, region: Value, markers: Value, path: Value, visible: Value, style: Value,
                  sizeOf: Value -> string, markerOf: Value -> string, pathsOf: Value -> string,
                  locationList: Value -> string)
    returns (r: Result<ApiCall>)
    ensures r.Err? <==> DownloadCheck(center, zoom, format, maptype, markers, style, markerOf).Err?
    ensures r.Err? ==> r.error == DownloadCheck(center, zoom, format, maptype, markers, style, markerOf).error
    ensures r.Ok? ==> var c := DownloadCheck(center, zoom, format, maptype, markers, style, markerOf).value;
      r.value == ApiCall("/maps/api/staticmap",
        DictParams(Collect(DownloadSlots(sizeOf(size), c.center, zoom, scale, format, maptype, language, region,
                                         c.markers, TruthyApply(path, pathsOf), TruthyApply(visible, locationList),
                                         c.style))),
        None, true, RawResponse, None, true, Whole)
  {
    var params: Slots := map["size" := Some(Str(sizeOf(size)))];
    var checked := DownloadCheck(center, zoom, format, maptype, markers, style, markerOf);
    if checked.Err? {
      return Err(checked.error);
    }
    var c := checked.value;
    params := params["center" := Computed(c.center)];
    params := params["zoom" := IfNotNone(zoom)];
    params := params["scale" := IfNotNone(scale)];
    params := params["format" := IfTruthy(format)];
    params := params["maptype" := IfTruthy(maptype)];
    params := params["language" := IfTruthy(language)];
    params := params["region" := IfTruthy(region)];
    params := params["markers" := c.markers];
    params := params["path" := Computed(TruthyApply(path, pathsOf))];
    params := params["visible" := Computed(TruthyApply(visible, locationList))];
    params := params["style" := Computed(c.style)];
    assert params == DownloadSlots(sizeOf(size), c.center, zoom, scale, format, maptype, language, region,
                                   c.markers, TruthyApply(path, pathsOf), TruthyApply(visible, locationList),
                                   c.style);
    r := Ok(ApiCall("/maps/api/staticmap", DictParams(Collect(params)), None, true, RawResponse, None, true, Whole));
  }

  /** Either a center or a zoom lets a map without markers through the first
      check; a map with neither is refused before any conversion. */
  lemma CenterOrZoom(center: Value, zoom: Value)
    ensures Truthy(center) ==> Anchored(center, NoneV, NoneV)
    ensures zoom != NoneV ==> Anchored(NoneV, zoom, NoneV)
    ensures !Anchored(NoneV, NoneV, NoneV)
    ensures Anchored(NoneV, Int(0), NoneV)
  {
  }

  /** A list of markers is sent as one converted entry per marker, in order. */
  lemma MarkersInOrder(items: seq<Value>, markerOf: Value -> string)
    requires items != []
    ensures TruthyMarkers(List(items), markerOf).Ok?
    ensures var m := TruthyMarkers(List(items), markerOf).value;
      m.Some? && m.value.List? && |m.value.items| == |items| &&
      forall i :: 0 <= i < |items| ==> m.value.items[i] == Str(markerOf(items[i]))
  {
    assert Truthy(List(items));
  }
}
