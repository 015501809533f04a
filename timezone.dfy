/** The Time Zone API endpoint of the Context interface (googlemaps/timezone.py).
    The default timestamp, datetime.now() evaluated once when the module is
    imported, is not part of this model: the timestamp is always an argument. */
module Timezone {
  import opened Maybe
  import opened Values
  import opened Exceptions
  import opened Request
  import Convert
  import Decimal

  const TimezonePath := "/maps/api/timezone/json"

  /** timezone.timezone: the location (a string as it is, anything else
      through latlng) and the timestamp are always sent, the language only
      when truthy; the whole body is returned. */
  method Timezone(location: Value, timestamp: Value, language: Value) returns (r: Result<ContextCall>)
    ensures r.Err? <==> Convert.Latlng(location).Err?
    ensures r.Err? ==> r.error == Convert.Latlng(location).error
    ensures r.Ok? ==> var call := r.value; var d := call.params;
      && call.path == TimezonePath && call.post == Whole
      && Get(d, "location") == Some(Str(Convert.Latlng(location).value))
      && Get(d, "timestamp") == Some(Str(Convert.Time(timestamp)))
      && Get(d, "language") == IfTruthy(language)
      && d.Keys <= {"location", "timestamp", "language"}
  {
    var loc: string;
    if !location.Str? {
      var converted := Convert.Latlng(location);
      if converted.Err? {
        return Err(converted.error);
      }
      loc := converted.value;
    } else {
      loc := location.s;
    }
    var stamp := Convert.Time(timestamp);
    var params: map<string, Value> := map["location" := Str(loc), "timestamp" := Str(stamp)];
    if Truthy(language) {
      params := params["language" := language];
    }
    r := Ok(ContextCall(TimezonePath, params, Whole));
  }

  /** An integer timestamp is sent as its decimal digits and can be read
      back; a float is truncated toward zero first. */
  lemma TimestampReadBack(n: int, micros: int)
    ensures Decimal.ParseInt(Convert.Time(Int(n))) == Some(n)
    ensures Decimal.ParseInt(Convert.Time(Float(micros))) == Some(Convert.TruncateMicros(micros))
  {
  }
}
