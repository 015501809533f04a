/** The string conversions of googlemaps/convert.py (Python 2 semantics:
    strings are `basestring`, and `_is_list` holds for lists, tuples and dicts). */
module Convert {
  import opened Maybe
  import opened Values
  import opened Exceptions
  import opened Builtins
  import opened Text
  import Decimal

  /** A number "%f" accepts: an int, a bool or a float, in millionths. */
  predicate IsNumber(v: Value) {
    v.Int? || v.Float? || v.Bool?
  }

  function Micros(v: Value): int
    requires IsNumber(v)
  {
    match v
    case Int(n) => n * 1000000
    case Float(m) => m
    case Bool(b) => if b then 1000000 else 0
  }

  /** "%f" % v */
  function FormatF(v: Value): (r: Result<string>)
    ensures r.Ok? <==> IsNumber(v)
    ensures r.Ok? ==> Decimal.ParseFixedSix(r.value) == Some(Micros(v)) && ',' !in r.value && '|' !in r.value
    ensures r.Err? ==> r.error.TypeError?
  {
    if IsNumber(v) then
      Decimal.FixedSixRoundTrip(Micros(v));
      FixedSixHasNoSeparator(Micros(v));
      Ok(Decimal.FixedSix(Micros(v)))
    else Err(TypeError("float argument required"))
  }

  lemma FixedSixHasNoSeparator(m: int)
    ensures ',' !in Decimal.FixedSix(m) && '|' !in Decimal.FixedSix(m)
  {
    var a := if m < 0 then -m else m;
    var ip := Decimal.NatToString(a / 1000000);
    var fp := Decimal.Pad6(a % 1000000);
    assert Decimal.FixedSix(m) == (if m < 0 then "-" else "") + ip + "." + fp;
    assert forall i :: 0 <= i < |ip| ==> Decimal.IsDigit(ip[i]);
    assert forall i :: 0 <= i < |fp| ==> Decimal.IsDigit(fp[i]);
  }

  /** convert._is_list under Python 2, whose str has no `__iter__`: a list,
      tuple or dict is list-like, a string, number, bool or None is not. */
  predicate IsList(arg: Value): (r: bool)
    ensures arg.Str? || arg.Int? || arg.Float? || arg.Bool? || arg.NoneV? ==> !r
    ensures arg.List? || arg.Tuple? || arg.Dict? ==> r
  {
    IsListLike(arg)
  }

  /** convert.latlng: "lat,lng" with six decimals, or the string unchanged. */
  function Latlng(arg: Value): (r: Result<string>)
    ensures arg.Str? ==> r == Ok(arg.s)
    ensures (arg.Int? || arg.Float? || arg.Bool? || arg.NoneV?) ==> r.Err? && r.error.TypeError?
  {
    if arg.Str? then Ok(arg.s)
    else if arg.Dict? && HasKey(arg.entries, "lat") && HasKey(arg.entries, "lng") then
      FormatPair(Lookup(arg.entries, "lat").value, Lookup(arg.entries, "lng").value)
    else if IsList(arg) then
      var first :- Index(arg, Int(0));
      var second :- Index(arg, Int(1));
      FormatPair(first, second)
    else Err(TypeError("Expected a string or lat/lng dict"))
  }

  /** The location an endpoint sends for `if v: params[k] = latlng(v)`. */
  function TruthyLatlng(v: Value): (r: Result<Option<string>>)
    ensures !Truthy(v) ==> r == Ok(None)
    ensures Truthy(v) && v.Str? ==> r == Ok(Some(v.s))
  {
    if Truthy(v) then
      var t :- Latlng(v);
      Ok(Some(t))
    else Ok(None)
  }

  /** join_list(sep, v) when v is truthy; nothing otherwise. */
  function TruthyJoinList(sep: string, v: Value): (r: Result<Option<string>>)
    ensures !Truthy(v) ==> r == Ok(None)
    ensures Truthy(v) && v.Str? ==> r == Ok(Some(v.s))
  {
    if Truthy(v) then
      var t :- JoinList(sep, v);
      Ok(Some(t))
    else Ok(None)
  }

  /** components(v) when v is truthy; nothing otherwise. */
  function TruthyComponents(v: Value): (r: Result<Option<string>>)
    ensures !Truthy(v) ==> r == Ok(None)
    ensures Truthy(v) && v.Str? ==> r == Ok(Some(v.s))
  {
    if Truthy(v) then
      var t :- Components(v);
      Ok(Some(t))
    else Ok(None)
  }

  /** bounds(v) when v is truthy; nothing otherwise. */
  function TruthyBounds(v: Value): (r: Result<Option<string>>)
    ensures !Truthy(v) ==> r == Ok(None)
    ensures Truthy(v) && v.Str? ==> r == Ok(Some(v.s))
  {
    if Truthy(v) then
      var t :- Bounds(v);
      Ok(Some(t))
    else Ok(None)
  }

  /** "%f,%f" % (lat, lng) */
  function FormatPair(lat: Value, lng: Value): (r: Result<string>)
    ensures r.Ok? <==> IsNumber(lat) && IsNumber(lng)
  {
    var a :- FormatF(lat);
    var b :- FormatF(lng);
    Ok(a + "," + b)
  }

  /** Reads a "lat,lng" text back into millionths of a degree. */
  function ParseLatlng(s: string): Option<(int, int)> {
    var parts := SplitOn(',', s);
    if |parts| != 2 then None
    else
      match (Decimal.ParseFixedSix(parts[0]), Decimal.ParseFixedSix(parts[1]))
      case (Some(a), Some(b)) => Some((a, b))
      case _ => None
  }

  /** The numeric forms of latlng lose nothing beyond six decimals: a lat/lng
      dict and a two-number list or tuple read back as the numbers given. */
  lemma LatlngRoundTrip(arg: Value)
    requires Latlng(arg).Ok? && !arg.Str?
    ensures arg.Dict? && HasKey(arg.entries, "lat") && HasKey(arg.entries, "lng") ==>
      ParseLatlng(Latlng(arg).value) ==
        Some((Micros(Lookup(arg.entries, "lat").value), Micros(Lookup(arg.entries, "lng").value)))
    ensures (arg.List? || arg.Tuple?) ==>
      (|arg.items| >= 2 && ParseLatlng(Latlng(arg).value) == Some((Micros(arg.items[0]), Micros(arg.items[1]))))
  {
    var lat, lng;
    if arg.Dict? && HasKey(arg.entries, "lat") && HasKey(arg.entries, "lng") {
      lat, lng := Lookup(arg.entries, "lat").value, Lookup(arg.entries, "lng").value;
    } else if arg.Dict? {
      assert false;
    } else {
      lat, lng := Index(arg, Int(0)).value, Index(arg, Int(1)).value;
    }
    PairRoundTrip(lat, lng);
  }

  lemma PairRoundTrip(lat: Value, lng: Value)
    requires IsNumber(lat) && IsNumber(lng)
    ensures ParseLatlng(FormatPair(lat, lng).value) == Some((Micros(lat), Micros(lng)))
  {
    var a, b := FormatF(lat).value, FormatF(lng).value;
    assert FormatPair(lat, lng).value == a + [','] + b;
    ParseJoined(a, b);
  }

  /** Two comma-free pieces joined by a comma are read back piece by piece. */
  lemma ParseJoined(a: string, b: string)
    requires ',' !in a && ',' !in b
    ensures ParseLatlng(a + [','] + b) ==
      match (Decimal.ParseFixedSix(a), Decimal.ParseFixedSix(b))
      case (Some(x), Some(y)) => Some((x, y))
      case _ => None
  {
    SplitPair(',', a, b);
  }

  /** convert.as_list */
  function AsList(arg: Value): (r: Value)
    ensures IsList(r)
    ensures IsList(arg) ==> r == arg
    ensures !IsList(arg) ==> r == List([arg])
  {
    if IsList(arg) then arg else List([arg])
  }

  /** convert.join_list: sep.join(as_list(arg)). */
  function JoinList(sep: string, arg: Value): (r: Result<string>)
    ensures arg.Str? ==> r == Ok(arg.s)
    ensures arg == List([]) || arg == Tuple([]) ==> r == Ok("")
    ensures (arg.List? || arg.Tuple?) ==> (r.Ok? <==> AllStrings(arg.items))
    ensures (arg.List? || arg.Tuple?) && r.Ok? ==> r.value == JoinStrings(sep, Strings(arg.items))
  {
    var items := Iterate(AsList(arg)).value;
    Join(sep, items)
  }

  /** Joining a list of strings with a one-character separator none of them
      contains can be undone by splitting. */
  lemma JoinListSplit(c: char, items: seq<Value>)
    requires |items| >= 1 && AllStrings(items) && NoneContains(c, Strings(items))
    ensures JoinList([c], List(items)).Ok?
    ensures SplitOn(c, JoinList([c], List(items)).value) == Strings(items)
  {
    SplitJoin(c, Strings(items));
  }

  /** `[f(x) for x in xs]` for a conversion that may raise: every element
      converted, in order, or the error of the first one that fails. */
  function EachOf(f: Value -> Result<string>, xs: seq<Value>): (r: Result<seq<string>>)
    ensures r.Ok? <==> forall i :: 0 <= i < |xs| ==> f(xs[i]).Ok?
    ensures r.Ok? ==> |r.value| == |xs| && forall i :: 0 <= i < |xs| ==> r.value[i] == f(xs[i]).value
    ensures r.Err? ==>
      exists i :: 0 <= i < |xs| && f(xs[i]) == Err(r.error) && forall j :: 0 <= j < i ==> f(xs[j]).Ok?
    decreases |xs|
  {
    if xs == [] then Ok([])
    else
      var head :- f(xs[0]);
      var tail :- EachOf(f, xs[1..]);
      Ok([head] + tail)
  }

  /** Two conversions that agree on every value convert every list alike. */
  lemma {:induction false} EachOfSame(f: Value -> Result<string>, g: Value -> Result<string>, xs: seq<Value>)
    requires forall x :: f(x) == g(x)
    ensures EachOf(f, xs) == EachOf(g, xs)
    decreases |xs|
  {
    if xs != [] {
      EachOfSame(f, g, xs[1..]);
    }
  }

  /** join_list(sep, [f(x) for x in as_list(v)]): the elements of a list or
      tuple converted one by one, or a single value converted alone. */
  function JoinEach(sep: string, f: Value -> Result<string>, v: Value): (r: Result<string>)
    ensures (v.List? || v.Tuple?) ==> (r.Ok? <==> forall i :: 0 <= i < |v.items| ==> f(v.items[i]).Ok?)
    ensures (v.List? || v.Tuple?) && r.Ok? ==> r.value == JoinStrings(sep, EachOf(f, v.items).value)
    ensures !IsList(v) ==> r == f(v)
  {
    var parts :- EachOf(f, Iterate(AsList(v)).value);
    Ok(JoinStrings(sep, parts))
  }

  /** convert.time for the non-datetime cases: floats are truncated toward zero
      by int(), everything else is rendered by str(). */
  function Time(arg: Value): (r: string)
    ensures arg.Int? ==> Decimal.ParseInt(r) == Some(arg.n)
    ensures arg.Float? ==> Decimal.ParseInt(r) == Some(TruncateMicros(arg.micros))
    ensures arg.Str? ==> r == arg.s
  {
    var t := if arg.Float? then Int(TruncateMicros(arg.micros)) else arg;
    Decimal.IntToStringRoundTrip(if t.Int? then t.n else 0);
    Render(t)
  }

  /** The slot of `if t: params[k] = convert.time(t)`. */
  function TimeSlot(t: Value): Option<Value> {
    if Truthy(t) then Some(Str(Time(t))) else None
  }

  /** int(x) for a float x given in millionths: rounds toward zero. */
  function TruncateMicros(m: int): (n: int)
    ensures m >= 0 ==> 0 <= n * 1000000 <= m < (n + 1) * 1000000
    ensures m < 0 ==> (n - 1) * 1000000 < m <= n * 1000000 <= 0
  {
    if m >= 0 then m / 1000000 else -((-m) / 1000000)
  }

  /** The "k:v" text of each entry of a components dict, in iteration order. */
  function ComponentEntries(es: seq<(string, Value)>): (r: seq<string>)
    ensures |r| == |es|
  {
    seq(|es|, i requires 0 <= i < |es| => es[i].0 + ":" + Render(LookupValue(es, es[i].0)))
  }

  /** arg[k] for a key k the dict is known to hold. */
  function LookupValue(es: seq<(string, Value)>, k: string): Value {
    match Lookup(es, k)
    case Some(v) => v
    case None => NoneV
  }

  /** convert.components */
  function Components(arg: Value): (r: Result<string>)
    ensures arg.Str? ==> r == Ok(arg.s)
    ensures arg.Dict? ==> r == Ok(JoinStrings("|", ComponentEntries(arg.entries)))
    ensures !arg.Str? && !arg.Dict? ==> r.Err? && r.error.TypeError?
  {
    if arg.Str? then Ok(arg.s)
    else if arg.Dict? then Ok(JoinStrings("|", ComponentEntries(arg.entries)))
    else Err(TypeError("Expected a string or dict for components"))
  }

  /** A components dict (distinct keys, no '|' in the texts) splits back into
      one "key:value" entry per dict entry, in order. */
  lemma ComponentsSplit(es: seq<(string, Value)>)
    requires |es| >= 1 && DistinctKeys(es)
    requires forall i :: 0 <= i < |es| ==> '|' !in es[i].0 + ":" + Render(es[i].1)
    ensures var parts := SplitOn('|', Components(Dict(es)).value);
      |parts| == |es| && forall i :: 0 <= i < |es| ==> parts[i] == es[i].0 + ":" + Render(es[i].1)
  {
    var entries := ComponentEntries(es);
    forall i | 0 <= i < |es| ensures entries[i] == es[i].0 + ":" + Render(es[i].1) {
      LookupAt(es, i);
    }
    SplitJoin('|', entries);
  }

  /** convert.bounds */
  function Bounds(arg: Value): (r: Result<string>)
    ensures arg.Str? ==> r == Ok(arg.s)
    ensures !arg.Str? && !(arg.Dict? && HasKey(arg.entries, "southwest") && HasKey(arg.entries, "northeast")) ==>
      r.Err? && r.error.TypeError?
  {
    if arg.Str? then Ok(arg.s)
    else if arg.Dict? && HasKey(arg.entries, "southwest") && HasKey(arg.entries, "northeast") then
      var sw :- Latlng(Lookup(arg.entries, "southwest").value);
      var ne :- Latlng(Lookup(arg.entries, "northeast").value);
      Ok(sw + "|" + ne)
    else Err(TypeError("Expected a string or bounds (southwest/northeast) dict"))
  }

  /** Bounds given by numeric corners split at '|' into the southwest corner's
      latlng followed by the northeast corner's. */
  lemma BoundsSouthwestFirst(es: seq<(string, Value)>)
    requires HasKey(es, "southwest") && HasKey(es, "northeast")
    requires var sw := Lookup(es, "southwest").value; var ne := Lookup(es, "northeast").value;
      Latlng(sw).Ok? && Latlng(ne).Ok? && !sw.Str? && !ne.Str?
    ensures Bounds(Dict(es)).Ok?
    ensures SplitOn('|', Bounds(Dict(es)).value) ==
      [Latlng(Lookup(es, "southwest").value).value, Latlng(Lookup(es, "northeast").value).value]
  {
    var a := Latlng(Lookup(es, "southwest").value).value;
    var b := Latlng(Lookup(es, "northeast").value).value;
    LatlngHasNoPipe(Lookup(es, "southwest").value);
    LatlngHasNoPipe(Lookup(es, "northeast").value);
    assert Bounds(Dict(es)).value == a + ['|'] + b;
    SplitPair('|', a, b);
  }

  lemma LatlngHasNoPipe(arg: Value)
    requires Latlng(arg).Ok? && !arg.Str?
    ensures '|' !in Latlng(arg).value
  {
    var lat, lng;
    if arg.Dict? && HasKey(arg.entries, "lat") && HasKey(arg.entries, "lng") {
      lat, lng := Lookup(arg.entries, "lat").value, Lookup(arg.entries, "lng").value;
    } else if arg.Dict? {
      assert false;
    } else {
      lat, lng := Index(arg, Int(0)).value, Index(arg, Int(1)).value;
    }
    var a, b := FormatF(lat).value, FormatF(lng).value;
    assert Latlng(arg).value == a + "," + b;
  }
}
