/** The Python built-in operations the client applies to values it did not
    build itself: subscription, `in`, dict.get, iteration and str.join. */
module Builtins {
  import opened Maybe
  import opened Values
  import opened Exceptions

  /** v[key] */
  function Index(v: Value, key: Value): (r: Result<Value>)
    ensures v.Dict? ==> (r.Ok? <==> key.Str? && HasKey(v.entries, key.s))
    ensures v.Dict? && r.Ok? ==> Lookup(v.entries, key.s) == Some(r.value)
    ensures v.Dict? && r.Err? && key.Str? ==> r.error == KeyError(key)
    ensures (v.List? || v.Tuple?) && key.Int? && 0 <= key.n < |v.items| ==> r == Ok(v.items[key.n])
    ensures (v.List? || v.Tuple?) && key.Int? && !(-|v.items| <= key.n < |v.items|) ==> r.Err? && r.error.IndexError?
    ensures (v.Int? || v.Float? || v.Bool? || v.NoneV?) ==> r.Err? && r.error.TypeError?
  {
    match v
    case Dict(es) =>
      if key.List? || key.Dict? then Err(TypeError("unhashable type"))
      else if key.Str? && HasKey(es, key.s) then Ok(Lookup(es, key.s).value)
      else Err(KeyError(key))
    case List(xs) => SequenceIndex(xs, key, "list")
    case Tuple(xs) => SequenceIndex(xs, key, "tuple")
    case Str(s) => SequenceIndex(seq(|s|, i requires 0 <= i < |s| => Str([s[i]])), key, "string")
    case _ => Err(TypeError("object is not subscriptable"))
  }

  /** Indexing a list, tuple or string: integers (and booleans) only, negative
      indices count from the end. */
  function SequenceIndex(xs: seq<Value>, key: Value, kind: string): (r: Result<Value>)
    ensures r.Ok? <==> (key.Int? && -|xs| <= key.n < |xs|) || (key.Bool? && |xs| > (if key.b then 1 else 0))
  {
    if key.Int? || key.Bool? then
      var i := if key.Int? then key.n else if key.b then 1 else 0;
      if 0 <= i < |xs| then Ok(xs[i])
      else if -|xs| <= i < 0 then Ok(xs[|xs| + i])
      else Err(IndexError(kind + " index out of range"))
    else Err(TypeError(kind + " indices must be integers"))
  }

  /** Lists and dicts cannot be set elements or dict keys. */
  predicate Unhashable(v: Value) {
    v.List? || v.Dict?
  }

  /** x in container */
  function Contains(container: Value, x: Value): (r: Result<bool>)
    ensures container.Dict? && x.Str? ==> r == Ok(HasKey(container.entries, x.s))
    ensures (container.List? || container.Tuple?) ==> r == Ok(x in container.items)
    ensures container.Str? && x.Str? ==> r == Ok(IsSubstring(x.s, container.s))
  {
    match container
    case Dict(es) =>
      if x.List? || x.Dict? then Err(TypeError("unhashable type"))
      else Ok(x.Str? && HasKey(es, x.s))
    case List(xs) => Ok(x in xs)
    case Tuple(xs) => Ok(x in xs)
    case Str(s) =>
      if x.Str? then Ok(IsSubstring(x.s, s))
      else Err(TypeError("'in <string>' requires string as left operand"))
    case _ => Err(TypeError("argument is not iterable"))
  }

  predicate IsSubstring(needle: string, hay: string) {
    exists i, j :: 0 <= i <= j <= |hay| && hay[i..j] == needle
  }

  /** v.get(key, default): dicts only; anything else has no `get`. */
  function DictGet(v: Value, key: string, default: Value): (r: Result<Value>)
    ensures v.Dict? && HasKey(v.entries, key) ==> r == Ok(Lookup(v.entries, key).value)
    ensures v.Dict? && !HasKey(v.entries, key) ==> r == Ok(default)
    ensures !v.Dict? ==> r == Err(AttributeError("get"))
  {
    if v.Dict? then
      match Lookup(v.entries, key)
      case Some(x) => Ok(x)
      case None => Ok(default)
    else Err(AttributeError("get"))
  }

  /** The elements `for x in v` visits: characters of a string, items of a
      list or tuple, keys of a dict. */
  function Iterate(v: Value): (r: Result<seq<Value>>)
    ensures (v.List? || v.Tuple?) ==> r == Ok(v.items)
    ensures v.Dict? ==> r.Ok? && |r.value| == |v.entries|
    ensures r.Err? <==> !(v.Str? || v.List? || v.Tuple? || v.Dict?)
  {
    match v
    case Str(s) => Ok(seq(|s|, i requires 0 <= i < |s| => Str([s[i]])))
    case List(xs) => Ok(xs)
    case Tuple(xs) => Ok(xs)
    case Dict(es) => Ok(seq(|es|, i requires 0 <= i < |es| => Str(es[i].0)))
    case _ => Err(TypeError("object is not iterable"))
  }

  predicate AllStrings(xs: seq<Value>) {
    forall i :: 0 <= i < |xs| ==> xs[i].Str?
  }

  function Strings(xs: seq<Value>): (r: seq<string>)
    requires AllStrings(xs)
    ensures |r| == |xs| && forall i :: 0 <= i < |xs| ==> r[i] == xs[i].s
  {
    seq(|xs|, i requires 0 <= i < |xs| => xs[i].s)
  }

  /** sep.join(xs): every element must be a string. */
  function Join(sep: string, xs: seq<Value>): (r: Result<string>)
    ensures r.Ok? <==> AllStrings(xs)
    ensures r.Ok? ==> r.value == JoinStrings(sep, Strings(xs))
    ensures r.Err? ==> r.error.TypeError?
  {
    if AllStrings(xs) then Ok(JoinStrings(sep, Strings(xs)))
    else Err(TypeError("sequence item: expected string"))
  }
}
