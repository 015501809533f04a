/** The Python values that flow through the client library: arguments of the
    endpoint functions, request parameters and decoded JSON bodies.
    Python-2 string semantics apply (the conversion helpers test `basestring`). */
module Values {
  import opened Maybe
  import Decimal

  /** A float is carried as a whole number of millionths; only floats with at
      most six decimals are modelled, so that "%f" formatting is exact. */
  datatype Value =
    | Str(s: string)
    | Int(n: int)
    | Float(micros: int)
    | Bool(b: bool)
    | NoneV
    | List(items: seq<Value>)
    | Tuple(items: seq<Value>)
    | Dict(entries: seq<(string, Value)>)

  /** Python truthiness: empty strings and containers, zero, False and None are false. */
  predicate Truthy(v: Value) {
    match v
    case Str(s) => s != ""
    case Int(n) => n != 0
    case Float(m) => m != 0
    case Bool(b) => b
    case NoneV => false
    case List(xs) => xs != []
    case Tuple(xs) => xs != []
    case Dict(es) => es != []
  }

  /** convert._is_list under Python 2: no `strip` method but `__getitem__`, or
      `__iter__`; lists, tuples and dicts qualify, strings and numbers do not. */
  predicate IsListLike(v: Value) {
    v.List? || v.Tuple? || v.Dict?
  }

  function Keys(es: seq<(string, Value)>): (ks: seq<string>)
    ensures |ks| == |es| && forall i :: 0 <= i < |es| ==> ks[i] == es[i].0
  {
    if es == [] then [] else [es[0].0] + Keys(es[1..])
  }

  /** A Python dict: insertion-ordered entries whose keys are distinct. */
  predicate DistinctKeys(es: seq<(string, Value)>) {
    forall i, j :: 0 <= i < j < |es| ==> es[i].0 != es[j].0
  }

  predicate HasKey(es: seq<(string, Value)>, k: string) {
    exists i :: 0 <= i < |es| && es[i].0 == k
  }

  /** The position of k in a dict's entries (the first one, should keys repeat). */
  function IndexOf(es: seq<(string, Value)>, k: string): (i: nat)
    requires HasKey(es, k)
    ensures i < |es| && es[i].0 == k
    ensures forall j :: 0 <= j < i ==> es[j].0 != k
  {
    if es[0].0 == k then 0
    else
      assert HasKey(es[1..], k) by {
        var i :| 0 <= i < |es| && es[i].0 == k;
        assert es[1..][i - 1].0 == k;
      }
      1 + IndexOf(es[1..], k)
  }

  /** d.get(k): the value stored under k, if any. */
  function Lookup(es: seq<(string, Value)>, k: string): (r: Option<Value>)
    ensures r.Some? <==> HasKey(es, k)
    ensures r.Some? ==> exists i :: 0 <= i < |es| && es[i] == (k, r.value)
  {
    if HasKey(es, k) then Some(es[IndexOf(es, k)].1) else None
  }

  /** In a dict whose keys are distinct, the entry at any position is what Lookup finds. */
  lemma LookupAt(es: seq<(string, Value)>, i: int)
    requires DistinctKeys(es) && 0 <= i < |es|
    ensures Lookup(es, es[i].0) == Some(es[i].1)
  {
  }

  /** d[k] = v: replaces the value of an existing key in place, or appends. */
  function Put(es: seq<(string, Value)>, k: string, v: Value): (r: seq<(string, Value)>)
    ensures Lookup(r, k) == Some(v)
    ensures forall k' :: k' != k ==> Lookup(r, k') == Lookup(es, k')
    ensures HasKey(es, k) ==> Keys(r) == Keys(es)
    ensures !HasKey(es, k) ==> r == es + [(k, v)]
    ensures DistinctKeys(es) ==> DistinctKeys(r)
  {
    if HasKey(es, k) then
      ReplaceEntry(es, k, v);
      es[IndexOf(es, k) := (k, v)]
    else
      AppendEntry(es, k, v);
      es + [(k, v)]
  }

  lemma ReplaceEntry(es: seq<(string, Value)>, k: string, v: Value)
    requires HasKey(es, k)
    ensures var r := es[IndexOf(es, k) := (k, v)];
      && Lookup(r, k) == Some(v)
      && (forall k' :: k' != k ==> Lookup(r, k') == Lookup(es, k'))
      && Keys(r) == Keys(es)
      && (DistinctKeys(es) ==> DistinctKeys(r))
  {
    var i := IndexOf(es, k);
    var r := es[i := (k, v)];
    SameKeys(es, r);
    assert IndexOf(r, k) == i;
    forall k' | k' != k && HasKey(es, k') ensures IndexOf(r, k') == IndexOf(es, k') {
      SameKeysIndex(es, r, k');
    }
  }

  /** Two entry sequences with the same keys position by position. */
  lemma SameKeys(es: seq<(string, Value)>, r: seq<(string, Value)>)
    requires |r| == |es| && forall j :: 0 <= j < |r| ==> r[j].0 == es[j].0
    ensures Keys(r) == Keys(es)
    ensures forall k' :: HasKey(r, k') == HasKey(es, k')
    ensures DistinctKeys(es) ==> DistinctKeys(r)
  {
    forall k' ensures HasKey(r, k') == HasKey(es, k') {
      if HasKey(es, k') {
        var b := IndexOf(es, k');
        assert r[b].0 == k';
      }
    }
  }

  lemma SameKeysIndex(es: seq<(string, Value)>, r: seq<(string, Value)>, k': string)
    requires |r| == |es| && forall j :: 0 <= j < |r| ==> r[j].0 == es[j].0
    requires HasKey(es, k') && HasKey(r, k')
    ensures IndexOf(r, k') == IndexOf(es, k')
  {
    var b := IndexOf(es, k');
    var a := IndexOf(r, k');
    assert es[a].0 == k' && r[b].0 == k';
  }

  lemma AppendEntry(es: seq<(string, Value)>, k: string, v: Value)
    requires !HasKey(es, k)
    ensures var r := es + [(k, v)];
      && Lookup(r, k) == Some(v)
      && (forall k' :: k' != k ==> Lookup(r, k') == Lookup(es, k'))
      && (DistinctKeys(es) ==> DistinctKeys(r))
  {
    var r := es + [(k, v)];
    assert r[|es|].0 == k;
    assert IndexOf(r, k) == |es|;
    forall k' | k' != k ensures Lookup(r, k') == Lookup(es, k') {
      if HasKey(es, k') {
        var b := IndexOf(es, k');
        assert r[b].0 == k';
        var a := IndexOf(r, k');
      }
    }
  }

  /** Idempotence of d[k] = v: assigning the same value again changes nothing. */
  lemma PutTwice(es: seq<(string, Value)>, k: string, v: Value)
    ensures Put(Put(es, k, v), k, v) == Put(es, k, v)
  {
    var r := Put(es, k, v);
    assert HasKey(r, k);
    var i := IndexOf(r, k);
    assert r[i] == (k, v);
    assert r[i := (k, v)] == r;
  }

  /** m.get(k) on a map. */
  function Get(m: map<string, Value>, k: string): (r: Option<Value>)
    ensures r.Some? <==> k in m
    ensures r.Some? ==> r.value == m[k]
  {
    if k in m then Some(m[k]) else None
  }

  /** A dict under construction by a run of `if cond: d[k] = v` statements
      on distinct keys, starting from a dict with none of them: each key the
      code may set, with the value set, or None when its condition was false. */
  type Slots = map<string, Option<Value>>

  /** The slot of `if v is not None: d[k] = v`. */
  function IfNotNone(v: Value): Option<Value>
  {
    if v == NoneV then None else Some(v)
  }

  /** The slot of `if v: d[k] = v`. */
  function IfTruthy(v: Value): Option<Value>
  {
    if Truthy(v) then Some(v) else None
  }

  /** The slot of `if v: d[k] = "true"`. */
  function IfFlag(v: Value): Option<Value>
  {
    if Truthy(v) then Some(Str("true")) else None
  }

  /** The slot of `if cond: d[k] = f(...)`, where the value was computed only
      when the condition held. */
  function Computed(o: Option<string>): Option<Value>
  {
    match o
    case Some(t) => Some(Str(t))
    case None => None
  }

  /** The dict the slots stand for: the keys whose statement ran. */
  function Collect(s: Slots): (d: map<string, Value>)
    ensures d.Keys <= s.Keys
  {
    map k | k in s && s[k].Some? :: s[k].value
  }

  /** Reading a collected dict: a key is present exactly when its statement ran. */
  lemma CollectGet(s: Slots, k: string)
    ensures Get(Collect(s), k) == if k in s then s[k] else None
  {
  }

  /** Python's str(): strings are themselves, everything else is its repr(). */
  function Render(v: Value): string {
    if v.Str? then v.s else Repr(v)
  }

  /** Python's repr(). Escapes inside quoted strings are not modelled. */
  function Repr(v: Value): string
    decreases v
  {
    match v
    case Str(s) => "'" + s + "'"
    case Int(n) => Decimal.IntToString(n)
    case Float(m) => Decimal.ShortFloat(m)
    case Bool(b) => if b then "True" else "False"
    case NoneV => "None"
    case List(xs) => "[" + JoinStrings(", ", seq(|xs|, i requires 0 <= i < |xs| => Repr(xs[i]))) + "]"
    case Tuple(xs) =>
      if |xs| == 1 then "(" + Repr(xs[0]) + ",)"
      else "(" + JoinStrings(", ", seq(|xs|, i requires 0 <= i < |xs| => Repr(xs[i]))) + ")"
    case Dict(es) =>
      "{" + JoinStrings(", ", seq(|es|, i requires 0 <= i < |es| => "'" + es[i].0 + "': " + Repr(es[i].1))) + "}"
  }

  /** sep.join(parts) on strings. */
  function JoinStrings(sep: string, parts: seq<string>): (r: string)
    ensures |parts| == 1 ==> r == parts[0]
    ensures parts == [] ==> r == ""
    decreases |parts|
  {
    if parts == [] then ""
    else if |parts| == 1 then parts[0]
    else JoinStrings(sep, parts[..|parts| - 1]) + sep + parts[|parts| - 1]
  }
}
