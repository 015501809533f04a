/** Python's sorted() on (key, value) items whose keys are distinct: ordered by
    key, code point by code point, a proper prefix first. */
module Sorting {
  import opened Values

  predicate StrLt(a: string, b: string)
    decreases |a|
  {
    if a == [] then b != []
    else if b == [] then false
    else if a[0] != b[0] then a[0] < b[0]
    else StrLt(a[1..], b[1..])
  }

  predicate StrLe(a: string, b: string) {
    a == b || StrLt(a, b)
  }

  /** String order is total. */
  lemma {:induction false} StrTotal(a: string, b: string)
    ensures StrLe(a, b) || StrLe(b, a)
    decreases |a|
  {
    if a != [] && b != [] && a[0] == b[0] {
      StrTotal(a[1..], b[1..]);
      if a[1..] == b[1..] {
        assert a == [a[0]] + a[1..] && b == [b[0]] + b[1..];
      }
    }
  }

  lemma {:induction false} StrLtIrreflexive(a: string)
    ensures !StrLt(a, a)
    decreases |a|
  {
    if a != [] {
      StrLtIrreflexive(a[1..]);
    }
  }

  lemma {:induction false} StrLtTransitive(a: string, b: string, c: string)
    requires StrLt(a, b) && StrLt(b, c)
    ensures StrLt(a, c)
    decreases |a|
  {
    if a != [] && a[0] == b[0] && b[0] == c[0] {
      StrLtTransitive(a[1..], b[1..], c[1..]);
    }
  }

  /** A proper order on strings is antisymmetric through StrLe. */
  lemma StrLeAntisymmetric(a: string, b: string)
    requires StrLe(a, b) && StrLe(b, a)
    ensures a == b
  {
    if a != b {
      StrLtTransitive(a, b, a);
      StrLtIrreflexive(a);
    }
  }

  /** Every non-empty set of strings has a least element. */
  lemma {:induction false} MinExists(ks: set<string>)
    requires ks != {}
    ensures exists k :: k in ks && forall j :: j in ks ==> StrLe(k, j)
    decreases |ks|
  {
    var x :| x in ks;
    var rest := ks - {x};
    if rest == {} {
      forall j | j in ks ensures StrLe(x, j) {
        assert j !in rest;
      }
    } else {
      MinExists(rest);
      var y :| y in rest && forall j :: j in rest ==> StrLe(y, j);
      StrTotal(x, y);
      if StrLe(x, y) {
        forall j | j in ks ensures StrLe(x, j) {
          if j != x {
            assert j in rest;
            if x != y && y != j {
              StrLtTransitive(x, y, j);
            }
          }
        }
      } else {
        forall j | j in ks ensures StrLe(y, j) {
          if j != x {
            assert j in rest;
          }
        }
      }
    }
  }

  /** The least key of a non-empty set. */
  function MinKey(ks: set<string>): (k: string)
    requires ks != {}
    ensures k in ks && forall j :: j in ks ==> StrLe(k, j)
  {
    MinExists(ks);
    forall a, b | a in ks && b in ks && StrLe(a, b) && StrLe(b, a) ensures a == b {
      StrLeAntisymmetric(a, b);
    }
    var k :| k in ks && forall j :: j in ks ==> StrLe(k, j);
    k
  }

  /** Keys strictly increasing: sorted, and no key twice. */
  predicate StrictlySorted(items: seq<(string, Value)>) {
    forall i, j :: 0 <= i < j < |items| ==> StrLt(items[i].0, items[j].0)
  }

  /** sorted(d.items()): the dict's entries, each once, in increasing key order. */
  function SortedItems(d: map<string, Value>): (r: seq<(string, Value)>)
    ensures StrictlySorted(r)
    ensures |r| == |d|
    ensures forall i :: 0 <= i < |r| ==> r[i].0 in d && d[r[i].0] == r[i].1
    ensures forall k :: k in d ==> (k, d[k]) in r
    decreases |d|
  {
    if d == map[] then []
    else
      var k := MinKey(d.Keys);
      var rest := d - {k};
      assert |rest| == |d| - 1 by {
        assert rest.Keys == d.Keys - {k};
      }
      var tail := SortedItems(rest);
      ConsSorted(d, k, tail);
      [(k, d[k])] + tail
  }

  /** The least entry in front of the sorted rest keeps everything the
      sorted items promise. */
  lemma ConsSorted(d: map<string, Value>, k: string, tail: seq<(string, Value)>)
    requires k in d && forall j :: j in d ==> StrLe(k, j)
    requires StrictlySorted(tail) && |tail| == |d| - 1
    requires forall i :: 0 <= i < |tail| ==> tail[i].0 in d - {k} && (d - {k})[tail[i].0] == tail[i].1
    requires forall x :: x in d - {k} ==> (x, (d - {k})[x]) in tail
    ensures var r := [(k, d[k])] + tail;
      && StrictlySorted(r)
      && (forall i :: 0 <= i < |r| ==> r[i].0 in d && d[r[i].0] == r[i].1)
      && (forall x :: x in d ==> (x, d[x]) in r)
  {
    var r := [(k, d[k])] + tail;
    forall i, j | 0 <= i < j < |r| ensures StrLt(r[i].0, r[j].0) {
      if i == 0 {
        assert r[j] == tail[j - 1];
        assert r[j].0 in d - {k};
      } else {
        assert r[i] == tail[i - 1] && r[j] == tail[j - 1];
      }
    }
    forall x | x in d ensures (x, d[x]) in r {
      if x != k {
        assert x in d - {k};
        var i :| 0 <= i < |tail| && tail[i] == (x, (d - {k})[x]);
        assert r[i + 1] == tail[i];
      } else {
        assert r[0] == (x, d[x]);
      }
    }
  }

  /** Sorting keeps the dict: the items found for a key are the key's value. */
  lemma {:induction false} SortedLookup(d: map<string, Value>, k: string)
    ensures DistinctKeys(SortedItems(d))
    ensures Lookup(SortedItems(d), k) == Get(d, k)
  {
    var r := SortedItems(d);
    forall i, j | 0 <= i < j < |r| ensures r[i].0 != r[j].0 {
      StrLtIrreflexive(r[i].0);
    }
    if k in d {
      var i :| 0 <= i < |r| && r[i] == (k, d[k]);
      LookupAt(r, i);
    }
  }
}
