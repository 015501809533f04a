/** Splitting text at a separator character: the inverse of joining with it. */
module Text {
  import opened Values

  predicate StartsWith(s: string, prefix: string) {
    |prefix| <= |s| && s[..|prefix|] == prefix
  }

  /** The position of the last occurrence of c in s. */
  function LastIndex(c: char, s: string): (i: nat)
    requires c in s
    ensures i < |s| && s[i] == c && c !in s[i + 1..]
    decreases |s|
  {
    if s[|s| - 1] == c then |s| - 1
    else
      assert c in s[..|s| - 1] by {
        var k :| 0 <= k < |s| && s[k] == c;
        assert s[..|s| - 1][k] == c;
      }
      var i := LastIndex(c, s[..|s| - 1]);
      assert s[i + 1..] == s[..|s| - 1][i + 1..] + [s[|s| - 1]];
      i
  }

  /** Any position of c with no c after it is the last one. */
  lemma LastIndexUnique(c: char, s: string, k: nat)
    requires k < |s| && s[k] == c && c !in s[k + 1..]
    ensures LastIndex(c, s) == k
  {
  }

  /** s.split(c) for a one-character separator. */
  function SplitOn(c: char, s: string): (parts: seq<string>)
    ensures |parts| >= 1
    decreases |s|
  {
    if c !in s then [s]
    else
      var i := LastIndex(c, s);
      SplitOn(c, s[..i]) + [s[i + 1..]]
  }

  /** Two pieces joined by a separator neither contains split back into the two. */
  lemma SplitPair(c: char, a: string, b: string)
    requires c !in a && c !in b
    ensures SplitOn(c, a + [c] + b) == [a, b]
  {
    var s := a + [c] + b;
    assert s[|a|] == c && s[|a| + 1..] == b;
    LastIndexUnique(c, s, |a|);
    assert s[..|a|] == a;
  }

  predicate NoneContains(c: char, parts: seq<string>) {
    forall i :: 0 <= i < |parts| ==> c !in parts[i]
  }

  /** Joining with a separator that occurs in no part can be undone by splitting. */
  lemma {:induction false} SplitJoin(c: char, parts: seq<string>)
    requires |parts| >= 1 && NoneContains(c, parts)
    ensures SplitOn(c, JoinStrings([c], parts)) == parts
    decreases |parts|
  {
    if |parts| > 1 {
      var init := parts[..|parts| - 1];
      var last := parts[|parts| - 1];
      var j := JoinStrings([c], init);
      var s := j + [c] + last;
      assert s == JoinStrings([c], parts);
      assert s[|j|] == c;
      assert s[|j| + 1..] == last;
      LastIndexUnique(c, s, |j|);
      assert s[..|j|] == j;
      SplitJoin(c, init);
      assert init + [last] == parts;
    }
  }

  /** The first piece of a split is the text before the first separator. */
  lemma {:induction false} SplitHead(c: char, a: string, b: string)
    requires c !in a
    ensures SplitOn(c, a + [c] + b)[0] == a
    decreases |b|
  {
    var s := a + [c] + b;
    if c !in b {
      SplitPair(c, a, b);
    } else {
      var k := LastIndex(c, b);
      assert s[|a| + 1 + k] == c;
      assert s[|a| + 1 + k + 1..] == b[k + 1..];
      LastIndexUnique(c, s, |a| + 1 + k);
      assert s[..|a| + 1 + k] == a + [c] + b[..k];
      SplitHead(c, a, b[..k]);
    }
  }
}
