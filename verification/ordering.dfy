/** `ORDER BY <key> DESC`: a descending sort by an integer key.
    SQL leaves the order of rows with equal keys unspecified, so the
    contracts promise only a permutation whose keys never increase. */
module Ordering {

  /** Keys never increase from left to right. */
  ghost predicate Descending<T>(s: seq<T>, key: T -> int) {
    forall i, j :: 0 <= i < j < |s| ==> key(s[i]) >= key(s[j])
  }

  /** Prepending an element whose key bounds every key of a descending sequence keeps it descending. */
  lemma ConsDescending<T>(a: T, s: seq<T>, key: T -> int)
    requires Descending(s, key)
    requires forall j :: 0 <= j < |s| ==> key(a) >= key(s[j])
    ensures Descending([a] + s, key)
  {
    var r := [a] + s;
    forall i, j | 0 <= i < j < |r|
      ensures key(r[i]) >= key(r[j])
    {
      assert r[j] == s[j - 1];
      if i > 0 {
        assert r[i] == s[i - 1];
      }
    }
  }

  /** `a` bounds the keys of any rearrangement of `s` plus a smaller `x`. */
  lemma HeadAbove<T>(a: T, x: T, s: seq<T>, r: seq<T>, key: T -> int)
    requires key(x) < key(a)
    requires forall j :: 0 <= j < |s| ==> key(a) >= key(s[j])
    requires multiset(r) == multiset(s) + multiset{x}
    ensures forall j :: 0 <= j < |r| ==> key(a) >= key(r[j])
  {
    forall j | 0 <= j < |r|
      ensures key(a) >= key(r[j])
    {
      assert r[j] in multiset(r);
      if r[j] != x {
        assert r[j] in multiset(s);
        var i :| 0 <= i < |s| && s[i] == r[j];
      }
    }
  }

  /** Places `x` into the descending sequence `s`. */
  function Insert<T>(x: T, s: seq<T>, key: T -> int): (r: seq<T>)
    requires Descending(s, key)
    ensures multiset(r) == multiset(s) + multiset{x}
    ensures Descending(r, key)
    ensures |s| == 0 ==> r == [x]
    ensures |s| > 0 ==> r[0] == x || r[0] == s[0]
  {
    if |s| == 0 then [x]
    else if key(x) >= key(s[0]) then
      assert forall j :: 0 <= j < |s| ==> key(x) >= key(s[j]);
      ConsDescending(x, s, key);
      [x] + s
    else
      var rest := Insert(x, s[1..], key);
      assert s == [s[0]] + s[1..];
      HeadAbove(s[0], x, s[1..], rest, key);
      ConsDescending(s[0], rest, key);
      assert multiset([s[0]] + rest) == multiset{s[0]} + multiset(rest);
      [s[0]] + rest
  }

  /** The rows of `s`, largest key first. */
  function SortDesc<T>(s: seq<T>, key: T -> int): (r: seq<T>)
    ensures multiset(r) == multiset(s)
    ensures |r| == |s|
    ensures Descending(r, key)
  {
    if |s| == 0 then []
    else
      assert s == [s[0]] + s[1..];
      Insert(s[0], SortDesc(s[1..], key), key)
  }
}
