/** Orderings used by the chat datasource: the string order of `Array.prototype.sort`
    without a comparator, and sorting a sequence by a numeric key (the `$sort` stage
    and `.sort({ createdAt: 1 })` of the document store). */
module Ordering {

  /** `a < b` on strings: lexicographic by character code, a proper prefix first. */
  predicate StrLess(a: string, b: string)
    decreases |a|
  {
    if a == [] then b != []
    else if b == [] then false
    else if a[0] != b[0] then a[0] < b[0]
    else StrLess(a[1..], b[1..])
  }

  /** Exactly one of `a < b`, `a == b`, `b < a` holds. */
  lemma {:induction false} StrLessTrichotomy(a: string, b: string)
    ensures a == b ==> !StrLess(a, b) && !StrLess(b, a)
    ensures a != b ==> (StrLess(a, b) <==> !StrLess(b, a))
    decreases |a|
  {
    if a != [] && b != [] && a[0] == b[0] {
      StrLessTrichotomy(a[1..], b[1..]);
      if a != b {
        assert a == [a[0]] + a[1..] && b == [b[0]] + b[1..];
        assert a[1..] != b[1..];
      }
    }
  }

  /** `[a, b].sort()`: the smaller string first, the pair unchanged when neither is smaller. */
  function SortedPair(a: string, b: string): (p: (string, string))
    ensures {p.0, p.1} == {a, b}
    ensures !StrLess(p.1, p.0)
  {
    StrLessTrichotomy(a, b);
    if StrLess(b, a) then (b, a) else (a, b)
  }

  /** The sorted pair does not depend on the order of its arguments. */
  lemma SortedPairSymmetric(a: string, b: string)
    ensures SortedPair(a, b) == SortedPair(b, a)
  {
    StrLessTrichotomy(a, b);
  }

  ghost predicate Ascending<T>(s: seq<T>, key: T -> int) {
    forall i, j :: 0 <= i < j < |s| ==> key(s[i]) <= key(s[j])
  }

  ghost predicate DistinctBy<T, K>(s: seq<T>, id: T -> K) {
    forall i, j :: 0 <= i < j < |s| ==> id(s[i]) != id(s[j])
  }

  /** Places `x` in front of the first element whose key is not smaller. */
  function Insert<T>(x: T, s: seq<T>, key: T -> int): (r: seq<T>)
    requires Ascending(s, key)
    ensures Ascending(r, key)
    ensures multiset(r) == multiset(s) + multiset{x}
  {
    if s == [] || key(x) <= key(s[0]) then [x] + s
    else
      var rest := Insert(x, s[1..], key);
      assert s == [s[0]] + s[1..];
      assert forall e :: e in rest ==> key(s[0]) <= key(e) by {
        forall e | e in rest ensures key(s[0]) <= key(e) {
          assert e in multiset(rest);
          if e != x {
            var k :| 0 <= k < |s[1..]| && s[1..][k] == e;
            assert s[k + 1] == e;
          }
        }
      }
      AscendingCons(s[0], rest, key);
      [s[0]] + rest
  }

  lemma AscendingCons<T>(h: T, t: seq<T>, key: T -> int)
    requires Ascending(t, key)
    requires forall e :: e in t ==> key(h) <= key(e)
    ensures Ascending([h] + t, key)
  {
    var r := [h] + t;
    forall i, j | 0 <= i < j < |r| ensures key(r[i]) <= key(r[j]) {
      assert r[j] == t[j - 1];
      if i > 0 { assert r[i] == t[i - 1]; }
    }
  }

  /** The sequence ordered by ascending key; elements with equal keys may come in any order. */
  function SortBy<T>(s: seq<T>, key: T -> int): (r: seq<T>)
    ensures Ascending(r, key)
    ensures multiset(r) == multiset(s)
    ensures |r| == |s|
  {
    if s == [] then []
    else
      assert s == [s[0]] + s[1..];
      Insert(s[0], SortBy(s[1..], key), key)
  }

  lemma {:induction false} InsertKeepsDistinct<T, K>(x: T, s: seq<T>, key: T -> int, id: T -> K)
    requires Ascending(s, key) && DistinctBy(s, id)
    requires forall e :: e in s ==> id(e) != id(x)
    ensures DistinctBy(Insert(x, s, key), id)
  {
    if s == [] || key(x) <= key(s[0]) {
    } else {
      var rest := Insert(x, s[1..], key);
      InsertKeepsDistinct(x, s[1..], key, id);
      assert s == [s[0]] + s[1..];
      forall e | e in rest ensures id(e) != id(s[0]) {
        assert e in multiset(rest);
        if e != x {
          var k :| 0 <= k < |s[1..]| && s[1..][k] == e;
          assert s[k + 1] == e;
        }
      }
    }
  }

  /** Sorting keeps a sequence free of repeated identities. */
  lemma {:induction false} SortKeepsDistinct<T, K>(s: seq<T>, key: T -> int, id: T -> K)
    requires DistinctBy(s, id)
    ensures DistinctBy(SortBy(s, key), id)
  {
    if s != [] {
      SortKeepsDistinct(s[1..], key, id);
      var sorted := SortBy(s[1..], key);
      forall e | e in sorted ensures id(e) != id(s[0]) {
        assert e in multiset(sorted);
        var k :| 0 <= k < |s[1..]| && s[1..][k] == e;
        assert s[k + 1] == e;
      }
      InsertKeepsDistinct(s[0], sorted, key, id);
    }
  }

  /** Sorting keeps exactly the elements it was given. */
  lemma SortSameElements<T>(s: seq<T>, key: T -> int)
    ensures forall e :: e in SortBy(s, key) <==> e in s
  {
    var r := SortBy(s, key);
    forall e ensures e in r <==> e in s {
      assert e in r <==> e in multiset(r);
      assert e in s <==> e in multiset(s);
    }
  }
}
