/** Ordering by a string key, as `sort.Slice(xs, func(i, j) { xs[i].K < xs[j].K })`
    does it, and the facts that make a sorted result unique. */
module Sorting {
  import opened Strings

  /** Ascending by `key` (ties allowed). */
  ghost predicate SortedBy<T>(s: seq<T>, key: T -> string) {
    forall i, j :: 0 <= i < j < |s| ==> LexLeq(key(s[i]), key(s[j]))
  }

  /** Strictly ascending by `key`. */
  ghost predicate StrictlySortedBy<T>(s: seq<T>, key: T -> string) {
    forall i, j :: 0 <= i < j < |s| ==> LexLess(key(s[i]), key(s[j]))
  }

  /** No two elements share a key. */
  ghost predicate DistinctKeys<T>(s: seq<T>, key: T -> string) {
    forall i, j :: 0 <= i < j < |s| ==> key(s[i]) != key(s[j])
  }

  /** A list whose keys are, position by position, a strictly ascending
      list of strings is strictly sorted by key. */
  lemma KeyedBySorted<T>(ks: seq<string>, r: seq<T>, key: T -> string)
    requires |r| == |ks| && forall i :: 0 <= i < |r| ==> key(r[i]) == ks[i]
    requires forall i, j :: 0 <= i < j < |ks| ==> LexLess(ks[i], ks[j])
    ensures StrictlySortedBy(r, key)
  {
    forall i, j | 0 <= i < j < |r|
      ensures LexLess(key(r[i]), key(r[j]))
    {
      assert key(r[i]) == ks[i] && key(r[j]) == ks[j];
    }
  }

  /** Appending an element whose key is new keeps the keys distinct. */
  lemma AppendFreshKey<T>(s: seq<T>, x: T, key: T -> string)
    requires DistinctKeys(s, key)
    requires forall i :: 0 <= i < |s| ==> key(s[i]) != key(x)
    ensures DistinctKeys(s + [x], key)
  {
    var t := s + [x];
    forall i, j | 0 <= i < j < |t|
      ensures key(t[i]) != key(t[j])
    {
      assert t[i] == s[i];
      if j < |s| {
        assert t[j] == s[j];
      }
    }
  }

  method Swap<T>(a: array<T>, i: int, j: int)
    requires 0 <= i < a.Length && 0 <= j < a.Length
    modifies a
    ensures a[i] == old(a[j]) && a[j] == old(a[i])
    ensures forall m :: 0 <= m < a.Length && m != i && m != j ==> a[m] == old(a[m])
    ensures multiset(a[..]) == multiset(old(a[..]))
  {
    a[i], a[j] := a[j], a[i];
  }

  /** Sorts `a` in place by `key` (an insertion sort standing for Go's
      unstable `sort.Slice`: only order and permutation are promised). */
  method SortBy<T>(a: array<T>, key: T -> string)
    modifies a
    ensures SortedBy(a[..], key)
    ensures multiset(a[..]) == multiset(old(a[..]))
  {
    var i := 0;
    while i < a.Length
      invariant 0 <= i <= a.Length
      invariant forall p, q :: 0 <= p < q < i ==> LexLeq(key(a[p]), key(a[q]))
      invariant multiset(a[..]) == multiset(old(a[..]))
    {
      var j := i;
      while j > 0 && LexLess(key(a[j]), key(a[j - 1]))
        invariant 0 <= j <= i
        invariant forall p, q :: 0 <= p < q <= i && p != j && q != j ==> LexLeq(key(a[p]), key(a[q]))
        invariant forall q :: j < q <= i ==> LexLeq(key(a[j]), key(a[q]))
        invariant multiset(a[..]) == multiset(old(a[..]))
      {
        LexLessAsymmetric(key(a[j]), key(a[j - 1]));
        Swap(a, j - 1, j);
        j := j - 1;
      }
      forall p | 0 <= p < j
        ensures LexLeq(key(a[p]), key(a[j]))
      {
        if p < j - 1 {
          LexLeqTransitive(key(a[p]), key(a[j - 1]), key(a[j]));
        }
      }
      i := i + 1;
    }
  }

  lemma SortedDistinctIsStrict<T>(s: seq<T>, key: T -> string)
    requires SortedBy(s, key) && DistinctKeys(s, key)
    ensures StrictlySortedBy(s, key)
  {
    forall i, j | 0 <= i < j < |s|
      ensures LexLess(key(s[i]), key(s[j]))
    {
      LexLessTrichotomy(key(s[i]), key(s[j]));
    }
  }

  /** Removing the element at `j` removes one occurrence from the multiset. */
  lemma RemoveAt<T>(c: seq<T>, j: nat)
    requires j < |c|
    ensures multiset(c[..j] + c[j + 1..]) == multiset(c) - multiset{c[j]}
  {
    assert c == c[..j] + [c[j]] + c[j + 1..];
  }

  lemma RemoveAtKeepsDistinct<T>(c: seq<T>, j: nat, key: T -> string)
    requires j < |c| && DistinctKeys(c, key)
    ensures DistinctKeys(c[..j] + c[j + 1..], key)
    ensures forall x :: x in c[..j] + c[j + 1..] ==> key(x) != key(c[j])
  {
    var rest := c[..j] + c[j + 1..];
    assert forall p :: 0 <= p < |rest| ==> rest[p] == c[if p < j then p else p + 1];
  }

  /** Rearranging a sequence whose keys are distinct keeps them distinct. */
  lemma {:induction false} DistinctKeysPermutation<T>(a: seq<T>, c: seq<T>, key: T -> string)
    requires multiset(a) == multiset(c)
    requires DistinctKeys(c, key)
    ensures DistinctKeys(a, key)
    decreases |a|
  {
    if |a| > 0 {
      assert a[0] in multiset(c);
      var j :| 0 <= j < |c| && c[j] == a[0];
      var rest := c[..j] + c[j + 1..];
      var tail := a[1..];
      assert multiset(tail) == multiset(rest) by {
        RemoveAt(c, j);
        RemoveAt(a, 0);
        assert tail == a[..0] + a[0 + 1..];
      }
      RemoveAtKeepsDistinct(c, j, key);
      DistinctKeysPermutation(tail, rest, key);
      forall q | 0 < q < |a|
        ensures key(a[0]) != key(a[q])
      {
        assert a[q] == tail[q - 1];
        assert a[q] in multiset(rest);
      }
      forall p, q | 0 <= p < q < |a|
        ensures key(a[p]) != key(a[q])
      {
        if p > 0 {
          assert a[p] == tail[p - 1] && a[q] == tail[q - 1];
        }
      }
    }
  }

  /** Two strictly sorted sequences with the same elements are equal. */
  lemma {:induction false} StrictlySortedUnique<T>(a: seq<T>, b: seq<T>, key: T -> string)
    requires StrictlySortedBy(a, key) && StrictlySortedBy(b, key)
    requires forall x :: x in a <==> x in b
    ensures a == b
    decreases |a|
  {
    assert |a| > 0 ==> a[0] in b;
    assert |b| > 0 ==> b[0] in a;
    if |a| > 0 {
      assert a[0] in b && b[0] in a;
      var i :| 0 <= i < |a| && a[i] == b[0];
      var j :| 0 <= j < |b| && b[j] == a[0];
      if i > 0 {
        if j > 0 {
          LexLessAsymmetric(key(a[0]), key(b[0]));
        } else {
          LexLessIrreflexive(key(a[0]));
        }
      }
      forall x
        ensures x in a[1..] <==> x in b[1..]
      {
        if x in a[1..] {
          var p :| 0 <= p < |a[1..]| && a[1..][p] == x;
          assert x == a[p + 1];
          LexLessIrreflexive(key(a[0]));
          assert x in a;
          var q :| 0 <= q < |b| && b[q] == x;
          assert q != 0;
          assert x == b[1..][q - 1];
        }
        if x in b[1..] {
          var p :| 0 <= p < |b[1..]| && b[1..][p] == x;
          assert x == b[p + 1];
          LexLessIrreflexive(key(b[0]));
          assert x in b;
          var q :| 0 <= q < |a| && a[q] == x;
          assert q != 0;
          assert x == a[1..][q - 1];
        }
      }
      StrictlySortedUnique(a[1..], b[1..], key);
      assert a == [a[0]] + a[1..] && b == [b[0]] + b[1..];
    }
  }

  lemma {:induction false} MinKeyExists(s: set<string>)
    requires s != {}
    ensures exists k :: k in s && forall j :: j in s ==> LexLeq(k, j)
    decreases |s|
  {
    var x :| x in s;
    if s == {x} {
      LexLessIrreflexive(x);
      assert forall j :: j in s ==> LexLeq(x, j);
    } else {
      MinKeyExists(s - {x});
      var y :| y in s - {x} && forall j :: j in s - {x} ==> LexLeq(y, j);
      var m := MinKeyStep(s, x, y);
    }
  }

  /** The least of `x` and the least key `y` of the rest is the least key of
      `s`. */
  lemma MinKeyStep(s: set<string>, x: string, y: string) returns (m: string)
    requires x in s && y in s
    requires forall j :: j in s - {x} ==> LexLeq(y, j)
    ensures m in s && forall j :: j in s ==> LexLeq(m, j)
  {
    LexLeqTotal(x, y);
    m := if LexLeq(x, y) then x else y;
    forall j | j in s
      ensures LexLeq(m, j)
    {
      if j == x {
        LexLessIrreflexive(x);
      } else if m == x {
        LexLeqTransitive(x, y, j);
      }
    }
  }

  /** The least key of a non-empty set. */
  ghost function MinKey(s: set<string>): (k: string)
    requires s != {}
    ensures k in s
    ensures forall j :: j in s && j != k ==> LexLess(k, j)
  {
    MinKeyExists(s);
    var k :| k in s && forall j :: j in s ==> LexLeq(k, j);
    MinKeyIsStrict(s, k);
    k
  }

  lemma MinKeyIsStrict(s: set<string>, k: string)
    requires forall j :: j in s ==> LexLeq(k, j)
    ensures forall j :: j in s && j != k ==> LexLess(k, j)
  {
    forall j | j in s && j != k
      ensures LexLess(k, j)
    {
      LexLessTrichotomy(k, j);
    }
  }

  /** Putting a key below all others in front of an ascending list keeps it
      ascending. */
  lemma PrependLeast(k: string, rest: seq<string>)
    requires forall i, j :: 0 <= i < j < |rest| ==> LexLess(rest[i], rest[j])
    requires forall i :: 0 <= i < |rest| ==> LexLess(k, rest[i])
    ensures forall i, j :: 0 <= i < j < |[k] + rest| ==> LexLess(([k] + rest)[i], ([k] + rest)[j])
  {
    var r := [k] + rest;
    forall i, j | 0 <= i < j < |r|
      ensures LexLess(r[i], r[j])
    {
      assert r[j] == rest[j - 1];
      if i > 0 {
        assert r[i] == rest[i - 1];
      }
    }
  }

  /** The keys of `s` in ascending order: the order Go's sort gives a list
      of map entries, whose keys are distinct. */
  ghost function SortedKeys(s: set<string>): (ks: seq<string>)
    ensures forall k :: k in ks <==> k in s
    ensures forall i, j :: 0 <= i < j < |ks| ==> LexLess(ks[i], ks[j])
    ensures |ks| == |s|
    decreases |s|
  {
    if s == {} then []
    else
      var k := MinKey(s);
      var rest := SortedKeys(s - {k});
      assert forall i :: 0 <= i < |rest| ==> rest[i] in s - {k};
      PrependLeast(k, rest);
      [k] + rest
  }

  /** A sort of a list with distinct keys is THE sorted arrangement: it
      equals any strictly sorted list with the same elements. */
  lemma SortedArrangementIsUnique<T>(sorted: seq<T>, collected: seq<T>, spec: seq<T>, key: T -> string)
    requires multiset(sorted) == multiset(collected)
    requires SortedBy(sorted, key) && DistinctKeys(collected, key)
    requires StrictlySortedBy(spec, key)
    requires forall x :: x in collected <==> x in spec
    ensures sorted == spec
  {
    DistinctKeysPermutation(sorted, collected, key);
    SortedDistinctIsStrict(sorted, key);
    forall x
      ensures x in sorted <==> x in spec
    {
      assert x in sorted <==> x in multiset(collected);
    }
    StrictlySortedUnique(sorted, spec, key);
  }
}
