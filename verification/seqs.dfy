/** Sequence helpers: JavaScript's `Array.prototype.filter`, flattening of pages and batches, occurrence counts. */
module Seqs {

  /** The concatenation of a sequence of sequences, in order. */
  function Flatten<T>(ss: seq<seq<T>>): (r: seq<T>)
    decreases |ss|
  {
    if |ss| == 0 then [] else Flatten(ss[..|ss| - 1]) + ss[|ss| - 1]
  }

  lemma FlattenAppend<T>(ss: seq<seq<T>>, s: seq<T>)
    ensures Flatten(ss + [s]) == Flatten(ss) + s
  {
    assert (ss + [s])[..|ss|] == ss;
  }

  lemma {:induction false} FlattenConcat<T>(a: seq<seq<T>>, b: seq<seq<T>>)
    ensures Flatten(a + b) == Flatten(a) + Flatten(b)
    decreases |b|
  {
    if |b| == 0 {
      assert a + b == a;
    } else {
      var b' := b[..|b| - 1];
      assert a + b == (a + b') + [b[|b| - 1]];
      FlattenAppend(a + b', b[|b| - 1]);
      FlattenConcat(a, b');
      FlattenAppend(b', b[|b| - 1]);
      assert b == b' + [b[|b| - 1]];
    }
  }

  /** Array.prototype.filter: the elements satisfying f, in their original order. */
  function Filter<T>(s: seq<T>, f: T -> bool): (r: seq<T>)
    ensures |r| <= |s|
    ensures forall i :: 0 <= i < |r| ==> r[i] in s && f(r[i])
    ensures forall i :: 0 <= i < |s| && f(s[i]) ==> s[i] in r
    decreases |s|
  {
    if |s| == 0 then []
    else if f(s[0]) then [s[0]] + Filter(s[1..], f)
    else Filter(s[1..], f)
  }

  lemma {:induction false} FilterAppend<T>(a: seq<T>, b: seq<T>, f: T -> bool)
    ensures Filter(a + b, f) == Filter(a, f) + Filter(b, f)
    decreases |a|
  {
    if |a| == 0 {
      assert a + b == b;
    } else {
      assert (a + b)[1..] == a[1..] + b;
      FilterAppend(a[1..], b, f);
    }
  }

  /** Filtering keeps elements whose keys are pairwise distinct pairwise distinct. */
  lemma {:induction false} FilterKeepsDistinctKeys<T, K>(s: seq<T>, f: T -> bool, key: T -> K)
    requires forall i, j :: 0 <= i < j < |s| ==> key(s[i]) != key(s[j])
    ensures forall i, j :: 0 <= i < j < |Filter(s, f)| ==> key(Filter(s, f)[i]) != key(Filter(s, f)[j])
    decreases |s|
  {
    if |s| > 0 {
      FilterKeepsDistinctKeys(s[1..], f, key);
      if f(s[0]) {
        var rest := Filter(s[1..], f);
        forall j | 0 <= j < |rest|
          ensures key(rest[j]) != key(s[0])
        {
          var k :| 0 <= k < |s[1..]| && s[1..][k] == rest[j];
          assert s[k + 1] == rest[j];
        }
        assert Filter(s, f) == [s[0]] + rest;
      }
    }
  }

  /** Filtering a sequence all of whose elements pass keeps it whole; in particular
      filtering twice with the same predicate changes nothing the second time. */
  lemma {:induction false} FilterAllPass<T>(s: seq<T>, f: T -> bool)
    requires forall i :: 0 <= i < |s| ==> f(s[i])
    ensures Filter(s, f) == s
    decreases |s|
  {
    if |s| > 0 {
      FilterAllPass(s[1..], f);
      assert s == [s[0]] + s[1..];
    }
  }

  /** The number of occurrences of x in s. */
  function Count<T(==)>(s: seq<T>, x: T): (n: nat)
    ensures n <= |s|
    ensures n == 0 <==> x !in s
    decreases |s|
  {
    if |s| == 0 then 0 else (if s[0] == x then 1 else 0) + Count(s[1..], x)
  }

  lemma {:induction false} CountAppend<T>(a: seq<T>, b: seq<T>, x: T)
    ensures Count(a + b, x) == Count(a, x) + Count(b, x)
    decreases |a|
  {
    if |a| == 0 {
      assert a + b == b;
    } else {
      assert (a + b)[1..] == a[1..] + b;
      CountAppend(a[1..], b, x);
    }
  }

  /** `s.filter(y => y !== x)`: s without any occurrence of x. */
  function Remove<T(==)>(s: seq<T>, x: T): seq<T> {
    Filter(s, y => y != x)
  }

  /** Removing every occurrence of x shortens s by exactly its count. */
  lemma {:induction false} FilterOutLength<T>(s: seq<T>, x: T)
    ensures |Remove(s, x)| == |s| - Count(s, x)
    ensures Count(Remove(s, x), x) == 0
    decreases |s|
  {
    if |s| > 0 {
      FilterOutLength(s[1..], x);
    }
  }

  /** Removing every occurrence of x leaves every other element's count as it was. */
  lemma {:induction false} FilterOutKeepsOthers<T>(s: seq<T>, x: T, y: T)
    requires y != x
    ensures Count(Remove(s, x), y) == Count(s, y)
    decreases |s|
  {
    if |s| > 0 {
      FilterOutKeepsOthers(s[1..], x, y);
    }
  }
}
