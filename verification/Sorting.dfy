/** Sorted text, and the sorted keys of a map whatever order it is iterated in. */
module Sorting {

  /** Lexicographic order. */
  predicate Le(a: string, b: string) {
    a == "" || (b != "" && (a[0] < b[0] || (a[0] == b[0] && Le(a[1..], b[1..]))))
  }

  /** One text comes before another exactly if it is its beginning or has the smaller character where they first
      differ. */
  lemma {:induction false} LeIsLexicographic(a: string, b: string)
    ensures Le(a, b) <==> a <= b || exists n :: 0 <= n < |a| && n < |b| && a[..n] == b[..n] && a[n] < b[n]
  {
    if a != "" && b != "" && a[0] == b[0] {
      LeIsLexicographic(a[1..], b[1..]);
      assert a == [a[0]] + a[1..] && b == [b[0]] + b[1..];
      if Le(a, b) && !(a <= b) {
        var n :| 0 <= n < |a[1..]| && n < |b[1..]| && a[1..][..n] == b[1..][..n] && a[1..][n] < b[1..][n];
        assert a[..n + 1] == [a[0]] + a[1..][..n] && b[..n + 1] == [b[0]] + b[1..][..n];
        assert a[n + 1] < b[n + 1];
      }
      if exists n :: 0 <= n < |a| && n < |b| && a[..n] == b[..n] && a[n] < b[n] {
        var n :| 0 <= n < |a| && n < |b| && a[..n] == b[..n] && a[n] < b[n];
        assert a[1..][..n - 1] == a[..n][1..] && b[1..][..n - 1] == b[..n][1..];
        assert a[1..][n - 1] < b[1..][n - 1];
      }
    } else if a != "" && b != "" {
      assert a[..0] == b[..0];
      DifferAtOnce(a, b);
    }
  }

  lemma DifferAtOnce(a: string, b: string)
    requires a != "" && b != "" && a[0] != b[0]
    ensures !(a <= b)
    ensures (exists n :: 0 <= n < |a| && n < |b| && a[..n] == b[..n] && a[n] < b[n]) <==> a[0] < b[0]
  {
    forall n | 0 < n < |a| && n < |b| ensures a[..n] != b[..n] {
      assert a[..n][0] != b[..n][0];
    }
    assert a[..0] == b[..0];
  }

  lemma {:induction false} LeIsTotal(a: string, b: string)
    ensures Le(a, b) || Le(b, a)
  {
    if a != "" && b != "" {
      LeIsTotal(a[1..], b[1..]);
    }
  }

  lemma {:induction false} LeIsAntisymmetric(a: string, b: string)
    requires Le(a, b) && Le(b, a)
    ensures a == b
  {
    if a != "" && b != "" {
      LeIsAntisymmetric(a[1..], b[1..]);
      assert a == [a[0]] + a[1..] && b == [b[0]] + b[1..];
    }
  }

  lemma {:induction false} LeIsTransitive(a: string, b: string, c: string)
    requires Le(a, b) && Le(b, c)
    ensures Le(a, c)
  {
    if a != "" && a[0] == b[0] == c[0] {
      LeIsTransitive(a[1..], b[1..], c[1..]);
    }
  }

  predicate IsSorted(s: seq<string>) {
    forall i, j :: 0 <= i < j < |s| ==> Le(s[i], s[j])
  }

  predicate Distinct(s: seq<string>) {
    forall i, j :: 0 <= i < j < |s| ==> s[i] != s[j]
  }

  function Insert(x: string, s: seq<string>): (r: seq<string>)
    requires IsSorted(s)
    ensures multiset(r) == multiset(s) + multiset{x}
    ensures IsSorted(r)
  {
    if s == [] then [x]
    else if Le(x, s[0]) then
      InsertFront(x, s);
      assert multiset([x] + s) == multiset{x} + multiset(s);
      [x] + s
    else
      LeIsTotal(x, s[0]);
      assert s == [s[0]] + s[1..];
      var r := Insert(x, s[1..]);
      InsertRest(x, s, r);
      [s[0]] + r
  }

  lemma InsertFront(x: string, s: seq<string>)
    requires IsSorted(s) && s != [] && Le(x, s[0])
    ensures IsSorted([x] + s)
  {
    forall j | 0 <= j < |s| ensures Le(x, s[j]) {
      if j > 0 {
        LeIsTransitive(x, s[0], s[j]);
      }
    }
  }

  lemma InsertRest(x: string, s: seq<string>, r: seq<string>)
    requires IsSorted(s) && s != [] && Le(s[0], x)
    requires IsSorted(r) && multiset(r) == multiset(s[1..]) + multiset{x}
    ensures IsSorted([s[0]] + r)
  {
    forall j | 0 <= j < |r| ensures Le(s[0], r[j]) {
      assert r[j] in multiset(r);
      if r[j] != x {
        assert r[j] in s[1..];
      }
    }
  }

  function Sort(s: seq<string>): (r: seq<string>)
    ensures IsSorted(r) && multiset(r) == multiset(s)
  {
    if s == [] then [] else
      assert s == [s[0]] + s[1..];
      Insert(s[0], Sort(s[1..]))
  }

  lemma {:induction false} SortedIsUnique(a: seq<string>, b: seq<string>)
    requires IsSorted(a) && IsSorted(b) && multiset(a) == multiset(b)
    ensures a == b
  {
    assert |multiset(a)| == |a| && |multiset(b)| == |b|;
    if a != [] {
      assert a[0] in multiset(b) && b[0] in multiset(a);
      LeastIsFirst(a, b);
      TailMultiset(a);
      TailMultiset(b);
      SortedIsUnique(a[1..], b[1..]);
      assert a == [a[0]] + a[1..] && b == [b[0]] + b[1..];
    }
  }

  lemma TailMultiset(a: seq<string>)
    requires a != []
    ensures multiset(a[1..]) == multiset(a) - multiset{a[0]}
  {
    assert a == [a[0]] + a[1..];
  }

  lemma LeastIsFirst(a: seq<string>, b: seq<string>)
    requires IsSorted(a) && IsSorted(b) && a != [] && b != [] && a[0] in b && b[0] in a
    ensures a[0] == b[0]
  {
    var i :| 0 <= i < |b| && b[i] == a[0];
    var j :| 0 <= j < |a| && a[j] == b[0];
    if a[0] != b[0] {
      LeIsAntisymmetric(a[0], b[0]);
    }
  }

  /** Sorting forgets the order it was given. */
  lemma SortForgetsOrder(a: seq<string>, b: seq<string>)
    requires multiset(a) == multiset(b)
    ensures Sort(a) == Sort(b)
  {
    SortedIsUnique(Sort(a), Sort(b));
  }

  lemma DistinctByMultiset(a: seq<string>, b: seq<string>)
    requires multiset(a) == multiset(b) && Distinct(b)
    ensures Distinct(a)
  {
    forall i, j | 0 <= i < j < |a| ensures a[i] != a[j] {
      if a[i] == a[j] {
        AtLeastTwice(a, i, j);
        AtMostOnce(b, a[i]);
      }
    }
  }

  lemma AtLeastTwice(a: seq<string>, i: nat, j: nat)
    requires i < j < |a| && a[i] == a[j]
    ensures multiset(a)[a[i]] >= 2
  {
    assert a == a[..j] + a[j..];
    assert a[i] in a[..j] && a[j] in a[j..];
  }

  lemma {:induction false} AtMostOnce(b: seq<string>, x: string)
    requires Distinct(b)
    ensures multiset(b)[x] <= 1
  {
    if b != [] {
      AtMostOnce(b[1..], x);
      assert b == [b[0]] + b[1..];
      assert b[0] !in b[1..];
    }
  }

  lemma SameMembers(a: seq<string>, b: seq<string>)
    requires Distinct(a) && Distinct(b) && forall x :: x in a <==> x in b
    ensures multiset(a) == multiset(b)
  {
    forall x ensures multiset(a)[x] == multiset(b)[x] {
      AtMostOnce(a, x);
      AtMostOnce(b, x);
      assert x in a <==> x in multiset(a);
      assert x in b <==> x in multiset(b);
    }
  }

  /** A set of keys in some order. */
  ghost function Listed(keys: set<string>): (r: seq<string>)
    ensures multiset(r) == multiset(keys) && Distinct(r)
    ensures forall k :: k in r <==> k in keys
  {
    if keys == {} then []
    else
      var k :| k in keys;
      assert multiset(keys) == multiset{k} + multiset(keys - {k});
      [k] + Listed(keys - {k})
  }

  /** A set of keys in order. */
  ghost function SortedKeys(keys: set<string>): (r: seq<string>)
    ensures IsSorted(r) && Distinct(r) && multiset(r) == multiset(keys)
    ensures forall k :: k in r <==> k in keys
  {
    var r := Sort(Listed(keys));
    DistinctByMultiset(r, Listed(keys));
    assert forall k :: k in r <==> k in multiset(r);
    r
  }

  /** Collects the keys in whatever order the map is iterated, then sorts: the result does not depend on it. */
  method KeysInOrder<V>(m: map<string, V>) returns (keys: seq<string>)
    ensures keys == SortedKeys(m.Keys)
  {
    keys := [];
    var todo := m.Keys;
    while todo != {}
      invariant todo <= m.Keys
      invariant multiset(keys) == multiset(m.Keys - todo)
    {
      var k :| k in todo;
      keys := keys + [k];
      assert m.Keys - (todo - {k}) == (m.Keys - todo) + {k};
      todo := todo - {k};
    }
    assert m.Keys - todo == m.Keys;
    SortedIsUnique(Sort(keys), SortedKeys(m.Keys));
    keys := Sort(keys);
  }
}
