/**
 * The stable sort that `Array.prototype.sort` performs with a numeric
 * comparator (`(a, b) => key(a) - key(b)`), as a reference definition:
 * insertion of each element after every element whose key is not greater.
 */
module Sorting {

  predicate SortedBy<T>(key: T -> int, s: seq<T>) {
    forall i, j :: 0 <= i < j < |s| ==> key(s[i]) <= key(s[j])
  }

  /** The elements of `s` whose key is `c`, in their order in `s`. */
  function WithKey<T>(key: T -> int, s: seq<T>, c: int): seq<T> {
    if s == [] then []
    else (if key(s[0]) == c then [s[0]] else []) + WithKey(key, s[1..], c)
  }

  /**
   * A sort is stable when, for every key, the elements with that key keep
   * their relative order.
   */
  ghost predicate Stable<T>(key: T -> int, before: seq<T>, after: seq<T>) {
    forall c :: WithKey(key, after, c) == WithKey(key, before, c)
  }

  /** Puts `x` into `s` before the first element with a greater key. */
  function InsertBy<T>(key: T -> int, x: T, s: seq<T>): (r: seq<T>)
    ensures |r| == |s| + 1
  {
    if s == [] then [x]
    else if key(s[0]) > key(x) then [x] + s
    else [s[0]] + InsertBy(key, x, s[1..])
  }

  /** Insertion adds `x` and nothing else. */
  lemma {:induction false} InsertByPermutes<T>(key: T -> int, x: T, s: seq<T>)
    ensures multiset(InsertBy(key, x, s)) == multiset(s) + multiset{x}
  {
    if s != [] && key(s[0]) <= key(x) {
      InsertByPermutes(key, x, s[1..]);
      assert s == [s[0]] + s[1..];
    }
  }

  /** Insertion into a sorted sequence keeps it sorted. */
  lemma {:induction false} InsertBySorted<T>(key: T -> int, x: T, s: seq<T>)
    requires SortedBy(key, s)
    ensures SortedBy(key, InsertBy(key, x, s))
  {
    var r := InsertBy(key, x, s);
    if s == [] {
    } else if key(s[0]) > key(x) {
      assert r == [x] + s;
      forall i, j | 0 <= i < j < |r| ensures key(r[i]) <= key(r[j]) {
        if i > 0 { assert r[i] == s[i - 1] && r[j] == s[j - 1]; }
        else { assert key(s[0]) <= key(s[j - 1]); }
      }
    } else {
      var rest := InsertBy(key, x, s[1..]);
      assert r == [s[0]] + rest;
      assert SortedBy(key, s[1..]);
      InsertBySorted(key, x, s[1..]);
      InsertByLowerBound(key, x, s[1..], key(s[0]));
      ConsSorted(key, s[0], rest);
    }
  }

  /** Insertion keeps a lower bound that `x` and every element of `s` respect. */
  lemma {:induction false} InsertByLowerBound<T>(key: T -> int, x: T, s: seq<T>, lo: int)
    requires key(x) >= lo && forall i :: 0 <= i < |s| ==> key(s[i]) >= lo
    ensures forall i :: 0 <= i < |InsertBy(key, x, s)| ==> key(InsertBy(key, x, s)[i]) >= lo
  {
    if s != [] && key(s[0]) <= key(x) {
      InsertByLowerBound(key, x, s[1..], lo);
      var rest := InsertBy(key, x, s[1..]);
      assert InsertBy(key, x, s) == [s[0]] + rest;
    }
  }

  lemma ConsSorted<T>(key: T -> int, y: T, s: seq<T>)
    requires SortedBy(key, s) && forall i :: 0 <= i < |s| ==> key(s[i]) >= key(y)
    ensures SortedBy(key, [y] + s)
  {
    var r := [y] + s;
    forall i, j | 0 <= i < j < |r| ensures key(r[i]) <= key(r[j]) {
      assert r[j] == s[j - 1];
      if i > 0 { assert r[i] == s[i - 1]; }
    }
  }

  /** Insertion sort: the reference definition of a stable sort by `key`. */
  function SortBy<T>(key: T -> int, s: seq<T>): (r: seq<T>)
    ensures multiset(r) == multiset(s)
    ensures |r| == |s|
    ensures SortedBy(key, r)
  {
    if s == [] then []
    else
      var n := |s| - 1;
      assert s == s[..n] + [s[n]];
      InsertBySorted(key, s[n], SortBy(key, s[..n]));
      InsertByPermutes(key, s[n], SortBy(key, s[..n]));
      InsertBy(key, s[n], SortBy(key, s[..n]))
  }

  lemma {:induction false} WithKeyAppend<T>(key: T -> int, a: seq<T>, b: seq<T>, c: int)
    ensures WithKey(key, a + b, c) == WithKey(key, a, c) + WithKey(key, b, c)
  {
    if a != [] {
      assert (a + b)[0] == a[0];
      assert (a + b)[1..] == a[1..] + b;
      WithKeyAppend(key, a[1..], b, c);
    } else {
      assert a + b == b;
    }
  }

  lemma {:induction false} WithKeyOfLarger<T>(key: T -> int, s: seq<T>, c: int)
    requires forall i :: 0 <= i < |s| ==> key(s[i]) > c
    ensures WithKey(key, s, c) == []
  {
    if s != [] {
      WithKeyOfLarger(key, s[1..], c);
    }
  }

  /** Inserting `x` puts it after every element with its key. */
  lemma {:induction false} InsertByKeepsOrder<T>(key: T -> int, x: T, s: seq<T>, c: int)
    requires SortedBy(key, s)
    ensures WithKey(key, InsertBy(key, x, s), c) == WithKey(key, s, c) + WithKey(key, [x], c)
  {
    if s == [] {
      assert [] + WithKey(key, [x], c) == WithKey(key, [x], c);
    } else if key(s[0]) > key(x) {
      InsertFrontKeepsOrder(key, x, s, c);
    } else {
      SortedTail(key, s);
      InsertByKeepsOrder(key, x, s[1..], c);
      InsertBehindKeepsOrder(key, x, s, c);
    }
  }

  /** The step of `InsertByKeepsOrder` where `x` goes behind the first element. */
  lemma InsertBehindKeepsOrder<T>(key: T -> int, x: T, s: seq<T>, c: int)
    requires s != [] && key(s[0]) <= key(x)
    requires WithKey(key, InsertBy(key, x, s[1..]), c) == WithKey(key, s[1..], c) + WithKey(key, [x], c)
    ensures WithKey(key, InsertBy(key, x, s), c) == WithKey(key, s, c) + WithKey(key, [x], c)
  {
    var rest := InsertBy(key, x, s[1..]);
    var head := if key(s[0]) == c then [s[0]] else [];
    assert InsertBy(key, x, s) == [s[0]] + rest;
    WithKeyCons(key, s[0], rest, c);
    WithKeyCons(key, s[0], s[1..], c);
    assert [s[0]] + s[1..] == s;
    ConcatShift(WithKey(key, InsertBy(key, x, s), c), head, WithKey(key, rest, c),
      WithKey(key, s[1..], c), WithKey(key, [x], c), WithKey(key, s, c));
  }

  lemma ConcatShift<T>(l: seq<T>, h: seq<T>, rest: seq<T>, a: seq<T>, b: seq<T>, w: seq<T>)
    requires l == h + rest && rest == a + b && w == h + a
    ensures l == w + b
  {
  }

  lemma SortedTail<T>(key: T -> int, s: seq<T>)
    requires SortedBy(key, s) && s != []
    ensures SortedBy(key, s[1..])
  {
    forall i, j | 0 <= i < j < |s| - 1 ensures key(s[1..][i]) <= key(s[1..][j]) {
      assert s[1..][i] == s[i + 1] && s[1..][j] == s[j + 1];
    }
  }

  lemma InsertFrontKeepsOrder<T>(key: T -> int, x: T, s: seq<T>, c: int)
    requires SortedBy(key, s) && s != [] && key(s[0]) > key(x)
    ensures WithKey(key, [x] + s, c) == WithKey(key, s, c) + WithKey(key, [x], c)
  {
    WithKeyCons(key, x, s, c);
    if key(x) == c {
      forall i | 0 <= i < |s| ensures key(s[i]) > c {
        if i > 0 { assert key(s[0]) <= key(s[i]); }
      }
      WithKeyOfLarger(key, s, c);
    } else {
      WithKeyCons(key, x, [], c);
      assert WithKey(key, [x], c) == [];
    }
  }

  /** One step of `WithKey`, stated for a sequence built by a cons. */
  lemma WithKeyCons<T>(key: T -> int, y: T, s: seq<T>, c: int)
    ensures WithKey(key, [y] + s, c) == (if key(y) == c then [y] else []) + WithKey(key, s, c)
    ensures WithKey(key, [y], c) == (if key(y) == c then [y] else [])
  {
    assert ([y] + s)[1..] == s;
    assert [y][1..] == [];
  }

  /** Insertion sort is stable. */
  lemma {:induction false} SortByStable<T>(key: T -> int, s: seq<T>)
    ensures Stable(key, s, SortBy(key, s))
  {
    if s != [] {
      var n := |s| - 1;
      SortByStable(key, s[..n]);
      forall c ensures WithKey(key, SortBy(key, s), c) == WithKey(key, s, c) {
        InsertByKeepsOrder(key, s[n], SortBy(key, s[..n]), c);
        assert s == s[..n] + [s[n]];
        WithKeyAppend(key, s[..n], [s[n]], c);
      }
    }
  }

  function Firsts<A, B>(ps: seq<(A, B)>): (r: seq<A>)
    ensures |r| == |ps| && forall i :: 0 <= i < |ps| ==> r[i] == ps[i].0
  {
    seq(|ps|, i requires 0 <= i < |ps| => ps[i].0)
  }

  /**
   * Sorting pairs by a key of their first component, then dropping the
   * second components, is sorting the first components.
   */
  lemma {:induction false} SortByFirsts<A, B>(key: A -> int, pairKey: ((A, B)) -> int, ps: seq<(A, B)>)
    requires forall p :: pairKey(p) == key(p.0)
    ensures Firsts(SortBy(pairKey, ps)) == SortBy(key, Firsts(ps))
  {
    if ps != [] {
      var n := |ps| - 1;
      assert Firsts(ps[..n]) == Firsts(ps)[..n];
      SortByFirsts(key, pairKey, ps[..n]);
      InsertByFirsts(key, pairKey, ps[n], SortBy(pairKey, ps[..n]));
    }
  }

  lemma {:induction false} InsertByFirsts<A, B>(key: A -> int, pairKey: ((A, B)) -> int, x: (A, B), s: seq<(A, B)>)
    requires forall p :: pairKey(p) == key(p.0)
    ensures Firsts(InsertBy(pairKey, x, s)) == InsertBy(key, x.0, Firsts(s))
  {
    var fs := Firsts(s);
    if s == [] {
      assert Firsts([x]) == [x.0];
    } else if pairKey(s[0]) > pairKey(x) {
      assert key(fs[0]) > key(x.0);
      FirstsCons(x, s);
    } else {
      assert key(fs[0]) <= key(x.0);
      InsertByFirsts(key, pairKey, x, s[1..]);
      assert fs[1..] == Firsts(s[1..]);
      FirstsCons(s[0], InsertBy(pairKey, x, s[1..]));
    }
  }

  lemma FirstsCons<A, B>(x: (A, B), s: seq<(A, B)>)
    ensures Firsts([x] + s) == [x.0] + Firsts(s)
  {
  }

  function Map<A, B>(f: A -> B, s: seq<A>): (r: seq<B>)
    ensures |r| == |s| && forall i :: 0 <= i < |s| ==> r[i] == f(s[i])
  {
    seq(|s|, i requires 0 <= i < |s| => f(s[i]))
  }

  /**
   * Mapping the elements by a function that keeps their keys commutes with
   * sorting: the sort moves elements by their keys alone.
   */
  lemma {:induction false} SortByMap<A, B>(key: A -> int, keyB: B -> int, f: A -> B, s: seq<A>)
    requires forall a :: keyB(f(a)) == key(a)
    ensures SortBy(keyB, Map(f, s)) == Map(f, SortBy(key, s))
  {
    if s != [] {
      var n := |s| - 1;
      assert Map(f, s)[..n] == Map(f, s[..n]);
      assert Map(f, s)[n] == f(s[n]);
      SortByMap(key, keyB, f, s[..n]);
      InsertByMap(key, keyB, f, s[n], SortBy(key, s[..n]));
    }
  }

  lemma {:induction false} InsertByMap<A, B>(key: A -> int, keyB: B -> int, f: A -> B, x: A, s: seq<A>)
    requires forall a :: keyB(f(a)) == key(a)
    ensures InsertBy(keyB, f(x), Map(f, s)) == Map(f, InsertBy(key, x, s))
  {
    if s == [] {
      assert Map(f, [x]) == [f(x)];
    } else {
      var m := Map(f, s);
      assert m[0] == f(s[0]) && m[1..] == Map(f, s[1..]);
      if key(s[0]) > key(x) {
        assert Map(f, [x] + s) == [f(x)] + m;
      } else {
        InsertByMap(key, keyB, f, x, s[1..]);
        assert Map(f, [s[0]] + InsertBy(key, x, s[1..])) == [f(s[0])] + Map(f, InsertBy(key, x, s[1..]));
      }
    }
  }
}
