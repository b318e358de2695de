/**
 * JavaScript objects as the fuzzer builds them: by spreading an accumulator
 * and adding one computed key, `{ ...acc, [key]: value }`. An object is its
 * list of entries in the order the keys were created; a key occurs at most
 * once. `Object.entries` does not list them in that order: array-index keys
 * come first, in ascending numeric order, then the other keys in creation
 * order (`OwnEntries`).
 */
module Objects {
  import opened Wrappers
  import opened Strings
  import Sorting

  function KeySet<V>(o: seq<(string, V)>): set<string> {
    set i | 0 <= i < |o| :: o[i].0
  }

  predicate DistinctKeys<V>(o: seq<(string, V)>) {
    forall i, j :: 0 <= i < j < |o| ==> o[i].0 != o[j].0
  }

  /** The position of a key, if present. */
  function IndexOf<V>(o: seq<(string, V)>, k: string): (r: Option<nat>)
    ensures r.Some? ==> r.value < |o| && o[r.value].0 == k
    ensures r.Some? ==> forall j :: 0 <= j < r.value ==> o[j].0 != k
    ensures r.None? <==> k !in KeySet(o)
  {
    if o == [] then None
    else if o[0].0 == k then Some(0)
    else match IndexOf(o[1..], k)
      case None =>
        assert KeySet(o) == {o[0].0} + KeySet(o[1..]) by {
          forall x | x in KeySet(o) ensures x in {o[0].0} + KeySet(o[1..]) {
            var i :| 0 <= i < |o| && o[i].0 == x;
            if i > 0 { assert o[1..][i - 1].0 == x; }
          }
        }
        None
      case Some(i) => Some(i + 1)
  }

  /** `o[k]` for a key that is present. */
  function Get<V>(o: seq<(string, V)>, k: string): V
    requires k in KeySet(o)
  {
    o[IndexOf(o, k).value].1
  }

  /**
   * `{ ...o, [k]: v }`: a new key is created last; an existing key keeps its
   * place and takes the new value. Spreading copies the other keys in their
   * enumeration order, which keeps the creation order of the keys that are
   * not array indices, the only ones whose creation order is observable.
   */
  function Put<V>(o: seq<(string, V)>, k: string, v: V): (r: seq<(string, V)>)
    requires DistinctKeys(o)
    ensures DistinctKeys(r)
    ensures KeySet(r) == KeySet(o) + {k}
    ensures Get(r, k) == v
    ensures forall k' :: k' in KeySet(o) && k' != k ==> Get(r, k') == Get(o, k')
    ensures k in KeySet(o) ==> |r| == |o|
    ensures k !in KeySet(o) ==> r == o + [(k, v)]
  {
    match IndexOf(o, k)
    case Some(i) => ReplaceEntry(o, k, v, i); o[i := (k, v)]
    case None => AppendEntry(o, k, v); o + [(k, v)]
  }

  lemma ReplaceEntry<V>(o: seq<(string, V)>, k: string, v: V, i: nat)
    requires DistinctKeys(o) && IndexOf(o, k) == Some(i)
    ensures var r := o[i := (k, v)];
      && DistinctKeys(r) && KeySet(r) == KeySet(o) && k in KeySet(r) && Get(r, k) == v
      && forall k' :: k' in KeySet(o) && k' != k ==> Get(r, k') == Get(o, k')
  {
    var r := o[i := (k, v)];
    assert KeySet(r) == KeySet(o) by {
      forall x | x in KeySet(o) ensures x in KeySet(r) {
        var j :| 0 <= j < |o| && o[j].0 == x;
        assert r[j].0 == x;
      }
    }
    assert IndexOf(r, k) == Some(i);
    forall k' | k' in KeySet(o) && k' != k ensures Get(r, k') == Get(o, k') {
      var j := IndexOf(o, k').value;
      assert IndexOf(r, k') == Some(j);
    }
  }

  lemma AppendEntry<V>(o: seq<(string, V)>, k: string, v: V)
    requires DistinctKeys(o) && k !in KeySet(o)
    ensures var r := o + [(k, v)];
      && DistinctKeys(r) && KeySet(r) == KeySet(o) + {k} && Get(r, k) == v
      && forall k' :: k' in KeySet(o) && k' != k ==> Get(r, k') == Get(o, k')
  {
    var r := o + [(k, v)];
    assert KeySet(r) == KeySet(o) + {k} by {
      forall x | x in KeySet(r) ensures x in KeySet(o) + {k} {
        var j :| 0 <= j < |r| && r[j].0 == x;
        if j < |o| { assert o[j].0 == x; }
      }
      assert r[|o|].0 == k;
      forall x | x in KeySet(o) ensures x in KeySet(r) {
        var j :| 0 <= j < |o| && o[j].0 == x;
        assert r[j].0 == x;
      }
    }
    assert IndexOf(r, k) == Some(|o|);
    forall k' | k' in KeySet(o) && k' != k ensures Get(r, k') == Get(o, k') {
      var j := IndexOf(o, k').value;
      assert IndexOf(r, k') == Some(j);
    }
  }

  /** `entries.reduce((acc, [k, v]) => ({ ...acc, [k]: v }), {})`. */
  function FromEntries<V>(es: seq<(string, V)>): (r: seq<(string, V)>)
    ensures DistinctKeys(r)
    ensures KeySet(r) == KeySet(es)
  {
    if es == [] then []
    else
      var n := |es| - 1;
      var acc := FromEntries(es[..n]);
      assert KeySet(es) == KeySet(es[..n]) + {es[n].0} by {
        forall x | x in KeySet(es) ensures x in KeySet(es[..n]) + {es[n].0} {
          var j :| 0 <= j < |es| && es[j].0 == x;
          if j < n { assert es[..n][j].0 == x; }
        }
        forall x | x in KeySet(es[..n]) ensures x in KeySet(es) {
          var j :| 0 <= j < n && es[..n][j].0 == x;
          assert es[j].0 == x;
        }
      }
      Put(acc, es[n].0, es[n].1)
  }

  /** Entry `i` is the last one with its key. */
  predicate LastWithKey<V>(es: seq<(string, V)>, i: nat) {
    i < |es| && forall j :: i < j < |es| ==> es[j].0 != es[i].0
  }

  /** Each key of the built object holds the value of the last entry with that key. */
  lemma {:induction false} FromEntriesLastWins<V>(es: seq<(string, V)>, i: nat)
    requires LastWithKey(es, i)
    ensures es[i].0 in KeySet(FromEntries(es))
    ensures Get(FromEntries(es), es[i].0) == es[i].1
  {
    var n := |es| - 1;
    assert es[i].0 in KeySet(es);
    if i < n {
      assert LastWithKey(es[..n], i);
      FromEntriesLastWins(es[..n], i);
      assert es[..n][i] == es[i];
    }
    PutGet(FromEntries(es[..n]), es[n].0, es[n].1, es[i].0);
  }

  /** After a `Put`, the key put holds the new value and every other key its old one. */
  lemma PutGet<V>(o: seq<(string, V)>, k: string, v: V, x: string)
    requires DistinctKeys(o) && (x == k || x in KeySet(o))
    ensures x in KeySet(Put(o, k, v))
    ensures Get(Put(o, k, v), x) == if x == k then v else Get(o, x)
  {
  }

  /** When no key repeats, reducing the entries gives back the same list. */
  lemma {:induction false} FromDistinctEntries<V>(es: seq<(string, V)>)
    requires DistinctKeys(es)
    ensures FromEntries(es) == es
  {
    if es != [] {
      var n := |es| - 1;
      assert DistinctKeys(es[..n]);
      FromDistinctEntries(es[..n]);
      assert es[n].0 !in KeySet(es[..n]);
      assert es[..n] + [(es[n].0, es[n].1)] == es;
    }
  }

  /** 2^32 - 1: the array indices are the integers below it. */
  const ArrayIndexLimit: int := 4294967295

  /**
   * A key that is an array index: the canonical decimal string of an
   * integer below 2^32 - 1, such as "0" or "17" but not "007" or "-1".
   */
  predicate IsArrayIndex(k: string) {
    && |k| >= 1 && AllDigits(k)
    && (k[0] != '0' || |k| == 1)
    && DecimalValue(k) < ArrayIndexLimit
  }

  /** The integer an array-index key denotes; 0 for any other key. */
  function IndexValue(k: string): int {
    if IsArrayIndex(k) then DecimalValue(k) else 0
  }

  /** The entries whose key is an array index, in their order. */
  function IndexEntries<V>(o: seq<(string, V)>): (r: seq<(string, V)>)
    ensures forall i :: 0 <= i < |r| ==> IsArrayIndex(r[i].0)
  {
    if o == [] then [] else (if IsArrayIndex(o[0].0) then [o[0]] else []) + IndexEntries(o[1..])
  }

  /** The entries whose key is not an array index, in their order. */
  function OtherEntries<V>(o: seq<(string, V)>): (r: seq<(string, V)>)
    ensures forall i :: 0 <= i < |r| ==> !IsArrayIndex(r[i].0)
  {
    if o == [] then [] else (if IsArrayIndex(o[0].0) then [] else [o[0]]) + OtherEntries(o[1..])
  }

  /**
   * Every array-index key comes before every other key, and the array-index
   * keys are in ascending numeric order.
   */
  predicate IndexKeysFirst<V>(o: seq<(string, V)>) {
    forall i, j :: 0 <= i < j < |o| && IsArrayIndex(o[j].0) ==>
      IsArrayIndex(o[i].0) && IndexValue(o[i].0) <= IndexValue(o[j].0)
  }

  function EntryIndex<V>(e: (string, V)): int {
    IndexValue(e.0)
  }

  /**
   * The entries in the order `Object.entries` and `for...in` list them: a
   * permutation of the object's entries, array-index keys first and
   * ascending, then the other keys in creation order.
   */
  function OwnEntries<V>(o: seq<(string, V)>): (r: seq<(string, V)>)
    ensures multiset(r) == multiset(o)
    ensures IndexKeysFirst(r)
    ensures OtherEntries(r) == OtherEntries(o)
  {
    var ix := IndexEntries(o);
    var sorted := Sorting.SortBy(EntryIndex, ix);
    var r := sorted + OtherEntries(o);
    SplitPermutes(o);
    AllIndices(sorted, ix);
    OtherEntriesAppend(sorted, OtherEntries(o));
    OtherEntriesOfIndices(sorted);
    OtherEntriesIdempotent(o);
    assert sorted + OtherEntries(o) == r;
    r
  }

  lemma {:induction false} SplitPermutes<V>(o: seq<(string, V)>)
    ensures multiset(IndexEntries(o)) + multiset(OtherEntries(o)) == multiset(o)
  {
    if o != [] {
      SplitPermutes(o[1..]);
      assert o == [o[0]] + o[1..];
    }
  }

  /** A permutation of index entries is all index entries. */
  lemma AllIndices<V>(sorted: seq<(string, V)>, ix: seq<(string, V)>)
    requires multiset(sorted) == multiset(ix)
    requires forall i :: 0 <= i < |ix| ==> IsArrayIndex(ix[i].0)
    ensures forall i :: 0 <= i < |sorted| ==> IsArrayIndex(sorted[i].0)
  {
    forall i | 0 <= i < |sorted| ensures IsArrayIndex(sorted[i].0) {
      assert sorted[i] in multiset(ix);
    }
  }

  lemma {:induction false} OtherEntriesAppend<V>(a: seq<(string, V)>, b: seq<(string, V)>)
    ensures OtherEntries(a + b) == OtherEntries(a) + OtherEntries(b)
  {
    if a == [] {
      assert a + b == b;
    } else {
      assert (a + b)[1..] == a[1..] + b;
      OtherEntriesAppend(a[1..], b);
    }
  }

  lemma {:induction false} OtherEntriesOfIndices<V>(a: seq<(string, V)>)
    requires forall i :: 0 <= i < |a| ==> IsArrayIndex(a[i].0)
    ensures OtherEntries(a) == []
  {
    if a != [] {
      OtherEntriesOfIndices(a[1..]);
    }
  }

  lemma {:induction false} OtherEntriesIdempotent<V>(o: seq<(string, V)>)
    ensures OtherEntries(OtherEntries(o)) == OtherEntries(o)
  {
    if o != [] {
      var rest := OtherEntries(o[1..]);
      OtherEntriesIdempotent(o[1..]);
      OtherEntriesAppend(if IsArrayIndex(o[0].0) then [] else [o[0]], rest);
    }
  }

  /**
   * Distinct array-index keys denote distinct integers, so `IndexKeysFirst`
   * fixes the order of the index keys of an object.
   */
  lemma IndexValueInjective(k: string, k': string)
    requires IsArrayIndex(k) && IsArrayIndex(k') && IndexValue(k) == IndexValue(k')
    ensures k == k'
  {
    CanonicalDigits(k);
    CanonicalDigits(k');
  }

  /** A canonical digit string is the decimal string of its value. */
  lemma {:induction false} CanonicalDigits(k: string)
    requires |k| >= 1 && AllDigits(k) && (k[0] != '0' || |k| == 1)
    ensures DecimalString(DecimalValue(k)) == k
  {
    var n := |k| - 1;
    if n == 0 {
      assert DecimalValue(k) == k[0] as int - '0' as int;
    } else {
      var p := k[..n];
      assert p[0] == k[0];
      LeadingDigitBound(p);
      CanonicalDigits(p);
      assert DecimalValue(k) == 10 * DecimalValue(p) + (k[n] as int - '0' as int);
      assert k == p + [k[n]];
    }
  }

  /** A digit string is worth at least its leading digit. */
  lemma {:induction false} LeadingDigitBound(s: string)
    requires |s| >= 1 && AllDigits(s)
    ensures DecimalValue(s) >= s[0] as int - '0' as int
  {
    if |s| > 1 {
      var p := s[..|s| - 1];
      assert p[0] == s[0];
      LeadingDigitBound(p);
    }
  }

  /** `{ b, 1, 0 }` enumerates as 0, 1, b: index keys first and ascending. */
  lemma IndexKeysEnumerateFirst<V>(x: V, y: V, z: V)
    ensures OwnEntries([("b", x), ("1", y), ("0", z)]) == [("0", z), ("1", y), ("b", x)]
  {
    ExampleSplit(x, y, z);
    ExampleSort(y, z);
  }

  /** "1" and "0" are array indices and "b" is not. */
  lemma ExampleKeys()
    ensures !IsArrayIndex("b")
    ensures IsArrayIndex("1") && IndexValue("1") == 1
    ensures IsArrayIndex("0") && IndexValue("0") == 0
  {
    assert !IsDigit('b');
    assert DecimalValue("1") == 1;
    assert DecimalValue("0") == 0;
  }

  lemma ExampleSplit<V>(x: V, y: V, z: V)
    ensures IndexEntries([("b", x), ("1", y), ("0", z)]) == [("1", y), ("0", z)]
    ensures OtherEntries([("b", x), ("1", y), ("0", z)]) == [("b", x)]
  {
    var o := [("b", x), ("1", y), ("0", z)];
    ExampleKeys();
    assert o[1..] == [("1", y), ("0", z)] && o[1..][1..] == [("0", z)];
    assert IndexEntries([("0", z)]) == [("0", z)];
    assert OtherEntries([("0", z)]) == [];
  }

  lemma ExampleSort<V>(y: V, z: V)
    ensures Sorting.SortBy(EntryIndex, [("1", y), ("0", z)]) == [("0", z), ("1", y)]
  {
    ExampleKeys();
    var ix := [("1", y), ("0", z)];
    assert ix[..1] == [("1", y)];
    assert Sorting.SortBy(EntryIndex, [("1", y)]) == [("1", y)];
    assert Sorting.SortBy(EntryIndex, ix) == Sorting.InsertBy(EntryIndex, ("0", z), [("1", y)]);
  }
}
