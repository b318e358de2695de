/**
 * The generators of the composite types, over the generators already built
 * for their parts: `opt` (src/arbitraries/candid/opt.ts), `vec` (vec.ts),
 * `variant` (variant.ts) and `record` (record.ts).
 */
module Composites {
  import opened Wrappers
  import opened Strings
  import opened Candid
  import opened CuzzOptions
  import opened Generators
  import opened Sorting
  import Objects

  /** `opt`: `[]` or `[v]` with `v` from the inner generator. */
  function OptArbitrary(inner: Arbitrary): (a: Arbitrary)
    ensures forall v :: Produces(a, v) <==>
      v == VArray([]) || (v.VArray? && |v.items| == 1 && Produces(inner, v.items[0]))
  {
    var a := OneOf([Constant(VArray([])), MapToArray(inner)]);
    assert forall v :: Produces(a, v) <==>
      v == VArray([]) || (v.VArray? && |v.items| == 1 && Produces(inner, v.items[0])) by {
      forall v ensures Produces(a, v) <==> Produces(Constant(VArray([])), v) || Produces(MapToArray(inner), v) {
        assert a.alternatives[0] == Constant(VArray([]));
        assert a.alternatives[1] == MapToArray(inner);
      }
    }
    a
  }

  /** The blob case applies to an element that is literally `{ PrimT: 'Nat8' }`. */
  predicate IsBlobElement(element: CandidType) {
    PrimOf(element) == Some(Nat8)
  }

  /** `cuzzConfig.maxLength?.blob ?? 2_000_000`. */
  function MaxBlobLength(cfg: CuzzConfig): int {
    cfg.maxLength.blob.GetOr(2000000)
  }

  /** `cuzzConfig.maxLength?.vec ?? 100`. */
  function MaxVecLength(cfg: CuzzConfig): int {
    cfg.maxLength.vec.GetOr(100)
  }

  /** `vec nat8`: byte arrays of at most `maxLength.blob` bytes. */
  function BlobArbitrary(cfg: CuzzConfig): (a: Arbitrary)
    ensures forall v :: Produces(a, v) <==>
      && v.VBytes? && |v.bytes| <= MaxBlobLength(cfg)
      && forall i :: 0 <= i < |v.bytes| ==> 0 <= v.bytes[i] < 256
  {
    Uint8Array(MaxBlobLength(cfg))
  }

  /** Any other `vec`: arrays of at most `maxLength.vec` elements, each from the element generator. */
  function ArrayArbitrary(cfg: CuzzConfig, element: Arbitrary): (a: Arbitrary)
    ensures forall v :: Produces(a, v) <==>
      && v.VArray? && |v.items| <= MaxVecLength(cfg)
      && forall i :: 0 <= i < |v.items| ==> Produces(element, v.items[i])
  {
    ArrayOf(element, MaxVecLength(cfg))
  }

  /** A value is an object whose only key is `key`. */
  predicate IsTagged(v: Value, key: string) {
    v.VObject? && v.fields.Keys == {key}
  }

  /**
   * `variant`: one candidate per alternative; each produces an object with
   * the alternative's label as its only key and the payload under it.
   * `fc.oneof` of no candidate throws.
   */
  function VariantArbitrary(alternatives: seq<Alternative>, payloads: seq<Arbitrary>): (r: Result<Arbitrary, BuildError>)
    requires |payloads| == |alternatives|
    ensures r.Err? <==> alternatives == []
    ensures r.Err? ==> r.error == EmptyOneOf
    ensures r.Ok? ==> r.value.OneOf? && |r.value.alternatives| == |alternatives|
    ensures r.Ok? ==> forall v :: Produces(r.value, v) <==>
      exists i :: 0 <= i < |alternatives| && IsTagged(v, alternatives[i].name)
        && Produces(payloads[i], v.fields[alternatives[i].name])
  {
    var n := |alternatives|;
    if n == 0 then Err(EmptyOneOf)
    else
      var a := OneOf(seq(n, i requires 0 <= i < n => MapToObject(alternatives[i].name, payloads[i])));
      assert forall v :: Produces(a, v) <==>
        exists i :: 0 <= i < n && IsTagged(v, alternatives[i].name) && Produces(payloads[i], v.fields[alternatives[i].name]) by {
        forall v ensures Produces(a, v) ==>
          exists i :: 0 <= i < n && IsTagged(v, alternatives[i].name) && Produces(payloads[i], v.fields[alternatives[i].name]) {
          if Produces(a, v) {
            var i :| 0 <= i < n && Produces(a.alternatives[i], v);
            assert a.alternatives[i] == MapToObject(alternatives[i].name, payloads[i]);
          }
        }
        forall v, i | 0 <= i < n && IsTagged(v, alternatives[i].name) && Produces(payloads[i], v.fields[alternatives[i].name])
          ensures Produces(a, v) {
          assert a.alternatives[i] == MapToObject(alternatives[i].name, payloads[i]);
          assert Produces(a.alternatives[i], v);
        }
      }
      Ok(a)
  }

  /** The variant of the payloads that all built: each value is some alternative's payload under its label. */
  lemma VariantOfCollected(alternatives: seq<Alternative>, rs: seq<Built>)
    requires |rs| == |alternatives| && Collect(rs).Ok? && alternatives != []
    ensures VariantArbitrary(alternatives, Collect(rs).value).Ok?
    ensures forall v :: Produces(VariantArbitrary(alternatives, Collect(rs).value).value, v) <==>
      exists i :: 0 <= i < |alternatives| && IsTagged(v, alternatives[i].name)
        && Produces(rs[i].value, v.fields[alternatives[i].name])
  {
    var ps := Collect(rs).value;
    assert forall i :: 0 <= i < |alternatives| ==> ps[i] == rs[i].value;
  }

  /** Every value of a variant has exactly one key, and that key is one of the labels. */
  lemma VariantHasOneKey(alternatives: seq<Alternative>, payloads: seq<Arbitrary>, v: Value)
    requires |payloads| == |alternatives|
    requires VariantArbitrary(alternatives, payloads).Ok?
    requires Produces(VariantArbitrary(alternatives, payloads).value, v)
    ensures v.VObject? && |v.fields.Keys| == 1
    ensures exists i :: 0 <= i < |alternatives| && v.fields.Keys == {alternatives[i].name}
  {
  }

  /** The field's positional index, the sort key of an all-unnamed record. */
  function FieldIndex(f: Field): int {
    match f.id
    case Unnamed(i) => i
    case Named(_) => 0
  }

  /** The key of a field in a keyed record: its name, or the decimal string of its index. */
  function FieldKey(f: Field): string {
    match f.id
    case Named(name) => name
    case Unnamed(i) => DecimalString(i)
  }

  function FieldKeys(fields: seq<Field>): set<string> {
    set j | 0 <= j < |fields| :: FieldKey(fields[j])
  }

  /** The fields in the order the positional branch leaves them: stably sorted by index. */
  function SortFieldsByIndex(fields: seq<Field>): seq<Field> {
    SortBy(FieldIndex, fields)
  }

  type Built = Result<Arbitrary, BuildError>

  /** `e` is the error of the first result that failed, as a `map` that throws stops there. */
  predicate FirstFailure(rs: seq<Built>, e: BuildError) {
    exists k :: 0 <= k < |rs| && rs[k] == Err(e) && forall j :: 0 <= j < k ==> rs[j].Ok?
  }

  function PairIndex(p: (Field, Built)): int {
    FieldIndex(p.0)
  }

  function Zip(fields: seq<Field>, built: seq<Built>): (ps: seq<(Field, Built)>)
    requires |built| == |fields|
    ensures |ps| == |fields| && forall i :: 0 <= i < |ps| ==> ps[i] == (fields[i], built[i])
  {
    seq(|fields|, i requires 0 <= i < |fields| => (fields[i], built[i]))
  }

  function KeyedEntries(fields: seq<Field>, values: seq<Arbitrary>): (es: seq<(string, Arbitrary)>)
    requires |values| == |fields|
    ensures |es| == |fields| && forall i :: 0 <= i < |es| ==> es[i] == (FieldKey(fields[i]), values[i])
  {
    seq(|fields|, i requires 0 <= i < |fields| => (FieldKey(fields[i]), values[i]))
  }

  /** The fields' results in index order of their fields. */
  function SortedResults(fields: seq<Field>, built: seq<Built>): (rs: seq<Built>)
    requires |built| == |fields|
    ensures |rs| == |fields|
    ensures forall x :: x in rs <==> x in built
  {
    var ps := Zip(fields, built);
    var sorted := SortBy(PairIndex, ps);
    var rs := seq(|sorted|, k requires 0 <= k < |sorted| => sorted[k].1);
    assert forall x :: x in rs <==> x in built by {
      forall x | x in rs ensures x in built {
        var k :| 0 <= k < |rs| && rs[k] == x;
        assert sorted[k] in multiset(ps);
        var i :| 0 <= i < |ps| && ps[i] == sorted[k];
        assert built[i] == x;
      }
      forall x | x in built ensures x in rs {
        var i :| 0 <= i < |built| && built[i] == x;
        assert ps[i] in multiset(sorted);
        var k :| 0 <= k < |sorted| && sorted[k] == ps[i];
        assert rs[k] == x;
      }
    }
    rs
  }

  /** The all-unnamed branch: `fc.tuple` over the fields in index order. */
  function PositionalArbitrary(fields: seq<Field>, built: seq<Built>): (r: Built)
    requires |built| == |fields|
    ensures r.Ok? <==> forall i :: 0 <= i < |built| ==> built[i].Ok?
    ensures r.Err? ==> Err(r.error) in built
    ensures r.Err? ==> FirstFailure(SortedResults(fields, built), r.error)
    ensures r.Ok? ==>
      && r.value.Tuple? && |r.value.items| == |fields|
      && forall k :: 0 <= k < |fields| ==> SortedResults(fields, built)[k] == Ok(r.value.items[k])
  {
    var rs := SortedResults(fields, built);
    match Collect(rs)
    case Err(e) =>
      CollectFailure(rs, e);
      var k :| 0 <= k < |rs| && rs[k].Err? && rs[k].error == e;
      assert rs[k] in built;
      assert !built[IndexIn(built, rs[k])].Ok?;
      Err(e)
    case Ok(vs) =>
      assert forall i :: 0 <= i < |built| ==> built[i].Ok? by {
        forall i | 0 <= i < |built| ensures built[i].Ok? {
          assert built[i] in rs;
        }
      }
      Ok(Tuple(vs))
  }

  function IndexIn(built: seq<Built>, x: Built): (i: nat)
    requires x in built
    ensures i < |built| && built[i] == x
  {
    if built[0] == x then 0 else 1 + IndexIn(built[1..], x)
  }

  /** The keyed branch: `fc.record` over the field keys, later fields replacing earlier ones. */
  function KeyedArbitrary(fields: seq<Field>, built: seq<Built>): (r: Built)
    requires |built| == |fields|
    ensures r.Ok? <==> forall i :: 0 <= i < |built| ==> built[i].Ok?
    ensures r.Err? ==> Err(r.error) in built
    ensures r.Err? ==> FirstFailure(built, r.error)
    ensures r.Ok? ==>
      && r.value.Record?
      && r.value.entries == Objects.FromEntries(KeyedEntries(fields, seq(|built|, i requires 0 <= i < |built| => built[i].value)))
  {
    match Collect(built)
    case Err(e) =>
      CollectFailure(built, e);
      var i :| 0 <= i < |built| && built[i].Err? && built[i].error == e;
      assert built[i] == Err(e);
      Err(e)
    case Ok(vs) =>
      assert vs == seq(|built|, i requires 0 <= i < |built| => built[i].value);
      Ok(Record(Objects.FromEntries(KeyedEntries(fields, vs))))
  }

  /**
   * `record`, given the result of building each field's type, in declared
   * order: positional when every label is unnamed, keyed otherwise. It fails
   * exactly when some field fails. The error is that of the first field to
   * fail in the order the branch builds them: index order after the sort in
   * the positional branch, declared order in the keyed one.
   */
  function RecordArbitrary(fields: seq<Field>, built: seq<Built>): (r: Built)
    requires |built| == |fields|
    ensures r.Ok? <==> forall i :: 0 <= i < |built| ==> built[i].Ok?
    ensures r.Err? ==> Err(r.error) in built
    ensures r.Err? && AllUnnamed(fields) ==> FirstFailure(SortedResults(fields, built), r.error)
    ensures r.Err? && !AllUnnamed(fields) ==> FirstFailure(built, r.error)
  {
    if AllUnnamed(fields) then PositionalArbitrary(fields, built) else KeyedArbitrary(fields, built)
  }

  /**
   * In the positional branch, when each field's result is what `build` gives
   * for that field, the k-th tuple component is what `build` gives for the
   * k-th field in index order.
   */
  lemma PositionalComponents(fields: seq<Field>, built: seq<Built>, build: Field -> Built)
    requires |built| == |fields| && AllUnnamed(fields)
    requires forall i :: 0 <= i < |fields| ==> built[i] == build(fields[i])
    requires RecordArbitrary(fields, built).Ok?
    ensures var a := RecordArbitrary(fields, built).value;
      && a.Tuple? && |a.items| == |fields|
      && forall k :: 0 <= k < |fields| ==> build(SortFieldsByIndex(fields)[k]) == Ok(a.items[k])
  {
    var ps := Zip(fields, built);
    var sorted := SortBy(PairIndex, ps);
    SortByFirsts(FieldIndex, PairIndex, ps);
    assert Firsts(ps) == fields;
    forall k | 0 <= k < |fields| ensures sorted[k].1 == build(sorted[k].0) {
      assert sorted[k] in multiset(ps);
      var i :| 0 <= i < |ps| && ps[i] == sorted[k];
    }
    assert forall k :: 0 <= k < |fields| ==> SortFieldsByIndex(fields)[k] == sorted[k].0;
    assert forall k :: 0 <= k < |fields| ==> SortedResults(fields, built)[k] == sorted[k].1;
  }

  /**
   * The index order: a permutation of the fields, ascending by index, and
   * fields with equal indexes in declared order.
   */
  lemma SortFieldsByIndexOrder(fields: seq<Field>)
    ensures multiset(SortFieldsByIndex(fields)) == multiset(fields)
    ensures forall i, j :: 0 <= i < j < |fields| ==>
      FieldIndex(SortFieldsByIndex(fields)[i]) <= FieldIndex(SortFieldsByIndex(fields)[j])
    ensures Stable(FieldIndex, fields, SortFieldsByIndex(fields))
  {
    SortByStable(FieldIndex, fields);
  }

  /**
   * In the keyed branch there is one key per distinct field key; each key
   * holds the generator of the last field with that key.
   */
  lemma KeyedRecordKeys(fields: seq<Field>, built: seq<Built>, i: nat)
    requires |built| == |fields| && !AllUnnamed(fields)
    requires RecordArbitrary(fields, built).Ok?
    requires i < |fields| && forall j :: i < j < |fields| ==> FieldKey(fields[j]) != FieldKey(fields[i])
    ensures RecordArbitrary(fields, built).value.Record?
    ensures var es := RecordArbitrary(fields, built).value.entries;
      && Objects.DistinctKeys(es)
      && Objects.KeySet(es) == FieldKeys(fields)
      && FieldKey(fields[i]) in Objects.KeySet(es)
      && Ok(Objects.Get(es, FieldKey(fields[i]))) == built[i]
  {
    var vs := seq(|built|, j requires 0 <= j < |built| => built[j].value);
    var kes := KeyedEntries(fields, vs);
    assert Objects.KeySet(kes) == FieldKeys(fields) by {
      forall x | x in Objects.KeySet(kes) ensures x in FieldKeys(fields) {
        var j :| 0 <= j < |kes| && kes[j].0 == x;
      }
      forall x | x in FieldKeys(fields) ensures x in Objects.KeySet(kes) {
        var j :| 0 <= j < |fields| && FieldKey(fields[j]) == x;
        assert kes[j].0 == x;
      }
    }
    assert Objects.LastWithKey(kes, i);
    Objects.FromEntriesLastWins(kes, i);
  }

  /** Sorting an already sorted list changes nothing. */
  lemma {:induction false} SortBySortedIsIdentity<T>(key: T -> int, s: seq<T>)
    requires SortedBy(key, s)
    ensures SortBy(key, s) == s
  {
    if s != [] {
      var n := |s| - 1;
      assert SortedBy(key, s[..n]);
      SortBySortedIsIdentity(key, s[..n]);
      InsertLargest(key, s[n], s[..n]);
      assert s[..n] + [s[n]] == s;
    }
  }

  lemma {:induction false} InsertLargest<T>(key: T -> int, x: T, s: seq<T>)
    requires forall i :: 0 <= i < |s| ==> key(s[i]) <= key(x)
    ensures InsertBy(key, x, s) == s + [x]
  {
    if s != [] {
      InsertLargest(key, x, s[1..]);
      assert [s[0]] + (s[1..] + [x]) == s + [x];
    }
  }

  /**
   * The positional branch sorts the caller's field list in place; sorting it
   * again is a no-op, so building from the reordered list gives the same tuple.
   */
  lemma SortFieldsIdempotent(fields: seq<Field>)
    ensures SortFieldsByIndex(SortFieldsByIndex(fields)) == SortFieldsByIndex(fields)
  {
    SortBySortedIsIdentity(FieldIndex, SortFieldsByIndex(fields));
  }

  /** `recordT.sort((a, b) => a.label.Unnamed - b.label.Unnamed)` on the caller's array. */
  method SortFieldsInPlace(a: array<Field>)
    modifies a
    ensures a[..] == SortFieldsByIndex(old(a[..]))
  {
    var sorted := SortFieldsByIndex(a[..]);
    forall k | 0 <= k < a.Length {
      a[k] := sorted[k];
    }
  }
}
