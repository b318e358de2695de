/** What the builder promises, branch by branch, and about the method table. */
module ArbitraryProperties {
  import opened Wrappers
  import opened Strings
  import opened Candid
  import opened CuzzOptions
  import opened Generators
  import opened Sorting
  import opened Scalars
  import opened Composites
  import opened Arbitraries
  import Objects

  /** The facts `Selects` packs, one per key tested before the selected one. */
  lemma SelectedBranch(t: CandidType, key: Key)
    requires Selects(t, key)
    ensures t.Node? && Find(t.entries, key).Some?
    ensures Rank(key) > 0 ==> Find(t.entries, PrimKey).None?
    ensures Rank(key) > 1 ==> Find(t.entries, FuncKey).None?
    ensures Rank(key) > 2 ==> Find(t.entries, OptKey).None?
    ensures Rank(key) > 3 ==> Find(t.entries, RecordKey).None?
    ensures Rank(key) > 4 ==> Find(t.entries, ServKey).None?
    ensures Rank(key) > 5 ==> Find(t.entries, VarKey).None?
    ensures Rank(key) > 6 ==> Find(t.entries, VariantKey).None?
  {
    assert Rank(PrimKey) == 0 && Rank(FuncKey) == 1 && Rank(OptKey) == 2 && Rank(RecordKey) == 3;
    assert Rank(ServKey) == 4 && Rank(VarKey) == 5 && Rank(VariantKey) == 6;
  }

  /** The key whose branch handles `t`: the first present in the dispatcher's order. */
  function DispatchKey(t: CandidType): Option<Key> {
    if Has(t, PrimKey) then Some(PrimKey)
    else if Has(t, FuncKey) then Some(FuncKey)
    else if Has(t, OptKey) then Some(OptKey)
    else if Has(t, RecordKey) then Some(RecordKey)
    else if Has(t, ServKey) then Some(ServKey)
    else if Has(t, VarKey) then Some(VarKey)
    else if Has(t, VariantKey) then Some(VariantKey)
    else if Has(t, VecKey) then Some(VecKey)
    else None
  }

  /**
   * The ranked description of the dispatch order agrees with the first-match
   * chain: a type is handled by exactly one branch, or by none when it is
   * `'PrincipalT'` or an object with no key.
   */
  lemma DispatchOrder(t: CandidType, key: Key)
    ensures Selects(t, key) <==> DispatchKey(t) == Some(key)
    ensures DispatchKey(t).None? <==> t.PrincipalT? || t.entries == []
  {
    assert Rank(PrimKey) == 0 && Rank(FuncKey) == 1 && Rank(OptKey) == 2 && Rank(RecordKey) == 3;
    assert Rank(ServKey) == 4 && Rank(VarKey) == 5 && Rank(VariantKey) == 6 && Rank(VecKey) == 7;
    if t.Node? && t.entries != [] {
      assert Has(t, KeyOf(t.entries[0]));
    }
  }

  /** A type object with a single entry is handled by the branch of that entry's key. */
  lemma SingleEntrySelects(t: CandidType, key: Key)
    requires t.Node? && |t.entries| == 1 && KeyOf(t.entries[0]) == key
    ensures Selects(t, key)
    ensures Find(t.entries, key) == Some(0) && Payload(t, key) == t.entries[0]
  {
    forall k: Key | k != key ensures !Has(t, k) {
      SingleEntryLacks(t, k);
    }
  }

  /** A type object with a single entry carries no other key. */
  lemma SingleEntryLacks(t: CandidType, k: Key)
    requires t.Node? && |t.entries| == 1 && KeyOf(t.entries[0]) != k
    ensures !Has(t, k)
  {
    assert t.entries[1..] == [];
  }

  /** `'PrincipalT'` and a service reference both give the principal generator; the method list plays no part. */
  lemma PrincipalAndService(cfg: CuzzConfig, decs: seq<TypeDeclaration>, t: CandidType, fuel: nat)
    requires t == PrincipalT || Selects(t, ServKey)
    ensures Build(cfg, decs, t, fuel) == Ok(Principal)
  {
    if t.Node? { SelectedBranch(t, ServKey); }
  }

  /** A `PrimT` entry wins over every other key; `null`, `empty` and `reserved` give constants. */
  lemma PrimitiveBranch(cfg: CuzzConfig, decs: seq<TypeDeclaration>, t: CandidType, fuel: nat)
    requires Has(t, PrimKey)
    ensures Build(cfg, decs, t, fuel) == PrimArbitrary(cfg, PrimOf(t).value)
    ensures PrimOf(t) == Some(Null) ==> Build(cfg, decs, t, fuel) == Ok(Constant(VNull))
    ensures PrimOf(t) == Some(Empty) || PrimOf(t) == Some(Reserved) ==> Build(cfg, decs, t, fuel) == Ok(Constant(VUndefined))
  {
    PrimArbitraryOutcome(cfg, PrimOf(t).value);
  }

  /** A function reference is a principal and a text, whatever its signature says. */
  lemma FuncBranch(cfg: CuzzConfig, decs: seq<TypeDeclaration>, t: CandidType, fuel: nat)
    requires Selects(t, FuncKey)
    ensures Build(cfg, decs, t, fuel) == Ok(FuncArbitrary(cfg))
  {
    SelectedBranch(t, FuncKey);
  }

  /** `opt`: each value is `[]` or `[v]` with `v` from the inner type's generator. */
  lemma OptBranch(cfg: CuzzConfig, decs: seq<TypeDeclaration>, t: CandidType, fuel: nat)
    requires Selects(t, OptKey)
    ensures var inner := Build(cfg, decs, Payload(t, OptKey).inner, fuel);
      && (Build(cfg, decs, t, fuel).Ok? <==> inner.Ok?)
      && (inner.Err? ==> Build(cfg, decs, t, fuel) == Err(inner.error))
      && (inner.Ok? ==> forall v :: Produces(Build(cfg, decs, t, fuel).value, v) <==>
            v == VArray([]) || (v.VArray? && |v.items| == 1 && Produces(inner.value, v.items[0])))
  {
    SelectedBranch(t, OptKey);
  }

  /** A record is built from its fields' results. */
  lemma RecordBuild(cfg: CuzzConfig, decs: seq<TypeDeclaration>, t: CandidType, fuel: nat)
    requires Selects(t, RecordKey)
    ensures var fields := Payload(t, RecordKey).fields;
      Build(cfg, decs, t, fuel) == RecordArbitrary(fields, FieldResults(cfg, decs, fields, fuel))
  {
    SelectedBranch(t, RecordKey);
  }

  /**
   * `record` with only unnamed labels: a tuple with one component per field,
   * the k-th built for the field with the k-th smallest index.
   */
  lemma PositionalRecordBranch(cfg: CuzzConfig, decs: seq<TypeDeclaration>, t: CandidType, fuel: nat)
    requires Selects(t, RecordKey) && AllUnnamed(Payload(t, RecordKey).fields)
    requires Build(cfg, decs, t, fuel).Ok?
    ensures var fields := Payload(t, RecordKey).fields;
      var a := Build(cfg, decs, t, fuel).value;
      && a.Tuple? && |a.items| == |fields|
      && forall k :: 0 <= k < |fields| ==> Build(cfg, decs, SortFieldsByIndex(fields)[k].typ, fuel) == Ok(a.items[k])
  {
    RecordBuild(cfg, decs, t, fuel);
    var fields := Payload(t, RecordKey).fields;
    PositionalComponents(fields, FieldResults(cfg, decs, fields, fuel), (f: Field) => Build(cfg, decs, f.typ, fuel));
  }

  /** A record with no field at all counts as positional and gives the empty tuple. */
  lemma EmptyRecordIsEmptyTuple(cfg: CuzzConfig, decs: seq<TypeDeclaration>, fuel: nat)
    ensures Build(cfg, decs, Node([RecordT([])]), fuel) == Ok(Tuple([]))
  {
    var t := Node([RecordT([])]);
    assert Find(t.entries, RecordKey) == Some(0);
    assert AllUnnamed([]);
    assert SortedResults([], []) == [];
  }

  /**
   * `record` with some named label: a keyed record with one key per field
   * key (an unnamed index as its decimal string); a key holds the generator
   * of the last field with that key.
   */
  lemma KeyedRecordBranch(cfg: CuzzConfig, decs: seq<TypeDeclaration>, t: CandidType, fuel: nat, a: Arbitrary, i: nat)
    requires Selects(t, RecordKey) && !AllUnnamed(Payload(t, RecordKey).fields)
    requires Build(cfg, decs, t, fuel) == Ok(a)
    requires var fields := Payload(t, RecordKey).fields;
      i < |fields| && forall j :: i < j < |fields| ==> FieldKey(fields[j]) != FieldKey(fields[i])
    ensures var fields := Payload(t, RecordKey).fields;
      && a.Record?
      && Objects.KeySet(a.entries) == FieldKeys(fields)
      && FieldKey(fields[i]) in Objects.KeySet(a.entries)
      && Ok(Objects.Get(a.entries, FieldKey(fields[i]))) == Build(cfg, decs, fields[i].typ, fuel)
  {
    var fields := Payload(t, RecordKey).fields;
    RecordBuild(cfg, decs, t, fuel);
    KeyedRecordKeys(fields, FieldResults(cfg, decs, fields, fuel), i);
  }

  /**
   * `VarT`: the first declaration with the name is built in its place, with
   * the same declarations; an unknown name fails with its own error.
   */
  lemma VariableBranch(cfg: CuzzConfig, decs: seq<TypeDeclaration>, t: CandidType, fuel: nat)
    requires Selects(t, VarKey)
    ensures var name := Payload(t, VarKey).name;
      && (Lookup(decs, name).None? ==> Build(cfg, decs, t, fuel) == Err(TypeDefinitionNotFound(name)))
      && (Lookup(decs, name).Some? && fuel > 0 ==>
            Build(cfg, decs, t, fuel) == Build(cfg, decs, decs[Lookup(decs, name).value].typ, fuel - 1))
      && (Lookup(decs, name).Some? && fuel == 0 ==> Build(cfg, decs, t, fuel) == Err(RecursionLimit(name)))
  {
    SelectedBranch(t, VarKey);
  }

  /** The payload generator of a variant alternative before it is tagged. */
  function AlternativePayload(cfg: CuzzConfig, decs: seq<TypeDeclaration>, alt: Alternative, fuel: nat): Result<Arbitrary, BuildError> {
    if IsNullPrim(alt.typ) then Ok(Constant(VNull)) else Build(cfg, decs, alt.typ, fuel)
  }

  /** The payload generator of each alternative, in declared order. */
  function PayloadResults(cfg: CuzzConfig, decs: seq<TypeDeclaration>, alts: seq<Alternative>, fuel: nat): (rs: seq<Result<Arbitrary, BuildError>>)
    ensures |rs| == |alts|
    ensures forall i :: 0 <= i < |alts| ==> rs[i] == AlternativePayload(cfg, decs, alts[i], fuel)
  {
    seq(|alts|, i requires 0 <= i < |alts| => AlternativePayload(cfg, decs, alts[i], fuel))
  }

  /**
   * A variant is built from its alternatives' payloads, failing with the
   * first that fails; with every payload built, a variant of no alternative
   * fails with `EmptyOneOf`, and any other is the `oneof` of the payloads.
   */
  lemma VariantBuild(cfg: CuzzConfig, decs: seq<TypeDeclaration>, t: CandidType, fuel: nat)
    requires Selects(t, VariantKey)
    ensures var alts := Payload(t, VariantKey).alternatives;
      var c := Collect(PayloadResults(cfg, decs, alts, fuel));
      && (c.Err? ==> Build(cfg, decs, t, fuel) == Err(c.error))
      && (c.Ok? && alts == [] ==> Build(cfg, decs, t, fuel) == Err(EmptyOneOf))
      && (c.Ok? && alts != [] ==> Build(cfg, decs, t, fuel) == VariantArbitrary(alts, c.value))
  {
    SelectedBranch(t, VariantKey);
    var alts := Payload(t, VariantKey).alternatives;
    assert PayloadResults(cfg, decs, alts, fuel) == seq(|alts|, i requires 0 <= i < |alts| =>
      if IsNullPrim(alts[i].typ) then Ok(Constant(VNull)) else Build(cfg, decs, alts[i].typ, fuel));
  }

  /**
   * `variant`: every value is an object with exactly one key, the label of
   * some alternative, holding a value of that alternative's own generator.
   */
  lemma VariantBranch(cfg: CuzzConfig, decs: seq<TypeDeclaration>, t: CandidType, fuel: nat)
    requires Selects(t, VariantKey)
    requires Build(cfg, decs, t, fuel).Ok?
    ensures var alts := Payload(t, VariantKey).alternatives;
      && alts != []
      && (forall i :: 0 <= i < |alts| ==> AlternativePayload(cfg, decs, alts[i], fuel).Ok?)
      && forall v :: Produces(Build(cfg, decs, t, fuel).value, v) <==>
           exists i :: 0 <= i < |alts| && IsTagged(v, alts[i].name)
             && Produces(AlternativePayload(cfg, decs, alts[i], fuel).value, v.fields[alts[i].name])
  {
    VariantBuild(cfg, decs, t, fuel);
    var alts := Payload(t, VariantKey).alternatives;
    var rs := PayloadResults(cfg, decs, alts, fuel);
    assert Collect(rs).Ok? && alts != [];
    assert Build(cfg, decs, t, fuel) == VariantArbitrary(alts, Collect(rs).value);
    VariantOfCollected(alts, rs);
  }

  /** `variant {}`: `fc.oneof()` with nothing to choose from throws. */
  lemma EmptyVariantFails(cfg: CuzzConfig, decs: seq<TypeDeclaration>, fuel: nat)
    ensures Build(cfg, decs, Node([VariantT([])]), fuel) == Err(EmptyOneOf)
  {
    var t := Node([VariantT([])]);
    SingleEntrySelects(t, VariantKey);
    VariantBuild(cfg, decs, t, fuel);
    var rs := PayloadResults(cfg, decs, [], fuel);
    assert rs == [] && Collect(rs).Ok?;
  }

  /** The `null` shortcut of the variant builder agrees with building `null` itself. */
  lemma NullShortcutAgrees(cfg: CuzzConfig, decs: seq<TypeDeclaration>, t: CandidType, fuel: nat)
    requires IsNullPrim(t)
    ensures Build(cfg, decs, t, fuel) == Ok(Constant(VNull))
  {
  }

  /**
   * `vec`: a literal `nat8` element gives byte arrays up to `maxLength.blob`;
   * any other element gives arrays up to `maxLength.vec` of element values.
   */
  lemma VecBranch(cfg: CuzzConfig, decs: seq<TypeDeclaration>, t: CandidType, fuel: nat)
    requires Selects(t, VecKey)
    ensures var element := Payload(t, VecKey).element;
      var inner := Build(cfg, decs, element, fuel);
      && (IsBlobElement(element) ==> Build(cfg, decs, t, fuel) == Ok(BlobArbitrary(cfg)))
      && (!IsBlobElement(element) && inner.Err? ==> Build(cfg, decs, t, fuel) == Err(inner.error))
      && (!IsBlobElement(element) && inner.Ok? ==> Build(cfg, decs, t, fuel) == Ok(ArrayArbitrary(cfg, inner.value)))
  {
    SelectedBranch(t, VecKey);
  }

  /**
   * The blob case looks at the element literally: a `VarT` naming `nat8`
   * takes the generic array path.
   */
  lemma AliasOfNat8IsNotBlob(cfg: CuzzConfig, name: string, decs: seq<TypeDeclaration>, element: CandidType, t: CandidType, fuel: nat)
    requires fuel > 0 && 0 <= ResolveSizes(cfg).nat8.min <= ResolveSizes(cfg).nat8.max
    requires decs == [TypD(name, Node([PrimT(Nat8)]))]
    requires element == Node([VarT(name)]) && t == Node([VecT(element)])
    ensures Build(cfg, decs, t, fuel) == Ok(ArrayArbitrary(cfg, Integer(Some(ResolveSizes(cfg).nat8.min), Some(ResolveSizes(cfg).nat8.max))))
  {
    AliasOfNat8Builds(cfg, name, decs, element, fuel);
    VecOfReference(cfg, decs, element, t, fuel);
  }

  /** The name that aliases `nat8` builds the `nat8` range. */
  lemma AliasOfNat8Builds(cfg: CuzzConfig, name: string, decs: seq<TypeDeclaration>, element: CandidType, fuel: nat)
    requires fuel > 0 && 0 <= ResolveSizes(cfg).nat8.min <= ResolveSizes(cfg).nat8.max
    requires decs == [TypD(name, Node([PrimT(Nat8)]))] && element == Node([VarT(name)])
    ensures Build(cfg, decs, element, fuel) == Ok(Integer(Some(ResolveSizes(cfg).nat8.min), Some(ResolveSizes(cfg).nat8.max)))
  {
    ReferenceExpands(cfg, name, decs, element, fuel);
    SingleEntrySelects(decs[0].typ, PrimKey);
    PrimitiveBranch(cfg, decs, decs[0].typ, fuel - 1);
  }

  /** A reference to the only declaration expands to it, one level deeper; with no depth left it fails. */
  lemma ReferenceExpands(cfg: CuzzConfig, name: string, decs: seq<TypeDeclaration>, v: CandidType, fuel: nat)
    requires |decs| == 1 && decs[0].id == name && v == Node([VarT(name)])
    ensures fuel > 0 ==> Build(cfg, decs, v, fuel) == Build(cfg, decs, decs[0].typ, fuel - 1)
    ensures fuel == 0 ==> Build(cfg, decs, v, fuel) == Err(RecursionLimit(name))
  {
    SingleEntrySelects(v, VarKey);
    assert Lookup(decs, name) == Some(0);
    VariableBranch(cfg, decs, v, fuel);
  }

  /** A `vec` of a reference takes the array path with the reference's generator. */
  lemma VecOfReference(cfg: CuzzConfig, decs: seq<TypeDeclaration>, element: CandidType, t: CandidType, fuel: nat)
    requires element.Node? && |element.entries| == 1 && element.entries[0].VarT? && t == Node([VecT(element)])
    requires Build(cfg, decs, element, fuel).Ok?
    ensures Build(cfg, decs, t, fuel) == Ok(ArrayArbitrary(cfg, Build(cfg, decs, element, fuel).value))
  {
    ReferenceIsNotBlob(element);
    VecOfNonBlob(cfg, decs, element, t, fuel);
  }

  lemma ReferenceIsNotBlob(element: CandidType)
    requires element.Node? && |element.entries| == 1 && element.entries[0].VarT?
    ensures !IsBlobElement(element)
  {
    SingleEntryLacks(element, PrimKey);
  }

  /** A one-entry `vec` whose element is not `nat8` builds the array of the element's generator. */
  lemma VecOfNonBlob(cfg: CuzzConfig, decs: seq<TypeDeclaration>, element: CandidType, t: CandidType, fuel: nat)
    requires t == Node([VecT(element)]) && !IsBlobElement(element) && Build(cfg, decs, element, fuel).Ok?
    ensures Build(cfg, decs, t, fuel) == Ok(ArrayArbitrary(cfg, Build(cfg, decs, element, fuel).value))
  {
    assert Selects(t, VecKey) && Payload(t, VecKey).element == element by { SingleEntrySelects(t, VecKey); }
    VecBranch(cfg, decs, t, fuel);
  }

  /** An object with none of the known keys, such as `{}`, is unsupported. */
  lemma UnsupportedBranch(cfg: CuzzConfig, decs: seq<TypeDeclaration>, t: CandidType, fuel: nat)
    requires t.Node? && forall k :: !Has(t, k)
    ensures Build(cfg, decs, t, fuel) == Err(UnsupportedType(t))
  {
    assert !Has(t, PrimKey) && !Has(t, FuncKey) && !Has(t, OptKey) && !Has(t, RecordKey);
    assert !Has(t, ServKey) && !Has(t, VarKey) && !Has(t, VariantKey) && !Has(t, VecKey);
  }

  /** `type List = opt List`: a recursive type exhausts any depth bound. */
  lemma {:induction false} RecursiveTypeExhaustsBound(cfg: CuzzConfig, name: string, decs: seq<TypeDeclaration>, v: CandidType, fuel: nat)
    requires v == Node([VarT(name)]) && decs == [TypD(name, Node([OptT(v)]))]
    ensures Build(cfg, decs, v, fuel) == Err(RecursionLimit(name))
  {
    if fuel == 0 {
      ReferenceExpands(cfg, name, decs, v, fuel);
    } else {
      RecursiveTypeExhaustsBound(cfg, name, decs, v, fuel - 1);
      RecursiveTypeStep(cfg, name, decs, v, fuel);
    }
  }

  /** The step of `RecursiveTypeExhaustsBound`: one level deeper fails as the level below does. */
  lemma RecursiveTypeStep(cfg: CuzzConfig, name: string, decs: seq<TypeDeclaration>, v: CandidType, fuel: nat)
    requires v == Node([VarT(name)]) && decs == [TypD(name, Node([OptT(v)]))]
    requires fuel > 0 && Build(cfg, decs, v, fuel - 1) == Err(RecursionLimit(name))
    ensures Build(cfg, decs, v, fuel) == Err(RecursionLimit(name))
  {
    ReferenceExpands(cfg, name, decs, v, fuel);
    OptOfFailure(cfg, decs, decs[0].typ, v, fuel - 1);
  }

  /** An `opt` whose inner type fails to build fails with the same error. */
  lemma OptOfFailure(cfg: CuzzConfig, decs: seq<TypeDeclaration>, o: CandidType, v: CandidType, fuel: nat)
    requires o == Node([OptT(v)]) && Build(cfg, decs, v, fuel).Err?
    ensures Build(cfg, decs, o, fuel) == Err(Build(cfg, decs, v, fuel).error)
  {
    SingleEntrySelects(o, OptKey);
    OptBranch(cfg, decs, o, fuel);
  }

  /** A service with no method gives an empty table, not an error. */
  lemma EmptyServiceGivesEmptyTable(cfg: CuzzConfig, ast: CandidAst, canisterName: string, fuel: nat)
    requires ActorMethods(ast.actor) == Some([])
    ensures GetArgumentArbitraries(cfg, ast, canisterName, fuel) == Ok([])
  {
  }

  function MethodIds(methods: seq<CandidMethod>): set<string> {
    set j | 0 <= j < |methods| :: methods[j].id
  }

  /**
   * The method table has one entry per distinct method id; an id holds the
   * argument tuple of the last method with that id, whose k-th component is
   * the generator of the k-th declared argument.
   */
  lemma MethodTableEntries(cfg: CuzzConfig, decs: seq<TypeDeclaration>, methods: seq<CandidMethod>, fuel: nat, i: nat, table: seq<(string, Arbitrary)>)
    requires MethodTable(cfg, decs, methods, fuel) == Ok(table)
    requires i < |methods| && forall j :: i < j < |methods| ==> methods[j].id != methods[i].id
    ensures && Objects.DistinctKeys(table)
            && Objects.KeySet(table) == MethodIds(methods)
            && methods[i].id in Objects.KeySet(table)
            && var args := methods[i].typ.args;
               var tuple := Objects.Get(table, methods[i].id);
               && tuple.Tuple? && |tuple.items| == |args|
               && forall k :: 0 <= k < |args| ==> Build(cfg, decs, args[k], fuel) == Ok(tuple.items[k])
  {
    var rs := ArgumentsAll(cfg, decs, methods, fuel);
    assert rs[i].Ok?;
    var es := MethodEntries(cfg, decs, methods, fuel);
    MethodEntriesKeys(cfg, decs, methods, fuel);
    assert Objects.LastWithKey(es, i);
    Objects.FromEntriesLastWins(es, i);
    assert es[i] == (methods[i].id, ArgumentsArbitrary(cfg, decs, methods[i].typ, fuel).value);
  }

  lemma MethodEntriesKeys(cfg: CuzzConfig, decs: seq<TypeDeclaration>, methods: seq<CandidMethod>, fuel: nat)
    requires forall i :: 0 <= i < |methods| ==> ArgumentsArbitrary(cfg, decs, methods[i].typ, fuel).Ok?
    ensures Objects.KeySet(MethodEntries(cfg, decs, methods, fuel)) == MethodIds(methods)
  {
    var es := MethodEntries(cfg, decs, methods, fuel);
    forall x | x in Objects.KeySet(es) ensures x in MethodIds(methods) {
      var j :| 0 <= j < |es| && es[j].0 == x;
    }
    forall x | x in MethodIds(methods) ensures x in Objects.KeySet(es) {
      var j :| 0 <= j < |methods| && methods[j].id == x;
      assert es[j].0 == x;
    }
  }

  /** The method ids in declared order. */
  function MethodIdList(methods: seq<CandidMethod>): (ids: seq<string>)
    ensures |ids| == |methods| && forall i :: 0 <= i < |methods| ==> ids[i] == methods[i].id
  {
    seq(|methods|, i requires 0 <= i < |methods| => methods[i].id)
  }

  /**
   * When no method id repeats, the table creates the ids in declared order.
   * The loop of the fuzz driver takes them in `Object.entries` order: the
   * ids that are array indices first, ascending, then the others in
   * declared order.
   */
  lemma MethodTableOrder(cfg: CuzzConfig, decs: seq<TypeDeclaration>, methods: seq<CandidMethod>, fuel: nat)
    requires MethodTable(cfg, decs, methods, fuel).Ok?
    requires forall i, j :: 0 <= i < j < |methods| ==> methods[i].id != methods[j].id
    ensures var table := MethodTable(cfg, decs, methods, fuel).value;
      && Firsts(table) == MethodIdList(methods)
      && var order := Objects.OwnEntries(table);
         && multiset(order) == multiset(table)
         && Objects.IndexKeysFirst(order)
         && Objects.OtherEntries(order) == Objects.OtherEntries(table)
  {
    var es := MethodEntries(cfg, decs, methods, fuel);
    assert Objects.DistinctKeys(es);
    Objects.FromDistinctEntries(es);
  }

  /** Without either actor form there is no method list, and building fails. */
  lemma NoMethodsWithoutService(cfg: CuzzConfig, ast: CandidAst, canisterName: string, fuel: nat)
    requires ast.actor.servT.None? && ast.actor.classT.None?
    ensures GetArgumentArbitraries(cfg, ast, canisterName, fuel) == Err(NoMethodsFound(canisterName))
    ensures Message(GetArgumentArbitraries(cfg, ast, canisterName, fuel).error) == "No methods found for canister " + canisterName
  {
  }
}
