/**
 * The depth bound of the builder model is harmless: a result other than
 * `RecursionLimit` stays the same with more fuel, and a type that names no
 * declaration never reaches the bound. So every fact proved about `Build`
 * for some fuel holds for the unbounded dispatcher of the source whenever
 * the result is not `RecursionLimit`.
 */
module BuildFuel {
  import opened Wrappers
  import opened Candid
  import opened CuzzOptions
  import opened Generators
  import opened Sorting
  import opened Scalars
  import opened Composites
  import opened Arbitraries
  import opened ArbitraryProperties

  /** A build that did not run out of depth. */
  predicate Settled(r: Built) {
    r.Ok? || !r.error.RecursionLimit?
  }

  /** `r'` is `r` unless `r` ran out of depth. */
  predicate Agrees(r: Built, r': Built) {
    Settled(r) ==> r' == r
  }

  /**
   * More fuel changes no settled result: the same generator, or the same
   * error, whatever the larger bound.
   */
  lemma {:induction false} BuildMonotone(cfg: CuzzConfig, decs: seq<TypeDeclaration>, t: CandidType, f: nat, g: nat)
    requires f <= g
    ensures Agrees(Build(cfg, decs, t, f), Build(cfg, decs, t, g))
    decreases f, t, 2
  {
    match DispatchKey(t)
    case Some(OptKey) =>
      UnfoldOpt(cfg, decs, t, f);
      UnfoldOpt(cfg, decs, t, g);
      BuildMonotone(cfg, decs, Payload(t, OptKey).inner, f, g);
    case Some(RecordKey) =>
      UnfoldRecord(cfg, decs, t, f);
      UnfoldRecord(cfg, decs, t, g);
      RecordMonotone(cfg, decs, t, f, g);
    case Some(VarKey) =>
      UnfoldVariable(cfg, decs, t, f);
      UnfoldVariable(cfg, decs, t, g);
      VariableMonotone(cfg, decs, t, f, g);
    case Some(VariantKey) =>
      UnfoldVariant(cfg, decs, t, f);
      UnfoldVariant(cfg, decs, t, g);
      VariantMonotone(cfg, decs, t, f, g);
    case Some(VecKey) =>
      UnfoldVec(cfg, decs, t, f);
      UnfoldVec(cfg, decs, t, g);
      if !IsBlobElement(Payload(t, VecKey).element) {
        BuildMonotone(cfg, decs, Payload(t, VecKey).element, f, g);
      }
    case _ =>
      LeafBuild(cfg, decs, t, f);
      LeafBuild(cfg, decs, t, g);
  }

  /** The dispatcher takes a branch that builds no nested type: `PrimT`, `FuncT`, `ServT`, a principal or an unsupported node. */
  predicate IsLeaf(t: CandidType) {
    DispatchKey(t).None? || DispatchKey(t).value in {PrimKey, FuncKey, ServKey}
  }

  /** A leaf is built alike under every bound and never runs out of depth. */
  lemma LeafBuild(cfg: CuzzConfig, decs: seq<TypeDeclaration>, t: CandidType, fuel: nat)
    requires IsLeaf(t)
    ensures Build(cfg, decs, t, fuel) == Build(cfg, decs, t, 0)
    ensures Settled(Build(cfg, decs, t, fuel))
  {
    if DispatchKey(t) == Some(PrimKey) {
      PrimLeaf(cfg, decs, t, fuel);
    } else if t.Node? {
      assert Find(t.entries, PrimKey).None?;
      if DispatchKey(t) != Some(FuncKey) {
        assert Find(t.entries, FuncKey).None? && Find(t.entries, OptKey).None? && Find(t.entries, RecordKey).None?;
        if DispatchKey(t) == None {
          assert Find(t.entries, ServKey).None? && Find(t.entries, VarKey).None?;
          assert Find(t.entries, VariantKey).None? && Find(t.entries, VecKey).None?;
        }
      }
    }
  }

  /** A `PrimT` leaf: its generator or its error depends on the configuration alone. */
  lemma PrimLeaf(cfg: CuzzConfig, decs: seq<TypeDeclaration>, t: CandidType, fuel: nat)
    requires DispatchKey(t) == Some(PrimKey)
    ensures Build(cfg, decs, t, fuel) == PrimArbitrary(cfg, Payload(t, PrimKey).kind)
    ensures Settled(Build(cfg, decs, t, fuel))
  {
    DispatchSelects(t);
    SelectedBranch(t, PrimKey);
    PrimSettled(cfg, Payload(t, PrimKey).kind);
  }

  /** A primitive fails only on its configured range, never on depth. */
  lemma PrimSettled(cfg: CuzzConfig, k: PrimKind)
    ensures Settled(PrimArbitrary(cfg, k))
  {
  }

  /** The dispatcher picks a key the type has, and the type has none tested before it. */
  lemma DispatchSelects(t: CandidType)
    requires DispatchKey(t).Some?
    ensures t.Node? && Selects(t, DispatchKey(t).value)
  {
  }

  // `Build` unfolded once, by the branch the dispatcher takes.

  lemma UnfoldOpt(cfg: CuzzConfig, decs: seq<TypeDeclaration>, t: CandidType, fuel: nat)
    requires DispatchKey(t) == Some(OptKey)
    ensures t.Node? && Has(t, OptKey)
    ensures Build(cfg, decs, t, fuel) == BuildOpt(cfg, decs, t, fuel)
  {
    DispatchSelects(t);
    SelectedBranch(t, OptKey);
  }

  lemma UnfoldRecord(cfg: CuzzConfig, decs: seq<TypeDeclaration>, t: CandidType, fuel: nat)
    requires DispatchKey(t) == Some(RecordKey)
    ensures t.Node? && Has(t, RecordKey)
    ensures Build(cfg, decs, t, fuel) == BuildRecord(cfg, decs, t, fuel)
  {
    DispatchSelects(t);
    SelectedBranch(t, RecordKey);
  }

  lemma UnfoldVariable(cfg: CuzzConfig, decs: seq<TypeDeclaration>, t: CandidType, fuel: nat)
    requires DispatchKey(t) == Some(VarKey)
    ensures t.Node? && Has(t, VarKey)
    ensures Build(cfg, decs, t, fuel) == BuildVariable(cfg, decs, t, fuel)
  {
    DispatchSelects(t);
    SelectedBranch(t, VarKey);
  }

  lemma UnfoldVariant(cfg: CuzzConfig, decs: seq<TypeDeclaration>, t: CandidType, fuel: nat)
    requires DispatchKey(t) == Some(VariantKey)
    ensures t.Node? && Has(t, VariantKey)
    ensures Build(cfg, decs, t, fuel) == BuildVariant(cfg, decs, t, fuel)
  {
    DispatchSelects(t);
    SelectedBranch(t, VariantKey);
  }

  lemma UnfoldVec(cfg: CuzzConfig, decs: seq<TypeDeclaration>, t: CandidType, fuel: nat)
    requires DispatchKey(t) == Some(VecKey)
    ensures t.Node? && Has(t, VecKey)
    ensures Build(cfg, decs, t, fuel) == BuildVec(cfg, decs, t, fuel)
  {
    DispatchSelects(t);
    SelectedBranch(t, VecKey);
  }

  /** The `VarT` case of `BuildMonotone`: a settled expansion had fuel left, and so has the larger bound. */
  lemma {:induction false} VariableMonotone(cfg: CuzzConfig, decs: seq<TypeDeclaration>, t: CandidType, f: nat, g: nat)
    requires f <= g && Has(t, VarKey)
    ensures Agrees(BuildVariable(cfg, decs, t, f), BuildVariable(cfg, decs, t, g))
    decreases f, t, 1
  {
    if Resolve(decs, Payload(t, VarKey).name).Err? {
      UnresolvedVariable(cfg, decs, t, f, g);
    } else if f == 0 {
      VariableExpands(cfg, decs, t, f);
    } else {
      ResolvedMonotone(cfg, decs, t, Resolve(decs, Payload(t, VarKey).name).value, f, g);
    }
  }

  /** A name that resolves to `u`, with fuel left under both bounds: one level deeper, by `BuildMonotone`. */
  lemma {:induction false} ResolvedMonotone(cfg: CuzzConfig, decs: seq<TypeDeclaration>, t: CandidType, u: CandidType, f: nat, g: nat)
    requires 0 < f <= g && Has(t, VarKey) && Resolve(decs, Payload(t, VarKey).name) == Ok(u)
    ensures Agrees(BuildVariable(cfg, decs, t, f), BuildVariable(cfg, decs, t, g))
    decreases f, t, 0
  {
    BuildMonotone(cfg, decs, u, f - 1, g - 1);
  }

  /** A name that no declaration has fails alike under every bound. */
  lemma UnresolvedVariable(cfg: CuzzConfig, decs: seq<TypeDeclaration>, t: CandidType, f: nat, g: nat)
    requires Has(t, VarKey) && Resolve(decs, Payload(t, VarKey).name).Err?
    ensures BuildVariable(cfg, decs, t, g) == BuildVariable(cfg, decs, t, f)
  {
  }

  /**
   * A `VarT` whose name resolves is the build of its declaration one level
   * deeper, given fuel; without fuel it runs out of depth.
   */
  lemma VariableExpands(cfg: CuzzConfig, decs: seq<TypeDeclaration>, t: CandidType, fuel: nat)
    requires Has(t, VarKey) && Resolve(decs, Payload(t, VarKey).name).Ok?
    ensures fuel == 0 ==> !Settled(BuildVariable(cfg, decs, t, fuel))
    ensures fuel > 0 ==> BuildVariable(cfg, decs, t, fuel) == Build(cfg, decs, Resolve(decs, Payload(t, VarKey).name).value, fuel - 1)
  {
  }

  /** The `RecordT` case of `BuildMonotone`. */
  lemma {:induction false} RecordMonotone(cfg: CuzzConfig, decs: seq<TypeDeclaration>, t: CandidType, f: nat, g: nat)
    requires f <= g && Has(t, RecordKey)
    ensures Agrees(BuildRecord(cfg, decs, t, f), BuildRecord(cfg, decs, t, g))
    decreases f, t, 0
  {
    var fields := Payload(t, RecordKey).fields;
    var built := seq(|fields|, i requires 0 <= i < |fields| => Build(cfg, decs, fields[i].typ, f));
    var built' := seq(|fields|, i requires 0 <= i < |fields| => Build(cfg, decs, fields[i].typ, g));
    forall i | 0 <= i < |fields| ensures Agrees(built[i], built'[i]) {
      BuildMonotone(cfg, decs, fields[i].typ, f, g);
    }
    if Settled(RecordArbitrary(fields, built)) {
      RecordAgrees(fields, built, built');
    }
  }

  /** The `VariantT` case of `BuildMonotone`. */
  lemma {:induction false} VariantMonotone(cfg: CuzzConfig, decs: seq<TypeDeclaration>, t: CandidType, f: nat, g: nat)
    requires f <= g && Has(t, VariantKey)
    ensures Agrees(BuildVariant(cfg, decs, t, f), BuildVariant(cfg, decs, t, g))
    decreases f, t, 0
  {
    var alts := Payload(t, VariantKey).alternatives;
    var rs := seq(|alts|, i requires 0 <= i < |alts| =>
      if IsNullPrim(alts[i].typ) then Ok(Constant(VNull)) else Build(cfg, decs, alts[i].typ, f));
    var rs' := seq(|alts|, i requires 0 <= i < |alts| =>
      if IsNullPrim(alts[i].typ) then Ok(Constant(VNull)) else Build(cfg, decs, alts[i].typ, g));
    forall i | 0 <= i < |alts| ensures Agrees(rs[i], rs'[i]) {
      if !IsNullPrim(alts[i].typ) {
        BuildMonotone(cfg, decs, alts[i].typ, f, g);
      }
    }
    if Collect(rs).Ok? || !Collect(rs).error.RecursionLimit? {
      CollectAgrees(rs, rs');
    }
  }

  /** A left-to-right evaluation that stopped short of the bound evaluates the same on agreeing results. */
  lemma {:induction false} CollectAgrees(rs: seq<Built>, rs': seq<Built>)
    requires |rs'| == |rs| && forall i :: 0 <= i < |rs| ==> Agrees(rs[i], rs'[i])
    requires Collect(rs).Ok? || !Collect(rs).error.RecursionLimit?
    ensures Collect(rs') == Collect(rs)
  {
    if rs != [] && rs[0].Ok? {
      assert forall i :: 0 <= i < |rs| - 1 ==> rs[1..][i] == rs[i + 1] && rs'[1..][i] == rs'[i + 1];
      CollectAgrees(rs[1..], rs'[1..]);
    }
  }

  /** A record that did not run out of depth is the same over agreeing field results. */
  lemma RecordAgrees(fields: seq<Field>, built: seq<Built>, built': seq<Built>)
    requires |built| == |fields| && |built'| == |fields|
    requires forall i :: 0 <= i < |fields| ==> Agrees(built[i], built'[i])
    requires Settled(RecordArbitrary(fields, built))
    ensures RecordArbitrary(fields, built') == RecordArbitrary(fields, built)
  {
    if AllUnnamed(fields) {
      SortedResultsAgree(fields, built, built');
      CollectAgrees(SortedResults(fields, built), SortedResults(fields, built'));
    } else {
      CollectAgrees(built, built');
    }
  }

  /** Sorting by the fields' indexes moves agreeing results to the same places. */
  lemma SortedResultsAgree(fields: seq<Field>, built: seq<Built>, built': seq<Built>)
    requires |built| == |fields| && |built'| == |fields|
    requires forall i :: 0 <= i < |fields| ==> Agrees(built[i], built'[i])
    ensures forall k :: 0 <= k < |fields| ==> Agrees(SortedResults(fields, built)[k], SortedResults(fields, built')[k])
  {
    var qs := Triples(fields, built, built');
    TriplesProject(fields, built, built');
    SortByMap(TripleIndex, PairIndex, Left, qs);
    SortByMap(TripleIndex, PairIndex, Right, qs);
    SortedTriplesAgree(qs);
  }

  /** Each field with its result under both bounds. */
  function Triples(fields: seq<Field>, built: seq<Built>, built': seq<Built>): (qs: seq<(Field, (Built, Built))>)
    requires |built| == |fields| && |built'| == |fields|
    ensures |qs| == |fields| && forall i :: 0 <= i < |qs| ==> qs[i] == (fields[i], (built[i], built'[i]))
  {
    seq(|fields|, i requires 0 <= i < |fields| => (fields[i], (built[i], built'[i])))
  }

  function TripleIndex(q: (Field, (Built, Built))): int {
    FieldIndex(q.0)
  }

  function Left(q: (Field, (Built, Built))): (Field, Built) {
    (q.0, q.1.0)
  }

  function Right(q: (Field, (Built, Built))): (Field, Built) {
    (q.0, q.1.1)
  }

  /** The triples project onto the two zipped sequences the record sorts. */
  lemma TriplesProject(fields: seq<Field>, built: seq<Built>, built': seq<Built>)
    requires |built| == |fields| && |built'| == |fields|
    ensures Map(Left, Triples(fields, built, built')) == Zip(fields, built)
    ensures Map(Right, Triples(fields, built, built')) == Zip(fields, built')
  {
  }

  /** Sorting keeps every triple, so agreeing pairs stay agreeing pairs. */
  lemma SortedTriplesAgree(qs: seq<(Field, (Built, Built))>)
    requires forall i :: 0 <= i < |qs| ==> Agrees(qs[i].1.0, qs[i].1.1)
    ensures forall k :: 0 <= k < |qs| ==> Agrees(SortBy(TripleIndex, qs)[k].1.0, SortBy(TripleIndex, qs)[k].1.1)
  {
    var sq := SortBy(TripleIndex, qs);
    forall k | 0 <= k < |qs| ensures Agrees(sq[k].1.0, sq[k].1.1) {
      assert sq[k] in multiset(qs);
      var i :| 0 <= i < |qs| && qs[i] == sq[k];
    }
  }

  /** No `VarT` anywhere the builder looks: in options, records, variants and vectors. */
  predicate RefFree(t: CandidType) {
    match t
    case PrincipalT => true
    case Node(es) => forall i :: 0 <= i < |es| ==> EntryRefFree(es[i])
  }

  predicate EntryRefFree(e: Entry) {
    match e
    case VarT(_) => false
    case OptT(inner) => RefFree(inner)
    case RecordT(fields) => forall i :: 0 <= i < |fields| ==> RefFree(fields[i].typ)
    case VariantT(alternatives) => forall i :: 0 <= i < |alternatives| ==> RefFree(alternatives[i].typ)
    case VecT(element) => RefFree(element)
    case _ => true
  }

  /** A type that names no declaration is built without reaching the depth bound, whatever the fuel. */
  lemma {:induction false} RefFreeSettled(cfg: CuzzConfig, decs: seq<TypeDeclaration>, t: CandidType, fuel: nat)
    requires RefFree(t)
    ensures Settled(Build(cfg, decs, t, fuel))
    decreases t, 1
  {
    match DispatchKey(t)
    case Some(OptKey) => OptSettled(cfg, decs, t, fuel);
    case Some(RecordKey) => RecordSettled(cfg, decs, t, fuel);
    case Some(VariantKey) => VariantSettled(cfg, decs, t, fuel);
    case Some(VecKey) => VecSettled(cfg, decs, t, fuel);
    case _ =>
      if t.Node? {
        RefFreeEntries(t, VarKey);
      }
      LeafBuild(cfg, decs, t, fuel);
  }

  /** Every entry of a type without `VarT` is free of it too, and none is a `VarT`. */
  lemma RefFreeEntries(t: CandidType, key: Key)
    requires RefFree(t) && t.Node?
    ensures Find(t.entries, VarKey).None?
    ensures Has(t, key) ==> EntryRefFree(Payload(t, key))
  {
    var es := t.entries;
    FindFirst(es, VarKey);
    forall j | 0 <= j < |es| ensures KeyOf(es[j]) != VarKey {
      assert EntryRefFree(es[j]);
    }
  }

  /** The `OptT` case of `RefFreeSettled`. */
  lemma {:induction false} OptSettled(cfg: CuzzConfig, decs: seq<TypeDeclaration>, t: CandidType, fuel: nat)
    requires RefFree(t) && DispatchKey(t) == Some(OptKey)
    ensures Settled(Build(cfg, decs, t, fuel))
    decreases t, 0
  {
    UnfoldOpt(cfg, decs, t, fuel);
    RefFreeEntries(t, OptKey);
    RefFreeSettled(cfg, decs, Payload(t, OptKey).inner, fuel);
  }

  /** The `RecordT` case of `RefFreeSettled`. */
  lemma {:induction false} RecordSettled(cfg: CuzzConfig, decs: seq<TypeDeclaration>, t: CandidType, fuel: nat)
    requires RefFree(t) && DispatchKey(t) == Some(RecordKey)
    ensures Settled(Build(cfg, decs, t, fuel))
    decreases t, 0
  {
    UnfoldRecord(cfg, decs, t, fuel);
    RefFreeEntries(t, RecordKey);
    var fields := Payload(t, RecordKey).fields;
    var built := FieldResults(cfg, decs, fields, fuel);
    assert BuildRecord(cfg, decs, t, fuel) == RecordArbitrary(fields, built);
    forall i | 0 <= i < |fields| ensures Settled(built[i]) {
      RefFreeSettled(cfg, decs, fields[i].typ, fuel);
    }
    RecordOfSettled(fields, built);
  }

  /** A record over field results none of which ran out of depth did not run out of depth either. */
  lemma RecordOfSettled(fields: seq<Field>, built: seq<Built>)
    requires |built| == |fields| && forall i :: 0 <= i < |built| ==> Settled(built[i])
    ensures Settled(RecordArbitrary(fields, built))
  {
    var r := RecordArbitrary(fields, built);
    if r.Err? {
      var i :| 0 <= i < |built| && built[i] == Err(r.error);
    }
  }

  /** The `VariantT` case of `RefFreeSettled`. */
  lemma {:induction false} VariantSettled(cfg: CuzzConfig, decs: seq<TypeDeclaration>, t: CandidType, fuel: nat)
    requires RefFree(t) && DispatchKey(t) == Some(VariantKey)
    ensures Settled(Build(cfg, decs, t, fuel))
    decreases t, 0
  {
    UnfoldVariant(cfg, decs, t, fuel);
    RefFreeEntries(t, VariantKey);
    var alts := Payload(t, VariantKey).alternatives;
    var rs := PayloadResults(cfg, decs, alts, fuel);
    assert rs == seq(|alts|, i requires 0 <= i < |alts| =>
      if IsNullPrim(alts[i].typ) then Ok(Constant(VNull)) else Build(cfg, decs, alts[i].typ, fuel));
    forall i | 0 <= i < |alts| ensures Settled(rs[i]) {
      RefFreeSettled(cfg, decs, alts[i].typ, fuel);
    }
    CollectOfSettled(rs);
  }

  /** Collecting results none of which ran out of depth does not run out of depth. */
  lemma CollectOfSettled(rs: seq<Built>)
    requires forall i :: 0 <= i < |rs| ==> Settled(rs[i])
    ensures Collect(rs).Ok? || !Collect(rs).error.RecursionLimit?
  {
  }

  /** The `VecT` case of `RefFreeSettled`. */
  lemma {:induction false} VecSettled(cfg: CuzzConfig, decs: seq<TypeDeclaration>, t: CandidType, fuel: nat)
    requires RefFree(t) && DispatchKey(t) == Some(VecKey)
    ensures Settled(Build(cfg, decs, t, fuel))
    decreases t, 0
  {
    UnfoldVec(cfg, decs, t, fuel);
    RefFreeEntries(t, VecKey);
    RefFreeSettled(cfg, decs, Payload(t, VecKey).element, fuel);
  }

  /** For a type that names no declaration the fuel is irrelevant. */
  lemma FuelIrrelevant(cfg: CuzzConfig, decs: seq<TypeDeclaration>, t: CandidType, f: nat, g: nat)
    requires RefFree(t)
    ensures Build(cfg, decs, t, g) == Build(cfg, decs, t, f)
  {
    RefFreeSettled(cfg, decs, t, f);
    RefFreeSettled(cfg, decs, t, g);
    if f <= g {
      BuildMonotone(cfg, decs, t, f, g);
    } else {
      BuildMonotone(cfg, decs, t, g, f);
    }
  }
}
