/**
 * The type-directed builder (src/arbitraries/index.ts and
 * src/arbitraries/candid/variable.ts): one arbitrary per Candid type, and
 * per service method a tuple of its argument arbitraries.
 *
 * The dispatcher recurses through `VarT` references with no cycle check, so
 * a recursive type makes it recurse forever. The model gives it a depth
 * bound, `fuel`: each `VarT` expansion uses one unit, and expanding with
 * none left fails with `RecursionLimit`.
 */
module Arbitraries {
  import opened Wrappers
  import opened Candid
  import opened CuzzOptions
  import opened Generators
  import opened Scalars
  import opened Composites
  import Objects

  /** The order in which the dispatcher tests the keys of a type object. */
  function Rank(k: Key): nat {
    match k
    case PrimKey => 0
    case FuncKey => 1
    case OptKey => 2
    case RecordKey => 3
    case ServKey => 4
    case VarKey => 5
    case VariantKey => 6
    case VecKey => 7
  }

  /** The dispatcher handles `t` by its `key` branch: `t` carries it and no key tested earlier. */
  predicate Selects(t: CandidType, key: Key) {
    && Has(t, key)
    && (Rank(key) > 0 ==> !Has(t, PrimKey))
    && (Rank(key) > 1 ==> !Has(t, FuncKey))
    && (Rank(key) > 2 ==> !Has(t, OptKey))
    && (Rank(key) > 3 ==> !Has(t, RecordKey))
    && (Rank(key) > 4 ==> !Has(t, ServKey))
    && (Rank(key) > 5 ==> !Has(t, VarKey))
    && (Rank(key) > 6 ==> !Has(t, VariantKey))
  }

  /** `Selects` spelled out: `t` carries `key` and no key of a lower rank. */
  lemma SelectsFirstRanked(t: CandidType, key: Key)
    ensures Selects(t, key) <==> Has(t, key) && forall k: Key :: Rank(k) < Rank(key) ==> !Has(t, k)
  {
    if Has(t, key) && forall k: Key :: Rank(k) < Rank(key) ==> !Has(t, k) {
      assert Rank(PrimKey) == 0 && Rank(FuncKey) == 1 && Rank(OptKey) == 2 && Rank(RecordKey) == 3;
      assert Rank(ServKey) == 4 && Rank(VarKey) == 5 && Rank(VariantKey) == 6;
    }
  }

  /** The entry `type[key]` of a type object that carries `key`. */
  function Payload(t: CandidType, key: Key): (e: Entry)
    requires Has(t, key)
    ensures KeyOf(e) == key
    ensures key == PrimKey ==> e.PrimT?
    ensures key == OptKey ==> e.OptT?
    ensures key == RecordKey ==> e.RecordT?
    ensures key == VarKey ==> e.VarT?
    ensures key == VariantKey ==> e.VariantT?
    ensures key == VecKey ==> e.VecT?
  {
    t.entries[Find(t.entries, key).value]
  }

  /** Declaration `j` is the first with id `name`. */
  predicate FirstDeclaration(decs: seq<TypeDeclaration>, name: string, j: int) {
    0 <= j < |decs| && decs[j].id == name && forall i :: 0 <= i < j ==> decs[i].id != name
  }

  /** `decs.find((dec) => dec.TypD.id === name)`, failing when there is none. */
  function Resolve(decs: seq<TypeDeclaration>, name: string): (r: Result<CandidType, BuildError>)
    ensures r.Ok? <==> exists j :: 0 <= j < |decs| && decs[j].id == name
    ensures r.Ok? ==> exists j :: FirstDeclaration(decs, name, j) && r.value == decs[j].typ
    ensures r.Err? ==> r.error == TypeDefinitionNotFound(name)
  {
    match Lookup(decs, name)
    case None => Err(TypeDefinitionNotFound(name))
    case Some(j) => Ok(decs[j].typ)
  }

  /**
   * The `PrimT` branches, in their order in the dispatcher. Only the
   * naturals can fail: `nat32`, `nat16` and `nat8` on a negative minimum,
   * and every natural whose two bounds cross.
   */
  function PrimArbitrary(cfg: CuzzConfig, k: PrimKind): Result<Arbitrary, BuildError>
  {
    match k
    case Bool => Ok(Boolean)
    case Empty => Ok(Constant(VUndefined))
    case Float32 => Ok(Float(false))
    case Float64 => Ok(Float(true))
    case Int => Ok(IntArbitrary())
    case Int16 => Ok(Int16Arbitrary())
    case Int32 => Ok(Int32Arbitrary())
    case Int64 => Ok(Int64Arbitrary())
    case Int8 => Ok(Int8Arbitrary())
    case Nat => NatArbitrary(cfg)
    case Nat16 => Nat16Arbitrary(cfg)
    case Nat32 => Nat32Arbitrary(cfg)
    case Nat64 => Nat64Arbitrary(cfg)
    case Nat8 => Nat8Arbitrary(cfg)
    case Null => Ok(Constant(VNull))
    case Reserved => Ok(Constant(VUndefined))
    case Text => Ok(TextArbitrary(cfg))
  }

  /** A primitive fails exactly on a crossing or negative natural range; the constants are fixed. */
  lemma PrimArbitraryOutcome(cfg: CuzzConfig, k: PrimKind)
    ensures var s := ResolveSizes(cfg);
      PrimArbitrary(cfg, k).Err? <==>
      || (k == Nat && s.natural.min.Some? && s.natural.max.Some? && s.natural.min.value > s.natural.max.value)
      || (k == Nat64 && s.nat64.min > s.nat64.max)
      || (k == Nat32 && (s.nat32.min < 0 || s.nat32.min > s.nat32.max))
      || (k == Nat16 && (s.nat16.min < 0 || s.nat16.min > s.nat16.max))
      || (k == Nat8 && (s.nat8.min < 0 || s.nat8.min > s.nat8.max))
    ensures k == Null ==> PrimArbitrary(cfg, k) == Ok(Constant(VNull))
    ensures k == Empty || k == Reserved ==> PrimArbitrary(cfg, k) == Ok(Constant(VUndefined))
  {
  }

  /**
   * `getArgumentArbitrary(cuzzConfig, decs, type)`, with a depth bound: the
   * first key present, in the order of `Rank`, picks the branch.
   */
  function Build(cfg: CuzzConfig, decs: seq<TypeDeclaration>, t: CandidType, fuel: nat): Result<Arbitrary, BuildError>
    decreases fuel, t, 1
  {
    match t
    case PrincipalT => Ok(Principal)
    case Node(es) =>
      if Find(es, PrimKey).Some? then PrimArbitrary(cfg, Payload(t, PrimKey).kind)
      else if Find(es, FuncKey).Some? then Ok(FuncArbitrary(cfg))
      else if Find(es, OptKey).Some? then BuildOpt(cfg, decs, t, fuel)
      else if Find(es, RecordKey).Some? then BuildRecord(cfg, decs, t, fuel)
      else if Find(es, ServKey).Some? then Ok(Principal)
      else if Find(es, VarKey).Some? then BuildVariable(cfg, decs, t, fuel)
      else if Find(es, VariantKey).Some? then BuildVariant(cfg, decs, t, fuel)
      else if Find(es, VecKey).Some? then BuildVec(cfg, decs, t, fuel)
      else Err(UnsupportedType(t))
  }

  /** The `OptT` branch. */
  function BuildOpt(cfg: CuzzConfig, decs: seq<TypeDeclaration>, t: CandidType, fuel: nat): Result<Arbitrary, BuildError>
    requires Has(t, OptKey)
    decreases fuel, t, 0
  {
    var inner :- Build(cfg, decs, Payload(t, OptKey).inner, fuel);
    Ok(OptArbitrary(inner))
  }

  /** The `RecordT` branch: every field is built, then the record. */
  function BuildRecord(cfg: CuzzConfig, decs: seq<TypeDeclaration>, t: CandidType, fuel: nat): Result<Arbitrary, BuildError>
    requires Has(t, RecordKey)
    decreases fuel, t, 0
  {
    var fields := Payload(t, RecordKey).fields;
    RecordArbitrary(fields, seq(|fields|, i requires 0 <= i < |fields| => Build(cfg, decs, fields[i].typ, fuel)))
  }

  /** The `VarT` branch: the declaration is built in place of the name, one level deeper. */
  function BuildVariable(cfg: CuzzConfig, decs: seq<TypeDeclaration>, t: CandidType, fuel: nat): Result<Arbitrary, BuildError>
    requires Has(t, VarKey)
    decreases fuel, t, 0
  {
    var name := Payload(t, VarKey).name;
    var typ :- Resolve(decs, name);
    if fuel == 0 then Err(RecursionLimit(name)) else Build(cfg, decs, typ, fuel - 1)
  }

  /**
   * The `VariantT` branch: a `null` alternative takes the shortcut, any
   * other is built; then `fc.oneof` over the tagged payloads.
   */
  function BuildVariant(cfg: CuzzConfig, decs: seq<TypeDeclaration>, t: CandidType, fuel: nat): Result<Arbitrary, BuildError>
    requires Has(t, VariantKey)
    decreases fuel, t, 0
  {
    var alternatives := Payload(t, VariantKey).alternatives;
    var payloads :- Collect(seq(|alternatives|, i requires 0 <= i < |alternatives| =>
      if IsNullPrim(alternatives[i].typ) then Ok(Constant(VNull))
      else Build(cfg, decs, alternatives[i].typ, fuel)));
    VariantArbitrary(alternatives, payloads)
  }

  /** The `VecT` branch: a literal `nat8` element gives a blob, any other an array. */
  function BuildVec(cfg: CuzzConfig, decs: seq<TypeDeclaration>, t: CandidType, fuel: nat): Result<Arbitrary, BuildError>
    requires Has(t, VecKey)
    decreases fuel, t, 0
  {
    var element := Payload(t, VecKey).element;
    if IsBlobElement(element) then Ok(BlobArbitrary(cfg))
    else
      var elementArbitrary :- Build(cfg, decs, element, fuel);
      Ok(ArrayArbitrary(cfg, elementArbitrary))
  }

  /** `types.map((type) => getArgumentArbitrary(cuzzConfig, decs, type))`, before any throw. */
  function BuildAll(cfg: CuzzConfig, decs: seq<TypeDeclaration>, types: seq<CandidType>, fuel: nat): (rs: seq<Result<Arbitrary, BuildError>>)
    ensures |rs| == |types|
    ensures forall i :: 0 <= i < |types| ==> rs[i] == Build(cfg, decs, types[i], fuel)
  {
    seq(|types|, i requires 0 <= i < |types| => Build(cfg, decs, types[i], fuel))
  }

  /** The result of building each field's type, in declared order. */
  function FieldResults(cfg: CuzzConfig, decs: seq<TypeDeclaration>, fields: seq<Field>, fuel: nat): (rs: seq<Result<Arbitrary, BuildError>>)
    ensures |rs| == |fields|
    ensures forall i :: 0 <= i < |fields| ==> rs[i] == Build(cfg, decs, fields[i].typ, fuel)
  {
    seq(|fields|, i requires 0 <= i < |fields| => Build(cfg, decs, fields[i].typ, fuel))
  }

  /** `fc.tuple(...args.map(...))`: one component per argument, in declared order. */
  function ArgumentsArbitrary(cfg: CuzzConfig, decs: seq<TypeDeclaration>, f: FuncType, fuel: nat): (r: Result<Arbitrary, BuildError>)
    ensures var rs := BuildAll(cfg, decs, f.args, fuel);
      && (r.Ok? <==> forall i :: 0 <= i < |rs| ==> rs[i].Ok?)
      && (r.Ok? ==> r.value.Tuple? && |r.value.items| == |rs| && forall i :: 0 <= i < |rs| ==> rs[i] == Ok(r.value.items[i]))
      && (r.Err? ==> exists i :: 0 <= i < |rs| && rs[i] == Err(r.error) && forall j :: 0 <= j < i ==> rs[j].Ok?)
  {
    var rs := BuildAll(cfg, decs, f.args, fuel);
    match Collect(rs)
    case Err(e) => CollectFailure(rs, e); Err(e)
    case Ok(args) => Ok(Tuple(args))
  }

  /** The entry each method contributes to the table: its id and its argument tuple. */
  function MethodEntries(cfg: CuzzConfig, decs: seq<TypeDeclaration>, methods: seq<CandidMethod>, fuel: nat): (es: seq<(string, Arbitrary)>)
    requires forall i :: 0 <= i < |methods| ==> ArgumentsArbitrary(cfg, decs, methods[i].typ, fuel).Ok?
    ensures |es| == |methods|
    ensures forall i :: 0 <= i < |methods| ==>
      es[i] == (methods[i].id, ArgumentsArbitrary(cfg, decs, methods[i].typ, fuel).value)
  {
    seq(|methods|, i requires 0 <= i < |methods| => (methods[i].id, ArgumentsArbitrary(cfg, decs, methods[i].typ, fuel).value))
  }

  /** Building each method's argument tuple, before any throw. */
  function ArgumentsAll(cfg: CuzzConfig, decs: seq<TypeDeclaration>, methods: seq<CandidMethod>, fuel: nat): (rs: seq<Result<Arbitrary, BuildError>>)
    ensures |rs| == |methods|
    ensures forall i :: 0 <= i < |methods| ==> rs[i] == ArgumentsArbitrary(cfg, decs, methods[i].typ, fuel)
  {
    seq(|methods|, i requires 0 <= i < |methods| => ArgumentsArbitrary(cfg, decs, methods[i].typ, fuel))
  }

  /**
   * `getArgumentArbitrariesFromCandidMethods`: the methods folded left to
   * right into an object keyed by method id (`{ ...acc, [id]: tuple }`),
   * stopping at the first method whose arguments fail to build.
   */
  function MethodTable(cfg: CuzzConfig, decs: seq<TypeDeclaration>, methods: seq<CandidMethod>, fuel: nat): (r: Result<seq<(string, Arbitrary)>, BuildError>)
    ensures var rs := ArgumentsAll(cfg, decs, methods, fuel);
      && (r.Ok? <==> forall i :: 0 <= i < |rs| ==> rs[i].Ok?)
      && (r.Err? ==> exists i :: 0 <= i < |rs| && rs[i] == Err(r.error) && forall j :: 0 <= j < i ==> rs[j].Ok?)
    ensures r.Ok? ==> r.value == Objects.FromEntries(MethodEntries(cfg, decs, methods, fuel))
  {
    var rs := ArgumentsAll(cfg, decs, methods, fuel);
    match Collect(rs)
    case Err(e) => CollectFailure(rs, e); Err(e)
    case Ok(_) => Ok(Objects.FromEntries(MethodEntries(cfg, decs, methods, fuel)))
  }

  /** `getArgumentArbitraries`: the method table of the actor's service. */
  function GetArgumentArbitraries(cfg: CuzzConfig, ast: CandidAst, canisterName: string, fuel: nat): (r: Result<seq<(string, Arbitrary)>, BuildError>)
    ensures ActorMethods(ast.actor).None? ==> r == Err(NoMethodsFound(canisterName))
    ensures ActorMethods(ast.actor).Some? ==> r == MethodTable(cfg, ast.decs, ActorMethods(ast.actor).value, fuel)
  {
    match ActorMethods(ast.actor)
    case None => Err(NoMethodsFound(canisterName))
    case Some(methods) => MethodTable(cfg, ast.decs, methods, fuel)
  }
}
