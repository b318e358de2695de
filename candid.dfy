/**
 * The Candid abstract syntax tree that the fuzzer receives from the Candid
 * parser, as plain data (src/types.ts).
 *
 * A Candid type is either the literal `'PrincipalT'` or a JSON object whose
 * optional keys name the composite forms. Such an object is modelled by the
 * list of the keys that are present, each with its payload, in the order the
 * object holds them; reading `type.OptT` takes the first entry with that key.
 */
module Candid {
  import opened Wrappers

  /** The 17 primitive kinds a `PrimT` entry can name. */
  datatype PrimKind =
    | Bool | Empty | Float32 | Float64
    | Int | Int8 | Int16 | Int32 | Int64
    | Nat | Nat8 | Nat16 | Nat32 | Nat64
    | Null | Reserved | Text

  datatype CandidType =
    | PrincipalT
    | Node(entries: seq<Entry>)

  /** One present key of a non-principal type object, with its payload. */
  datatype Entry =
    | FuncT(func: FuncType)
    | OptT(inner: CandidType)
    | PrimT(kind: PrimKind)
    | RecordT(fields: seq<Field>)
    | ServT(methods: seq<CandidMethod>)
    | VarT(name: string)
    | VariantT(alternatives: seq<Alternative>)
    | VecT(element: CandidType)

  /** The keys a type object may carry. */
  datatype Key = FuncKey | OptKey | PrimKey | RecordKey | ServKey | VarKey | VariantKey | VecKey

  /** A record field label: `{ Named: string }` or `{ Unnamed: number }`. */
  datatype Label = Named(name: string) | Unnamed(index: nat)

  datatype Field = Field(id: Label, typ: CandidType)

  /** A variant alternative; its label is always of the `Named` form. */
  datatype Alternative = Alternative(name: string, typ: CandidType)

  datatype FuncType = FuncType(args: seq<CandidType>, modes: seq<string>, rets: seq<CandidType>)

  /** A service method: an id and a function type (`typ.FuncT`). */
  datatype CandidMethod = CandidMethod(id: string, typ: FuncType)

  /** A `TypD` declaration: a type name and its definition. */
  datatype TypeDeclaration = TypD(id: string, typ: CandidType)

  /** The `ClassT` form of an actor: initialisation arguments and a service. */
  datatype ClassType = ClassT(initArgs: seq<CandidType>, servT: seq<CandidMethod>)

  /** The actor: a plain service, a service class, or (malformed) neither. */
  datatype Actor = Actor(classT: Option<ClassType>, servT: Option<seq<CandidMethod>>)

  datatype CandidAst = CandidAst(actor: Actor, decs: seq<TypeDeclaration>)

  function KeyOf(e: Entry): Key {
    match e
    case FuncT(_) => FuncKey
    case OptT(_) => OptKey
    case PrimT(_) => PrimKey
    case RecordT(_) => RecordKey
    case ServT(_) => ServKey
    case VarT(_) => VarKey
    case VariantT(_) => VariantKey
    case VecT(_) => VecKey
  }

  /** The position of the entry read by `type[key]`, if the key is present. */
  function Find(entries: seq<Entry>, key: Key): (r: Option<nat>)
    ensures r.Some? ==> r.value < |entries| && KeyOf(entries[r.value]) == key
  {
    if entries == [] then None
    else if KeyOf(entries[0]) == key then Some(0)
    else match Find(entries[1..], key)
      case None => None
      case Some(i) => Some(i + 1)
  }

  /** `Find` gives the first entry with the key, and nothing only when no entry has it. */
  lemma {:induction false} FindFirst(entries: seq<Entry>, key: Key)
    ensures Find(entries, key).Some? ==> forall j :: 0 <= j < Find(entries, key).value ==> KeyOf(entries[j]) != key
    ensures Find(entries, key).None? <==> forall j :: 0 <= j < |entries| ==> KeyOf(entries[j]) != key
  {
    if entries != [] && KeyOf(entries[0]) != key {
      FindFirst(entries[1..], key);
      if Find(entries[1..], key).None? {
        forall j | 0 <= j < |entries| ensures KeyOf(entries[j]) != key {
          if j > 0 { assert entries[j] == entries[1..][j - 1]; }
        }
      } else {
        forall j | 0 <= j < Find(entries, key).value ensures KeyOf(entries[j]) != key {
          if j > 0 { assert entries[j] == entries[1..][j - 1]; }
        }
      }
    }
  }

  /** True when `t` is an object carrying `key`. */
  predicate Has(t: CandidType, key: Key) {
    t.Node? && Find(t.entries, key).Some?
  }

  /** A JSON object holds each key at most once. */
  predicate DistinctKeys(entries: seq<Entry>) {
    forall i, j :: 0 <= i < j < |entries| ==> KeyOf(entries[i]) != KeyOf(entries[j])
  }

  /** The primitive kind a `PrimT` entry names, if the type carries one. */
  function PrimOf(t: CandidType): (r: Option<PrimKind>)
    ensures r.Some? <==> Has(t, PrimKey)
  {
    if t.PrincipalT? then None
    else match Find(t.entries, PrimKey)
      case None => None
      case Some(i) => Some(t.entries[i].kind)
  }

  /** The variant shortcut: an object with `PrimT: 'Null'`. */
  predicate IsNullPrim(t: CandidType) {
    PrimOf(t) == Some(Null)
  }

  /** The string under which the Candid parser writes each primitive kind. */
  function PrimName(k: PrimKind): string {
    match k
    case Bool => "Bool"
    case Empty => "Empty"
    case Float32 => "Float32"
    case Float64 => "Float64"
    case Int => "Int"
    case Int8 => "Int8"
    case Int16 => "Int16"
    case Int32 => "Int32"
    case Int64 => "Int64"
    case Nat => "Nat"
    case Nat8 => "Nat8"
    case Nat16 => "Nat16"
    case Nat32 => "Nat32"
    case Nat64 => "Nat64"
    case Null => "Null"
    case Reserved => "Reserved"
    case Text => "Text"
  }

  const PrimNames: seq<string> := [
    "Bool", "Empty", "Float32", "Float64", "Int", "Int8", "Int16", "Int32", "Int64",
    "Nat", "Nat8", "Nat16", "Nat32", "Nat64", "Null", "Reserved", "Text"
  ]

  /** Reads a `PrimT` string: one of the 17 names, or nothing. */
  function ParsePrimKind(s: string): (r: Option<PrimKind>)
    ensures r.Some? <==> s in PrimNames
    ensures r.Some? ==> PrimName(r.value) == s
  {
    if s == "Bool" then Some(Bool)
    else if s == "Empty" then Some(Empty)
    else if s == "Float32" then Some(Float32)
    else if s == "Float64" then Some(Float64)
    else if s == "Int" then Some(Int)
    else if s == "Int8" then Some(Int8)
    else if s == "Int16" then Some(Int16)
    else if s == "Int32" then Some(Int32)
    else if s == "Int64" then Some(Int64)
    else if s == "Nat" then Some(Nat)
    else if s == "Nat8" then Some(Nat8)
    else if s == "Nat16" then Some(Nat16)
    else if s == "Nat32" then Some(Nat32)
    else if s == "Nat64" then Some(Nat64)
    else if s == "Null" then Some(Null)
    else if s == "Reserved" then Some(Reserved)
    else if s == "Text" then Some(Text)
    else None
  }

  /** The primitive kinds are exactly the 17 names, one name per kind. */
  lemma PrimNamesRoundTrip(k: PrimKind)
    ensures PrimName(k) in PrimNames
    ensures ParsePrimKind(PrimName(k)) == Some(k)
  {
  }

  lemma PrimNamesDistinct()
    ensures |PrimNames| == 17
    ensures forall i, j :: 0 <= i < j < |PrimNames| ==> PrimNames[i] != PrimNames[j]
  {
  }

  /** A record is positional when every field label is `Unnamed` (vacuously when it has none). */
  predicate AllUnnamed(fields: seq<Field>) {
    forall i :: 0 <= i < |fields| ==> fields[i].id.Unnamed?
  }

  /**
   * The method list of an actor: `actor.ServT ?? actor.ClassT?.[1].ServT`;
   * absent only when the actor has neither form.
   */
  function ActorMethods(actor: Actor): (r: Option<seq<CandidMethod>>)
    ensures actor.servT.Some? ==> r == actor.servT
    ensures actor.servT.None? && actor.classT.Some? ==> r == Some(actor.classT.value.servT)
    ensures r.None? <==> actor.servT.None? && actor.classT.None?
  {
    match actor.servT
    case Some(ms) => Some(ms)
    case None =>
      match actor.classT
      case Some(c) => Some(c.servT)
      case None => None
  }

  /** The first declaration whose id equals the name. */
  function Lookup(decs: seq<TypeDeclaration>, name: string): (r: Option<nat>)
    ensures r.Some? ==> r.value < |decs| && decs[r.value].id == name
    ensures r.Some? ==> forall j :: 0 <= j < r.value ==> decs[j].id != name
    ensures r.None? <==> forall j :: 0 <= j < |decs| ==> decs[j].id != name
  {
    if decs == [] then None
    else if decs[0].id == name then Some(0)
    else match Lookup(decs[1..], name)
      case None => None
      case Some(i) => Some(i + 1)
  }
}
