/**
 * fast-check arbitraries as the fuzzer composes them, described as data.
 * Random sampling and shrinking are not modelled: an arbitrary stands for
 * the set of values it can produce, given by `Produces`.
 */
module Generators {
  import opened Wrappers
  import opened Strings
  import Objects
  import Candid

  /** The JavaScript values the generators emit. */
  datatype Value =
    | VNull
    | VUndefined
    | VBool(b: bool)
    | VInt(i: int)
    /** A float or double; floating point is not modelled. */
    | VFloat
    | VText(s: string)
    /** A `Uint8Array`. */
    | VBytes(bytes: seq<int>)
    | VArray(items: seq<Value>)
    | VObject(fields: map<string, Value>)
    /** A principal, by its raw bytes; the principal generator is not part of this model. */
    | VPrincipal(raw: seq<int>)

  datatype Arbitrary =
    /** `getPrincipalArbitrary()`. */
    | Principal
    /** `getBooleanArbitrary()`. */
    | Boolean
    /** `fc.constant(value)`. */
    | Constant(value: Value)
    /** `fc.float()` or `fc.double()`. */
    | Float(double: bool)
    /** `fc.bigInt({ min, max })` or `fc.integer({ min, max })`; an absent bound is unbounded. */
    | Integer(min: Option<int>, max: Option<int>)
    /** `fc.string({ size: 'max', maxLength })`: printable ASCII characters only. */
    | Str(maxLength: int)
    /** `base.filter((text) => !words.some((word) => text.includes(word)))`. */
    | Filter(base: Arbitrary, words: seq<string>)
    /** `fc.uint8Array({ size: 'max', maxLength })`. */
    | Uint8Array(maxLength: int)
    /** `fc.array(element, { maxLength })`. */
    | ArrayOf(element: Arbitrary, maxLength: int)
    /** `fc.tuple(...items)`. */
    | Tuple(items: seq<Arbitrary>)
    /** `fc.record(model)`, the model's keys in order; built with distinct keys. */
    | Record(entries: seq<(string, Arbitrary)>)
    /** `fc.oneof(...alternatives)`. */
    | OneOf(alternatives: seq<Arbitrary>)
    /** `inner.map((value) => [value])`. */
    | MapToArray(inner: Arbitrary)
    /** `inner.map((value) => ({ [key]: value }))`. */
    | MapToObject(key: string, inner: Arbitrary)

  /** `min <= x <= max`, where an absent side does not bound. */
  predicate Within(x: int, min: Option<int>, max: Option<int>) {
    (min.None? || min.value <= x) && (max.None? || x <= max.value)
  }

  predicate IsByte(x: int) {
    0 <= x < 256
  }

  /** The characters `fc.string` draws by default: printable ASCII, U+0020 to U+007E. */
  predicate IsPrintableAscii(c: char) {
    ' ' <= c <= '~'
  }

  /**
   * The values `a` can produce. The builders never describe an integer range
   * with `min > max` or a `oneof` of nothing: fast-check throws on both, and
   * the builders fail with `InvertedRange` and `EmptyOneOf` instead.
   */
  ghost predicate Produces(a: Arbitrary, v: Value)
    decreases a
  {
    match a
    case Principal => v.VPrincipal?
    case Boolean => v.VBool?
    case Constant(c) => v == c
    case Float(_) => v.VFloat?
    case Integer(min, max) => v.VInt? && Within(v.i, min, max)
    case Str(n) => v.VText? && |v.s| <= n && forall i :: 0 <= i < |v.s| ==> IsPrintableAscii(v.s[i])
    case Filter(base, words) => Produces(base, v) && v.VText? && !ContainsAny(v.s, words)
    case Uint8Array(n) => v.VBytes? && |v.bytes| <= n && forall i :: 0 <= i < |v.bytes| ==> IsByte(v.bytes[i])
    case ArrayOf(e, n) => v.VArray? && |v.items| <= n && forall i :: 0 <= i < |v.items| ==> Produces(e, v.items[i])
    case Tuple(gs) => v.VArray? && |v.items| == |gs| && forall i :: 0 <= i < |gs| ==> Produces(gs[i], v.items[i])
    case Record(es) =>
      && v.VObject?
      && v.fields.Keys == Objects.KeySet(es)
      && forall i :: 0 <= i < |es| ==> Produces(es[i].1, v.fields[es[i].0])
    case OneOf(gs) => exists i :: 0 <= i < |gs| && Produces(gs[i], v)
    case MapToArray(g) => v.VArray? && |v.items| == 1 && Produces(g, v.items[0])
    case MapToObject(k, g) => v.VObject? && v.fields.Keys == {k} && Produces(g, v.fields[k])
  }

  /** What building an arbitrary can throw. */
  datatype BuildError =
    | NoMethodsFound(canisterName: string)
    | TypeDefinitionNotFound(name: string)
    | UnsupportedType(typ: Candid.CandidType)
    | NegativeNatMin(kind: string)
    /** `fc.integer` or `fc.bigInt` with both bounds given and `min > max`. */
    | InvertedRange(kind: string)
    /** `fc.oneof()` with no arbitrary: the variant with no alternative. */
    | EmptyOneOf
    /** The depth bound of this model ran out while expanding `name`. */
    | RecursionLimit(name: string)

  /**
   * The message of the error thrown. The unsupported-type message ends in
   * the node's JSON text, which is not modelled: it stops at the prefix. The
   * two errors fast-check throws get a description of their own.
   */
  function Message(e: BuildError): (m: string)
    ensures e.TypeDefinitionNotFound? ==> IsPrefix("Type definition not found for ", m)
    ensures e.UnsupportedType? ==> IsPrefix("Unsupported Candid type: ", m)
    ensures e.TypeDefinitionNotFound? ==> !IsPrefix("Unsupported Candid type: ", m)
  {
    match e
    case NoMethodsFound(c) => "No methods found for canister " + c
    case TypeDefinitionNotFound(n) =>
      var m := "Type definition not found for " + n;
      assert m[0] == 'T';
      m
    case UnsupportedType(_) => "Unsupported Candid type: "
    case NegativeNatMin(k) => k + " min must be greater than or equal to 0"
    case InvertedRange(k) => k + " max must be greater than or equal to min"
    case EmptyOneOf => "oneof expects at least one arbitrary"
    case RecursionLimit(n) => "Recursion limit reached for " + n
  }

  /** A filter only rejects: whatever it lets through, its base could produce. */
  lemma FilterOnlyRejects(base: Arbitrary, words: seq<string>, v: Value)
    requires Produces(Filter(base, words), v)
    ensures Produces(base, v)
    ensures v.VText? && forall k :: 0 <= k < |words| ==> !Contains(v.s, words[k])
  {
  }
}
