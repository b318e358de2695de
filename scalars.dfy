/**
 * The generators of the leaf types: the integers (src/arbitraries/candid/ints.ts),
 * the naturals (nats.ts), text (text.ts) and function references (func.ts).
 */
module Scalars {
  import opened Wrappers
  import opened Strings
  import opened CuzzOptions
  import opened Generators

  /** `int`: every integer. */
  function IntArbitrary(): (a: Arbitrary)
    ensures forall v :: Produces(a, v) <==> v.VInt?
  {
    Integer(None, None)
  }

  /** `int64`: the 64-bit two's-complement range, -(2^63) to 2^63 - 1 (see `Pow2Values`). */
  function Int64Arbitrary(): (a: Arbitrary)
    ensures forall v :: Produces(a, v) <==> v.VInt? && -9223372036854775808 <= v.i <= 9223372036854775807
  {
    Integer(Some(-9223372036854775808), Some(9223372036854775807))
  }

  /** `int32`: the 32-bit two's-complement range, -(2^31) to 2^31 - 1 (see `Pow2Values`). */
  function Int32Arbitrary(): (a: Arbitrary)
    ensures forall v :: Produces(a, v) <==> v.VInt? && -2147483648 <= v.i <= 2147483647
  {
    Integer(Some(-2147483648), Some(2147483647))
  }

  /** `int16`: the 16-bit two's-complement range, -(2^15) to 2^15 - 1 (see `Pow2Values`). */
  function Int16Arbitrary(): (a: Arbitrary)
    ensures forall v :: Produces(a, v) <==> v.VInt? && -32768 <= v.i <= 32767
  {
    Integer(Some(-32768), Some(32767))
  }

  /** `int8`: the 8-bit two's-complement range, -(2^7) to 2^7 - 1 (see `Pow2Values`). */
  function Int8Arbitrary(): (a: Arbitrary)
    ensures forall v :: Produces(a, v) <==> v.VInt? && -128 <= v.i <= 127
  {
    Integer(Some(-128), Some(127))
  }

  // The generators are handed the configuration file itself. The naturals
  // read the `size` object `getCuzzOptions` resolves from it, `ResolveSizes`.

  /**
   * `nat`: the resolved `size.nat` range, unbounded on a side left undefined;
   * no sign check. `fc.bigInt` throws when both bounds are given and cross.
   */
  function NatArbitrary(cfg: CuzzConfig): (r: Result<Arbitrary, BuildError>)
    ensures var b := ResolveSizes(cfg).natural;
      && (r.Err? <==> b.min.Some? && b.max.Some? && b.min.value > b.max.value)
      && (r.Err? ==> r.error == InvertedRange("nat"))
      && (r.Ok? ==> forall v :: Produces(r.value, v) <==> v.VInt? && Within(v.i, b.min, b.max))
  {
    var b := ResolveSizes(cfg).natural;
    if b.min.Some? && b.max.Some? && b.min.value > b.max.value then Err(InvertedRange("nat"))
    else Ok(Integer(b.min, b.max))
  }

  /** `nat64`: the resolved `size.nat64` range; no sign check, but `fc.bigInt` refuses `min > max`. */
  function Nat64Arbitrary(cfg: CuzzConfig): (r: Result<Arbitrary, BuildError>)
    ensures var b := ResolveSizes(cfg).nat64;
      && (r.Err? <==> b.min > b.max)
      && (r.Err? ==> r.error == InvertedRange("nat64"))
      && (r.Ok? ==> forall v :: Produces(r.value, v) <==> v.VInt? && b.min <= v.i <= b.max)
  {
    var b := ResolveSizes(cfg).nat64;
    if b.min > b.max then Err(InvertedRange("nat64")) else Ok(Integer(Some(b.min), Some(b.max)))
  }

  /**
   * `nat32`, `nat16` and `nat8`: a negative minimum is refused first, then
   * `fc.integer` refuses `min > max`; otherwise the range.
   */
  function BoundedNatArbitrary(kind: string, b: Bounds): (r: Result<Arbitrary, BuildError>)
    ensures r.Err? <==> b.min < 0 || b.min > b.max
    ensures b.min < 0 ==> r == Err(NegativeNatMin(kind))
    ensures 0 <= b.min && b.min > b.max ==> r == Err(InvertedRange(kind))
    ensures r.Ok? ==> forall v :: Produces(r.value, v) <==> v.VInt? && 0 <= b.min <= v.i <= b.max
  {
    if b.min < 0 then Err(NegativeNatMin(kind))
    else if b.min > b.max then Err(InvertedRange(kind))
    else Ok(Integer(Some(b.min), Some(b.max)))
  }

  function Nat32Arbitrary(cfg: CuzzConfig): Result<Arbitrary, BuildError> {
    BoundedNatArbitrary("nat32", ResolveSizes(cfg).nat32)
  }

  function Nat16Arbitrary(cfg: CuzzConfig): Result<Arbitrary, BuildError> {
    BoundedNatArbitrary("nat16", ResolveSizes(cfg).nat16)
  }

  function Nat8Arbitrary(cfg: CuzzConfig): Result<Arbitrary, BuildError> {
    BoundedNatArbitrary("nat8", ResolveSizes(cfg).nat8)
  }

  /** `cuzzConfig.maxLength?.text ?? 100_000`. */
  function MaxTextLength(cfg: CuzzConfig): int {
    cfg.maxLength.text.GetOr(100000)
  }

  /** `cuzzConfig.textFilter`, with `undefined` read as no word. */
  function TextFilter(cfg: CuzzConfig): seq<string> {
    cfg.textFilter.GetOr([])
  }

  /**
   * `text`: printable ASCII strings up to `maxLength.text` characters, and,
   * when filter words are configured, none containing any of them.
   */
  function TextArbitrary(cfg: CuzzConfig): (a: Arbitrary)
    ensures forall v :: Produces(a, v) <==>
      && v.VText? && |v.s| <= MaxTextLength(cfg)
      && (forall i :: 0 <= i < |v.s| ==> IsPrintableAscii(v.s[i]))
      && !ContainsAny(v.s, TextFilter(cfg))
    ensures TextFilter(cfg) == [] ==> a == Str(MaxTextLength(cfg))
  {
    var base := Str(MaxTextLength(cfg));
    if |TextFilter(cfg)| > 0 then Filter(base, TextFilter(cfg)) else base
  }

  /**
   * `func`: a pair of a principal and a method name, under the text rules;
   * the signature of the function type plays no part.
   */
  function FuncArbitrary(cfg: CuzzConfig): (a: Arbitrary)
    ensures forall v :: Produces(a, v) <==>
      && v.VArray? && |v.items| == 2
      && v.items[0].VPrincipal?
      && v.items[1].VText? && |v.items[1].s| <= MaxTextLength(cfg)
      && (forall i :: 0 <= i < |v.items[1].s| ==> IsPrintableAscii(v.items[1].s[i]))
      && !ContainsAny(v.items[1].s, TextFilter(cfg))
  {
    PrincipalPairs(TextArbitrary(cfg));
    Tuple([Principal, TextArbitrary(cfg)])
  }

  /** A two-element tuple headed by a principal produces the pairs whose second item `second` produces. */
  lemma PrincipalPairs(second: Arbitrary)
    ensures forall v :: Produces(Tuple([Principal, second]), v) <==>
      v.VArray? && |v.items| == 2 && v.items[0].VPrincipal? && Produces(second, v.items[1])
  {
    var gs := [Principal, second];
    assert gs[0] == Principal && gs[1] == second;
  }

  /** The text filter only rejects: every string it accepts, the unfiltered generator could produce. */
  lemma TextFilterOnlyRejects(cfg: CuzzConfig, v: Value)
    requires Produces(TextArbitrary(cfg), v)
    ensures Produces(Str(MaxTextLength(cfg)), v)
  {
  }

  /** A filter word that is the empty string occurs in every text, so nothing passes. */
  lemma EmptyFilterWordRejectsAll(cfg: CuzzConfig, v: Value)
    requires "" in TextFilter(cfg)
    ensures !Produces(TextArbitrary(cfg), v)
  {
    if v.VText? {
      var words := TextFilter(cfg);
      var k :| 0 <= k < |words| && words[k] == "";
      assert IsPrefix("", v.s[0..]);
      assert Contains(v.s, words[k]);
    }
  }

  /**
   * With the default sizes (a configuration without a `size` entry), `nat`
   * is unbounded below: it can produce a negative number, whereas `nat64`
   * and the narrower naturals cannot.
   */
  lemma DefaultNatCanBeNegative(cfg: CuzzConfig)
    requires cfg.size == map[]
    ensures NatArbitrary(cfg).Ok? && Produces(NatArbitrary(cfg).value, VInt(-1))
    ensures Nat64Arbitrary(cfg).Ok? && !Produces(Nat64Arbitrary(cfg).value, VInt(-1))
    ensures Nat8Arbitrary(cfg).Ok?
    ensures forall v :: Produces(Nat8Arbitrary(cfg).value, v) <==> v.VInt? && 0 <= v.i <= 255
  {
    DefaultNaturals(cfg);
  }

  lemma DefaultNaturals(cfg: CuzzConfig)
    requires cfg.size == map[]
    ensures var s := ResolveSizes(cfg);
      && s.natural == OpenBounds(None, None)
      && s.nat64 == Bounds(0, 18446744073709551615)
      && s.nat8 == Bounds(0, 255)
  {
    DefaultSizesAreNaturalDomains(cfg);
  }

  /** The text length bound comes from `maxLength.text`, not from the resolved `size.text`. */
  lemma TextLengthFromMaxLength(cfg: CuzzConfig, v: Value)
    requires cfg.maxLength.text == Some(10) && TextFilter(cfg) == []
    requires v == VText("hello world")
    ensures !Produces(TextArbitrary(cfg), v)
    ensures Produces(TextArbitrary(cfg.(maxLength := MaxLengths(None, None, None))), v)
  {
    assert |v.s| == 11;
  }
}
