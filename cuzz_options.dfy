/**
 * Resolution of the fuzzer's options (src/cuzz_options.ts): every setting is
 * taken from the configuration file when present there, else from the command
 * line when the command line has it, else from a fixed default.
 *
 * Reading `cuzz.json` and parsing the command line are left out; both arrive
 * here already parsed, with numbers as integers.
 */
module CuzzOptions {
  import opened Wrappers

  /** The errors every run tolerates, whatever the configuration says. */
  const DefaultExpectedErrors: seq<string> := [
    "413 (Payload Too Large)",
    "429 (Too Many Requests)",
    "500 (Internal Server Error)",
    "503 (Service Unavailable)",
    "AgentError: Invalid certificate: Certificate is signed more than 5 minutes in the past",
    "AgentError: Timestamp failed to pass the watermark after retrying the configured 3 times. We cannot guarantee the integrity of the response since it could be a replay attack.",
    "Canister exceeded the limit of 200000000 instructions for single message execution",
    "Canister exceeded the limit of 40000000000 instructions for single message execution",
    "Canister exceeded the limit of 5000000000 instructions for single message execution",
    "Request timed out after 300000 msec",
    "Specified ingress_expiry not within expected range",
    "timed out waiting to start executing",
    "TypeError: fetch failed"
  ]

  const DefaultFabricateCycles: string := "100000000000000"
  const DefaultCallDelay: int := 1
  const DefaultPort: int := 8000

  /** The kinds that have a `size.<kind>` entry (the float kinds are not modelled). */
  datatype SizeKind =
    | BlobSize | IntSize | Int64Size | Int32Size | Int16Size | Int8Size
    | NatSize | Nat64Size | Nat32Size | Nat16Size | Nat8Size | TextSize | VecSize

  /** A `size.<kind>` entry of the configuration file: `{ min?, max? }`. */
  datatype BoundsConfig = BoundsConfig(min: Option<int>, max: Option<int>)

  /**
   * The `maxLength` entry of the configuration file, `{ blob?, text?, vec? }`;
   * an absent entry reads as all three `undefined`.
   */
  datatype MaxLengths = MaxLengths(blob: Option<int>, text: Option<int>, vec: Option<int>)

  /** `skip: boolean | string`. */
  datatype Skip = SkipFlag(flag: bool) | SkipReason(reason: string)

  /**
   * The configuration file. `size` holds the entries present in the file's
   * `size` object; a kind that is not a key reads as `undefined`.
   */
  datatype CuzzConfig = CuzzConfig(
    callDelay: Option<int>,
    candidPath: Option<string>,
    canisterName: Option<string>,
    expectedErrors: Option<seq<string>>,
    fabricateCycles: Option<string>,
    maxLength: MaxLengths,
    port: Option<int>,
    size: map<SizeKind, BoundsConfig>,
    silent: Option<bool>,
    skip: Option<Skip>,
    skipDeploy: Option<bool>,
    terminal: Option<bool>,
    textFilter: Option<seq<string>>)

  /** The command-line options that `getCuzzOptions` consults. */
  datatype CliOptions = CliOptions(
    callDelay: Option<int>,
    candidPath: Option<string>,
    canisterName: Option<string>,
    port: Option<int>,
    silent: Option<bool>,
    skipDeploy: Option<bool>,
    terminal: Option<bool>)

  /** A resolved `{ min, max }` pair. */
  datatype Bounds = Bounds(min: int, max: int)

  /** A resolved pair whose sides may be left `undefined` (unbounded). */
  datatype OpenBounds = OpenBounds(min: Option<int>, max: Option<int>)

  /** The resolved `size` object; `integer` and `natural` are its `int` and `nat` entries. */
  datatype Sizes = Sizes(
    blob: Bounds,
    integer: OpenBounds,
    int64: Bounds, int32: Bounds, int16: Bounds, int8: Bounds,
    natural: OpenBounds,
    nat64: Bounds, nat32: Bounds, nat16: Bounds, nat8: Bounds,
    text: Bounds,
    vec: Bounds)

  datatype Options = Options(
    callDelay: int,
    candidPath: Option<string>,
    canisterName: string,
    expectedErrors: seq<string>,
    fabricateCycles: string,
    port: int,
    size: Sizes,
    silent: bool,
    skip: Skip,
    skipDeploy: bool,
    terminal: bool,
    textFilter: seq<string>)

  /** `cuzzConfig.size?.<kind>?.min`. */
  function ConfiguredMin(cfg: CuzzConfig, k: SizeKind): Option<int> {
    if k in cfg.size then cfg.size[k].min else None
  }

  /** `cuzzConfig.size?.<kind>?.max`. */
  function ConfiguredMax(cfg: CuzzConfig, k: SizeKind): Option<int> {
    if k in cfg.size then cfg.size[k].max else None
  }

  /** `x ? BigInt(x) : undefined` for a number: a configured 0 is falsy and reads as undefined. */
  function Truthy(x: Option<int>): (r: Option<int>)
    ensures r.Some? <==> x.Some? && x.value != 0
    ensures r.Some? ==> r == x
  {
    if x.Some? && x.value != 0 then x else None
  }

  /** `{ max: size.<k>.max ?? hi, min: size.<k>.min ?? lo }`. */
  function ResolveBounds(cfg: CuzzConfig, k: SizeKind, lo: int, hi: int): Bounds {
    Bounds(ConfiguredMin(cfg, k).GetOr(lo), ConfiguredMax(cfg, k).GetOr(hi))
  }

  /** The `int` and `nat` entries: bounds only from truthy configured values. */
  function ResolveOpenBounds(cfg: CuzzConfig, k: SizeKind): OpenBounds {
    OpenBounds(Truthy(ConfiguredMin(cfg, k)), Truthy(ConfiguredMax(cfg, k)))
  }

  function Pow2(n: nat): (r: int)
    ensures r >= 1
  {
    if n == 0 then 1 else 2 * Pow2(n - 1)
  }

  /**
   * The resolved `size` object. The fixed-width defaults are written out:
   * -(2^63) to 2^63 - 1 for `int64` down to 0 to 2^8 - 1 for `nat8`, the
   * powers of `Pow2Values`.
   */
  function ResolveSizes(cfg: CuzzConfig): Sizes {
    Sizes(
      blob := ResolveBounds(cfg, BlobSize, 0, 2000000),
      integer := ResolveOpenBounds(cfg, IntSize),
      int64 := ResolveBounds(cfg, Int64Size, -9223372036854775808, 9223372036854775807),
      int32 := ResolveBounds(cfg, Int32Size, -2147483648, 2147483647),
      int16 := ResolveBounds(cfg, Int16Size, -32768, 32767),
      int8 := ResolveBounds(cfg, Int8Size, -128, 127),
      natural := ResolveOpenBounds(cfg, NatSize),
      nat64 := ResolveBounds(cfg, Nat64Size, 0, 18446744073709551615),
      nat32 := ResolveBounds(cfg, Nat32Size, 0, 4294967295),
      nat16 := ResolveBounds(cfg, Nat16Size, 0, 65535),
      nat8 := ResolveBounds(cfg, Nat8Size, 0, 255),
      text := ResolveBounds(cfg, TextSize, 0, 100000),
      vec := ResolveBounds(cfg, VecSize, 0, 100))
  }

  /**
   * `getCuzzOptions` after its two reads: fails only when neither the file nor
   * the command line names the canister.
   */
  function GetCuzzOptions(cfg: CuzzConfig, cli: CliOptions): (r: Result<Options, string>)
    ensures r.Err? <==> cfg.canisterName.None? && cli.canisterName.None?
    ensures r.Err? ==> r.error == "Canister name is required"
    ensures r.Ok? ==> r.value.canisterName == Or(cfg.canisterName, cli.canisterName).value
  {
    match Or(cfg.canisterName, cli.canisterName)
    case None => Err("Canister name is required")
    case Some(canisterName) =>
      Ok(Options(
        callDelay := Or(cfg.callDelay, cli.callDelay).GetOr(DefaultCallDelay),
        candidPath := Or(cfg.candidPath, cli.candidPath),
        canisterName := canisterName,
        expectedErrors := DefaultExpectedErrors + cfg.expectedErrors.GetOr([]),
        fabricateCycles := cfg.fabricateCycles.GetOr(DefaultFabricateCycles),
        port := Or(cfg.port, cli.port).GetOr(DefaultPort),
        size := ResolveSizes(cfg),
        silent := Or(cfg.silent, cli.silent).GetOr(false),
        skip := cfg.skip.GetOr(SkipFlag(false)),
        skipDeploy := Or(cfg.skipDeploy, cli.skipDeploy).GetOr(false),
        terminal := Or(cfg.terminal, cli.terminal).GetOr(false),
        textFilter := cfg.textFilter.GetOr([])))
  }

  /** The configuration file with no entry at all. */
  const EmptyConfig: CuzzConfig := CuzzConfig(None, None, None, None, None, MaxLengths(None, None, None), None, map[], None, None, None, None, None)

  /**
   * The default list always comes first and is never dropped: the configured
   * patterns only extend it, in their own order.
   */
  lemma ExpectedErrorsExtendDefaults(cfg: CuzzConfig, cli: CliOptions)
    requires GetCuzzOptions(cfg, cli).Ok?
    ensures var errs := GetCuzzOptions(cfg, cli).value.expectedErrors;
      && |errs| == |DefaultExpectedErrors| + |cfg.expectedErrors.GetOr([])|
      && errs[..|DefaultExpectedErrors|] == DefaultExpectedErrors
      && errs[|DefaultExpectedErrors|..] == cfg.expectedErrors.GetOr([])
      && forall p :: p in DefaultExpectedErrors ==> p in errs
  {
  }

  /**
   * Precedence of the merged settings: a value in the file wins over the
   * command line, which wins over the default.
   */
  lemma SettingPrecedence(cfg: CuzzConfig, cli: CliOptions)
    requires GetCuzzOptions(cfg, cli).Ok?
    ensures var o := GetCuzzOptions(cfg, cli).value;
      && (cfg.callDelay.Some? ==> o.callDelay == cfg.callDelay.value)
      && (cfg.callDelay.None? && cli.callDelay.Some? ==> o.callDelay == cli.callDelay.value)
      && (cfg.callDelay.None? && cli.callDelay.None? ==> o.callDelay == 1)
      && (cfg.port.Some? ==> o.port == cfg.port.value)
      && (cfg.port.None? && cli.port.Some? ==> o.port == cli.port.value)
      && (cfg.port.None? && cli.port.None? ==> o.port == 8000)
      && (cfg.silent.None? && cli.silent.None? ==> !o.silent)
      && (cfg.skipDeploy.None? && cli.skipDeploy.None? ==> !o.skipDeploy)
      && (cfg.terminal.None? && cli.terminal.None? ==> !o.terminal)
      && (cfg.skip.None? ==> o.skip == SkipFlag(false))
      && (cfg.textFilter.None? ==> o.textFilter == [])
      && (cfg.fabricateCycles.None? ==> o.fabricateCycles == "100000000000000")
  {
  }

  /**
   * With no `size` entry configured, every fixed-width kind gets its whole
   * natural domain, the lengths get their documented defaults, and the `int`
   * and `nat` kinds stay unbounded on both sides.
   */
  lemma DefaultSizesAreNaturalDomains(cfg: CuzzConfig)
    requires cfg.size == map[]
    ensures var s := ResolveSizes(cfg);
      && s.nat8 == Bounds(0, 255)
      && s.nat16 == Bounds(0, 65535)
      && s.nat32 == Bounds(0, 4294967295)
      && s.nat64 == Bounds(0, 18446744073709551615)
      && s.int8 == Bounds(-128, 127)
      && s.int16 == Bounds(-32768, 32767)
      && s.int32 == Bounds(-2147483648, 2147483647)
      && s.int64 == Bounds(-9223372036854775808, 9223372036854775807)
      && s.text == Bounds(0, 100000)
      && s.vec == Bounds(0, 100)
      && s.blob == Bounds(0, 2000000)
      && s.integer == OpenBounds(None, None)
      && s.natural == OpenBounds(None, None)
  {
  }

  /** The powers of two behind the integer domains. */
  lemma Pow2Values()
    ensures Pow2(7) == 128 && Pow2(8) == 256
    ensures Pow2(15) == 32768 && Pow2(16) == 65536
    ensures Pow2(31) == 2147483648 && Pow2(32) == 4294967296
    ensures Pow2(63) == 9223372036854775808 && Pow2(64) == 18446744073709551616
  {
    assert Pow2(7) == 128;
    assert Pow2(8) == 256;
    assert Pow2(15) == 32768;
    assert Pow2(16) == 65536;
    assert Pow2(31) == 2147483648 by { Pow2Add(15, 16); }
    assert Pow2(32) == 4294967296 by { Pow2Add(16, 16); }
    assert Pow2(63) == 9223372036854775808 by { Pow2Add(31, 32); }
    assert Pow2(64) == 18446744073709551616 by { Pow2Add(32, 32); }
  }

  lemma {:induction false} Pow2Add(a: nat, b: nat)
    ensures Pow2(a + b) == Pow2(a) * Pow2(b)
  {
    if a > 0 {
      Pow2Add(a - 1, b);
    }
  }

  /**
   * The `int` and `nat` bounds are set only by a truthy configured number: a
   * configured 0 leaves that side unbounded, any other value is kept.
   */
  lemma OpenBoundsFromTruthyValues(cfg: CuzzConfig, k: SizeKind)
    ensures ConfiguredMin(cfg, k) == Some(0) ==> ResolveOpenBounds(cfg, k).min.None?
    ensures ConfiguredMax(cfg, k) == Some(0) ==> ResolveOpenBounds(cfg, k).max.None?
    ensures forall v :: v != 0 && ConfiguredMin(cfg, k) == Some(v) ==> ResolveOpenBounds(cfg, k).min == Some(v)
    ensures forall v :: v != 0 && ConfiguredMax(cfg, k) == Some(v) ==> ResolveOpenBounds(cfg, k).max == Some(v)
  {
  }
}
