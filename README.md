# cuzz, modelled in Dafny

cuzz is a fuzzer for Internet Computer canisters. This project models three parts of it and proves properties about them.

1. **The generator builder.** It walks the Candid type AST of a canister's service. For each argument type it builds one fast-check arbitrary. It then collects the per-method argument tuples into a table keyed by method id.
2. **The fuzz driver.** It makes passes over that table: one call per method, then a fixed delay. A time limit is checked at the top of each pass. Each call that fails is triaged. A cycles error makes the driver fabricate cycles. An error that matches no expected pattern ends the run with exit code 1.
3. **Option resolution.** It merges the configuration file, the command line and the defaults into one resolved options record.

The model mirrors the program's own structure:

| module | file | what it holds |
|---|---|---|
| `Wrappers` | wrappers.dfy | `Option`, `Result`, `??` (`Or`), `Collect` (throw on the first failing element) |
| `Strings` | strings.dfy | prefix and substring tests (`includes`), decimal strings (`String(n)`, `Number(s)`) |
| `Objects` | objects.dfy | JavaScript objects as entry lists in key-creation order: `{...acc, [k]: v}` (`Put`), a `reduce` of spreads (`FromEntries`), the order `Object.entries` lists them in (`OwnEntries`) |
| `Candid` | candid.dfy | the AST of src/types.ts |
| `CuzzOptions` | cuzz_options.dfy | `getCuzzOptions`, with its defaults |
| `Generators` | generators.dfy | arbitraries as data (`Arbitrary`), the values each can produce (`Produces`), the build errors |
| `Scalars` | scalars.dfy | the int, nat, text and func generators |
| `Sorting` | sorting.dfy | a reference definition of the stable sort `Array.prototype.sort` performs |
| `Composites` | composites.dfy | the opt, vec, variant and record generators, and an in-place sort of record fields over an `array` |
| `Arbitraries` | arbitraries.dfy | the `getArgumentArbitrary` dispatcher (`Build`), the method table, `getArgumentArbitraries` |
| `ArbitraryProperties` | arbitrary_properties.dfy | what each dispatcher branch yields, and properties of the method table |
| `BuildFuel` | build_fuel.dfy | the depth bound of `Build` changes no result that does not run out of depth |
| `MemorySize` | memory_size.dfy | `formatMemorySize`, and the `Memory Size:` parse in `getRawMemorySize` |
| `Triage` | triage.dfy | cycles-error handling, expected-error matching, the outcome of a failed call |
| `Patterns` | patterns.dfy | `isExpectedError` as written (a regular expression per pattern), and what it misses |
| `FuzzLoop` | fuzz_loop.dfy | the `Driver` class (the module-level `state`), `fuzzLoop` as a bounded loop, the status values |

Randomness is not modelled. An arbitrary stands for the set of values it can produce. This set is `Generators.Produces`, and each generator's contract states it.

The driver's view of the outside world is passed in as parameters:
- the clock readings, as a sequence;
- the call results, one per dispatch;
- the memory reading, as a value.

A run is the list of events the driver goes through, together with its outcome:
- `Exit(code)` stands for `process.exit(code)`;
- `Continue` means the readings or results ran out.

### Choices where the code disagrees with itself

- `getArgumentArbitrary` is declared with the parameters `(cuzzConfig, decs, type)` at src/arbitraries/index.ts:78-82. The recursive callers pass `(cuzzConfig, type, decs)` (record.ts:24, variant.ts:22, vec.ts:18, variable.ts:17, opt.ts:10). The model uses the declared order throughout.
- src/arbitraries/index.ts:123-141 calls `getNatArbitrary()`, `getNat8Arbitrary()`, `getNat16Arbitrary()` and `getNat32Arbitrary()` with no argument, and `getNat64Arbitrary(cuzzConfig)` (line 136) with the configuration file. src/arbitraries/candid/nats.ts declares each with a `CuzzOptions` parameter and reads its resolved `size` object, which neither call supplies. The model hands every natural generator the configuration and reads the `size` that `getCuzzOptions` resolves from it (`ResolveSizes(cfg)`).
- The `CuzzConfig` type of src/types.ts:77-92 has no `size` field, although `getCuzzOptions` reads `size.*` (src/cuzz_options.ts:51-120). The model's configuration record has the `size` entries `getCuzzOptions` reads.
- The text, vec and blob generators read `cuzzConfig.maxLength?.text ?? 100_000`, `maxLength?.vec ?? 100` and `maxLength?.blob ?? 2_000_000` (text.ts:8, vec.ts:14 and 21), the optional `maxLength` field of src/types.ts:81-85. The model's configuration record has that field (`CuzzOptions.MaxLengths`) and the generators read it. The resolved `size.text`, `size.vec` and `size.blob` ranges of `getCuzzOptions` are not read by any generator.
- `DEFAULT_CYCLES_ERRORS` is imported at src/fuzz_loop.ts:11, but its definition is not part of this model. The driver takes the list as a parameter. `Triage.DefaultCyclesErrors` spells out the two triggers of src/index.ts:272-274.
- `fuzzLoop` reads `cuzzOptions.timeLimit`, which the resolved options returned by `getCuzzOptions` do not contain. The model passes `timeLimit` to `FuzzLoop.Driver.Fuzz` as a parameter.
- A failure of the fabricate-cycles command that is not expected is rethrown inside the `catch` of the un-awaited `fuzzMethod` (src/fuzz_loop.ts:101, 230). It becomes an unhandled rejection, and the handler at src/index.ts:55-62 exits with code 1. The model records it as `Exit(1)`.
- `VarT` resolution has no cycle detection (see the TODO at src/index.ts:4). A recursive type recurses until the stack overflows. `Build` takes a fuel argument and fails with `RecursionLimit(name)` when the fuel is exhausted.

## Model

| member | source | states |
|---|---|---|
| Candid.ParsePrimKind | src/types.ts:38-55 | a `PrimT` string is read exactly when it is one of the 17 primitive names, and the kind read prints back as that name |
| Candid.PrimNamesRoundTrip | src/types.ts:38-55 | every primitive kind's name is among the 17 names and reads back as that kind |
| Candid.PrimNamesDistinct | src/types.ts:38-55 | there are exactly 17 primitive names, pairwise distinct |
| Candid.PrimOf | src/types.ts:57-75 | a type node has a primitive kind exactly when it has a `PrimT` entry |
| Candid.FindFirst | src/types.ts:57-75 | a node's entry for a key is the first one with that key; it is absent exactly when no entry has the key |
| Candid.ActorMethods | src/arbitraries/index.ts:41-42 | the method list is `ServT` when present, else the `ServT` of `ClassT`; it is absent exactly when the actor has neither |
| Candid.Lookup | src/arbitraries/candid/variable.ts:11 | finds the first declaration whose id is the name, and finds nothing exactly when no declaration has that id |
| Objects.Put | src/arbitraries/index.ts:69-72 | `{...acc, [k]: v}` keeps the keys distinct, adds `k`, maps `k` to `v`, leaves the other keys' values unchanged, and creates only a new key, last in creation order |
| Objects.FromEntries | src/arbitraries/candid/record.ts:38-44 | the object built by a `reduce` of spreads has distinct keys, exactly the entries' keys |
| Objects.FromEntriesLastWins | src/arbitraries/candid/record.ts:38-44 | under a duplicated key, the object holds the value of the key's last entry |
| Objects.FromDistinctEntries | src/arbitraries/index.ts:60-75 | with distinct keys, the object's keys are created in the entries' own order |
| Objects.OwnEntries | src/fuzz_loop.ts:57-59 | `Object.entries` lists a permutation of the object's entries: the array-index keys first, in ascending numeric order, then the other keys in creation order |
| Objects.IndexValueInjective | src/fuzz_loop.ts:57-59 | distinct array-index keys denote distinct integers, so the ascending order of the index keys is fixed |
| Objects.IndexKeysEnumerateFirst | src/fuzz_loop.ts:57-59 | an object created with the keys "b", "1", "0" lists them as "0", "1", "b" |
| Strings.DecimalString | src/arbitraries/candid/record.ts:33 | `String(n)` of a natural number is a non-empty run of digits, with no leading zero once `n >= 10` |
| Strings.DecimalRoundTrip | src/fuzz_loop.ts:78 | `Number` of the decimal string of `n` is `n` |
| Strings.DecimalStringInjective | src/arbitraries/candid/record.ts:31-33 | distinct indices give distinct keys |
| CuzzOptions.GetCuzzOptions | src/cuzz_options.ts:35-44 | resolution fails exactly when neither the config nor the command line names the canister, with "Canister name is required"; otherwise the name is the config's, else the command line's |
| CuzzOptions.ExpectedErrorsExtendDefaults | src/cuzz_options.ts:45-48 | the expected errors are the 13 defaults followed by the configured ones in order, so every default is always present |
| CuzzOptions.SettingPrecedence | src/cuzz_options.ts:42-50 | `callDelay` and `port` are config, else command line, else 1 and 8000; without settings, silent, skipDeploy and terminal are false, skip is false, textFilter is empty and fabricateCycles is "100000000000000" |
| CuzzOptions.DefaultSizesAreNaturalDomains | src/cuzz_options.ts:51-120 | with no `size` config, nat8 to nat64 and int8 to int64 get their natural domains, text, vec and blob get [0,100000], [0,100] and [0,2000000], and int and nat stay unbounded |
| CuzzOptions.OpenBoundsFromTruthyValues | src/cuzz_options.ts:64-71 | an int or nat bound configured as 0 resolves to undefined (unbounded); any other configured value is kept |
| CuzzOptions.Truthy | src/cuzz_options.ts:65-70 | the `x ? BigInt(x) : undefined` test keeps exactly the non-zero values |
| CuzzOptions.Pow2Values | src/cuzz_options.ts:72-111 | the powers of two that the literal default bounds and the fixed-width integer ranges are written from: 2^7, 2^8, 2^15, 2^16, 2^31, 2^32, 2^63, 2^64 |
| Generators.Message | src/arbitraries/candid/variable.ts:13-15 | the missing-definition message starts "Type definition not found for " and is distinct from the unsupported-type message, which starts "Unsupported Candid type: " |
| Scalars.IntArbitrary | src/arbitraries/candid/ints.ts:3-5 | produces every integer |
| Scalars.Int64Arbitrary | src/arbitraries/candid/ints.ts:7-12 | produces exactly the integers in [-2^63, 2^63-1] |
| Scalars.Int32Arbitrary | src/arbitraries/candid/ints.ts:14-19 | produces exactly the integers in [-2^31, 2^31-1] |
| Scalars.Int16Arbitrary | src/arbitraries/candid/ints.ts:21-26 | produces exactly the integers in [-32768, 32767] |
| Scalars.Int8Arbitrary | src/arbitraries/candid/ints.ts:28-33 | produces exactly the integers in [-128, 127] |
| Scalars.NatArbitrary | src/arbitraries/candid/nats.ts:5-12 | fails exactly when both `size.nat` bounds are given and min > max, as `fc.bigInt` throws; otherwise produces exactly the integers within them, an undefined side not bounding |
| Scalars.Nat64Arbitrary | src/arbitraries/candid/nats.ts:14-21 | fails exactly when `size.nat64.min` > `size.nat64.max`; otherwise produces exactly the integers between them, with no negative-min check |
| Scalars.BoundedNatArbitrary | src/arbitraries/candid/nats.ts:23-60 | the nat32, nat16 and nat8 generators fail exactly when the min is negative or above the max; a negative min fails first, with "natN min must be greater than or equal to 0", an inverted range with `fc.integer`'s error; otherwise they produce exactly the integers in [min, max] |
| Scalars.TextArbitrary | src/arbitraries/candid/text.ts:5-22 | produces exactly the printable-ASCII strings (`fc.string`'s characters) of at most `maxLength.text` characters, 100000 by default, that contain no filter word; with no filter words it is the unfiltered generator itself |
| Scalars.TextFilterOnlyRejects | src/arbitraries/candid/text.ts:15-18 | every string the filtered generator accepts is one the unfiltered generator can produce |
| Scalars.EmptyFilterWordRejectsAll | src/arbitraries/candid/text.ts:17 | an empty filter word rejects every string, since every string includes "" |
| Scalars.FuncArbitrary | src/arbitraries/candid/func.ts:7-11 | produces exactly the pairs of a principal and a printable-ASCII string within the text length bound that contains no filter word |
| Scalars.TextLengthFromMaxLength | src/arbitraries/candid/text.ts:8 | a `maxLength.text` of 10 refuses "hello world", which the default bound accepts |
| Scalars.DefaultNatCanBeNegative | src/cuzz_options.ts:88-111 | under the default options, the nat generator can produce -1, the nat64 generator cannot, and nat8 produces exactly [0,255] |
| Sorting.SortBy | src/arbitraries/candid/record.ts:18-23 | the reference sort permutes its input and orders it by key |
| Sorting.SortByStable | src/arbitraries/candid/record.ts:18-23 | the reference sort is stable: elements with equal keys keep their relative order |
| Sorting.SortByMap | src/arbitraries/candid/record.ts:18-23 | sorting commutes with a map that keeps each element's key: the sort moves elements by their keys alone |
| Composites.OptArbitrary | src/arbitraries/candid/opt.ts:12-15 | produces exactly `[]` and `[v]` for each `v` the inner generator produces |
| Composites.BlobArbitrary | src/arbitraries/candid/vec.ts:11-16 | produces exactly the byte arrays of at most `maxLength.blob` bytes, 2000000 by default |
| Composites.ArrayArbitrary | src/arbitraries/candid/vec.ts:18-22 | produces exactly the arrays of at most `maxLength.vec` elements, 100 by default, whose every element the element generator produces |
| Composites.VariantArbitrary | src/arbitraries/candid/variant.ts:25-29 | fails exactly when there is no alternative, as `fc.oneof()` throws; otherwise a `oneof` with one candidate per alternative, producing exactly the objects tagged with one alternative's label whose payload that alternative produces |
| Composites.VariantHasOneKey | src/arbitraries/candid/variant.ts:25-28 | every produced value is an object with exactly one key, and that key is an alternative's label |
| Composites.PositionalArbitrary | src/arbitraries/candid/record.ts:17-26 | an all-unnamed record is a tuple with one component per field, which is the field generators in index order; it fails exactly when a field fails, with the error of the first failing field in index order |
| Composites.KeyedArbitrary | src/arbitraries/candid/record.ts:29-45 | a record with a named field is keyed by label, or by the decimal index for an unnamed field, assembled by the spreading `reduce`; it fails exactly when a field fails, with the error of the first failing field in declared order |
| Composites.RecordArbitrary | src/arbitraries/candid/record.ts:15-46 | a record's generator fails exactly when one of its fields' generators fails, with the error of the first field to fail in the order its branch builds them: index order when all are unnamed, declared order otherwise |
| Composites.PositionalComponents | src/arbitraries/candid/record.ts:18-26 | the k-th tuple component is the generator of the field with the k-th smallest index, whatever the declaration order |
| Composites.SortFieldsByIndexOrder | src/arbitraries/candid/record.ts:18-23 | sorting the fields permutes them, orders them by index and keeps fields with equal indices in order |
| Composites.KeyedRecordKeys | src/arbitraries/candid/record.ts:29-45 | the keyed record has distinct keys, exactly the fields' keys, and each key maps to its last field's generator |
| Composites.SortFieldsIdempotent | src/arbitraries/candid/record.ts:18-23 | sorting fields that are already sorted leaves them unchanged |
| Composites.SortFieldsInPlace | src/arbitraries/candid/record.ts:18-23 | `recordT.sort` reorders the caller's array in place into the sorted field order |
| Arbitraries.SelectsFirstRanked | src/arbitraries/index.ts:83-181 | the branch taken is the first entry present in the order PrimT, FuncT, OptT, RecordT, ServT, VarT, VariantT, VecT |
| Arbitraries.Resolve | src/arbitraries/candid/variable.ts:11-15 | a name resolves exactly when some declaration has it, to the first such declaration's type; otherwise the error is "Type definition not found" for the name |
| Arbitraries.PrimArbitraryOutcome | src/arbitraries/index.ts:87-153 | a primitive fails exactly for nat with both bounds given and crossed, nat64 with min > max, and nat32, nat16 or nat8 with a negative min or min > max; Null is constant `null`; Empty and Reserved are constant `undefined` |
| Arbitraries.ArgumentsArbitrary | src/arbitraries/index.ts:65-71 | a method's arguments give a tuple of the argument generators in declared order; it fails at the first argument that fails |
| Arbitraries.MethodTable | src/arbitraries/index.ts:55-76 | the table fails exactly when a method's arguments fail, with the first failure; otherwise it is the spread of (id, tuple) entries in method order |
| Arbitraries.GetArgumentArbitraries | src/arbitraries/index.ts:36-53 | without a method list it fails with `NoMethodsFound(canisterName)`; otherwise it is the method table of that list |
| ArbitraryProperties.DispatchOrder | src/arbitraries/index.ts:83-183 | the dispatcher's choice agrees with a reference first-match scan; no branch applies exactly for `PrincipalT` or a node with no entries |
| ArbitraryProperties.PrincipalAndService | src/arbitraries/index.ts:83-85 | `PrincipalT` and a `ServT` node both build the principal generator, whatever the service's methods |
| ArbitraryProperties.PrimitiveBranch | src/arbitraries/index.ts:87-153 | a `PrimT` node builds its kind's generator: Null gives constant `null`, Empty and Reserved give constant `undefined` |
| ArbitraryProperties.FuncBranch | src/arbitraries/index.ts:155-157 | a `FuncT` node builds the func generator, whatever its signature |
| ArbitraryProperties.OptBranch | src/arbitraries/index.ts:159-161 | an `OptT` node fails exactly when its inner type fails, with the same error; otherwise it produces exactly `[]` and `[v]` for the inner values `v` |
| ArbitraryProperties.PositionalRecordBranch | src/arbitraries/candid/record.ts:15-26 | an all-unnamed record builds a tuple whose k-th component is the build of the field with the k-th smallest index |
| ArbitraryProperties.EmptyRecordIsEmptyTuple | src/arbitraries/candid/record.ts:15 | an empty record counts as all-unnamed and builds the empty tuple |
| ArbitraryProperties.KeyedRecordBranch | src/arbitraries/candid/record.ts:29-45 | a record with a named field builds a keyed record with exactly the fields' keys; each key gives the build of its last field |
| ArbitraryProperties.VariableBranch | src/arbitraries/candid/variable.ts:11-17 | an unmatched `VarT` fails with "Type definition not found"; a matched one builds the first matching declaration's type against the same, unchanged declaration table |
| ArbitraryProperties.VariantBuild | src/arbitraries/candid/variant.ts:15-29 | a variant fails with the first failing payload's error; else, with no alternatives, with the empty-`oneof` error; otherwise it is the `oneof` of the built payloads |
| ArbitraryProperties.VariantBranch | src/arbitraries/candid/variant.ts:15-29 | a variant that builds has an alternative, and produces exactly the one-key objects tagged with an alternative's label whose payload that alternative's generator produces |
| ArbitraryProperties.EmptyVariantFails | src/arbitraries/candid/variant.ts:25-29 | a variant with no alternatives fails to build, with the empty-`oneof` error |
| ArbitraryProperties.NullShortcutAgrees | src/arbitraries/candid/variant.ts:18-21 | the `PrimT Null` shortcut of variant payloads gives what the dispatcher gives: constant `null` |
| ArbitraryProperties.VecBranch | src/arbitraries/candid/vec.ts:11-22 | a vec of literal `PrimT Nat8` builds the blob generator; any other vec fails with its element's error or builds the array generator of its element |
| ArbitraryProperties.AliasOfNat8IsNotBlob | src/arbitraries/candid/vec.ts:11 | a vec whose element is a `VarT` alias of nat8 takes the generic array path, not the blob path |
| ArbitraryProperties.UnsupportedBranch | src/arbitraries/index.ts:183 | a node with none of the recognised entries fails with the unsupported-type error |
| ArbitraryProperties.RecursiveTypeExhaustsBound | src/arbitraries/candid/variable.ts:17 | a type that refers back to itself through `opt` never finishes building: every depth bound runs out |
| ArbitraryProperties.EmptyServiceGivesEmptyTable | src/arbitraries/index.ts:60-75 | an empty method list is not an error and gives the empty table |
| ArbitraryProperties.MethodTableEntries | src/arbitraries/index.ts:60-72 | the table has distinct keys, exactly the method ids; the last method with an id gives that id's tuple, of its arguments' builds in declared order |
| ArbitraryProperties.MethodTableOrder | src/arbitraries/index.ts:60-75 | with distinct ids, the table's keys are created in method order; `Object.entries` lists the same entries with array-index ids first, ascending, and the other ids in method order |
| BuildFuel.BuildMonotone | src/arbitraries/candid/variable.ts:11-17 | a build that does not run out of depth gives the same generator, or the same error, with any larger depth bound |
| BuildFuel.RefFreeSettled | src/arbitraries/index.ts:78-183 | a type with no `VarT` in it never runs out of depth, whatever the bound |
| BuildFuel.FuelIrrelevant | src/arbitraries/index.ts:78-183 | a type with no `VarT` in it builds the same under every depth bound |
| ArbitraryProperties.NoMethodsWithoutService | src/arbitraries/index.ts:44-46 | an actor with neither `ServT` nor `ClassT` fails with "No methods found for canister <name>" |
| MemorySize.FormatMemorySize | src/fuzz_loop.ts:201-204 | a missing reading formats as "unknown", and only a missing reading does |
| MemorySize.GroupMatchesReplacement | src/fuzz_loop.ts:203 | the grouping from the right is the same as an underscore between every three digits counted from the end |
| MemorySize.FormatRoundTrip | src/fuzz_loop.ts:201-204 | a size formats as its grouped decimal digits plus " bytes", and deleting the `_` gives back the decimal digits |
| MemorySize.UngroupGroup | src/fuzz_loop.ts:78 | deleting the `_` of a grouped digit string gives back the digits |
| MemorySize.MatchAt | src/fuzz_loop.ts:77 | `/Memory Size: ([\d_]+) Bytes/` at a fixed position captures a non-empty run of digits and `_`, and captures the only such run there |
| MemorySize.MemoryMatchNone | src/fuzz_loop.ts:77 | the search finds nothing exactly when no position matches |
| MemorySize.MemoryMatchLeftmost | src/fuzz_loop.ts:77 | the search returns the match at the leftmost matching position |
| MemorySize.ParseMemorySize | src/fuzz_loop.ts:73-81 | a reading is a non-negative size exactly when the status output contains a matching line; otherwise it is null |
| MemorySize.ParseGroupedLine | src/fuzz_loop.ts:77-78 | a status output that shows a size in the grouped form gives back that size, whatever text without the label comes before it and whatever follows |
| Triage.HandleCyclesError | src/fuzz_loop.ts:206-233 | a non-cycles error does nothing; a cycles error fabricates cycles once; a fabricate failure that is expected is swallowed and any other is rethrown |
| Triage.Settle | src/fuzz_loop.ts:100-107 | a call ends in continuing or in `exit(1)`, nothing else |
| Triage.SettleExitsIff | src/fuzz_loop.ts:100-107 | a call exits 1 exactly when it failed and either its error is not expected or a cycles replenishment failed unexpectedly |
| Triage.UnexpectedCyclesErrorIsFatal | src/fuzz_loop.ts:101-107 | an unexpected cycles error still replenishes, and then exits 1 |
| Triage.SwallowedFailureIsIgnored | src/fuzz_loop.ts:222-228 | a swallowed fabricate failure leaves the call's outcome as if replenishment had succeeded |
| Triage.NonCyclesIgnoresReplenishment | src/fuzz_loop.ts:211-215 | a non-cycles error never fabricates cycles; the call continues exactly when the error is expected |
| Triage.DefaultPatternsTolerated | src/cuzz_options.ts:45-48 | an error containing a default pattern is expected whatever the configuration |
| Patterns.PlainPatternIsSubstring | src/fuzz_loop.ts:236-241 | a pattern with no regular-expression operators matches exactly the texts that contain it |
| Patterns.GroupedPatternNeedsNoParentheses | src/fuzz_loop.ts:238-239 | a pattern `a(b)` matches exactly the texts that contain `ab`, without the parentheses |
| Patterns.ParenthesisedErrorMissed | src/fuzz_loop.ts:236-241 | an error whose message and text spell out a pattern `a(b)` literally is not matched by that pattern |
| Patterns.WildcardSkipsLineTerminators | src/fuzz_loop.ts:236-241 | `.` matches any single character except the line terminators \n, \r, U+2028 and U+2029 |
| Patterns.TooManyRequestsIsDefault | src/cuzz_options.ts:8 | "429 (Too Many Requests)" is a default expected error |
| Patterns.TooManyRequestsMissedAsWritten | src/fuzz_loop.ts:236-241 | the error "429 (Too Many Requests)" is not matched by the pattern of the same text, though substring matching matches it |
| FuzzLoop.EndTime | src/fuzz_loop.ts:37-40 | there is no end time exactly when the time limit is 0; otherwise it is the start plus the limit in minutes, in ms |
| FuzzLoop.Driver.constructor | src/fuzz_loop.ts:22-27 | the initial state: no calls, and no memory reading, start time or end time |
| FuzzLoop.Driver.Fuzz | src/fuzz_loop.ts:29-68 | resets the state (calls to 0, the memory reading, the start time, the end time), runs the loop the reference run describes, and counts one call per dispatch; afterwards the status at any time `now` shows the dispatch count and `now - start` elapsed, an unlimited remaining time exactly for a time limit of 0, and 0 remaining exactly when the time test would fire |
| FuzzLoop.Driver.Passes | src/fuzz_loop.ts:42-67 | the `while (true)` loop: tests the time at the top of each pass, runs passes until an exit or the inputs run out, and adds one call per dispatch |
| FuzzLoop.Driver.RunPass | src/fuzz_loop.ts:57-66 | one pass: each method once in table order, with the call's triage and then the delay, stopping at a call that exits; one call counted per dispatch |
| FuzzLoop.Driver.Status | src/fuzz_loop.ts:126-168 | the status from the driver's state: the call count; each memory value "unknown" exactly when a reading it needs is missing; the remaining time unlimited exactly without an end time, 0 exactly when the loop's time test fires, else the time to the end; elapsed time since the start, 0 before one |
| FuzzLoop.RemainingTime | src/fuzz_loop.ts:144-150 | unlimited exactly without an end time; otherwise the time left, clamped at 0, and 0 exactly once the end is reached |
| FuzzLoop.RemainingZeroIffTimeUp | src/fuzz_loop.ts:144-150 | the remaining time shows 0 exactly when the loop's time test fires; without a time limit it is unlimited |
| FuzzLoop.MemoryIncrease | src/fuzz_loop.ts:134-137 | the delta is "unknown" exactly when a reading is missing; otherwise it is the formatted difference |
| FuzzLoop.NoTimeLimitNeverTimesOut | src/fuzz_loop.ts:37-55 | a time limit of 0 never ends the run with exit 0, whatever the clock says |
| FuzzLoop.TimeExitNeedsLateReading | src/fuzz_loop.ts:43-55 | the run exits 0 only when there is an end time and some clock reading has reached it; a first reading past the end exits before any dispatch |
| FuzzLoop.PassOutcome | src/fuzz_loop.ts:57-66 | a pass ends by continuing or by exit 1, never by exit 0 |
| FuzzLoop.QuietPassDispatchesAll | src/fuzz_loop.ts:57-66 | when every call returns, a pass dispatches every method once in table order, each followed by a `callDelay * 1000` ms wait |
| FuzzLoop.PassPacing | src/fuzz_loop.ts:57-66 | whatever the calls end with, a pass dispatches methods in table order, each dispatch followed by at most one cycles replenishment and then the `callDelay * 1000` ms wait, except the exiting call; a pass that goes on dispatches every method once, one that stops dispatches a prefix |
| FuzzLoop.PassCounts | src/fuzz_loop.ts:84-118 | a pass dispatches once per result used, at most once per method, and every method when it continues; it fabricates cycles once per cycles error among the dispatched calls |
| FuzzLoop.HeadCounts | src/fuzz_loop.ts:92-101 | a call's own events hold exactly one dispatch, plus one fabricate command exactly when it replenishes |

## Left out

- Randomness and shrinking. fast-check's sampling (`fc.sample`) and shrinking are not modelled. An arbitrary is its description, with the set of values it can produce.
- Floating point. src/arbitraries/candid/floats.ts and the float32 and float64 bounds of src/cuzz_options.ts:56-63 are not modelled. The float kinds build a `Float` description with no bounds.
- The principal and boolean generators. src/arbitraries/candid/principal.ts is not part of this model, and service.ts delegates to it. The model keeps a `Principal` description that produces some principal. `Boolean` produces any boolean.
- Generators.Message: the unsupported-type message is modelled only up to its prefix "Unsupported Candid type: ". The source continues with `JSON.stringify` of the node, and JSON text is not modelled.
- Arbitraries.Build: it carries a fuel argument that bounds how deeply `VarT` references are expanded. The source recurses without a bound and overflows the stack on a recursive type. The model fails with `RecursionLimit` instead. Each `VarT` expansion uses one unit of fuel. Any result other than `RecursionLimit` is the same under every larger bound (`BuildFuel.BuildMonotone`), and a type without `VarT` never reaches the bound (`BuildFuel.RefFreeSettled`).
- Scalars.IntArbitrary: `fc.bigInt()` with no bounds is modelled as producing every integer. fast-check draws it from a finite default range, which is not modelled.
- Scalars.NatArbitrary: an undefined `size.nat` bound is modelled as no bound. The default range fast-check gives `fc.bigInt` for a missing bound is not modelled.
- Scalars.TextArbitrary: a negative `maxLength.text` is not checked. fast-check refuses it at build time; in the model the generator then produces nothing.
- Scalars.FuncArbitrary: it uses the text generator, so a negative `maxLength.text` is not checked there either.
- Composites.BlobArbitrary: a negative `maxLength.blob` is not checked. fast-check refuses it at build time; in the model the generator then produces nothing.
- Composites.ArrayArbitrary: a negative `maxLength.vec` is not checked. fast-check refuses it at build time; in the model the generator then produces nothing.
- Generators.Message: the fast-check errors for an inverted range and an empty `oneof` have messages of the model's own wording. fast-check's exact texts are not modelled.
- Patterns.IsExpectedErrorAsWritten: it models `new RegExp(pattern).test(text)` for the fragment the default patterns use: literal characters, `.` (any character but a line terminator) and balanced groups. Other regular-expression syntax is not modelled. The rest of the model uses substring matching (`Triage.IsExpectedError`), the evident intent (see Findings).
- I/O:
  - the `readFile` and commander reads of `getCuzzConfig` and `parseCommandLineOptions`: their results are the `CuzzConfig` and `CliOptions` parameters of `GetCuzzOptions`;
  - the `dfx canister status` call of `getRawMemorySize`: its output is the `stdout` parameter of `ParseMemorySize`;
  - the `execSync` of `dfx ledger fabricate-cycles`: its outcome is part of each call result;
  - the canister calls: their outcomes are the `CallResult` sequence;
  - the clock: its readings are a sequence of integers in ms.
- Console output. `console.*`, `util.inspect`, `console.clear` and the `clearConsole` option are not modelled. `Driver.Status` computes the values `displayStatus` prints.
- Time formatting. `toFixed(1)` seconds are not modelled. Times stay integer milliseconds.
- Concurrency. The calls are not awaited, so several may be in flight at once, and a later call's result may settle first. The model settles each call right after it is dispatched, before the delay that follows it.
- `timeLimit`: the resolved options do not hold it, so `Driver.Fuzz` takes it as a parameter.
- `DEFAULT_CYCLES_ERRORS`: its definition is not part of this model. The driver takes the list as a parameter.
- The entry points. src/index.ts handles CLI parsing, deployment, `eval` of the compiled interface, agent and actor creation, the terminal, and the process handlers. It is left out except for the exit code of its unhandled-rejection handler. Its generator and classifier are older duplicates of the modelled code. One difference: its substring classifier returns right after fabricating cycles, with no expected-error check.
- JavaScript number precision. The int32 and nat32 ranges and smaller, `callDelay` and `port` are JavaScript numbers. The model uses unbounded integers, which agree with them over the default ranges.
- `Number(...)` of a non-numeric `callDelay` or `port` (NaN) is not modelled. Both are integers in the model.
- Fractional `callDelay` values are not modelled. A `callDelay` of 0.5 seconds gives a 500 ms wait in the source; in the model the delay is a whole number of seconds.
- Composites.SortFieldsInPlace: it sets the array to the sorted sequence in one step. It does not model the steps of the engine's in-place sort. Its contract states the final contents.

## Findings

| source | as written | input that shows it | evidently intended | confidence | as-written member | corrected member |
|---|---|---|---|---|---|---|
| src/fuzz_loop.ts:236-241 | each expected-error pattern is compiled with `new RegExp(expected)`, so the parentheses in the default pattern "429 (Too Many Requests)" (src/cuzz_options.ts:8) form a group, and the pattern matches "429 Too Many Requests" rather than the text itself | an error whose message is "429 (Too Many Requests)" and whose text is "Error: 429 (Too Many Requests)": it is not matched by its own pattern | the patterns are plain substrings, as in the older classifier at src/index.ts:287-291 (`includes`), so that the listed error is tolerated | not executed | Patterns.TooManyRequestsMissedAsWritten | Triage.IsExpectedError |
