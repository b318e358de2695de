/**
 * How a rejected call is classified (src/fuzz_loop.ts:100-117 and 206-241).
 * A cycles error first asks for a replenishment. Then an error that no
 * expected pattern matches ends the run with exit code 1. So does a failed
 * replenishment that is itself unexpected: it is rethrown out of the
 * un-awaited call, and the process's unhandled-rejection handler
 * (src/index.ts:55-62) exits with 1.
 */
module Triage {
  import opened Wrappers
  import opened Strings
  import opened CuzzOptions

  /** A thrown error: its `message`, and what its `toString()` gives. */
  datatype CallError = CallError(message: string, text: string)

  /**
   * The messages that mean the canister has run out of cycles, as the
   * classifier of src/index.ts:272-274 spells them out. The fuzz loop takes
   * the list as a parameter.
   */
  const DefaultCyclesErrors: seq<string> := [
    "is out of cycles",
    "is unable to process query calls because it's frozen. Please top up the canister with cycles and try again."
  ]

  /** `cyclesErrors.some((c) => error.message.includes(c))`. */
  predicate IsCyclesError(cyclesErrors: seq<string>, e: CallError) {
    ContainsAny(e.message, cyclesErrors)
  }

  /**
   * `isExpectedError` as evidently intended: some pattern occurs, as it is
   * written, in the error's message or in its text.
   */
  predicate IsExpectedError(e: CallError, expected: seq<string>) {
    ContainsAny(e.message, expected) || ContainsAny(e.text, expected)
  }

  /**
   * Every resolved option set tolerates an error whose message contains one
   * of the default patterns.
   */
  lemma DefaultPatternsTolerated(cfg: CuzzConfig, cli: CliOptions, e: CallError, k: nat)
    requires GetCuzzOptions(cfg, cli).Ok?
    requires k < |DefaultExpectedErrors| && Contains(e.message, DefaultExpectedErrors[k])
    ensures IsExpectedError(e, GetCuzzOptions(cfg, cli).value.expectedErrors)
  {
    ExpectedErrorsExtendDefaults(cfg, cli);
    assert GetCuzzOptions(cfg, cli).value.expectedErrors[k] == DefaultExpectedErrors[k];
  }

  /** What `handleCyclesError` did. */
  datatype CyclesHandling =
    | NotCycles
    | Replenished
    | FailureSwallowed(failure: CallError)
    | FailureRethrown(failure: CallError)

  /**
   * `handleCyclesError`, given how the fabricate-cycles command ends:
   * `None` when it succeeds, the error it throws otherwise.
   */
  function HandleCyclesError(cyclesErrors: seq<string>, expected: seq<string>, e: CallError, fabricate: Option<CallError>): (h: CyclesHandling)
    ensures h.NotCycles? <==> !IsCyclesError(cyclesErrors, e)
    ensures h.Replenished? <==> IsCyclesError(cyclesErrors, e) && fabricate.None?
    ensures h.FailureSwallowed? <==>
      IsCyclesError(cyclesErrors, e) && fabricate.Some? && IsExpectedError(fabricate.value, expected)
    ensures h.FailureRethrown? <==>
      IsCyclesError(cyclesErrors, e) && fabricate.Some? && !IsExpectedError(fabricate.value, expected)
    ensures h.FailureSwallowed? || h.FailureRethrown? ==> h.failure == fabricate.value
  {
    if !IsCyclesError(cyclesErrors, e) then NotCycles
    else match fabricate
      case None => Replenished
      case Some(failure) =>
        if IsExpectedError(failure, expected) then FailureSwallowed(failure) else FailureRethrown(failure)
  }

  /** How a call ended: it returned, or it was rejected, with how a replenishment would end. */
  datatype CallResult = Returned | Rejected(error: CallError, fabricate: Option<CallError>)

  /** Where the run goes after an event: on, or `process.exit(code)`. */
  datatype Outcome = Continue | Exit(code: int)

  /** `fuzzMethod` once its call has ended. */
  function Settle(cyclesErrors: seq<string>, expected: seq<string>, r: CallResult): (o: Outcome)
    ensures o == Continue || o == Exit(1)
  {
    match r
    case Returned => Continue
    case Rejected(e, fabricate) =>
      if HandleCyclesError(cyclesErrors, expected, e, fabricate).FailureRethrown? then Exit(1)
      else if IsExpectedError(e, expected) then Continue
      else Exit(1)
  }

  /** Whether settling `r` runs the fabricate-cycles command. */
  predicate Replenishes(cyclesErrors: seq<string>, r: CallResult) {
    r.Rejected? && IsCyclesError(cyclesErrors, r.error)
  }

  /**
   * A call ends the run exactly when it was rejected with an unexpected
   * error, or with a cycles error whose replenishment failed unexpectedly;
   * otherwise the run goes on.
   */
  lemma SettleExitsIff(cyclesErrors: seq<string>, expected: seq<string>, r: CallResult)
    ensures Settle(cyclesErrors, expected, r) == Exit(1) <==>
      && r.Rejected?
      && (|| !IsExpectedError(r.error, expected)
          || (IsCyclesError(cyclesErrors, r.error) && r.fabricate.Some? && !IsExpectedError(r.fabricate.value, expected)))
    ensures Settle(cyclesErrors, expected, r) == Continue <==> !(Settle(cyclesErrors, expected, r) == Exit(1))
  {
  }

  /**
   * Replenishing does not excuse a cycles error: unless it also matches an
   * expected pattern, the run ends even when the cycles were fabricated.
   */
  lemma UnexpectedCyclesErrorIsFatal(cyclesErrors: seq<string>, expected: seq<string>, e: CallError)
    requires IsCyclesError(cyclesErrors, e) && !IsExpectedError(e, expected)
    ensures HandleCyclesError(cyclesErrors, expected, e, None) == Replenished
    ensures Settle(cyclesErrors, expected, Rejected(e, None)) == Exit(1)
  {
  }

  /**
   * A failed replenishment that is itself expected is swallowed: the call is
   * then judged by its own error alone.
   */
  lemma SwallowedFailureIsIgnored(cyclesErrors: seq<string>, expected: seq<string>, e: CallError, failure: CallError)
    requires IsExpectedError(failure, expected)
    ensures Settle(cyclesErrors, expected, Rejected(e, Some(failure))) == Settle(cyclesErrors, expected, Rejected(e, None))
  {
  }

  /** A rejection that is no cycles error is judged by its error alone, whatever a replenishment would do. */
  lemma NonCyclesIgnoresReplenishment(cyclesErrors: seq<string>, expected: seq<string>, e: CallError, fabricate: Option<CallError>)
    requires !IsCyclesError(cyclesErrors, e)
    ensures !Replenishes(cyclesErrors, Rejected(e, fabricate))
    ensures Settle(cyclesErrors, expected, Rejected(e, fabricate)) == (if IsExpectedError(e, expected) then Continue else Exit(1))
  {
  }
}
