/**
 * The fuzz driver of src/fuzz_loop.ts: passes over the method table, one
 * dispatch per method and a fixed delay after each, under a time limit.
 *
 * The outside world is injected. The clock readings are a sequence: the
 * start time, then one reading at the top of each pass. The calls' results
 * are a sequence, one per dispatch. The memory reading is a parameter.
 * Every call is settled right after its dispatch, before the delay that
 * follows it ends. A run ends with `Exit(code)` for `process.exit(code)`, or
 * with `Continue` when the readings or results run out.
 */
module FuzzLoop {
  import opened Wrappers
  import opened CuzzOptions
  import opened Triage
  import opened MemorySize

  /** What the driver does, in order. */
  datatype Event =
    | Dispatch(name: string)
    | FabricateCycles(canisterName: string, cycles: string)
    | Wait(ms: int)

  /** A run's outcome and the events it went through. */
  datatype Run = Run(outcome: Outcome, events: seq<Event>)

  /** `r` after the events `prefix`. */
  function Then(prefix: seq<Event>, r: Run): Run {
    Run(r.outcome, prefix + r.events)
  }

  lemma ThenThen(a: seq<Event>, b: seq<Event>, r: Run)
    ensures Then(a, Then(b, r)) == Then(a + b, r)
  {
    assert a + (b + r.events) == (a + b) + r.events;
  }

  /** `endTime`: none without a time limit, else the start plus the limit in minutes. */
  function EndTime(start: int, timeLimit: int): (r: Option<int>)
    ensures r.None? <==> timeLimit == 0
    ensures r.Some? ==> r.value - start == timeLimit * 60 * 1000
  {
    if timeLimit == 0 then None else Some(start + timeLimit * 60 * 1000)
  }

  /** The test at the top of each pass. */
  predicate TimeUp(endTime: Option<int>, now: int) {
    endTime.Some? && now >= endTime.value
  }

  /** The delay after each dispatch, in milliseconds. */
  function DelayMs(opts: Options): int {
    opts.callDelay * 1000
  }

  /** The events of settling a call: one replenishment for a cycles error. */
  function SettleEvents(opts: Options, cyclesErrors: seq<string>, r: CallResult): seq<Event> {
    if Replenishes(cyclesErrors, r) then [FabricateCycles(opts.canisterName, opts.fabricateCycles)] else []
  }

  /** A call's own events: its dispatch, then what settling it runs. */
  function CallEvents(opts: Options, cyclesErrors: seq<string>, name: string, r: CallResult): seq<Event> {
    [Dispatch(name)] + SettleEvents(opts, cyclesErrors, r)
  }

  /**
   * One pass of the `for` loop over the method names, taking one call result
   * per dispatch; it stops early at a call that ends the run, or when the
   * results run out.
   */
  function PassRun(opts: Options, cyclesErrors: seq<string>, names: seq<string>, results: seq<CallResult>): Run
    decreases names
  {
    if names == [] || results == [] then Run(Continue, [])
    else
      var head := CallEvents(opts, cyclesErrors, names[0], results[0]);
      var o := Settle(cyclesErrors, opts.expectedErrors, results[0]);
      if o.Exit? then Run(o, head)
      else Then(head + [Wait(DelayMs(opts))], PassRun(opts, cyclesErrors, names[1..], results[1..]))
  }

  /**
   * The `while (true)` loop: at the top of each pass the next clock reading
   * is tested against `endTime`, then a pass runs.
   */
  function LoopRun(opts: Options, cyclesErrors: seq<string>, endTime: Option<int>, names: seq<string>, clock: seq<int>, results: seq<CallResult>): Run
    decreases |clock|
  {
    if clock == [] then Run(Continue, [])
    else if TimeUp(endTime, clock[0]) then Run(Exit(0), [])
    else
      var pass := PassRun(opts, cyclesErrors, names, results);
      if pass.outcome.Exit? || |results| < |names| then pass
      else Then(pass.events, LoopRun(opts, cyclesErrors, endTime, names, clock[1..], results[|names|..]))
  }

  /** The number of dispatches among `es`. */
  function Dispatches(es: seq<Event>): nat {
    if es == [] then 0 else (if es[0].Dispatch? then 1 else 0) + Dispatches(es[1..])
  }

  /** The names dispatched in `es`, in order. */
  function DispatchedNames(es: seq<Event>): seq<string> {
    if es == [] then [] else (if es[0].Dispatch? then [es[0].name] else []) + DispatchedNames(es[1..])
  }

  /**
   * `es` is a run of calls, each a dispatch, then at most one replenishment,
   * then the delay; when `open`, the last call has no delay after it.
   */
  predicate Paced(es: seq<Event>, delay: int, open: bool)
    decreases |es|
  {
    if es == [] then !open
    else
      var f := if |es| > 1 && es[1].FabricateCycles? then 2 else 1;
      && es[0].Dispatch?
      && ((open && |es| == f) || (|es| > f && es[f] == Wait(delay) && Paced(es[f + 1..], delay, open)))
  }

  /** The number of fabricate-cycles commands among `es`. */
  function Fabrications(es: seq<Event>): nat {
    if es == [] then 0 else (if es[0].FabricateCycles? then 1 else 0) + Fabrications(es[1..])
  }

  /** The number of results in `rs` whose settling replenishes. */
  function Replenishing(cyclesErrors: seq<string>, rs: seq<CallResult>): nat {
    if rs == [] then 0 else (if Replenishes(cyclesErrors, rs[0]) then 1 else 0) + Replenishing(cyclesErrors, rs[1..])
  }

  lemma {:induction false} CountsAppend(a: seq<Event>, b: seq<Event>)
    ensures Dispatches(a + b) == Dispatches(a) + Dispatches(b)
    ensures Fabrications(a + b) == Fabrications(a) + Fabrications(b)
  {
    if a == [] {
      assert a + b == b;
    } else {
      assert (a + b)[0] == a[0] && (a + b)[1..] == a[1..] + b;
      CountsAppend(a[1..], b);
    }
  }

  /** A call's own events hold its dispatch and, for a cycles error, one replenishment. */
  lemma HeadCounts(opts: Options, name: string, cyclesErrors: seq<string>, r: CallResult)
    ensures var head := CallEvents(opts, cyclesErrors, name, r);
      Dispatches(head) == 1 && Fabrications(head) == (if Replenishes(cyclesErrors, r) then 1 else 0)
  {
    var settle := SettleEvents(opts, cyclesErrors, r);
    CountsAppend([Dispatch(name)], settle);
    assert [Dispatch(name)][1..] == [];
    if settle != [] { assert settle[1..] == []; }
  }

  /** The state of src/fuzz_loop.ts:15-27. */
  class Driver {
    var numCalls: nat
    var startingMemorySize: Option<int>
    var startTime: Option<int>
    var endTime: Option<int>

    constructor ()
      ensures numCalls == 0 && startingMemorySize.None? && startTime.None? && endTime.None?
    {
      numCalls := 0;
      startingMemorySize := None;
      startTime := None;
      endTime := None;
    }

    /**
     * `fuzzLoop`: resets the state from the memory reading and the start
     * time, then runs passes. `numCalls` counts the dispatches, whatever
     * their calls ended with. `names` are the method names in the order
     * `Object.entries` lists the table, `Objects.OwnEntries`.
     */
    method Fuzz(opts: Options, cyclesErrors: seq<string>, timeLimit: int, names: seq<string>, memory: Option<int>,
                start: int, clock: seq<int>, results: seq<CallResult>) returns (outcome: Outcome, events: seq<Event>)
      modifies this
      ensures startingMemorySize == memory && startTime == Some(start) && endTime == EndTime(start, timeLimit)
      ensures Run(outcome, events) == LoopRun(opts, cyclesErrors, endTime, names, clock, results)
      ensures numCalls == Dispatches(events)
      ensures forall now, m :: var st := Status(now, m);
        && st.numCalls == Dispatches(events)
        && st.elapsedMs == now - start
        && (st.remaining.Unlimited? <==> timeLimit == 0)
        && (st.remaining == RemainingMs(0) <==> TimeUp(EndTime(start, timeLimit), now))
    {
      numCalls := 0;
      startingMemorySize := memory;
      startTime := Some(start);
      endTime := EndTime(start, timeLimit);
      outcome, events := Passes(opts, cyclesErrors, endTime, names, clock, results);
    }

    /**
     * The `while (true)` loop of `fuzzLoop`: one pass per clock reading
     * until the time is up, a call ends the run, or the readings or the call
     * results run out.
     */
    method Passes(opts: Options, cyclesErrors: seq<string>, end: Option<int>, names: seq<string>,
                  clock: seq<int>, results: seq<CallResult>) returns (outcome: Outcome, events: seq<Event>)
      modifies this`numCalls
      ensures Run(outcome, events) == LoopRun(opts, cyclesErrors, end, names, clock, results)
      ensures numCalls == old(numCalls) + Dispatches(events)
    {
      events := [];
      var k, n := 0, 0;
      assert clock[0..] == clock && results[0..] == results;
      while k < |clock|
        invariant 0 <= k <= |clock| && 0 <= n <= |results|
        invariant numCalls == old(numCalls) + Dispatches(events)
        invariant LoopRun(opts, cyclesErrors, end, names, clock, results)
               == Then(events, LoopRun(opts, cyclesErrors, end, names, clock[k..], results[n..]))
        decreases |clock| - k
      {
        var rest := results[n..];
        if TimeUp(end, clock[k]) {
          LoopTimesOut(opts, cyclesErrors, end, names, clock, results, k, n, events);
          outcome := Exit(0);
          return;
        }
        var passOutcome, passEvents, used := RunPass(opts, cyclesErrors, names, rest);
        CountsAppend(events, passEvents);
        if passOutcome.Exit? || |rest| < |names| {
          LoopEnds(opts, cyclesErrors, end, names, clock, results, k, n, events, passOutcome, passEvents);
          outcome, events := passOutcome, events + passEvents;
          return;
        }
        LoopAdvance(opts, cyclesErrors, end, names, clock, results, k, n, events, passEvents);
        events, n := events + passEvents, n + |names|;
        k := k + 1;
      }
      outcome := Continue;
      assert events + [] == events;
    }

    /**
     * One pass of the `for` loop over `names`, on the call results `rs`, of
     * which it takes `used`: each dispatch counts a call, then the call is
     * settled, then the delay runs.
     */
    method RunPass(opts: Options, cyclesErrors: seq<string>, names: seq<string>, rs: seq<CallResult>)
      returns (outcome: Outcome, events: seq<Event>, used: nat)
      modifies this`numCalls
      ensures Run(outcome, events) == PassRun(opts, cyclesErrors, names, rs)
      ensures numCalls == old(numCalls) + Dispatches(events)
      ensures used <= |rs| && used <= |names|
      ensures outcome == Continue ==> used == |names| || used == |rs|
    {
      events := [];
      var j := 0;
      assert names[0..] == names && rs[0..] == rs;
      while j < |names| && j < |rs|
        invariant 0 <= j <= |names| && j <= |rs|
        invariant numCalls == old(numCalls) + Dispatches(events)
        invariant PassRun(opts, cyclesErrors, names, rs) == Then(events, PassRun(opts, cyclesErrors, names[j..], rs[j..]))
        decreases |names| - j
      {
        CallAdvance(opts, cyclesErrors, names, rs, j, events);
        numCalls := numCalls + 1;
        var o := Settle(cyclesErrors, opts.expectedErrors, rs[j]);
        if o.Exit? {
          outcome, events, used := o, events + CallEvents(opts, cyclesErrors, names[j], rs[j]), j + 1;
          return;
        }
        events := events + CallEvents(opts, cyclesErrors, names[j], rs[j]) + [Wait(DelayMs(opts))];
        j := j + 1;
      }
      assert PassRun(opts, cyclesErrors, names[j..], rs[j..]) == Run(Continue, []);
      assert events + [] == events;
      outcome, used := Continue, j;
    }

    /**
     * The values `displayStatus` shows, at time `now` with the memory reading
     * `currentMemory`: a memory value is "unknown" exactly when a reading it
     * needs is missing, the remaining time is unlimited exactly without an end
     * time and zero exactly when the loop's time test fires, and the elapsed
     * time is 0 before the run has started.
     */
    function Status(now: int, currentMemory: Option<int>): (s: StatusValues)
      reads this
      ensures s.numCalls == numCalls
      ensures s.currentMemory == "unknown" <==> currentMemory.None?
      ensures s.startingMemory == "unknown" <==> startingMemorySize.None?
      ensures s.memoryIncrease == "unknown" <==> startingMemorySize.None? || currentMemory.None?
      ensures s.remaining.Unlimited? <==> endTime.None?
      ensures s.remaining == RemainingMs(0) <==> TimeUp(endTime, now)
      ensures s.remaining.RemainingMs? && s.remaining.ms > 0 ==> s.remaining.ms == endTime.value - now
      ensures startTime.Some? ==> s.elapsedMs == now - startTime.value
      ensures startTime.None? ==> s.elapsedMs == 0
    {
      StatusValues(
        currentMemory := FormatMemorySize(currentMemory),
        startingMemory := FormatMemorySize(startingMemorySize),
        memoryIncrease := MemoryIncrease(startingMemorySize, currentMemory),
        elapsedMs := if startTime.Some? then now - startTime.value else 0,
        remaining := RemainingTime(endTime, now),
        numCalls := numCalls)
    }
  }

  /** One call of a pass: the pass is that call's events, then the rest unless the call ends the run. */
  lemma CallStep(opts: Options, cyclesErrors: seq<string>, names: seq<string>, results: seq<CallResult>)
    requires names != [] && results != []
    ensures var head := CallEvents(opts, cyclesErrors, names[0], results[0]);
      var o := Settle(cyclesErrors, opts.expectedErrors, results[0]);
      PassRun(opts, cyclesErrors, names, results)
        == if o.Exit? then Then(head, Run(o, []))
           else Then(head + [Wait(DelayMs(opts))], PassRun(opts, cyclesErrors, names[1..], results[1..]))
  {
    var head := CallEvents(opts, cyclesErrors, names[0], results[0]);
    assert head + [] == head;
  }

  /** The invariant of `RunPass` carried over one call. */
  lemma CallAdvance(opts: Options, cyclesErrors: seq<string>, names: seq<string>, rs: seq<CallResult>, j: nat, events: seq<Event>)
    requires j < |names| && j < |rs|
    requires PassRun(opts, cyclesErrors, names, rs) == Then(events, PassRun(opts, cyclesErrors, names[j..], rs[j..]))
    ensures var head := CallEvents(opts, cyclesErrors, names[j], rs[j]);
      var o := Settle(cyclesErrors, opts.expectedErrors, rs[j]);
      && Dispatches(events + head) == Dispatches(events) + 1
      && (o.Exit? ==> PassRun(opts, cyclesErrors, names, rs) == Run(o, events + head))
      && (!o.Exit? ==>
            && Dispatches(events + head + [Wait(DelayMs(opts))]) == Dispatches(events) + 1
            && PassRun(opts, cyclesErrors, names, rs)
               == Then(events + head + [Wait(DelayMs(opts))], PassRun(opts, cyclesErrors, names[j + 1..], rs[j + 1..])))
  {
    var head := CallEvents(opts, cyclesErrors, names[j], rs[j]);
    var wait := [Wait(DelayMs(opts))];
    CallStep(opts, cyclesErrors, names[j..], rs[j..]);
    assert names[j..][1..] == names[j + 1..] && rs[j..][1..] == rs[j + 1..];
    CountsAppend(events, head);
    HeadCounts(opts, names[j], cyclesErrors, rs[j]);
    if Settle(cyclesErrors, opts.expectedErrors, rs[j]).Exit? {
      ThenThen(events, head, Run(Settle(cyclesErrors, opts.expectedErrors, rs[j]), []));
    } else {
      CountsAppend(events + head, wait);
      assert Dispatches(wait) == 0 by { assert wait[1..] == []; }
      ThenThen(events, head + wait, PassRun(opts, cyclesErrors, names[j + 1..], rs[j + 1..]));
      assert events + head + wait == events + (head + wait);
    }
  }

  /** A pass that ends the run, or that runs out of results, ends the loop with it. */
  lemma PassEndsLoop(opts: Options, cyclesErrors: seq<string>, endTime: Option<int>, names: seq<string>, clock: seq<int>, results: seq<CallResult>)
    requires clock != [] && !TimeUp(endTime, clock[0])
    requires PassRun(opts, cyclesErrors, names, results).outcome.Exit? || |results| < |names|
    ensures LoopRun(opts, cyclesErrors, endTime, names, clock, results) == PassRun(opts, cyclesErrors, names, results)
  {
  }

  /** A whole pass that goes on is followed by the next pass. */
  lemma PassContinues(opts: Options, cyclesErrors: seq<string>, endTime: Option<int>, names: seq<string>, clock: seq<int>, results: seq<CallResult>)
    requires clock != [] && !TimeUp(endTime, clock[0]) && |results| >= |names|
    requires PassRun(opts, cyclesErrors, names, results).outcome == Continue
    ensures LoopRun(opts, cyclesErrors, endTime, names, clock, results)
         == Then(PassRun(opts, cyclesErrors, names, results).events,
                 LoopRun(opts, cyclesErrors, endTime, names, clock[1..], results[|names|..]))
  {
  }

  /** The loop's view of a clock reading past the end time: the run ends with status 0. */
  lemma LoopTimesOut(opts: Options, cyclesErrors: seq<string>, endTime: Option<int>, names: seq<string>,
                     clock: seq<int>, results: seq<CallResult>, k: nat, n: nat, events: seq<Event>)
    requires k < |clock| && n <= |results| && TimeUp(endTime, clock[k])
    requires LoopRun(opts, cyclesErrors, endTime, names, clock, results)
          == Then(events, LoopRun(opts, cyclesErrors, endTime, names, clock[k..], results[n..]))
    ensures LoopRun(opts, cyclesErrors, endTime, names, clock, results) == Run(Exit(0), events)
  {
    assert events + [] == events;
  }

  /** The loop's view of a pass that ends the run. */
  lemma LoopEnds(opts: Options, cyclesErrors: seq<string>, endTime: Option<int>, names: seq<string>,
                 clock: seq<int>, results: seq<CallResult>, k: nat, n: nat, events: seq<Event>,
                 passOutcome: Outcome, passEvents: seq<Event>)
    requires k < |clock| && n <= |results| && !TimeUp(endTime, clock[k])
    requires Run(passOutcome, passEvents) == PassRun(opts, cyclesErrors, names, results[n..])
    requires passOutcome.Exit? || |results[n..]| < |names|
    requires LoopRun(opts, cyclesErrors, endTime, names, clock, results)
          == Then(events, LoopRun(opts, cyclesErrors, endTime, names, clock[k..], results[n..]))
    ensures LoopRun(opts, cyclesErrors, endTime, names, clock, results) == Run(passOutcome, events + passEvents)
  {
    PassEndsLoop(opts, cyclesErrors, endTime, names, clock[k..], results[n..]);
  }

  /** The loop's view of a pass that goes on: its events join those before it. */
  lemma LoopAdvance(opts: Options, cyclesErrors: seq<string>, endTime: Option<int>, names: seq<string>,
                    clock: seq<int>, results: seq<CallResult>, k: nat, n: nat, events: seq<Event>, passEvents: seq<Event>)
    requires k < |clock| && n + |names| <= |results| && !TimeUp(endTime, clock[k])
    requires Run(Continue, passEvents) == PassRun(opts, cyclesErrors, names, results[n..])
    requires LoopRun(opts, cyclesErrors, endTime, names, clock, results)
          == Then(events, LoopRun(opts, cyclesErrors, endTime, names, clock[k..], results[n..]))
    ensures LoopRun(opts, cyclesErrors, endTime, names, clock, results)
         == Then(events + passEvents, LoopRun(opts, cyclesErrors, endTime, names, clock[k + 1..], results[n + |names|..]))
  {
    var rest := results[n..];
    PassContinues(opts, cyclesErrors, endTime, names, clock[k..], rest);
    assert clock[k..][1..] == clock[k + 1..];
    assert rest[|names|..] == results[n + |names|..];
    ThenThen(events, passEvents, LoopRun(opts, cyclesErrors, endTime, names, clock[k + 1..], results[n + |names|..]));
  }

  /** Time left before `endTime`: unlimited without one, never below zero. */
  datatype Remaining = Unlimited | RemainingMs(ms: nat)

  function RemainingTime(endTime: Option<int>, now: int): (r: Remaining)
    ensures r.Unlimited? <==> endTime.None?
    ensures r.RemainingMs? ==> (r.ms == 0 <==> now >= endTime.value)
    ensures r.RemainingMs? && r.ms > 0 ==> r.ms == endTime.value - now
  {
    match endTime
    case None => Unlimited
    case Some(e) => RemainingMs(if e - now > 0 then e - now else 0)
  }

  /**
   * Without a time limit the remaining time is unlimited; with one, it
   * shows zero exactly when the loop's time check would end the run.
   */
  lemma RemainingZeroIffTimeUp(start: int, timeLimit: int, now: int)
    ensures timeLimit == 0 ==> RemainingTime(EndTime(start, timeLimit), now) == Unlimited
    ensures RemainingTime(EndTime(start, timeLimit), now) == RemainingMs(0) <==> TimeUp(EndTime(start, timeLimit), now)
  {
  }

  /** The memory increase since the start, known only when both readings are. */
  function MemoryIncrease(starting: Option<int>, current: Option<int>): (r: string)
    ensures r == "unknown" <==> starting.None? || current.None?
    ensures starting.Some? && current.Some? ==> r == FormatMemorySize(Some(current.value - starting.value))
  {
    if starting.Some? && current.Some? then FormatMemorySize(Some(current.value - starting.value)) else "unknown"
  }

  datatype StatusValues = StatusValues(
    currentMemory: string,
    startingMemory: string,
    memoryIncrease: string,
    elapsedMs: int,
    remaining: Remaining,
    numCalls: nat)

  // Properties of the run.

  /** Without a time limit the run never ends by time, whatever the clock says. */
  lemma {:induction false} NoTimeLimitNeverTimesOut(opts: Options, cyclesErrors: seq<string>, start: int, names: seq<string>, clock: seq<int>, results: seq<CallResult>)
    ensures LoopRun(opts, cyclesErrors, EndTime(start, 0), names, clock, results).outcome != Exit(0)
  {
    if clock != [] {
      var pass := PassRun(opts, cyclesErrors, names, results);
      PassOutcome(opts, cyclesErrors, names, results);
      if !(pass.outcome.Exit? || |results| < |names|) {
        NoTimeLimitNeverTimesOut(opts, cyclesErrors, start, names, clock[1..], results[|names|..]);
      }
    }
  }

  /** A pass never exits with 0: only a failing call ends it, with 1. */
  lemma {:induction false} PassOutcome(opts: Options, cyclesErrors: seq<string>, names: seq<string>, results: seq<CallResult>)
    ensures PassRun(opts, cyclesErrors, names, results).outcome in {Continue, Exit(1)}
  {
    if names != [] && results != [] {
      PassOutcome(opts, cyclesErrors, names[1..], results[1..]);
    }
  }

  /**
   * The run ends with 0 exactly at a clock reading taken at the top of a
   * pass that is at or past `endTime`; a reading past it at the very start
   * ends the run before any dispatch.
   */
  lemma {:induction false} TimeExitNeedsLateReading(opts: Options, cyclesErrors: seq<string>, endTime: Option<int>, names: seq<string>, clock: seq<int>, results: seq<CallResult>)
    ensures LoopRun(opts, cyclesErrors, endTime, names, clock, results).outcome == Exit(0) ==>
      endTime.Some? && exists k :: 0 <= k < |clock| && clock[k] >= endTime.value
    ensures clock != [] && TimeUp(endTime, clock[0]) ==>
      LoopRun(opts, cyclesErrors, endTime, names, clock, results) == Run(Exit(0), [])
  {
    if clock != [] && !TimeUp(endTime, clock[0]) {
      var pass := PassRun(opts, cyclesErrors, names, results);
      PassOutcome(opts, cyclesErrors, names, results);
      if !(pass.outcome.Exit? || |results| < |names|) {
        TimeExitNeedsLateReading(opts, cyclesErrors, endTime, names, clock[1..], results[|names|..]);
        var r := LoopRun(opts, cyclesErrors, endTime, names, clock[1..], results[|names|..]);
        if r.outcome == Exit(0) {
          var k :| 0 <= k < |clock[1..]| && clock[1..][k] >= endTime.value;
          assert clock[k + 1] >= endTime.value;
        }
      }
    }
  }

  /**
   * A pass whose calls all return dispatches every method once, in table
   * order, each followed by the delay.
   */
  lemma {:induction false} QuietPassDispatchesAll(opts: Options, cyclesErrors: seq<string>, names: seq<string>, results: seq<CallResult>)
    requires |results| >= |names| && forall i :: 0 <= i < |names| ==> results[i].Returned?
    ensures var pass := PassRun(opts, cyclesErrors, names, results);
      && pass.outcome == Continue
      && |pass.events| == 2 * |names|
      && forall i :: 0 <= i < |names| ==> pass.events[2 * i] == Dispatch(names[i]) && pass.events[2 * i + 1] == Wait(DelayMs(opts))
  {
    if names != [] {
      QuietPassDispatchesAll(opts, cyclesErrors, names[1..], results[1..]);
      var rest := PassRun(opts, cyclesErrors, names[1..], results[1..]);
      var pass := PassRun(opts, cyclesErrors, names, results);
      assert SettleEvents(opts, cyclesErrors, results[0]) == [];
      assert pass.events == [Dispatch(names[0]), Wait(DelayMs(opts))] + rest.events;
      forall i | 0 <= i < |names| ensures pass.events[2 * i] == Dispatch(names[i]) && pass.events[2 * i + 1] == Wait(DelayMs(opts)) {
        if i > 0 {
          assert pass.events[2 * i] == rest.events[2 * (i - 1)];
          assert pass.events[2 * i + 1] == rest.events[2 * (i - 1) + 1];
        }
      }
    }
  }

  /**
   * A pass dispatches one call per result it uses, a failing call
   * included, and runs one replenishment for each of those calls that
   * failed with a cycles error.
   */
  lemma {:induction false} PassCounts(opts: Options, cyclesErrors: seq<string>, names: seq<string>, results: seq<CallResult>)
    ensures var pass := PassRun(opts, cyclesErrors, names, results);
      var used := Dispatches(pass.events);
      && used <= |names| && used <= |results|
      && (names != [] && results != [] ==> used >= 1)
      && (pass.outcome == Continue && |results| >= |names| ==> used == |names|)
      && Fabrications(pass.events) == Replenishing(cyclesErrors, results[..used])
  {
    if names == [] || results == [] {
      assert results[..0] == [];
    } else if Settle(cyclesErrors, opts.expectedErrors, results[0]).Exit? {
      ExitingCallCounts(opts, cyclesErrors, names, results);
    } else {
      PassCounts(opts, cyclesErrors, names[1..], results[1..]);
      ContinuingCallCounts(opts, cyclesErrors, names, results);
    }
  }

  /**
   * The cadence of a pass, whatever its calls end with: the methods are
   * dispatched in table order, each dispatch followed by at most one
   * replenishment and then the `callDelay * 1000` ms wait, except the call
   * that ends the run, which has no wait after it. A pass that goes on over
   * enough results dispatches every method exactly once; one that stops
   * early dispatches a prefix of the methods.
   */
  lemma {:induction false} PassPacing(opts: Options, cyclesErrors: seq<string>, names: seq<string>, results: seq<CallResult>)
    ensures var pass := PassRun(opts, cyclesErrors, names, results);
      && DispatchedNames(pass.events) <= names
      && Paced(pass.events, DelayMs(opts), pass.outcome.Exit?)
      && (pass.outcome == Continue && |results| >= |names| ==> DispatchedNames(pass.events) == names)
  {
    if names != [] && results != [] {
      var r := results[0];
      var head := CallEvents(opts, cyclesErrors, names[0], r);
      var settle := SettleEvents(opts, cyclesErrors, r);
      var f := 1 + |settle|;
      var pass := PassRun(opts, cyclesErrors, names, results);
      assert head == [Dispatch(names[0])] + settle;
      assert DispatchedNames(settle) == [] by {
        if settle != [] { assert settle[1..] == []; }
      }
      NamesAppend([Dispatch(names[0])], settle);
      assert DispatchedNames([Dispatch(names[0])]) == [names[0]] by { assert [Dispatch(names[0])][1..] == []; }
      if Settle(cyclesErrors, opts.expectedErrors, r).Exit? {
        assert pass.events == head && |head| == f;
        assert head[0].Dispatch?;
        assert DispatchedNames(pass.events) == [names[0]] == names[..1];
      } else {
        PassPacing(opts, cyclesErrors, names[1..], results[1..]);
        var rest := PassRun(opts, cyclesErrors, names[1..], results[1..]);
        var wait := [Wait(DelayMs(opts))];
        assert pass == Then(head + wait, rest);
        assert pass.events == head + wait + rest.events;
        assert pass.events[f] == Wait(DelayMs(opts)) && pass.events[f + 1..] == rest.events;
        assert f == (if |pass.events| > 1 && pass.events[1].FabricateCycles? then 2 else 1);
        NamesAppend(head, wait);
        assert DispatchedNames(wait) == [] by { assert wait[1..] == []; }
        NamesAppend(head + wait, rest.events);
        assert DispatchedNames(pass.events) == [names[0]] + DispatchedNames(rest.events);
      }
    }
  }

  lemma {:induction false} NamesAppend(a: seq<Event>, b: seq<Event>)
    ensures DispatchedNames(a + b) == DispatchedNames(a) + DispatchedNames(b)
  {
    if a == [] {
      assert a + b == b;
    } else {
      assert (a + b)[0] == a[0] && (a + b)[1..] == a[1..] + b;
      NamesAppend(a[1..], b);
    }
  }

  /** What `PassCounts` states about one pass. */
  predicate CountsAgree(opts: Options, cyclesErrors: seq<string>, names: seq<string>, results: seq<CallResult>) {
    var pass := PassRun(opts, cyclesErrors, names, results);
    var used := Dispatches(pass.events);
    && used <= |names| && used <= |results|
    && (names != [] && results != [] ==> used >= 1)
    && (pass.outcome == Continue && |results| >= |names| ==> used == |names|)
    && Fabrications(pass.events) == Replenishing(cyclesErrors, results[..used])
  }

  /** A pass whose first call ends the run made that call alone. */
  lemma ExitingCallCounts(opts: Options, cyclesErrors: seq<string>, names: seq<string>, results: seq<CallResult>)
    requires names != [] && results != [] && Settle(cyclesErrors, opts.expectedErrors, results[0]).Exit?
    ensures CountsAgree(opts, cyclesErrors, names, results)
  {
    var r := results[0];
    HeadCounts(opts, names[0], cyclesErrors, r);
    assert results[..1] == [r] && [r][1..] == [];
  }

  /** A call that lets the run go on adds itself to what the rest of the pass counts. */
  lemma ContinuingCallCounts(opts: Options, cyclesErrors: seq<string>, names: seq<string>, results: seq<CallResult>)
    requires names != [] && results != [] && !Settle(cyclesErrors, opts.expectedErrors, results[0]).Exit?
    requires CountsAgree(opts, cyclesErrors, names[1..], results[1..])
    ensures CountsAgree(opts, cyclesErrors, names, results)
  {
    var rest := PassRun(opts, cyclesErrors, names[1..], results[1..]);
    ContinuingEvents(opts, cyclesErrors, names, results);
    ReplenishingCons(cyclesErrors, results, Dispatches(rest.events));
  }

  /** The events of a pass whose first call lets the run go on. */
  lemma ContinuingEvents(opts: Options, cyclesErrors: seq<string>, names: seq<string>, results: seq<CallResult>)
    requires names != [] && results != [] && !Settle(cyclesErrors, opts.expectedErrors, results[0]).Exit?
    ensures var pass := PassRun(opts, cyclesErrors, names, results);
      var rest := PassRun(opts, cyclesErrors, names[1..], results[1..]);
      && pass.outcome == rest.outcome
      && Dispatches(pass.events) == 1 + Dispatches(rest.events)
      && Fabrications(pass.events) == (if Replenishes(cyclesErrors, results[0]) then 1 else 0) + Fabrications(rest.events)
  {
    var r := results[0];
    var head := CallEvents(opts, cyclesErrors, names[0], r);
    var wait := [Wait(DelayMs(opts))];
    var rest := PassRun(opts, cyclesErrors, names[1..], results[1..]);
    assert PassRun(opts, cyclesErrors, names, results) == Then(head + wait, rest);
    HeadCounts(opts, names[0], cyclesErrors, r);
    assert Dispatches(wait) == 0 && Fabrications(wait) == 0 by { assert wait[1..] == []; }
    CountsAppend(head, wait);
    CountsAppend(head + wait, rest.events);
  }

  lemma ReplenishingCons(cyclesErrors: seq<string>, rs: seq<CallResult>, u: nat)
    requires u < |rs|
    ensures Replenishing(cyclesErrors, rs[..u + 1])
      == (if Replenishes(cyclesErrors, rs[0]) then 1 else 0) + Replenishing(cyclesErrors, rs[1..][..u])
  {
    assert rs[..u + 1][0] == rs[0];
    assert rs[..u + 1][1..] == rs[1..][..u];
  }
}
