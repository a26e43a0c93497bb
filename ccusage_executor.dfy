/**
 * The unified `ccusage` executor: a primary execution strategy, and an
 * ordered list of fallback strategies tried when the primary's result has
 * no usable blocks. Running a strategy is an oracle, since it starts
 * processes.
 */
module CcusageExecutor {
  import opened Wrappers
  import opened Json

  /** The strategy classes; `Other` is any strategy supplied from outside, such as a test double. */
  datatype StrategyClass = WrapperScript | DirectSubprocess | OSSystem | Other(name: string)

  /** The class name `get_available_strategies` reports. */
  function ClassName(c: StrategyClass): string
  {
    match c
    case WrapperScript => "WrapperScriptStrategy"
    case DirectSubprocess => "DirectSubprocessStrategy"
    case OSSystem => "OSSystemStrategy"
    case Other(name) => name
  }

  /** The order in which fallbacks are tried. */
  const FALLBACK_STRATEGIES: seq<StrategyClass> := [WrapperScript, DirectSubprocess, OSSystem]

  /** `{"blocks": []}`, returned when every strategy failed. */
  const EMPTY_RESULT: Value := JObj(map["blocks" := JList([])])

  /** How a call to a strategy's `execute` ended. */
  datatype Outcome = Returned(v: Value) | Raised

  /** `if since_date:` — a date is passed only when it is a non-empty string. */
  predicate HasDate(sinceDate: Option<string>)
  {
    sinceDate.Some? && sinceDate.value != ""
  }

  /** The argument vector: the program, `blocks -j`, then `-s <date>` when a date is given. */
  function Command(program: seq<string>, sinceDate: Option<string>): (cmd: seq<string>)
    ensures |cmd| == |program| + if HasDate(sinceDate) then 4 else 2
    ensures cmd[..|program|] == program && cmd[|program|..|program| + 2] == ["blocks", "-j"]
    ensures HasDate(sinceDate) <==> "-s" in cmd[|program| + 2..]
    ensures HasDate(sinceDate) ==> cmd[|cmd| - 1] == sinceDate.value
  {
    var base := program + ["blocks", "-j"];
    if HasDate(sinceDate) then base + ["-s", sinceDate.value] else base
  }

  /**
   * `execute` of the wrapper-script and direct-subprocess strategies: the
   * decoded standard output of the command, or `{"blocks": []}` when the
   * program cannot be found, the process fails or times out (`run` gives
   * `None`), or its output is not JSON.
   */
  function RunCommand(program: Option<seq<string>>, sinceDate: Option<string>,
                      run: seq<string> -> Option<string>, decode: string -> Option<Value>): (r: Value)
    ensures program.None? ==> r == EMPTY_RESULT
    ensures program.Some? && run(Command(program.value, sinceDate)).None? ==> r == EMPTY_RESULT
    ensures program.Some? && run(Command(program.value, sinceDate)).Some?
            && decode(run(Command(program.value, sinceDate)).value).Some?
            ==> r == decode(run(Command(program.value, sinceDate)).value).value
    ensures program.Some? && run(Command(program.value, sinceDate)).Some?
            && decode(run(Command(program.value, sinceDate)).value).None?
            ==> r == EMPTY_RESULT
  {
    match program
    case None => EMPTY_RESULT
    case Some(p) =>
      match run(Command(p, sinceDate))
      case None => EMPTY_RESULT
      case Some(stdout) =>
        match decode(stdout)
        case None => EMPTY_RESULT
        case Some(v) => v
  }

  /** `isinstance(result, dict) and "blocks" in result`. */
  predicate HasBlocks(v: Value)
  {
    v.JObj? && "blocks" in v.fields
  }

  /** A result a fallback may return: a dictionary whose `blocks` are truthy. */
  predicate Usable(o: Outcome)
  {
    o.Returned? && HasBlocks(o.v) && Truthy(o.v.fields["blocks"])
  }

  /**
   * `_execute_with_fallback` over the remaining classes: the first usable
   * result of a fresh instance of a class other than the current one.
   */
  function FallbackFrom(order: seq<StrategyClass>, current: StrategyClass,
                        spawn: (StrategyClass, Option<string>) -> Outcome, sinceDate: Option<string>): Value
  {
    if order == [] then EMPTY_RESULT
    else if order[0] != current && Usable(spawn(order[0], sinceDate)) then spawn(order[0], sinceDate).v
    else FallbackFrom(order[1..], current, spawn, sinceDate)
  }

  /**
   * The fallback result is `{"blocks": []}` exactly when no class other than
   * the current one gives a usable result; otherwise it is the result of the
   * first such class in order.
   */
  lemma {:induction false} FallbackFromSpec(order: seq<StrategyClass>, current: StrategyClass,
                                            spawn: (StrategyClass, Option<string>) -> Outcome, sinceDate: Option<string>)
    returns (k: nat)
    ensures k <= |order|
    ensures forall j | 0 <= j < k :: order[j] == current || !Usable(spawn(order[j], sinceDate))
    ensures k == |order| ==> FallbackFrom(order, current, spawn, sinceDate) == EMPTY_RESULT
    ensures k < |order| ==> order[k] != current && Usable(spawn(order[k], sinceDate))
                            && FallbackFrom(order, current, spawn, sinceDate) == spawn(order[k], sinceDate).v
  {
    if order == [] {
      k := 0;
    } else if order[0] != current && Usable(spawn(order[0], sinceDate)) {
      k := 0;
    } else {
      var k' := FallbackFromSpec(order[1..], current, spawn, sinceDate);
      k := k' + 1;
      forall j | 0 <= j < k
        ensures order[j] == current || !Usable(spawn(order[j], sinceDate))
      {
        if j > 0 {
          assert order[j] == order[1..][j - 1];
        }
      }
    }
  }

  /** The classes `_execute_with_fallback` instantiates: every class in order except the current one. */
  function Tried(order: seq<StrategyClass>, current: StrategyClass,
                 spawn: (StrategyClass, Option<string>) -> Outcome, sinceDate: Option<string>): seq<StrategyClass>
  {
    if order == [] then []
    else if order[0] == current then Tried(order[1..], current, spawn, sinceDate)
    else if Usable(spawn(order[0], sinceDate)) then [order[0]]
    else [order[0]] + Tried(order[1..], current, spawn, sinceDate)
  }

  /** The current strategy's own class is never instantiated again as a fallback. */
  lemma {:induction false} TriedSkipsCurrent(order: seq<StrategyClass>, current: StrategyClass,
                                             spawn: (StrategyClass, Option<string>) -> Outcome, sinceDate: Option<string>)
    ensures current !in Tried(order, current, spawn, sinceDate)
    ensures forall c | c in Tried(order, current, spawn, sinceDate) :: c in order
  {
    if order != [] {
      TriedSkipsCurrent(order[1..], current, spawn, sinceDate);
    }
  }

  /** One step of the fallback loop: the class at `i` is skipped, wins, or is tried and passed over. */
  lemma FallbackStep(order: seq<StrategyClass>, i: nat, current: StrategyClass,
                     spawn: (StrategyClass, Option<string>) -> Outcome, sinceDate: Option<string>)
    requires i < |order|
    ensures FallbackFrom(order[i..], current, spawn, sinceDate)
         == if order[i] != current && Usable(spawn(order[i], sinceDate)) then spawn(order[i], sinceDate).v
            else FallbackFrom(order[i + 1..], current, spawn, sinceDate)
    ensures Tried(order[i..], current, spawn, sinceDate)
         == if order[i] == current then Tried(order[i + 1..], current, spawn, sinceDate)
            else if Usable(spawn(order[i], sinceDate)) then [order[i]]
            else [order[i]] + Tried(order[i + 1..], current, spawn, sinceDate)
  {
    assert order[i..][1..] == order[i + 1..];
  }

  /** A strategy instance: its class and what its `execute` does for each date. */
  datatype Strategy = Strategy(cls: StrategyClass, execute: Option<string> -> Outcome)

  /** `len(v)` succeeds: a list, a dictionary or a string. */
  predicate Sized(v: Value)
  {
    v.JList? || v.JObj? || v.JStr?
  }

  /**
   * A primary outcome `execute` hands back as it is: a dictionary with a
   * `blocks` key whose length the debug message can take, and whose blocks
   * are truthy unless fallback is off.
   */
  predicate Accepted(o: Outcome, enableFallback: bool)
  {
    && o.Returned? && HasBlocks(o.v) && Sized(o.v.fields["blocks"])
    && (Truthy(o.v.fields["blocks"]) || !enableFallback)
  }

  /**
   * `CcusageExecutor.execute`: a raise, a non-dictionary or a missing
   * `blocks` key gives the fallback result (or `{"blocks": []}` without
   * fallback); falsy blocks give the fallback result when fallback is on.
   * The debug message that follows takes `len(result['blocks'])` eagerly, so
   * blocks without a length (a number, a boolean, `null`) raise into the
   * same handler; any other result is returned unchanged.
   */
  function ExecuteResult(strategy: Strategy, enableFallback: bool,
                         spawn: (StrategyClass, Option<string>) -> Outcome, sinceDate: Option<string>): Value
  {
    var failed := if enableFallback then FallbackFrom(FALLBACK_STRATEGIES, strategy.cls, spawn, sinceDate) else EMPTY_RESULT;
    match strategy.execute(sinceDate)
    case Raised => failed
    case Returned(v) =>
      if !HasBlocks(v) then failed
      else if !Truthy(v.fields["blocks"]) && enableFallback then failed
      else if !Sized(v.fields["blocks"]) then failed
      else v
  }

  /** An accepted primary result is returned unchanged, with or without fallback. */
  lemma PrimaryWins(strategy: Strategy, enableFallback: bool,
                    spawn: (StrategyClass, Option<string>) -> Outcome, sinceDate: Option<string>)
    requires Accepted(strategy.execute(sinceDate), enableFallback)
    ensures ExecuteResult(strategy, enableFallback, spawn, sinceDate) == strategy.execute(sinceDate).v
  {
  }

  /**
   * Every primary outcome that is not accepted (a raise, no `blocks`, blocks
   * without a length, or falsy blocks with fallback on) gives the fallback
   * result with fallback, and `{"blocks": []}` without.
   */
  lemma ExecuteFailures(strategy: Strategy, enableFallback: bool,
                        spawn: (StrategyClass, Option<string>) -> Outcome, sinceDate: Option<string>)
    requires !Accepted(strategy.execute(sinceDate), enableFallback)
    ensures enableFallback ==> ExecuteResult(strategy, enableFallback, spawn, sinceDate)
                               == FallbackFrom(FALLBACK_STRATEGIES, strategy.cls, spawn, sinceDate)
    ensures !enableFallback ==> ExecuteResult(strategy, enableFallback, spawn, sinceDate) == EMPTY_RESULT
  {
  }

  /** `{"blocks": null}` without fallback is not returned as it is: `len(None)` raises and the result is empty. */
  lemma NullBlocksWithoutFallback(strategy: Strategy, spawn: (StrategyClass, Option<string>) -> Outcome,
                                  sinceDate: Option<string>)
    requires strategy.execute(sinceDate) == Returned(JObj(map["blocks" := JNull]))
    ensures ExecuteResult(strategy, false, spawn, sinceDate) == EMPTY_RESULT
  {
  }

  /** The loop of `_execute_with_fallback` over any list of classes. */
  method TryInOrder(order: seq<StrategyClass>, current: StrategyClass,
                    spawn: (StrategyClass, Option<string>) -> Outcome, sinceDate: Option<string>)
    returns (r: Value, tried: seq<StrategyClass>)
    ensures r == FallbackFrom(order, current, spawn, sinceDate)
    ensures tried == Tried(order, current, spawn, sinceDate)
  {
    tried := [];
    var i := 0;
    while i < |order|
      invariant 0 <= i <= |order|
      invariant FallbackFrom(order, current, spawn, sinceDate) == FallbackFrom(order[i..], current, spawn, sinceDate)
      invariant Tried(order, current, spawn, sinceDate) == tried + Tried(order[i..], current, spawn, sinceDate)
    {
      FallbackStep(order, i, current, spawn, sinceDate);
      if order[i] != current {
        tried := tried + [order[i]];
        var outcome := spawn(order[i], sinceDate);
        if Usable(outcome) {
          return outcome.v, tried;
        }
      }
      i := i + 1;
    }
    r := EMPTY_RESULT;
  }

  /** `CcusageExecutor`; `spawn` runs a fresh instance of a fallback class. */
  class Executor {
    var strategy: Strategy
    const enableFallback: bool
    const spawn: (StrategyClass, Option<string>) -> Outcome

    /** Without a strategy, a fresh wrapper-script strategy is the primary. */
    constructor(strategy: Option<Strategy>, enableFallback: bool, spawn: (StrategyClass, Option<string>) -> Outcome)
      ensures this.strategy == if strategy.Some? then strategy.value else Strategy(WrapperScript, d => spawn(WrapperScript, d))
      ensures this.enableFallback == enableFallback && this.spawn == spawn
    {
      this.strategy := if strategy.Some? then strategy.value else Strategy(WrapperScript, d => spawn(WrapperScript, d));
      this.enableFallback := enableFallback;
      this.spawn := spawn;
    }

    /** `_execute_with_fallback`: also reports which classes it instantiated, in order. */
    method ExecuteWithFallback(sinceDate: Option<string>) returns (r: Value, tried: seq<StrategyClass>)
      ensures r == FallbackFrom(FALLBACK_STRATEGIES, strategy.cls, spawn, sinceDate)
      ensures tried == Tried(FALLBACK_STRATEGIES, strategy.cls, spawn, sinceDate)
    {
      r, tried := TryInOrder(FALLBACK_STRATEGIES, strategy.cls, spawn, sinceDate);
    }

    /** `execute`: the primary strategy, then the fallbacks when its result is not accepted. */
    method Execute(sinceDate: Option<string>) returns (r: Value, tried: seq<StrategyClass>)
      ensures r == ExecuteResult(strategy, enableFallback, spawn, sinceDate)
      ensures Accepted(strategy.execute(sinceDate), enableFallback) || !enableFallback ==> tried == []
      ensures !Accepted(strategy.execute(sinceDate), enableFallback) && enableFallback
              ==> tried == Tried(FALLBACK_STRATEGIES, strategy.cls, spawn, sinceDate)
    {
      tried := [];
      var outcome := strategy.execute(sinceDate);
      var failed := outcome.Raised? || !outcome.v.JObj? || "blocks" !in outcome.v.fields;
      if !failed && !Truthy(outcome.v.fields["blocks"]) && enableFallback {
        failed := true;
      }
      if !failed && !Sized(outcome.v.fields["blocks"]) {
        // the debug message's `len(result['blocks'])` raises
        failed := true;
      }
      if failed {
        if enableFallback {
          r, tried := ExecuteWithFallback(sinceDate);
        } else {
          r := EMPTY_RESULT;
        }
      } else {
        r := outcome.v;
      }
    }

    /** `set_strategy`. */
    method SetStrategy(s: Strategy)
      modifies this`strategy
      ensures strategy == s
    {
      strategy := s;
    }

    /** `get_available_strategies`: the fallback class names, in the order they are tried. */
    method GetAvailableStrategies() returns (names: seq<string>)
      ensures |names| == |FALLBACK_STRATEGIES|
      ensures forall i | 0 <= i < |names| :: names[i] == ClassName(FALLBACK_STRATEGIES[i])
    {
      names := [];
      for i := 0 to |FALLBACK_STRATEGIES|
        invariant |names| == i
        invariant forall j | 0 <= j < i :: names[j] == ClassName(FALLBACK_STRATEGIES[j])
      {
        names := names + [ClassName(FALLBACK_STRATEGIES[i])];
      }
    }
  }

  /** The names reported are the three built-in strategies, wrapper script first. */
  lemma AvailableStrategyNames()
    ensures |FALLBACK_STRATEGIES| == 3
    ensures ClassName(FALLBACK_STRATEGIES[0]) == "WrapperScriptStrategy"
    ensures ClassName(FALLBACK_STRATEGIES[1]) == "DirectSubprocessStrategy"
    ensures ClassName(FALLBACK_STRATEGIES[2]) == "OSSystemStrategy"
  {
  }
}
