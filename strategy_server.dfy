/**
 * The strategy handlers of the HTTP server (`server/src/strategy.rs`): a
 * `StrategyState` with the strategies' settings by name and the backtest
 * results by strategy name. Every refusal is a 404 answer, modelled as
 * `Err` with its message. The backtest is a fixed simulated result.
 */
module StrategyServer {
  import opened Wrappers
  import opened StrategyModels
  import opened Strategies

  const DefaultInitialCapital: real := 100000.0
  const SimulatedFinalCapital: real := 110000.0
  const BacktestDays: int := 30
  const MsPerDay: int := 86400000

  function NoSuchStrategy(name: string): string {
    "未找到策略: " + name
  }

  function NoBacktestResult(name: string): string {
    "未找到策略 " + name + " 的回测结果"
  }

  function Started(name: string): string {
    "策略 " + name + " 已启动"
  }

  /** The `/run` answer: success, the message, and the strategy's settings. */
  datatype RunReport = RunReport(success: bool, message: string, strategy: StrategyParams)

  /**
   * The simulated backtest of `/backtest`: over the thirty days up to
   * `now`, from the requested capital (100000 when none is given) to
   * 110000, with 12 winning and 8 losing trades and no trade list.
   */
  function SimulatedBacktest(name: string, strategyType: StrategyType, initialCapital: Option<real>, now: int)
    : (r: BacktestResult)
    ensures r.strategyName == name && r.strategyType == strategyType
    ensures r.endDate == now && r.endDate - r.startDate == BacktestDays * MsPerDay
    ensures r.initialCapital == initialCapital.GetOr(DefaultInitialCapital)
    ensures initialCapital.None? ==> r.initialCapital == DefaultInitialCapital
    ensures r.finalCapital == SimulatedFinalCapital
    ensures r.totalTrades == r.winningTrades + r.losingTrades
    ensures r.equityCurve == [] && r.trades == []
  {
    BacktestResult(
      name, strategyType, now - BacktestDays * MsPerDay, now,
      initialCapital.GetOr(DefaultInitialCapital), SimulatedFinalCapital,
      0.1, 0.12, 1.5, 0.05, 0.6, 1.8,
      20, 12, 8, 1000.0, -500.0,
      [], [])
  }

  class StrategyState {
    var strategies: map<string, StrategyParams>
    var backtestResults: map<string, BacktestResult>

    /** Every strategy is filed under its own name. */
    ghost predicate Valid()
      reads this`strategies
    {
      forall n :: n in strategies ==> strategies[n].name == n
    }

    /** `StrategyState::new`: fresh settings for the two built-in strategies, no backtests. */
    constructor (now: int)
      ensures Valid()
      ensures strategies.Keys == {MomentumName, MeanReversionName} && backtestResults == map[]
      ensures strategies[MomentumName].strategyType == StrategyType.Momentum
      ensures strategies[MeanReversionName].strategyType == StrategyType.MeanReversion
      ensures !strategies[MomentumName].enabled && !strategies[MeanReversionName].enabled
      ensures fresh(strategies[MomentumName]) && fresh(strategies[MeanReversionName])
    {
      var momentum := new StrategyParams(MomentumName, StrategyType.Momentum, now);
      var meanReversion := new StrategyParams(MeanReversionName, StrategyType.MeanReversion, now);
      strategies := map[momentum.name := momentum, meanReversion.name := meanReversion];
      backtestResults := map[];
    }

    /** `/list`: the settings of every strategy, each once, in the map's own order. */
    method ListStrategies() returns (list: seq<StrategyParams>)
      requires Valid()
      ensures forall i :: 0 <= i < |list| ==> list[i].name in strategies && strategies[list[i].name] == list[i]
      ensures forall n :: n in strategies ==> strategies[n] in list
      ensures forall i, j :: 0 <= i < j < |list| ==> list[i].name != list[j].name
    {
      list := [];
      var pending := strategies.Keys;
      while pending != {}
        invariant pending <= strategies.Keys
        invariant forall i :: 0 <= i < |list| ==> list[i].name in strategies.Keys - pending && strategies[list[i].name] == list[i]
        invariant forall n :: n in strategies.Keys - pending ==> strategies[n] in list
        invariant forall i, j :: 0 <= i < j < |list| ==> list[i].name != list[j].name
        decreases |pending|
      {
        var n :| n in pending;
        ghost var before := list;
        list := list + [strategies[n]];
        assert forall i :: 0 <= i < |before| ==> list[i] == before[i];
        pending := pending - {n};
      }
    }

    /** `/detail/{name}`: the settings filed under the name, or 404. */
    method GetStrategy(name: string) returns (r: Result<StrategyParams, string>)
      ensures r.Ok? <==> name in strategies
      ensures r.Ok? ==> r.value == strategies[name]
      ensures r.Err? ==> r.error == NoSuchStrategy(name)
    {
      if name in strategies {
        r := Ok(strategies[name]);
      } else {
        r := Err(NoSuchStrategy(name));
      }
    }

    /** `/run`: reports the strategy as started, or 404; nothing is run and nothing changes. */
    method RunStrategy(name: string) returns (r: Result<RunReport, string>)
      ensures r.Ok? <==> name in strategies
      ensures r.Ok? ==> r.value == RunReport(true, Started(name), strategies[name])
      ensures r.Err? ==> r.error == NoSuchStrategy(name)
    {
      if name in strategies {
        r := Ok(RunReport(true, Started(name), strategies[name]));
      } else {
        r := Err(NoSuchStrategy(name));
      }
    }

    /**
     * `/backtest`: for a known strategy, the simulated result, stored under
     * the strategy's name in place of any earlier one; otherwise 404 and no
     * change.
     */
    method BacktestStrategy(name: string, initialCapital: Option<real>, now: int) returns (r: Result<BacktestResult, string>)
      requires Valid()
      modifies this`backtestResults
      ensures name !in strategies ==> r == Err(NoSuchStrategy(name)) && backtestResults == old(backtestResults)
      ensures name in strategies ==>
        r == Ok(SimulatedBacktest(name, strategies[name].strategyType, initialCapital, now))
        && backtestResults == old(backtestResults)[name := r.value]
    {
      if name !in strategies {
        return Err(NoSuchStrategy(name));
      }
      var strategy := strategies[name];
      var result := SimulatedBacktest(strategy.name, strategy.strategyType, initialCapital, now);
      backtestResults := backtestResults[strategy.name := result];
      r := Ok(result);
    }

    /** `/backtest_result/{name}`: the last result stored for the name, or 404. */
    method GetBacktestResult(name: string) returns (r: Result<BacktestResult, string>)
      ensures r.Ok? <==> name in backtestResults
      ensures r.Ok? ==> r.value == backtestResults[name]
      ensures r.Err? ==> r.error == NoBacktestResult(name)
    {
      if name in backtestResults {
        r := Ok(backtestResults[name]);
      } else {
        r := Err(NoBacktestResult(name));
      }
    }
  }

  /**
   * Asking for a backtest result first gives 404; after a backtest the same
   * result comes back, and a second backtest replaces it.
   */
  method BacktestThenRead(now: int, later: int) returns (before: Result<BacktestResult, string>,
                                                        first: Result<BacktestResult, string>,
                                                        stored: Result<BacktestResult, string>)
    ensures before == Err(NoBacktestResult(MomentumName))
    ensures first.Ok? && first.value.initialCapital == DefaultInitialCapital
    ensures stored.Ok? && stored.value.initialCapital == 5000.0 && stored.value.endDate == later
  {
    var s := new StrategyState(now);
    before := s.GetBacktestResult(MomentumName);
    first := s.BacktestStrategy(MomentumName, None, now);
    var second := s.BacktestStrategy(MomentumName, Some(5000.0), later);
    stored := s.GetBacktestResult(MomentumName);
  }
}
