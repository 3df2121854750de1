/**
 * The strategy crate's data (`strategy/src/models.rs`): strategy types,
 * `StrategyParams` with its JSON-valued parameter table, signals, market
 * data and backtest results. Serialising a parameter is `serde_json`'s
 * business and may fail; its outcome is an input of `SetParam`.
 */
module StrategyModels {
  import opened Wrappers
  import opened Json

  datatype StrategyType = Momentum | MeanReversion | PairTrading | FactorModel | Custom

  const DefaultMaxPositionSize: real := 0.1
  const DefaultMaxDrawdown: real := 0.2
  const DefaultStopLoss: real := 0.05
  const DefaultTakeProfit: real := 0.1

  /** A strategy's settings. Only `enabled`, the parameter table and `updated_at` ever change. */
  class StrategyParams {
    const name: string
    const description: string
    const strategyType: StrategyType
    var enabled: bool
    const createdAt: int
    var updatedAt: int
    const maxPositionSize: real
    const maxDrawdown: real
    const stopLoss: real
    const takeProfit: real
    var params: map<string, Json>

    /** `StrategyParams::new`: disabled, no description, no parameters, the default risk limits. */
    constructor (name: string, strategyType: StrategyType, now: int)
      ensures this.name == name && this.strategyType == strategyType
      ensures description == "" && !enabled && params == map[]
      ensures createdAt == now && updatedAt == now
      ensures maxPositionSize == DefaultMaxPositionSize && maxDrawdown == DefaultMaxDrawdown
      ensures stopLoss == DefaultStopLoss && takeProfit == DefaultTakeProfit
    {
      this.name := name;
      this.strategyType := strategyType;
      description := "";
      enabled := false;
      createdAt, updatedAt := now, now;
      maxPositionSize, maxDrawdown := DefaultMaxPositionSize, DefaultMaxDrawdown;
      stopLoss, takeProfit := DefaultStopLoss, DefaultTakeProfit;
      params := map[];
    }

    /**
     * `get_param`: the value under `key` decoded as the caller's type;
     * `None` when the key is absent or the value does not decode.
     */
    function GetParam<T>(key: string, decode: Json -> Option<T>): (r: Option<T>)
      reads this`params
      ensures key !in params ==> r == None
      ensures key in params ==> r == decode(params[key])
    {
      if key in params then decode(params[key]) else None
    }

    /**
     * `set_param`, given what serialising the value gave: on success the
     * key is inserted or overwritten and `updated_at` moves to `now`; on
     * failure the error is returned and nothing changes.
     */
    method SetParam(key: string, encoded: Result<Json, string>, now: int) returns (r: Result<(), string>)
      modifies this`params, this`updatedAt
      ensures encoded.Err? ==> r == Err(encoded.error) && params == old(params) && updatedAt == old(updatedAt)
      ensures encoded.Ok? ==> r == Ok(()) && params == old(params)[key := encoded.value] && updatedAt == now
    {
      match encoded
      case Err(e) =>
        r := Err(e);
      case Ok(v) =>
        params := params[key := v];
        updatedAt := now;
        r := Ok(());
    }
  }

  /**
   * `set_param` followed by `get_param`: a value that encoded is read back
   * as its decoding under the key it was set under; every other key reads as
   * before; and a failed encoding leaves every key reading as before.
   */
  method SetThenGetParam<T>(p: StrategyParams, key: string, encoded: Result<Json, string>, now: int,
                            decode: Json -> Option<T>)
    modifies p
    ensures encoded.Ok? ==> p.GetParam(key, decode) == decode(encoded.value)
    ensures forall k :: k != key ==> p.GetParam(k, decode) == old(p.GetParam(k, decode))
    ensures encoded.Err? ==> forall k :: p.GetParam(k, decode) == old(p.GetParam(k, decode))
  {
    var _ := p.SetParam(key, encoded, now);
  }

  datatype SignalAction = Buy | Sell | Hold

  /**
   * Why a signal was given. The text is `format!` of these: the momentum
   * reasons carry the threshold in percent.
   */
  datatype Reason = RoseAbove(percent: real) | FellBelow(percent: real) | AboveMean | BelowMean

  /** `Signal`: a suggestion to trade one stock. */
  datatype Signal = Signal(code: string, timestamp: int, action: SignalAction, price: Option<real>,
                           amount: Option<real>, reason: Reason, strength: real)

  /** The part of `StockSnapshot` the strategies read. */
  datatype StockSnapshot = StockSnapshot(code: string, name: string, price: real, open: real, high: real,
                                         low: real, volume: real, turnover: real, changePercent: real)

  /** `MarketData`: one moment's snapshots, keyed by code. */
  datatype MarketData = MarketData(timestamp: int, stocks: map<string, StockSnapshot>)

  datatype BacktestTrade = BacktestTrade(code: string, entryDate: int, entryPrice: real, entryAmount: real,
                                         exitDate: Option<int>, exitPrice: Option<real>, exitAmount: Option<real>,
                                         profitLoss: Option<real>, profitLossPercent: Option<real>,
                                         exitReason: Option<string>)

  datatype BacktestResult = BacktestResult(
    strategyName: string, strategyType: StrategyType, startDate: int, endDate: int,
    initialCapital: real, finalCapital: real,
    totalReturn: real, annualizedReturn: real, sharpeRatio: real, maxDrawdown: real, winRate: real, profitFactor: real,
    totalTrades: nat, winningTrades: nat, losingTrades: nat, avgProfit: real, avgLoss: real,
    equityCurve: seq<(int, real)>, trades: seq<BacktestTrade>)
}
