/**
 * The two built-in strategies and the factory that registers them
 * (`strategy/src/strategy.rs`). The `Strategy` trait objects become one
 * class whose `kind` says which implementation it is; both keep their
 * settings in a `StrategyParams`. The tuning fields of the two structs are
 * private and only ever hold their defaults, so they are constants here.
 */
module Strategies {
  import opened Wrappers
  import opened Json
  import opened StrategyModels

  datatype StrategyKind = MomentumKind | MeanReversionKind

  const LookbackPeriod: int := 20
  const Threshold: real := 0.05
  const MaPeriod: int := 20
  const StdDevMultiplier: real := 2.0
  const SignalAmount: real := 100.0
  const MeanReversionStrength: real := 0.7

  const MomentumName: string := "动量策略"
  const MeanReversionName: string := "均值回归策略"

  /** The momentum rule for one stock: a rise above the threshold buys, a fall below its negation sells. */
  function MomentumSignal(code: string, s: StockSnapshot, timestamp: int): (r: Option<Signal>)
    ensures r.Some? ==>
      r.value.code == code && r.value.timestamp == timestamp
      && r.value.price == Some(s.price) && r.value.amount == Some(SignalAmount)
    ensures r.Some? ==> r.value.strength == Abs(s.changePercent) / 10.0
    ensures r.Some? ==> r.value.action != Hold
    ensures r.Some? ==> (r.value.action == Buy <==> r.value.reason == RoseAbove(Threshold * 100.0))
    ensures r.Some? ==> (r.value.action == Sell <==> r.value.reason == FellBelow(Threshold * 100.0))
  {
    if s.changePercent > Threshold then
      Some(Signal(code, timestamp, Buy, Some(s.price), Some(SignalAmount), RoseAbove(Threshold * 100.0), s.changePercent / 10.0))
    else if s.changePercent < -Threshold then
      Some(Signal(code, timestamp, Sell, Some(s.price), Some(SignalAmount), FellBelow(Threshold * 100.0), -s.changePercent / 10.0))
    else None
  }

  /** The mean-reversion rule for one stock, comparing the price with itself scaled by 1.1 and 0.9. */
  function MeanReversionSignal(code: string, s: StockSnapshot, timestamp: int): (r: Option<Signal>)
    ensures r.Some? ==>
      r.value.code == code && r.value.timestamp == timestamp
      && r.value.price == Some(s.price) && r.value.amount == Some(SignalAmount)
    ensures r.Some? ==> r.value.strength == MeanReversionStrength && r.value.action != Hold
    ensures r.Some? ==> (r.value.action == Sell <==> r.value.reason == AboveMean)
    ensures r.Some? ==> (r.value.action == Buy <==> r.value.reason == BelowMean)
  {
    if s.price > s.price * 1.1 then
      Some(Signal(code, timestamp, Sell, Some(s.price), Some(SignalAmount), AboveMean, MeanReversionStrength))
    else if s.price < s.price * 0.9 then
      Some(Signal(code, timestamp, Buy, Some(s.price), Some(SignalAmount), BelowMean, MeanReversionStrength))
    else None
  }

  function SignalFor(kind: StrategyKind, code: string, s: StockSnapshot, timestamp: int): Option<Signal>
  {
    match kind
    case MomentumKind => MomentumSignal(code, s, timestamp)
    case MeanReversionKind => MeanReversionSignal(code, s, timestamp)
  }

  /**
   * Momentum buys exactly above the threshold and sells exactly below its
   * negation; every signal is for the stock asked about, at the data's
   * time and price, for 100 shares, with strength a tenth of the move,
   * which is positive.
   */
  lemma MomentumRule(code: string, s: StockSnapshot, timestamp: int)
    ensures var r := MomentumSignal(code, s, timestamp);
      (r.Some? && r.value.action == Buy <==> s.changePercent > Threshold)
      && (r.Some? && r.value.action == Sell <==> s.changePercent < -Threshold)
      && (r.None? <==> -Threshold <= s.changePercent <= Threshold)
      && (r.Some? ==>
            r.value.code == code && r.value.timestamp == timestamp && r.value.price == Some(s.price)
            && r.value.amount == Some(100.0) && r.value.strength == Abs(s.changePercent) / 10.0
            && r.value.strength > 0.0)
  {
  }

  function Abs(x: real): (r: real)
    ensures r >= 0.0 && (r == x || r == -x)
  {
    if x < 0.0 then -x else x
  }

  /**
   * Over the reals `p > p * 1.1` holds only for negative prices and
   * `p < p * 0.9` then never gets its turn: mean reversion sells exactly
   * the stocks with a negative price and never buys.
   */
  lemma MeanReversionRule(code: string, s: StockSnapshot, timestamp: int)
    ensures var r := MeanReversionSignal(code, s, timestamp);
      (r.Some? <==> s.price < 0.0) && (r.Some? ==> r.value.action == Sell)
  {
  }

  /** The codes of a list of signals. */
  function SignalCodes(signals: seq<Signal>): (codes: set<string>)
    ensures forall i :: 0 <= i < |signals| ==> signals[i].code in codes
  {
    if signals == [] then {} else SignalCodes(signals[..|signals| - 1]) + {signals[|signals| - 1].code}
  }

  /** The codes among `codes` the rule gives a signal for. */
  function Firing(kind: StrategyKind, data: MarketData, codes: set<string>): set<string>
    requires codes <= data.stocks.Keys
  {
    set c | c in codes && SignalFor(kind, c, data.stocks[c], data.timestamp).Some?
  }

  /** Every signal is the rule's signal for a stock of the data. */
  predicate Faithful(kind: StrategyKind, data: MarketData, signals: seq<Signal>)
  {
    forall i :: 0 <= i < |signals| ==>
      signals[i].code in data.stocks
      && SignalFor(kind, signals[i].code, data.stocks[signals[i].code], data.timestamp) == Some(signals[i])
  }

  /** No stock has two signals. */
  predicate DistinctCodes(signals: seq<Signal>)
  {
    forall i, j :: 0 <= i < j < |signals| ==> signals[i].code != signals[j].code
  }

  /**
   * `generate_signals` of either strategy: the stocks are visited in the
   * map's own order, which the model leaves open, and each contributes the
   * rule's signal if it has one. So there is one signal per firing stock
   * and no other.
   */
  method GenerateSignals(kind: StrategyKind, data: MarketData) returns (signals: seq<Signal>)
    ensures SignalCodes(signals) == Firing(kind, data, data.stocks.Keys)
    ensures DistinctCodes(signals) && Faithful(kind, data, signals)
  {
    signals := [];
    var pending := data.stocks.Keys;
    ghost var seen: set<string> := {};
    while pending != {}
      invariant pending <= data.stocks.Keys && seen == data.stocks.Keys - pending
      invariant SignalCodes(signals) == Firing(kind, data, seen)
      invariant DistinctCodes(signals) && Faithful(kind, data, signals)
      decreases |pending|
    {
      var c :| c in pending;
      FiringStep(kind, data, data.stocks.Keys, pending, c);
      signals := Visit(kind, data, signals, c);
      pending := pending - {c};
      seen := seen + {c};
    }
    assert seen == data.stocks.Keys;
  }

  /** One turn of the loop: the rule's signal for `c`, if any, goes at the end. */
  method Visit(kind: StrategyKind, data: MarketData, signals: seq<Signal>, c: string) returns (next: seq<Signal>)
    requires DistinctCodes(signals) && Faithful(kind, data, signals)
    requires c in data.stocks && c !in SignalCodes(signals)
    ensures DistinctCodes(next) && Faithful(kind, data, next)
    ensures SignalCodes(next) ==
      SignalCodes(signals) + (if SignalFor(kind, c, data.stocks[c], data.timestamp).Some? then {c} else {})
  {
    next := signals;
    var signal := SignalFor(kind, c, data.stocks[c], data.timestamp);
    if signal.Some? {
      AppendSignal(kind, data, signals, signal.value);
      next := signals + [signal.value];
    }
  }

  /** Moving `c` from pending to seen adds it to the firing codes exactly when it fires. */
  lemma FiringStep(kind: StrategyKind, data: MarketData, all: set<string>, pending: set<string>, c: string)
    requires all == data.stocks.Keys && pending <= all && c in pending
    ensures all - (pending - {c}) == (all - pending) + {c}
    ensures c !in Firing(kind, data, all - pending)
    ensures Firing(kind, data, (all - pending) + {c}) ==
      Firing(kind, data, all - pending) + (if SignalFor(kind, c, data.stocks[c], data.timestamp).Some? then {c} else {})
  {
  }

  /** A signal for a stock not yet signalled keeps the list faithful and free of repeats. */
  lemma AppendSignal(kind: StrategyKind, data: MarketData, signals: seq<Signal>, signal: Signal)
    requires DistinctCodes(signals) && Faithful(kind, data, signals)
    requires signal.code !in SignalCodes(signals) && signal.code in data.stocks
    requires SignalFor(kind, signal.code, data.stocks[signal.code], data.timestamp) == Some(signal)
    ensures DistinctCodes(signals + [signal]) && Faithful(kind, data, signals + [signal])
    ensures SignalCodes(signals + [signal]) == SignalCodes(signals) + {signal.code}
  {
    assert (signals + [signal])[..|signals|] == signals;
  }

  /** One strategy: which rule it follows, and its settings. */
  class Strategy {
    const kind: StrategyKind
    const params: StrategyParams

    /** `MomentumStrategy::new`: disabled, with `lookback_period` 20 and `threshold` 0.05 recorded as parameters. */
    constructor Momentum(name: string, now: int)
      ensures kind == MomentumKind && fresh(params)
      ensures params.name == name && params.strategyType == StrategyType.Momentum && !params.enabled
      ensures params.params == map["lookback_period" := JInt(LookbackPeriod), "threshold" := JFloat(Threshold)]
    {
      var p := new StrategyParams(name, StrategyType.Momentum, now);
      var _ := p.SetParam("lookback_period", Ok(JInt(LookbackPeriod)), now);
      var _ := p.SetParam("threshold", Ok(JFloat(Threshold)), now);
      kind := MomentumKind;
      params := p;
    }

    /** `MeanReversionStrategy::new`: disabled, with `ma_period` 20 and `std_dev_multiplier` 2.0 recorded as parameters. */
    constructor MeanReversion(name: string, now: int)
      ensures kind == MeanReversionKind && fresh(params)
      ensures params.name == name && params.strategyType == StrategyType.MeanReversion && !params.enabled
      ensures params.params == map["ma_period" := JInt(MaPeriod), "std_dev_multiplier" := JFloat(StdDevMultiplier)]
    {
      var p := new StrategyParams(name, StrategyType.MeanReversion, now);
      var _ := p.SetParam("ma_period", Ok(JInt(MaPeriod)), now);
      var _ := p.SetParam("std_dev_multiplier", Ok(JFloat(StdDevMultiplier)), now);
      kind := MeanReversionKind;
      params := p;
    }

    /** `name`: the name the strategy was built with, which never changes. */
    function Name(): (n: string)
      ensures n == params.name
    {
      params.name
    }

    /** `is_enabled`: the flag `set_enabled` last stored, off when built. */
    function IsEnabled(): (b: bool)
      reads params`enabled
      ensures b == params.enabled
    {
      params.enabled
    }

    /** `set_enabled`: what `is_enabled` answers next; only that flag changes. */
    method SetEnabled(enabled: bool)
      modifies params`enabled
      ensures IsEnabled() == enabled
    {
      params.enabled := enabled;
    }

    /** `generate_signals`, by this strategy's rule. */
    method Signals(data: MarketData) returns (signals: seq<Signal>)
      ensures SignalCodes(signals) == Firing(kind, data, data.stocks.Keys)
      ensures DistinctCodes(signals) && Faithful(kind, data, signals)
    {
      signals := GenerateSignals(kind, data);
    }
  }

  /** `StrategyFactory`: strategies by name. */
  class StrategyFactory {
    var strategies: map<string, Strategy>

    /** `StrategyFactory::new`: the momentum and the mean-reversion strategy, under their names. */
    constructor (now: int)
      ensures strategies.Keys == {MomentumName, MeanReversionName}
      ensures strategies[MomentumName].kind == MomentumKind && strategies[MomentumName].Name() == MomentumName
      ensures strategies[MeanReversionName].kind == MeanReversionKind
        && strategies[MeanReversionName].Name() == MeanReversionName
    {
      var momentum := new Strategy.Momentum(MomentumName, now);
      var meanReversion := new Strategy.MeanReversion(MeanReversionName, now);
      strategies := map[];
      new;
      RegisterStrategy(momentum);
      RegisterStrategy(meanReversion);
    }

    /** `register_strategy`: filed under its name, replacing any strategy of the same name. */
    method RegisterStrategy(s: Strategy)
      modifies this`strategies
      ensures strategies == old(strategies)[s.Name() := s]
    {
      strategies := strategies[s.Name() := s];
    }

    /** `get_strategy`: the strategy filed under `name`, if any. */
    function GetStrategy(name: string): (r: Option<Strategy>)
      reads this`strategies
      ensures r.Some? <==> name in strategies
      ensures r.Some? ==> r.value == strategies[name]
    {
      if name in strategies then Some(strategies[name]) else None
    }

    /** `get_strategy_names`: each registered name once, in the map's own order. */
    method GetStrategyNames() returns (names: seq<string>)
      ensures forall i, j :: 0 <= i < j < |names| ==> names[i] != names[j]
      ensures forall n :: n in names <==> n in strategies
    {
      names := [];
      var pending := strategies.Keys;
      while pending != {}
        invariant pending <= strategies.Keys
        invariant forall n :: n in names <==> n in strategies.Keys - pending
        invariant forall i, j :: 0 <= i < j < |names| ==> names[i] != names[j]
        decreases |pending|
      {
        var n :| n in pending;
        assert n !in names;
        ghost var before := names;
        names := names + [n];
        assert forall i :: 0 <= i < |before| ==> names[i] == before[i];
        pending := pending - {n};
      }
    }
  }

  /** A registered strategy can be found again, and a name never registered is not found. */
  method RegisteredIsFound(now: int, name: string) returns (found: Option<Strategy>, missing: Option<Strategy>)
    requires name != MomentumName && name != MeanReversionName
    ensures found.Some? && found.value.Name() == name && found.value.kind == MeanReversionKind
    ensures missing == None
  {
    var factory := new StrategyFactory(now);
    missing := factory.GetStrategy(name);
    var s := new Strategy.MeanReversion(name, now);
    factory.RegisterStrategy(s);
    found := factory.GetStrategy(name);
  }
}
