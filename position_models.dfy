/**
 * The portfolio bookkeeping of the `position` crate
 * (`position/src/models.rs`): transactions, a position that is recomputed
 * from its transaction list, and a portfolio of positions keyed by stock
 * code with a cash balance. Amounts and prices are `real`; timestamps are
 * integers given by the caller, and a transaction's random id is a
 * parameter.
 */
module Positions {
  import opened Wrappers

  datatype TransactionType = Buy | Sell

  datatype Transaction = Transaction(
    id: string, code: string, kind: TransactionType, amount: real, price: real,
    timestamp: int, fee: Option<real>, note: Option<string>)

  /** `Transaction::new`: no fee and no note. */
  function NewTransaction(id: string, code: string, kind: TransactionType, amount: real, price: real, now: int)
    : (t: Transaction)
    ensures t.code == code && t.kind == kind && t.amount == amount && t.price == price
    ensures t.id == id && t.timestamp == now && t.fee.None? && t.note.None?
  {
    Transaction(id, code, kind, amount, price, now, None, None)
  }

  /** `Transaction::total_value`: amount times price, so never negative for a real trade and zero for an empty one. */
  function TotalValue(t: Transaction): (v: real)
    ensures t.amount >= 0.0 && t.price >= 0.0 ==> v >= 0.0
    ensures t.amount == 0.0 || t.price == 0.0 ==> v == 0.0
  {
    t.amount * t.price
  }

  datatype Position = Position(
    code: string, name: string, amount: real, cost: real,
    currentPrice: Option<real>, lastUpdate: int, transactions: seq<Transaction>)

  /** `Position::new`: no price known yet and no transactions. */
  function NewPosition(code: string, name: string, amount: real, cost: real, now: int): (p: Position)
    ensures p.code == code && p.name == name && p.amount == amount && p.cost == cost
    ensures p.currentPrice.None? && p.lastUpdate == now && p.transactions == []
  {
    Position(code, name, amount, cost, None, now, [])
  }

  /** `market_value`: known exactly when a current price is. */
  function MarketValue(p: Position): (v: Option<real>)
    ensures v.Some? <==> p.currentPrice.Some?
    ensures v.Some? ==> v.value == p.currentPrice.value * p.amount
  {
    match p.currentPrice
    case None => None
    case Some(price) => Some(price * p.amount)
  }

  /**
   * `Position::total_cost`: the average cost times the amount held. On a
   * position that agrees with its transactions this is what its buys cost,
   * or nothing once nothing is held.
   */
  function PositionCost(p: Position): (v: real)
    ensures Consistent(p) ==> v == (if p.amount > 0.0 then BoughtValue(p.transactions) else 0.0)
  {
    p.cost * p.amount
  }

  /** `profit_loss`: market value less cost, when a price is known. */
  function ProfitLoss(p: Position): (v: Option<real>)
    ensures v.Some? <==> p.currentPrice.Some?
  {
    match MarketValue(p)
    case None => None
    case Some(value) => Some(value - PositionCost(p))
  }

  /** `profit_loss_percent`: absent without a price, and absent when the cost is zero. */
  function ProfitLossPercent(p: Position): (v: Option<real>)
    ensures v.Some? <==> p.currentPrice.Some? && PositionCost(p) != 0.0
    ensures v.Some? ==> v.value == ProfitLoss(p).value / PositionCost(p) * 100.0
  {
    if PositionCost(p) == 0.0 then None
    else match ProfitLoss(p)
      case None => None
      case Some(pl) => Some(pl / PositionCost(p) * 100.0)
  }

  /** The profit is the price's margin over the average cost, per unit held. */
  lemma ProfitIsMarginTimesAmount(p: Position)
    requires p.currentPrice.Some?
    ensures ProfitLoss(p).value == (p.currentPrice.value - p.cost) * p.amount
    ensures p.amount > 0.0 ==> (ProfitLoss(p).value > 0.0 <==> p.currentPrice.value > p.cost)
  {
    var price := p.currentPrice.value;
    assert ProfitLoss(p).value == price * p.amount - p.cost * p.amount;
    if p.amount > 0.0 {
      PositiveFactor(price - p.cost, p.amount);
    }
  }

  lemma PositiveFactor(x: real, a: real)
    requires a > 0.0
    ensures x * a > 0.0 <==> x > 0.0
  {
  }

  /** The amount bought over a list of transactions. */
  function Bought(ts: seq<Transaction>): real {
    if ts == [] then 0.0
    else Bought(ts[..|ts| - 1]) + (if ts[|ts| - 1].kind == Buy then ts[|ts| - 1].amount else 0.0)
  }

  /** The amount sold over a list of transactions. */
  function Sold(ts: seq<Transaction>): real {
    if ts == [] then 0.0
    else Sold(ts[..|ts| - 1]) + (if ts[|ts| - 1].kind == Sell then ts[|ts| - 1].amount else 0.0)
  }

  /** What the buys cost in total; sells do not enter it. */
  function BoughtValue(ts: seq<Transaction>): real {
    if ts == [] then 0.0
    else BoughtValue(ts[..|ts| - 1]) + (if ts[|ts| - 1].kind == Buy then TotalValue(ts[|ts| - 1]) else 0.0)
  }

  /** The average cost: the buys' value spread over what is still held, or 0 when nothing is held. */
  function AverageCost(ts: seq<Transaction>): real {
    var held := Bought(ts) - Sold(ts);
    if held > 0.0 then BoughtValue(ts) / held else 0.0
  }

  /** A position whose amount and cost agree with its transactions. */
  predicate Consistent(p: Position) {
    p.amount == Bought(p.transactions) - Sold(p.transactions)
    && p.cost == AverageCost(p.transactions)
  }

  /**
   * `update_position_from_transactions`: amount and average cost recomputed
   * by one pass over the transactions.
   */
  method UpdateFromTransactions(p: Position, now: int) returns (q: Position)
    ensures Consistent(q)
    ensures q == p.(amount := q.amount, cost := q.cost, lastUpdate := now)
  {
    var ts := p.transactions;
    var totalAmount, totalCost := 0.0, 0.0;
    var i := 0;
    while i < |ts|
      invariant 0 <= i <= |ts|
      invariant totalAmount == Bought(ts[..i]) - Sold(ts[..i])
      invariant totalCost == BoughtValue(ts[..i])
    {
      assert ts[..i + 1][..i] == ts[..i];
      match ts[i].kind {
        case Buy =>
          totalAmount := totalAmount + ts[i].amount;
          totalCost := totalCost + ts[i].amount * ts[i].price;
        case Sell =>
          totalAmount := totalAmount - ts[i].amount;
      }
      i := i + 1;
    }
    assert ts[..i] == ts;
    var cost := if totalAmount > 0.0 then totalCost / totalAmount else 0.0;
    q := p.(amount := totalAmount, cost := cost, lastUpdate := now);
  }

  /** A position after one more transaction: the transaction is appended and everything recomputed. */
  function WithTransaction(p: Position, t: Transaction, now: int): (q: Position)
    ensures Consistent(q) && q.transactions == p.transactions + [t]
    ensures q.code == p.code && q.name == p.name && q.currentPrice == p.currentPrice && q.lastUpdate == now
  {
    var ts := p.transactions + [t];
    assert ts[..|ts| - 1] == p.transactions;
    p.(transactions := ts, amount := Bought(ts) - Sold(ts), cost := AverageCost(ts), lastUpdate := now)
  }

  /** `Position::add_transaction`. */
  method AddTransactionToPosition(p: Position, t: Transaction, now: int) returns (q: Position)
    ensures q == WithTransaction(p, t, now)
  {
    q := p.(transactions := p.transactions + [t]);
    q := UpdateFromTransactions(q, now);
  }

  /** On a consistent position a buy adds its amount and a sell takes its amount away. */
  lemma WithTransactionAmount(p: Position, t: Transaction, now: int)
    requires Consistent(p)
    ensures WithTransaction(p, t, now).amount == p.amount + (if t.kind == Buy then t.amount else -t.amount)
  {
    var ts := p.transactions + [t];
    assert ts[..|ts| - 1] == p.transactions;
  }

  /** Sells never change what the buys cost. */
  lemma {:induction false} SellsKeepBoughtValue(ts: seq<Transaction>, sells: seq<Transaction>)
    requires forall k :: 0 <= k < |sells| ==> sells[k].kind == Sell
    ensures BoughtValue(ts + sells) == BoughtValue(ts)
    ensures Bought(ts + sells) == Bought(ts)
  {
    if sells == [] {
      assert ts + sells == ts;
    } else {
      var init := sells[..|sells| - 1];
      assert (ts + sells)[..|ts + sells| - 1] == ts + init;
      assert (ts + sells)[|ts + sells| - 1] == sells[|sells| - 1];
      SellsKeepBoughtValue(ts, init);
    }
  }

  datatype Portfolio = Portfolio(
    name: string, positions: map<string, Position>, cashBalance: real, createdAt: int, lastUpdate: int)

  /** `Portfolio::new`: no positions. */
  function NewPortfolio(name: string, cash: real, now: int): (pf: Portfolio)
    ensures pf.name == name && pf.cashBalance == cash && pf.positions == map[]
    ensures pf.createdAt == now && pf.lastUpdate == now
  {
    Portfolio(name, map[], cash, now, now)
  }

  lemma KeyRemovedIsSmaller<V>(m: map<string, V>, c: string)
    requires c in m
    ensures |m - {c}| < |m|
  {
    assert m.Keys == (m - {c}).Keys + {c};
  }

  /**
   * `f` summed over the entries of `m`, taken in an unspecified order (the
   * source iterates a `HashMap`). `SumRemove` shows that the order does not
   * matter: any entry can be the one taken off.
   */
  ghost function Sum(m: map<string, Position>, f: Position -> real): real
    decreases |m|
  {
    if m == map[] then 0.0
    else
      var c :| c in m;
      KeyRemovedIsSmaller(m, c);
      f(m[c]) + Sum(m - {c}, f)
  }

  /** Whichever entry is taken first, the sum is that entry plus the sum of the rest. */
  lemma {:induction false} SumRemove(m: map<string, Position>, f: Position -> real, c: string)
    requires c in m
    ensures Sum(m, f) == f(m[c]) + Sum(m - {c}, f)
    decreases |m|
  {
    var d :| d in m && Sum(m, f) == f(m[d]) + Sum(m - {d}, f);
    if d != c {
      KeyRemovedIsSmaller(m, d);
      KeyRemovedIsSmaller(m, c);
      SumRemove(m - {d}, f, c);
      SumRemove(m - {c}, f, d);
      assert (m - {d}) - {c} == (m - {c}) - {d};
    }
  }

  lemma SumRemoveAny(m: map<string, Position>, f: Position -> real)
    ensures forall c :: c in m ==> Sum(m, f) == f(m[c]) + Sum(m - {c}, f)
  {
    forall c | c in m
      ensures Sum(m, f) == f(m[c]) + Sum(m - {c}, f)
    {
      SumRemove(m, f, c);
    }
  }

  /** Storing `v` under `k` adds `f(v)` to the sum and takes away the entry it replaces. */
  lemma SumUpdate(m: map<string, Position>, f: Position -> real, k: string, v: Position)
    ensures Sum(m[k := v], f) == Sum(m, f) + f(v) - (if k in m then f(m[k]) else 0.0)
  {
    SumRemove(m[k := v], f, k);
    assert m[k := v] - {k} == m - {k};
    if k in m {
      SumRemove(m, f, k);
    } else {
      assert m - {k} == m;
    }
  }

  /** What a position contributes to the market value: its value when priced, nothing otherwise. */
  function Priced(p: Position): (v: real)
    ensures p.currentPrice.Some? ==> v == MarketValue(p).value
    ensures p.currentPrice.None? ==> v == 0.0
  {
    match MarketValue(p) case None => 0.0 case Some(v) => v
  }

  /** The market value of the positions with a known price. */
  ghost function PricedValue(m: map<string, Position>): real {
    Sum(m, Priced)
  }

  /** The summed cost of the positions. */
  ghost function HeldCost(m: map<string, Position>): real {
    Sum(m, PositionCost)
  }

  /** `total_market_value`: priced positions plus cash, the order of the positions aside. */
  ghost function TotalMarketValue(pf: Portfolio): (v: real)
    ensures pf.positions == map[] ==> v == pf.cashBalance
    ensures forall c :: c in pf.positions ==>
      v == Priced(pf.positions[c]) + PricedValue(pf.positions - {c}) + pf.cashBalance
  {
    SumRemoveAny(pf.positions, Priced);
    PricedValue(pf.positions) + pf.cashBalance
  }

  /** `Portfolio::total_cost`: position costs plus cash, the order of the positions aside. */
  ghost function TotalCost(pf: Portfolio): (v: real)
    ensures pf.positions == map[] ==> v == pf.cashBalance
    ensures forall c :: c in pf.positions ==>
      v == PositionCost(pf.positions[c]) + HeldCost(pf.positions - {c}) + pf.cashBalance
  {
    SumRemoveAny(pf.positions, PositionCost);
    HeldCost(pf.positions) + pf.cashBalance
  }

  /** `total_profit_loss`: the cash balance cancels out. */
  ghost function TotalProfitLoss(pf: Portfolio): (v: real)
    ensures v == PricedValue(pf.positions) - HeldCost(pf.positions)
  {
    TotalMarketValue(pf) - TotalCost(pf)
  }

  /**
   * `total_profit_loss_percent`: absent exactly when the total cost is zero;
   * otherwise the percentage that, applied to the total cost, gives the
   * profit, positive on a gain over a positive cost.
   */
  ghost function TotalProfitLossPercent(pf: Portfolio): (v: Option<real>)
    ensures v.None? <==> TotalCost(pf) == 0.0
    ensures v.Some? ==> v.value * TotalCost(pf) == 100.0 * (TotalMarketValue(pf) - TotalCost(pf))
    ensures v.Some? && TotalCost(pf) > 0.0 ==> (v.value > 0.0 <==> TotalMarketValue(pf) > TotalCost(pf))
  {
    var cost, pl := TotalCost(pf), TotalProfitLoss(pf);
    if cost == 0.0 then None
    else
      PercentOfCost(pl, cost);
      Some(pl / cost * 100.0)
  }

  /** A percentage of a nonzero cost scales back to the amount it was taken of, and keeps its sign. */
  lemma PercentOfCost(amount: real, cost: real)
    requires cost != 0.0
    ensures amount / cost * 100.0 * cost == 100.0 * amount
    ensures cost > 0.0 ==> (amount / cost * 100.0 > 0.0 <==> amount > 0.0)
  {
    var q := amount / cost;
    assert q * cost == amount;
    if cost > 0.0 {
      assert q > 0.0 <==> amount > 0.0;
    }
  }

  /** A portfolio without positions is worth its cash, and has neither profit nor loss. */
  lemma EmptyPortfolioTotals(name: string, cash: real, now: int)
    ensures TotalMarketValue(NewPortfolio(name, cash, now)) == cash
    ensures TotalCost(NewPortfolio(name, cash, now)) == cash
    ensures TotalProfitLoss(NewPortfolio(name, cash, now)) == 0.0
  {
  }

  /** `add_position`: the entry under the position's code is inserted or overwritten. */
  function AddPosition(pf: Portfolio, p: Position, now: int): (r: Portfolio)
    ensures r.positions.Keys == pf.positions.Keys + {p.code} && r.positions[p.code] == p
    ensures forall c :: c in pf.positions && c != p.code ==> r.positions[c] == pf.positions[c]
    ensures r.name == pf.name && r.cashBalance == pf.cashBalance && r.lastUpdate == now
  {
    pf.(positions := pf.positions[p.code := p], lastUpdate := now)
  }

  datatype Removal = Removal(portfolio: Portfolio, removed: Option<Position>)

  /** `remove_position`: the entry under `code` is handed back and dropped; only a removal touches the timestamp. */
  function RemovePosition(pf: Portfolio, code: string, now: int): (r: Removal)
    ensures r.removed == (if code in pf.positions then Some(pf.positions[code]) else None)
    ensures r.portfolio.positions.Keys == pf.positions.Keys - {code}
    ensures forall c :: c in r.portfolio.positions ==> r.portfolio.positions[c] == pf.positions[c]
    ensures r.portfolio.lastUpdate == (if code in pf.positions then now else pf.lastUpdate)
    ensures r.portfolio.name == pf.name && r.portfolio.cashBalance == pf.cashBalance
  {
    if code in pf.positions then Removal(pf.(positions := pf.positions - {code}, lastUpdate := now), Some(pf.positions[code]))
    else Removal(pf, None)
  }

  /** Placing a position raises the totals by what it contributes, less what the entry it replaces contributed. */
  lemma {:induction false} AddPositionTotals(pf: Portfolio, p: Position, now: int)
    ensures TotalCost(AddPosition(pf, p, now)) == TotalCost(pf) + PositionCost(p)
      - (if p.code in pf.positions then PositionCost(pf.positions[p.code]) else 0.0)
    ensures TotalMarketValue(AddPosition(pf, p, now)) == TotalMarketValue(pf) + Priced(p)
      - (if p.code in pf.positions then Priced(pf.positions[p.code]) else 0.0)
  {
    assert AddPosition(pf, p, now).positions == pf.positions[p.code := p];
    SumUpdate(pf.positions, PositionCost, p.code, p);
    SumUpdate(pf.positions, Priced, p.code, p);
  }

  /** Removing a position lowers the totals by exactly what it contributed; a missing code changes nothing. */
  lemma {:induction false} RemovePositionTotals(pf: Portfolio, code: string, now: int)
    ensures TotalCost(RemovePosition(pf, code, now).portfolio) == TotalCost(pf)
      - (if code in pf.positions then PositionCost(pf.positions[code]) else 0.0)
    ensures TotalMarketValue(RemovePosition(pf, code, now).portfolio) == TotalMarketValue(pf)
      - (if code in pf.positions then Priced(pf.positions[code]) else 0.0)
  {
    if code in pf.positions {
      assert RemovePosition(pf, code, now).portfolio.positions == pf.positions - {code};
      SumRemove(pf.positions, PositionCost, code);
      SumRemove(pf.positions, Priced, code);
    }
  }

  const InsufficientCash: string := "现金余额不足"
  const InsufficientAmount: string := "持仓数量不足"
  const NoSuchPosition: string := "没有该股票的持仓"

  /** The name a position created by a first buy gets. */
  function UnknownStock(code: string): string {
    "Unknown Stock " + code
  }

  /**
   * `Portfolio::add_transaction`. A buy needs the cash for it and adds to
   * the position, opening one when there is none; a sell needs a position
   * holding at least the amount sold, and closes the position when nothing
   * is left. A refused transaction changes nothing.
   */
  function Applied(pf: Portfolio, t: Transaction, now: int): (r: Result<Portfolio, string>)
    ensures t.kind == Buy ==> (r.Err? <==> TotalValue(t) > pf.cashBalance)
    ensures t.kind == Buy && r.Err? ==> r.error == InsufficientCash
    ensures t.kind == Sell ==> (r.Err? <==> t.code !in pf.positions || pf.positions[t.code].amount < t.amount)
    ensures t.kind == Sell && r.Err? ==>
      r.error == if t.code in pf.positions then InsufficientAmount else NoSuchPosition
    ensures r.Ok? ==>
      r.value.name == pf.name && r.value.createdAt == pf.createdAt && r.value.lastUpdate == now
      && r.value.cashBalance == pf.cashBalance + (if t.kind == Buy then -TotalValue(t) else TotalValue(t))
      && (forall c :: c != t.code ==> (c in r.value.positions <==> c in pf.positions))
      && (forall c :: c != t.code && c in pf.positions ==> r.value.positions[c] == pf.positions[c])
    ensures r.Ok? && t.kind == Buy ==>
      t.code in r.value.positions
      && r.value.positions[t.code].transactions
         == (if t.code in pf.positions then pf.positions[t.code].transactions else []) + [t]
    ensures r.Ok? && t.kind == Buy ==>
      var q := r.value.positions[t.code];
      Consistent(q) && q.lastUpdate == now
      && (t.code in pf.positions ==>
            q.code == pf.positions[t.code].code && q.name == pf.positions[t.code].name
            && q.currentPrice == pf.positions[t.code].currentPrice)
      && (t.code !in pf.positions ==>
            q.code == t.code && q.name == UnknownStock(t.code) && q.currentPrice.None?)
    ensures r.Ok? && t.kind == Sell ==>
      var after := WithTransaction(pf.positions[t.code], t, now);
      (t.code in r.value.positions <==> after.amount != 0.0)
      && (t.code in r.value.positions ==> r.value.positions[t.code] == after)
  {
    match t.kind
    case Buy =>
      if TotalValue(t) > pf.cashBalance then Err(InsufficientCash)
      else
        var base := if t.code in pf.positions then pf.positions[t.code]
                    else NewPosition(t.code, UnknownStock(t.code), t.amount, t.price, now);
        Ok(pf.(cashBalance := pf.cashBalance - TotalValue(t),
               positions := pf.positions[t.code := WithTransaction(base, t, now)],
               lastUpdate := now))
    case Sell =>
      if t.code !in pf.positions then Err(NoSuchPosition)
      else if pf.positions[t.code].amount < t.amount then Err(InsufficientAmount)
      else
        var after := WithTransaction(pf.positions[t.code], t, now);
        Ok(pf.(cashBalance := pf.cashBalance + TotalValue(t),
               positions := if after.amount == 0.0 then pf.positions - {t.code} else pf.positions[t.code := after],
               lastUpdate := now))
  }

  /** `Portfolio::add_transaction`, with the position updated in place by its recomputing loop. */
  method AddTransaction(pf: Portfolio, t: Transaction, now: int) returns (r: Result<Portfolio, string>)
    ensures r == Applied(pf, t, now)
  {
    match t.kind {
      case Buy =>
        var cost := TotalValue(t);
        if cost > pf.cashBalance {
          return Err(InsufficientCash);
        }
        var position;
        if t.code in pf.positions {
          position := AddTransactionToPosition(pf.positions[t.code], t, now);
        } else {
          var first := NewPosition(t.code, UnknownStock(t.code), t.amount, t.price, now);
          position := AddTransactionToPosition(first, t, now);
        }
        r := Ok(pf.(cashBalance := pf.cashBalance - cost, positions := pf.positions[t.code := position], lastUpdate := now));
      case Sell =>
        if t.code !in pf.positions {
          return Err(NoSuchPosition);
        }
        if pf.positions[t.code].amount < t.amount {
          return Err(InsufficientAmount);
        }
        var position := AddTransactionToPosition(pf.positions[t.code], t, now);
        var positions := if position.amount == 0.0 then pf.positions - {t.code} else pf.positions[t.code := position];
        r := Ok(pf.(cashBalance := pf.cashBalance + TotalValue(t), positions := positions, lastUpdate := now));
    }
  }

  /** With non-negative amounts and prices the cash balance never goes below zero. */
  lemma CashNeverNegative(pf: Portfolio, t: Transaction, now: int)
    requires pf.cashBalance >= 0.0 && t.amount >= 0.0 && t.price >= 0.0
    ensures Applied(pf, t, now).Ok? ==> Applied(pf, t, now).value.cashBalance >= 0.0
  {
    assert TotalValue(t) >= 0.0;
  }

  /** Every position a portfolio holds agrees with its own transactions. */
  predicate AllConsistent(pf: Portfolio) {
    forall c :: c in pf.positions ==> Consistent(pf.positions[c])
  }

  /** Transactions keep every position consistent, the one they touch included. */
  lemma AppliedKeepsConsistent(pf: Portfolio, t: Transaction, now: int)
    requires AllConsistent(pf)
    ensures Applied(pf, t, now).Ok? ==> AllConsistent(Applied(pf, t, now).value)
  {
  }

  /**
   * Selling everything a consistent position holds closes it; a partial
   * sell leaves it open with the amount reduced.
   */
  lemma SellAllCloses(pf: Portfolio, t: Transaction, now: int)
    requires t.kind == Sell && t.code in pf.positions && Consistent(pf.positions[t.code])
    requires pf.positions[t.code].amount >= t.amount
    ensures Applied(pf, t, now).Ok?
    ensures t.code in Applied(pf, t, now).value.positions <==> pf.positions[t.code].amount != t.amount
    ensures t.code in Applied(pf, t, now).value.positions ==>
      Applied(pf, t, now).value.positions[t.code].amount == pf.positions[t.code].amount - t.amount
  {
    WithTransactionAmount(pf.positions[t.code], t, now);
  }
}
