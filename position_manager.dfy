/**
 * `PositionManager` (`position/src/position_manager.rs`): one portfolio,
 * changed by buys and sells written as transactions and by price updates.
 */
module PositionManagement {
  import opened Wrappers
  import opened Positions

  const DefaultPortfolioName: string := "默认组合"
  const DefaultCash: real := 100000.0

  /** The message of a sell for a code that is not held. */
  function NotHeld(code: string): string {
    "持仓 " + code + " 不存在"
  }

  const NotEnoughHeld: string := "持仓数量不足, 当前持有 "

  /**
   * `list` holds the values of `m`, one per key, taken in the key order
   * `order`, which lists every key exactly once: the list's positions and the
   * map's keys correspond one to one.
   */
  ghost predicate ValuesInOrder(m: map<string, Position>, order: seq<string>, list: seq<Position>) {
    |order| == |list|
    && (forall i, j :: 0 <= i < j < |order| ==> order[i] != order[j])
    && (forall c :: c in m <==> c in order)
    && (forall i :: 0 <= i < |order| ==> order[i] in m && list[i] == m[order[i]])
  }

  /** Listing one more pending key keeps the listed part in order. */
  lemma ListOneMore(m: map<string, Position>, pending: set<string>, order: seq<string>, list: seq<Position>, c: string)
    requires pending <= m.Keys && c in pending
    requires ValuesInOrder(m - pending, order, list)
    ensures ValuesInOrder(m - (pending - {c}), order + [c], list + [m[c]])
  {
    var m' := m - (pending - {c});
    var order', list' := order + [c], list + [m[c]];
    assert c !in order;
    forall d
      ensures d in m' <==> d in order'
    {
      assert d in order' <==> d in order || d == c;
    }
    forall i | 0 <= i < |order'|
      ensures order'[i] in m' && list'[i] == m'[order'[i]]
    {
      if i < |order| {
        assert order'[i] == order[i] && list'[i] == list[i];
      }
    }
  }

  /** The positions after a price update: every held code with a new price gets it, nothing else changes. */
  function Repriced(positions: map<string, Position>, prices: map<string, real>, now: int): (r: map<string, Position>)
    ensures r.Keys == positions.Keys
    ensures forall c :: c in positions && c in prices ==>
      r[c] == positions[c].(currentPrice := Some(prices[c]), lastUpdate := now)
    ensures forall c :: c in positions && c !in prices ==> r[c] == positions[c]
  {
    map c | c in positions :: if c in prices then positions[c].(currentPrice := Some(prices[c]), lastUpdate := now) else positions[c]
  }

  /** `original` with the codes in `seen` repriced: how far `update_prices` has got. */
  function RepricedUpTo(original: map<string, Position>, prices: map<string, real>, seen: set<string>, now: int)
    : (r: map<string, Position>)
    ensures r.Keys == original.Keys
  {
    map c | c in original :: if c in seen && c in prices then original[c].(currentPrice := Some(prices[c]), lastUpdate := now) else original[c]
  }

  lemma RepriceStep(original: map<string, Position>, prices: map<string, real>, seen: set<string>, c: string, now: int)
    requires c in prices && c !in seen
    ensures var before := RepricedUpTo(original, prices, seen, now);
      RepricedUpTo(original, prices, seen + {c}, now)
      == if c in before then before[c := before[c].(currentPrice := Some(prices[c]), lastUpdate := now)] else before
  {
  }

  lemma RepricedNothing(original: map<string, Position>, prices: map<string, real>, now: int)
    ensures RepricedUpTo(original, prices, {}, now) == original
  {
  }

  lemma RepricedEverywhere(original: map<string, Position>, prices: map<string, real>, now: int)
    ensures RepricedUpTo(original, prices, prices.Keys, now) == Repriced(original, prices, now)
  {
  }

  /** Taking `c` from the codes still pending adds it to those seen. */
  lemma SeenStep(all: set<string>, pending: set<string>, c: string)
    requires pending <= all && c in pending
    ensures all - (pending - {c}) == (all - pending) + {c}
    ensures c !in all - pending
  {
  }

  /** One more code seen: the held codes among those seen grow by it exactly when it is held. */
  lemma TallyStep(seen: set<string>, held: set<string>, c: string)
    requires c !in seen
    ensures |(seen + {c}) * held| == |seen * held| + (if c in held then 1 else 0)
  {
    if c in held {
      assert (seen + {c}) * held == seen * held + {c};
    } else {
      assert (seen + {c}) * held == seen * held;
    }
  }

  /** One step of `update_prices`: the position under `c`, if any, gets `price`. */
  method RepriceOne(positions: map<string, Position>, c: string, price: real, now: int)
    returns (r: map<string, Position>, held: bool)
    ensures held == (c in positions)
    ensures r == if held then positions[c := positions[c].(currentPrice := Some(price), lastUpdate := now)] else positions
  {
    held := c in positions;
    r := positions;
    if held {
      r := positions[c := positions[c].(currentPrice := Some(price), lastUpdate := now)];
    }
  }

  /** The loop of `update_prices`, over the portfolio's positions. */
  method Reprice(original: map<string, Position>, prices: map<string, real>, now: int)
    returns (positions: map<string, Position>, updated: nat)
    ensures positions == Repriced(original, prices, now)
    ensures updated == |prices.Keys * original.Keys|
  {
    positions := original;
    var pending := prices.Keys;
    ghost var seen: set<string> := {};
    RepricedNothing(original, prices, now);
    updated := 0;
    while pending != {}
      invariant pending <= prices.Keys && seen == prices.Keys - pending
      invariant positions == RepricedUpTo(original, prices, seen, now)
      invariant updated == |seen * original.Keys|
      decreases |pending|
    {
      var c :| c in pending;
      SeenStep(prices.Keys, pending, c);
      TallyStep(seen, original.Keys, c);
      RepriceStep(original, prices, seen, c, now);
      var held;
      positions, held := RepriceOne(positions, c, prices[c], now);
      if held {
        updated := updated + 1;
      }
      pending := pending - {c};
      seen := seen + {c};
    }
    assert seen == prices.Keys;
    RepricedEverywhere(original, prices, now);
  }

  class PositionManager {
    var portfolio: Portfolio

    /** `PositionManager::new`: the default portfolio with 100000 in cash and no positions. */
    constructor (now: int)
      ensures portfolio == NewPortfolio(DefaultPortfolioName, DefaultCash, now)
    {
      portfolio := NewPortfolio(DefaultPortfolioName, DefaultCash, now);
    }

    /** `add_position`: exactly a buy of `amount` at `price`. */
    method AddPosition(id: string, code: string, name: string, amount: real, price: real, now: int)
      returns (r: Result<(), string>)
      modifies this
      ensures var applied := Applied(old(portfolio), NewTransaction(id, code, Buy, amount, price, now), now);
        (r.Ok? <==> applied.Ok?) && (r.Err? ==> r.error == applied.error)
        && portfolio == (if applied.Ok? then applied.value else old(portfolio))
    {
      var t := NewTransaction(id, code, Buy, amount, price, now);
      var applied := AddTransaction(portfolio, t, now);
      match applied
      case Ok(pf) =>
        portfolio := pf;
        r := Ok(());
      case Err(e) =>
        r := Err(e);
    }

    /**
     * `remove_position`: refused when the code is not held or holds less
     * than `amount`; otherwise exactly a sell of `amount` at `price`.
     */
    method RemovePosition(id: string, code: string, amount: real, price: real, now: int)
      returns (r: Result<(), string>)
      modifies this
      ensures code !in old(portfolio).positions ==> r == Err(NotHeld(code)) && portfolio == old(portfolio)
      ensures code in old(portfolio).positions && old(portfolio).positions[code].amount < amount ==>
        r == Err(NotEnoughHeld) && portfolio == old(portfolio)
      ensures code in old(portfolio).positions && old(portfolio).positions[code].amount >= amount ==>
        var applied := Applied(old(portfolio), NewTransaction(id, code, Sell, amount, price, now), now);
        applied.Ok? && r == Ok(()) && portfolio == applied.value
    {
      if code !in portfolio.positions {
        return Err(NotHeld(code));
      }
      if portfolio.positions[code].amount < amount {
        return Err(NotEnoughHeld);
      }
      var t := NewTransaction(id, code, Sell, amount, price, now);
      var applied := AddTransaction(portfolio, t, now);
      match applied
      case Ok(pf) =>
        portfolio := pf;
        r := Ok(());
      case Err(e) =>
        r := Err(e);
    }

    /**
     * `update_prices`: every held code in `prices` gets its new price and
     * timestamp; codes not held are ignored. The count returned is the
     * number of held codes priced.
     */
    method UpdatePrices(prices: map<string, real>, now: int) returns (updated: nat)
      modifies this
      ensures portfolio == old(portfolio).(positions := Repriced(old(portfolio).positions, prices, now))
      ensures updated == |prices.Keys * old(portfolio).positions.Keys|
    {
      var positions;
      positions, updated := Reprice(portfolio.positions, prices, now);
      portfolio := portfolio.(positions := positions);
    }

    /** `get_positions`: every held position, one per code, in the map's own order. */
    method GetPositions() returns (list: seq<Position>)
      ensures |list| == |portfolio.positions|
      ensures forall i :: 0 <= i < |list| ==> list[i] in portfolio.positions.Values
      ensures forall c :: c in portfolio.positions ==> portfolio.positions[c] in list
      ensures exists order :: ValuesInOrder(portfolio.positions, order, list)
    {
      list := [];
      ghost var order: seq<string> := [];
      var pending := portfolio.positions.Keys;
      while pending != {}
        invariant pending <= portfolio.positions.Keys
        invariant |list| + |pending| == |portfolio.positions|
        invariant forall i :: 0 <= i < |list| ==> list[i] in portfolio.positions.Values
        invariant forall c :: c in portfolio.positions.Keys - pending ==> portfolio.positions[c] in list
        invariant ValuesInOrder(portfolio.positions - pending, order, list)
        decreases |pending|
      {
        var c :| c in pending;
        ListOneMore(portfolio.positions, pending, order, list, c);
        list := list + [portfolio.positions[c]];
        order := order + [c];
        pending := pending - {c};
      }
      assert portfolio.positions - pending == portfolio.positions;
    }

    /** `get_position`: the position held under `code`, if any. */
    method GetPosition(code: string) returns (p: Option<Position>)
      ensures p.Some? <==> code in portfolio.positions
      ensures p.Some? ==> p.value == portfolio.positions[code]
    {
      p := if code in portfolio.positions then Some(portfolio.positions[code]) else None;
    }
  }
}
