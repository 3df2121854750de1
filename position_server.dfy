/**
 * The portfolio handlers of the HTTP server (`server/src/position.rs`): a
 * `PositionState` holding a list of portfolios, to which `/add_portfolio`
 * appends, from which `/remove_portfolio` removes by name, and which
 * `/list` and `/query_portfolio` read.
 */
module PositionServer {
  import opened Wrappers
  import opened Positions

  const PortfolioExists: string := "投资组合已存在"
  const NoSuchPortfolio: string := "投资组合不存在"

  /** The portfolios' names in stored order. */
  function Names(ps: seq<Portfolio>): (names: seq<string>)
    ensures |names| == |ps| && forall i :: 0 <= i < |ps| ==> names[i] == ps[i].name
  {
    if ps == [] then [] else Names(ps[..|ps| - 1]) + [ps[|ps| - 1].name]
  }

  /** No two portfolios share a name. */
  predicate UniqueNames(ps: seq<Portfolio>) {
    forall i, j :: 0 <= i < j < |ps| ==> ps[i].name != ps[j].name
  }

  predicate HasName(ps: seq<Portfolio>, name: string) {
    exists i :: 0 <= i < |ps| && ps[i].name == name
  }

  /** `retain(|p| p.name != name)`: the portfolios with other names, in their order. */
  function Without(ps: seq<Portfolio>, name: string): (r: seq<Portfolio>)
    ensures |r| <= |ps|
    ensures forall i :: 0 <= i < |r| ==> r[i].name != name
  {
    if ps == [] then []
    else Without(ps[..|ps| - 1], name) + (if ps[|ps| - 1].name == name then [] else [ps[|ps| - 1]])
  }

  /** Removing one name from a list with unique names drops exactly one portfolio and keeps the rest in order. */
  lemma {:induction false} WithoutUnique(ps: seq<Portfolio>, name: string, k: nat)
    requires UniqueNames(ps) && k < |ps| && ps[k].name == name
    ensures Without(ps, name) == ps[..k] + ps[k + 1..]
  {
    var n := |ps| - 1;
    var init := ps[..n];
    if k == n {
      WithoutNone(init, name);
      assert ps[..k] + ps[k + 1..] == init;
    } else {
      WithoutUnique(init, name, k);
      assert ps[n].name != name;
      assert ps[..k] + ps[k + 1..] == init[..k] + init[k + 1..] + [ps[n]];
    }
  }

  /** A name nobody carries removes nothing. */
  lemma {:induction false} WithoutNone(ps: seq<Portfolio>, name: string)
    requires forall i :: 0 <= i < |ps| ==> ps[i].name != name
    ensures Without(ps, name) == ps
  {
    if ps != [] {
      WithoutNone(ps[..|ps| - 1], name);
    }
  }

  /** What `/query_portfolio` answers with. */
  datatype PortfolioView = PortfolioView(name: string, cashBalance: real, positions: map<string, Position>)

  /** Where `find` stops: the index of the first portfolio with the name, or `|ps|` when none has it. */
  function FirstNamed(ps: seq<Portfolio>, name: string): (i: nat)
    ensures i <= |ps|
    ensures i < |ps| ==> ps[i].name == name
    ensures forall j :: 0 <= j < i ==> ps[j].name != name
    ensures i < |ps| <==> HasName(ps, name)
  {
    if ps == [] then 0
    else if ps[0].name == name then 0
    else
      var i := 1 + FirstNamed(ps[1..], name);
      assert forall j :: 1 <= j < |ps| ==> ps[j] == ps[1..][j - 1];
      i
  }

  class PositionState {
    var portfolios: seq<Portfolio>

    ghost predicate Valid()
      reads this
    {
      UniqueNames(portfolios)
    }

    /** `PositionState::new`: no portfolios. */
    constructor ()
      ensures Valid() && portfolios == []
    {
      portfolios := [];
    }

    /** `/list`: the names in stored order. */
    method ListPositions() returns (names: seq<string>)
      ensures names == Names(portfolios)
    {
      names := [];
      var i := 0;
      while i < |portfolios|
        invariant 0 <= i <= |portfolios|
        invariant names == Names(portfolios[..i])
      {
        assert portfolios[..i + 1][..i] == portfolios[..i];
        names := names + [portfolios[i].name];
        i := i + 1;
      }
      assert portfolios[..i] == portfolios;
    }

    /** `/query_portfolio`: name, cash and positions of the first portfolio with the name. */
    method GetPortfolio(name: string) returns (r: Result<PortfolioView, string>)
      ensures r.Ok? <==> HasName(portfolios, name)
      ensures r.Err? ==> r.error == NoSuchPortfolio
      ensures r.Ok? ==> (FirstNamed(portfolios, name) < |portfolios|
        && r.value == PortfolioView(name, portfolios[FirstNamed(portfolios, name)].cashBalance,
                                    portfolios[FirstNamed(portfolios, name)].positions))
    {
      var i := FirstNamed(portfolios, name);
      if i == |portfolios| {
        r := Err(NoSuchPortfolio);
      } else {
        var p := portfolios[i];
        r := Ok(PortfolioView(p.name, p.cashBalance, p.positions));
      }
    }

    /** `/add_portfolio`: a name already present is refused; otherwise a new, empty portfolio is appended. */
    method AddPortfolio(name: string, cash: real, now: int) returns (r: Result<(), string>)
      requires Valid()
      modifies this
      ensures Valid()
      ensures old(HasName(portfolios, name)) ==> r == Err(PortfolioExists) && portfolios == old(portfolios)
      ensures !old(HasName(portfolios, name)) ==>
        r == Ok(()) && portfolios == old(portfolios) + [NewPortfolio(name, cash, now)]
    {
      if FirstNamed(portfolios, name) < |portfolios| {
        return Err(PortfolioExists);
      }
      portfolios := portfolios + [NewPortfolio(name, cash, now)];
      r := Ok(());
    }

    /** `/remove_portfolio`: an unknown name is refused; otherwise the one portfolio so named goes, the rest keep their order. */
    method RemovePortfolio(name: string) returns (r: Result<(), string>)
      requires Valid()
      modifies this
      ensures Valid()
      ensures !old(HasName(portfolios, name)) ==> r == Err(NoSuchPortfolio) && portfolios == old(portfolios)
      ensures old(HasName(portfolios, name)) ==>
        r == Ok(()) && exists k :: (0 <= k < |old(portfolios)| && old(portfolios)[k].name == name
          && portfolios == old(portfolios)[..k] + old(portfolios)[k + 1..])
    {
      var k := FirstNamed(portfolios, name);
      if k == |portfolios| {
        return Err(NoSuchPortfolio);
      }
      WithoutUnique(portfolios, name, k);
      portfolios := Without(portfolios, name);
      r := Ok(());
    }
  }
}
