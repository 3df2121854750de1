/**
 * The ten result tabs of the screener page (`TabType`, stockdata/src/tabs.rs):
 * their page identifiers, their display names and the order they are visited in.
 */
module Tabs {

  datatype TabType =
    | Overview
    | Performance
    | ExtendedHours
    | Valuation
    | Dividends
    | Profitability
    | IncomeStatement
    | BalanceSheet
    | CashFlow
    | Technicals

  /** `id()`: the identifier the page uses for the tab, a camel-case ASCII word. */
  function Id(t: TabType): (id: string)
    ensures id != [] && 'a' <= id[0] <= 'z'
    ensures forall i :: 0 <= i < |id| ==> 'a' <= id[i] <= 'z' || 'A' <= id[i] <= 'Z'
  {
    match t
    case Overview => "overview"
    case Performance => "performance"
    case ExtendedHours => "extendedHours"
    case Valuation => "valuation"
    case Dividends => "dividends"
    case Profitability => "profitability"
    case IncomeStatement => "incomeStatement"
    case BalanceSheet => "balanceSheet"
    case CashFlow => "cashFlow"
    case Technicals => "technicals"
  }

  /** `name()`: the caption shown on the tab, two to five CJK ideographs. */
  function Name(t: TabType): (n: string)
    ensures 2 <= |n| <= 5
    ensures forall i :: 0 <= i < |n| ==> '\U{4E00}' <= n[i] <= '\U{9FFF}'
  {
    match t
    case Overview => "概览"
    case Performance => "表现"
    case ExtendedHours => "延长时段"
    case Valuation => "估值"
    case Dividends => "股利"
    case Profitability => "盈利能力"
    case IncomeStatement => "损益表"
    case BalanceSheet => "资产负债表"
    case CashFlow => "现金流"
    case Technicals => "技术指标"
  }

  /** `all()`: every tab, in the order the scraper visits them. */
  function All(): (tabs: seq<TabType>)
    ensures |tabs| == 10
    ensures tabs[0] == Overview && tabs[9] == Technicals
  {
    [Overview, Performance, ExtendedHours, Valuation, Dividends,
     Profitability, IncomeStatement, BalanceSheet, CashFlow, Technicals]
  }

  /** The position of a tab in declaration order. */
  function Position(t: TabType): (i: nat)
    ensures i < 10
  {
    match t
    case Overview => 0
    case Performance => 1
    case ExtendedHours => 2
    case Valuation => 3
    case Dividends => 4
    case Profitability => 5
    case IncomeStatement => 6
    case BalanceSheet => 7
    case CashFlow => 8
    case Technicals => 9
  }

  /** `all()` lists the tabs in declaration order, so each one appears exactly once. */
  lemma AllInDeclarationOrder()
    ensures forall t :: All()[Position(t)] == t
    ensures forall i :: 0 <= i < |All()| ==> Position(All()[i]) == i
    ensures forall i, j :: 0 <= i < j < |All()| ==> All()[i] != All()[j]
  {
    forall i | 0 <= i < |All()|
      ensures Position(All()[i]) == i
    {
    }
  }

  /** In a sequence without repeats, an element that occurs at all occurs once. */
  lemma {:induction false} OnceIfDistinct<T>(s: seq<T>, x: T)
    requires forall i, j :: 0 <= i < j < |s| ==> s[i] != s[j]
    ensures multiset(s)[x] == (if x in s then 1 else 0)
  {
    if s != [] {
      var init, last := s[..|s| - 1], s[|s| - 1];
      assert s == init + [last];
      OnceIfDistinct(init, x);
      if x == last {
        assert x !in init by {
          forall k | 0 <= k < |init|
            ensures init[k] != x
          {
            assert init[k] == s[k];
          }
        }
      }
    }
  }

  /** Every tab is visited, exactly once. */
  lemma AllContainsEveryTab(t: TabType)
    ensures t in All()
    ensures multiset(All())[t] == 1
  {
    AllInDeclarationOrder();
    assert All()[Position(t)] == t;
    OnceIfDistinct(All(), t);
  }

  /** Distinct tabs have distinct identifiers. */
  lemma IdInjective(a: TabType, b: TabType)
    ensures Id(a) == Id(b) ==> a == b
  {
  }

  /** Distinct tabs have distinct captions. */
  lemma NameInjective(a: TabType, b: TabType)
    ensures Name(a) == Name(b) ==> a == b
  {
  }
}
