/**
 * `parse_stock_data_from_json` (stockdata/src/parser.rs): every row the page
 * script returns for one tab becomes a partial `StockData`. Each field is read
 * from one row key with one parser, and only on the tabs whose branch of the
 * `match tab` assigns it; `name` and `price` are read on every tab.
 */
module RowParser {
  import opened Wrappers
  import opened StockRecord
  import FieldParser
  import Json
  import Tabs
  import Seqs

  /** How a row value becomes a field value. */
  datatype Parser =
    | F64          // parse_f64
    | Percentage   // parse_percentage
    | LargeNumber  // parse_large_number
    | Verbatim     // to_string
    | RatingText   // Rating::from_str

  function ParserKind(p: Parser): Kind
  {
    match p
    case F64 => NumKind
    case Percentage => NumKind
    case LargeNumber => IntKind
    case Verbatim => TextKind
    case RatingText => RatingKind
  }

  function Convert(p: Parser, s: string): (v: Value)
    ensures ValueKind(v) == ParserKind(p)
  {
    match p
    case F64 => Num(FieldParser.ParseF64(s))
    case Percentage => Num(FieldParser.ParsePercentage(s))
    case LargeNumber => Int(FieldParser.ParseLargeNumber(s))
    case Verbatim => Text(s)
    case RatingText => Rate(FieldParser.RatingFromStr(s))
  }

  /** The row key a field is read from (the same key on every tab that reads it). */
  function Key(f: Field): string
  {
    match f
    case Name => "name"
    case Price => "price"
    case ChangePercent => "changePercent"
    case Volume => "volume"
    case RelativeVolume => "relativeVolume"
    case MarketCap => "marketCap"
    case PeRatio => "peRatio"
    case Eps => "eps"
    case EarningsGrowth => "earningsGrowth"
    case DividendYield => "dividendYield"
    case Sector => "sector"
    case Rating => "rating"
    case Performance1w => "performance1w"
    case Performance1m => "performance1m"
    case Performance3m => "performance3m"
    case Performance6m => "performance6m"
    case PerformanceYtd => "performanceYtd"
    case Performance1y => "performance1y"
    case Performance5y => "performance5y"
    case Performance10y => "performance10y"
    case PerformanceAll => "performanceAll"
    case Volatility1w => "volatility1w"
    case Volatility1m => "volatility1m"
    case PreMarketClose => "preMarketClose"
    case PreMarketChange => "preMarketChange"
    case PreMarketGap => "preMarketGap"
    case PreMarketVolume => "preMarketVolume"
    case Gap => "gap"
    case VolumeChange => "volumeChange"
    case PostMarketClose => "postMarketClose"
    case PostMarketChange => "postMarketChange"
    case PostMarketVolume => "postMarketVolume"
    case MarketCapPerf1y => "marketCapPerf1y"
    case PegRatio => "pegRatio"
    case PriceToSales => "priceToSales"
    case PriceToBook => "priceToBook"
    case PriceToCashFlow => "priceToCashFlow"
    case PriceToFreeCashFlow => "priceToFreeCashFlow"
    case PriceToCash => "priceToCash"
    case EnterpriseValue => "enterpriseValue"
    case EvToRevenue => "evToRevenue"
    case EvToEbit => "evToEbit"
    case EvToEbitda => "evToEbitda"
    case DividendsPerShareYearly => "dividendsPerShareYearly"
    case DividendsPerShareQuarterly => "dividendsPerShareQuarterly"
    case DividendPayoutRatio => "dividendPayoutRatio"
    case DividendsPerShareGrowth => "dividendsPerShareGrowth"
    case ContinuousDividendPayout => "continuousDividendPayout"
    case ContinuousDividendGrowth => "continuousDividendGrowth"
    case GrossMargin => "grossMargin"
    case OperatingMargin => "operatingMargin"
    case ProfitMargin => "profitMargin"
    case PureMargin => "pureMargin"
    case FreeCashFlowMargin => "freeCashFlowMargin"
    case Roi => "roi"
    case Roe => "roe"
    case Roic => "roic"
    case RdRatio => "rdRatio"
    case SgaRatio => "sgaRatio"
    case TotalRevenue => "totalRevenue"
    case RevenueGrowth => "revenueGrowth"
    case GrossProfit => "grossProfit"
    case OperatingIncome => "operatingIncome"
    case NetIncome => "netIncome"
    case Ebitda => "ebitda"
    case EpsDiluted => "epsDiluted"
    case EpsDilutedGrowth => "epsDilutedGrowth"
    case TotalAssets => "totalAssets"
    case TotalCurrentAssets => "totalCurrentAssets"
    case CashAndShortTerm => "cashAndShortTerm"
    case TotalLiabilities => "totalLiabilities"
    case TotalDebt => "totalDebt"
    case NetDebt => "netDebt"
    case TotalEquity => "totalEquity"
    case CurrentRatio => "currentRatio"
    case QuickRatio => "quickRatio"
    case DebtToEquity => "debtToEquity"
    case CashToDebt => "cashToDebt"
    case OperatingCashFlow => "operatingCashFlow"
    case InvestingCashFlow => "investingCashFlow"
    case FinancingCashFlow => "financingCashFlow"
    case FreeCashFlow => "freeCashFlow"
    case CapitalExpenditures => "capitalExpenditures"
    case TechnicalRating => "technicalRating"
    case MaRating => "maRating"
    case OscillatorsRating => "oscillatorsRating"
    case Rsi14 => "rsi14"
    case Momentum10 => "momentum10"
    case AwesomeOscillator => "awesomeOscillator"
    case Cci20 => "cci20"
    case StochasticK => "stochasticK"
    case StochasticD => "stochasticD"
    case CandlestickPattern => "candlestickPattern"
  }

  /** The `f64` fields read with `parse_percentage` rather than `parse_f64`. */
  predicate IsPercentageField(f: Field)
  {
    match f
    case ChangePercent | EarningsGrowth | DividendYield | Performance1w | Performance1m
      | Performance3m | Performance6m | PerformanceYtd | Performance1y | Performance5y
      | Performance10y | PerformanceAll | PreMarketChange | PreMarketGap | Gap | VolumeChange
      | PostMarketChange | MarketCapPerf1y | DividendPayoutRatio | DividendsPerShareGrowth
      | GrossMargin | OperatingMargin | ProfitMargin | PureMargin | FreeCashFlowMargin | Roi
      | Roe | Roic | RdRatio | SgaRatio | RevenueGrowth | EpsDilutedGrowth => true
    case _ => false
  }

  /**
   * The parser applied to a field's text: `i64` fields use
   * `parse_large_number`, strings are copied, ratings use `Rating::from_str`.
   */
  function ParserOf(f: Field): (p: Parser)
    ensures ParserKind(p) == KindOf(f)
  {
    match KindOf(f)
    case NumKind => if IsPercentageField(f) then Percentage else F64
    case IntKind => LargeNumber
    case TextKind => Verbatim
    case RatingKind => RatingText
  }

  /** Whether the branch for `tab` (or the common prefix) assigns `f`. */
  predicate ReadOn(tab: Tabs.TabType, f: Field)
  {
    match f
    case Name | Price => true
    case ChangePercent => tab == Tabs.Overview || tab == Tabs.Performance
    case Volume | RelativeVolume | MarketCap | PeRatio | Eps | EarningsGrowth | DividendYield
      | Sector | Rating => tab == Tabs.Overview
    case Performance1w | Performance1m | Performance3m | Performance6m | PerformanceYtd
      | Performance1y | Performance5y | Performance10y | PerformanceAll | Volatility1w
      | Volatility1m => tab == Tabs.Performance
    case PreMarketClose | PreMarketChange | PreMarketGap | PreMarketVolume | Gap | VolumeChange
      | PostMarketClose | PostMarketChange | PostMarketVolume => tab == Tabs.ExtendedHours
    case MarketCapPerf1y | PegRatio | PriceToSales | PriceToBook | PriceToCashFlow
      | PriceToFreeCashFlow | PriceToCash | EnterpriseValue | EvToRevenue | EvToEbit
      | EvToEbitda => tab == Tabs.Valuation
    case DividendsPerShareYearly | DividendsPerShareQuarterly | DividendPayoutRatio
      | DividendsPerShareGrowth | ContinuousDividendPayout | ContinuousDividendGrowth => tab == Tabs.Dividends
    case GrossMargin | OperatingMargin | ProfitMargin | PureMargin | FreeCashFlowMargin | Roi
      | Roe | Roic | RdRatio | SgaRatio => tab == Tabs.Profitability
    case TotalRevenue | RevenueGrowth | GrossProfit | OperatingIncome | NetIncome | Ebitda
      | EpsDiluted | EpsDilutedGrowth => tab == Tabs.IncomeStatement
    case TotalAssets | TotalCurrentAssets | CashAndShortTerm | TotalLiabilities | TotalDebt
      | NetDebt | TotalEquity | CurrentRatio | QuickRatio | DebtToEquity | CashToDebt => tab == Tabs.BalanceSheet
    case OperatingCashFlow | InvestingCashFlow | FinancingCashFlow | FreeCashFlow
      | CapitalExpenditures => tab == Tabs.CashFlow
    case TechnicalRating | MaRating | OscillatorsRating | Rsi14 | Momentum10 | AwesomeOscillator
      | Cci20 | StochasticK | StochasticD | CandlestickPattern => tab == Tabs.Technicals
  }

  /**
   * The value field `f` gets from `item` on `tab`: the parsed string under
   * its key when the tab reads it and the key holds a string; the default
   * otherwise.
   */
  function RowValue(item: Json.Json, tab: Tabs.TabType, f: Field): (v: Value)
    ensures ValueKind(v) == KindOf(f)
  {
    if ReadOn(tab, f) && Json.GetStr(item, Key(f)).Some? then Convert(ParserOf(f), Json.GetStr(item, Key(f)).value)
    else DefaultFor(KindOf(f))
  }

  /** The record built from one row: `None` when the row has no string `code`. */
  function RowRecord(item: Json.Json, tab: Tabs.TabType): (r: Option<Record>)
    ensures r.Some? <==> Json.GetStr(item, "code").Some?
    ensures r.Some? ==> r.value.code == Json.GetStr(item, "code").value
    ensures r.Some? ==> forall f :: Get(r.value, f) == RowValue(item, tab, f)
  {
    match Json.GetStr(item, "code")
    case None => None
    case Some(code) =>
      var r: Record := StockData(code, map f | f in AllFieldSet && !IsDefault(RowValue(item, tab, f)) :: RowValue(item, tab, f));
      assert forall f :: Get(r, f) == RowValue(item, tab, f) by {
        forall f
          ensures Get(r, f) == RowValue(item, tab, f)
        {
          InAllFieldSet(f);
        }
      }
      Some(r)
  }

  /** An optional record as a list of zero or one. */
  function Listed(r: Option<Record>): seq<Record>
  {
    match r
    case Some(x) => [x]
    case None => []
  }

  /** The records built from `items`, in order, rows without a code skipped. */
  function Rows(items: seq<Json.Json>, tab: Tabs.TabType): (rows: seq<Record>)
    ensures |rows| <= |items|
  {
    if items == [] then [] else Rows(items[..|items| - 1], tab) + Listed(RowRecord(items[|items| - 1], tab))
  }

  /** The records `parse_stock_data_from_json` returns in its `Ok`. */
  function ParsedRows(js: Json.Json, tab: Tabs.TabType): (rows: seq<Record>)
    ensures |rows| <= if js.JArray? then |js.items| else 0
  {
    if js.JArray? then Rows(js.items, tab) else []
  }

  /**
   * `parse_stock_data_from_json`: for each row with a string `code`, a
   * default record gets that code and then every field its tab's branch
   * assigns, and is pushed; the result is always `Ok`.
   */
  method ParseStockDataFromJson(js: Json.Json, tab: Tabs.TabType) returns (result: Result<seq<Record>, string>)
    ensures result == Ok(ParsedRows(js, tab))
  {
    var stocks: seq<Record> := [];
    if js.JArray? {
      var items := js.items;
      var i := 0;
      while i < |items|
        invariant 0 <= i <= |items|
        invariant stocks == Rows(items[..i], tab)
      {
        var item := items[i];
        Seqs.TakeOneMore(items, i);
        var code := Json.GetStr(item, "code");
        if code.Some? {
          // The branch for `tab` assigns its fields to a default record carrying the code.
          var stock := RowRecord(item, tab).value;
          stocks := stocks + [stock];
        }
        i := i + 1;
      }
      assert items[..i] == items;
    }
    result := Ok(stocks);
  }

  /** The last row's record comes last. */
  lemma RowsSnoc(items: seq<Json.Json>, tab: Tabs.TabType)
    requires items != []
    ensures Rows(items, tab) == Rows(items[..|items| - 1], tab) + Listed(RowRecord(items[|items| - 1], tab))
  {
  }

  /** Parsing two batches of rows equals parsing their concatenation: order is kept. */
  lemma {:induction false} RowsAppend(a: seq<Json.Json>, b: seq<Json.Json>, tab: Tabs.TabType)
    ensures Rows(a + b, tab) == Rows(a, tab) + Rows(b, tab)
    decreases |b|
  {
    if b == [] {
      assert a + b == a;
    } else {
      var init := b[..|b| - 1];
      var last := Listed(RowRecord(b[|b| - 1], tab));
      assert Rows(a + b, tab) == Rows(a + init, tab) + last by {
        assert (a + b)[..|a + b| - 1] == a + init;
        assert (a + b)[|a + b| - 1] == b[|b| - 1];
        RowsSnoc(a + b, tab);
      }
      RowsAppend(a, init, tab);
      RowsSnoc(b, tab);
      Seqs.Associative(Rows(a, tab), Rows(init, tab), last);
    }
  }

  /** The rows that carry a string `code`, in order. */
  function Coded(items: seq<Json.Json>): (c: seq<Json.Json>)
    ensures |c| <= |items|
    ensures forall k :: 0 <= k < |c| ==> Json.GetStr(c[k], "code").Some?
  {
    if items == [] then []
    else
      var last := items[|items| - 1];
      Coded(items[..|items| - 1]) + (if Json.GetStr(last, "code").Some? then [last] else [])
  }

  /**
   * Rows without a string `code` are dropped and every other row yields one
   * record, in input order, carrying that row's code.
   */
  lemma {:induction false} RowsOfCoded(items: seq<Json.Json>, tab: Tabs.TabType)
    ensures |Rows(items, tab)| == |Coded(items)|
    ensures forall k :: 0 <= k < |Coded(items)| ==> RowRecord(Coded(items)[k], tab) == Some(Rows(items, tab)[k])
    ensures forall k :: 0 <= k < |Coded(items)| ==> Rows(items, tab)[k].code == Json.GetStr(Coded(items)[k], "code").value
  {
    if items != [] {
      RowsOfCoded(items[..|items| - 1], tab);
    }
  }

  /** Input that is not a JSON array yields no records. */
  lemma NotAnArray(js: Json.Json, tab: Tabs.TabType)
    requires !js.JArray?
    ensures ParsedRows(js, tab) == []
  {
  }

  /** `name` and `price` are read on every tab. */
  lemma NameAndPriceOnEveryTab(item: Json.Json, tab: Tabs.TabType, r: Record, name: string, price: string)
    requires RowRecord(item, tab) == Some(r)
    requires Json.GetStr(item, "name") == Some(name) && Json.GetStr(item, "price") == Some(price)
    ensures Get(r, Name) == Text(name)
    ensures Get(r, Price) == Num(FieldParser.ParseF64(price))
  {
  }

  /** A field its tab does not assign keeps its default, whatever the row holds. */
  lemma UnassignedStaysDefault(item: Json.Json, tab: Tabs.TabType, r: Record, f: Field)
    requires RowRecord(item, tab) == Some(r)
    requires !ReadOn(tab, f)
    ensures Get(r, f) == DefaultFor(KindOf(f))
  {
  }

  /** A value that is not a string leaves the field at its default. */
  lemma NonStringIgnored(item: Json.Json, tab: Tabs.TabType, r: Record, f: Field)
    requires RowRecord(item, tab) == Some(r)
    requires item.JObject? && Key(f) in item.fields && !item.fields[Key(f)].JString?
    ensures Get(r, f) == DefaultFor(KindOf(f))
  {
  }

  /** The Valuation branch never reads `marketCap` or `peRatio`, though the page supplies them. */
  lemma IgnoredOnValuation(item: Json.Json, r: Record)
    requires RowRecord(item, Tabs.Valuation) == Some(r)
    ensures Get(r, MarketCap) == Int(0) && Get(r, PeRatio) == Num(0.0)
  {
    UnassignedStaysDefault(item, Tabs.Valuation, r, MarketCap);
    UnassignedStaysDefault(item, Tabs.Valuation, r, PeRatio);
  }

  /** The Dividends branch never reads `dividendYield`. */
  lemma IgnoredOnDividends(item: Json.Json, r: Record)
    requires RowRecord(item, Tabs.Dividends) == Some(r)
    ensures Get(r, DividendYield) == Num(0.0)
  {
    UnassignedStaysDefault(item, Tabs.Dividends, r, DividendYield);
  }

  /** The ExtendedHours branch never reads `changePercent` or `volume`. */
  lemma IgnoredOnExtendedHours(item: Json.Json, r: Record)
    requires RowRecord(item, Tabs.ExtendedHours) == Some(r)
    ensures Get(r, ChangePercent) == Num(0.0) && Get(r, Volume) == Int(0)
  {
    UnassignedStaysDefault(item, Tabs.ExtendedHours, r, ChangePercent);
    UnassignedStaysDefault(item, Tabs.ExtendedHours, r, Volume);
  }

  /** A field its tab reads takes the parsed string under its key. */
  lemma ReadField(item: Json.Json, tab: Tabs.TabType, r: Record, f: Field, s: string)
    requires RowRecord(item, tab) == Some(r)
    requires ReadOn(tab, f) && Json.GetStr(item, Key(f)) == Some(s)
    ensures Get(r, f) == Convert(ParserOf(f), s)
  {
  }

  /** The three rating fields are read on Technicals, with `Rating::from_str`. */
  lemma RatingFields(f: Field)
    requires f == TechnicalRating || f == MaRating || f == OscillatorsRating
    ensures ReadOn(Tabs.Technicals, f) && ParserOf(f) == RatingText
  {
  }

  /** On Technicals the three ratings go through `Rating::from_str`. */
  lemma TechnicalsRatings(item: Json.Json, r: Record, f: Field, s: string)
    requires RowRecord(item, Tabs.Technicals) == Some(r)
    requires f == TechnicalRating || f == MaRating || f == OscillatorsRating
    requires Json.GetStr(item, Key(f)) == Some(s)
    ensures Get(r, f) == Rate(FieldParser.RatingFromStr(s))
  {
    RatingFields(f);
    ReadField(item, Tabs.Technicals, r, f, s);
    ConvertRating(s);
  }

  lemma ConvertRating(s: string)
    ensures Convert(RatingText, s) == Rate(FieldParser.RatingFromStr(s))
  {
  }

  /** On Technicals `candlestickPattern` is copied verbatim. */
  lemma TechnicalsPattern(item: Json.Json, r: Record, s: string)
    requires RowRecord(item, Tabs.Technicals) == Some(r)
    requires Json.GetStr(item, "candlestickPattern") == Some(s)
    ensures Get(r, CandlestickPattern) == Text(s)
  {
    ReadField(item, Tabs.Technicals, r, CandlestickPattern, s);
  }
}
