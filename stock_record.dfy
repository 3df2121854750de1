/**
 * One screener row (`StockData`, stockdata/src/models.rs) and the
 * field-by-field merge of two rows. Every field except `code` is a
 * constructor of `Field`; a record stores only the fields that differ from
 * their `Default` value, so "the field is at its default" is "the field is
 * not in the map".
 */
module StockRecord {
  import FieldParser

  /** The fields of `StockData` other than `code`, in declaration order. */
  datatype Field
    = Name | Price | ChangePercent | Volume | RelativeVolume | MarketCap | PeRatio | Eps
    | EarningsGrowth | DividendYield | Sector | Rating | Performance1w | Performance1m
    | Performance3m | Performance6m | PerformanceYtd | Performance1y | Performance5y
    | Performance10y | PerformanceAll | Volatility1w | Volatility1m | PreMarketClose
    | PreMarketChange | PreMarketGap | PreMarketVolume | Gap | VolumeChange | PostMarketClose
    | PostMarketChange | PostMarketVolume | MarketCapPerf1y | PegRatio | PriceToSales
    | PriceToBook | PriceToCashFlow | PriceToFreeCashFlow | PriceToCash | EnterpriseValue
    | EvToRevenue | EvToEbit | EvToEbitda | DividendsPerShareYearly | DividendsPerShareQuarterly
    | DividendPayoutRatio | DividendsPerShareGrowth | ContinuousDividendPayout
    | ContinuousDividendGrowth | GrossMargin | OperatingMargin | ProfitMargin | PureMargin
    | FreeCashFlowMargin | Roi | Roe | Roic | RdRatio | SgaRatio | TotalRevenue | RevenueGrowth
    | GrossProfit | OperatingIncome | NetIncome | Ebitda | EpsDiluted | EpsDilutedGrowth
    | TotalAssets | TotalCurrentAssets | CashAndShortTerm | TotalLiabilities | TotalDebt
    | NetDebt | TotalEquity | CurrentRatio | QuickRatio | DebtToEquity | CashToDebt
    | OperatingCashFlow | InvestingCashFlow | FinancingCashFlow | FreeCashFlow
    | CapitalExpenditures | TechnicalRating | MaRating | OscillatorsRating | Rsi14 | Momentum10
    | AwesomeOscillator | Cci20 | StochasticK | StochasticD | CandlestickPattern

  /** The Rust type of a field: `f64`, `i64`, `String` or `Rating`. */
  datatype Kind = NumKind | IntKind | TextKind | RatingKind

  function KindOf(f: Field): Kind
  {
    match f
    case Volume | MarketCap | PreMarketVolume | PostMarketVolume | EnterpriseValue
    | ContinuousDividendPayout | ContinuousDividendGrowth | TotalRevenue | GrossProfit
    | OperatingIncome | NetIncome | Ebitda | TotalAssets | TotalCurrentAssets | CashAndShortTerm
    | TotalLiabilities | TotalDebt | NetDebt | TotalEquity | OperatingCashFlow
    | InvestingCashFlow | FinancingCashFlow | FreeCashFlow | CapitalExpenditures => IntKind
    case Name | Sector | CandlestickPattern => TextKind
    case Rating | TechnicalRating | MaRating | OscillatorsRating => RatingKind
    case _ => NumKind
  }

  datatype Value = Num(n: real) | Int(i: int) | Text(s: string) | Rate(r: FieldParser.Rating)

  function ValueKind(v: Value): Kind
  {
    match v
    case Num(_) => NumKind
    case Int(_) => IntKind
    case Text(_) => TextKind
    case Rate(_) => RatingKind
  }

  /** `Default::default()` for each kind: 0.0, 0, "" and `Rating::Unknown`. */
  function DefaultFor(k: Kind): (v: Value)
    ensures ValueKind(v) == k
  {
    match k
    case NumKind => Num(0.0)
    case IntKind => Int(0)
    case TextKind => Text("")
    case RatingKind => Rate(FieldParser.DefaultRating)
  }

  /** The test the merge applies: `== 0.0`, `== 0`, `is_empty()` or `== Rating::Unknown`. */
  predicate IsDefault(v: Value)
  {
    v == DefaultFor(ValueKind(v))
  }

  datatype RawRecord = StockData(code: string, fields: map<Field, Value>)

  /** Only non-default values are stored, each of its field's kind. */
  predicate WellFormed(r: RawRecord)
  {
    forall f | f in r.fields :: ValueKind(r.fields[f]) == KindOf(f) && !IsDefault(r.fields[f])
  }

  type Record = r: RawRecord | WellFormed(r) witness StockData("", map[])

  /** Every field, in declaration order (grouped so that indexing stays shallow). */
  const AllFields: seq<Field> :=
    (
      (([Name, Price, ChangePercent, Volume, RelativeVolume, MarketCap] + [PeRatio, Eps, EarningsGrowth, DividendYield, Sector, Rating])
       + ([Performance1w, Performance1m, Performance3m, Performance6m, PerformanceYtd, Performance1y] + [Performance5y, Performance10y, PerformanceAll, Volatility1w, Volatility1m, PreMarketClose]))
     + 
      (([PreMarketChange, PreMarketGap, PreMarketVolume, Gap, VolumeChange, PostMarketClose] + [PostMarketChange, PostMarketVolume, MarketCapPerf1y, PegRatio, PriceToSales, PriceToBook])
       + ([PriceToCashFlow, PriceToFreeCashFlow, PriceToCash, EnterpriseValue, EvToRevenue, EvToEbit] + [EvToEbitda, DividendsPerShareYearly, DividendsPerShareQuarterly, DividendPayoutRatio, DividendsPerShareGrowth, ContinuousDividendPayout])))
    + (
      (([ContinuousDividendGrowth, GrossMargin, OperatingMargin, ProfitMargin, PureMargin, FreeCashFlowMargin] + [Roi, Roe, Roic, RdRatio, SgaRatio, TotalRevenue])
       + ([RevenueGrowth, GrossProfit, OperatingIncome, NetIncome, Ebitda, EpsDiluted] + [EpsDilutedGrowth, TotalAssets, TotalCurrentAssets, CashAndShortTerm, TotalLiabilities, TotalDebt]))
     + 
      (([NetDebt, TotalEquity, CurrentRatio, QuickRatio, DebtToEquity, CashToDebt] + [OperatingCashFlow, InvestingCashFlow, FinancingCashFlow, FreeCashFlow, CapitalExpenditures, TechnicalRating])
       + ([MaRating, OscillatorsRating, Rsi14, Momentum10, AwesomeOscillator, Cci20] + [StochasticK, StochasticD, CandlestickPattern])))

  lemma AllFieldsComplete(f: Field)
    ensures f in AllFields
  {
  }

  /** Every field, as a set. */
  const AllFieldSet: set<Field> := set f | f in AllFields

  lemma InAllFieldSet(f: Field)
    ensures f in AllFieldSet
  {
    AllFieldsComplete(f);
  }

  /** The value of field `f`. */
  function Get(r: Record, f: Field): (v: Value)
    ensures ValueKind(v) == KindOf(f)
    ensures f !in r.fields <==> v == DefaultFor(KindOf(f))
  {
    if f in r.fields then r.fields[f] else DefaultFor(KindOf(f))
  }

  /** The assignment `stock.f = v`. */
  function Set(r: Record, f: Field, v: Value): (r': Record)
    requires ValueKind(v) == KindOf(f)
    ensures r'.code == r.code
    ensures Get(r', f) == v
    ensures forall g :: g != f ==> Get(r', g) == Get(r, g)
  {
    if IsDefault(v) then StockData(r.code, r.fields - {f}) else StockData(r.code, r.fields[f := v])
  }

  /** `StockData { code, ..Default::default() }`. */
  function NewRecord(code: string): (r: Record)
    ensures r.code == code
    ensures forall f :: Get(r, f) == DefaultFor(KindOf(f))
  {
    StockData(code, map[])
  }

  /** Two records with the same code and the same value in every field are equal. */
  lemma RecordsEqual(a: Record, b: Record)
    requires a.code == b.code
    requires forall f :: Get(a, f) == Get(b, f)
    ensures a == b
  {
    forall f | f in a.fields
      ensures f in b.fields && b.fields[f] == a.fields[f]
    {
      assert Get(a, f) == a.fields[f];
    }
    forall f | f in b.fields
      ensures f in a.fields
    {
      assert Get(b, f) == b.fields[f];
    }
    assert a.fields == b.fields;
  }

  /** One `if dest.f <is default> && src.f <is not default> { dest.f = src.f }` block. */
  function MergeField(d: Value, s: Value): (v: Value)
    requires ValueKind(d) == ValueKind(s)
    ensures !IsDefault(d) ==> v == d
    ensures IsDefault(d) ==> v == s
  {
    if IsDefault(d) && !IsDefault(s) then s else d
  }

  /**
   * The record `merge_stock_data(dest, src)` leaves in `dest`: its code, and
   * in every field the value of `dest` unless that is the default, in which
   * case the value of `src`.
   */
  function Merged(dest: Record, src: Record): (r: Record)
    ensures r.code == dest.code
    ensures forall f :: Get(r, f) == MergeField(Get(dest, f), Get(src, f))
  {
    StockData(dest.code, src.fields + dest.fields)
  }

  /** `merge_stock_data`: the fields are visited one at a time, in declaration order. */
  method MergeStockData(dest: Record, src: Record) returns (merged: Record)
    ensures merged == Merged(dest, src)
  {
    merged := dest;
    ghost var done: set<Field> := {};
    var rest := AllFields;
    forall f
      ensures f in rest
    {
      AllFieldsComplete(f);
    }
    while rest != []
      invariant forall f :: f in rest || f in done
      invariant MergedOn(merged, dest, src, done)
    {
      var f := rest[0];
      if IsDefault(Get(merged, f)) && !IsDefault(Get(src, f)) {
        MergeCopy(merged, dest, src, done, f);
        merged := Set(merged, f, Get(src, f));
      } else {
        MergeKeep(merged, dest, src, done, f);
      }
      done := done + {f};
      assert rest == [f] + rest[1..];
      rest := rest[1..];
    }
    MergedEverywhere(merged, dest, src, done);
  }

  /** `merged` is `dest` with the fields in `done` merged from `src`. */
  ghost predicate MergedOn(merged: Record, dest: Record, src: Record, done: set<Field>)
  {
    && merged.code == dest.code
    && forall f :: Get(merged, f) == if f in done then MergeField(Get(dest, f), Get(src, f)) else Get(dest, f)
  }

  /** A field block that copies from `src` keeps `MergedOn`, with that field added to `done`. */
  lemma MergeCopy(before: Record, dest: Record, src: Record, done: set<Field>, f: Field)
    requires MergedOn(before, dest, src, done)
    requires IsDefault(Get(before, f)) && !IsDefault(Get(src, f))
    ensures MergedOn(Set(before, f, Get(src, f)), dest, src, done + {f})
  {
    var after := Set(before, f, Get(src, f));
    forall g
      ensures Get(after, g) == if g in done + {f} then MergeField(Get(dest, g), Get(src, g)) else Get(dest, g)
    {
      if g != f {
        assert Get(after, g) == Get(before, g);
      }
    }
  }

  /** A field block that copies nothing keeps `MergedOn`, with that field added to `done`. */
  lemma MergeKeep(before: Record, dest: Record, src: Record, done: set<Field>, f: Field)
    requires MergedOn(before, dest, src, done)
    requires !(IsDefault(Get(before, f)) && !IsDefault(Get(src, f)))
    ensures MergedOn(before, dest, src, done + {f})
  {
    assert Get(before, f) == if f in done then MergeField(Get(dest, f), Get(src, f)) else Get(dest, f);
  }

  lemma MergedEverywhere(merged: Record, dest: Record, src: Record, done: set<Field>)
    requires forall f :: f in done
    requires MergedOn(merged, dest, src, done)
    ensures merged == Merged(dest, src)
  {
    RecordsEqual(merged, Merged(dest, src));
  }

  /** A field `dest` already holds is never overwritten, whatever `src` holds. */
  lemma MergeKeepsPopulated(dest: Record, src: Record, f: Field)
    requires !IsDefault(Get(dest, f))
    ensures Get(Merged(dest, src), f) == Get(dest, f)
  {
  }

  /**
   * The "missing" sentinel -404 is not the default, so once a field holds it
   * no later source can fill that field in.
   */
  lemma MissingBlocksLaterValues(dest: Record, src: Record, f: Field)
    requires Get(dest, f) == Num(FieldParser.MissingValue)
    ensures Get(Merged(dest, src), f) == Num(FieldParser.MissingValue)
  {
  }

  /** Merging the same source twice changes nothing the first merge did not. */
  lemma {:induction false} MergeIdempotent(dest: Record, src: Record)
    ensures Merged(Merged(dest, src), src) == Merged(dest, src)
  {
    RecordsEqual(Merged(Merged(dest, src), src), Merged(dest, src));
  }

  /** A record merged with itself is unchanged. */
  lemma {:induction false} MergeSelf(r: Record)
    ensures Merged(r, r) == r
  {
    RecordsEqual(Merged(r, r), r);
  }

  /** A fresh record contributes nothing, and filling a fresh record copies every field. */
  lemma {:induction false} MergeWithNew(r: Record, code: string)
    ensures Merged(r, NewRecord(code)) == r
    ensures Merged(NewRecord(code), r) == StockData(code, r.fields)
  {
    RecordsEqual(Merged(r, NewRecord(code)), r);
    RecordsEqual(Merged(NewRecord(code), r), StockData(code, r.fields));
  }

  /**
   * Merging three rows left to right equals merging the last two first: each
   * field ends up with the first non-default value among the three.
   */
  lemma {:induction false} MergeAssociative(a: Record, b: Record, c: Record)
    ensures Merged(Merged(a, b), c) == Merged(a, Merged(b, c))
  {
    RecordsEqual(Merged(Merged(a, b), c), Merged(a, Merged(b, c)));
  }
}
