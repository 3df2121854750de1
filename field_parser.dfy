/**
 * The field parsers of the screener (stockdata/src/models.rs): the analyst
 * rating table and the three text-to-number conversions with their
 * sentinel values. `f64` is modelled as `real`, and Rust's
 * `str::parse::<f64>` as the decimal grammar `ParseDecimal`.
 */
module FieldParser {
  import opened Wrappers
  import opened Text
  import Seqs

  // ---------------------------------------------------------------------
  // Ratings
  // ---------------------------------------------------------------------

  datatype Rating = StrongBuy | Buy | Neutral | Sell | StrongSell | Unknown

  /** `Rating::default()`. */
  const DefaultRating: Rating := Unknown

  /** The page's label for each known rating, the table `Rating::from_str` recognises. */
  function RatingLabel(r: Rating): string
  {
    match r
    case StrongBuy => "强烈买入"
    case Buy => "买入"
    case Neutral => "中立"
    case Sell => "卖出"
    case StrongSell => "强烈卖出"
    case Unknown => ""
  }

  /** `Rating::from_str`: the trimmed text against the five labels, anything else `Unknown`. */
  function RatingFromStr(s: string): (r: Rating)
    ensures r != Unknown ==> Trim(s) == RatingLabel(r)
    ensures r == Unknown <==> forall k: Rating :: k != Unknown ==> Trim(s) != RatingLabel(k)
  {
    var t := Trim(s);
    if t == "强烈买入" then StrongBuy
    else if t == "买入" then Buy
    else if t == "中立" then Neutral
    else if t == "卖出" then Sell
    else if t == "强烈卖出" then StrongSell
    else Unknown
  }

  /** Every known rating is read back from its own label, also with surrounding blanks. */
  lemma RatingLabelRoundTrip(r: Rating, pre: string, post: string)
    requires r != Unknown
    requires forall i :: 0 <= i < |pre| ==> IsWhitespace(pre[i])
    requires forall i :: 0 <= i < |post| ==> IsWhitespace(post[i])
    ensures RatingFromStr(pre + RatingLabel(r) + post) == r
  {
    var txt := RatingLabel(r);
    assert |txt| > 0 && !IsWhitespace(txt[0]) && !IsWhitespace(txt[|txt| - 1]);
    TrimAround(pre, txt, post);
  }

  /** Trimming removes exactly a blank prefix and a blank suffix around a text with non-blank ends. */
  lemma TrimAround(pre: string, mid: string, post: string)
    requires |mid| > 0 && !IsWhitespace(mid[0]) && !IsWhitespace(mid[|mid| - 1])
    requires forall i :: 0 <= i < |pre| ==> IsWhitespace(pre[i])
    requires forall i :: 0 <= i < |post| ==> IsWhitespace(post[i])
    ensures Trim(pre + mid + post) == mid
  {
    var s := pre + mid + post;
    assert TrimStart(s) == mid + post by {
      assert (mid + post)[0] == mid[0];
      TrimStartBlankPrefix(pre, mid + post);
      Seqs.Associative(pre, mid, post);
    }
    assert TrimEnd(mid + post) == mid by {
      TrimEndBlankSuffix(mid, post);
    }
  }

  lemma {:induction false} TrimStartBlankPrefix(pre: string, rest: string)
    requires forall i :: 0 <= i < |pre| ==> IsWhitespace(pre[i])
    requires rest == [] || !IsWhitespace(rest[0])
    ensures TrimStart(pre + rest) == rest
  {
    if pre != [] {
      assert (pre + rest)[1..] == pre[1..] + rest;
      TrimStartBlankPrefix(pre[1..], rest);
    }
  }

  lemma {:induction false} TrimEndBlankSuffix(rest: string, post: string)
    requires forall i :: 0 <= i < |post| ==> IsWhitespace(post[i])
    requires rest == [] || !IsWhitespace(rest[|rest| - 1])
    ensures TrimEnd(rest + post) == rest
  {
    if post != [] {
      var s := rest + post;
      assert s[..|s| - 1] == rest + post[..|post| - 1];
      TrimEndBlankSuffix(rest, post[..|post| - 1]);
    }
  }

  // ---------------------------------------------------------------------
  // The decimal grammar standing in for `str::parse::<f64>`
  // ---------------------------------------------------------------------

  predicate IsDigit(c: char) { '0' <= c <= '9' }

  predicate AllDigits(s: string) { forall i :: 0 <= i < |s| ==> IsDigit(s[i]) }

  function DigitValue(c: char): nat
    requires IsDigit(c)
  {
    c as int - '0' as int
  }

  /** The value of a digit string read in base 10 (0 for the empty string). */
  function DigitsValue(s: string): nat
    requires AllDigits(s)
  {
    if s == [] then 0 else DigitsValue(s[..|s| - 1]) * 10 + DigitValue(s[|s| - 1])
  }

  /** The digits after the first '.', or nothing when there is no '.'. */
  function Fraction(s: string): string
  {
    var ip := Before(s, '.');
    if |ip| < |s| then s[|ip| + 1..] else []
  }

  /**
   * An unsigned decimal: digits, optionally followed by '.' and more digits,
   * with at least one digit in all ("5", "5.", ".5", "4.16").
   */
  predicate IsUnsignedDecimal(s: string)
  {
    AllDigits(Before(s, '.')) && AllDigits(Fraction(s)) && |Before(s, '.')| + |Fraction(s)| > 0
  }

  /** The value of the digits after the decimal point: 0.d1d2d3... */
  function FractionValue(s: string): (v: real)
    requires AllDigits(s)
    ensures 0.0 <= v <= 1.0
  {
    if s == [] then 0.0 else (DigitValue(s[0]) as real + FractionValue(s[1..])) / 10.0
  }

  function UnsignedValue(s: string): (v: real)
    requires IsUnsignedDecimal(s)
    ensures v >= 0.0
  {
    DigitsValue(Before(s, '.')) as real + FractionValue(Fraction(s))
  }

  /** `text.parse::<f64>()` on the decimal grammar: an optional '+' or '-', then an unsigned decimal. */
  function ParseDecimal(s: string): (r: Option<real>)
    ensures r.Some? <==> (if |s| > 0 && (s[0] == '+' || s[0] == '-') then IsUnsignedDecimal(s[1..]) else IsUnsignedDecimal(s))
  {
    if |s| > 0 && s[0] == '+' then
      (if IsUnsignedDecimal(s[1..]) then Some(UnsignedValue(s[1..])) else None)
    else if |s| > 0 && s[0] == '-' then
      (if IsUnsignedDecimal(s[1..]) then Some(-UnsignedValue(s[1..])) else None)
    else if IsUnsignedDecimal(s) then Some(UnsignedValue(s))
    else None
  }

  /** The grammar reads back what integer formatting writes. */
  lemma ParseDecimalOfNat(n: nat)
    ensures ParseDecimal(NatToString(n)) == Some(n as real)
  {
    var s := NatToString(n);
    assert '.' !in s by {
      forall i | 0 <= i < |s| ensures s[i] != '.' { }
    }
    BeforeAbsent(s, '.');
    DigitsOfNat(n);
    assert Fraction(s) == [];
    assert IsUnsignedDecimal(s);
    assert UnsignedValue(s) == n as real;
    assert s[0] != '+' && s[0] != '-';
  }

  lemma DigitOfDigitChar(d: nat)
    requires d < 10
    ensures IsDigit(DigitChar(d)) && DigitValue(DigitChar(d)) == d
  {
  }

  lemma {:induction false} DigitsOfNat(n: nat)
    ensures AllDigits(NatToString(n)) && DigitsValue(NatToString(n)) == n
  {
    var s := NatToString(n);
    if n < 10 {
      DigitOfDigitChar(n);
      assert s[..|s| - 1] == [];
    } else {
      DigitsOfNat(n / 10);
      DigitOfDigitChar(n % 10);
      assert s[..|s| - 1] == NatToString(n / 10);
    }
  }

  lemma {:induction false} BeforeAbsent(s: string, c: char)
    requires c !in s
    ensures Before(s, c) == s
  {
    if s != [] {
      BeforeAbsent(s[1..], c);
    }
  }

  // ---------------------------------------------------------------------
  // parse_f64, parse_percentage, parse_large_number
  // ---------------------------------------------------------------------

  /** Stored when a cell is empty or shows only a dash. */
  const MissingValue: real := -404.0
  /** Stored when a cell holds text that is not a number. */
  const ParseErrorValue: real := -500.0

  const EmDash: char := '—'
  const MinusSign: char := '−'

  /** The three glyphs that negate a value. */
  predicate IsNegativeGlyph(c: char) { c == '-' || c == EmDash || c == MinusSign }

  /** A cell showing no data: empty, or a lone dash glyph. */
  predicate IsNoData(s: string) { s == [] || s == [EmDash] || s == "-" || s == [MinusSign] }

  /** The cleaning `parse_f64` applies: trim, then drop '%', ',', "CNY", '"' and ' ' in that order. */
  function CleanDecimal(s: string): (r: string)
    ensures '%' !in r && ',' !in r && '"' !in r && ' ' !in r
    ensures |r| <= |s|
  {
    RemoveChar(RemoveChar(RemoveAll(RemoveChar(RemoveChar(Trim(s), '%'), ','), "CNY"), '"'), ' ')
  }

  /** The cleaning `parse_large_number` applies: as `CleanDecimal`, except that '%' is kept. */
  function CleanLarge(s: string): (r: string)
    ensures ',' !in r && '"' !in r && ' ' !in r
    ensures |r| <= |s|
  {
    RemoveChar(RemoveChar(RemoveAll(RemoveChar(Trim(s), ','), "CNY"), '"'), ' ')
  }

  /**
   * Whether the multiplier read from the first character of the cleaned text
   * is -1: a leading '+' keeps the sign, any of the three dashes flips it.
   */
  function IsNegated(s: string): (neg: bool)
    ensures neg <==> |s| > 0 && IsNegativeGlyph(s[0])
  {
    if StartsWith(s, "+") then false
    else if StartsWith(s, "-") then true
    else if StartsWith(s, [EmDash]) then true
    else if StartsWith(s, [MinusSign]) then true
    else false
  }

  /** Multiplication by the multiplier +1 or -1. */
  function ApplySign(negated: bool, v: real): real
  {
    if negated then -v else v
  }

  /** A glyph `StripSigns` cuts off: the plus sign or one of the three dashes. */
  predicate IsSignGlyph(c: char) { c == '+' || IsNegativeGlyph(c) }

  /** `r` is what is left of `s` once a leading run of sign glyphs is cut off. */
  predicate SignRunTail(s: string, r: string) {
    |r| <= |s| && r == s[|s| - |r|..] && forall i :: 0 <= i < |s| - |r| ==> IsSignGlyph(s[i])
  }

  lemma TrimSignGlyph(s: string, c: char)
    requires IsSignGlyph(c)
    ensures SignRunTail(s, TrimStartMatches(s, c))
  {
  }

  lemma {:induction false} SignRunTailTrans(s: string, a: string, b: string)
    requires SignRunTail(s, a) && SignRunTail(a, b)
    ensures SignRunTail(s, b)
  {
    forall i | 0 <= i < |s| - |b|
      ensures IsSignGlyph(s[i])
    {
      if i >= |s| - |a| {
        assert s[i] == a[i - (|s| - |a|)];
      }
    }
  }

  /**
   * `trim_start_matches` for '+', '-', '—' and '−', one after the other:
   * a tail of the text, cut after a run of sign glyphs, and the text itself
   * when it does not start with one.
   */
  function StripSigns(s: string): (r: string)
    ensures SignRunTail(s, r)
    ensures r == [] || r[0] != MinusSign
    ensures s == [] || !IsSignGlyph(s[0]) ==> r == s
  {
    var a := TrimStartMatches(s, '+');
    var b := TrimStartMatches(a, '-');
    var c := TrimStartMatches(b, EmDash);
    var d := TrimStartMatches(c, MinusSign);
    TrimSignGlyph(s, '+');
    TrimSignGlyph(a, '-');
    TrimSignGlyph(b, EmDash);
    TrimSignGlyph(c, MinusSign);
    SignRunTailTrans(s, a, b);
    SignRunTailTrans(s, b, c);
    SignRunTailTrans(s, c, d);
    d
  }

  /** `parse_f64`. */
  function ParseF64(s: string): (r: real)
    ensures IsNoData(CleanDecimal(s)) ==> r == MissingValue
    ensures !IsNoData(CleanDecimal(s)) && ParseDecimal(StripSigns(CleanDecimal(s))).None? ==> r == ParseErrorValue
  {
    var t := CleanDecimal(s);
    if IsNoData(t) then MissingValue
    else
      match ParseDecimal(StripSigns(t))
      case Some(v) => ApplySign(IsNegated(t), v)
      case None => ParseErrorValue
  }

  /** `parse_percentage`: the percentage as written, not divided by 100. */
  function ParsePercentage(s: string): (r: real)
    ensures r == ParseF64(s)
  {
    ParseF64(s)
  }

  /** `value as i64` for the finite values the parsers produce: truncation toward zero. */
  function TruncateToInt(x: real): (i: int)
    ensures x >= 0.0 ==> i as real <= x < i as real + 1.0
    ensures x < 0.0 ==> i as real - 1.0 < x <= i as real
  {
    if x >= 0.0 then x.Floor else -((-x).Floor)
  }

  /** The number before a suffix letter, scaled; 0 when it does not parse. */
  function ScaledPrefix(t: string, suffix: char, scale: real, negated: bool): real
  {
    match ParseDecimal(Trim(Before(t, suffix)))
    case Some(n) => ApplySign(negated, n * scale)
    case None => 0.0
  }

  /**
   * The signed value of a large number's magnitude text: the first of the
   * letters T, B, M, K it contains picks the scale, no letter means none.
   */
  function LargeMagnitude(t: string, neg: bool): real
  {
    if 'T' in t then ScaledPrefix(t, 'T', 1_000_000_000_000.0, neg)
    else if 'B' in t then ScaledPrefix(t, 'B', 1_000_000_000.0, neg)
    else if 'M' in t then ScaledPrefix(t, 'M', 1_000_000.0, neg)
    else if 'K' in t then ScaledPrefix(t, 'K', 1_000.0, neg)
    else match ParseDecimal(t) case Some(n) => ApplySign(neg, n) case None => 0.0
  }

  /** `parse_large_number`. */
  function ParseLargeNumber(s: string): (r: int)
    ensures IsNoData(CleanLarge(s)) ==> r == -404
  {
    var c := CleanLarge(s);
    if IsNoData(c) then -404
    else TruncateToInt(LargeMagnitude(StripSigns(c), IsNegated(c)))
  }

  // ---------------------------------------------------------------------
  // What the parsers make of the cells the screener shows
  // ---------------------------------------------------------------------

  /** The sign a cell may carry in front of its magnitude. */
  datatype SignMark = NoSign | Plus | Hyphen | Dash | Minus

  function MarkText(m: SignMark): string
  {
    match m
    case NoSign => ""
    case Plus => "+"
    case Hyphen => "-"
    case Dash => [EmDash]
    case Minus => [MinusSign]
  }

  /** The value a sign mark gives a magnitude: the three dash glyphs negate it. */
  function Signed(m: SignMark, v: real): real
  {
    ApplySign(m.Hyphen? || m.Dash? || m.Minus?, v)
  }

  /** The characters a signed decimal is written with. */
  predicate IsNumeralChar(c: char)
  {
    IsDigit(c) || c == '.' || c == '+' || IsNegativeGlyph(c)
  }

  /** The characters of an unsigned decimal: at least one, each a digit or '.'. */
  predicate IsMagnitude(d: string)
  {
    |d| > 0 && forall i :: 0 <= i < |d| ==> IsDigit(d[i]) || d[i] == '.'
  }

  /** A cell showing no data consists of dash glyphs only. */
  lemma NoDataIsDashes(s: string)
    ensures IsNoData(s) ==> forall i :: 0 <= i < |s| ==> IsNegativeGlyph(s[i])
  {
  }

  predicate IsNumeral(s: string)
  {
    forall i :: 0 <= i < |s| ==> IsNumeralChar(s[i])
  }

  /** The units a cell may follow its number with. */
  datatype Unit = NoUnit | Percent | Currency

  function UnitText(u: Unit): string
  {
    match u
    case NoUnit => ""
    case Percent => "%"
    case Currency => " CNY"
  }

  /**
   * A decimal with any of the accepted signs and an optional "%" or " CNY"
   * unit is read as its value, negated for each of the three dash glyphs.
   */
  lemma ParseF64OfDecimal(m: SignMark, d: string, u: Unit)
    requires IsUnsignedDecimal(d)
    ensures ParseF64(MarkText(m) + d + UnitText(u)) == Signed(m, UnsignedValue(d))
  {
    var t := MarkText(m) + d;
    CleanedDecimalFacts(m, d, u);
    ParseUnsignedDecimal(d);
    ParseF64Cleaned(t + UnitText(u), t, d, UnsignedValue(d));
  }

  lemma CleanedDecimalFacts(m: SignMark, d: string, u: Unit)
    requires IsUnsignedDecimal(d)
    ensures CleanDecimal(MarkText(m) + d + UnitText(u)) == MarkText(m) + d
    ensures !IsNoData(MarkText(m) + d)
    ensures StripSigns(MarkText(m) + d) == d
    ensures IsNegated(MarkText(m) + d) == (m.Hyphen? || m.Dash? || m.Minus?)
  {
    DecimalChars(d);
    SignedMagnitudeFacts(m, d);
    CleanDecimalOf(m, d, u);
  }

  /** A sign mark followed by a magnitude is data, with that sign and that magnitude. */
  lemma SignedMagnitudeFacts(m: SignMark, r: string)
    requires |r| > 0 && (IsDigit(r[0]) || r[0] == '.')
    ensures !IsNoData(MarkText(m) + r)
    ensures StripSigns(MarkText(m) + r) == r
    ensures IsNegated(MarkText(m) + r) == (m.Hyphen? || m.Dash? || m.Minus?)
  {
    MarkedIsData(m, r);
    StripSignsOf(m, r);
    NegatedPrefixed(m, r);
  }

  /** A sign mark followed by a magnitude is not a no-data cell. */
  lemma MarkedIsData(m: SignMark, r: string)
    requires |r| > 0 && (IsDigit(r[0]) || r[0] == '.')
    ensures !IsNoData(MarkText(m) + r)
  {
    var t := MarkText(m) + r;
    assert t[|MarkText(m)|] == r[0];
    NoDataIsDashes(t);
  }

  /** The same, for a text written as the mark, then the magnitude in two pieces. */
  lemma SignedMagnitudeAt(m: SignMark, a: string, b: string)
    requires |a| > 0 && (IsDigit(a[0]) || a[0] == '.')
    ensures !IsNoData(MarkText(m) + a + b) && StripSigns(MarkText(m) + a + b) == a + b
    ensures IsNegated(MarkText(m) + a + b) == (m.Hyphen? || m.Dash? || m.Minus?)
  {
    AppendAssociates(MarkText(m), a, b);
    SignedMagnitudeFacts(m, a + b);
  }

  lemma AppendAssociates(x: string, a: string, b: string)
    requires |a| > 0
    ensures x + a + b == x + (a + b) && (a + b)[0] == a[0]
  {
  }

  /** An unsigned decimal parses to its value. */
  lemma ParseUnsignedDecimal(d: string)
    requires IsUnsignedDecimal(d)
    ensures ParseDecimal(d) == Some(UnsignedValue(d))
  {
    DecimalChars(d);
    assert d[0] != '+' && d[0] != '-';
  }

  /** `parse_f64` in terms of the cleaned text, its magnitude and the magnitude's value. */
  lemma ParseF64Cleaned(s: string, t: string, r: string, v: real)
    requires CleanDecimal(s) == t && !IsNoData(t)
    requires StripSigns(t) == r && ParseDecimal(r) == Some(v)
    ensures ParseF64(s) == ApplySign(IsNegated(t), v)
  {
  }


  /** A signed decimal with a unit is cleaned down to the signed decimal. */
  lemma CleanDecimalOf(m: SignMark, d: string, u: Unit)
    requires IsMagnitude(d)
    ensures CleanDecimal(MarkText(m) + d + UnitText(u)) == MarkText(m) + d
  {
    NumeralOf(m, d);
    TrimSignedDecimal(m, d, u);
    if u == Currency {
      CleanCurrency(MarkText(m) + d);
    } else {
      CleanPlain(MarkText(m) + d, UnitText(u));
    }
  }

  lemma CleanPlain(sd: string, unit: string)
    requires IsNumeral(sd) && (unit == "" || unit == "%")
    requires Trim(sd + unit) == sd + unit
    ensures CleanDecimal(sd + unit) == sd
  {
    NonNumeralChars();
    var x1 := RemoveChar(sd + unit, '%');
    assert x1 == sd by { DropAppended(sd, unit, '%'); assert sd + "" == sd; }
    var x2 := RemoveChar(x1, ',');
    assert x2 == sd by { NotInNumeral(sd, ','); RemoveCharAbsent(sd, ','); }
    var x3 := RemoveAll(x2, "CNY");
    assert x3 == sd by {
      NotInNumeral(sd, 'C');
      RemoveAllAppend(sd, "", "CNY");
      assert sd + "" == sd;
    }
    var x4 := RemoveChar(x3, '"');
    assert x4 == sd by { NotInNumeral(sd, '"'); RemoveCharAbsent(sd, '"'); }
    var x5 := RemoveChar(x4, ' ');
    assert x5 == sd by { NotInNumeral(sd, ' '); RemoveCharAbsent(sd, ' '); }
  }

  lemma CleanCurrency(sd: string)
    requires IsNumeral(sd)
    requires Trim(sd + " CNY") == sd + " CNY"
    ensures CleanDecimal(sd + " CNY") == sd
  {
    var x3 := RemoveAll(RemoveChar(RemoveChar(Trim(sd + " CNY"), '%'), ','), "CNY");
    assert x3 == sd + " " by {
      CurrencyDropped(sd);
    }
    assert RemoveChar(RemoveChar(x3, '"'), ' ') == sd by {
      NonNumeralChars();
      var x4 := RemoveChar(x3, '"');
      assert x4 == sd + " " by { DropAppended(sd, " ", '"'); }
      assert RemoveChar(x4, ' ') == sd by { DropAppended(sd, " ", ' '); assert sd + "" == sd; }
    }
  }

  /** The first three cleaning steps leave a numeral with " CNY" as the numeral and a blank. */
  lemma CurrencyDropped(sd: string)
    requires IsNumeral(sd)
    requires Trim(sd + " CNY") == sd + " CNY"
    ensures RemoveAll(RemoveChar(RemoveChar(Trim(sd + " CNY"), '%'), ','), "CNY") == sd + " "
  {
    var x := sd + " CNY";
    assert RemoveChar(x, '%') == x by {
      CurrencyLacks('%');
      NotInNumeral(sd, '%');
      RemoveCharAbsent(x, '%');
    }
    assert RemoveChar(x, ',') == x by {
      CurrencyLacks(',');
      NotInNumeral(sd, ',');
      RemoveCharAbsent(x, ',');
    }
    assert RemoveAll(x, "CNY") == sd + " " by {
      NotInNumeral(sd, 'C');
      RemoveAllAppend(sd, " CNY", "CNY");
      RemoveAllCurrency();
    }
  }

  /** Neither '%' nor ',' occurs in the currency unit, and neither is part of a numeral. */
  lemma CurrencyLacks(c: char)
    requires c == '%' || c == ','
    ensures c !in " CNY" && !IsNumeralChar(c)
  {
    assert " CNY" == [' ', 'C', 'N', 'Y'];
  }

  /** Removing a character the numeral does not contain affects only the tail. */
  lemma DropAppended(sd: string, tail: string, c: char)
    requires IsNumeral(sd) && !IsNumeralChar(c)
    ensures RemoveChar(sd + tail, c) == sd + RemoveChar(tail, c)
  {
    NotInNumeral(sd, c);
    RemoveCharAppend(sd, tail, c);
    RemoveCharAbsent(sd, c);
  }

  lemma RemoveAllCurrency()
    ensures RemoveAll(" CNY", "CNY") == " "
  {
    assert !StartsWith(" CNY", "CNY");
    assert " CNY"[1..] == "CNY";
    assert StartsWith("CNY", "CNY");
    assert "CNY"[3..] == "";
  }

  lemma NumeralOf(m: SignMark, d: string)
    requires IsMagnitude(d)
    ensures IsNumeral(MarkText(m) + d)
  {
    var sd := MarkText(m) + d;
    forall i | 0 <= i < |sd| ensures IsNumeralChar(sd[i]) {
      if i >= |MarkText(m)| { assert sd[i] == d[i - |MarkText(m)|]; }
    }
  }

  lemma NonNumeralChars()
    ensures !IsNumeralChar('%') && !IsNumeralChar(',') && !IsNumeralChar('C') && !IsNumeralChar('"')
    ensures !IsNumeralChar(' ') && !IsNumeralChar('T') && !IsNumeralChar('B') && !IsNumeralChar('M')
    ensures !IsNumeralChar('K')
  {
  }

  lemma NotInNumeral(s: string, c: char)
    requires IsNumeral(s) && !IsNumeralChar(c)
    ensures c !in s
  {
  }

  lemma TrimSignedDecimal(m: SignMark, d: string, u: Unit)
    requires IsMagnitude(d)
    ensures Trim(MarkText(m) + d + UnitText(u)) == MarkText(m) + d + UnitText(u)
  {
    var x := MarkText(m) + d + UnitText(u);
    assert x[0] == (if m == NoSign then d[0] else MarkText(m)[0]);
    assert x[|x| - 1] == (if u == NoUnit then d[|d| - 1] else UnitText(u)[|UnitText(u)| - 1]);
    assert "" + x + "" == x;
    TrimAround("", x, "");
  }

  /** `IsNegated` reads the sign mark in front of a magnitude. */
  lemma NegatedPrefixed(m: SignMark, r: string)
    requires |r| > 0 && (IsDigit(r[0]) || r[0] == '.')
    ensures IsNegated(MarkText(m) + r) == (m.Hyphen? || m.Dash? || m.Minus?)
  {
    var x := MarkText(m) + r;
    if m == NoSign { assert x == r; } else { assert x[0] == MarkText(m)[0]; }
  }

  /** An unsigned decimal consists of digits and '.', and starts with one of them. */
  lemma DecimalChars(d: string)
    requires IsUnsignedDecimal(d)
    ensures IsMagnitude(d)
  {
    var ip := Before(d, '.');
    if |ip| < |d| {
      assert d == ip + ['.'] + Fraction(d);
    } else {
      assert d == ip;
    }
  }

  /** `StripSigns` removes exactly the one sign mark in front of a magnitude. */
  lemma StripSignsOf(m: SignMark, r: string)
    requires |r| > 0 && (IsDigit(r[0]) || r[0] == '.')
    ensures StripSigns(MarkText(m) + r) == r
  {
    match m
    case NoSign =>
      assert MarkText(m) + r == r;
      StripSignsOfMagnitude(r);
    case Plus =>
      StripPlus(r);
    case Hyphen =>
      StripHyphen(r);
    case Dash =>
      StripDash(r);
    case Minus =>
      StripMinus(r);
  }

  /** A magnitude has no sign to strip. */
  lemma StripSignsOfMagnitude(r: string)
    requires |r| > 0 && (IsDigit(r[0]) || r[0] == '.')
    ensures StripSigns(r) == r
  {
    TrimStartMatchesNone(r, '+');
    TrimStartMatchesNone(r, '-');
    TrimStartMatchesNone(r, EmDash);
    TrimStartMatchesNone(r, MinusSign);
  }

  lemma StripPlus(r: string)
    requires |r| > 0 && (IsDigit(r[0]) || r[0] == '.')
    ensures StripSigns("+" + r) == r
  {
    var x := "+" + r;
    assert x[1..] == r;
    assert TrimStartMatches(x, '+') == TrimStartMatches(r, '+');
    StripSignsOfMagnitude(r);
  }

  lemma StripHyphen(r: string)
    requires |r| > 0 && (IsDigit(r[0]) || r[0] == '.')
    ensures StripSigns("-" + r) == r
  {
    var x := "-" + r;
    assert x[1..] == r;
    TrimStartMatchesNone(x, '+');
    assert TrimStartMatches(x, '-') == TrimStartMatches(r, '-');
    StripSignsOfMagnitude(r);
  }

  lemma StripDash(r: string)
    requires |r| > 0 && (IsDigit(r[0]) || r[0] == '.')
    ensures StripSigns([EmDash] + r) == r
  {
    var x := [EmDash] + r;
    assert x[1..] == r;
    TrimStartMatchesNone(x, '+');
    TrimStartMatchesNone(x, '-');
    assert TrimStartMatches(x, EmDash) == TrimStartMatches(r, EmDash);
    StripSignsOfMagnitude(r);
  }

  lemma StripMinus(r: string)
    requires |r| > 0 && (IsDigit(r[0]) || r[0] == '.')
    ensures StripSigns([MinusSign] + r) == r
  {
    var x := [MinusSign] + r;
    assert x[1..] == r;
    TrimStartMatchesNone(x, '+');
    TrimStartMatchesNone(x, '-');
    TrimStartMatchesNone(x, EmDash);
    assert TrimStartMatches(x, MinusSign) == TrimStartMatches(r, MinusSign);
    StripSignsOfMagnitude(r);
  }

  lemma TrimStartMatchesNone(s: string, c: char)
    requires |s| > 0 && s[0] != c
    ensures TrimStartMatches(s, c) == s
  {
  }

  lemma {:induction false} RemoveCharAppend(a: string, b: string, c: char)
    ensures RemoveChar(a + b, c) == RemoveChar(a, c) + RemoveChar(b, c)
  {
    if a != [] {
      assert (a + b)[1..] == a[1..] + b;
      RemoveCharAppend(a[1..], b, c);
    } else {
      assert a + b == b;
    }
  }

  lemma {:induction false} RemoveCharAbsent(s: string, c: char)
    requires c !in s
    ensures RemoveChar(s, c) == s
  {
    if s != [] {
      RemoveCharAbsent(s[1..], c);
      assert s == [s[0]] + s[1..];
    }
  }

  /** A prefix without the pattern's first letter survives `RemoveAll` unchanged. */
  lemma {:induction false} RemoveAllAppend(a: string, b: string, pat: string)
    requires |pat| > 0 && pat[0] !in a
    ensures RemoveAll(a + b, pat) == a + RemoveAll(b, pat)
    decreases |a|
  {
    if a != [] {
      assert (a + b)[0] == a[0];
      assert !StartsWith(a + b, pat);
      assert (a + b)[1..] == a[1..] + b;
      RemoveAllAppend(a[1..], b, pat);
      assert a == [a[0]] + a[1..];
    } else {
      assert a + b == b;
    }
  }

  /** The suffix letters `parse_large_number` scales by, tried in this order. */
  datatype Suffix = NoSuffix | Trillion | Billion | Million | Thousand

  function SuffixText(k: Suffix): string
  {
    match k
    case NoSuffix => ""
    case Trillion => "T"
    case Billion => "B"
    case Million => "M"
    case Thousand => "K"
  }

  function SuffixScale(k: Suffix): real
  {
    match k
    case NoSuffix => 1.0
    case Trillion => 1_000_000_000_000.0
    case Billion => 1_000_000_000.0
    case Million => 1_000_000.0
    case Thousand => 1_000.0
  }

  /**
   * A signed decimal with a T, B, M or K suffix (or none) is scaled by
   * 10^12, 10^9, 10^6 or 10^3 and truncated toward zero.
   */
  lemma ParseLargeNumberOfDecimal(m: SignMark, d: string, k: Suffix)
    requires IsUnsignedDecimal(d)
    ensures ParseLargeNumber(MarkText(m) + d + SuffixText(k))
         == TruncateToInt(Signed(m, UnsignedValue(d) * SuffixScale(k)))
  {
    CleanedLargeFacts(m, d, k);
    LargeMagnitudeOf(d, k, m.Hyphen? || m.Dash? || m.Minus?);
  }

  lemma CleanedLargeFacts(m: SignMark, d: string, k: Suffix)
    requires IsUnsignedDecimal(d)
    ensures CleanLarge(MarkText(m) + d + SuffixText(k)) == MarkText(m) + d + SuffixText(k)
    ensures !IsNoData(MarkText(m) + d + SuffixText(k))
    ensures StripSigns(MarkText(m) + d + SuffixText(k)) == d + SuffixText(k)
    ensures IsNegated(MarkText(m) + d + SuffixText(k)) == (m.Hyphen? || m.Dash? || m.Minus?)
  {
    var x := MarkText(m) + d + SuffixText(k);
    assert !IsNoData(x) && StripSigns(x) == d + SuffixText(k) && IsNegated(x) == (m.Hyphen? || m.Dash? || m.Minus?) by {
      DecimalChars(d);
      SignedMagnitudeAt(m, d, SuffixText(k));
    }
    assert CleanLarge(x) == x by {
      DecimalChars(d);
      CleanLargeOf(m, d, k);
    }
  }

  /** The magnitude of a decimal with a suffix letter is the decimal times the letter's scale. */
  lemma LargeMagnitudeOf(d: string, k: Suffix, neg: bool)
    requires IsUnsignedDecimal(d)
    ensures LargeMagnitude(d + SuffixText(k), neg) == ApplySign(neg, UnsignedValue(d) * SuffixScale(k))
  {
    MagnitudeFacts(d);
    match k
    case NoSuffix =>
      assert d + SuffixText(k) == d;
      NoLetterMagnitude(d, neg, UnsignedValue(d));
    case Trillion =>
      TrillionCase(d, k, neg);
    case Billion =>
      BillionCase(d, k, neg);
    case Million =>
      MillionCase(d, k, neg);
    case Thousand =>
      ThousandCase(d, k, neg);
  }

  /** What an unsigned decimal is made of, in the terms `LargeMagnitude` tests. */
  lemma MagnitudeFacts(d: string)
    requires IsUnsignedDecimal(d)
    ensures IsMagnitude(d) && ParseDecimal(d) == Some(UnsignedValue(d))
    ensures 'T' !in d && 'B' !in d && 'M' !in d && 'K' !in d
  {
    DecimalChars(d);
    NonNumeralChars();
    NumeralOf(NoSign, d);
    assert "" + d == d;
    ParseUnsignedDecimal(d);
    NotInNumeral(d, 'T');
    NotInNumeral(d, 'B');
    NotInNumeral(d, 'M');
    NotInNumeral(d, 'K');
  }

  lemma TrillionCase(d: string, k: Suffix, neg: bool)
    requires k == Trillion
    requires IsUnsignedDecimal(d) && IsMagnitude(d) && ParseDecimal(d) == Some(UnsignedValue(d))
    requires 'T' !in d && 'B' !in d && 'M' !in d && 'K' !in d
    ensures LargeMagnitude(d + SuffixText(k), neg) == ApplySign(neg, UnsignedValue(d) * SuffixScale(k))
  {
    BeforeSuffix(d, 'T');
    assert SuffixText(k) == ['T'];
    TrillionMagnitude(d + SuffixText(k), neg, UnsignedValue(d));
  }

  lemma BillionCase(d: string, k: Suffix, neg: bool)
    requires k == Billion
    requires IsUnsignedDecimal(d) && IsMagnitude(d) && ParseDecimal(d) == Some(UnsignedValue(d))
    requires 'T' !in d && 'B' !in d && 'M' !in d && 'K' !in d
    ensures LargeMagnitude(d + SuffixText(k), neg) == ApplySign(neg, UnsignedValue(d) * SuffixScale(k))
  {
    BeforeSuffix(d, 'B');
    assert SuffixText(k) == ['B'];
    assert 'T' !in d + ['B'];
    BillionMagnitude(d + SuffixText(k), neg, UnsignedValue(d));
  }

  lemma MillionCase(d: string, k: Suffix, neg: bool)
    requires k == Million
    requires IsUnsignedDecimal(d) && IsMagnitude(d) && ParseDecimal(d) == Some(UnsignedValue(d))
    requires 'T' !in d && 'B' !in d && 'M' !in d && 'K' !in d
    ensures LargeMagnitude(d + SuffixText(k), neg) == ApplySign(neg, UnsignedValue(d) * SuffixScale(k))
  {
    BeforeSuffix(d, 'M');
    assert SuffixText(k) == ['M'];
    assert 'T' !in d + ['M'];
    assert 'B' !in d + ['M'];
    MillionMagnitude(d + SuffixText(k), neg, UnsignedValue(d));
  }

  lemma ThousandCase(d: string, k: Suffix, neg: bool)
    requires k == Thousand
    requires IsUnsignedDecimal(d) && IsMagnitude(d) && ParseDecimal(d) == Some(UnsignedValue(d))
    requires 'T' !in d && 'B' !in d && 'M' !in d && 'K' !in d
    ensures LargeMagnitude(d + SuffixText(k), neg) == ApplySign(neg, UnsignedValue(d) * SuffixScale(k))
  {
    BeforeSuffix(d, 'K');
    assert SuffixText(k) == ['K'];
    assert 'T' !in d + ['K'];
    assert 'B' !in d + ['K'];
    assert 'M' !in d + ['K'];
    ThousandMagnitude(d + SuffixText(k), neg, UnsignedValue(d));
  }

  lemma NoLetterMagnitude(t: string, neg: bool, n: real)
    requires 'T' !in t && 'B' !in t && 'M' !in t && 'K' !in t && ParseDecimal(t) == Some(n)
    ensures LargeMagnitude(t, neg) == ApplySign(neg, n * SuffixScale(NoSuffix))
  {
  }

  lemma TrillionMagnitude(t: string, neg: bool, n: real)
    requires 'T' in t && ParseDecimal(Trim(Before(t, 'T'))) == Some(n)
    ensures LargeMagnitude(t, neg) == ApplySign(neg, n * 1_000_000_000_000.0)
  {
  }

  lemma BillionMagnitude(t: string, neg: bool, n: real)
    requires 'T' !in t && 'B' in t && ParseDecimal(Trim(Before(t, 'B'))) == Some(n)
    ensures LargeMagnitude(t, neg) == ApplySign(neg, n * 1_000_000_000.0)
  {
  }

  lemma MillionMagnitude(t: string, neg: bool, n: real)
    requires 'T' !in t && 'B' !in t && 'M' in t && ParseDecimal(Trim(Before(t, 'M'))) == Some(n)
    ensures LargeMagnitude(t, neg) == ApplySign(neg, n * 1_000_000.0)
  {
  }

  lemma ThousandMagnitude(t: string, neg: bool, n: real)
    requires 'T' !in t && 'B' !in t && 'M' !in t && 'K' in t && ParseDecimal(Trim(Before(t, 'K'))) == Some(n)
    ensures LargeMagnitude(t, neg) == ApplySign(neg, n * 1_000.0)
  {
  }

  /** The text before a suffix letter that follows a decimal is that decimal. */
  lemma BeforeSuffix(d: string, c: char)
    requires IsMagnitude(d) && c !in d && !IsWhitespace(c)
    ensures c in d + [c]
    ensures Trim(Before(d + [c], c)) == d
  {
    assert (d + [c])[|d|] == c;
    BeforeAppend(d, [c], c);
    assert "" + d + "" == d;
    TrimAround("", d, "");
  }

  /** `CleanLarge` leaves a signed decimal with a suffix letter as it is. */
  lemma CleanLargeOf(m: SignMark, d: string, k: Suffix)
    requires IsMagnitude(d)
    ensures CleanLarge(MarkText(m) + d + SuffixText(k)) == MarkText(m) + d + SuffixText(k)
  {
    var sd := MarkText(m) + d;
    var x := sd + SuffixText(k);
    NumeralOf(m, d);
    NotInNumeral(sd, ',');
    NotInNumeral(sd, 'C');
    NotInNumeral(sd, '"');
    NotInNumeral(sd, ' ');
    assert ',' !in x && 'C' !in x && '"' !in x && ' ' !in x;
    TrimSignedLarge(m, d, k);
    RemoveCharAbsent(x, ',');
    RemoveAllAppend(x, "", "CNY");
    assert x + "" == x;
    RemoveCharAbsent(x, '"');
    RemoveCharAbsent(x, ' ');
  }

  lemma TrimSignedLarge(m: SignMark, d: string, k: Suffix)
    requires IsMagnitude(d)
    ensures Trim(MarkText(m) + d + SuffixText(k)) == MarkText(m) + d + SuffixText(k)
  {
    var x := MarkText(m) + d + SuffixText(k);
    assert x[0] == (if m == NoSign then d[0] else MarkText(m)[0]);
    assert x[|x| - 1] == (if k == NoSuffix then d[|d| - 1] else SuffixText(k)[0]);
    assert "" + x + "" == x;
    TrimAround("", x, "");
  }

  lemma {:induction false} BeforeAppend(a: string, b: string, c: char)
    requires c !in a && |b| > 0 && b[0] == c
    ensures Before(a + b, c) == a
  {
    if a != [] {
      assert (a + b)[1..] == a[1..] + b;
      BeforeAppend(a[1..], b, c);
    } else {
      assert a + b == b;
    }
  }

  /** Text the decimal grammar cannot read: the glyphs exactly as written are not a number. */
  lemma NotUnsignedDecimal(s: string, i: nat)
    requires i < |s| && !IsDigit(s[i]) && s[i] != '.'
    ensures !IsUnsignedDecimal(s)
  {
    var ip := Before(s, '.');
    if |ip| > i {
      assert ip[i] == s[i];
    } else if i > |ip| {
      assert |ip| < |s|;
      assert Fraction(s)[i - |ip| - 1] == s[i];
    }
  }

  /**
   * A word of lower-case letters other than the three Rust's `f64` parser
   * accepts ("inf", "infinity" and "nan").
   */
  predicate IsLowercaseWord(w: string)
  {
    |w| > 0 && (forall i :: 0 <= i < |w| ==> 'a' <= w[i] <= 'z')
    && w != "inf" && w != "infinity" && w != "nan"
  }

  /**
   * A cell holding a word instead of a number is reported as -500 by
   * `parse_f64`, while `parse_large_number` falls back to 0.
   */
  lemma ParseOfWord(w: string)
    requires IsLowercaseWord(w)
    ensures ParseF64(w) == ParseErrorValue
    ensures ParseLargeNumber(w) == 0
  {
    ParseF64OfWord(w);
    ParseLargeNumberOfWord(w);
  }

  lemma ParseF64OfWord(w: string)
    requires IsLowercaseWord(w)
    ensures ParseF64(w) == ParseErrorValue
  {
    WordCleaned(w);
    WordIsData(w);
    WordUnsigned(w);
    ParseF64CleanedError(w, w, w);
  }

  lemma ParseLargeNumberOfWord(w: string)
    requires IsLowercaseWord(w)
    ensures ParseLargeNumber(w) == 0
  {
    WordCleaned(w);
    WordIsData(w);
    WordUnsigned(w);
    WordHasNoSuffixLetter(w);
    UnreadableLarge(w, w);
  }

  lemma WordCleaned(w: string)
    requires IsLowercaseWord(w)
    ensures CleanDecimal(w) == w && CleanLarge(w) == w
  {
    assert !IsWhitespace(w[0]) && !IsWhitespace(w[|w| - 1]);
    assert "" + w + "" == w;
    TrimAround("", w, "");
    CleanIdentities(w);
  }

  lemma WordHasNoSuffixLetter(w: string)
    requires IsLowercaseWord(w)
    ensures 'T' !in w && 'B' !in w && 'M' !in w && 'K' !in w
  {
  }

  lemma WordIsData(w: string)
    requires IsLowercaseWord(w)
    ensures !IsNoData(w)
  {
    NoDataIsDashes(w);
    assert !IsNegativeGlyph(w[0]);
  }

  lemma WordUnsigned(w: string)
    requires IsLowercaseWord(w)
    ensures StripSigns(w) == w && ParseDecimal(w).None?
  {
    TrimStartMatchesNone(w, '+');
    TrimStartMatchesNone(w, '-');
    TrimStartMatchesNone(w, EmDash);
    TrimStartMatchesNone(w, MinusSign);
    NotUnsignedDecimal(w, 0);
  }

  lemma ParseF64CleanedError(s: string, t: string, r: string)
    requires CleanDecimal(s) == t && !IsNoData(t)
    requires StripSigns(t) == r && ParseDecimal(r).None?
    ensures ParseF64(s) == ParseErrorValue
  {
  }

  /** Both cleanings leave alone a trimmed text without the characters they drop. */
  lemma CleanIdentities(x: string)
    requires Trim(x) == x && ',' !in x && 'C' !in x && '"' !in x && ' ' !in x
    ensures CleanLarge(x) == x
    ensures '%' !in x ==> CleanDecimal(x) == x
  {
    RemoveCharAbsent(x, ',');
    RemoveAllAppend(x, "", "CNY");
    assert x + "" == x;
    RemoveCharAbsent(x, '"');
    RemoveCharAbsent(x, ' ');
    if '%' !in x {
      RemoveCharAbsent(x, '%');
    }
  }

  /** `parse_large_number` in terms of the cleaned text, its magnitude and its sign. */
  lemma LargeCleaned(s: string, c: string, r: string, neg: bool)
    requires CleanLarge(s) == c && !IsNoData(c) && StripSigns(c) == r && IsNegated(c) == neg
    ensures ParseLargeNumber(s) == TruncateToInt(LargeMagnitude(r, neg))
  {
  }

  lemma NoLetterFailed(t: string, neg: bool)
    requires 'T' !in t && 'B' !in t && 'M' !in t && 'K' !in t && ParseDecimal(t).None?
    ensures LargeMagnitude(t, neg) == 0.0
  {
  }

  /**
   * `parse_large_number` does not drop '%': a percentage read as a large
   * number is 0, where `parse_f64` reads the same cell as its value.
   */
  lemma LargeNumberKeepsPercent(m: SignMark, d: string)
    requires IsUnsignedDecimal(d)
    ensures ParseLargeNumber(MarkText(m) + d + "%") == 0
    ensures ParseF64(MarkText(m) + d + "%") == Signed(m, UnsignedValue(d))
  {
    ParseF64OfDecimal(m, d, Percent);
    LargeNumberOfPercent(m, d);
  }

  lemma LargeNumberOfPercent(m: SignMark, d: string)
    requires IsUnsignedDecimal(d)
    ensures ParseLargeNumber(MarkText(m) + d + "%") == 0
  {
    MagnitudeFacts(d);
    PercentNotNumber(d);
    PercentCellFacts(m, d);
    UnreadableLarge(MarkText(m) + d + "%", d + "%");
  }

  /** A cleaned, signed text whose magnitude is not a number and has no suffix letter reads as 0. */
  lemma UnreadableLarge(x: string, dp: string)
    requires CleanLarge(x) == x && !IsNoData(x) && StripSigns(x) == dp
    requires ParseDecimal(dp).None? && 'T' !in dp && 'B' !in dp && 'M' !in dp && 'K' !in dp
    ensures ParseLargeNumber(x) == 0
  {
    LargeCleaned(x, x, dp, IsNegated(x));
    NoLetterFailed(dp, IsNegated(x));
  }

  lemma PercentNotNumber(d: string)
    requires IsMagnitude(d) && 'T' !in d && 'B' !in d && 'M' !in d && 'K' !in d
    ensures ParseDecimal(d + "%").None?
    ensures 'T' !in d + "%" && 'B' !in d + "%" && 'M' !in d + "%" && 'K' !in d + "%"
  {
    var dp := d + "%";
    assert dp[|d|] == '%';
    NotUnsignedDecimal(dp, |d|);
    assert dp[0] == d[0];
    if |dp| > 0 && (dp[0] == '+' || dp[0] == '-') {
      assert false;
    }
  }

  lemma PercentCellFacts(m: SignMark, d: string)
    requires IsMagnitude(d)
    ensures CleanLarge(MarkText(m) + d + "%") == MarkText(m) + d + "%"
    ensures !IsNoData(MarkText(m) + d + "%")
    ensures StripSigns(MarkText(m) + d + "%") == d + "%"
  {
    var sd := MarkText(m) + d;
    var x := sd + "%";
    NumeralOf(m, d);
    NonNumeralChars();
    NotInNumeral(sd, ',');
    NotInNumeral(sd, 'C');
    NotInNumeral(sd, '"');
    NotInNumeral(sd, ' ');
    assert ',' !in x && 'C' !in x && '"' !in x && ' ' !in x;
    TrimSignedDecimal(m, d, Percent);
    CleanIdentities(x);
    SignedMagnitudeAt(m, d, "%");
  }
}
