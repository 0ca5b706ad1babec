/** What a price is converted at. */
module ConversionLaws {
  import opened Money
  import opened Outcomes
  import opened Portfolio
  import opened IndexRounding
  import opened SeriesDates

  /** The provider's positive rate for that very day. */
  predicate QuotedThatDay(rates: Rates, currency: string, date: int) {
    && currency in rates.quotes && date in rates.quotes[currency]
    && rates.quotes[currency][date].rate > 0.0 && rates.quotes[currency][date].date == date
  }

  /** A valid adjusted series converts on one of its dates exactly in the base currency or
      at a positive rate the provider quotes for that very day. */
  lemma ConvertsExactly(series: Series, rates: Rates, base: string, i: nat)
    requires ValidPoints(series.points, false) && i < |series.points|
    ensures Converted(series, rates, base, series.points[i].date).Success? <==>
      Upper(series.meta.currency) == Upper(base) || QuotedThatDay(rates, Upper(series.meta.currency), series.points[i].date)
  {
    PriceAtPoint(series.points, i);
    hide SnapIndex, Mul, Upper;
  }

  lemma Unrounded(x: real)
    ensures SnapIndex(x, 0.0) == x
  {
  }

  /** In exact arithmetic it converts to the adjusted close times that rate, in the base
      currency to the close itself. */
  lemma ConvertedIsCloseTimesRate(series: Series, rates: Rates, base: string, i: nat)
    requires ValidPoints(series.points, false) && i < |series.points|
    requires rates.rateQuantum == 0.0 && rates.priceQuantum == 0.0
    ensures var c, d, close := Upper(series.meta.currency), series.points[i].date, series.points[i].adjusted;
      && (c == Upper(base) ==> Converted(series, rates, base, d) == Success(close))
      && (c != Upper(base) && QuotedThatDay(rates, c, d) ==>
           Converted(series, rates, base, d) == Success(Mul(close, rates.quotes[c][d].rate)))
  {
    PriceAtPoint(series.points, i);
    var c, d, close := Upper(series.meta.currency), series.points[i].date, series.points[i].adjusted;
    assert Mul(close, 1.0) == close;
    Unrounded(1.0);
    Unrounded(close);
    if QuotedThatDay(rates, c, d) {
      Unrounded(rates.quotes[c][d].rate);
      Unrounded(Mul(close, rates.quotes[c][d].rate));
    }
    hide SnapIndex, Mul, Upper;
  }

  lemma SnapIsNear(x: real, quantum: real)
    requires quantum >= 0.0
    ensures Abs(SnapIndex(x, quantum) - x) <= quantum / 2.0
  {
    if quantum > 0.0 {
      SnapIndexIsClose(x, quantum);
    } else {
      Unrounded(x);
    }
  }

  /** A product of rounded factors. */
  lemma RoundedProduct(close: real, rate: real, rateQuantum: real, priceQuantum: real)
    requires close > 0.0 && rateQuantum >= 0.0 && priceQuantum >= 0.0
    ensures Abs(SnapIndex(Mul(close, SnapIndex(rate, rateQuantum)), priceQuantum) - Mul(close, rate)) <=
      priceQuantum / 2.0 + Mul(close, rateQuantum / 2.0)
  {
    var snapped := SnapIndex(rate, rateQuantum);
    SnapIsNear(rate, rateQuantum);
    SnapIsNear(Mul(close, snapped), priceQuantum);
    ScaleBound(close, snapped - rate, rateQuantum / 2.0);
    hide SnapIndex, Mul;
    MulMinus(close, snapped, rate);
  }

  lemma MulMinus(k: real, a: real, b: real)
    ensures Mul(k, a) - Mul(k, b) == Mul(k, a - b)
  {
  }

  /** The rate an exact conversion of the day uses. */
  function DayRate(series: Series, rates: Rates, base: string, date: int): real
    requires Upper(series.meta.currency) == Upper(base) || QuotedThatDay(rates, Upper(series.meta.currency), date)
  {
    if Upper(series.meta.currency) == Upper(base) then 1.0 else rates.quotes[Upper(series.meta.currency)][date].rate
  }

  /** At any precision it is a whole number of price quanta, off by at most half of one and
      half a rate quantum of the close. */
  lemma ConvertedIsNear(series: Series, rates: Rates, base: string, i: nat)
    requires ValidPoints(series.points, false) && i < |series.points|
    requires rates.rateQuantum >= 0.0 && rates.priceQuantum >= 0.0
    requires Converted(series, rates, base, series.points[i].date).Success?
    ensures Upper(series.meta.currency) == Upper(base) || QuotedThatDay(rates, Upper(series.meta.currency), series.points[i].date)
    ensures var close := series.points[i].adjusted;
      Abs(Converted(series, rates, base, series.points[i].date).value - Mul(close, DayRate(series, rates, base, series.points[i].date)))
      <= rates.priceQuantum / 2.0 + Mul(close, rates.rateQuantum / 2.0)
    ensures OnGrid(Converted(series, rates, base, series.points[i].date).value, rates.priceQuantum)
  {
    ConvertedOnGrid(series, rates, base, series.points[i].date);
    ConvertsExactly(series, rates, base, i);
    PriceAtPoint(series.points, i);
    assert PointValue(series.points[i], false) > 0.0;
    RoundedProduct(series.points[i].adjusted, DayRate(series, rates, base, series.points[i].date), rates.rateQuantum, rates.priceQuantum);
    hide SnapIndex, Mul, Upper, Abs, OnGrid;
  }

  lemma ConvertedOnGrid(series: Series, rates: Rates, base: string, date: int)
    requires Converted(series, rates, base, date).Success?
    ensures OnGrid(Converted(series, rates, base, date).value, rates.priceQuantum)
  {
    var rate := RateOn(rates, Upper(series.meta.currency), Upper(base), date);
    var price := PriceOn(series.points, date);
    hide SnapIndex, Upper, OnGrid, RateOn, PriceOn;
    SnapLandsOnGrid(Mul(price.value, rate.value), rates.priceQuantum);
  }

  /** k times the rates of a currency give k times its converted prices. */
  lemma ConversionScales(series: Series, rates: Rates, others: Rates, base: string, i: nat, k: real)
    requires ValidPoints(series.points, false) && i < |series.points| && k > 0.0
    requires rates.rateQuantum == rates.priceQuantum == others.rateQuantum == others.priceQuantum == 0.0
    requires var c, d := Upper(series.meta.currency), series.points[i].date;
      && c != Upper(base) && QuotedThatDay(rates, c, d) && QuotedThatDay(others, c, d)
      && others.quotes[c][d].rate == Mul(k, rates.quotes[c][d].rate)
    ensures var d := series.points[i].date;
      && Converted(series, rates, base, d).Success?
      && Converted(series, others, base, d) == Success(Mul(k, Converted(series, rates, base, d).value))
  {
    ConvertedIsCloseTimesRate(series, rates, base, i);
    ConvertedIsCloseTimesRate(series, others, base, i);
    var c, d := Upper(series.meta.currency), series.points[i].date;
    TimesThrough(k, series.points[i].adjusted, rates.quotes[c][d].rate);
    hide Converted, Upper, Mul, ValidPoints;
  }

  lemma TimesThrough(k: real, close: real, rate: real)
    ensures Mul(close, Mul(k, rate)) == Mul(k, Mul(close, rate))
  {
    MulAssociates(k, close, rate);
    MulAssociates(close, k, rate);
    assert Mul(k, close) == Mul(close, k);
  }

  /** How a currency is written does not matter. */
  lemma CaseDoesNotMatter(series: Series, rates: Rates, base: string, date: int)
    ensures Upper("usd") == Upper("Usd") == "USD"
    ensures Converted(series.(meta := series.meta.(currency := Upper(series.meta.currency))), rates, Upper(base), date) ==
      Converted(series, rates, base, date)
  {
    UpperTwice(series.meta.currency);
    UpperTwice(base);
  }

  lemma UpperTwice(currency: string)
    ensures Upper(Upper(currency)) == Upper(currency)
  {
  }
}
