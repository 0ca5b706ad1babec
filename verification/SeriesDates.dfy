/** The dates a run uses, and the converted prices on them. */
module SeriesDates {
  import opened Money
  import opened Outcomes
  import opened Portfolio
  import opened Sets

  /** One point of a price series; a close of zero is absent. */
  datatype Point = Point(date: int, adjusted: real, raw: real)

  datatype PriceType = RawClose | AdjustedClose | TotalReturn | Undeclared

  /** What a provider says of its series. */
  datatype Metadata = Metadata(
    currency: string, priceType: PriceType, totalReturn: bool, actionsKnown: bool, synthetic: bool, stale: bool)

  datatype Series = Series(points: seq<Point>, meta: Metadata)

  /** What the caller needs of it. */
  datatype Requirement = Requirement(adjusted: bool, totalReturn: bool, allowStale: bool, allowSynthetic: bool)

  const AWARDS := Requirement(true, false, false, false)

  datatype Quality = Verified | Acceptable | Stale | Synthetic

  predicate HasDate(points: seq<Point>, date: int) {
    exists i :: 0 <= i < |points| && points[i].date == date
  }

  // ---- validation ----------------------------------------------------------------------

  /** The price a point stands for: raw series prefer the raw close. */
  function PointValue(p: Point, usesRaw: bool): real {
    if usesRaw && p.raw != 0.0 then p.raw else p.adjusted
  }

  predicate ValidPoints(points: seq<Point>, usesRaw: bool) {
    && |points| >= 2
    && (forall i, j :: 0 <= i < j < |points| ==> points[i].date < points[j].date)
    && (forall i :: 0 <= i < |points| ==> PointValue(points[i], usesRaw) > 0.0)
  }

  /** Reinvested distributions are in the prices, and the provider says so. */
  predicate Capable(m: Metadata) {
    (m.priceType == AdjustedClose || m.priceType == TotalReturn) && m.actionsKnown
  }

  /** The metadata neither contradicts itself nor falls short of the requirement. Synthetic
      data that is allowed need meet nothing else. */
  predicate Meets(m: Metadata, need: Requirement) {
    && (m.totalReturn ==> m.priceType == AdjustedClose || m.priceType == TotalReturn)
    && (m.synthetic ==> need.allowSynthetic)
    && (!m.synthetic ==>
         && (m.stale ==> need.allowStale)
         && (need.totalReturn ==> Capable(m) && m.totalReturn)
         && (need.adjusted ==> Capable(m)))
  }

  /** validateSeries: structure first, then the metadata against the requirement. */
  method ValidateSeries(series: Series, need: Requirement) returns (r: Result<Quality>)
    ensures r.Success? <==> ValidPoints(series.points, series.meta.priceType == RawClose) && Meets(series.meta, need)
    ensures r.Failure? && !ValidPoints(series.points, series.meta.priceType == RawClose) ==>
      r.error == if |series.points| < 2 then IncompleteSeries else InvalidSeries
    ensures r.Success? ==> (r.value == Synthetic <==> series.meta.synthetic)
    ensures r.Success? ==> (r.value == Verified <==> Capable(series.meta) && !series.meta.stale && !series.meta.synthetic)
    ensures r.Success? && need == AWARDS ==> r.value == Verified
  {
    var m := series.meta;
    var sound := ValidatePoints(series.points, m.priceType == RawClose);
    if sound.Failure? {
      return sound.PropagateFailure();
    }
    if m.totalReturn && m.priceType != AdjustedClose && m.priceType != TotalReturn {
      return Failure(InvalidSeries);
    }
    if m.synthetic {
      if !need.allowSynthetic {
        return Failure(SyntheticNotAllowed);
      }
      return Success(Synthetic);
    }
    if m.stale && !need.allowStale {
      return Failure(StaleSeries);
    }
    if need.totalReturn && (!Capable(m) || !m.totalReturn) {
      return Failure(TotalReturnUnavailable);
    }
    if need.adjusted && !Capable(m) {
      return Failure(AdjustedUnavailable);
    }
    if m.stale {
      return Success(Stale);
    }
    r := Success(if Capable(m) then Verified else Acceptable);
  }

  /** The structural checks, point by point. */
  method ValidatePoints(points: seq<Point>, usesRaw: bool) returns (r: Result<()>)
    ensures r.Success? <==> ValidPoints(points, usesRaw)
    ensures r.Failure? ==> r.error == if |points| < 2 then IncompleteSeries else InvalidSeries
  {
    if |points| < 2 {
      return Failure(IncompleteSeries);
    }
    var prevDate := points[0].date;
    for i := 0 to |points|
      invariant i > 0 ==> prevDate == points[i - 1].date
      invariant forall j, k :: 0 <= j < k < i ==> points[j].date < points[k].date
      invariant forall k :: 0 <= k < i ==> PointValue(points[k], usesRaw) > 0.0
    {
      var p := points[i];
      if i > 0 && p.date <= prevDate {
        return Failure(InvalidSeries);
      }
      if PointValue(p, usesRaw) <= 0.0 {
        return Failure(InvalidSeries);
      }
      prevDate := p.date;
    }
    r := Success(());
  }

  // ---- the requested window ------------------------------------------------------------

  function InWindow(points: seq<Point>, start: int, end: int): seq<Point> {
    if points == [] then []
    else
      var rest := InWindow(points[..|points| - 1], start, end);
      var p := points[|points| - 1];
      if start <= p.date <= end then rest + [p] else rest
  }

  lemma {:induction false} InWindowDates(points: seq<Point>, start: int, end: int, date: int)
    ensures HasDate(InWindow(points, start, end), date) <==> HasDate(points, date) && start <= date <= end
  {
    if points != [] {
      var front, p := points[..|points| - 1], points[|points| - 1];
      InWindowDates(front, start, end, date);
      assert points == front + [p];
      HasDateSnoc(front, p, date);
      HasDateSnoc(InWindow(front, start, end), p, date);
      hide HasDate;
    }
  }

  lemma HasDateSnoc(points: seq<Point>, p: Point, date: int)
    ensures HasDate(points + [p], date) <==> HasDate(points, date) || p.date == date
  {
    if HasDate(points, date) {
      var i :| 0 <= i < |points| && points[i].date == date;
      assert (points + [p])[i].date == date;
    }
    if p.date == date {
      assert (points + [p])[|points|].date == date;
    }
  }

  /** The in-window points by symbol. A symbol with none is not listed at all. */
  ghost predicate CutToWindow(series: map<string, Series>, start: int, end: int, prices: map<string, seq<Point>>) {
    && (forall s :: s in prices <==> s in series && InWindow(series[s].points, start, end) != [])
    && (forall s :: s in prices ==> prices[s] == InWindow(series[s].points, start, end))
  }

  method WindowPrices(series: map<string, Series>, start: int, end: int) returns (prices: map<string, seq<Point>>)
    ensures CutToWindow(series, start, end, prices)
  {
    prices := map[];
    var todo := series.Keys;
    while todo != {}
      invariant todo <= series.Keys
      invariant forall s :: s in prices <==> s in series && s !in todo && InWindow(series[s].points, start, end) != []
      invariant forall s :: s in prices ==> prices[s] == InWindow(series[s].points, start, end)
      decreases todo
    {
      var symbol :| symbol in todo;
      var points := series[symbol].points;
      var kept: seq<Point> := [];
      for i := 0 to |points|
        invariant kept == InWindow(points[..i], start, end)
      {
        assert points[..i + 1][..i] == points[..i];
        if start <= points[i].date <= end {
          kept := kept + [points[i]];
        }
      }
      assert points[..|points|] == points;
      if kept != [] {
        prices := prices[symbol := kept];
      }
      todo := todo - {symbol};
    }
  }

  // ---- common dates --------------------------------------------------------------------

  /** The symbols, among some, whose series has the date. */
  ghost function Having(symbols: set<string>, prices: map<string, seq<Point>>, date: int): set<string>
    requires symbols <= prices.Keys
  {
    set s | s in symbols && HasDate(prices[s], date)
  }

  lemma HavingOneMore(symbols: set<string>, prices: map<string, seq<Point>>, date: int, s: string)
    requires symbols <= prices.Keys && s in prices && s !in symbols
    ensures |Having(symbols + {s}, prices, date)| == |Having(symbols, prices, date)| + if HasDate(prices[s], date) then 1 else 0
  {
    assert Having(symbols + {s}, prices, date) == Having(symbols, prices, date) + if HasDate(prices[s], date) then {s} else {};
  }

  function Count(counts: map<int, nat>, date: int): nat {
    if date in counts then counts[date] else 0
  }

  /** One symbol's turn: each of its dates is counted once, however often it occurs. */
  method CountSeries(counts: map<int, nat>, points: seq<Point>) returns (after: map<int, nat>)
    ensures forall d :: Count(after, d) == Count(counts, d) + if HasDate(points, d) then 1 else 0
    ensures forall d :: d in after <==> d in counts || HasDate(points, d)
  {
    after := counts;
    var seen: set<int> := {};
    for i := 0 to |points|
      invariant forall d :: d in seen <==> HasDate(points[..i], d)
      invariant forall d :: Count(after, d) == Count(counts, d) + if d in seen then 1 else 0
      invariant forall d :: d in after <==> d in counts || d in seen
    {
      var date := points[i].date;
      assert points[..i + 1] == points[..i] + [points[i]];
      forall d {
        HasDateSnoc(points[..i], points[i], d);
      }
      hide HasDate;
      if date !in seen {
        seen := seen + {date};
        after := after[date := Count(after, date) + 1];
      }
    }
    assert points[..|points|] == points;
  }

  function InsertDate(dates: seq<int>, date: int): seq<int> {
    if dates == [] || dates[|dates| - 1] < date then dates + [date]
    else InsertDate(dates[..|dates| - 1], date) + [dates[|dates| - 1]]
  }

  lemma AscendingSnoc(front: seq<int>, last: int)
    requires Ascending(front) && forall d :: d in front ==> d < last
    ensures Ascending(front + [last])
  {
    var all := front + [last];
    forall i, j | 0 <= i < j < |all| ensures all[i] < all[j] {
      assert all[i] == front[i] && front[i] in front;
    }
  }

  lemma LastIsLargest(dates: seq<int>, d: int)
    requires Ascending(dates) && d in dates
    ensures d == dates[|dates| - 1] || (d in dates[..|dates| - 1] && d < dates[|dates| - 1])
  {
    var i :| 0 <= i < |dates| && dates[i] == d;
    if i < |dates| - 1 { assert dates[..|dates| - 1][i] == d; }
  }

  lemma {:induction false} InsertDateMeans(dates: seq<int>, date: int)
    requires Ascending(dates) && date !in dates
    ensures Ascending(InsertDate(dates, date))
    ensures forall d :: d in InsertDate(dates, date) <==> d in dates || d == date
  {
    forall d | d in dates ensures d <= dates[|dates| - 1] {
      LastIsLargest(dates, d);
    }
    if dates == [] || dates[|dates| - 1] < date {
      AscendingSnoc(dates, date);
    } else {
      var front, last := dates[..|dates| - 1], dates[|dates| - 1];
      assert dates == front + [last];
      InsertDateMeans(front, date);
      forall d | d in front ensures d < last {
        LastIsLargest(dates, d);
        var i :| 0 <= i < |front| && front[i] == d;
      }
      AscendingSnoc(InsertDate(front, date), last);
    }
  }

  /** The dates counted from the windowed series: they are the dates of every symbol listed,
      and a symbol without in-window dates is not. */
  ghost predicate CountedDates(prices: map<string, seq<Point>>, dates: seq<int>) {
    && Ascending(dates)
    && forall d :: d in dates <==> |prices| > 0 && forall s :: s in prices ==> HasDate(prices[s], d)
  }

  /** commonDates: count each date over the symbols, keep those every symbol has, sort. */
  method CommonDates(prices: map<string, seq<Point>>) returns (dates: seq<int>)
    ensures CountedDates(prices, dates)
  {
    if |prices| == 0 {
      return [];
    }
    var counts: map<int, nat> := map[];
    var todo := prices.Keys;
    while todo != {}
      invariant todo <= prices.Keys
      invariant forall d :: Count(counts, d) == |Having(prices.Keys - todo, prices, d)|
      decreases todo
    {
      var symbol :| symbol in todo;
      forall d {
        HavingOneMore(prices.Keys - todo, prices, d, symbol);
      }
      assert prices.Keys - (todo - {symbol}) == prices.Keys - todo + {symbol};
      hide HasDate, Having;
      counts := CountSeries(counts, prices[symbol]);
      todo := todo - {symbol};
    }
    var n := |prices|;
    assert prices.Keys - todo == prices.Keys && |prices.Keys| == n;
    dates := KeepFull(counts, n);
    forall d ensures d in dates <==> forall s :: s in prices ==> HasDate(prices[s], d) {
      SubsetIsNoLarger(Having(prices.Keys, prices, d), prices.Keys);
      assert d in dates <==> Count(counts, d) == n;
      assert Having(prices.Keys, prices, d) == prices.Keys <==> forall s :: s in prices ==> HasDate(prices[s], d);
    }
  }

  lemma SomeDate(dates: set<int>)
    ensures dates != {} ==> exists d :: d in dates
  {
    if forall d :: d !in dates {
      assert dates == {};
    }
  }

  method KeepFull(counts: map<int, nat>, n: nat) returns (dates: seq<int>)
    requires n > 0
    ensures Ascending(dates)
    ensures forall d :: d in dates <==> Count(counts, d) == n
  {
    dates := [];
    var todo := counts.Keys;
    while todo != {}
      invariant todo <= counts.Keys
      invariant Ascending(dates)
      invariant forall d :: d in dates <==> d in counts.Keys - todo && counts[d] == n
      decreases todo
    {
      SomeDate(todo);
      var date :| date in todo;
      if counts[date] == n {
        InsertDateMeans(dates, date);
        dates := InsertDate(dates, date);
      }
      todo := todo - {date};
    }
  }

  // ---- converted prices ----------------------------------------------------------------

  /** A provider's answer; it carries the date it is for. */
  datatype Rate = Rate(rate: real, date: int)

  /** Rates to the base currency by currency and date asked for, and the grids rates and
      converted prices are rounded to; 0 stands for exact arithmetic. */
  datatype Rates = Rates(quotes: map<string, map<int, Rate>>, rateQuantum: real, priceQuantum: real)

  /** toPriceMap: the last point of a date counts, its adjusted close unless absent. */
  function PriceOn(points: seq<Point>, date: int): Option<real> {
    if points == [] then None
    else
      var p := points[|points| - 1];
      if p.date == date then Some(if p.adjusted != 0.0 then p.adjusted else p.raw)
      else PriceOn(points[..|points| - 1], date)
  }

  /** The rate of that very day, or 1 within the base currency. */
  function QuotedRate(rates: Rates, native: string, base: string, date: int): Option<real> {
    if native == base then Some(1.0)
    else if native !in rates.quotes || date !in rates.quotes[native] then None
    else
      var quote := rates.quotes[native][date];
      if quote.rate > 0.0 && quote.date == date then Some(quote.rate) else None
  }

  function RateOn(rates: Rates, native: string, base: string, date: int): Option<real> {
    match QuotedRate(rates, native, base, date)
    case None => None
    case Some(rate) => Some(SnapIndex(rate, rates.rateQuantum))
  }

  /** Currencies are compared in upper case. Codes are ASCII letters. */
  function Upper(currency: string): string {
    seq(|currency|, i requires 0 <= i < |currency| => UpperLetter(currency[i]))
  }

  function UpperLetter(c: char): char {
    if 'a' <= c <= 'z' then (c as int - 'a' as int + 'A' as int) as char else c
  }

  /** White space as Unicode has it. */
  predicate IsSpace(c: char) {
    || c in {' ', '\t', '\n', '\U{000B}', '\U{000C}', '\r', '\U{0085}', '\U{00A0}', '\U{1680}'}
    || '\U{2000}' <= c <= '\U{200A}'
    || c in {'\U{2028}', '\U{2029}', '\U{202F}', '\U{205F}', '\U{3000}'}
  }

  /** Nothing is left of it once its outer white space is trimmed. */
  predicate Blank(currency: string) {
    forall i :: 0 <= i < |currency| ==> IsSpace(currency[i])
  }

  function Converted(series: Series, rates: Rates, base: string, date: int): Result<real> {
    if PriceOn(series.points, date).None? then Failure(IncompleteSeries)
    else if RateOn(rates, Upper(series.meta.currency), Upper(base), date).None? then Failure(RateUnavailable)
    else
      var product := Mul(PriceOn(series.points, date).value, RateOn(rates, Upper(series.meta.currency), Upper(base), date).value);
      Success(SnapIndex(product, rates.priceQuantum))
  }

  ghost predicate Convertible(series: Series, rates: Rates, base: string, dates: seq<int>) {
    forall k :: 0 <= k < |dates| ==> Converted(series, rates, base, dates[k]).Success?
  }

  /** One symbol's row holds exactly the converted prices of the dates. */
  ghost predicate RowOf(series: Series, rates: Rates, base: string, dates: seq<int>, row: map<int, real>) {
    && (forall d :: d in row <==> d in dates)
    && (forall d :: d in row ==> Converted(series, rates, base, d) == Success(row[d]))
  }

  method ConvertRow(series: Series, rates: Rates, base: string, dates: seq<int>) returns (r: Result<map<int, real>>)
    ensures r.Success? <==> Convertible(series, rates, base, dates)
    ensures r.Success? ==> RowOf(series, rates, base, dates, r.value)
    ensures r.Failure? ==> r.error in {IncompleteSeries, RateUnavailable}
    ensures r.Failure? ==> exists k :: 0 <= k < |dates| && Converted(series, rates, base, dates[k]) == Failure(r.error)
  {
    var row: map<int, real> := map[];
    for i := 0 to |dates|
      invariant forall k :: 0 <= k < i ==> Converted(series, rates, base, dates[k]).Success?
      invariant RowOf(series, rates, base, dates[..i], row)
    {
      var date := dates[i];
      var price := Converted(series, rates, base, date);
      if price.Failure? {
        return Failure(price.error);
      }
      hide Converted;
      assert dates[..i + 1] == dates[..i] + [date];
      row := row[date := price.value];
    }
    assert dates[..|dates|] == dates;
    r := Success(row);
  }

  /** convertedPrices: every component symbol, also one that had no date in the window. */
  method ConvertedPrices(series: map<string, Series>, rates: Rates, base: string,
      dates: seq<int>) returns (r: Result<Prices>)
    ensures r.Success? <==> forall s :: s in series ==> Convertible(series[s], rates, base, dates)
    ensures r.Success? ==> r.value.Keys == series.Keys
    ensures r.Success? ==> forall s :: s in series ==> RowOf(series[s], rates, base, dates, r.value[s])
    ensures r.Failure? ==> r.error in {IncompleteSeries, RateUnavailable}
  {
    hide Convertible, RowOf;
    var out: Prices := map[];
    var todo := series.Keys;
    while todo != {}
      invariant todo <= series.Keys && out.Keys == series.Keys - todo
      invariant forall s :: s in out ==> Convertible(series[s], rates, base, dates) && RowOf(series[s], rates, base, dates, out[s])
      decreases todo
    {
      var symbol :| symbol in todo;
      var row := ConvertRow(series[symbol], rates, base, dates);
      if row.Failure? {
        return row.PropagateFailure();
      }
      out := PutRow(out, symbol, row.value);
      todo := todo - {symbol};
    }
    r := Success(out);
  }

  function PutRow(prices: Prices, symbol: string, row: map<int, real>): Prices {
    prices[symbol := row]
  }

  lemma {:induction false} PricedWhereDated(points: seq<Point>, date: int)
    ensures PriceOn(points, date).Some? <==> HasDate(points, date)
  {
    if points != [] {
      PricedWhereDated(points[..|points| - 1], date);
      assert points == points[..|points| - 1] + [points[|points| - 1]];
      HasDateSnoc(points[..|points| - 1], points[|points| - 1], date);
    }
  }

  lemma SomeListed(series: map<string, Series>, start: int, end: int, prices: map<string, seq<Point>>, dates: seq<int>)
    requires CutToWindow(series, start, end, prices) && CountedDates(prices, dates) && |dates| > 0
    ensures series != map[]
  {
    var d := dates[0];
    assert d in dates && |prices| > 0 && prices.Keys != {};
    var listed :| listed in prices.Keys;
    assert listed in series;
  }

  ghost predicate OnEverySeries(series: map<string, Series>, start: int, end: int, d: int) {
    start <= d <= end && forall s :: s in series ==> HasDate(series[s].points, d)
  }

  lemma ListedHasDate(series: map<string, Series>, start: int, end: int, prices: map<string, seq<Point>>, s: string,
      d: int)
    requires CutToWindow(series, start, end, prices) && s in series
    ensures s in prices ==> (HasDate(prices[s], d) <==> HasDate(series[s].points, d) && start <= d <= end)
    ensures HasDate(series[s].points, d) && start <= d <= end ==> s in prices
  {
    InWindowDates(series[s].points, start, end, d);
  }

  /** A valid adjusted series is priced, wherever it has a date, by the point it has there;
      its conversion is above zero exactly when it exceeds half a price quantum. */
  lemma ValidSeriesIsPriced(series: Series, rates: Rates, base: string, i: nat)
    requires ValidPoints(series.points, false) && i < |series.points| && rates.priceQuantum >= 0.0
    ensures PriceOn(series.points, series.points[i].date) == Some(series.points[i].adjusted)
    ensures var c := Converted(series, rates, base, series.points[i].date);
      c.Success? ==>
        (c.value > 0.0 <==> Mul(series.points[i].adjusted,
          RateOn(rates, Upper(series.meta.currency), Upper(base), series.points[i].date).value) > rates.priceQuantum / 2.0)
  {
    PriceAtPoint(series.points, i);
    var rate := RateOn(rates, Upper(series.meta.currency), Upper(base), series.points[i].date);
    assert PointValue(series.points[i], false) > 0.0;
    if rate.Some? {
      SnapSign(Mul(series.points[i].adjusted, rate.value), rates.priceQuantum);
    }
    hide Mul, SnapIndex, RateOn;
  }

  /** Rounding to a grid leaves something above zero exactly past half a quantum. */
  lemma SnapSign(x: real, quantum: real)
    requires quantum >= 0.0
    ensures SnapIndex(x, quantum) > 0.0 <==> x > quantum / 2.0
  {
    if quantum > 0.0 {
      var n := Div(x, quantum);
      assert Mul(quantum, n) == x;
      assert Mul(quantum, n - 0.5) == x - quantum / 2.0;
      MulSign(quantum, n - 0.5);
      HalfEvenSign(n);
      MulSign(quantum, HalfEven(n) as real);
      hide Mul, Div, HalfEven;
    }
  }

  lemma HalfEvenSign(x: real)
    ensures HalfEven(x) > 0 <==> x > 0.5
  {
  }

  lemma {:induction false} PriceAtPoint(points: seq<Point>, i: nat)
    requires i < |points| && points[i].adjusted != 0.0
    requires forall j, k :: 0 <= j < k < |points| ==> points[j].date < points[k].date
    ensures PriceOn(points, points[i].date) == Some(points[i].adjusted)
  {
    if i < |points| - 1 {
      PriceAtPoint(points[..|points| - 1], i);
      assert points[i].date < points[|points| - 1].date;
    }
  }

  /** Every common date of all component symbols is counted. */
  lemma CommonDatesAreCounted(
      series: map<string, Series>, start: int, end: int, prices: map<string, seq<Point>>, dates: seq<int>, d: int)
    requires CutToWindow(series, start, end, prices) && CountedDates(prices, dates)
    requires series != map[] && OnEverySeries(series, start, end, d)
    ensures d in dates
  {
    forall s | s in series ensures s in prices && HasDate(prices[s], d) {
      ListedHasDate(series, start, end, prices, s, d);
    }
    assert series.Keys != {};
    var some :| some in series.Keys;
    assert some in prices;
    hide CutToWindow, HasDate;
  }

  /** A run whose prices convert has used exactly the dates common to all its symbols: the
      symbol the count forgot would have failed the conversion. */
  lemma ConvertedDatesAreCommon(
      series: map<string, Series>, start: int, end: int, prices: map<string, seq<Point>>, dates: seq<int>,
      rates: Rates, base: string)
    requires CutToWindow(series, start, end, prices) && CountedDates(prices, dates) && series != map[]
    requires forall s :: s in series ==> Convertible(series[s], rates, base, dates)
    ensures forall d :: d in dates <==> OnEverySeries(series, start, end, d)
  {
    forall d | d in dates ensures OnEverySeries(series, start, end, d) {
      UsedDateIsCommon(series, start, end, prices, dates, rates, base, d);
    }
    forall d | OnEverySeries(series, start, end, d) ensures d in dates {
      CommonDatesAreCounted(series, start, end, prices, dates, d);
    }
  }

  lemma UsedDateIsCommon(
      series: map<string, Series>, start: int, end: int, prices: map<string, seq<Point>>, dates: seq<int>,
      rates: Rates, base: string, d: int)
    requires CutToWindow(series, start, end, prices) && CountedDates(prices, dates) && d in dates
    requires forall s :: s in series ==> Convertible(series[s], rates, base, dates)
    ensures OnEverySeries(series, start, end, d)
  {
    assert |prices| > 0 && prices.Keys != {};
    var k :| 0 <= k < |dates| && dates[k] == d;
    forall s | s in series ensures HasDate(series[s].points, d) {
      assert Converted(series[s], rates, base, dates[k]).Success?;
      PricedWhereDated(series[s].points, d);
    }
    var listed :| listed in prices.Keys;
    ListedHasDate(series, start, end, prices, listed, d);
    hide HasDate;
  }

  /** Without a single in-window date a symbol drops out of the count, and the conversion is
      refused as soon as there is a date to convert. */
  lemma DroppedSymbolIsCaught(
      series: map<string, Series>, start: int, end: int, prices: map<string, seq<Point>>, dates: seq<int>,
      rates: Rates, base: string, s: string)
    requires CutToWindow(series, start, end, prices) && CountedDates(prices, dates)
    requires s in series && s !in prices && |dates| > 0
    ensures !Convertible(series[s], rates, base, dates)
  {
    var d := dates[0];
    assert d in dates && |prices| > 0 && prices.Keys != {};
    var listed :| listed in prices.Keys;
    ListedHasDate(series, start, end, prices, listed, d);
    ListedHasDate(series, start, end, prices, s, d);
    PricedWhereDated(series[s].points, d);
    assert Converted(series[s], rates, base, dates[0]).Failure?;
  }

  /** At least two dates, common to all the series and each fully convertible. */
  ghost predicate ConvertsOnCommonDates(
      series: map<string, Series>, rates: Rates, base: string, start: int, end: int, dates: seq<int>) {
    && series != map[] && |dates| >= 2 && Ascending(dates)
    && (forall d :: d in dates <==> OnEverySeries(series, start, end, d))
    && (forall s :: s in series ==> Convertible(series[s], rates, base, dates))
  }

  lemma {:induction false} AscendingUnique(a: seq<int>, b: seq<int>)
    requires Ascending(a) && Ascending(b) && forall d :: d in a <==> d in b
    ensures a == b
  {
    SomeMember(a, b);
    SomeMember(b, a);
    if a != [] {
      var m, n := |a| - 1, |b| - 1;
      SameLast(a, b);
      forall d ensures d in a[..m] <==> d in b[..n] {
        FrontMember(a, d);
        FrontMember(b, d);
      }
      AscendingUnique(a[..m], b[..n]);
      assert a == a[..m] + [a[m]] && b == b[..n] + [b[n]];
    }
  }

  lemma SameLast(a: seq<int>, b: seq<int>)
    requires Ascending(a) && Ascending(b) && (forall d :: d in a <==> d in b) && a != [] && b != []
    ensures a[|a| - 1] == b[|b| - 1]
  {
    assert a[|a| - 1] in a && b[|b| - 1] in b;
    LastIsLargest(b, a[|a| - 1]);
    LastIsLargest(a, b[|b| - 1]);
  }

  lemma FrontMember(dates: seq<int>, d: int)
    requires Ascending(dates) && dates != []
    ensures d in dates[..|dates| - 1] <==> d in dates && d != dates[|dates| - 1]
  {
    if d in dates[..|dates| - 1] { BelowLast(dates, d); }
    assert dates == dates[..|dates| - 1] + [dates[|dates| - 1]];
  }

  lemma SomeMember(a: seq<int>, b: seq<int>)
    ensures a != [] && (forall d :: d in a ==> d in b) ==> b != []
  {
    if a != [] {
      var d: int := a[0];
      assert d in a;
    }
  }

  lemma BelowLast(dates: seq<int>, d: int)
    requires Ascending(dates) && dates != [] && d in dates[..|dates| - 1]
    ensures d in dates && d < dates[|dates| - 1]
  {
    var i :| 0 <= i < |dates| - 1 && dates[..|dates| - 1][i] == d;
    assert dates[i] == d;
  }

  /** When the common dates convert, they are the ones counted: with two of them no symbol
      can have dropped out. */
  lemma CommonAreCounted(
      series: map<string, Series>, rates: Rates, base: string, start: int, end: int,
      prices: map<string, seq<Point>>, counted: seq<int>, dates: seq<int>)
    requires CutToWindow(series, start, end, prices) && CountedDates(prices, counted)
    requires ConvertsOnCommonDates(series, rates, base, start, end, dates)
    ensures counted == dates
  {
    assert dates[0] in dates;
    forall s | s in series ensures s in prices {
      ListedHasDate(series, start, end, prices, s, dates[0]);
    }
    forall d ensures d in counted <==> d in dates {
      forall s | s in series ensures HasDate(prices[s], d) <==> HasDate(series[s].points, d) && start <= d <= end {
        ListedHasDate(series, start, end, prices, s, d);
      }
      if d in dates { CommonDatesAreCounted(series, start, end, prices, counted, d); }
      if d in counted { CountedIsCommon(series, start, end, prices, counted, d); }
    }
    AscendingUnique(counted, dates);
  }

  lemma CountedIsCommon(
      series: map<string, Series>, start: int, end: int, prices: map<string, seq<Point>>, counted: seq<int>, d: int)
    requires CutToWindow(series, start, end, prices) && CountedDates(prices, counted) && d in counted
    requires forall s :: s in series ==> s in prices
    ensures OnEverySeries(series, start, end, d)
  {
    assert |prices| > 0 && prices.Keys != {};
    forall s | s in series ensures HasDate(series[s].points, d) && start <= d <= end {
      ListedHasDate(series, start, end, prices, s, d);
    }
    var listed :| listed in prices.Keys;
    assert listed in series;
    hide HasDate;
  }

  /** The dates and prices of a run: window, count, convert. It goes through exactly when the
      dates common to all component symbols, at least two, convert. */
  method DatesAndPrices(series: map<string, Series>, rates: Rates, base: string, start: int, end: int)
      returns (r: Result<(seq<int>, Prices)>)
    ensures r.Success? <==> exists dates :: ConvertsOnCommonDates(series, rates, base, start, end, dates)
    ensures r.Success? ==>
      var (dates, prices) := r.value;
      && ConvertsOnCommonDates(series, rates, base, start, end, dates)
      && prices.Keys == series.Keys
      && forall s :: s in series ==> RowOf(series[s], rates, base, dates, prices[s])
    ensures r.Failure? ==> r.error in {IncompleteSeries, RateUnavailable}
  {
    hide InWindow, Convertible, RowOf, Ascending, CountedDates, CutToWindow, OnEverySeries;
    var windowed := WindowPrices(series, start, end);
    var counted := CommonDates(windowed);
    forall dates | ConvertsOnCommonDates(series, rates, base, start, end, dates) ensures counted == dates {
      CommonAreCounted(series, rates, base, start, end, windowed, counted, dates);
    }
    if |counted| < 2 {
      return Failure(IncompleteSeries);
    }
    SomeListed(series, start, end, windowed, counted);
    var prices := ConvertedPrices(series, rates, base, counted);
    if prices.Failure? {
      return prices.PropagateFailure();
    }
    CountedAscends(windowed, counted);
    ConvertedDatesAreCommon(series, start, end, windowed, counted, rates, base);
    assert ConvertsOnCommonDates(series, rates, base, start, end, counted);
    r := Success((counted, prices.value));
  }

  lemma CountedAscends(prices: map<string, seq<Point>>, dates: seq<int>)
    requires CountedDates(prices, dates)
    ensures Ascending(dates)
  {
  }

  /** A window keeps the points from its first day to its last, both included. */
  lemma {:induction false} InWindowExactly(points: seq<Point>, start: int, end: int, p: Point)
    ensures p in InWindow(points, start, end) <==> p in points && start <= p.date && p.date <= end
  {
    if points != [] {
      var front := points[..|points| - 1];
      InWindowExactly(front, start, end, p);
      assert points == front + [points[|points| - 1]];
    }
  }

  /** What an award needs of a series: adjusted prices with known actions, neither stale nor
      synthetic. */
  lemma AwardsNeed(m: Metadata)
    ensures Meets(m, AWARDS) <==>
      m.priceType in {AdjustedClose, TotalReturn} && m.actionsKnown && !m.stale && !m.synthetic
  {
  }
}
