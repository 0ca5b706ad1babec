/** A whole benchmark evaluation: versions, series, dates, prices, then the run. */
module Benchmark {
  import opened Outcomes
  import opened Portfolio
  import opened Recipes
  import opened Flattening
  import opened Timelines
  import opened SeriesDates
  import opened IndexFormula
  import opened IndexRounding
  import opened Activation

  ghost predicate Names(timeline: seq<Version>, symbol: string) {
    exists k :: 0 <= k < |timeline| && symbol in Symbols(timeline[k].components)
  }

  /** Every symbol any version of the timeline holds. */
  method SymbolsOf(timeline: seq<Version>) returns (symbols: set<string>)
    ensures forall s :: s in symbols <==> Names(timeline, s)
  {
    symbols := {};
    for k := 0 to |timeline|
      invariant forall s :: s in symbols <==> Names(timeline[..k], s)
    {
      var components := timeline[k].components;
      var found: set<string> := {};
      for i := 0 to |components|
        invariant found == Symbols(components[..i])
      {
        assert Symbols(components[..i + 1]) == Symbols(components[..i]) + {components[i].symbol} by {
          assert components[..i + 1] == components[..i] + [components[i]];
        }
        found := found + {components[i].symbol};
      }
      assert components[..|components|] == components;
      forall s {
        NamesOneMore(timeline, k, s);
      }
      hide Names, Symbols;
      symbols := symbols + found;
    }
    assert timeline[..|timeline|] == timeline;
  }

  lemma NamesOneMore(timeline: seq<Version>, k: nat, s: string)
    requires k < |timeline|
    ensures Names(timeline[..k + 1], s) <==> Names(timeline[..k], s) || s in Symbols(timeline[k].components)
  {
    hide Symbols;
    assert timeline[..k + 1] == timeline[..k] + [timeline[k]];
    if Names(timeline[..k], s) {
      var j :| 0 <= j < k && s in Symbols(timeline[..k][j].components);
      assert s in Symbols(timeline[..k + 1][j].components);
    }
    if s in Symbols(timeline[k].components) {
      assert s in Symbols(timeline[..k + 1][k].components);
    }
  }

  predicate Usable(series: Series, need: Requirement) {
    && ValidPoints(series.points, series.meta.priceType == RawClose)
    && Meets(series.meta, need) && !Blank(series.meta.currency)
  }

  /** loadSeries: one series that meets the requirement, in a declared currency, for each
      symbol. */
  method LoadSeries(symbols: set<string>, provider: map<string, Series>, need: Requirement)
      returns (r: Result<map<string, Series>>)
    ensures r.Success? <==> forall s :: s in symbols ==> s in provider && Usable(provider[s], need)
    ensures r.Success? ==> r.value.Keys == symbols && forall s :: s in symbols ==> r.value[s] == provider[s]
  {
    var out: map<string, Series> := map[];
    var todo := symbols;
    while todo != {}
      invariant todo <= symbols && out.Keys == symbols - todo
      invariant forall s :: s in out ==> s in provider && out[s] == provider[s] && Usable(provider[s], need)
      decreases todo
    {
      var symbol :| symbol in todo;
      if symbol !in provider {
        return Failure(SeriesUnavailable);
      }
      var valid := ValidateSeries(provider[symbol], need);
      if valid.Failure? {
        return valid.PropagateFailure();
      }
      if Blank(provider[symbol].meta.currency) {
        return Failure(CurrencyUnavailable);
      }
      hide ValidPoints, Meets;
      out := out[symbol := provider[symbol]];
      todo := todo - {symbol};
    }
    r := Success(out);
  }

  // ---- what an evaluation needs --------------------------------------------------------

  /** Where an evaluation gets its data, and what it asks of it. */
  datatype Market = Market(provider: map<string, Series>, need: Requirement, rates: Rates, base: string)

  /** A day of the window on which every symbol of the timeline has a point. */
  ghost predicate CommonDate(timeline: seq<Version>, provider: map<string, Series>, start: int, end: int, d: int) {
    start <= d <= end && forall s :: Names(timeline, s) ==> s in provider && HasDate(provider[s].points, d)
  }

  /** The common dates, at least two, on which every symbol converts. */
  ghost predicate RunDates(timeline: seq<Version>, m: Market, start: int, end: int, dates: seq<int>) {
    && |dates| >= 2 && Ascending(dates)
    && (forall d :: d in dates <==> CommonDate(timeline, m.provider, start, end, d))
    && (forall s :: Names(timeline, s) ==> s in m.provider && Convertible(m.provider[s], m.rates, m.base, dates))
  }

  ghost predicate AllUsable(timeline: seq<Version>, m: Market) {
    forall s :: Names(timeline, s) ==> s in m.provider && Usable(m.provider[s], m.need)
  }

  ghost predicate PolicyServed(timeline: seq<Version>) {
    |timeline| > 0 && OnePolicy(timeline)
  }

  /** Everything the engine asks for before its loop: a timeline under one supported policy,
      a usable series for each symbol any of its versions names, and two dates common to all
      of them that convert. */
  ghost predicate Servable(store: Store, recipe: string, start: int, end: int, m: Market)
    requires Keyed(store)
  {
    var timeline := Resolve(store, recipe, start, end);
    && timeline.Success?
    && PolicyServed(timeline.value)
    && AllUsable(timeline.value, m)
    && exists dates :: RunDates(timeline.value, m, DayOf(start), DayOf(end), dates)
  }

  /** Why an evaluation was refused, in the order the engine looks. */
  ghost predicate RefusedFor(store: Store, recipe: string, start: int, end: int, m: Market, error: Error)
    requires Keyed(store)
  {
    match Resolve(store, recipe, start, end)
    case Failure(e) => error == e
    case Success(timeline) =>
      if !PolicyServed(timeline) then error == UnsupportedPolicy
      else AllUsable(timeline, m) ==> error in {IncompleteSeries, RateUnavailable}
  }

  /** What the engine hands to its loop meets every assumption the laws about it make: the
      timeline is the resolved one, in public order, its symbols unrepeated and its weights
      admitted; the dates ascend and are those common to every symbol's series. */
  ghost predicate Prepared(store: Store, recipe: string, start: int, end: int, m: Market, req: Request)
    requires Keyed(store)
  {
    && Resolve(store, recipe, start, end) == Success(req.timeline)
    && PolicyServed(req.timeline) && InPublicOrder(req.timeline) && AllSound(req.timeline)
    && RunDates(req.timeline, m, DayOf(start), DayOf(end), req.dates)
    && PricedFor(req.timeline, m, req.dates, req.prices)
    && req.end == DayOf(end)
  }

  ghost predicate AllSound(timeline: seq<Version>) {
    forall k :: 0 <= k < |timeline| ==> Distinct(timeline[k].components) && Admitted(timeline[k].components)
  }

  /** One row of converted prices for each symbol named. */
  ghost predicate PricedFor(timeline: seq<Version>, m: Market, dates: seq<int>, prices: Prices) {
    && (forall s :: s in prices <==> Names(timeline, s))
    && (forall s :: s in prices ==> s in m.provider && RowOf(m.provider[s], m.rates, m.base, dates, prices[s]))
  }

  lemma SomeName(timeline: seq<Version>)
    requires |timeline| > 0 && Admitted(timeline[0].components)
    ensures exists s :: Names(timeline, s)
  {
    assert timeline[0].components != [];
    var s := timeline[0].components[0].symbol;
    assert s in Symbols(timeline[0].components);
    assert Names(timeline, s);
  }

  /** The loaded series are the provider's for the symbols named, so the engine's dates are
      the common ones of the provider's series. */
  ghost predicate LoadedFor(timeline: seq<Version>, provider: map<string, Series>, series: map<string, Series>) {
    && (forall s :: s in series <==> Names(timeline, s))
    && (forall s :: s in series ==> s in provider && series[s] == provider[s])
  }

  lemma DatesOfSymbols(timeline: seq<Version>, m: Market, series: map<string, Series>, start: int, end: int,
      dates: seq<int>)
    requires LoadedFor(timeline, m.provider, series) && exists s :: Names(timeline, s)
    ensures ConvertsOnCommonDates(series, m.rates, m.base, start, end, dates) <==> RunDates(timeline, m, start, end, dates)
  {
    hide Names, HasDate, Convertible, Ascending;
    var s :| Names(timeline, s);
    assert s in series;
    forall d ensures OnEverySeries(series, start, end, d) <==> CommonDate(timeline, m.provider, start, end, d) {}
  }

  /** Everything before the loop, in the engine's order of refusals: a request comes out
      exactly when the evaluation can be served. */
  method Prepare(store: Store, recipe: string, start: int, end: int, m: Market, precision: Precision)
      returns (r: Result<Request>)
    requires Keyed(store)
    ensures r.Success? <==> Servable(store, recipe, start, end, m)
    ensures r.Success? ==> Prepared(store, recipe, start, end, m, r.value) && r.value.precision == precision
    ensures r.Failure? ==> RefusedFor(store, recipe, start, end, m, r.error)
  {
    hide Keyed, Resolve, Admitted, RowOf, Names, Symbols, Usable, HasDate, Distinct, InPublicOrder, RunDates,
         ConvertsOnCommonDates;
    var timeline := ResolveTimeline(store, recipe, start, end);
    if timeline.Failure? {
      return timeline.PropagateFailure();
    }
    TimelineIsSound(store, recipe, start, end);
    SomeName(timeline.value);
    var ok := CheckPolicy(timeline.value);
    if !ok {
      return Failure(UnsupportedPolicy);
    }
    hide OnePolicy;
    var symbols := SymbolsOf(timeline.value);
    var series := LoadSeries(symbols, m.provider, m.need);
    if series.Failure? {
      return series.PropagateFailure();
    }
    forall dates {
      DatesOfSymbols(timeline.value, m, series.value, DayOf(start), DayOf(end), dates);
    }
    var window := DatesAndPrices(series.value, m.rates, m.base, DayOf(start), DayOf(end));
    if window.Failure? {
      return window.PropagateFailure();
    }
    var (dates, prices) := window.value;
    r := Success(Request(timeline.value, dates, prices, DayOf(end), precision));
  }

  /** With usable series a prepared request is one the engine serves. */
  lemma PreparedIsServable(store: Store, recipe: string, start: int, end: int, m: Market, req: Request)
    requires Keyed(store) && Prepared(store, recipe, start, end, m, req) && AllUsable(req.timeline, m)
    ensures Servable(store, recipe, start, end, m)
  {
    hide Resolve, AllUsable, AllSound, PricedFor, RunDates, InPublicOrder, PolicyServed;
  }

  lemma NothingLeftToRefuse(store: Store, recipe: string, start: int, end: int, m: Market, req: Request)
    requires Keyed(store) && Prepared(store, recipe, start, end, m, req)
    ensures |req.timeline| > 0 && |req.dates| >= 2 && Refusal(req).None?
  {
    hide Resolve, AllSound, InPublicOrder, PricedFor, Names, CommonDate, Convertible, OnePolicy;
  }

  /** CalculateIndex: refused before its loop, or the loop's result over a prepared request,
      which has nothing left to refuse it for. */
  method CalculateIndex(store: Store, recipe: string, start: int, end: int, m: Market, precision: Precision)
      returns (r: Result<Progress>, req: Option<Request>)
    requires Keyed(store)
    ensures req.Some? <==> start < end && !Blank(m.base) && Servable(store, recipe, start, end, m)
    ensures req.Some? ==> IsRunOf(store, recipe, start, end, m, precision, r, req.value)
    ensures req.None? ==> r.Failure?
    ensures req.None? && start < end && !Blank(m.base) ==> RefusedFor(store, recipe, start, end, m, r.error)
    ensures end <= start ==> r == Failure(IncompleteSeries)
    ensures start < end && Blank(m.base) ==> r == Failure(CurrencyUnavailable)
  {
    hide Prepared, Servable, RefusedFor, RunTo, Refusal;
    req := None;
    if end <= start {
      return Failure(IncompleteSeries), None;
    }
    if Blank(m.base) {
      return Failure(CurrencyUnavailable), None;
    }
    var prepared := Prepare(store, recipe, start, end, m, precision);
    if prepared.Failure? {
      return prepared.PropagateFailure(), None;
    }
    NothingLeftToRefuse(store, recipe, start, end, m, prepared.value);
    req := Some(prepared.value);
    r := Portfolio.CalculateIndex(prepared.value);
  }

  /** The outcome is the loop's over a request prepared for the window. */
  ghost predicate IsRunOf(store: Store, recipe: string, start: int, end: int, m: Market, precision: Precision,
      r: Result<Progress>, req: Request)
    requires Keyed(store)
  {
    && Prepared(store, recipe, start, end, m, req) && req.precision == precision
    && |req.timeline| > 0 && |req.dates| > 0
    && r == RunTo(req, |req.dates| - 1)
  }

  /** The service from its list of versions: the store it builds is the one its evaluations
      run on, and they open with the newest version public at the start. */
  method EvaluateVersions(versions: seq<RecipeVersion>, recipe: string, start: int, end: int, m: Market,
                          precision: Precision)
      returns (r: Result<Progress>, store: Store, req: Option<Request>)
    ensures req.Some? ==>
      && Holds(store, versions) && Keyed(store) && IsRunOf(store, recipe, start, end, m, precision, r, req.value)
      && OpensWithNewest(versions, recipe, start, req.value)
    ensures req.None? ==> r.Failure?
    ensures AllValid(versions) && DistinctNames(versions) && (forall r :: !Collides(versions, r)) ==>
      && Holds(store, versions) && Keyed(store)
      && (req.Some? <==> start < end && !Blank(m.base) && Servable(store, recipe, start, end, m))
  {
    hide Holds, Keyed, Prepared, RunTo, Servable, AllValid, DistinctNames, Collides, OpensWithNewest, RefusedFor;
    var built := NewVersionedRecipeStore(versions);
    if built.Failure? {
      return built.PropagateFailure(), map[], None;
    }
    store := built.value;
    BuiltStoresAreKeyed(store, versions);
    r, req := CalculateIndex(store, recipe, start, end, m, precision);
    if req.Some? {
      PreparedOpensWithNewest(store, versions, recipe, start, end, m, req.value);
    }
  }

  ghost predicate OpensWithNewest(versions: seq<RecipeVersion>, recipe: string, start: int, req: Request) {
    && |req.timeline| > 0
    && exists v :: IsNewest(versions, recipe, start, v) && req.timeline[0].known == DayOf(v.known)
  }

  lemma PreparedOpensWithNewest(store: Store, versions: seq<RecipeVersion>, recipe: string, start: int, end: int,
      m: Market, req: Request)
    requires Holds(store, versions) && Keyed(store) && Prepared(store, recipe, start, end, m, req)
    ensures OpensWithNewest(versions, recipe, start, req)
  {
    hide RunDates, PricedFor, AllSound, InPublicOrder, ResolveOne, Holds, IsNewest;
    RelevantIsTheWindow(store, recipe, start, end);
    var vs := Kept(Relevant(store, recipe, start, end).value);
    ResolvedAt(store, vs, 0);
    ResolvedMeans(store, vs[0]);
    SelectsNewest(store, versions, recipe, start);
    assert vs[0] == Selected(store, recipe, start).value;
  }
}
