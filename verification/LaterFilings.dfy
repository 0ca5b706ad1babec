/** A later filing that changes an earlier point. */
module LaterFilings {
  import opened Money
  import opened Outcomes
  import opened Portfolio
  import opened Recipes
  import opened Flattening
  import opened Timelines
  import opened SeriesDates
  import opened IndexFormula
  import opened IndexRounding
  import opened Activation
  import opened Benchmark
  import opened Windows
  import IndexLaws

  const FIRST := RecipeVersion("F", "v1", 20260101000000, 20260101000000, None, FilingSnapshot, [Leg("OLD", "", 1.0)], CodeDefined)
  const SECOND := RecipeVersion("F", "v2", 20260107000000, 20260107000000, None, FilingSnapshot, [Leg("NEW", "", 1.0)], CodeDefined)
  const FILINGS: Store := map["F" := [FIRST, SECOND]]

  const DECLARED := Metadata("USD", AdjustedClose, false, true, false, false)
  const OLD_SERIES := Series([Point(20260105, 100.0, 0.0), Point(20260106, 110.0, 0.0), Point(20260108, 110.0, 0.0)], DECLARED)
  const NEW_SERIES := Series([Point(20260106, 50.0, 0.0), Point(20260108, 50.0, 0.0)], DECLARED)
  const LISTED := Market(map["OLD" := OLD_SERIES, "NEW" := NEW_SERIES], AWARDS, Rates(map[], 0.0, 0.0), "USD")

  const START := 20260105000000
  const NEAR := 20260106000000
  const FAR := 20260108000000

  const OLD_VERSION := Version(20260101, FilingSnapshot, [Component("OLD", 1.0)])
  const NEW_VERSION := Version(20260107, FilingSnapshot, [Component("NEW", 1.0)])

  const NEAR_REQUEST := Request([OLD_VERSION], [20260105, 20260106],
    map["OLD" := map[20260105 := 100.0, 20260106 := 110.0]], 20260106, EXACT)
  const FAR_REQUEST := Request([OLD_VERSION, NEW_VERSION], [20260106, 20260108],
    map["OLD" := map[20260106 := 110.0, 20260108 := 110.0], "NEW" := map[20260106 := 50.0, 20260108 := 50.0]], 20260108, EXACT)

  lemma FilingsKeyed()
    ensures Keyed(FILINGS)
  {
    assert AllNamed([FIRST, SECOND], "F");
  }

  lemma OneLegExpands(store: Store, asOf: int, s: string, visited: set<string>)
    requires Keyed(store) && s != ""
    ensures ExpandLegs(store, asOf, [Leg(s, "", 1.0)], 1.0, visited) == Success([Component(s, 1.0)])
  {
    var legs := [Leg(s, "", 1.0)];
    assert legs[..0] == [];
    assert ExpandLegs(store, asOf, [], 1.0, visited) == Success([]);
    assert ExpandLeg(store, asOf, legs[0], 1.0, visited) == Success([Component(s, 1.0)]);
    assert [] + [Component(s, 1.0)] == [Component(s, 1.0)];
  }

  lemma OneComponentMerges(s: string)
    ensures Merging.Merge([Component(s, 1.0)]) == [Component(s, 1.0)]
  {
    var cs := [Component(s, 1.0)];
    assert cs[..0] == [] && [s][..0] == [];
    assert Merging.FirstSeen(cs) == [] + [s] == [s];
    assert Merging.WeightOf(cs, s) == 1.0;
    assert Merging.Gather([s], cs) == [] + [Component(s, 1.0)] == cs;
  }

  lemma OneSymbolResolves(store: Store, v: RecipeVersion, s: string)
    requires Keyed(store) && s != "" && v.legs == [Leg(s, "", 1.0)]
    ensures ResolveOne(store, v) == Success(Version(DayOf(v.known), v.policy, [Component(s, 1.0)]))
  {
    hide Keyed, ExpandLegs, Merging.Merge, Admitted;
    assert v.recipe !in {};
    OneLegExpands(store, v.known, s, {} + {v.recipe});
    OneComponentMerges(s);
    OneComponentSound(s);
  }

  lemma LaterSnoc(vs: seq<RecipeVersion>, v: RecipeVersion, first: string, start: int, end: int)
    ensures Later(vs + [v], first, start, end) ==
      Later(vs, first, start, end) + if v.id != first && start < v.known <= end then [v] else []
  {
    assert (vs + [v])[..|vs|] == vs;
  }

  lemma FilingsLater(end: int)
    ensures Later([FIRST, SECOND], "v1", START, end) == if SECOND.known <= end then [SECOND] else []
  {
    LaterSnoc([], FIRST, "v1", START, end);
    LaterSnoc([FIRST], SECOND, "v1", START, end);
    assert [] + [FIRST] == [FIRST] && [FIRST] + [SECOND] == [FIRST, SECOND];
  }

  lemma FilingsSorted()
    ensures SortBy(ByKnownThenId, [FIRST]) == [FIRST]
    ensures SortBy(ByKnownThenId, [FIRST, SECOND]) == [FIRST, SECOND]
  {
    var vs := [FIRST, SECOND];
    assert vs[..1] == [FIRST] && [FIRST][..0] == [];
    assert SortBy(ByKnownThenId, [FIRST]) == Insert(ByKnownThenId, [], FIRST);
    assert SortBy(ByKnownThenId, vs) == Insert(ByKnownThenId, SortBy(ByKnownThenId, [FIRST]), SECOND);
    assert [FIRST] + [SECOND] == vs;
  }

  lemma FilingsSelected()
    ensures Selected(FILINGS, "F", START) == Success(FIRST)
  {
    var vs := [FIRST, SECOND];
    assert vs[..1] == [FIRST];
    assert LastKnown(vs, START) == LastKnown([FIRST], START) == Some(FIRST);
  }

  lemma FilingsRelevant()
    ensures Relevant(FILINGS, "F", START, NEAR) == Success([FIRST])
    ensures Relevant(FILINGS, "F", START, FAR) == Success([FIRST, SECOND])
  {
    hide Later, SortBy, Selected;
    FilingsSelected();
    FilingsLater(NEAR);
    FilingsLater(FAR);
    FilingsSorted();
    assert [FIRST] + [] == [FIRST] && [FIRST] + [SECOND] == [FIRST, SECOND];
  }

  lemma ResolveSnoc(store: Store, vs: seq<RecipeVersion>, v: RecipeVersion)
    requires Keyed(store) && ResolveAll(store, vs).Success? && ResolveOne(store, v).Success?
    ensures ResolveAll(store, vs + [v]) == Success(ResolveAll(store, vs).value + [ResolveOne(store, v).value])
  {
    hide ResolveOne, Keyed;
    assert (vs + [v])[..|vs|] == vs;
  }

  lemma ResolveIs(store: Store, recipe: string, start: int, end: int, vs: seq<RecipeVersion>, ts: seq<Version>)
    requires Keyed(store) && Relevant(store, recipe, start, end) == Success(vs)
    requires |vs| > 0 && vs[0].policy == FilingSnapshot && ResolveAll(store, vs) == Success(ts)
    ensures Resolve(store, recipe, start, end) == Success(ts)
  {
    hide Keyed, Relevant, ResolveAll;
  }

  lemma FilingsResolveAll()
    requires Keyed(FILINGS)
    ensures ResolveAll(FILINGS, [FIRST]) == Success([OLD_VERSION])
    ensures ResolveAll(FILINGS, [FIRST, SECOND]) == Success([OLD_VERSION, NEW_VERSION])
  {
    assert ResolveAll(FILINGS, []) == Success([]);
    assert DayOf(FIRST.known) == 20260101 && DayOf(SECOND.known) == 20260107;
    hide *;
    OneSymbolResolves(FILINGS, FIRST, "OLD");
    OneSymbolResolves(FILINGS, SECOND, "NEW");
    ResolveSnoc(FILINGS, [], FIRST);
    assert [] + [FIRST] == [FIRST] && [] + [OLD_VERSION] == [OLD_VERSION];
    ResolveSnoc(FILINGS, [FIRST], SECOND);
    assert [FIRST] + [SECOND] == [FIRST, SECOND] && [OLD_VERSION] + [NEW_VERSION] == [OLD_VERSION, NEW_VERSION];
  }

  lemma FilingsResolve()
    ensures Keyed(FILINGS)
    ensures Resolve(FILINGS, "F", START, NEAR) == Success(NEAR_REQUEST.timeline)
    ensures Resolve(FILINGS, "F", START, FAR) == Success(FAR_REQUEST.timeline)
  {
    assert FIRST.policy == FilingSnapshot;
    assert NEAR_REQUEST.timeline == [OLD_VERSION] && FAR_REQUEST.timeline == [OLD_VERSION, NEW_VERSION];
    hide *;
    FilingsKeyed();
    FilingsRelevant();
    FilingsResolveAll();
    ResolveIs(FILINGS, "F", START, NEAR, [FIRST], [OLD_VERSION]);
    ResolveIs(FILINGS, "F", START, FAR, [FIRST, SECOND], [OLD_VERSION, NEW_VERSION]);
  }

  lemma VersionsNamed(s: string)
    ensures Names([OLD_VERSION], s) <==> s == "OLD"
    ensures Names([OLD_VERSION, NEW_VERSION], s) <==> s == "OLD" || s == "NEW"
  {
    assert Symbols(OLD_VERSION.components) == {"OLD"} by { assert OLD_VERSION.components[0].symbol == "OLD"; }
    assert Symbols(NEW_VERSION.components) == {"NEW"} by { assert NEW_VERSION.components[0].symbol == "NEW"; }
    var both := [OLD_VERSION, NEW_VERSION];
    assert both[0] == OLD_VERSION && both[1] == NEW_VERSION && [OLD_VERSION][0] == OLD_VERSION;
    hide Symbols;
  }

  lemma SeriesDated(d: int)
    ensures HasDate(OLD_SERIES.points, d) <==> d in {20260105, 20260106, 20260108}
    ensures HasDate(NEW_SERIES.points, d) <==> d in {20260106, 20260108}
  {
    assert OLD_SERIES.points[0].date == 20260105 && OLD_SERIES.points[1].date == 20260106;
    assert OLD_SERIES.points[2].date == 20260108;
    assert NEW_SERIES.points[0].date == 20260106 && NEW_SERIES.points[1].date == 20260108;
  }

  lemma PointConverts(series: Series, i: nat)
    requires ValidPoints(series.points, false) && series.meta.currency == "USD" && i < |series.points|
    ensures Converted(series, LISTED.rates, "USD", series.points[i].date) == Success(series.points[i].adjusted)
  {
    PriceAtPoint(series.points, i);
    assert PointValue(series.points[i], false) > 0.0;
  }

  lemma SeriesConverted()
    ensures forall i :: 0 <= i < 3 ==>
      Converted(OLD_SERIES, LISTED.rates, "USD", OLD_SERIES.points[i].date) == Success(OLD_SERIES.points[i].adjusted)
    ensures forall i :: 0 <= i < 2 ==>
      Converted(NEW_SERIES, LISTED.rates, "USD", NEW_SERIES.points[i].date) == Success(NEW_SERIES.points[i].adjusted)
  {
    forall i | 0 <= i < 3 { PointConverts(OLD_SERIES, i); }
    forall i | 0 <= i < 2 { PointConverts(NEW_SERIES, i); }
  }

  lemma OneComponentSound(s: string)
    ensures Distinct([Component(s, 1.0)]) && Admitted([Component(s, 1.0)])
  {
    assert [Component(s, 1.0)][..0] == [];
  }

  lemma NearDates()
    ensures RunDates(NEAR_REQUEST.timeline, LISTED, 20260105, 20260106, NEAR_REQUEST.dates)
  {
    SeriesConverted();
    assert OLD_SERIES.points[0].date == 20260105 && OLD_SERIES.points[1].date == 20260106;
    hide Converted, HasDate, Names;
    forall s { VersionsNamed(s); }
    var a := NEAR_REQUEST;
    forall d ensures d in a.dates <==> CommonDate(a.timeline, LISTED.provider, 20260105, 20260106, d) {
      SeriesDated(d);
    }
    assert Convertible(OLD_SERIES, LISTED.rates, "USD", a.dates);
  }

  lemma NearPriced()
    ensures PricedFor(NEAR_REQUEST.timeline, LISTED, NEAR_REQUEST.dates, NEAR_REQUEST.prices)
  {
    SeriesConverted();
    assert OLD_SERIES.points[0].date == 20260105 && OLD_SERIES.points[1].date == 20260106;
    hide Converted, HasDate, Names;
    forall s { VersionsNamed(s); }
    var a := NEAR_REQUEST;
    assert RowOf(OLD_SERIES, LISTED.rates, "USD", a.dates, a.prices["OLD"]);
  }

  lemma TimelinesSound()
    ensures AllSound(NEAR_REQUEST.timeline) && InPublicOrder(NEAR_REQUEST.timeline) && PolicyServed(NEAR_REQUEST.timeline)
    ensures AllSound(FAR_REQUEST.timeline) && InPublicOrder(FAR_REQUEST.timeline) && PolicyServed(FAR_REQUEST.timeline)
  {
    OneComponentSound("OLD");
    OneComponentSound("NEW");
    hide Distinct, Admitted;
  }

  lemma NearPrepared()
    ensures Keyed(FILINGS) && Prepared(FILINGS, "F", START, NEAR, LISTED, NEAR_REQUEST)
  {
    FilingsResolve();
    NearDates();
    NearPriced();
    TimelinesSound();
    assert DayOf(START) == 20260105 && DayOf(NEAR) == 20260106;
    hide Resolve, Keyed, RunDates, PricedFor, AllSound, InPublicOrder, PolicyServed;
  }

  lemma FarDates()
    ensures RunDates(FAR_REQUEST.timeline, LISTED, 20260105, 20260108, FAR_REQUEST.dates)
  {
    SeriesConverted();
    assert OLD_SERIES.points[1].date == 20260106 && OLD_SERIES.points[2].date == 20260108;
    assert NEW_SERIES.points[0].date == 20260106 && NEW_SERIES.points[1].date == 20260108;
    hide Converted, HasDate, Names;
    forall s { VersionsNamed(s); }
    var b := FAR_REQUEST;
    forall d ensures d in b.dates <==> CommonDate(b.timeline, LISTED.provider, 20260105, 20260108, d) {
      SeriesDated(d);
      assert Names(b.timeline, "OLD") && Names(b.timeline, "NEW");
    }
    assert Convertible(OLD_SERIES, LISTED.rates, "USD", b.dates);
    assert Convertible(NEW_SERIES, LISTED.rates, "USD", b.dates);
  }

  lemma FarPriced()
    ensures PricedFor(FAR_REQUEST.timeline, LISTED, FAR_REQUEST.dates, FAR_REQUEST.prices)
  {
    SeriesConverted();
    assert OLD_SERIES.points[1].date == 20260106 && OLD_SERIES.points[2].date == 20260108;
    assert NEW_SERIES.points[0].date == 20260106 && NEW_SERIES.points[1].date == 20260108;
    hide Converted, HasDate, Names;
    forall s { VersionsNamed(s); }
    var b := FAR_REQUEST;
    assert RowOf(OLD_SERIES, LISTED.rates, "USD", b.dates, b.prices["OLD"]);
    assert RowOf(NEW_SERIES, LISTED.rates, "USD", b.dates, b.prices["NEW"]);
  }

  lemma FarPrepared()
    ensures Keyed(FILINGS) && Prepared(FILINGS, "F", START, FAR, LISTED, FAR_REQUEST)
  {
    FilingsResolve();
    FarDates();
    FarPriced();
    TimelinesSound();
    assert DayOf(START) == 20260105 && DayOf(FAR) == 20260108;
    hide Resolve, Keyed, RunDates, PricedFor, AllSound, InPublicOrder, PolicyServed;
  }

  lemma OneComponentBlend(s: string, prices: Prices, from: int, to: int)
    ensures Blend([Component(s, 1.0)], prices, from, to) == Growth(prices, s, from, to)
    ensures TotalWeight([Component(s, 1.0)]) == 1.0
    ensures Allocatable([Component(s, 1.0)], prices, from) <==> PriceAt(prices, s, from) > 0.0
  {
    var cs := [Component(s, 1.0)];
    assert cs[..0] == [] && cs[0].symbol == s;
  }

  lemma NearRun()
    ensures RunTo(NEAR_REQUEST, 1).Success? && RunTo(NEAR_REQUEST, 1).value.points == [100.0, 110.0]
  {
    var a := NEAR_REQUEST;
    OneComponentSound("OLD");
    OneComponentBlend("OLD", a.prices, 20260105, 20260106);
    OneComponentBlend("OLD", a.prices, 20260106, 20260106);
    assert Growth(a.prices, "OLD", 20260105, 20260106) == 1.1;
    hide Blend, Allocatable, Distinct, Admitted, TotalWeight, Growth;
    assert Active(a, 0) == 1 && Active(a, 1) == 1 && LastReset(a, 0) == 0;
    assert IndexAt(a, 1) == Mul(100.0, 1.1);
    assert Closes(a, 1) && ClosesThrough(a, 1);
    LoopIsFormula(a, 1);
  }

  lemma FarSchedule()
    ensures Active(FAR_REQUEST, 0) == 1 && Active(FAR_REQUEST, 1) == 2 && LastReset(FAR_REQUEST, 0) == 0
    ensures InEffect(FAR_REQUEST, 0) == [Component("OLD", 1.0)] && InEffect(FAR_REQUEST, 1) == [Component("NEW", 1.0)]
  {
  }

  lemma FarPrices()
    ensures var p := FAR_REQUEST.prices;
      && PriceAt(p, "OLD", 20260106) == 110.0 && PriceAt(p, "OLD", 20260108) == 110.0 && PriceAt(p, "NEW", 20260108) == 50.0
      && Growth(p, "OLD", 20260106, 20260108) == 1.0
  {
  }

  lemma FarCloses()
    ensures WellFormed(FAR_REQUEST) && ClosesThrough(FAR_REQUEST, 1)
    ensures IndexAt(FAR_REQUEST, 0) == 100.0 && IndexAt(FAR_REQUEST, 1) == 100.0
  {
    var b := FAR_REQUEST;
    FarSchedule();
    FarPrices();
    OneComponentSound("OLD");
    OneComponentSound("NEW");
    OneComponentBlend("OLD", b.prices, 20260106, 20260108);
    OneComponentBlend("OLD", b.prices, 20260108, 20260108);
    OneComponentBlend("NEW", b.prices, 20260108, 20260108);
    hide Blend, Allocatable, Distinct, Admitted, TotalWeight, Growth, PriceAt, Active, LastReset, InEffect, Resets;
    assert IndexAt(b, 1) == Mul(100.0, 1.0);
    assert Closes(b, 1);
  }

  lemma FarRun()
    ensures RunTo(FAR_REQUEST, 1).Success? && RunTo(FAR_REQUEST, 1).value.points == [100.0, 100.0]
  {
    hide RunTo, IndexAt, ClosesThrough, WellFormed, Matches;
    FarCloses();
    LoopIsFormula(FAR_REQUEST, 1);
    IndexLaws.MatchesPoint(FAR_REQUEST, 1, RunTo(FAR_REQUEST, 1).value, 0);
    IndexLaws.MatchesPoint(FAR_REQUEST, 1, RunTo(FAR_REQUEST, 1).value, 1);
  }

  lemma ListedUsable(timeline: seq<Version>)
    requires forall s :: Names(timeline, s) ==> s == "OLD" || s == "NEW"
    ensures AllUsable(timeline, LISTED) && !Blank(LISTED.base)
  {
    assert "USD"[0] == 'U' && !Blank("USD");
    assert Usable(OLD_SERIES, AWARDS) && Usable(NEW_SERIES, AWARDS);
    hide Usable, Names, OLD_SERIES, NEW_SERIES;
  }

  lemma BothServed()
    ensures Keyed(FILINGS) && START < NEAR < FAR && !Blank(LISTED.base)
    ensures Servable(FILINGS, "F", START, NEAR, LISTED) && Servable(FILINGS, "F", START, FAR, LISTED)
  {
    hide Prepared, Servable, AllUsable, Keyed, Names, Blank;
    forall s { VersionsNamed(s); }
    ListedUsable(NEAR_REQUEST.timeline);
    ListedUsable(FAR_REQUEST.timeline);
    NearPrepared();
    FarPrepared();
    PreparedIsServable(FILINGS, "F", START, NEAR, LISTED, NEAR_REQUEST);
    PreparedIsServable(FILINGS, "F", START, FAR, LISTED, FAR_REQUEST);
  }

  /** The filing of 2026-01-07 names a symbol first priced on 2026-01-06. Up to 2026-01-06
      the index starts on the 5th and stands at 110 on the 6th; up to 2026-01-08 the 5th is
      gone, and the same 6th is the start, at 100. The engine serves both evaluations, and
      both are complete. */
  lemma LaterFilingChangesAnEarlierPoint()
    ensures Keyed(FILINGS) && Windowed(FILINGS, "F", START, NEAR, FAR, LISTED, NEAR_REQUEST, FAR_REQUEST)
    ensures START < NEAR < FAR && !Blank(LISTED.base)
    ensures Servable(FILINGS, "F", START, NEAR, LISTED) && Servable(FILINGS, "F", START, FAR, LISTED)
    ensures RunTo(NEAR_REQUEST, 1).Success? && RunTo(FAR_REQUEST, 1).Success?
    ensures NEAR_REQUEST.dates[1] == FAR_REQUEST.dates[0]
    ensures RunTo(NEAR_REQUEST, 1).value.points[1] == 110.0 && RunTo(FAR_REQUEST, 1).value.points[0] == 100.0
    ensures !NearDatesPriced(NEAR_REQUEST, FAR_REQUEST, LISTED)
  {
    NearPrepared();
    FarPrepared();
    NearRun();
    FarRun();
    BothServed();
    hide Prepared, RunTo, Keyed, Servable, Blank;
    VersionsNamed("NEW");
    SeriesDated(20260105);
    assert 20260105 in NEAR_REQUEST.dates;
    assert !PricedOnAll(LISTED, "NEW", NEAR_REQUEST.dates);
  }
}
