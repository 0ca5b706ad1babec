/** No look-ahead: what lies after a date changes no point up to it. */
module IndexCausality {
  import opened Outcomes
  import opened Portfolio
  import opened IndexFormula
  import opened IndexLaws

  ghost predicate SamePrices(a: Prices, b: Prices, symbols: set<string>, date: int) {
    forall s :: s in symbols ==> PriceAt(a, s, date) == PriceAt(b, s, date)
  }

  /** The versions of a public before the day are also those of b, in the same places. */
  ghost predicate KnowsAsMuch(a: Request, b: Request, day: int) {
    forall k :: 0 < k < |a.timeline| && a.timeline[k].known < day ==> k < |b.timeline| && b.timeline[k] == a.timeline[k]
  }

  /** The version can have been in effect by the day. */
  predicate InPlay(req: Request, k: nat, day: int)
    requires k < |req.timeline|
  {
    k == 0 || req.timeline[k].known < day
  }

  ghost predicate VersionPriced(a: Request, b: Request, n: nat, k: nat)
    requires k < |a.timeline| && n <= |a.dates|
  {
    forall i :: 0 <= i < n ==> SamePrices(a.prices, b.prices, Symbols(a.timeline[k].components), a.dates[i])
  }

  /** Two requests that cannot be told apart by the first n dates: later dates, later
      prices, later filings with whatever symbols they name, and the requested end may all
      differ. */
  ghost predicate SamePast(a: Request, b: Request, n: nat) {
    && 0 < n <= |a.dates| && n <= |b.dates| && a.dates[..n] == b.dates[..n]
    && |a.timeline| > 0 && |b.timeline| > 0 && a.timeline[0] == b.timeline[0]
    && a.precision == b.precision
    && (forall k :: 0 <= k < |a.timeline| && InPlay(a, k, a.dates[n - 1]) ==> VersionPriced(a, b, n, k))
    && KnowsAsMuch(a, b, a.dates[n - 1]) && KnowsAsMuch(b, a, a.dates[n - 1])
  }

  lemma Shared(a: Request, b: Request, n: nat, i: nat)
    requires SamePast(a, b, n) && i < n
    ensures 0 < n <= |a.dates| && n <= |b.dates| && a.dates[i] == b.dates[i]
    ensures |a.timeline| > 0 && |b.timeline| > 0 && a.timeline[0] == b.timeline[0]
    ensures a.precision == b.precision
  {
    assert a.dates[i] == a.dates[..n][i] == b.dates[i];
  }

  lemma SharedPrices(a: Request, b: Request, n: nat, i: nat, k: nat)
    requires SamePast(a, b, n) && i < n && k < |a.timeline| && InPlay(a, k, a.dates[n - 1])
    ensures SamePrices(a.prices, b.prices, Symbols(a.timeline[k].components), a.dates[i])
  {
    assert VersionPriced(a, b, n, k);
  }

  // ---- parts of a close ----------------------------------------------------------------

  lemma {:induction false} WorthAgrees(symbols: set<string>, holdings: map<string, real>, a: Prices, b: Prices,
      date: int)
    requires symbols <= holdings.Keys && SamePrices(a, b, symbols, date)
    ensures Worth(symbols, holdings, a, date) == Worth(symbols, holdings, b, date)
  {
    if symbols != {} {
      var s :| s in symbols;
      WorthPeels(symbols, holdings, a, date, s);
      WorthPeels(symbols, holdings, b, date, s);
      WorthAgrees(symbols - {s}, holdings, a, b, date);
    }
  }

  lemma ValueAgrees(holdings: map<string, real>, a: Prices, b: Prices, date: int, precision: Precision)
    requires SamePrices(a, b, holdings.Keys, date)
    ensures ValueAt(holdings, a, date, precision) == ValueAt(holdings, b, date, precision)
  {
    WorthAgrees(holdings.Keys, holdings, a, b, date);
  }

  lemma {:induction false} UnitsAgree(components: seq<Component>, nav: real, a: Prices, b: Prices, date: int,
      precision: Precision)
    requires SamePrices(a, b, Symbols(components), date)
    ensures Allocatable(components, a, date) <==> Allocatable(components, b, date)
    ensures Allocatable(components, a, date) ==>
      Units(components, nav, a, date, precision) == Units(components, nav, b, date, precision)
  {
    if components != [] {
      var front, last := components[..|components| - 1], components[|components| - 1];
      assert components == front + [last];
      assert Symbols(components) == Symbols(front) + {last.symbol};
      UnitsAgree(front, nav, a, b, date, precision);
      AllocatablePeels(components, a, date);
      AllocatablePeels(components, b, date);
    }
  }

  /** What is held is the version in effect. */
  ghost predicate HoldsItsVersion(req: Request, r: Progress) {
    Started(req, r) && r.holdings.Keys == Symbols(req.timeline[r.next - 1].components)
  }

  lemma CloseHoldsItsVersion(req: Request, r: Progress, i: nat)
    requires HoldsItsVersion(req, r) && i < |req.dates| && Close(req, r, i).Success?
    ensures HoldsItsVersion(req, Close(req, r, i).value)
  {
    CloseBuys(req, r, i);
    hide Close, Units, Allocatable, Symbols;
    var c := Close(req, r, i).value;
    if Rebalances(req, r, i) {
      UnitsHoldSymbols(req.timeline[c.next - 1].components, c.points[|c.points| - 1], req.prices, req.dates[i], req.precision);
    }
  }

  /** What a close does to the holdings: a rebalance buys the version in effect at the new
      point, any other close keeps them and the version. */
  lemma CloseBuys(req: Request, r: Progress, i: nat)
    requires Started(req, r) && i < |req.dates| && Close(req, r, i).Success?
    ensures var c := Close(req, r, i).value;
      && Started(req, c) && c.points == r.points + [c.points[|r.points|]]
      && ValueAt(r.holdings, req.prices, req.dates[i], req.precision) == Success(c.points[|r.points|])
      && if Rebalances(req, r, i) then
           && Allocatable(req.timeline[c.next - 1].components, req.prices, req.dates[i]) && c.since == i
           && c.holdings == Units(req.timeline[c.next - 1].components, c.points[|r.points|], req.prices, req.dates[i], req.precision)
         else c.holdings == r.holdings && c.next == r.next && c.since == r.since
  {
    hide ValueAt, Units, Allocatable;
  }

  lemma CloseTakesPublicVersion(req: Request, r: Progress, i: nat)
    requires Started(req, r) && i < |req.dates| && Close(req, r, i).Success?
    ensures var next := Close(req, r, i).value.next;
      next == r.next || (next == r.next + 1 && next <= |req.timeline| && req.timeline[r.next].known < req.dates[i])
  {
    hide ValueAt, Units, Allocatable, Rebalances;
  }

  lemma StepsUp(dates: seq<int>, i: nat)
    requires Ascending(dates) && 0 < i < |dates|
    ensures dates[i - 1] < dates[i]
  {
  }

  lemma OpensWithFirst(req: Request)
    requires |req.timeline| > 0 && |req.dates| > 0 && RunTo(req, 0).Success?
    ensures RunTo(req, 0).value.next == 1
  {
  }

  lemma OpensHoldingItsVersion(req: Request)
    requires |req.timeline| > 0 && |req.dates| > 0 && RunTo(req, 0).Success?
    ensures HoldsItsVersion(req, RunTo(req, 0).value)
  {
    UnitsHoldSymbols(req.timeline[0].components, 100.0, req.prices, req.dates[0], req.precision);
  }

  /** A version takes effect only after its public day, and is then what is held. */
  lemma {:induction false} NewestWasPublic(req: Request, i: nat, r: Progress)
    requires |req.timeline| > 0 && i < |req.dates| && Ascending(req.dates) && RunTo(req, i) == Success(r)
    ensures Started(req, r) && HoldsItsVersion(req, r)
    ensures r.next == 1 || req.timeline[r.next - 1].known < req.dates[i]
  {
    hide *;
    if i == 0 {
      OpensWithFirst(req);
      OpensHoldingItsVersion(req);
    } else {
      StepsUp(req.dates, i);
      RunUnfolds(req, i);
      var before := RunTo(req, i - 1).value;
      NewestWasPublic(req, i - 1, before);
      CloseTakesPublicVersion(req, before, i);
      CloseHoldsItsVersion(req, before, i);
    }
  }

  lemma ActivatesAgrees(a: Request, b: Request, n: nat, r: Progress, i: nat)
    requires SamePast(a, b, n) && Ascending(a.dates) && 0 < i < n && Started(a, r) && Started(b, r)
    ensures Activates(a, r, i) <==> Activates(b, r, i)
    ensures Activates(a, r, i) ==> r.next < |a.timeline| && r.next < |b.timeline| && a.timeline[r.next] == b.timeline[r.next]
  {
    assert a.dates[i] == a.dates[..n][i] == b.dates[i];
  }

  /** Both requests take the date for the last of its month or neither does, if that
      matters. */
  predicate MonthsEndAlike(a: Request, b: Request, i: nat)
    requires |a.timeline| > 0 && i < |a.dates| && i < |b.dates|
  {
    a.timeline[0].policy == PeriodicMonthly ==> (FinalOfMonth(a, i) <==> FinalOfMonth(b, i))
  }

  lemma RebalancesAgrees(a: Request, b: Request, n: nat, r: Progress, i: nat)
    requires SamePast(a, b, n) && Ascending(a.dates) && 0 < i < n && Started(a, r) && Started(b, r)
    requires i + 1 < n || MonthsEndAlike(a, b, i)
    ensures Rebalances(a, r, i) <==> Rebalances(b, r, i)
  {
    ActivatesAgrees(a, b, n, r, i);
    assert a.dates[i] == a.dates[..n][i] == b.dates[i];
    if i + 1 < n {
      assert a.dates[i + 1] == a.dates[..n][i + 1] == b.dates[i + 1];
    }
    hide SamePrices, KnowsAsMuch, Activates;
  }

  // ---- a close -------------------------------------------------------------------------

  /** A state both requests can be in: the version held is theirs alike. */
  ghost predicate Carried(a: Request, b: Request, n: nat, r: Progress)
    requires 0 < n <= |a.dates|
  {
    && Started(a, r) && Started(b, r) && a.timeline[r.next - 1] == b.timeline[r.next - 1]
    && InPlay(a, r.next - 1, a.dates[n - 1]) && HoldsItsVersion(a, r)
  }

  lemma HeldPriced(a: Request, b: Request, n: nat, r: Progress, i: nat)
    requires SamePast(a, b, n) && i < n && Carried(a, b, n, r)
    ensures SamePrices(a.prices, b.prices, r.holdings.Keys, a.dates[i])
  {
    hide SamePast, SamePrices, Symbols;
    SharedPrices(a, b, n, i, r.next - 1);
  }

  lemma BoughtPriced(a: Request, b: Request, n: nat, r: Progress, i: nat)
    requires SamePast(a, b, n) && Ascending(a.dates) && 0 < i < n && Carried(a, b, n, r)
    ensures var next := if Activates(a, r, i) then r.next + 1 else r.next;
      && next <= |a.timeline| && next <= |b.timeline| && a.timeline[next - 1] == b.timeline[next - 1]
      && SamePrices(a.prices, b.prices, Symbols(a.timeline[next - 1].components), a.dates[i])
  {
    hide SamePrices, Symbols, KnowsAsMuch, VersionPriced;
    ActivatesAgrees(a, b, n, r, i);
    var next := if Activates(a, r, i) then r.next + 1 else r.next;
    if Activates(a, r, i) {
      assert a.dates[i] <= a.dates[n - 1];
    }
    SharedPrices(a, b, n, i, next - 1);
  }

  /** Given the same state, the closes differ at most in a month-end decision at the last
      date the requests share. */
  lemma ClosesAgree(a: Request, b: Request, n: nat, r: Progress, i: nat)
    requires 0 < i < n <= |a.dates| && SamePast(a, b, n) && Ascending(a.dates) && Carried(a, b, n, r)
    requires Started(a, r) && Started(b, r) && n <= |b.dates|
    requires i + 1 < n || MonthsEndAlike(a, b, i)
    ensures Close(a, r, i) == Close(b, r, i)
  {
    hide SamePast, Activates, Rebalances, ValueAt, Units, Allocatable, SamePrices, KnowsAsMuch, Ascending, Carried, Symbols;
    Shared(a, b, n, i);
    var date := a.dates[i];
    ActivatesAgrees(a, b, n, r, i);
    RebalancesAgrees(a, b, n, r, i);
    HeldPriced(a, b, n, r, i);
    BoughtPriced(a, b, n, r, i);
    ValueAgrees(r.holdings, a.prices, b.prices, date, a.precision);
    var nav := ValueAt(r.holdings, a.prices, date, a.precision);
    if nav.Success? {
      var next := if Activates(a, r, i) then r.next + 1 else r.next;
      var components := a.timeline[next - 1].components;
      UnitsAgree(components, nav.value, a.prices, b.prices, date, a.precision);
      if Allocatable(components, a.prices, date) {
        UnitsHoldSymbols(components, nav.value, a.prices, date, a.precision);
        ValueAgrees(Units(components, nav.value, a.prices, date, a.precision), a.prices, b.prices, date, a.precision);
      }
    }
  }

  lemma PointsAgree(a: Request, b: Request, n: nat, r: Progress, i: nat)
    requires 0 < i < n <= |a.dates| && SamePast(a, b, n) && Carried(a, b, n, r)
    requires Started(a, r) && Started(b, r) && n <= |b.dates|
    requires Close(a, r, i).Success? && Close(b, r, i).Success?
    ensures Close(a, r, i).value.points == Close(b, r, i).value.points
  {
    hide SamePast, Activates, Rebalances, ValueAt, Units, Allocatable, SamePrices, KnowsAsMuch, Carried;
    Shared(a, b, n, i);
    HeldPriced(a, b, n, r, i);
    ValueAgrees(r.holdings, a.prices, b.prices, a.dates[i], a.precision);
  }

  // ---- whole runs ----------------------------------------------------------------------

  lemma RunUnfolds(req: Request, i: nat)
    requires |req.timeline| > 0 && 0 < i < |req.dates|
    ensures RunTo(req, i) == if RunTo(req, i - 1).Failure? then RunTo(req, i - 1) else Close(req, RunTo(req, i - 1).value, i)
  {
  }

  lemma OpensAgree(a: Request, b: Request, n: nat)
    requires SamePast(a, b, n)
    ensures RunTo(a, 0) == RunTo(b, 0)
  {
    Shared(a, b, n, 0);
    SharedPrices(a, b, n, 0, 0);
    UnitsAgree(a.timeline[0].components, 100.0, a.prices, b.prices, a.dates[0], a.precision);
  }

  /** Before the last shared date the two runs are one: same holdings, same points, same
      rebalances, same failure. At it they are too, unless a monthly policy takes it for the
      month's last in one of them only. */
  lemma {:induction false} PastDecides(a: Request, b: Request, n: nat, i: nat)
    requires SamePast(a, b, n) && Ascending(a.dates) && i < n
    requires i + 1 < n || MonthsEndAlike(a, b, i)
    ensures RunTo(a, i) == RunTo(b, i)
  {
    hide *;
    Shared(a, b, n, i);
    if i == 0 {
      OpensAgree(a, b, n);
    } else {
      PastDecides(a, b, n, i - 1);
      RunUnfolds(a, i);
      RunUnfolds(b, i);
      var before := RunTo(a, i - 1);
      if before.Success? {
        NewestShared(a, b, n, i - 1);
        ClosesAgree(a, b, n, before.value, i);
      }
    }
  }

  lemma NewestShared(a: Request, b: Request, n: nat, i: nat)
    requires SamePast(a, b, n) && Ascending(a.dates) && i < n
    requires RunTo(a, i).Success? && RunTo(b, i) == RunTo(a, i)
    ensures Carried(a, b, n, RunTo(a, i).value)
  {
    hide RunTo, VersionPriced, HoldsItsVersion;
    NewestWasPublic(a, i, RunTo(a, i).value);
    Shared(a, b, n, i);
    Shared(a, b, n, n - 1);
    var next := RunTo(a, i).value.next;
    if next > 1 {
      assert a.timeline[next - 1].known < a.dates[i] <= a.dates[n - 1];
      assert KnowsAsMuch(a, b, a.dates[n - 1]);
    }
  }

  /** A last shared date at which the first run does not rebalance for the month's sake is
      reached by it whenever it is reached by the other. */
  lemma ReachedWithoutMonthEnd(a: Request, b: Request, n: nat)
    requires 0 < n && SamePast(a, b, n) && Ascending(a.dates) && n <= |a.dates| && n <= |b.dates| && |a.timeline| > 0 && |b.timeline| > 0
    requires !MonthsEndAlike(a, b, n - 1) ==> !FinalOfMonth(a, n - 1)
    requires RunTo(b, n - 1).Success?
    ensures RunTo(a, n - 1).Success?
  {
    hide *;
    if n == 1 {
      OpensAgree(a, b, n);
    } else if MonthsEndAlike(a, b, n - 1) {
      PastDecides(a, b, n, n - 1);
    } else {
      RunUnfolds(b, n - 1);
      PastDecides(a, b, n, n - 2);
      RunUnfolds(a, n - 1);
      NewestShared(a, b, n, n - 2);
      Shared(a, b, n, n - 1);
      ValuedIsEnough(a, b, n, RunTo(a, n - 2).value, n - 1);
    }
  }

  lemma ValuedIsEnough(a: Request, b: Request, n: nat, r: Progress, i: nat)
    requires 0 < i < n <= |a.dates| && SamePast(a, b, n) && Carried(a, b, n, r)
    requires Started(a, r) && Started(b, r) && n <= |b.dates|
    requires !MonthsEndAlike(a, b, i) && !FinalOfMonth(a, i) && Close(b, r, i).Success?
    ensures Close(a, r, i).Success?
  {
    Shared(a, b, n, i);
    HeldPriced(a, b, n, r, i);
    hide SamePast, SamePrices, KnowsAsMuch, Carried, ValueAt, Units, Allocatable, FinalOfMonth;
    ValueAgrees(r.holdings, a.prices, b.prices, a.dates[i], a.precision);
  }

  lemma {:induction false} PointsStay(req: Request, i: nat, j: nat)
    requires |req.timeline| > 0 && i <= j < |req.dates| && RunTo(req, j).Success?
    ensures RunTo(req, i).Success? && RunTo(req, i).value.points == RunTo(req, j).value.points[..i + 1]
    decreases j
  {
    hide RunTo;
    if i < j {
      PointsGrow(req, j);
      PointsStay(req, i, j - 1);
    }
  }

  lemma LastSharedPoints(a: Request, b: Request, n: nat)
    requires 0 < n && SamePast(a, b, n) && Ascending(a.dates)
    requires RunTo(a, n - 1).Success? && RunTo(b, n - 1).Success?
    ensures RunTo(a, n - 1).value.points == RunTo(b, n - 1).value.points
  {
    hide *;
    Shared(a, b, n, n - 1);
    if n == 1 {
      OpensAgree(a, b, n);
    } else {
      PastDecides(a, b, n, n - 2);
      RunUnfolds(a, n - 1);
      RunUnfolds(b, n - 1);
      NewestShared(a, b, n, n - 2);
      PointsAgree(a, b, n, RunTo(a, n - 2).value, n - 1);
    }
  }

  /** Two completed runs that share their first n dates share their first n points, under
      every policy. The monthly policy looks one date ahead to decide a rebalance, but only
      after the close it looks from has been valued. */
  lemma Causality(a: Request, b: Request, n: nat, i: nat, j: nat)
    requires 0 < n && SamePast(a, b, n) && Ascending(a.dates)
    requires n - 1 <= i < |a.dates| && n - 1 <= j < |b.dates| && RunTo(a, i).Success? && RunTo(b, j).Success?
    ensures RunTo(a, i).value.points[..n] == RunTo(b, j).value.points[..n]
  {
    hide *;
    Shared(a, b, n, n - 1);
    PointsStay(a, n - 1, i);
    PointsStay(b, n - 1, j);
    LastSharedPoints(a, b, n);
  }

  // ---- what is never made up ---------------------------------------------------------------

  /** Every component of the version in effect has a quote of its own that day, above
      zero. */
  ghost predicate Quoted(req: Request, version: nat, date: int)
    requires version < |req.timeline|
  {
    forall c :: c in req.timeline[version].components ==>
      c.symbol in req.prices && date in req.prices[c.symbol] && req.prices[c.symbol][date] > 0.0
  }

  lemma PricedIsQuoted(req: Request, r: Progress, date: int)
    requires HoldsItsVersion(req, r) && AllPriced(r.holdings.Keys, req.prices, date)
    ensures Quoted(req, r.next - 1, date)
  {
    var components := req.timeline[r.next - 1].components;
    forall c | c in components
      ensures c.symbol in req.prices && date in req.prices[c.symbol] && req.prices[c.symbol][date] > 0.0
    {
      var k :| 0 <= k < |components| && components[k] == c;
      assert c.symbol in Symbols(components);
      assert PriceAt(req.prices, c.symbol, date) > 0.0;
    }
  }

  lemma CloseIsPriced(req: Request, r: Progress, i: nat)
    requires Started(req, r) && i < |req.dates| && Close(req, r, i).Success?
    ensures AllPriced(Close(req, r, i).value.holdings.Keys, req.prices, req.dates[i])
  {
    hide Units, Worth, Rebalances, Activates, Allocatable;
  }

  /** No point is carried over a missing price: a run gets past a date only with a quote,
      that day's, of everything it holds. */
  lemma NoPointWithoutQuotes(req: Request, i: nat)
    requires |req.timeline| > 0 && i < |req.dates| && Ascending(req.dates) && RunTo(req, i).Success?
    ensures var r := RunTo(req, i).value;
      1 <= r.next <= |req.timeline| && Quoted(req, r.next - 1, req.dates[i])
  {
    var r := RunTo(req, i).value;
    NewestWasPublic(req, i, r);
    RunPriced(req, i);
    hide *;
    HeldVersion(req, r);
    PricedIsQuoted(req, r, req.dates[i]);
  }

  lemma HeldVersion(req: Request, r: Progress)
    requires HoldsItsVersion(req, r)
    ensures 1 <= r.next <= |req.timeline|
  {
  }

  lemma RunPriced(req: Request, i: nat)
    requires |req.timeline| > 0 && i < |req.dates| && RunTo(req, i).Success?
    ensures AllPriced(RunTo(req, i).value.holdings.Keys, req.prices, req.dates[i])
  {
    if i == 0 {
      OpensPriced(req);
    } else {
      CloseIsPriced(req, RunTo(req, i - 1).value, i);
    }
    hide AllPriced, Close;
  }

  lemma OpensPriced(req: Request)
    requires |req.timeline| > 0 && |req.dates| > 0 && RunTo(req, 0).Success?
    ensures AllPriced(RunTo(req, 0).value.holdings.Keys, req.prices, req.dates[0])
  {
    var components := req.timeline[0].components;
    UnitsHoldSymbols(components, 100.0, req.prices, req.dates[0], req.precision);
    PricedWhereSymbolsAre(components, req.prices, req.dates[0]);
    hide Units, Allocatable, AllPriced;
  }

  /** A run is refused for its policy exactly if the first version's is none of the four or
      another version's differs from it. */
  lemma RefusedPolicies(req: Request)
    requires |req.timeline| > 0
    ensures Refusal(req) == Some(UnsupportedPolicy) <==>
      || req.timeline[0].policy !in {DailyTargetWeight, BuyAndHold, PeriodicMonthly, FilingSnapshot}
      || exists k :: 0 < k < |req.timeline| && req.timeline[k].policy != req.timeline[0].policy
  {
  }
}
