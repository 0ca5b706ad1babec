/** The virtual benchmark portfolio: allocate units at an index of 100, carry them,
    value every close before any rebalance at that close. */
module Portfolio {
  import opened Money
  import opened Outcomes

  datatype Component = Component(symbol: string, weight: real)

  datatype Policy = DailyTargetWeight | BuyAndHold | PeriodicMonthly | FilingSnapshot | Unknown(name: string)

  /** One dated composition of a recipe, flattened; `known` is the day it became public. */
  datatype Version = Version(known: int, policy: Policy, components: seq<Component>)

  /** How far a recipe's weights may be from summing to 1. */
  const WEIGHT_TOLERANCE := 0.0001

  /** Converted prices by symbol and date. A date is the number its digits spell, so that
      2026-05-15 is 20260515 and dates compare as their keys do. */
  type Prices = map<string, map<int, real>>

  ghost predicate Ascending(dates: seq<int>) {
    forall i, j :: 0 <= i < j < |dates| ==> dates[i] < dates[j]
  }

  function MonthOf(date: int): int {
    date / 100
  }

  function DaysIn(month: int): int {
    var year := month / 100;
    if month % 100 == 2 then if year % 4 == 0 && (year % 100 != 0 || year % 400 == 0) then 29 else 28
    else if month % 100 in {4, 6, 9, 11} then 30 else 31
  }

  function MonthEnd(date: int): int {
    MonthOf(date) * 100 + DaysIn(MonthOf(date))
  }

  /** The grid units and index values are rounded to; 0 stands for exact arithmetic. */
  datatype Precision = Precision(unit: real, index: real)

  const EXACT := Precision(0.0, 0.0)

  datatype Request = Request(
    timeline: seq<Version>, dates: seq<int>, prices: Prices, end: int, precision: Precision)

  // ---- rounding ------------------------------------------------------------------------

  function HalfEven(x: real): int {
    var f := x.Floor;
    if x - f as real < 0.5 then f
    else if x - f as real > 0.5 then f + 1
    else if f % 2 == 0 then f else f + 1
  }

  function HalfAway(x: real): int {
    if x >= 0.0 then (x + 0.5).Floor else -((-x + 0.5).Floor)
  }

  /** Index values are rounded half to even. */
  function SnapIndex(x: real, quantum: real): real {
    if quantum == 0.0 then x else Mul(quantum, HalfEven(Div(x, quantum)) as real)
  }

  /** Quotients are rounded half away from zero. */
  function SnapUnits(x: real, quantum: real): real {
    if quantum == 0.0 then x else Mul(quantum, HalfAway(Div(x, quantum)) as real)
  }

  // ---- valuation -----------------------------------------------------------------------

  /** A missing price reads as zero. */
  function PriceAt(prices: Prices, symbol: string, date: int): real {
    if symbol in prices && date in prices[symbol] then prices[symbol][date] else 0.0
  }

  ghost predicate AllPriced(symbols: set<string>, prices: Prices, date: int) {
    forall s :: s in symbols ==> PriceAt(prices, s, date) > 0.0
  }

  /** What the units of the given symbols are worth. */
  ghost function Worth(symbols: set<string>, holdings: map<string, real>, prices: Prices, date: int): real
    requires symbols <= holdings.Keys
  {
    if symbols == {} then 0.0
    else
      var s :| s in symbols;
      Mul(holdings[s], PriceAt(prices, s, date)) + Worth(symbols - {s}, holdings, prices, date)
  }

  /** The sum does not depend on the order the map is walked in. */
  lemma {:induction false} WorthPeels(symbols: set<string>, holdings: map<string, real>, prices: Prices, date: int,
      s: string)
    requires symbols <= holdings.Keys && s in symbols
    ensures Worth(symbols, holdings, prices, date) ==
      Mul(holdings[s], PriceAt(prices, s, date)) + Worth(symbols - {s}, holdings, prices, date)
  {
    var c :| c in symbols && Worth(symbols, holdings, prices, date) ==
      Mul(holdings[c], PriceAt(prices, c, date)) + Worth(symbols - {c}, holdings, prices, date);
    if c != s {
      WorthPeels(symbols - {c}, holdings, prices, date, s);
      WorthPeels(symbols - {s}, holdings, prices, date, c);
      assert symbols - {c} - {s} == symbols - {s} - {c};
    }
  }

  ghost function ValueAt(holdings: map<string, real>, prices: Prices, date: int, precision: Precision): Result<real> {
    if !AllPriced(holdings.Keys, prices, date) then Failure(IncompleteSeries)
    else if Worth(holdings.Keys, holdings, prices, date) <= 0.0 then Failure(InvalidSeries)
    else Success(SnapIndex(Worth(holdings.Keys, holdings, prices, date), precision.index))
  }

  /** valueState: units times price, summed over the holdings in any order. */
  method ValueState(holdings: map<string, real>, prices: Prices, date: int,
      precision: Precision) returns (r: Result<real>)
    ensures r == ValueAt(holdings, prices, date, precision)
  {
    var value := 0.0;
    var todo := holdings.Keys;
    while todo != {}
      invariant todo <= holdings.Keys
      invariant AllPriced(holdings.Keys - todo, prices, date)
      invariant value + Worth(todo, holdings, prices, date) == Worth(holdings.Keys, holdings, prices, date)
      decreases todo
    {
      var s :| s in todo;
      WorthPeels(todo, holdings, prices, date, s);
      if PriceAt(prices, s, date) <= 0.0 {
        return Failure(IncompleteSeries);
      }
      value := value + Mul(holdings[s], PriceAt(prices, s, date));
      todo := todo - {s};
    }
    assert holdings.Keys - todo == holdings.Keys;
    if value <= 0.0 {
      return Failure(InvalidSeries);
    }
    r := Success(SnapIndex(value, precision.index));
  }

  // ---- allocation ----------------------------------------------------------------------

  ghost predicate Allocatable(components: seq<Component>, prices: Prices, date: int) {
    forall i :: 0 <= i < |components| ==> PriceAt(prices, components[i].symbol, date) > 0.0
  }

  function UnitsOf(c: Component, nav: real, price: real, precision: Precision): real
    requires price > 0.0
  {
    SnapUnits(Div(Mul(nav, c.weight), price), precision.unit)
  }

  /** The units each component gets; a repeated symbol keeps its last. */
  ghost function Units(components: seq<Component>, nav: real, prices: Prices, date: int,
      precision: Precision): map<string, real>
    requires Allocatable(components, prices, date)
  {
    if components == [] then map[]
    else
      var n := |components| - 1;
      var c := components[n];
      assert Allocatable(components[..n], prices, date);
      Units(components[..n], nav, prices, date, precision)[c.symbol := UnitsOf(c, nav, PriceAt(prices, c.symbol, date), precision)]
  }

  /** The part of the portfolio's state an allocation rewrites. */
  class PortfolioState {
    var nav: real
    var holdings: map<string, real>

    constructor (nav: real)
      ensures this.nav == nav && holdings == map[]
    {
      this.nav, holdings := nav, map[];
    }

    /** allocateAtNAV: turns the current index value into units at target weight. */
    method AllocateAtNAV(components: seq<Component>, prices: Prices, date: int,
        precision: Precision) returns (r: Result<()>)
      modifies this`holdings
      ensures r.Success? <==> Allocatable(components, prices, date)
      ensures r.Success? ==> holdings == Units(components, nav, prices, date, precision)
      ensures r.Failure? ==> r.error == InvalidSeries && holdings == old(holdings)
    {
      var units: map<string, real> := map[];
      var i := 0;
      while i < |components|
        invariant 0 <= i <= |components|
        invariant Allocatable(components[..i], prices, date)
        invariant units == Units(components[..i], nav, prices, date, precision)
        invariant holdings == old(holdings)
      {
        var c := components[i];
        var price := PriceAt(prices, c.symbol, date);
        if price <= 0.0 {
          return Failure(InvalidSeries);
        }
        assert components[..i + 1][..i] == components[..i];
        assert components[..i + 1] == components[..i] + [c];
        units := units[c.symbol := UnitsOf(c, nav, price, precision)];
        i := i + 1;
      }
      assert components[..i] == components;
      holdings := units;
      r := Success(());
    }
  }

  // ---- the run -------------------------------------------------------------------------

  predicate Supported(policy: Policy) {
    !policy.Unknown?
  }

  /** The last common trading date of a month: the next date falls in another month, or
      there is none and the request reaches the month's end. */
  predicate FinalOfMonth(req: Request, i: nat)
    requires i < |req.dates|
  {
    if i + 1 < |req.dates| then MonthOf(req.dates[i]) != MonthOf(req.dates[i + 1])
    else req.end >= MonthEnd(req.dates[i])
  }

  /** How far a calculation has come: what is held and since which date, the newest
      version in effect (as one past its place in the timeline), the points and the
      rebalances so far. */
  datatype Progress = Progress(
    holdings: map<string, real>, since: nat, next: nat,
    points: seq<real>, rebalances: seq<nat>, activations: seq<nat>)

  /** The next version of a filing recipe becomes active on the first trading date after
      its public day. */
  predicate Activates(req: Request, r: Progress, i: nat)
    requires |req.timeline| > 0 && i < |req.dates|
  {
    req.timeline[0].policy == FilingSnapshot && r.next < |req.timeline| && req.timeline[r.next].known < req.dates[i]
  }

  predicate Rebalances(req: Request, r: Progress, i: nat)
    requires |req.timeline| > 0 && i < |req.dates|
  {
    || Activates(req, r, i)
    || req.timeline[0].policy == DailyTargetWeight
    || (req.timeline[0].policy == PeriodicMonthly && FinalOfMonth(req, i))
  }

  ghost function Open(req: Request): Result<Progress>
    requires |req.timeline| > 0 && |req.dates| > 0
  {
    var components := req.timeline[0].components;
    if !Allocatable(components, req.prices, req.dates[0]) then Failure(InvalidSeries)
    else Success(Progress(Units(components, 100.0, req.prices, req.dates[0], req.precision), 0, 1, [100.0], [], [0]))
  }

  ghost predicate Started(req: Request, r: Progress) {
    1 <= r.next <= |req.timeline|
  }

  /** The close at date i: value first, then perhaps activate a version, then perhaps
      rebalance, which must leave the index value as it was. */
  ghost function Close(req: Request, r: Progress, i: nat): Result<Progress>
    requires Started(req, r) && i < |req.dates|
  {
    var date := req.dates[i];
    var nav :- ValueAt(r.holdings, req.prices, date, req.precision);
    var next := if Activates(req, r, i) then r.next + 1 else r.next;
    var valued := r.(points := r.points + [nav], next := next,
                     activations := if Activates(req, r, i) then r.activations + [r.next] else r.activations);
    if !Rebalances(req, r, i) then Success(valued)
    else
      var components := req.timeline[next - 1].components;
      if !Allocatable(components, req.prices, date) then Failure(InvalidSeries)
      else
        var units := Units(components, nav, req.prices, date, req.precision);
        var after :- ValueAt(units, req.prices, date, req.precision);
        if after != nav then Failure(InvalidSeries)
        else Success(valued.(holdings := units, since := i, rebalances := r.rebalances + [i]))
  }

  /** The calculation up to and including date i. */
  ghost function RunTo(req: Request, i: nat): (r: Result<Progress>)
    requires |req.timeline| > 0 && i < |req.dates|
    ensures r.Success? ==> Started(req, r.value) && |r.value.points| == i + 1
  {
    if i == 0 then Open(req)
    else
      var before :- RunTo(req, i - 1);
      Close(req, before, i)
  }

  /** One supported policy throughout. */
  ghost predicate OnePolicy(timeline: seq<Version>)
    requires |timeline| > 0
  {
    && Supported(timeline[0].policy)
    && forall k :: 0 <= k < |timeline| ==> timeline[k].policy == timeline[0].policy
  }

  /** Failures that precede the loop. */
  ghost function Refusal(req: Request): Option<Error>
    requires |req.timeline| > 0
  {
    if !OnePolicy(req.timeline) then Some(UnsupportedPolicy)
    else if |req.dates| < 2 then Some(IncompleteSeries)
    else None
  }

  method CheckPolicy(timeline: seq<Version>) returns (ok: bool)
    requires |timeline| > 0
    ensures ok <==> OnePolicy(timeline)
  {
    var policy := timeline[0].policy;
    if !Supported(policy) {
      return false;
    }
    for k := 1 to |timeline|
      invariant forall m :: 0 <= m < k ==> timeline[m].policy == policy
    {
      if timeline[k].policy != policy {
        return false;
      }
    }
    ok := true;
  }

  /** CalculateIndex over an already resolved timeline and already converted prices. */
  method CalculateIndex(req: Request) returns (r: Result<Progress>)
    requires |req.timeline| > 0
    ensures Refusal(req).Some? ==> r == Failure(Refusal(req).value)
    ensures Refusal(req).None? ==> r == RunTo(req, |req.dates| - 1)
  {
    hide Close, Units, Allocatable;
    var ok := CheckPolicy(req.timeline);
    if !ok {
      return Failure(UnsupportedPolicy);
    }
    if |req.dates| < 2 {
      return Failure(IncompleteSeries);
    }
    var state := new PortfolioState(100.0);
    var opening := state.AllocateAtNAV(req.timeline[0].components, req.prices, req.dates[0], req.precision);
    if opening.Failure? {
      RunFails(req, 0, |req.dates| - 1);
      return Failure(InvalidSeries);
    }
    var run := Progress(state.holdings, 0, 1, [100.0], [], [0]);
    assert RunTo(req, 0) == Success(run);
    hide Open, Refusal;
    var i := 1;
    while i < |req.dates|
      invariant 1 <= i <= |req.dates|
      invariant Started(req, run) && run.holdings == state.holdings
      invariant RunTo(req, i - 1) == Success(run)
    {
      var closed := CloseAt(req, run, i, state);
      assert RunTo(req, i) == closed;
      if closed.Failure? {
        RunFails(req, i, |req.dates| - 1);
        return closed;
      }
      run := closed.value;
      i := i + 1;
    }
    r := Success(run);
  }

  /** One turn of the loop. */
  method CloseAt(req: Request, run: Progress, i: nat, state: PortfolioState) returns (r: Result<Progress>)
    requires Started(req, run) && i < |req.dates| && run.holdings == state.holdings
    modifies state
    ensures r == Close(req, run, i)
    ensures r.Success? ==> state.holdings == r.value.holdings
  {
    var date := req.dates[i];
    var nav := ValueState(state.holdings, req.prices, date, req.precision);
    if nav.Failure? {
      return nav.PropagateFailure();
    }
    state.nav := nav.value;
    var next := run;
    next := next.(points := next.points + [nav.value]);
    var rebalance := false;
    if Activates(req, run, i) {
      next := next.(activations := next.activations + [run.next], next := run.next + 1);
      rebalance := true;
    } else if req.timeline[0].policy == DailyTargetWeight {
      rebalance := true;
    } else if req.timeline[0].policy == PeriodicMonthly {
      rebalance := FinalOfMonth(req, i);
    }
    if rebalance {
      var allocation := state.AllocateAtNAV(req.timeline[next.next - 1].components, req.prices, date, req.precision);
      if allocation.Failure? {
        return allocation.PropagateFailure();
      }
      var after := ValueState(state.holdings, req.prices, date, req.precision);
      if after.Failure? {
        return after.PropagateFailure();
      }
      if after.value != nav.value {
        return Failure(InvalidSeries);
      }
      next := next.(holdings := state.holdings, since := i, rebalances := next.rebalances + [i]);
    }
    r := Success(next);
  }

  lemma {:induction false} RunFails(req: Request, i: nat, j: nat)
    requires |req.timeline| > 0 && i <= j < |req.dates| && RunTo(req, i).Failure?
    ensures RunTo(req, j) == RunTo(req, i)
    decreases j
  {
    if i < j { RunFails(req, i, j - 1); }
  }
}
