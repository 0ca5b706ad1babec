/** What the stateful loop computes, as a formula over the dates alone. */
module IndexFormula {
  import opened Money
  import opened Outcomes
  import opened Portfolio

  // ---- sums over components ------------------------------------------------------------

  ghost predicate Distinct(components: seq<Component>) {
    forall i, j :: 0 <= i < j < |components| ==> components[i].symbol != components[j].symbol
  }

  ghost function Symbols(components: seq<Component>): set<string> {
    set i | 0 <= i < |components| :: components[i].symbol
  }

  function TotalWeight(components: seq<Component>): real {
    if components == [] then 0.0
    else TotalWeight(components[..|components| - 1]) + components[|components| - 1].weight
  }

  /** How much one symbol's price grew between two dates. */
  function Growth(prices: Prices, symbol: string, from: int, to: int): real {
    if PriceAt(prices, symbol, from) > 0.0 then Div(PriceAt(prices, symbol, to), PriceAt(prices, symbol, from)) else 0.0
  }

  /** The weighted mean of the components' growth. */
  function Blend(components: seq<Component>, prices: Prices, from: int, to: int): real {
    if components == [] then 0.0
    else
      var c := components[|components| - 1];
      Blend(components[..|components| - 1], prices, from, to) + Mul(c.weight, Growth(prices, c.symbol, from, to))
  }

  /** What units bought at `from` are worth at `to`, component by component. */
  ghost function Proceeds(components: seq<Component>, nav: real, prices: Prices, from: int, to: int,
      precision: Precision): real
    requires Allocatable(components, prices, from)
  {
    if components == [] then 0.0
    else
      var c := components[|components| - 1];
      Proceeds(components[..|components| - 1], nav, prices, from, to, precision) +
      Mul(UnitsOf(c, nav, PriceAt(prices, c.symbol, from), precision), PriceAt(prices, c.symbol, to))
  }

  lemma {:induction false} WorthFrame(symbols: set<string>, a: map<string, real>, b: map<string, real>,
      prices: Prices, date: int)
    requires symbols <= a.Keys && symbols <= b.Keys
    requires forall s :: s in symbols ==> a[s] == b[s]
    ensures Worth(symbols, a, prices, date) == Worth(symbols, b, prices, date)
  {
    if symbols != {} {
      var s :| s in symbols;
      WorthPeels(symbols, a, prices, date, s);
      WorthPeels(symbols, b, prices, date, s);
      WorthFrame(symbols - {s}, a, b, prices, date);
    }
  }

  lemma {:induction false} UnitsHoldSymbols(components: seq<Component>, nav: real, prices: Prices, from: int,
      precision: Precision)
    requires Allocatable(components, prices, from)
    ensures Units(components, nav, prices, from, precision).Keys == Symbols(components)
  {
    if components != [] {
      var n := |components| - 1;
      UnitsHoldSymbols(components[..n], nav, prices, from, precision);
      assert components == components[..n] + [components[n]];
      assert Symbols(components) == Symbols(components[..n]) + {components[n].symbol};
    }
  }

  /** Without its last component a list of unrepeated symbols lacks that symbol alone. */
  lemma SymbolsPeel(components: seq<Component>)
    requires components != [] && Distinct(components)
    ensures var n := |components| - 1;
      && components[n].symbol in Symbols(components)
      && Symbols(components) - {components[n].symbol} == Symbols(components[..n])
      && Distinct(components[..n])
  {
    var n := |components| - 1;
    var c := components[n];
    forall s ensures s in Symbols(components) - {c.symbol} <==> s in Symbols(components[..n]) {
      if s in Symbols(components[..n]) {
        var i :| 0 <= i < n && components[..n][i].symbol == s;
        assert components[i].symbol == s;
      }
      if s in Symbols(components) - {c.symbol} {
        var i :| 0 <= i < |components| && components[i].symbol == s;
        assert components[..n][i].symbol == s;
      }
    }
  }

  lemma UnitsPeel(components: seq<Component>, nav: real, prices: Prices, from: int, precision: Precision)
    requires components != [] && Allocatable(components, prices, from)
    ensures var n := |components| - 1;
      && Allocatable(components[..n], prices, from) && PriceAt(prices, components[n].symbol, from) > 0.0
      && Units(components, nav, prices, from, precision) ==
         Units(components[..n], nav, prices, from, precision)[components[n].symbol :=
           UnitsOf(components[n], nav, PriceAt(prices, components[n].symbol, from), precision)]
  {
    hide UnitsOf, PriceAt;
  }

  /** The holdings map is worth what its components are, when no symbol repeats. */
  lemma {:induction false} UnitsWorth(components: seq<Component>, nav: real, prices: Prices, from: int, to: int,
      precision: Precision)
    requires Allocatable(components, prices, from) && Distinct(components)
    ensures Units(components, nav, prices, from, precision).Keys == Symbols(components)
    ensures Worth(Symbols(components), Units(components, nav, prices, from, precision), prices, to) ==
            Proceeds(components, nav, prices, from, to, precision)
  {
    UnitsHoldSymbols(components, nav, prices, from, precision);
    if components == [] {
      NothingWorth(nav, prices, from, to, precision);
    } else {
      var n := |components| - 1;
      var c := components[n];
      var rest, all := Units(components[..n], nav, prices, from, precision), Units(components, nav, prices, from, precision);
      UnitsPeel(components, nav, prices, from, precision);
      SymbolsPeel(components);
      ProceedsPeel(components, nav, prices, from, to, precision);
      hide Units, UnitsOf, PriceAt, Symbols, Distinct, Allocatable, Proceeds, Worth, Mul;
      UnitsWorth(components[..n], nav, prices, from, to, precision);
      WorthPeels(Symbols(components), all, prices, to, c.symbol);
      WorthFrame(Symbols(components[..n]), all, rest, prices, to);
    }
  }

  lemma NothingWorth(nav: real, prices: Prices, from: int, to: int, precision: Precision)
    ensures Worth(Symbols([]), Units([], nav, prices, from, precision), prices, to) == Proceeds([], nav, prices, from, to, precision)
  {
  }

  lemma ProceedsPeel(components: seq<Component>, nav: real, prices: Prices, from: int, to: int, precision: Precision)
    requires components != [] && Allocatable(components, prices, from)
    ensures var n := |components| - 1;
      && Allocatable(components[..n], prices, from) && PriceAt(prices, components[n].symbol, from) > 0.0
      && Proceeds(components, nav, prices, from, to, precision) ==
         Proceeds(components[..n], nav, prices, from, to, precision) +
         Mul(UnitsOf(components[n], nav, PriceAt(prices, components[n].symbol, from), precision), PriceAt(prices, components[n].symbol, to))
  {
    hide UnitsOf, PriceAt;
  }

  lemma PricedWhereSymbolsAre(components: seq<Component>, prices: Prices, date: int)
    ensures AllPriced(Symbols(components), prices, date) <==> Allocatable(components, prices, date)
  {
    forall i | 0 <= i < |components| && AllPriced(Symbols(components), prices, date)
      ensures PriceAt(prices, components[i].symbol, date) > 0.0
    {
      assert components[i].symbol in Symbols(components);
    }
  }

  lemma {:induction false} ExactProceeds(components: seq<Component>, nav: real, prices: Prices, from: int, to: int)
    requires Allocatable(components, prices, from)
    ensures Proceeds(components, nav, prices, from, to, EXACT) == Mul(nav, Blend(components, prices, from, to))
  {
    if components != [] {
      var n := |components| - 1;
      var c := components[n];
      ExactProceeds(components[..n], nav, prices, from, to);
      OneProceeds(nav, c.weight, PriceAt(prices, c.symbol, from), PriceAt(prices, c.symbol, to));
    }
  }

  lemma OneProceeds(nav: real, weight: real, from: real, to: real)
    requires from > 0.0
    ensures Mul(Div(Mul(nav, weight), from), to) == Mul(nav, Mul(weight, Div(to, from)))
  {
    var g := to / from;
    assert g * from == to;
    var u := nav * weight / from;
    assert u * from == nav * weight;
    assert u * to == u * (g * from) == (u * from) * g == nav * weight * g;
  }

  /** Valued on the day it is bought, a portfolio blends to its total weight. */
  lemma {:induction false} BlendOnTheDay(components: seq<Component>, prices: Prices, date: int)
    requires Allocatable(components, prices, date)
    ensures Blend(components, prices, date, date) == TotalWeight(components)
  {
    if components != [] {
      var n := |components| - 1;
      BlendOnTheDay(components[..n], prices, date);
      var price := PriceAt(prices, components[n].symbol, date);
      assert price > 0.0 && price / price == 1.0;
    }
  }

  /** The value of an exact allocation at any date. */
  lemma ExactValue(components: seq<Component>, nav: real, prices: Prices, from: int, to: int)
    requires Allocatable(components, prices, from) && Distinct(components)
    ensures ValueAt(Units(components, nav, prices, from, EXACT), prices, to, EXACT) ==
      if !Allocatable(components, prices, to) then Failure(IncompleteSeries)
      else if Mul(nav, Blend(components, prices, from, to)) <= 0.0 then Failure(InvalidSeries)
      else Success(Mul(nav, Blend(components, prices, from, to)))
  {
    UnitsWorth(components, nav, prices, from, to, EXACT);
    ExactProceeds(components, nav, prices, from, to);
    PricedWhereSymbolsAre(components, prices, to);
  }

  // ---- the schedule --------------------------------------------------------------------

  ghost predicate WellFormed(req: Request) {
    && |req.timeline| > 0
    && req.precision == EXACT
    && forall k :: 0 <= k < |req.timeline| ==> Distinct(req.timeline[k].components)
  }

  /** How many versions are in effect after the close at date i. */
  function Active(req: Request, i: nat): (k: nat)
    requires |req.timeline| > 0 && i < |req.dates|
    ensures 1 <= k <= |req.timeline|
  {
    if i == 0 then 1
    else
      var before := Active(req, i - 1);
      if req.timeline[0].policy == FilingSnapshot && before < |req.timeline| && req.timeline[before].known < req.dates[i]
      then before + 1 else before
  }

  /** Whether units are bought afresh at the close of date i. */
  predicate Resets(req: Request, i: nat)
    requires |req.timeline| > 0 && i < |req.dates|
  {
    || i == 0
    || Active(req, i) != Active(req, i - 1)
    || req.timeline[0].policy == DailyTargetWeight
    || (req.timeline[0].policy == PeriodicMonthly && FinalOfMonth(req, i))
  }

  function LastReset(req: Request, i: nat): (k: nat)
    requires |req.timeline| > 0 && i < |req.dates|
    ensures k <= i && Resets(req, k)
    ensures forall j :: k < j <= i ==> !Resets(req, j)
  {
    if Resets(req, i) then i else LastReset(req, i - 1)
  }

  function ResetDates(req: Request, i: nat): seq<nat>
    requires |req.timeline| > 0 && i < |req.dates|
  {
    if i == 0 then []
    else if Resets(req, i) then ResetDates(req, i - 1) + [i] else ResetDates(req, i - 1)
  }

  function InEffect(req: Request, i: nat): seq<Component>
    requires |req.timeline| > 0 && i < |req.dates|
  {
    req.timeline[Active(req, i) - 1].components
  }

  /** The closed form: the index at the last reset, times the blended growth since. */
  function IndexAt(req: Request, i: nat): real
    requires |req.timeline| > 0 && i < |req.dates|
  {
    if i == 0 then 100.0
    else
      var reset := LastReset(req, i - 1);
      Mul(IndexAt(req, reset), Blend(InEffect(req, i - 1), req.prices, req.dates[reset], req.dates[i]))
  }

  /** What the close at date i needs. */
  ghost predicate Closes(req: Request, i: nat)
    requires |req.timeline| > 0 && 0 < i < |req.dates|
  {
    && Allocatable(InEffect(req, i - 1), req.prices, req.dates[i])
    && IndexAt(req, i) > 0.0
    && (Resets(req, i) ==> Allocatable(InEffect(req, i), req.prices, req.dates[i]) && TotalWeight(InEffect(req, i)) == 1.0)
  }

  ghost predicate ClosesThrough(req: Request, i: nat)
    requires |req.timeline| > 0 && i < |req.dates|
  {
    && Allocatable(req.timeline[0].components, req.prices, req.dates[0])
    && forall j :: 0 < j <= i ==> Closes(req, j)
  }

  // ---- the loop computes the formula ---------------------------------------------------

  /** The loop's state, wholly given by the formula and the schedule. */
  ghost predicate Matches(req: Request, i: nat, r: Progress)
    requires |req.timeline| > 0 && i < |req.dates|
  {
    var reset := LastReset(req, i);
    && r.next == Active(req, i)
    && r.since == reset
    && r.rebalances == ResetDates(req, i)
    && Allocatable(InEffect(req, i), req.prices, req.dates[reset])
    && r.holdings == Units(InEffect(req, i), IndexAt(req, reset), req.prices, req.dates[reset], req.precision)
    && |r.points| == i + 1
    && (forall j :: 0 <= j <= i ==> r.points[j] == IndexAt(req, j))
  }

  lemma HeldValue(req: Request, i: nat, r: Progress)
    requires WellFormed(req) && 0 < i < |req.dates| && Matches(req, i - 1, r)
    ensures ValueAt(r.holdings, req.prices, req.dates[i], req.precision) ==
      if !Allocatable(InEffect(req, i - 1), req.prices, req.dates[i]) then Failure(IncompleteSeries)
      else if IndexAt(req, i) <= 0.0 then Failure(InvalidSeries)
      else Success(IndexAt(req, i))
  {
    var reset := LastReset(req, i - 1);
    ExactValue(InEffect(req, i - 1), IndexAt(req, reset), req.prices, req.dates[reset], req.dates[i]);
  }

  /** An exact rebalance keeps the index value exactly when the weights sum to 1. */
  lemma RebalanceKeepsValueExactly(components: seq<Component>, nav: real, prices: Prices, date: int)
    requires Allocatable(components, prices, date) && Distinct(components) && nav > 0.0
    ensures ValueAt(Units(components, nav, prices, date, EXACT), prices, date, EXACT) == Success(nav) <==>
            TotalWeight(components) == 1.0
  {
    ExactValue(components, nav, prices, date, date);
    BlendOnTheDay(components, prices, date);
    OnlyOneKeeps(nav, TotalWeight(components));
  }

  lemma OnlyOneKeeps(nav: real, total: real)
    requires nav > 0.0
    ensures Mul(nav, total) == nav <==> total == 1.0
  {
    if total > 1.0 {
      assert nav * (total - 1.0) > 0.0;
    } else if total < 1.0 {
      assert nav * (1.0 - total) > 0.0;
    }
  }

  lemma ScheduleAgrees(req: Request, i: nat, r: Progress)
    requires |req.timeline| > 0 && 0 < i < |req.dates| && r.next == Active(req, i - 1)
    ensures Activates(req, r, i) <==> Active(req, i) == r.next + 1
    ensures !Activates(req, r, i) <==> Active(req, i) == r.next
    ensures Rebalances(req, r, i) <==> Resets(req, i)
    ensures Resets(req, i) ==> LastReset(req, i) == i && ResetDates(req, i) == ResetDates(req, i - 1) + [i]
    ensures !Resets(req, i) ==> LastReset(req, i) == LastReset(req, i - 1) && ResetDates(req, i) == ResetDates(req, i - 1)
    ensures !Resets(req, i) ==> Active(req, i) == Active(req, i - 1)
  {
  }

  /** One turn of the loop, in the schedule's terms. */
  lemma CloseIs(req: Request, i: nat, r: Progress)
    requires WellFormed(req) && 0 < i < |req.dates| && Started(req, r)
    requires Matches(req, i - 1, r)
    ensures Close(req, r, i).Success? <==> Closes(req, i)
    ensures Closes(req, i) ==>
      var c := Close(req, r, i).value;
      && c.next == Active(req, i) && c.since == LastReset(req, i) && c.rebalances == ResetDates(req, i)
      && c.points == r.points + [IndexAt(req, i)]
      && c.holdings == if Resets(req, i) then Units(InEffect(req, i), IndexAt(req, i), req.prices, req.dates[i], EXACT) else r.holdings
  {
    hide Units, ValueAt, Allocatable, Distinct, IndexAt, TotalWeight, Activates, Rebalances, Active, LastReset, ResetDates, Resets;
    HeldValue(req, i, r);
    ScheduleAgrees(req, i, r);
    var components := InEffect(req, i);
    assert components == req.timeline[Active(req, i) - 1].components;
    if Resets(req, i) && Allocatable(components, req.prices, req.dates[i]) && IndexAt(req, i) > 0.0 {
      RebalanceKeepsValueExactly(components, IndexAt(req, i), req.prices, req.dates[i]);
    }
    hide Matches, WellFormed;
  }

  lemma CloseMatches(req: Request, i: nat, r: Progress)
    requires WellFormed(req) && 0 < i < |req.dates| && Started(req, r)
    requires Matches(req, i - 1, r) && Closes(req, i)
    ensures Close(req, r, i).Success? && Matches(req, i, Close(req, r, i).value)
  {
    hide Units, ValueAt, Allocatable, Distinct, IndexAt, TotalWeight, Activates, Rebalances, Active, LastReset, ResetDates, Resets, Close;
    CloseIs(req, i, r);
    ScheduleAgrees(req, i, r);
  }

  lemma OpenMatches(req: Request)
    requires WellFormed(req) && |req.dates| > 0
    ensures Open(req).Success? <==> ClosesThrough(req, 0)
    ensures Open(req).Success? ==> Matches(req, 0, Open(req).value)
  {
  }

  lemma ClosesOneMore(req: Request, i: nat)
    requires |req.timeline| > 0 && 0 < i < |req.dates|
    ensures ClosesThrough(req, i) <==> ClosesThrough(req, i - 1) && Closes(req, i)
  {
    hide Closes;
  }

  /** The loop reaches date i exactly when every close up to it can be made, and its
      points, rebalance dates and holdings are then those of the formula. */
  lemma {:induction false} LoopIsFormula(req: Request, i: nat)
    requires WellFormed(req) && i < |req.dates|
    ensures RunTo(req, i).Success? <==> ClosesThrough(req, i)
    ensures RunTo(req, i).Success? ==> Matches(req, i, RunTo(req, i).value)
  {
    hide Close, Open, Closes, ClosesThrough, Matches;
    if i == 0 {
      OpenMatches(req);
    } else {
      LoopIsFormula(req, i - 1);
      ClosesOneMore(req, i);
      if RunTo(req, i - 1).Success? {
        var before := RunTo(req, i - 1).value;
        CloseIs(req, i, before);
        if Closes(req, i) { CloseMatches(req, i, before); }
      }
    }
  }
}
