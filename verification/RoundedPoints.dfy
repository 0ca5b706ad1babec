/** How far rounding can take a point from the formula between two rebalances. */
module RoundedPoints {
  import opened Money
  import opened Outcomes
  import opened Portfolio
  import opened IndexFormula
  import opened IndexCausality
  import opened IndexRounding

  /** The components in effect. */
  function InForce(req: Request, r: Progress): seq<Component>
    requires Started(req, r)
  {
    req.timeline[r.next - 1].components
  }

  /** What is held are the units bought at the last reset, at the point it had. */
  ghost predicate HoldsUnits(req: Request, r: Progress, i: nat) {
    && Started(req, r) && i < |req.dates| && |r.points| == i + 1 && r.since <= i
    && Allocatable(InForce(req, r), req.prices, req.dates[r.since])
    && r.holdings == Units(InForce(req, r), r.points[r.since], req.prices, req.dates[r.since], req.precision)
  }

  lemma OpenHoldsUnits(req: Request)
    requires |req.timeline| > 0 && |req.dates| > 0 && RunTo(req, 0).Success?
    ensures HoldsUnits(req, RunTo(req, 0).value, 0)
  {
    hide Units, Allocatable;
  }

  lemma CloseHoldsUnits(req: Request, r: Progress, i: nat)
    requires 0 < i < |req.dates| && HoldsUnits(req, r, i - 1) && Close(req, r, i).Success?
    ensures HoldsUnits(req, Close(req, r, i).value, i)
  {
    CloseBuys(req, r, i);
    hide Close, Units, Allocatable, Rebalances, ValueAt;
  }

  lemma {:induction false} RunHoldsUnits(req: Request, i: nat, r: Progress)
    requires |req.timeline| > 0 && i < |req.dates| && RunTo(req, i) == Success(r)
    ensures HoldsUnits(req, r, i)
  {
    hide *;
    if i == 0 {
      OpenHoldsUnits(req);
    } else {
      RunUnfolds(req, i);
      var before := RunTo(req, i - 1).value;
      RunHoldsUnits(req, i - 1, before);
      CloseHoldsUnits(req, before, i);
    }
  }

  lemma OneProceedsError(c: Component, nav: real, from: real, to: real, precision: Precision)
    requires from > 0.0 && to > 0.0 && precision.unit >= 0.0
    ensures Abs(Mul(UnitsOf(c, nav, from, precision), to) - Mul(nav, Mul(c.weight, Div(to, from)))) <= UnitError(to, precision)
  {
    var x := Div(Mul(nav, c.weight), from);
    OneProceeds(nav, c.weight, from, to);
    SnapUnitsIsClose(x, precision.unit);
    var e := SnapUnits(x, precision.unit) - x;
    ScaleBound(to, e, precision.unit / 2.0);
    assert Mul(SnapUnits(x, precision.unit), to) - Mul(x, to) == Mul(to, e);
  }

  /** What units bought at one date are worth at another: the weighted growth of the value
      they were bought for, up to the units' rounding at the later prices. */
  lemma {:induction false} ProceedsError(components: seq<Component>, nav: real, prices: Prices, from: int, to: int,
      precision: Precision)
    requires Allocatable(components, prices, from) && Allocatable(components, prices, to) && precision.unit >= 0.0
    ensures Abs(Proceeds(components, nav, prices, from, to, precision) - Mul(nav, Blend(components, prices, from, to))) <=
            UnitError(PriceSum(components, prices, to), precision)
  {
    if components != [] {
      var n := |components| - 1;
      var c := components[n];
      var price := PriceAt(prices, c.symbol, to);
      ProceedsPeel(components, nav, prices, from, to, precision);
      ProceedsError(components[..n], nav, prices, from, to, precision);
      OneProceedsError(c, nav, PriceAt(prices, c.symbol, from), price, precision);
      MulDistributes(nav, Blend(components[..n], prices, from, to), Mul(c.weight, Growth(prices, c.symbol, from, to)));
      MulDistributes(precision.unit / 2.0, PriceSum(components[..n], prices, to), price);
      hide Mul, Div, UnitsOf, PriceAt, Proceeds;
    }
  }

  lemma ValueNearFormula(components: seq<Component>, nav: real, prices: Prices, from: int, to: int, precision: Precision,
      point: real)
    requires Allocatable(components, prices, from) && Distinct(components)
    requires precision.unit >= 0.0 && precision.index >= 0.0
    requires ValueAt(Units(components, nav, prices, from, precision), prices, to, precision) == Success(point)
    ensures Abs(point - Mul(nav, Blend(components, prices, from, to))) <=
            precision.index / 2.0 + UnitError(PriceSum(components, prices, to), precision)
  {
    UnitsWorth(components, nav, prices, from, to, precision);
    PricedWhereSymbolsAre(components, prices, to);
    var worth := Proceeds(components, nav, prices, from, to, precision);
    assert Allocatable(components, prices, to) && point == SnapIndex(worth, precision.index);
    hide Units, Worth, Proceeds, Distinct, Allocatable, AllPriced, SnapIndex, Blend, Mul;
    ProceedsError(components, nav, prices, from, to, precision);
    if precision.index > 0.0 {
      SnapIndexIsClose(worth, precision.index);
    } else {
      UnroundedIndex(worth);
    }
  }

  lemma UnroundedIndex(x: real)
    ensures SnapIndex(x, 0.0) == x
  {
  }

  /** A point is the value that day of the units bought at the last reset. */
  lemma PointIsHeldValue(req: Request, i: nat, before: Progress)
    requires |req.timeline| > 0 && 0 < i < |req.dates|
    requires forall k :: 0 <= k < |req.timeline| ==> Distinct(req.timeline[k].components)
    requires RunTo(req, i - 1) == Success(before) && RunTo(req, i).Success? && HoldsUnits(req, before, i - 1)
    ensures Started(req, before) && before.since < |before.points| && before.since < i
    ensures Distinct(InForce(req, before)) && Allocatable(InForce(req, before), req.prices, req.dates[before.since])
    ensures i < |RunTo(req, i).value.points| &&
      ValueAt(Units(InForce(req, before), before.points[before.since], req.prices, req.dates[before.since], req.precision),
        req.prices, req.dates[i], req.precision) == Success(RunTo(req, i).value.points[i])
  {
    RunUnfolds(req, i);
    CloseBuys(req, before, i);
    hide RunTo, Close, Units, ValueAt, Allocatable, Distinct, Rebalances;
  }

  /** At any precision and under every policy a point differs from the point of the last
      reset times the weighted growth since by at most half an index quantum and half a unit
      of each component at its price that day: between two resets errors do not add up. And
      it is a whole number of index quanta. */
  lemma PointsNearFormula(req: Request, i: nat, before: Progress)
    requires |req.timeline| > 0 && 0 < i < |req.dates|
    requires forall k :: 0 <= k < |req.timeline| ==> Distinct(req.timeline[k].components)
    requires req.precision.unit >= 0.0 && req.precision.index >= 0.0
    requires RunTo(req, i - 1) == Success(before) && RunTo(req, i).Success?
    ensures HoldsUnits(req, before, i - 1)
    ensures Abs(RunTo(req, i).value.points[i] -
                Mul(before.points[before.since], Blend(InForce(req, before), req.prices, req.dates[before.since], req.dates[i]))) <=
            req.precision.index / 2.0 + UnitError(PriceSum(InForce(req, before), req.prices, req.dates[i]), req.precision)
    ensures OnGrid(RunTo(req, i).value.points[i], req.precision.index)
  {
    hide *;
    RunHoldsUnits(req, i - 1, before);
    PointIsHeldValue(req, i, before);
    var point := RunTo(req, i).value.points[i];
    ValuesAreOnGrid(Units(InForce(req, before), before.points[before.since], req.prices, req.dates[before.since], req.precision),
      req.prices, req.dates[i], req.precision);
    ValueNearFormula(InForce(req, before), before.points[before.since], req.prices, req.dates[before.since], req.dates[i],
      req.precision, point);
  }

  /** At the stored precision, with prices adding up to less than 10^18, that is less than
      one unit in the last of the 18 decimals. */
  lemma StoredPointsNearFormula(req: Request, i: nat, before: Progress)
    requires |req.timeline| > 0 && 0 < i < |req.dates| && req.precision == STORED
    requires forall k :: 0 <= k < |req.timeline| ==> Distinct(req.timeline[k].components)
    requires RunTo(req, i - 1) == Success(before) && RunTo(req, i).Success?
    ensures HoldsUnits(req, before, i - 1)
    ensures PriceSum(InForce(req, before), req.prices, req.dates[i]) < 1000000000000000000.0 ==>
      Abs(RunTo(req, i).value.points[i] -
          Mul(before.points[before.since], Blend(InForce(req, before), req.prices, req.dates[before.since], req.dates[i]))) <
      STORED.index
  {
    PointsNearFormula(req, i, before);
    StoredUnitError(PriceSum(InForce(req, before), req.prices, req.dates[i]));
    hide HoldsUnits, RunTo, PriceSum, Blend, Mul, Abs, UnitError;
  }

  lemma StoredUnitError(price: real)
    requires STORED.unit >= 0.0
    ensures price < 1000000000000000000.0 ==> UnitError(price, STORED) < STORED.index / 2.0
  {
  }

  lemma UnitsSnap(x: real, quantum: real)
    requires quantum >= 0.0
    ensures OnGrid(SnapUnits(x, quantum), quantum) && Abs(SnapUnits(x, quantum) - x) <= quantum / 2.0
  {
    SnapUnitsIsClose(x, quantum);
    if quantum != 0.0 { assert SnapUnits(x, quantum) == GridPoint(quantum, HalfAway(Div(x, quantum))); }
  }

  /** What is bought is a whole number of units, at most half of one away from the target
      weight's worth. */
  lemma {:induction false} UnitsAreRounded(components: seq<Component>, nav: real, prices: Prices, date: int,
      precision: Precision, k: nat)
    requires Allocatable(components, prices, date) && Distinct(components) && k < |components| && precision.unit >= 0.0
    ensures var units := Units(components, nav, prices, date, precision);
      var c := components[k];
      && c.symbol in units && OnGrid(units[c.symbol], precision.unit)
      && Abs(units[c.symbol] - Div(Mul(nav, c.weight), PriceAt(prices, c.symbol, date))) <= precision.unit / 2.0
  {
    var n := |components| - 1;
    UnitsPeel(components, nav, prices, date, precision);
    if k < n {
      UnitsAreRounded(components[..n], nav, prices, date, precision, k);
    } else {
      UnitsSnap(Div(Mul(nav, components[n].weight), PriceAt(prices, components[n].symbol, date)), precision.unit);
    }
    hide Div, Mul, SnapUnits, OnGrid, PriceAt;
  }
}
