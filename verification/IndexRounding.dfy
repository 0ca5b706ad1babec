/** How far rounding can move the index value across a rebalance. */
module IndexRounding {
  import opened Money
  import opened Outcomes
  import opened Portfolio
  import opened IndexFormula

  /** Units carry 36 decimals, index values 18. */
  const STORED := Precision(0.000000000000000000000000000000000001, 0.000000000000000001)

  function Abs(x: real): real {
    if x < 0.0 then -x else x
  }

  /** validateWeights on a flattened recipe: positive weights, summing to 1 within the
      tolerance. */
  predicate Admitted(components: seq<Component>) {
    && Abs(TotalWeight(components) - 1.0) < WEIGHT_TOLERANCE
    && forall i :: 0 <= i < |components| ==> components[i].weight > 0.0
  }

  method ValidateWeights(components: seq<Component>) returns (ok: bool)
    ensures ok <==> Admitted(components)
  {
    var total := 0.0;
    for i := 0 to |components|
      invariant total == TotalWeight(components[..i])
    {
      assert components[..i + 1][..i] == components[..i];
      total := total + components[i].weight;
    }
    assert components[..|components|] == components;
    var deviation := total - 1.0;
    if deviation < 0.0 {
      deviation := -deviation;
    }
    if deviation >= WEIGHT_TOLERANCE {
      return false;
    }
    for i := 0 to |components|
      invariant forall k :: 0 <= k < i ==> components[k].weight > 0.0
    {
      if components[i].weight <= 0.0 {
        return false;
      }
    }
    ok := true;
  }

  // ---- one rounding --------------------------------------------------------------------

  lemma HalvesAreClose(x: real)
    ensures Abs(HalfEven(x) as real - x) <= 0.5
    ensures Abs(HalfAway(x) as real - x) <= 0.5
  {
  }

  lemma ScaleBound(k: real, e: real, bound: real)
    requires k >= 0.0 && Abs(e) <= bound
    ensures Abs(Mul(k, e)) <= Mul(k, bound)
  {
    assert k * (bound - e) >= 0.0;
    assert k * (bound + e) >= 0.0;
  }

  lemma RoundedIsClose(x: real, quantum: real, m: int)
    requires quantum > 0.0 && (m == HalfEven(Div(x, quantum)) || m == HalfAway(Div(x, quantum)))
    ensures Abs(Mul(quantum, m as real) - x) <= quantum / 2.0
  {
    hide HalfEven, HalfAway;
    var n := Div(x, quantum);
    HalvesAreClose(n);
    ScaleBound(quantum, m as real - n, 0.5);
    assert Mul(quantum, n) == x;
  }

  lemma SnapUnitsIsClose(x: real, quantum: real)
    requires quantum >= 0.0
    ensures Abs(SnapUnits(x, quantum) - x) <= quantum / 2.0
  {
    if quantum > 0.0 {
      hide HalfAway, Mul, Div;
      RoundedIsClose(x, quantum, HalfAway(Div(x, quantum)));
    }
  }

  lemma SnapIndexIsClose(x: real, quantum: real)
    requires quantum > 0.0
    ensures Abs(SnapIndex(x, quantum) - x) <= quantum / 2.0
  {
    hide HalfEven, Mul, Div;
    RoundedIsClose(x, quantum, HalfEven(Div(x, quantum)));
  }

  function GridPoint(quantum: real, m: int): real {
    Mul(quantum, m as real)
  }

  ghost predicate OnGrid(x: real, quantum: real) {
    quantum == 0.0 || exists m: int :: x == GridPoint(quantum, m)
  }

  lemma SnapLandsOnGrid(x: real, quantum: real)
    ensures OnGrid(SnapIndex(x, quantum), quantum)
  {
    if quantum != 0.0 {
      assert SnapIndex(x, quantum) == GridPoint(quantum, HalfEven(Div(x, quantum)));
    }
  }

  lemma FarInQuanta(quantum: real, d: real)
    requires quantum > 0.0
    ensures Abs(d) >= 0.5 ==> Abs(Mul(quantum, d)) >= quantum / 2.0
  {
    if d >= 0.5 {
      assert quantum * (d - 0.5) >= 0.0;
    } else if d <= -0.5 {
      assert quantum * (-d - 0.5) >= 0.0;
    }
  }

  lemma HalfEvenFinds(x: real, m: int)
    requires Abs(x - m as real) < 0.5
    ensures HalfEven(x) == m
  {
  }

  /** Anything nearer than half a quantum to a grid value rounds to it. */
  lemma SnapIndexFinds(x: real, g: real, quantum: real)
    requires quantum > 0.0 && OnGrid(g, quantum) && Abs(x - g) < quantum / 2.0
    ensures SnapIndex(x, quantum) == g
  {
    var m: int :| g == GridPoint(quantum, m);
    var n := Div(x, quantum);
    assert Mul(quantum, n) == x;
    assert Mul(quantum, n - m as real) == x - g;
    FarInQuanta(quantum, n - m as real);
    HalfEvenFinds(n, m);
  }

  // ---- one allocation ------------------------------------------------------------------

  function PriceSum(components: seq<Component>, prices: Prices, date: int): real {
    if components == [] then 0.0
    else PriceSum(components[..|components| - 1], prices, date) + PriceAt(prices, components[|components| - 1].symbol, date)
  }

  /** The rounding of units, at the price they are held at. */
  function UnitError(price: real, precision: Precision): real {
    Mul(price, precision.unit / 2.0)
  }

  lemma OneUnitError(c: Component, nav: real, price: real, precision: Precision)
    requires price > 0.0 && precision.unit >= 0.0
    ensures Abs(Mul(UnitsOf(c, nav, price, precision), price) - Mul(nav, c.weight)) <= UnitError(price, precision)
  {
    var x := Div(Mul(nav, c.weight), price);
    assert Mul(x, price) == Mul(nav, c.weight);
    SnapUnitsIsClose(x, precision.unit);
    var e := SnapUnits(x, precision.unit) - x;
    ScaleBound(price, e, precision.unit / 2.0);
    assert Mul(SnapUnits(x, precision.unit), price) - Mul(x, price) == Mul(price, e);
  }

  /** What an allocation is worth on its own date: the weighted value, up to the units'
      rounding. */
  lemma {:induction false} AllocationError(components: seq<Component>, nav: real, prices: Prices, date: int,
      precision: Precision)
    requires Allocatable(components, prices, date) && precision.unit >= 0.0
    ensures Abs(Proceeds(components, nav, prices, date, date, precision) - Mul(nav, TotalWeight(components))) <=
            UnitError(PriceSum(components, prices, date), precision)
  {
    if components != [] {
      var n := |components| - 1;
      var c := components[n];
      var price := PriceAt(prices, c.symbol, date);
      AllocationError(components[..n], nav, prices, date, precision);
      OneUnitError(c, nav, price, precision);
      MulDistributes(nav, TotalWeight(components[..n]), c.weight);
      MulDistributes(precision.unit / 2.0, PriceSum(components[..n], prices, date), price);
      hide Mul, UnitsOf, PriceAt;
    }
  }

  /** The most an allocation can move the index value. */
  function Drift(components: seq<Component>, nav: real, prices: Prices, date: int, precision: Precision): real {
    Mul(nav, Abs(TotalWeight(components) - 1.0)) + UnitError(PriceSum(components, prices, date), precision)
  }

  /** The least it must. */
  function Shift(components: seq<Component>, nav: real, prices: Prices, date: int, precision: Precision): real {
    Mul(nav, Abs(TotalWeight(components) - 1.0)) - UnitError(PriceSum(components, prices, date), precision)
  }

  lemma Deviation(nav: real, w: real)
    requires nav > 0.0
    ensures Mul(nav, Abs(w - 1.0)) == Abs(Mul(nav, w) - nav)
  {
    if w >= 1.0 {
      assert nav * (w - 1.0) >= 0.0;
    } else {
      assert nav * (1.0 - w) >= 0.0;
    }
  }

  lemma WorthNearNav(components: seq<Component>, nav: real, prices: Prices, date: int, precision: Precision)
    requires Allocatable(components, prices, date) && precision.unit >= 0.0 && nav > 0.0
    ensures var moved := Abs(Proceeds(components, nav, prices, date, date, precision) - nav);
      Shift(components, nav, prices, date, precision) <= moved <= Drift(components, nav, prices, date, precision)
  {
    AllocationError(components, nav, prices, date, precision);
    Deviation(nav, TotalWeight(components));
    hide Mul, UnitError, Proceeds, TotalWeight, PriceSum, Allocatable;
  }

  lemma PositiveOnGrid(nav: real, quantum: real)
    requires quantum > 0.0 && nav > 0.0 && OnGrid(nav, quantum)
    ensures nav >= quantum
  {
    var m: int :| nav == GridPoint(quantum, m);
    GridPointSign(quantum, m);
  }

  lemma GridPointSign(quantum: real, m: int)
    requires quantum > 0.0
    ensures if m <= 0 then GridPoint(quantum, m) <= 0.0 else GridPoint(quantum, m) >= quantum
  {
    if m <= 0 {
      assert quantum * (-m as real) >= 0.0;
    } else {
      assert quantum * ((m - 1) as real) >= 0.0;
    }
  }

  /** Below half an index quantum of drift, buying units and valuing them again returns the
      index value unchanged. */
  lemma SmallDriftKeepsNav(components: seq<Component>, nav: real, prices: Prices, date: int, precision: Precision)
    requires Allocatable(components, prices, date) && Distinct(components)
    requires precision.unit >= 0.0 && precision.index > 0.0 && nav > 0.0 && OnGrid(nav, precision.index)
    requires Drift(components, nav, prices, date, precision) < precision.index / 2.0
    ensures ValueAt(Units(components, nav, prices, date, precision), prices, date, precision) == Success(nav)
  {
    WorthNearNav(components, nav, prices, date, precision);
    PositiveOnGrid(nav, precision.index);
    UnitsWorth(components, nav, prices, date, date, precision);
    PricedWhereSymbolsAre(components, prices, date);
    SnapIndexFinds(Proceeds(components, nav, prices, date, date, precision), nav, precision.index);
    hide Units, Worth, Proceeds, Drift, OnGrid, Distinct, Allocatable, AllPriced;
  }

  /** Above it, they cannot. */
  lemma LargeShiftChangesNav(components: seq<Component>, nav: real, prices: Prices, date: int, precision: Precision)
    requires Allocatable(components, prices, date) && Distinct(components)
    requires precision.unit >= 0.0 && precision.index > 0.0 && nav > 0.0
    requires Shift(components, nav, prices, date, precision) > precision.index / 2.0
    ensures ValueAt(Units(components, nav, prices, date, precision), prices, date, precision) != Success(nav)
  {
    WorthNearNav(components, nav, prices, date, precision);
    UnitsWorth(components, nav, prices, date, date, precision);
    SnapIndexIsClose(Proceeds(components, nav, prices, date, date, precision), precision.index);
    hide Units, Worth, Proceeds, Shift, Distinct, Allocatable, AllPriced, SnapIndex;
  }

  // ---- a close -------------------------------------------------------------------------

  /** The components a rebalance at date i would buy. */
  function Bought(req: Request, r: Progress, i: nat): seq<Component>
    requires Started(req, r) && i < |req.dates|
  {
    req.timeline[if Activates(req, r, i) then r.next else r.next - 1].components
  }

  lemma ValuesAreOnGrid(holdings: map<string, real>, prices: Prices, date: int, precision: Precision)
    requires ValueAt(holdings, prices, date, precision).Success?
    ensures OnGrid(ValueAt(holdings, prices, date, precision).value, precision.index)
  {
    SnapLandsOnGrid(Worth(holdings.Keys, holdings, prices, date), precision.index);
  }

  /** A close that values its holdings above zero passes the "rebalance changed NAV" check
      whenever the drift is small, and fails it whenever the shift is large. */
  lemma RebalanceCheck(req: Request, r: Progress, i: nat, nav: real)
    requires Started(req, r) && i < |req.dates| && Rebalances(req, r, i)
    requires req.precision.unit >= 0.0 && req.precision.index > 0.0
    requires ValueAt(r.holdings, req.prices, req.dates[i], req.precision) == Success(nav) && nav > 0.0
    requires var bought := Bought(req, r, i); Distinct(bought) && Allocatable(bought, req.prices, req.dates[i])
    ensures Drift(Bought(req, r, i), nav, req.prices, req.dates[i], req.precision) < req.precision.index / 2.0 ==>
            Close(req, r, i).Success? && Close(req, r, i).value.points == r.points + [nav]
    ensures Shift(Bought(req, r, i), nav, req.prices, req.dates[i], req.precision) > req.precision.index / 2.0 ==>
            Close(req, r, i).Failure?
  {
    var bought := Bought(req, r, i);
    CloseRebuys(req, r, i, nav);
    ValuesAreOnGrid(r.holdings, req.prices, req.dates[i], req.precision);
    hide *;
    if Drift(bought, nav, req.prices, req.dates[i], req.precision) < req.precision.index / 2.0 {
      SmallDriftKeepsNav(bought, nav, req.prices, req.dates[i], req.precision);
    }
    if Shift(bought, nav, req.prices, req.dates[i], req.precision) > req.precision.index / 2.0 {
      LargeShiftChangesNav(bought, nav, req.prices, req.dates[i], req.precision);
    }
  }

  /** A rebalancing close goes through exactly when what it buys is worth the same. */
  lemma CloseRebuys(req: Request, r: Progress, i: nat, nav: real)
    requires Started(req, r) && i < |req.dates| && Rebalances(req, r, i)
    requires ValueAt(r.holdings, req.prices, req.dates[i], req.precision) == Success(nav)
    requires Allocatable(Bought(req, r, i), req.prices, req.dates[i])
    ensures Close(req, r, i).Success? <==>
      ValueAt(Units(Bought(req, r, i), nav, req.prices, req.dates[i], req.precision), req.prices, req.dates[i], req.precision) == Success(nav)
    ensures Close(req, r, i).Success? ==> Close(req, r, i).value.points == r.points + [nav]
  {
    hide ValueAt, Units, Allocatable, Rebalances;
  }

  /** At the stored precision, weights that sum to exactly 1 and prices adding up to less
      than 10^18 never trip the check. */
  lemma StoredPrecisionSuffices(components: seq<Component>, nav: real, prices: Prices, date: int)
    requires TotalWeight(components) == 1.0 && PriceSum(components, prices, date) < 1000000000000000000.0
    ensures Drift(components, nav, prices, date, STORED) < STORED.index / 2.0
  {
    assert Mul(nav, 0.0) == 0.0;
  }

  /** So no close of a run with exact weights is refused for having changed the index: given
      positive prices and a holding that values above zero, the run goes on. */
  lemma ExactWeightsNeverTrip(req: Request, i: nat, before: Progress, nav: real)
    requires |req.timeline| > 0 && 0 < i < |req.dates| && req.precision == STORED
    requires RunTo(req, i - 1) == Success(before)
    requires ValueAt(before.holdings, req.prices, req.dates[i], STORED) == Success(nav) && nav > 0.0
    requires var bought := Bought(req, before, i);
      && Distinct(bought) && Allocatable(bought, req.prices, req.dates[i])
      && TotalWeight(bought) == 1.0 && PriceSum(bought, req.prices, req.dates[i]) < 1000000000000000000.0
    ensures RunTo(req, i).Success? && RunTo(req, i).value.points == before.points + [nav]
  {
    hide Units, Worth, Allocatable, Distinct, Drift, Shift, SnapIndex, TotalWeight, PriceSum, ValueAt, Rebalances;
    StoredPrecisionSuffices(Bought(req, before, i), nav, req.prices, req.dates[i]);
    if Rebalances(req, before, i) {
      RebalanceCheck(req, before, i, nav);
    }
    assert RunTo(req, i) == Close(req, before, i);
  }

  // ---- admitted weights that trip it ---------------------------------------------------

  /** A one-symbol recipe of weight 0.99991, rebalanced daily at a constant price. */
  function Tripping(): Request {
    Request([Version(20000101, DailyTargetWeight, [Component("SPY", 0.99991)])], [20260102, 20260105],
            map["SPY" := map[20260102 := 1.0, 20260105 := 1.0]], 20260105, STORED)
  }

  lemma TrippingWorth(req: Request, components: seq<Component>)
    requires req == Tripping() && components == req.timeline[0].components
    ensures Admitted(components) && Distinct(components) && TotalWeight(components) == 0.99991
    ensures forall i :: 0 <= i < 2 ==>
      Allocatable(components, req.prices, req.dates[i]) && PriceSum(components, req.prices, req.dates[i]) == 1.0
    ensures Refusal(req).None?
  {
    assert components[..0] == [];
  }

  lemma {:induction false} SamePriceSameProceeds(components: seq<Component>, nav: real, prices: Prices, from: int,
      to: int, precision: Precision)
    requires Allocatable(components, prices, from)
    requires forall s :: PriceAt(prices, s, from) == PriceAt(prices, s, to)
    ensures Proceeds(components, nav, prices, from, to, precision) == Proceeds(components, nav, prices, from, from, precision)
  {
    if components != [] {
      SamePriceSameProceeds(components[..|components| - 1], nav, prices, from, to, precision);
    }
  }

  lemma TrippingHeld(req: Request, components: seq<Component>)
    requires req == Tripping() && components == req.timeline[0].components
    ensures Allocatable(components, req.prices, req.dates[0])
    ensures var held := ValueAt(Units(components, 100.0, req.prices, req.dates[0], STORED), req.prices, req.dates[1], STORED);
      held.Success? && held.value > 99.0
  {
    TrippingWorth(req, components);
    var worth := Proceeds(components, 100.0, req.prices, req.dates[0], req.dates[1], STORED);
    SamePriceSameProceeds(components, 100.0, req.prices, req.dates[0], req.dates[1], STORED);
    AllocationError(components, 100.0, req.prices, req.dates[0], STORED);
    UnitsWorth(components, 100.0, req.prices, req.dates[0], req.dates[1], STORED);
    PricedWhereSymbolsAre(components, req.prices, req.dates[1]);
    SnapIndexIsClose(worth, STORED.index);
    hide Units, Worth, Proceeds, Allocatable, AllPriced, SnapIndex, TotalWeight, Tripping;
  }

  lemma TrippingShift(components: seq<Component>, nav: real, prices: Prices, date: int)
    requires TotalWeight(components) == 0.99991 && PriceSum(components, prices, date) == 1.0 && nav > 99.0
    ensures Shift(components, nav, prices, date, STORED) > STORED.index / 2.0
  {
  }

  /** Validation admits the weights, the holdings are valued, and the run is refused at its
      first rebalance. */
  lemma AdmittedWeightsTrip()
    ensures Admitted(Tripping().timeline[0].components) && Refusal(Tripping()).None?
    ensures RunTo(Tripping(), 0).Success? && RunTo(Tripping(), 1).Failure?
  {
    hide Units, Worth, Allocatable, Distinct, Shift, Drift, SnapIndex, TotalWeight, ValueAt, Admitted, PriceSum;
    var req := Tripping();
    var components := req.timeline[0].components;
    TrippingWorth(req, components);
    TrippingHeld(req, components);
    assert RunTo(req, 0) == Open(req);
    var r := Open(req).value;
    var nav := ValueAt(r.holdings, req.prices, req.dates[1], STORED).value;
    assert Bought(req, r, 1) == components;
    TrippingShift(components, nav, req.prices, req.dates[1]);
    RebalanceCheck(req, r, 1, nav);
    assert RunTo(req, 1) == Close(req, r, 1);
  }

  // ---- ties --------------------------------------------------------------------------------

  /** Halfway cases: index values go to the even neighbour, units away from zero. */
  lemma TiesGo(n: int)
    ensures HalfEven(n as real + 0.5) == if n % 2 == 0 then n else n + 1
    ensures n >= 0 ==> HalfAway(n as real + 0.5) == n + 1 && HalfAway(-(n as real + 0.5)) == -(n + 1)
  {
    assert (n as real + 0.5).Floor == n;
    assert n >= 0 ==> (n as real + 1.0).Floor == n + 1;
  }

  lemma InQuanta(quantum: real, x: real)
    requires quantum > 0.0
    ensures Div(Mul(quantum, x), quantum) == x
  {
  }

  lemma TiesOnTheGrid(quantum: real, n: nat)
    requires quantum > 0.0
    ensures SnapIndex(Mul(quantum, n as real + 0.5), quantum) == GridPoint(quantum, if n % 2 == 0 then n else n + 1)
    ensures SnapUnits(Mul(quantum, n as real + 0.5), quantum) == GridPoint(quantum, n + 1)
  {
    TiesGo(n);
    InQuanta(quantum, n as real + 0.5);
    hide HalfEven, HalfAway, Mul, Div;
  }

  /** The bounds of the weight check: a lone component passes strictly within 0.0001 of 1,
      and a weight of zero fails whatever the rest add up to. */
  lemma AdmissionEdges(c: Component, rest: seq<Component>)
    ensures Admitted([c]) <==> 0.9999 < c.weight < 1.0001
    ensures c.weight <= 0.0 ==> !Admitted(rest + [c])
  {
    assert [c][..0] == [];
    assert TotalWeight([c]) == TotalWeight([]) + c.weight;
    assert (rest + [c])[|rest|] == c;
  }
}
