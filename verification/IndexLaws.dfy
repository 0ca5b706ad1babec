/** Consequences of the closed form: what each policy computes, and what it ignores. */
module IndexLaws {
  import opened Money
  import opened Outcomes
  import opened Portfolio
  import opened IndexFormula

  // ---- policies ------------------------------------------------------------------------

  lemma {:induction false} OneVersionThroughout(req: Request, i: nat)
    requires |req.timeline| > 0 && i < |req.dates| && req.timeline[0].policy != FilingSnapshot
    ensures Active(req, i) == 1
  {
    if i > 0 { OneVersionThroughout(req, i - 1); }
  }

  lemma {:induction false} BuyAndHoldNeverResets(req: Request, i: nat)
    requires |req.timeline| > 0 && i < |req.dates| && req.timeline[0].policy == BuyAndHold
    ensures LastReset(req, i) == 0 && ResetDates(req, i) == []
  {
    OneVersionThroughout(req, i);
    if i > 0 {
      OneVersionThroughout(req, i - 1);
      BuyAndHoldNeverResets(req, i - 1);
    }
  }

  /** Buy and hold is one weighted sum over the whole window, and never rebalances. */
  lemma BuyAndHoldIsOneSum(req: Request, i: nat)
    requires WellFormed(req) && 0 < i < |req.dates| && req.timeline[0].policy == BuyAndHold
    requires RunTo(req, i).Success?
    ensures RunTo(req, i).value.rebalances == []
    ensures RunTo(req, i).value.points[i] ==
      Mul(100.0, Blend(req.timeline[0].components, req.prices, req.dates[0], req.dates[i]))
  {
    LoopIsFormula(req, i);
    BuyAndHoldNeverResets(req, i);
    BuyAndHoldNeverResets(req, i - 1);
    OneVersionThroughout(req, i - 1);
  }

  /** The product of the daily blends. */
  function Compounded(req: Request, i: nat): real
    requires |req.timeline| > 0 && i < |req.dates|
  {
    if i == 0 then 100.0
    else Mul(Compounded(req, i - 1), Blend(req.timeline[0].components, req.prices, req.dates[i - 1], req.dates[i]))
  }

  lemma {:induction false} DailyCompounds(req: Request, i: nat)
    requires |req.timeline| > 0 && i < |req.dates| && req.timeline[0].policy == DailyTargetWeight
    ensures IndexAt(req, i) == Compounded(req, i)
  {
    if i > 0 {
      DailyCompounds(req, i - 1);
      OneVersionThroughout(req, i - 1);
      assert LastReset(req, i - 1) == i - 1;
    }
  }

  /** Daily rebalancing is the product of the daily sums. */
  lemma DailyIsAProductOfSums(req: Request, i: nat)
    requires WellFormed(req) && i < |req.dates| && req.timeline[0].policy == DailyTargetWeight
    requires RunTo(req, i).Success?
    ensures RunTo(req, i).value.points[i] == Compounded(req, i)
  {
    LoopIsFormula(req, i);
    DailyCompounds(req, i);
  }

  /** `since` is the last rebalance date, or the first date before any. */
  lemma SinceIsLastRebalance(req: Request, i: nat)
    requires WellFormed(req) && i < |req.dates| && RunTo(req, i).Success?
    ensures var r := RunTo(req, i).value;
      r.since <= i && r.since == if r.rebalances == [] then 0 else r.rebalances[|r.rebalances| - 1]
  {
    LoopIsFormula(req, i);
    LastResetIsLastListed(req, i);
    hide RunTo, Allocatable, Units, IndexAt, ResetDates, Resets;
  }

  /** Every point, under every policy, from the point at the last reset before it. */
  lemma PointsSpanResets(req: Request, i: nat, before: Progress)
    requires WellFormed(req) && 0 < i < |req.dates|
    requires RunTo(req, i - 1) == Success(before) && RunTo(req, i).Success?
    ensures before.since < i && Started(req, before)
    ensures RunTo(req, i).value.points[i] == Mul(before.points[before.since],
      Blend(req.timeline[before.next - 1].components, req.prices, req.dates[before.since], req.dates[i]))
  {
    hide RunTo, Matches, IndexAt, Blend, Active, LastReset, Resets, ClosesThrough, ResetDates, InEffect;
    LoopIsFormula(req, i);
    LoopIsFormula(req, i - 1);
    MatchesState(req, i - 1, before);
    var after := RunTo(req, i).value;
    MatchesPoint(req, i, after, i);
    var reset := LastReset(req, i - 1);
    MatchesPoint(req, i - 1, before, reset);
    assert before.points[before.since] == IndexAt(req, reset);
    IndexStep(req, i);
  }

  /** Later closes only add points. */
  lemma PointsGrow(req: Request, i: nat)
    requires |req.timeline| > 0 && 0 < i < |req.dates| && RunTo(req, i).Success?
    ensures RunTo(req, i - 1).Success? && RunTo(req, i - 1).value.points == RunTo(req, i).value.points[..i]
  {
    hide ValueAt, Units, Allocatable, Activates, Rebalances, Open;
    var before := RunTo(req, i - 1);
    assert RunTo(req, i) == if before.Failure? then before else Close(req, before.value, i);
  }

  lemma MatchesPoint(req: Request, i: nat, r: Progress, j: nat)
    requires |req.timeline| > 0 && j <= i < |req.dates| && Matches(req, i, r)
    ensures |r.points| == i + 1 && r.points[j] == IndexAt(req, j)
  {
  }

  lemma MatchesState(req: Request, i: nat, r: Progress)
    requires |req.timeline| > 0 && i < |req.dates| && Matches(req, i, r)
    ensures r.since == LastReset(req, i) && r.next == Active(req, i) && r.rebalances == ResetDates(req, i)
  {
  }

  lemma IndexStep(req: Request, i: nat)
    requires |req.timeline| > 0 && 0 < i < |req.dates|
    ensures IndexAt(req, i) == Mul(IndexAt(req, LastReset(req, i - 1)),
      Blend(req.timeline[Active(req, i - 1) - 1].components, req.prices, req.dates[LastReset(req, i - 1)], req.dates[i]))
  {
  }

  lemma {:induction false} LastResetIsLastListed(req: Request, i: nat)
    requires |req.timeline| > 0 && i < |req.dates|
    ensures var listed := ResetDates(req, i);
      LastReset(req, i) == if listed == [] then 0 else listed[|listed| - 1]
  {
    if i > 0 { LastResetIsLastListed(req, i - 1); }
  }

  // ---- units of quotation do not matter ------------------------------------------------

  function Scaled(prices: Prices, symbol: string, k: real): Prices {
    if symbol !in prices then prices
    else prices[symbol := map d | d in prices[symbol] :: Mul(k, prices[symbol][d])]
  }

  lemma ScaledPrice(prices: Prices, symbol: string, k: real, s: string, date: int)
    ensures PriceAt(Scaled(prices, symbol, k), s, date) ==
      if s == symbol then Mul(k, PriceAt(prices, s, date)) else PriceAt(prices, s, date)
  {
  }

  lemma RatioKeeps(k: real, a: real, b: real)
    requires k > 0.0
    ensures Mul(k, a) > 0.0 <==> a > 0.0
    ensures a > 0.0 ==> Mul(k, a) > 0.0 && Div(Mul(k, b), Mul(k, a)) == Div(b, a)
  {
    if a > 0.0 {
      assert k * a > 0.0;
      var g := b / a;
      assert g * a == b;
      assert k * b == k * (g * a) == g * (k * a);
    } else if a < 0.0 {
      assert k * (-a) > 0.0;
    }
  }

  lemma {:induction false} BlendIgnoresScale(components: seq<Component>, prices: Prices, symbol: string, k: real,
      from: int, to: int)
    requires k > 0.0
    ensures Blend(components, Scaled(prices, symbol, k), from, to) == Blend(components, prices, from, to)
    ensures Allocatable(components, Scaled(prices, symbol, k), from) <==> Allocatable(components, prices, from)
  {
    if components != [] {
      var n := |components| - 1;
      var s := components[n].symbol;
      BlendIgnoresScale(components[..n], prices, symbol, k, from, to);
      ScaledPrice(prices, symbol, k, s, from);
      ScaledPrice(prices, symbol, k, s, to);
      RatioKeeps(k, PriceAt(prices, s, from), PriceAt(prices, s, to));
      assert components == components[..n] + [components[n]];
      AllocatablePeels(components, prices, from);
      AllocatablePeels(components, Scaled(prices, symbol, k), from);
    }
  }

  lemma AllocatablePeels(components: seq<Component>, prices: Prices, date: int)
    requires components != []
    ensures Allocatable(components, prices, date) <==>
      Allocatable(components[..|components| - 1], prices, date) && PriceAt(prices, components[|components| - 1].symbol, date) > 0.0
  {
    var n := |components| - 1;
    forall i | 0 <= i < n && Allocatable(components[..n], prices, date)
      ensures PriceAt(prices, components[i].symbol, date) > 0.0
    {
      assert components[..n][i] == components[i];
    }
  }

  lemma {:induction false} ScheduleIgnoresPrices(req: Request, prices: Prices, i: nat)
    requires |req.timeline| > 0 && i < |req.dates|
    ensures var other := req.(prices := prices);
      && Active(other, i) == Active(req, i)
      && (Resets(other, i) <==> Resets(req, i))
      && LastReset(other, i) == LastReset(req, i)
      && ResetDates(other, i) == ResetDates(req, i)
  {
    if i > 0 { ScheduleIgnoresPrices(req, prices, i - 1); }
  }

  lemma {:induction false} IndexIgnoresScale(req: Request, symbol: string, k: real, i: nat)
    requires |req.timeline| > 0 && i < |req.dates| && k > 0.0
    ensures IndexAt(req.(prices := Scaled(req.prices, symbol, k)), i) == IndexAt(req, i)
    decreases i
  {
    hide LastReset, Active, Resets, Blend, Scaled;
    var other := req.(prices := Scaled(req.prices, symbol, k));
    if i > 0 {
      hide IndexAt;
      ScheduleIgnoresPrices(req, other.prices, i - 1);
      var reset := LastReset(req, i - 1);
      IndexIgnoresScale(req, symbol, k, reset);
      BlendIgnoresScale(InEffect(req, i - 1), req.prices, symbol, k, req.dates[reset], req.dates[i]);
      IndexStep(req, i);
      IndexStep(other, i);
    }
  }

  lemma ClosesIgnoresScale(req: Request, symbol: string, k: real, i: nat)
    requires |req.timeline| > 0 && 0 < i < |req.dates| && k > 0.0
    ensures Closes(req.(prices := Scaled(req.prices, symbol, k)), i) <==> Closes(req, i)
  {
    hide Active, Resets, IndexAt, Allocatable, Blend, Scaled, TotalWeight;
    var other := req.(prices := Scaled(req.prices, symbol, k));
    ScheduleIgnoresPrices(req, other.prices, i - 1);
    ScheduleIgnoresPrices(req, other.prices, i);
    IndexIgnoresScale(req, symbol, k, i);
    BlendIgnoresScale(InEffect(req, i - 1), req.prices, symbol, k, req.dates[i], req.dates[i]);
    BlendIgnoresScale(InEffect(req, i), req.prices, symbol, k, req.dates[i], req.dates[i]);
  }

  /** Quoting one symbol in other units changes neither the outcome, nor any point, nor
      any rebalance date. */
  lemma ScaleInvariance(req: Request, symbol: string, k: real, i: nat)
    requires WellFormed(req) && i < |req.dates| && k > 0.0
    ensures var a, b := RunTo(req, i), RunTo(req.(prices := Scaled(req.prices, symbol, k)), i);
      && (a.Success? <==> b.Success?)
      && (a.Success? ==> b.value.points == a.value.points && b.value.rebalances == a.value.rebalances)
  {
    var other := req.(prices := Scaled(req.prices, symbol, k));
    LoopIsFormula(req, i);
    LoopIsFormula(other, i);
    BlendIgnoresScale(req.timeline[0].components, req.prices, symbol, k, req.dates[0], req.dates[0]);
    ScheduleIgnoresPrices(req, other.prices, i);
    forall j | 0 < j <= i ensures Closes(other, j) <==> Closes(req, j) {
      ClosesIgnoresScale(req, symbol, k, j);
    }
    forall j | 0 <= j <= i ensures IndexAt(other, j) == IndexAt(req, j) {
      IndexIgnoresScale(req, symbol, k, j);
    }
    hide Active, Resets, LastReset, ResetDates, IndexAt, Allocatable, Blend, Scaled, Closes, RunTo, Units;
  }
}
