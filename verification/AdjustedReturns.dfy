/** What back-adjustment does to closes: where it starts, what it refuses, how each kind of
    action enters a return. */
module AdjustedReturns {
  import opened Money
  import opened Portfolio
  import opened IndexRounding
  import opened ConversionLaws
  import opened BackAdjustment

  // ---- the anchor --------------------------------------------------------------------------

  lemma {:induction false} NoneAfter(points: seq<Close>, acts: seq<CorporateAction>, date: int)
    requires forall k :: 0 <= k < |acts| ==> acts[k].date <= date
    ensures Factor(points, acts, date) == 1.0
  {
    if acts != [] { NoneAfter(points, acts[..|acts| - 1], date); }
  }

  /** From the last action on, closes stand as they are but for the rounding; an action on
      the day of a close leaves that close alone. */
  lemma LatestClosesStand(points: seq<Close>, acts: seq<CorporateAction>, quantum: real, out: seq<Close>, i: nat)
    requires IsAdjusted(points, acts, quantum, out) && i < |points| && quantum >= 0.0
    requires forall k :: 0 <= k < |acts| ==> acts[k].date <= points[i].date
    ensures out[i].date == points[i].date
    ensures quantum == 0.0 ==> out[i].price == points[i].price
    ensures Abs(out[i].price - points[i].price) <= quantum / 2.0
  {
    NoneAfter(points, acts, points[i].date);
    assert Mul(points[i].price, 1.0) == points[i].price;
    SnapIsNear(points[i].price, quantum);
    hide Factor, SnapIndex;
  }

  /** Every adjusted close is a whole number of quanta, at most half of one away from the
      close times its factor. */
  lemma AdjustedIsRounded(points: seq<Close>, acts: seq<CorporateAction>, quantum: real, out: seq<Close>, i: nat)
    requires IsAdjusted(points, acts, quantum, out) && i < |points| && quantum >= 0.0
    ensures OnGrid(out[i].price, quantum)
    ensures Abs(out[i].price - Mul(points[i].price, Factor(points, acts, points[i].date))) <= quantum / 2.0
  {
    SnapIsNear(Mul(points[i].price, Factor(points, acts, points[i].date)), quantum);
    SnapLandsOnGrid(Mul(points[i].price, Factor(points, acts, points[i].date)), quantum);
    hide Factor, SnapIndex, Mul, OnGrid;
  }

  // ---- the refusal -------------------------------------------------------------------------

  /** The close is the last one before the day. */
  ghost predicate LastBefore(points: seq<Close>, day: int, i: nat) {
    i < |points| && points[i].date < day && forall j :: i < j < |points| ==> points[j].date >= day
  }

  lemma {:induction false} PriorIsLast(points: seq<Close>, day: int)
    requires Ordered(points)
    ensures forall i: nat :: LastBefore(points, day, i) ==> PriorClose(points, day) == points[i].price
    ensures (forall i: nat :: !LastBefore(points, day, i)) ==> PriorClose(points, day) == 0.0
  {
    if points != [] {
      var n := |points| - 1;
      var front := points[..n];
      PriorIsLast(front, day);
      if points[n].date < day {
        assert LastBefore(points, day, n);
      } else {
        assert forall i: nat :: LastBefore(points, day, i) <==> LastBefore(front, day, i);
      }
    }
  }

  /** An action makes the series unusable exactly if it pays at least the last close before
      its day, and there is one above zero. */
  lemma OverpaysExactly(points: seq<Close>, a: CorporateAction)
    requires Ordered(points)
    ensures Overpays(points, a) <==>
      exists i: nat :: LastBefore(points, a.date, i) && 0.0 < points[i].price <= a.dividend
  {
    PriorIsLast(points, a.date);
    hide PriorClose;
    if Overpays(points, a) {
      var i: nat :| LastBefore(points, a.date, i);
    }
  }

  // ---- returns -----------------------------------------------------------------------------

  function RatioOf(a: CorporateAction): real {
    if a.ratio > 0.0 then a.ratio else 1.0
  }

  function PaidBy(a: CorporateAction): real {
    if a.dividend > 0.0 then a.dividend else 0.0
  }

  /** Across the one action between two closes, be it a split, a dividend or both at once,
      the return is what the shares it made of one are worth, measured from the close less
      the dividend. */
  lemma ActionReturn(points: seq<Close>, acts: seq<CorporateAction>, out: seq<Close>, i: nat, k: nat)
    requires Ordered(points) && NoneOverpays(points, acts) && IsAdjusted(points, acts, 0.0, out)
    requires i + 1 < |points| && points[i].price > 0.0
    requires OnlyAction(acts, points[i].date, points[i + 1].date, k)
    ensures points[i].price - PaidBy(acts[k]) > 0.0 && out[i].price > 0.0
    ensures Div(out[i + 1].price, out[i].price) ==
      Div(Mul(points[i + 1].price, RatioOf(acts[k])), points[i].price - PaidBy(acts[k]))
  {
    var a := acts[k];
    hide *;
    AdjustedReturn(points, acts, out, i, i + 1);
    GapFactor(points, acts, i, k);
    CombinedQuotient(points[i + 1].price, points[i].price, RatioOf(a), PaidBy(a));
  }

  lemma SplitInverts(a: CorporateAction)
    ensures RatioOf(a) > 0.0 && SplitFactor(a) == Div(1.0, RatioOf(a))
  {
  }

  lemma DividendTakes(points: seq<Close>, a: CorporateAction, close: real)
    requires close > 0.0 && PriorClose(points, a.date) == close
    ensures DividendFactor(points, a) == 1.0 - Div(PaidBy(a), close)
    ensures !Overpays(points, a) ==> PaidBy(a) < close
  {
    hide PriorClose, Div;
    NothingOf(close);
  }

  lemma NothingOf(close: real)
    requires close > 0.0
    ensures Div(0.0, close) == 0.0
  {
  }

  lemma FactorsOf(points: seq<Close>, a: CorporateAction)
    ensures ActionFactor(points, a) == Mul(SplitFactor(a), DividendFactor(points, a))
  {
    hide Mul, SplitFactor, DividendFactor;
  }

  /** The factor over the gap, spelt out. */
  lemma GapFactor(points: seq<Close>, acts: seq<CorporateAction>, i: nat, k: nat)
    requires Ordered(points) && NoneOverpays(points, acts)
    requires i + 1 < |points| && points[i].price > 0.0
    requires OnlyAction(acts, points[i].date, points[i + 1].date, k)
    ensures PaidBy(acts[k]) < points[i].price && RatioOf(acts[k]) > 0.0
    ensures Between(points, acts, points[i].date, points[i + 1].date) ==
      Mul(Div(1.0, RatioOf(acts[k])), 1.0 - Div(PaidBy(acts[k]), points[i].price))
  {
    var a := acts[k];
    hide Mul, Div, ActionFactor, SplitFactor, DividendFactor, PaidBy, RatioOf, PriorClose, Between, Ordered;
    PriorIsLastBefore(points, a.date, i);
    OneBetween(points, acts, points[i].date, points[i + 1].date, k);
    assert !Overpays(points, a);
    FactorsOf(points, a);
    SplitInverts(a);
    DividendTakes(points, a, points[i].price);
  }

  lemma CombinedQuotient(x: real, y: real, ratio: real, paid: real)
    requires ratio > 0.0 && y > 0.0 && paid < y
    ensures y - paid > 0.0
    ensures Div(Div(x, y), Mul(Div(1.0, ratio), 1.0 - Div(paid, y))) == Div(Mul(x, ratio), y - paid)
  {
    var s, inverse, r := paid / y, 1.0 / ratio, x / y;
    assert s * y == paid && inverse * ratio == 1.0 && r * y == x;
    assert (1.0 - s) * y == y - paid;
    assert 1.0 - s > 0.0 && inverse > 0.0;
    var f := inverse * (1.0 - s);
    assert f > 0.0;
    var q := r / f;
    assert q * f == r;
    assert q * (y - paid) == x * ratio by {
      assert q * (y - paid) == q * ((1.0 - s) * y);
      assert q * f * y * ratio == x * ratio;
      assert q * f * y * ratio == q * ((1.0 - s) * y) * (inverse * ratio);
    }
  }
}
