/** The monthly policy: on which dates it rebalances, and what it computes. */
module MonthlyIndex {
  import opened Money
  import opened Outcomes
  import opened Portfolio
  import opened IndexFormula
  import opened IndexCausality
  import opened IndexLaws

  // ---- which dates -------------------------------------------------------------------------

  /** The next date lies in another month; there being none, the request reaches the last
      day of the date's month. A date is the number its digits spell. */
  predicate ClosesMonth(req: Request, i: nat)
    requires i < |req.dates|
  {
    if i + 1 < |req.dates| then req.dates[i] / 100 != req.dates[i + 1] / 100
    else req.end >= req.dates[i] / 100 * 100 + DaysIn(req.dates[i] / 100)
  }

  lemma CloseLists(req: Request, r: Progress, i: nat)
    requires Started(req, r) && i < |req.dates| && req.timeline[0].policy == PeriodicMonthly && Close(req, r, i).Success?
    ensures Close(req, r, i).value.rebalances == if ClosesMonth(req, i) then r.rebalances + [i] else r.rebalances
  {
    hide ValueAt, Units, Allocatable;
  }

  lemma OpenLists(req: Request)
    requires |req.timeline| > 0 && |req.dates| > 0 && RunTo(req, 0).Success?
    ensures RunTo(req, 0).value.rebalances == []
  {
    hide Units, Allocatable;
  }

  /** The dates after the first and up to m that close their month, in order. */
  ghost predicate ListsMonthEnds(req: Request, list: seq<nat>, m: nat) {
    && (forall i :: i in list <==> 0 < i <= m && i < |req.dates| && ClosesMonth(req, i))
    && (forall j, k :: 0 <= j < k < |list| ==> list[j] < list[k])
  }

  lemma ListsOneMore(req: Request, list: seq<nat>, m: nat)
    requires 0 < m < |req.dates| && ListsMonthEnds(req, list, m - 1)
    ensures ListsMonthEnds(req, if ClosesMonth(req, m) then list + [m] else list, m)
  {
    hide ClosesMonth;
    var after := list + [m];
    assert forall i :: i in after <==> i in list || i == m;
    forall j, k | 0 <= j < k < |after| ensures after[j] < after[k] {
      assert after[j] in list;
    }
  }

  /** At any precision a monthly run rebalances on exactly the dates after the first that
      close their month. */
  lemma {:induction false} MonthlyRebalancesExactly(req: Request, m: nat, r: Progress)
    requires |req.timeline| > 0 && req.timeline[0].policy == PeriodicMonthly && m < |req.dates| && RunTo(req, m) == Success(r)
    ensures ListsMonthEnds(req, r.rebalances, m)
  {
    hide *;
    if m == 0 {
      OpenLists(req);
      NothingListed(req);
    } else {
      RunUnfolds(req, m);
      var before := RunTo(req, m - 1).value;
      MonthlyRebalancesExactly(req, m - 1, before);
      CloseLists(req, before, m);
      ListsOneMore(req, before.rebalances, m);
    }
  }

  lemma NothingListed(req: Request)
    ensures ListsMonthEnds(req, [], 0)
  {
  }

  // ---- month lengths -----------------------------------------------------------------------

  function DaysThrough(year: int, months: nat): int {
    if months == 0 then 0 else DaysThrough(year, months - 1) + DaysIn(year * 100 + months)
  }

  lemma MonthLength(year: int, month: nat)
    requires 1 <= month <= 12
    ensures DaysIn(year * 100 + month) ==
      if month == 2 then if year % 4 == 0 && (year % 100 != 0 || year % 400 == 0) then 29 else 28
      else if month == 4 || month == 6 || month == 9 || month == 11 then 30
      else 31
  {
    assert (year * 100 + month) / 100 == year && (year * 100 + month) % 100 == month;
  }

  lemma OneMonthMore(year: int, months: nat)
    requires 1 <= months <= 12
    ensures DaysThrough(year, months) == DaysThrough(year, months - 1) + DaysIn(year * 100 + months)
  {
  }

  /** A year has 365 days, or 366 if it is divisible by 4 and not by 100 unless by 400. */
  lemma YearLength(year: int)
    ensures DaysThrough(year, 12) == 365 + if year % 4 == 0 && (year % 100 != 0 || year % 400 == 0) then 1 else 0
    ensures DaysIn(202602) == 28 && DaysIn(202402) == 29 && DaysIn(202601) == DaysIn(202612) == 31 && DaysIn(202606) == 30
  {
    assert DaysThrough(year, 0) == 0;
    hide DaysThrough;
    for m := 1 to 13
      invariant DaysThrough(year, m - 1) == LengthsThrough(year, m - 1)
    {
      OneMonthMore(year, m);
      MonthLength(year, m);
    }
  }

  /** The lengths by the calendar. */
  function LengthsThrough(year: int, months: nat): int {
    var february := if year % 4 == 0 && (year % 100 != 0 || year % 400 == 0) then 29 else 28;
    (if months >= 1 then 31 else 0) + (if months >= 2 then february else 0) + (if months >= 3 then 31 else 0) +
    (if months >= 4 then 30 else 0) + (if months >= 5 then 31 else 0) + (if months >= 6 then 30 else 0) +
    (if months >= 7 then 31 else 0) + (if months >= 8 then 31 else 0) + (if months >= 9 then 30 else 0) +
    (if months >= 10 then 31 else 0) + (if months >= 11 then 30 else 0) + (if months >= 12 then 31 else 0)
  }

  // ---- what it computes --------------------------------------------------------------------

  /** The date whose close opened the month of date i: the last one before it to close its
      month, or the first date. */
  function MonthOpen(req: Request, i: nat): (j: nat)
    requires 0 < i < |req.dates|
    ensures j < i
  {
    if i == 1 || req.dates[i - 1] / 100 != req.dates[i] / 100 then i - 1 else MonthOpen(req, i - 1)
  }

  lemma {:induction false} MonthOpenIsReset(req: Request, i: nat)
    requires |req.timeline| > 0 && req.timeline[0].policy == PeriodicMonthly && 0 < i < |req.dates|
    ensures MonthOpen(req, i) == LastReset(req, i - 1)
  {
    OneVersionThroughout(req, i - 1);
    if i > 1 {
      OneVersionThroughout(req, i - 2);
      MonthOpenIsReset(req, i - 1);
    }
  }

  /** The product of the blends of whole months, and of the month begun. */
  function ByMonths(req: Request, i: nat): real
    requires |req.timeline| > 0 && i < |req.dates|
  {
    if i == 0 then 100.0
    else
      var j := MonthOpen(req, i);
      Mul(ByMonths(req, j), Blend(req.timeline[0].components, req.prices, req.dates[j], req.dates[i]))
  }

  lemma {:induction false} IndexByMonths(req: Request, i: nat)
    requires |req.timeline| > 0 && req.timeline[0].policy == PeriodicMonthly && i < |req.dates|
    ensures IndexAt(req, i) == ByMonths(req, i)
  {
    if i > 0 {
      MonthOpenIsReset(req, i);
      OneVersionThroughout(req, i - 1);
      IndexByMonths(req, MonthOpen(req, i));
      hide Blend, Mul, LastReset, MonthOpen, Active;
    }
  }

  /** Monthly rebalancing is the product of the months' weighted sums. */
  lemma MonthlyIsAProductOfMonths(req: Request, i: nat)
    requires WellFormed(req) && i < |req.dates| && req.timeline[0].policy == PeriodicMonthly
    requires RunTo(req, i).Success?
    ensures i < |RunTo(req, i).value.points| && RunTo(req, i).value.points[i] == ByMonths(req, i)
  {
    LoopIsFormula(req, i);
    IndexByMonths(req, i);
    MatchesPoint(req, i, RunTo(req, i).value, i);
    hide Matches, ClosesThrough, Blend, Mul;
  }

  // ---- one turn of a month -----------------------------------------------------------------

  const HALVES := [Component("A", 0.5), Component("B", 0.5)]
  const TURN := Request(
    [Version(20260101, PeriodicMonthly, HALVES)], [20260129, 20260130, 20260202],
    map["A" := map[20260129 := 100.0, 20260130 := 200.0, 20260202 := 400.0],
        "B" := map[20260129 := 100.0, 20260130 := 100.0, 20260202 := 100.0]],
    20260202, EXACT)

  lemma HalvesBlend(from: int, to: int)
    ensures Blend(HALVES, TURN.prices, from, to) ==
      Mul(0.5, Growth(TURN.prices, "A", from, to)) + Mul(0.5, Growth(TURN.prices, "B", from, to))
    ensures TotalWeight(HALVES) == 1.0 && Distinct(HALVES)
    ensures Allocatable(HALVES, TURN.prices, from) <==> PriceAt(TURN.prices, "A", from) > 0.0 && PriceAt(TURN.prices, "B", from) > 0.0
  {
    assert HALVES[..1] == [Component("A", 0.5)] && HALVES[..1][..0] == [];
    assert Blend(HALVES[..1], TURN.prices, from, to) == Mul(0.5, Growth(TURN.prices, "A", from, to));
    assert TotalWeight(HALVES[..1]) == 0.5;
    assert "A"[0] != "B"[0] && HALVES[0].symbol == "A" && HALVES[1].symbol == "B";
    hide Growth, PriceAt, Mul;
  }

  lemma TurnGrowth()
    ensures Growth(TURN.prices, "A", 20260129, 20260130) == 2.0 && Growth(TURN.prices, "A", 20260130, 20260202) == 2.0
    ensures Growth(TURN.prices, "B", 20260129, 20260130) == 1.0 && Growth(TURN.prices, "B", 20260130, 20260202) == 1.0
    ensures forall i :: 0 <= i < 3 ==>
      PriceAt(TURN.prices, "A", TURN.dates[i]) > 0.0 && PriceAt(TURN.prices, "B", TURN.dates[i]) > 0.0
  {
    assert "A"[0] != "B"[0];
  }

  lemma TurnPoints()
    ensures ByMonths(TURN, 0) == 100.0 && ByMonths(TURN, 1) == 150.0 && ByMonths(TURN, 2) == 225.0
  {
    TurnGrowth();
    HalvesBlend(20260129, 20260130);
    HalvesBlend(20260130, 20260202);
    assert MonthOpen(TURN, 1) == 0 && MonthOpen(TURN, 2) == 1;
    hide Growth, Blend;
    assert ByMonths(TURN, 1) == Mul(100.0, 1.5);
    assert ByMonths(TURN, 2) == Mul(150.0, 1.5);
  }

  lemma TurnCloses(i: nat)
    requires 0 < i <= 2
    ensures |TURN.timeline| == 1 && Closes(TURN, i)
  {
    TurnPoints();
    TurnGrowth();
    IndexByMonths(TURN, i);
    OneVersionThroughout(TURN, i);
    OneVersionThroughout(TURN, i - 1);
    HalvesBlend(TURN.dates[i], TURN.dates[i]);
    hide IndexAt, ByMonths, Blend, Growth, TotalWeight, Allocatable, PriceAt, Resets, Active;
    assert InEffect(TURN, i - 1) == HALVES && InEffect(TURN, i) == HALVES;
  }

  lemma TurnPoint(r: Progress, i: nat)
    requires i <= 2 && Matches(TURN, 2, r)
    ensures |r.points| == 3 && r.points[i] == ByMonths(TURN, i)
  {
    IndexByMonths(TURN, i);
    MatchesPoint(TURN, 2, r, i);
    hide *;
  }

  /** A doubles on the last trading date of January and again on the first of February; the
      run rebalances between the two and stands at 225, not at the 250 of a portfolio
      rebalanced a date later. */
  lemma RebalancesAtTheTurn()
    ensures |TURN.timeline| == 1 && RunTo(TURN, 2).Success?
    ensures RunTo(TURN, 2).value.points == [100.0, 150.0, 225.0] && RunTo(TURN, 2).value.rebalances == [1]
  {
    TurnCloses(1);
    TurnCloses(2);
    hide *;
    TurnPoints();
    TurnRuns();
    var r := RunTo(TURN, 2).value;
    TurnPoint(r, 0);
    TurnPoint(r, 1);
    TurnPoint(r, 2);
    MonthlyRebalancesExactly(TURN, 2, r);
    OnlyOneListed(r.rebalances);
  }

  lemma TurnRuns()
    requires Closes(TURN, 1) && Closes(TURN, 2)
    ensures RunTo(TURN, 2).Success? && Matches(TURN, 2, RunTo(TURN, 2).value)
  {
    HalvesBlend(20260129, 20260129);
    TurnGrowth();
    hide RunTo, Matches, Closes, Blend, TotalWeight, Distinct, Allocatable, PriceAt, Growth;
    forall j | 0 < j <= 2 ensures Closes(TURN, j) {
      assert j == 1 || j == 2;
    }
    assert WellFormed(TURN) && ClosesThrough(TURN, 2);
    LoopIsFormula(TURN, 2);
  }

  lemma OnlyOneListed(list: seq<nat>)
    requires ListsMonthEnds(TURN, list, 2)
    ensures list == [1]
  {
    assert ClosesMonth(TURN, 1) && !ClosesMonth(TURN, 2);
    hide ClosesMonth;
    assert forall i :: i in list <==> i == 1;
    assert forall j :: 0 <= j < |list| ==> list[j] in list;
    assert 1 in list;
    assert list[0] in list && list[|list| - 1] in list;
    assert list[0] == 1 == list[|list| - 1];
  }
}
