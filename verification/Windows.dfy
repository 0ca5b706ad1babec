/** The same recipe over a nearer and a farther window: when the longer run repeats the
    shorter one, and when a later filing changes what was already shown. */
module Windows {
  import opened Outcomes
  import opened Portfolio
  import opened Recipes
  import opened Flattening
  import opened Timelines
  import opened SeriesDates
  import opened IndexFormula
  import opened IndexCausality
  import opened Activation
  import opened Benchmark

  /** Two evaluations of one recipe on the same data, differing in their ends alone. */
  ghost predicate Windowed(store: Store, recipe: string, start: int, near: int, far: int, m: Market,
      a: Request, b: Request)
    requires Keyed(store)
  {
    && start <= near <= far && a.precision == b.precision
    && Prepared(store, recipe, start, near, m, a) && Prepared(store, recipe, start, far, m, b)
  }

  /** Every symbol any version of the longer timeline names, later filings included, has a
      point on each date of the nearer window. */
  ghost predicate NearDatesPriced(a: Request, b: Request, m: Market) {
    forall s :: Names(b.timeline, s) ==> PricedOnAll(m, s, a.dates)
  }

  ghost predicate PricedOnAll(m: Market, s: string, dates: seq<int>) {
    s in m.provider && forall d :: d in dates ==> HasDate(m.provider[s].points, d)
  }

  ghost predicate Within(dates: seq<int>, others: seq<int>) {
    forall d :: d in dates ==> d in others
  }

  // ---- dates ---------------------------------------------------------------------------

  lemma DaysInOrder(a: int, b: int)
    requires a <= b
    ensures DayOf(a) <= DayOf(b)
  {
  }

  lemma NamesGrow(a: seq<Version>, b: seq<Version>, s: string)
    requires a <= b && Names(a, s)
    ensures Names(b, s)
  {
    var k :| 0 <= k < |a| && s in Symbols(a[k].components);
    assert b[k] == a[k];
  }

  /** What the two requests have by being prepared. */
  lemma WindowParts(store: Store, recipe: string, start: int, near: int, far: int, m: Market, a: Request, b: Request)
    requires Keyed(store) && Windowed(store, recipe, start, near, far, m, a, b)
    ensures |a.timeline| > 0 && a.timeline <= b.timeline
    ensures forall k :: |a.timeline| <= k < |b.timeline| ==> b.timeline[k].known >= DayOf(near)
    ensures RunDates(a.timeline, m, DayOf(start), DayOf(near), a.dates)
    ensures RunDates(b.timeline, m, DayOf(start), DayOf(far), b.dates)
    ensures PricedFor(a.timeline, m, a.dates, a.prices) && PricedFor(b.timeline, m, b.dates, b.prices)
    ensures DayOf(near) <= DayOf(far) && a.precision == b.precision
  {
    hide RunDates, PricedFor, AllSound, InPublicOrder, Resolve;
    LongerWindowKnowsAsMuch(store, recipe, start, near, far, DayOf(near));
    DaysInOrder(near, far);
  }

  /** A date of the longer run within the nearer window is a date of the shorter one. */
  lemma FarDatesOfNear(a: Request, b: Request, m: Market, start: int, near: int, far: int)
    requires a.timeline <= b.timeline && near <= far
    requires RunDates(a.timeline, m, start, near, a.dates) && RunDates(b.timeline, m, start, far, b.dates)
    ensures forall d :: d in b.dates && d <= near ==> d in a.dates
    ensures forall d :: d in a.dates ==> start <= d <= near
  {
    hide Names, HasDate, Convertible, Ascending;
    forall d | d in b.dates && d <= near ensures d in a.dates {
      assert CommonDate(b.timeline, m.provider, start, far, d);
      forall s | Names(a.timeline, s) ensures s in m.provider && HasDate(m.provider[s].points, d) {
        NamesGrow(a.timeline, b.timeline, s);
      }
      assert CommonDate(a.timeline, m.provider, start, near, d);
    }
    forall d | d in a.dates ensures start <= d <= near {
      assert CommonDate(a.timeline, m.provider, start, near, d);
    }
  }

  /** The near dates all stay exactly when every symbol the longer timeline names has a
      point on each of them. */
  lemma DatesStayExactly(a: Request, b: Request, m: Market, start: int, near: int, far: int)
    requires a.timeline <= b.timeline && near <= far
    requires RunDates(a.timeline, m, start, near, a.dates) && RunDates(b.timeline, m, start, far, b.dates)
    ensures Within(a.dates, b.dates) <==> NearDatesPriced(a, b, m)
  {
    hide Names, HasDate, Convertible, Ascending;
    FarDatesOfNear(a, b, m, start, near, far);
    if Within(a.dates, b.dates) {
      forall s | Names(b.timeline, s) ensures PricedOnAll(m, s, a.dates) {
        forall d | d in a.dates ensures HasDate(m.provider[s].points, d) {
          assert CommonDate(b.timeline, m.provider, start, far, d);
        }
      }
    }
    if NearDatesPriced(a, b, m) {
      forall d | d in a.dates ensures d in b.dates {
        forall s | Names(b.timeline, s) ensures s in m.provider && HasDate(m.provider[s].points, d) {
          assert PricedOnAll(m, s, a.dates);
        }
        assert CommonDate(b.timeline, m.provider, start, far, d);
      }
    }
  }

  /** Ascending dates that stay, with no other up to the bound, stay at the front. */
  lemma {:induction false} StayAtFront(a: seq<int>, b: seq<int>, bound: int)
    requires Ascending(a) && Ascending(b) && Within(a, b)
    requires forall d :: d in a ==> d <= bound
    requires forall d :: d in b && d <= bound ==> d in a
    ensures a <= b
  {
    if b == [] || b[|b| - 1] <= bound {
      forall d | d in b ensures d in a { LastIsLargest(b, d); }
      AscendingUnique(a, b);
    } else {
      var front, last := b[..|b| - 1], b[|b| - 1];
      assert b == front + [last];
      StayAtFront(a, front, bound);
    }
  }

  /** The longer run's dates extend the shorter's exactly when every symbol the longer
      timeline names, later filings included, has a point on each near date. Otherwise some
      near date is gone, and with it the index of 100 may move or the run may fail. */
  lemma DatesExtendExactly(store: Store, recipe: string, start: int, near: int, far: int, m: Market,
      a: Request, b: Request)
    requires Keyed(store) && Windowed(store, recipe, start, near, far, m, a, b)
    ensures a.dates <= b.dates <==> NearDatesPriced(a, b, m)
    ensures !NearDatesPriced(a, b, m) ==> exists d :: d in a.dates && d !in b.dates
  {
    hide Windowed, NearDatesPriced, PricedFor, CommonDate, Convertible, Names;
    WindowParts(store, recipe, start, near, far, m, a, b);
    DatesStayExactly(a, b, m, DayOf(start), DayOf(near), DayOf(far));
    FarDatesOfNear(a, b, m, DayOf(start), DayOf(near), DayOf(far));
    if Within(a.dates, b.dates) {
      StayAtFront(a.dates, b.dates, DayOf(near));
    }
    if a.dates <= b.dates {
      forall d | d in a.dates ensures d in b.dates {
        var i :| 0 <= i < |a.dates| && a.dates[i] == d;
        assert b.dates[i] == d;
      }
    }
  }

  /** Only a filing recipe can lose a date: any other keeps its first version alone. */
  lemma OtherPoliciesKeepDates(store: Store, recipe: string, start: int, near: int, far: int, m: Market,
      a: Request, b: Request)
    requires Keyed(store) && Windowed(store, recipe, start, near, far, m, a, b)
    requires |b.timeline| > 0 && b.timeline[0].policy != FilingSnapshot
    ensures NearDatesPriced(a, b, m)
  {
    OneVersionUnlessFiling(store, recipe, start, far);
    hide Windowed, PricedFor, Convertible, Names, HasDate, Resolve, AllSound, InPublicOrder;
    WindowParts(store, recipe, start, near, far, m, a, b);
    assert a.timeline == b.timeline;
    forall s | Names(b.timeline, s) ensures PricedOnAll(m, s, a.dates) {
      var d0 := a.dates[0];
      assert d0 in a.dates && CommonDate(a.timeline, m.provider, DayOf(start), DayOf(near), d0);
      forall d | d in a.dates ensures HasDate(m.provider[s].points, d) {
        assert CommonDate(a.timeline, m.provider, DayOf(start), DayOf(near), d);
      }
    }
  }

  // ---- points --------------------------------------------------------------------------

  lemma RowsAgree(a: Request, b: Request, m: Market, s: string, d: int)
    requires PricedFor(a.timeline, m, a.dates, a.prices) && PricedFor(b.timeline, m, b.dates, b.prices)
    requires Names(a.timeline, s) && Names(b.timeline, s) && d in a.dates && d in b.dates
    ensures PriceAt(a.prices, s, d) == PriceAt(b.prices, s, d)
  {
    hide Names, Converted;
    assert s in a.prices && s in b.prices;
    assert RowOf(m.provider[s], m.rates, m.base, a.dates, a.prices[s]);
    assert RowOf(m.provider[s], m.rates, m.base, b.dates, b.prices[s]);
    assert d in a.prices[s] && d in b.prices[s];
    assert Success(a.prices[s][d]) == Converted(m.provider[s], m.rates, m.base, d) == Success(b.prices[s][d]);
  }

  lemma VersionStaysPriced(a: Request, b: Request, m: Market, k: nat)
    requires PricedFor(a.timeline, m, a.dates, a.prices) && PricedFor(b.timeline, m, b.dates, b.prices)
    requires k < |a.timeline| && a.timeline <= b.timeline && a.dates <= b.dates
    ensures VersionPriced(a, b, |a.dates|, k)
  {
    hide PricedFor, PriceAt;
    var symbols := Symbols(a.timeline[k].components);
    forall i, s | 0 <= i < |a.dates| && s in symbols
      ensures PriceAt(a.prices, s, a.dates[i]) == PriceAt(b.prices, s, a.dates[i])
    {
      assert Names(a.timeline, s);
      NamesGrow(a.timeline, b.timeline, s);
      assert b.dates[i] == a.dates[i];
      RowsAgree(a, b, m, s, a.dates[i]);
    }
  }

  lemma SamePastFrom(a: Request, b: Request, near: int)
    requires |a.dates| > 0 && a.dates <= b.dates && a.dates[|a.dates| - 1] <= near && a.precision == b.precision
    requires |a.timeline| > 0 && a.timeline <= b.timeline
    requires forall k :: |a.timeline| <= k < |b.timeline| ==> b.timeline[k].known >= near
    requires forall k :: 0 <= k < |a.timeline| ==> VersionPriced(a, b, |a.dates|, k)
    ensures SamePast(a, b, |a.dates|) && |b.timeline| > 0
  {
    var n := |a.dates|;
    hide VersionPriced;
    assert a.dates[..n] == a.dates && b.dates[..n] == a.dates;
    assert a.timeline[0] == b.timeline[0];
  }

  lemma LastNearDate(a: Request, m: Market, start: int, near: int)
    requires RunDates(a.timeline, m, start, near, a.dates)
    ensures |a.dates| >= 2 && Ascending(a.dates) && a.dates[|a.dates| - 1] <= near
  {
    hide Names, HasDate, Convertible, Ascending;
    var last := a.dates[|a.dates| - 1];
    assert last in a.dates && CommonDate(a.timeline, m.provider, start, near, last);
  }

  /** With its dates kept, the longer run cannot be told apart over the nearer window. */
  lemma ExtensionSharesThePast(store: Store, recipe: string, start: int, near: int, far: int, m: Market,
      a: Request, b: Request)
    requires Keyed(store) && Windowed(store, recipe, start, near, far, m, a, b) && a.dates <= b.dates
    ensures |a.dates| > 0 && SamePast(a, b, |a.dates|) && Ascending(a.dates)
    ensures |a.timeline| > 0 && |b.timeline| > 0
  {
    hide *;
    WindowParts(store, recipe, start, near, far, m, a, b);
    LastNearDate(a, m, DayOf(start), DayOf(near));
    forall k | 0 <= k < |a.timeline| ensures VersionPriced(a, b, |a.dates|, k) {
      VersionStaysPriced(a, b, m, k);
    }
    SamePastFrom(a, b, DayOf(near));
  }

  /** A day its month has. */
  predicate CalendarDay(date: int) {
    date % 100 <= DaysIn(MonthOf(date))
  }

  ghost predicate AllCalendarDays(dates: seq<int>) {
    forall d :: d in dates ==> CalendarDay(d)
  }

  lemma PastMonthEnd(date: int, later: int)
    requires CalendarDay(later) && MonthEnd(date) < later
    ensures MonthOf(date) != MonthOf(later)
  {
  }

  /** What ends a month in the nearer window ends it in the longer one too. */
  lemma MonthEndStays(a: Request, b: Request, near: int)
    requires |a.dates| > 0 && a.dates <= b.dates && a.end == near && b.end >= near
    requires forall d :: d in b.dates && d <= near ==> d in a.dates
    requires Ascending(b.dates) && AllCalendarDays(b.dates)
    ensures FinalOfMonth(a, |a.dates| - 1) ==> FinalOfMonth(b, |a.dates| - 1)
  {
    var n := |a.dates|;
    assert a.dates[n - 1] == b.dates[n - 1];
    if FinalOfMonth(a, n - 1) && n < |b.dates| {
      var next := b.dates[n];
      assert next in b.dates;
      forall i | 0 <= i < n ensures a.dates[i] != next {
        assert a.dates[i] == b.dates[i] < b.dates[n];
      }
      PastMonthEnd(a.dates[n - 1], next);
    }
  }

  lemma EndsAreDays(store: Store, recipe: string, start: int, near: int, far: int, m: Market, a: Request, b: Request)
    requires Keyed(store) && Windowed(store, recipe, start, near, far, m, a, b)
    ensures a.end == DayOf(near) && b.end == DayOf(far) && Ascending(b.dates)
  {
    hide Resolve, AllSound, PricedFor, InPublicOrder, PolicyServed;
  }

  /** A run over a longer window of the same recipe on the same data repeats the points of
      the shorter one, whenever every symbol the longer timeline names has a point on each
      date of the nearer window; and it is completed only if the shorter one is. */
  lemma LongerRunRepeats(store: Store, recipe: string, start: int, near: int, far: int, m: Market,
      a: Request, b: Request, i: nat)
    requires Keyed(store) && Windowed(store, recipe, start, near, far, m, a, b) && NearDatesPriced(a, b, m)
    requires |a.timeline| > 0 && |b.timeline| > 0 && 0 < |a.dates| <= i + 1 <= |b.dates|
    ensures AllCalendarDays(b.dates) && RunTo(b, i).Success? ==> RunTo(a, |a.dates| - 1).Success?
    ensures RunTo(a, |a.dates| - 1).Success? && RunTo(b, i).Success? ==>
      RunTo(a, |a.dates| - 1).value.points == RunTo(b, i).value.points[..|a.dates|]
  {
    hide *;
    var n := |a.dates|;
    DatesExtendExactly(store, recipe, start, near, far, m, a, b);
    ExtensionSharesThePast(store, recipe, start, near, far, m, a, b);
    EndsAreDays(store, recipe, start, near, far, m, a, b);
    if AllCalendarDays(b.dates) && RunTo(b, i).Success? {
      PointsStay(b, n - 1, i);
      WindowParts(store, recipe, start, near, far, m, a, b);
      FarDatesOfNear(a, b, m, DayOf(start), DayOf(near), DayOf(far));
      MonthEndStays(a, b, DayOf(near));
      NoNewMonthEnd(a, b, n - 1);
      ReachedWithoutMonthEnd(a, b, n);
    }
    if RunTo(a, n - 1).Success? && RunTo(b, i).Success? {
      Causality(a, b, n, n - 1, i);
      var points := RunTo(a, n - 1).value.points;
      assert points[..n] == points;
    }
  }

  lemma NoNewMonthEnd(a: Request, b: Request, i: nat)
    requires |a.timeline| > 0 && i < |a.dates| && i < |b.dates|
    requires FinalOfMonth(a, i) ==> FinalOfMonth(b, i)
    ensures !MonthsEndAlike(a, b, i) ==> !FinalOfMonth(a, i)
  {
  }
}
