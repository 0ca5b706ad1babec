/** What a baseline scores when quotes move, and what it was taken of. */
module BaselineLaws {
  import opened Money
  import opened OrderedIds
  import opened RankOrder
  import opened Lifecycles
  import opened Outcomes
  import opened Valuation
  import opened Observations
  import opened BasketAdjustments
  import opened Baseline

  // ---- quotes that move together -----------------------------------------------------------

  ghost predicate CashFree(b: Basket) {
    forall i :: 0 <= i < |b.cash| ==> !b.cash[i].included
  }

  /** The position's share is quoted k times as high; the currency may be another one. */
  ghost predicate QuotedTimes(p: Position, v: View, w: View, k: real) {
    var key := KeyOf(p.instrument, p.symbol);
    p.included ==> key in v.prices && key in w.prices && w.prices[key].price == Mul(k, v.prices[key].price)
  }

  ghost predicate AllQuotedTimes(ps: seq<Position>, v: View, w: View, k: real) {
    forall i :: 0 <= i < |ps| ==> QuotedTimes(ps[i], v, w, k)
  }

  /** And in the same currency at the same rate. */
  ghost predicate SameCurrency(p: Position, v: View, w: View) {
    var key := KeyOf(p.instrument, p.symbol);
    p.included && key in v.prices && key in w.prices ==> w.prices[key].currency == v.prices[key].currency
  }

  ghost predicate AllSameCurrency(ps: seq<Position>, v: View, w: View) {
    v.fx == w.fx && forall i :: 0 <= i < |ps| ==> SameCurrency(ps[i], v, w)
  }

  lemma TimesInside(k: real, q: real, price: real, rate: real)
    ensures Mul(q, Mul(k, price)) == Mul(k, Mul(q, price))
    ensures Mul(Mul(q, Mul(k, price)), rate) == Mul(k, Mul(Mul(q, price), rate))
  {
    assert Mul(q, Mul(k, price)) == Mul(k, Mul(q, price)) by {
      MulAssociates(q, k, price);
      MulAssociates(k, q, price);
      assert Mul(q, k) == Mul(k, q);
    }
    MulAssociates(k, Mul(q, price), rate);
  }

  /** With currency effects. */
  lemma PositionFollows(p: Position, v: View, w: View, k: real)
    requires PositionValue(p, v, true).Success? && QuotedTimes(p, v, w, k) && SameCurrency(p, v, w) && v.fx == w.fx
    ensures PositionValue(BaselinedPosition(p, v), w, true) == Success(Mul(k, PositionValue(p, v, true).value))
  {
    if p.included {
      var quote := v.prices[KeyOf(p.instrument, p.symbol)];
      TimesInside(k, p.quantity, quote.price, if quote.currency in v.fx then v.fx[quote.currency] else 1.0);
    }
    hide Mul;
  }

  lemma TimesRatio(start: real, k: real, local: real)
    requires local != 0.0
    ensures Mul(start, Div(Mul(k, local), local)) == Mul(k, start)
  {
    assert Div(Mul(k, local), local) == k;
  }

  /** Without them the growth of the share alone counts, on the value it started at. */
  lemma LocalPositionFollows(p: Position, v: View, w: View, k: real)
    requires PositionValue(p, v, true).Success? && QuotedTimes(p, v, w, k)
    requires p.included ==> Mul(p.quantity, PriceOf(v, p).value.price) != 0.0
    ensures PositionValue(BaselinedPosition(p, v), w, false) == Success(Mul(k, PositionValue(p, v, true).value))
  {
    if p.included {
      var price := PriceOf(v, p).value.price;
      var q := BaselinedPosition(p, v);
      assert StartingLocal(q) == Mul(p.quantity, price);
      TimesInside(k, p.quantity, price, 1.0);
      TimesRatio(q.startValue, k, Mul(p.quantity, price));
    }
    hide Mul, Div;
  }

  lemma {:induction false} PositionsFollow(ps: seq<Position>, v: View, w: View, k: real, includeFX: bool)
    requires PositionsTotal(ps, v, true).Success? && AllQuotedTimes(ps, v, w, k)
    requires if includeFX then AllSameCurrency(ps, v, w) else AllDivisible(ps, v)
    ensures PositionsTotal(BaselinedPositions(ps, v), w, includeFX) == Success(Mul(k, PositionsTotal(ps, v, true).value))
  {
    TotalPeels(ps, v, true);
    TotalPeels(BaselinedPositions(ps, v), w, includeFX);
    if ps == [] {
      MulDistributes(k, 0.0, 0.0);
      assert BaselinedPositions(ps, v) == [];
    } else {
      var n, qs := |ps| - 1, BaselinedPositions(ps, v);
      assert qs[..n] == BaselinedPositions(ps[..n], v) && qs[n] == BaselinedPosition(ps[n], v);
      FollowParts(ps, v, w, k, includeFX);
      hide *;
      PositionsFollow(ps[..n], v, w, k, includeFX);
      if includeFX { PositionFollows(ps[n], v, w, k); } else { LocalPositionFollows(ps[n], v, w, k); }
      MulDistributes(k, PositionsTotal(ps[..n], v, true).value, PositionValue(ps[n], v, true).value);
    }
  }

  lemma FollowParts(ps: seq<Position>, v: View, w: View, k: real, includeFX: bool)
    requires ps != [] && AllQuotedTimes(ps, v, w, k) && PositionValue(ps[|ps| - 1], v, true).Success?
    requires if includeFX then AllSameCurrency(ps, v, w) else AllDivisible(ps, v)
    ensures var n := |ps| - 1;
      && AllQuotedTimes(ps[..n], v, w, k) && QuotedTimes(ps[n], v, w, k)
      && (includeFX ==> AllSameCurrency(ps[..n], v, w) && SameCurrency(ps[n], v, w) && v.fx == w.fx)
      && (!includeFX ==> AllDivisible(ps[..n], v))
      && (!includeFX && ps[n].included ==> PriceOf(v, ps[n]).Success? && Mul(ps[n].quantity, PriceOf(v, ps[n]).value.price) != 0.0)
  {
    hide QuotedTimes, SameCurrency;
  }

  lemma {:induction false} NoCashNoTotal(cs: seq<Cash>, v: View, includeFX: bool)
    requires forall i :: 0 <= i < |cs| ==> !cs[i].included
    ensures CashTotal(cs, v, includeFX) == Success(0.0)
  {
    if cs != [] { NoCashNoTotal(cs[..|cs| - 1], v, includeFX); }
  }

  lemma ScoreAtTimes(k: real, total: real)
    requires total > 0.0
    ensures ScoreAt(Mul(k, total), total) == Score(100.0 * k, (k - 1.0) * 100.0)
  {
    assert Div(Mul(k, total), total) == k;
  }

  lemma StartsAtTotal(b: Basket, v: View)
    requires BaselineOf(b, v).Success? && CashFree(b)
    ensures var f := BaselineOf(b, v).value;
      && PositionsTotal(b.positions, v, true) == Success(f.startValue) && f.startValue > 0.0
      && f.positions == BaselinedPositions(b.positions, v) && f.cash == b.cash
  {
    NoCashNoTotal(b.cash, v, true);
    hide PositionsTotal, CashTotal, BaselinedPositions;
  }

  lemma ValueOfParts(b: Basket, v: View, includeFX: bool, total: real)
    requires b.startValue > 0.0 && PositionsTotal(b.positions, v, includeFX) == Success(total) && CashFree(b)
    ensures Value(b, v, includeFX) == Success(ScoreAt(total, b.startValue))
  {
    NoCashNoTotal(b.cash, v, includeFX);
    hide PositionsTotal, CashTotal, ScoreAt;
  }

  /** An entry without cash scores what its shares have grown by: at quotes k times those of
      its baseline it stands at 100 k and k - 1 in percent, with currency effects if
      currencies and rates are the same, and without them whatever has become of those. */
  lemma ScoreFollowsQuotes(b: Basket, v: View, w: View, k: real)
    requires BaselineOf(b, v).Success? && CashFree(b) && AllQuotedTimes(b.positions, v, w, k)
    ensures AllSameCurrency(b.positions, v, w) ==>
      Value(BaselineOf(b, v).value, w, true) == Success(Score(100.0 * k, (k - 1.0) * 100.0))
    ensures AllDivisible(b.positions, v) ==>
      Value(BaselineOf(b, v).value, w, false) == Success(Score(100.0 * k, (k - 1.0) * 100.0))
  {
    hide *;
    StartsAtTotal(b, v);
    var f := BaselineOf(b, v).value;
    ScoreAtTimes(k, f.startValue);
    SameCash(b, f);
    if AllSameCurrency(b.positions, v, w) {
      PositionsFollow(b.positions, v, w, k, true);
      ValueOfParts(f, w, true, Mul(k, f.startValue));
    }
    if AllDivisible(b.positions, v) {
      PositionsFollow(b.positions, v, w, k, false);
      ValueOfParts(f, w, false, Mul(k, f.startValue));
    }
  }

  lemma SameCash(b: Basket, f: Basket)
    requires CashFree(b) && f.cash == b.cash
    ensures CashFree(f)
  {
  }

  // ---- rates that move together ------------------------------------------------------------

  /** The currency is foreign and its rate k times as high. */
  ghost predicate RateTimes(currency: string, v: View, w: View, k: real) {
    currency != BASE && currency in v.fx && currency in w.fx && w.fx[currency] == Mul(k, v.fx[currency])
  }

  /** Everything scored is in foreign currencies whose rates are k times as high, at the
      same quotes. */
  ghost predicate AllForeign(b: Basket, v: View, w: View, k: real) {
    && w.prices == v.prices
    && (forall i :: 0 <= i < |b.cash| && b.cash[i].included ==> RateTimes(b.cash[i].currency, v, w, k))
    && forall i :: 0 <= i < |b.positions| && b.positions[i].included ==>
         var key := KeyOf(b.positions[i].instrument, b.positions[i].symbol);
         key in v.prices && RateTimes(v.prices[key].currency, v, w, k)
  }

  lemma {:induction false} PositionsFollowRates(ps: seq<Position>, v: View, w: View, k: real)
    requires w.prices == v.prices
    requires forall i :: 0 <= i < |ps| && ps[i].included ==>
      var key := KeyOf(ps[i].instrument, ps[i].symbol); key in v.prices && RateTimes(v.prices[key].currency, v, w, k)
    ensures PositionsTotal(ps, v, true).Success?
    ensures PositionsTotal(ps, w, true) == Success(Mul(k, PositionsTotal(ps, v, true).value))
  {
    TotalPeels(ps, v, true);
    TotalPeels(ps, w, true);
    if ps == [] {
      MulDistributes(k, 0.0, 0.0);
    } else {
      var n := |ps| - 1;
      PositionsFollowRates(ps[..n], v, w, k);
      PositionFollowsRate(ps[n], v, w, k);
      hide *;
      MulDistributes(k, PositionsTotal(ps[..n], v, true).value, PositionValue(ps[n], v, true).value);
    }
  }

  lemma PositionFollowsRate(p: Position, v: View, w: View, k: real)
    requires w.prices == v.prices
    requires p.included ==>
      var key := KeyOf(p.instrument, p.symbol); key in v.prices && RateTimes(v.prices[key].currency, v, w, k)
    ensures PositionValue(p, v, true).Success?
    ensures PositionValue(p, w, true) == Success(Mul(k, PositionValue(p, v, true).value))
  {
    MulDistributes(k, 0.0, 0.0);
    if p.included {
      var quote := v.prices[KeyOf(p.instrument, p.symbol)];
      TimesInside(k, Mul(p.quantity, quote.price), v.fx[quote.currency], 1.0);
    }
    hide Mul;
  }

  lemma CashFollowsRate(c: Cash, v: View, w: View, k: real)
    requires c.included ==> RateTimes(c.currency, v, w, k)
    ensures CashValue(c, v, true).Success?
    ensures CashValue(c, w, true) == Success(Mul(k, CashValue(c, v, true).value))
  {
    MulDistributes(k, 0.0, 0.0);
    if c.included { TimesInside(k, c.amount, v.fx[c.currency], 1.0); }
    hide Mul;
  }

  lemma {:induction false} AllCashFollowsRates(cs: seq<Cash>, v: View, w: View, k: real)
    requires forall i :: 0 <= i < |cs| && cs[i].included ==> RateTimes(cs[i].currency, v, w, k)
    ensures CashTotal(cs, v, true).Success?
    ensures CashTotal(cs, w, true) == Success(Mul(k, CashTotal(cs, v, true).value))
  {
    if cs == [] {
      MulDistributes(k, 0.0, 0.0);
    } else {
      var n := |cs| - 1;
      AllCashFollowsRates(cs[..n], v, w, k);
      CashFollowsRate(cs[n], v, w, k);
      MulDistributes(k, CashTotal(cs[..n], v, true).value, CashValue(cs[n], v, true).value);
      hide CashValue, RateTimes, Mul;
    }
  }

  /** With currency effects an entry wholly in foreign currencies, cash included, follows
      their rates: at k times the rates of its baseline it stands at 100 k. */
  lemma ScoreFollowsRates(b: Basket, v: View, w: View, k: real)
    requires BaselineOf(b, v).Success? && AllForeign(b, v, w, k)
    ensures Value(BaselineOf(b, v).value, w, true) == Success(Score(100.0 * k, (k - 1.0) * 100.0))
  {
    var f := BaselineOf(b, v).value;
    BaselineKeepsTotal(b.positions, w);
    PositionsFollowRates(b.positions, v, w, k);
    AllCashFollowsRates(b.cash, v, w, k);
    SameUnderQuotes(b.positions, v, w);
    MulDistributes(k, PositionsTotal(b.positions, v, true).value, CashTotal(b.cash, v, true).value);
    ScoreAtTimes(k, f.startValue);
    hide PositionsTotal, CashTotal, BaselinedPositions, ScoreAt, Mul, AllForeign;
  }

  /** With currency effects what a position started at does not matter. */
  lemma {:induction false} SameUnderQuotes(ps: seq<Position>, v: View, w: View)
    ensures PositionsTotal(BaselinedPositions(ps, v), w, true) == PositionsTotal(ps, w, true)
  {
    TotalPeels(ps, w, true);
    TotalPeels(BaselinedPositions(ps, v), w, true);
    if ps == [] {
      assert BaselinedPositions(ps, v) == [];
    } else {
      var n, qs := |ps| - 1, BaselinedPositions(ps, v);
      assert qs[..n] == BaselinedPositions(ps[..n], v) && qs[n] == BaselinedPosition(ps[n], v);
      SameUnderQuotes(ps[..n], v, w);
      assert PositionValue(qs[n], w, true) == PositionValue(ps[n], w, true);
      hide *;
    }
  }

  // ---- what the baseline is taken of -------------------------------------------------------

  /** A pass baselines an entry at what it froze: with the quotes at the start restated by
      the ratios of the actions after the freezing and up to the start, the starting value
      is the frozen basket's value at the quotes before restating. */
  lemma StartsAtFrozenWorth(k: Book, e: EntryId, w: World, v: View, u: View, total: real)
    requires Pending(k.entries, e) && e in k.baskets && e in w.frozenAt && e !in w.completeFails
    requires NormalizedEntry(k, e, w).Success? && v.fx == u.fx
    requires AllRestated(u, v, k.baskets[e].positions, NormalizedEntry(k, e, w).value.positions, w.history, w.frozenAt[e], w.startsAt)
    requires BasketTotal(k.baskets[e], v, true) == Success(total) && total > 0.0
    ensures var r := Attempt(k, e, NormalizedEntry(k, e, w).value, u, w);
      && e in r.entries && r.entries[e].status == EntryStatus.Active
      && e in r.baskets && r.baskets[e].startValue == total
  {
    var b := NormalizedEntry(k, e, w).value;
    SplitsKeepTotal(k.baskets[e], w.history, w.frozenAt[e], w.startsAt, v, u, true);
    assert BasketTotal(b, u, true) == Success(total);
    BaselineFromTotal(b, u, total);
    hide BasketTotal, AllRestated, AdjustBasket, BaselineOf;
  }

  /** Normalized to the start and adjusted from there, a scored position arrives where the
      actions from its freezing on take it. */
  lemma NormalizedThenAdjusted(k: Book, e: EntryId, w: World, v: View, now: int, i: nat)
    requires NormalizedEntry(k, e, w).Success? && InOrder(w.history)
    requires e in k.baskets && i < |k.baskets[e].positions| && k.baskets[e].positions[i].included
    requires e in w.frozenAt && w.frozenAt[e] <= w.startsAt <= now
    ensures var p, qs := k.baskets[e].positions[i], NormalizedEntry(k, e, w).value.positions;
      && i < |qs|
      && var q := BaselinedPosition(qs[i], v);
      && qs[i].instrument == p.instrument && q.included
      && Adjust(w.history, p.instrument, Holding(q.symbol, q.quantity), w.startsAt, now) ==
         Adjust(w.history, p.instrument, Holding(p.symbol, p.quantity), w.frozenAt[e], now)
  {
    var ps, qs := k.baskets[e].positions, NormalizedEntry(k, e, w).value.positions;
    AdjustAllMeans(ps, w.history, w.frozenAt[e], w.startsAt);
    assert AdjustOne(ps[i], w.history, w.frozenAt[e], w.startsAt) == Success(qs[i]);
    AdjustmentsCompose(w.history, ps[i].instrument, Holding(ps[i].symbol, ps[i].quantity), w.frozenAt[e], w.startsAt, now);
    hide Adjust, AdjustAll, InOrder;
  }

  // ---- inside the window -------------------------------------------------------------------

  /** Nobody has failed who had not before. */
  ghost predicate NoneFailed(k: Book, k0: Book) {
    forall e :: e in k.entries && k.entries[e].status == BaselineFailed ==>
      e in k0.entries && k0.entries[e].status == BaselineFailed
  }

  lemma {:induction false} VisitsInTimeFailNobody(k: Book, k0: Book, page: seq<EntryId>, baskets: seq<Basket>, v: View, w: World)
    requires |page| == |baskets| && NoneFailed(k, k0) && w.now <= w.startsAt + w.window
    ensures NoneFailed(VisitAll(k, page, baskets, v, w), k0)
  {
    if page != [] {
      var n := |page| - 1;
      VisitsInTimeFailNobody(k, k0, page[..n], baskets[..n], v, w);
      hide BaselineOf;
    }
  }

  /** Over every run of passes up to the end of the operational window no entry fails its
      baseline, however many cannot be priced. */
  lemma {:induction false} NobodyFailsInTime(k: Book, o: Obs, pages: seq<seq<EntryId>>, ws: seq<World>)
    requires |pages| == |ws| && forall i :: 0 <= i < |ws| ==> ws[i].now <= ws[i].startsAt + ws[i].window
    ensures NoneFailed(BookRun(k, o, pages, ws).0, k)
  {
    if ws != [] {
      var n := |ws| - 1;
      NobodyFailsInTime(k, o, pages[..n], ws[..n]);
      var (k1, o1) := BookRun(k, o, pages[..n], ws[..n]);
      hide NoneFailed, NormalizedEntry, Capture, VisitAll;
      if AllNormalized(k1, pages[n], ws[n]) {
        VisitsInTimeFailNobody(k1, k, pages[n], NormalizedPage(k1, pages[n], ws[n]), ObservedBy(k1, o1, pages[n], ws[n]).view, ws[n]);
      }
    }
  }

  // ---- one entry -----------------------------------------------------------------------

  /** Splits at the freezing, at the start and after it. */
  const SPLITS := [
    Action(5, 1, "", "SAP", Split(Some(3.0), Some(1.0))),
    Action(10, 2, "", "SAP", Split(Some(2.0), Some(1.0))),
    Action(11, 3, "", "SAP", Split(Some(5.0), Some(1.0)))]
  const ONE_SHARE := Book(map[1 := Entry(7, Admitted, "")], map[1 := SHARE])
  const AT_FIFTY := View(map[Ticker("SAP") := Quote(50.0, BASE)], map[])

  function StartAtTen(): World {
    World(10, 2, 10, 3, map[1 := 5], SPLITS, {}, Provider(map[], map[], map[]), true, {}, {})
  }

  /** One share frozen at 5 is two shares at the start at 10, the split of that instant
      applied and no other; at a price of 50 the entry starts at 100. */
  lemma SplitsUpToTheStart()
    ensures var b := NormalizedEntry(ONE_SHARE, 1, StartAtTen());
      && b.Success? && |b.value.positions| == 1 && b.value.positions[0].quantity == 2.0
      && BaselineOf(b.value, AT_FIFTY).Success? && BaselineOf(b.value, AT_FIFTY).value.startValue == 100.0
  {
    WindowOfSplits();
    OneSplitDoubles();
    var p := SAP.(original := 1.0, quantity := 2.0);
    hide Window, Walk, SPLITS;
    assert AdjustOne(SAP, SPLITS, 5, 10) == Success(p);
    assert [SAP][..0] == [] && AdjustAll([], SPLITS, 5, 10) == Success([]) && [] + [p] == [p];
    assert AdjustAll([SAP], SPLITS, 5, 10) == Success([p]);
    var b := Basket(100.0, [p], []);
    assert NormalizedEntry(ONE_SHARE, 1, StartAtTen()) == Success(b);
    OnePositionTotals(p, AT_FIFTY, 100.0);
    NoCashNoTotal([], AT_FIFTY, true);
    BaselineFromTotal(b, AT_FIFTY, 100.0);
  }

  lemma OnePositionTotals(p: Position, v: View, total: real)
    requires PositionValue(p, v, true) == Success(total)
    ensures PositionsTotal([p], v, true) == Success(total)
  {
    TotalPeels([p], v, true);
    TotalPeels([], v, true);
    assert [p][..0] == [];
    hide PositionsTotal, PositionValue;
  }

  lemma WindowOfSplits()
    ensures Window(SPLITS, 5, 10) == [SPLITS[1]]
  {
    assert SPLITS[..2][..1] == SPLITS[..1] && SPLITS[..1][..0] == [];
    assert Window(SPLITS[..1], 5, 10) == [];
    assert Window(SPLITS[..2], 5, 10) == [] + [SPLITS[1]];
  }

  lemma OneSplitDoubles()
    ensures Walk([SPLITS[1]], "", Holding("SAP", 1.0)) == Success(Holding("SAP", 2.0))
  {
    assert [SPLITS[1]][..0] == [];
    assert Walk([], "", Holding("SAP", 1.0)) == Success(Holding("SAP", 1.0));
  }
}
