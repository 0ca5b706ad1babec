/** Baseline passes in each other's steps: they take no lock, so listing, recording and
    visiting of several passes may come in any order. */
module RacingBaselines {
  import opened OrderedIds
  import opened Lifecycles
  import opened Money
  import opened Outcomes
  import opened Valuation
  import opened Observations
  import opened BasketAdjustments
  import opened Baseline
  import opened RacingCaptures

  /** A pass that has listed and normalized its page and fetched what was missing, or one
      that has recorded and still has entries to visit with the view it returned. */
  datatype Worker =
    | Fetched(u: Underway, page: seq<EntryId>, baskets: seq<Basket>, w: World)
    | Going(view: View, page: seq<EntryId>, baskets: seq<Basket>, w: World)

  datatype Floor = Floor(book: Book, stored: Obs, workers: map<nat, Worker>)

  datatype Move =
    | Lists(worker: nat, page: seq<EntryId>, w: World)
    | Records(worker: nat)
    | Visits(worker: nat)

  /** The capture has something to store or a set to seal. */
  predicate HasNews(u: Underway) {
    !u.seen.sealed &&
    (NewPrices(u) != map[] || NewRates(u) != map[] || (u.last && BatchCaptured(u.seen, u.batch, u.provider)))
  }

  /** The write, if one is made and goes through; a failed one ends the pass. */
  function RecordNews(f: Floor, n: nat, k: Worker): Floor
    requires k.Fetched?
  {
    if k.w.recordOk || !HasNews(k.u) then
      f.(stored := Write(f.stored, k.u), workers := f.workers[n := Going(Returned(k.u), k.page, k.baskets, k.w)])
    else
      f.(workers := f.workers - {n})
  }

  function VisitNext(f: Floor, n: nat, k: Worker): Floor
    requires k.Going?
  {
    if k.page == [] || k.baskets == [] then f.(workers := f.workers - {n})
    else
      f.(book := Attempt(f.book, k.page[0], k.baskets[0], k.view, k.w),
         workers := f.workers[n := k.(page := k.page[1..], baskets := k.baskets[1..])])
  }

  ghost function Step(f: Floor, m: Move): Floor {
    match m
    case Lists(n, page, w) =>
      if !AllNormalized(f.book, page, w) then f
      else
        var baskets := NormalizedPage(f.book, page, w);
        f.(workers := f.workers[n := Fetched(Underway(f.stored, baskets, |page| < w.batch, w.provider), page, baskets, w)])
    case Records(n) =>
      if n in f.workers && f.workers[n].Fetched? then RecordNews(f, n, f.workers[n]) else f
    case Visits(n) =>
      if n in f.workers && f.workers[n].Going? then VisitNext(f, n, f.workers[n]) else f
  }

  ghost function Run(f: Floor, ms: seq<Move>): Floor {
    if ms == [] then f else Step(Run(f, ms[..|ms| - 1]), ms[|ms| - 1])
  }

  // ---- every interleaving ---------------------------------------------------------------

  ghost predicate AllLeftOrDecided(k: Book, k0: Book) {
    k.entries.Keys == k0.entries.Keys && forall e :: e in k0.entries ==> LeftOrDecided(k, k0, e)
  }

  lemma AttemptDecidesOnce(k: Book, k0: Book, e: EntryId, b: Basket, v: View, w: World)
    requires AllLeftOrDecided(k, k0)
    ensures AllLeftOrDecided(Attempt(k, e, b, v, w), k0)
  {
    hide BaselineOf, WINDOW_ELAPSED;
    forall d | d in k0.entries ensures LeftOrDecided(Attempt(k, e, b, v, w), k0, d) {
      assert LeftOrDecided(k, k0, d);
    }
  }

  /** However passes interleave, each entry is decided at most once: it is as it was,
      activated, or failed with the reason, and none is dropped. */
  lemma {:induction false} RacesDecideOnce(f: Floor, ms: seq<Move>)
    ensures AllLeftOrDecided(Run(f, ms).book, f.book)
  {
    if ms != [] {
      var before, m := Run(f, ms[..|ms| - 1]), ms[|ms| - 1];
      RacesDecideOnce(f, ms[..|ms| - 1]);
      hide Run, AllLeftOrDecided, Attempt, NormalizedPage, AllNormalized, Write, HasNews;
      if m.Visits? && m.worker in before.workers && before.workers[m.worker].Going? {
        var k := before.workers[m.worker];
        if k.page != [] && k.baskets != [] {
          AttemptDecidesOnce(before.book, f.book, k.page[0], k.baskets[0], k.view, k.w);
        }
      }
      LastMove(f, ms);
    }
  }

  lemma LastMove(f: Floor, ms: seq<Move>)
    requires ms != []
    ensures Run(f, ms) == Step(Run(f, ms[..|ms| - 1]), ms[|ms| - 1])
  {
    hide Step;
  }

  // ---- undisturbed ones ------------------------------------------------------------------

  /** What each pass holds is part of the set as it is now. */
  ghost predicate HoldsStored(k: Worker, stored: Obs) {
    match k
    case Fetched(u, _, _, _) => Later(u.seen, stored)
    case Going(view, _, _, _) => Grows(view, stored.view)
  }

  ghost predicate AllHoldStored(f: Floor) {
    forall n :: n in f.workers ==> HoldsStored(f.workers[n], f.stored)
  }

  /** No other capture stored something else while this one was underway. */
  ghost predicate Orderly(f: Floor, m: Move) {
    m.Records? && m.worker in f.workers && f.workers[m.worker].Fetched? ==> NotOvertaken(f.stored, f.workers[m.worker].u)
  }

  lemma StoringKeepsHolds(k: Worker, stored: Obs, later: Obs)
    requires HoldsStored(k, stored) && Later(stored, later)
    ensures HoldsStored(k, later)
  {
  }

  lemma ListKeeps(f: Floor, k0: Book, m: Move)
    requires m.Lists? && AllHoldStored(f) && Common(f.book, k0, f.stored.view)
    ensures AllHoldStored(Step(f, m)) && Common(Step(f, m).book, k0, Step(f, m).stored.view)
  {
    hide Common, AllNormalized, NormalizedPage;
  }

  lemma VisitKeeps(f: Floor, k0: Book, n: nat)
    requires n in f.workers && f.workers[n].Going? && AllHoldStored(f) && Common(f.book, k0, f.stored.view)
    ensures var r := VisitNext(f, n, f.workers[n]); AllHoldStored(r) && Common(r.book, k0, r.stored.view)
  {
    var k := f.workers[n];
    assert HoldsStored(k, f.stored);
    if k.page != [] && k.baskets != [] {
      VisitKeepsCommon(f.book, k0, k.page[0], k.baskets[0], k.view, f.stored.view, k.w);
    }
    hide Common, Attempt, Grows, Later;
  }

  lemma RecordKeeps(f: Floor, k0: Book, n: nat)
    requires n in f.workers && f.workers[n].Fetched? && AllHoldStored(f) && Common(f.book, k0, f.stored.view)
    requires NotOvertaken(f.stored, f.workers[n].u)
    ensures var r := RecordNews(f, n, f.workers[n]); AllHoldStored(r) && Common(r.book, k0, r.stored.view)
  {
    var k := f.workers[n];
    assert HoldsStored(k, f.stored);
    var after := Write(f.stored, k.u);
    WriteOnlyAdds(f.stored, k.u);
    ReturnsStoredExactly(f.stored, k.u);
    CommonGrows(f.book, k0, f.stored.view, after.view);
    forall x | x in f.workers ensures HoldsStored(f.workers[x], after) {
      StoringKeepsHolds(f.workers[x], f.stored, after);
    }
    hide Common, Write, Returned, Grows, Later, HasNews, NotOvertaken;
  }

  lemma MoveKeeps(f: Floor, k0: Book, m: Move)
    requires AllHoldStored(f) && Common(f.book, k0, f.stored.view) && Orderly(f, m)
    ensures AllHoldStored(Step(f, m)) && Common(Step(f, m).book, k0, Step(f, m).stored.view)
  {
    hide AllHoldStored, Common, AllNormalized, NormalizedPage, RecordNews, VisitNext, NotOvertaken;
    match m
    case Lists(_, _, _) => ListKeeps(f, k0, m);
    case Records(n) =>
      if n in f.workers && f.workers[n].Fetched? { RecordKeeps(f, k0, n); }
    case Visits(n) =>
      if n in f.workers && f.workers[n].Going? { VisitKeeps(f, k0, n); }
  }

  /** Over every interleaving of baseline passes in which no capture is overtaken, the
      baseline is common: each active entry stands at exactly 100 on the set as it is. */
  lemma {:induction false} OrderlyRacesAreCommon(f: Floor, ms: seq<Move>)
    requires f.workers == map[] && ActiveIds(f.book.entries) == {}
    requires forall i :: 0 <= i < |ms| ==> Orderly(Run(f, ms[..i]), ms[i])
    ensures AllHoldStored(Run(f, ms)) && Common(Run(f, ms).book, f.book, Run(f, ms).stored.view)
  {
    if ms == [] {
      NobodyActive(f.book, f.stored.view);
      hide Common;
    } else {
      var n := |ms| - 1;
      forall i | 0 <= i < n ensures Orderly(Run(f, ms[..n][..i]), ms[..n][i]) {
        assert ms[..n][..i] == ms[..i];
      }
      hide *;
      OrderlyRacesAreCommon(f, ms[..n]);
      LastMove(f, ms);
      MoveKeeps(Run(f, ms[..n]), f.book, ms[n]);
    }
  }

  // ---- a race that starts one share at two prices ------------------------------------------

  /** The share as a pass normalizes it, a provider and the set with one price for it, and
      the share baselined at that price. */
  const HELD := Basket(100.0, [SAP.(original := 1.0)], [])

  function At(price: real): Provider {
    Provider(map[], map[Ticker("SAP") := Quote(price, BASE)], map[])
  }

  function PricedAt(price: real): View {
    View(map[Ticker("SAP") := Quote(price, BASE)], map[])
  }

  function StartedAt(price: real): Basket {
    Basket(price, [SAP.(original := 0.0, startPrice := price, startValue := price)], [])
  }

  const TWO_SHARES := Book(map[1 := Entry(7, Admitted, ""), 2 := Entry(8, Admitted, "")], map[1 := SHARE, 2 := SHARE])

  function PassAt(price: real): World {
    World(0, 1, 0, 10, map[1 := 0, 2 := 0], [], {}, At(price), true, {}, {})
  }

  const BEFORE := Floor(TWO_SHARES, NOTHING_YET, map[])
  const RACE := [
    Lists(1, [1], PassAt(100.0)), Lists(2, [2], PassAt(120.0)), Records(1), Records(2), Visits(1), Visits(2)]

  function Underway1(price: real): Underway {
    Underway(NOTHING_YET, [HELD], false, At(price))
  }

  /** Both passes have read the empty set and fetched. */
  const FETCHED := Floor(TWO_SHARES, NOTHING_YET, map[
    1 := Fetched(Underway1(100.0), [1], [HELD], PassAt(100.0)),
    2 := Fetched(Underway1(120.0), [2], [HELD], PassAt(120.0))])

  /** Both have recorded; the first price is stored. */
  const RECORDED := Floor(TWO_SHARES, Obs(PricedAt(100.0), false), map[
    1 := Going(PricedAt(100.0), [1], [HELD], PassAt(100.0)),
    2 := Going(PricedAt(120.0), [2], [HELD], PassAt(120.0))])

  /** Two passes read the empty set, are quoted the same share at 100 and at 120, and record
      and visit one after the other. Both entries become active; the second stands at 83.33
      on the stored price and not at 100. */
  lemma RacingPassesMisprice()
    ensures ActiveIds(BEFORE.book.entries) == {}
    ensures var f := Run(BEFORE, RACE);
      && f.stored == Obs(PricedAt(100.0), false)
      && (forall e :: e in {1, 2} ==> e in f.book.entries && f.book.entries[e].status == EntryStatus.Active)
      && 1 in f.book.baskets && Value(f.book.baskets[1], f.stored.view, true) == Success(PAR)
      && 2 in f.book.baskets && Value(f.book.baskets[2], f.stored.view, true) == Success(ScoreAt(100.0, 120.0))
      && !Common(f.book, BEFORE.book, f.stored.view)
  {
    hide *;
    NobodyStarted();
    RaceRuns();
    RacedScores();
    OffParIsNotCommon(RACED, BEFORE.book, PricedAt(100.0), 2);
  }

  lemma RaceRuns()
    ensures Run(BEFORE, RACE).book == RACED && Run(BEFORE, RACE).stored == Obs(PricedAt(100.0), false)
    ensures Obs(PricedAt(100.0), false).view == PricedAt(100.0)
  {
    assert |RACE| == 6;
    SixMoves(BEFORE, RACE);
    BothFetch();
    BothRecord();
    BothVisit();
    assert RECORDED.stored == Obs(PricedAt(100.0), false);
    hide Run, Step, PricedAt, RACED, RACE, RECORDED, FETCHED, BEFORE;
  }

  lemma RacedScores()
    ensures forall e :: e in {1, 2} ==> e in RACED.entries && RACED.entries[e].status == EntryStatus.Active
    ensures 1 in RACED.baskets && Value(RACED.baskets[1], PricedAt(100.0), true) == Success(PAR)
    ensures 2 in RACED.baskets && Value(RACED.baskets[2], PricedAt(100.0), true) == Success(ScoreAt(100.0, 120.0))
    ensures ScoreAt(100.0, 120.0) != PAR
  {
    hide *;
    RacedHolds();
    ScoresAt(100.0);
    ScoresAt(120.0);
  }

  lemma RacedHolds()
    ensures forall e :: e in {1, 2} ==> e in RACED.entries && RACED.entries[e].status == EntryStatus.Active
    ensures RACED.baskets.Keys == {1, 2} && RACED.baskets[1] == StartedAt(100.0) && RACED.baskets[2] == StartedAt(120.0)
  {
    hide StartedAt;
  }

  lemma OffParIsNotCommon(k: Book, k0: Book, v: View, e: EntryId)
    requires e in k.entries && k.entries[e].status == EntryStatus.Active
    requires e in k.baskets && Value(k.baskets[e], v, true) != Success(PAR)
    ensures !Common(k, k0, v)
  {
    hide Value, LeftOrDecided;
  }

  lemma NobodyStarted()
    ensures ActiveIds(BEFORE.book.entries) == {}
  {
  }

  lemma SixMoves(f: Floor, ms: seq<Move>)
    requires |ms| == 6
    ensures Run(f, ms) == Step(Step(Step(Step(Step(Step(f, ms[0]), ms[1]), ms[2]), ms[3]), ms[4]), ms[5])
  {
    hide Step;
    assert ms[..6] == ms && ms[..0] == [];
    FirstMoves(f, ms, 6);
    FirstMoves(f, ms, 5);
    FirstMoves(f, ms, 4);
    FirstMoves(f, ms, 3);
    FirstMoves(f, ms, 2);
    FirstMoves(f, ms, 1);
    assert Run(f, ms[..0]) == f;
  }

  lemma FirstMoves(f: Floor, ms: seq<Move>, n: nat)
    requires 0 < n <= |ms|
    ensures Run(f, ms[..n]) == Step(Run(f, ms[..n - 1]), ms[n - 1])
  {
    assert ms[..n][..n - 1] == ms[..n - 1];
    LastMove(f, ms[..n]);
    hide Step, Run;
  }

  lemma NormalizesTo(e: EntryId, price: real)
    requires e == 1 || e == 2
    ensures AllNormalized(TWO_SHARES, [e], PassAt(price)) && NormalizedPage(TWO_SHARES, [e], PassAt(price)) == [HELD]
  {
    assert [SAP][..0] == [];
    assert Adjust([], "", Holding("SAP", 1.0), 0, 0) == Success(Holding("SAP", 1.0));
    assert AdjustOne(SAP, [], 0, 0) == Success(SAP.(original := 1.0));
    assert AdjustAll([], [], 0, 0) == Success([]) && [] + [SAP.(original := 1.0)] == [SAP.(original := 1.0)];
    assert AdjustAll([SAP], [], 0, 0) == Success([SAP.(original := 1.0)]);
    assert NormalizedEntry(TWO_SHARES, e, PassAt(price)) == Success(HELD);
  }

  lemma BothFetch()
    ensures Step(Step(BEFORE, RACE[0]), RACE[1]) == FETCHED
  {
    NormalizesTo(1, 100.0);
    NormalizesTo(2, 120.0);
    hide AllNormalized, NormalizedPage, At, HELD, SHARE, TWO_SHARES;
  }

  lemma HeldNeedsItsPrice()
    ensures Symbols([HELD]) == {Ticker("SAP")} && Pairs([HELD]) == {}
  {
    assert HELD.positions[0] in HELD.positions && [HELD][0] == HELD;
  }

  lemma HeldQuotedAt(price: real)
    ensures NewPrices(Underway1(price)) == PricedAt(price).prices && NewRates(Underway1(price)) == map[]
    ensures HasNews(Underway1(price)) && Returned(Underway1(price)) == PricedAt(price)
  {
    HeldNeedsItsPrice();
    var fetched := FetchedPrices(NOTHING_YET.view, {Ticker("SAP")}, At(price));
    assert fetched == map[Ticker("SAP") := Quote(price, BASE)] && Ticker("SAP") in fetched;
    assert WantedPairs({}, fetched) == {};
    assert FetchedRates(NOTHING_YET.view, {}, At(price)) == map[];
  }

  /** One has recorded. */
  const HALF_RECORDED := Floor(TWO_SHARES, Obs(PricedAt(100.0), false), map[
    1 := Going(PricedAt(100.0), [1], [HELD], PassAt(100.0)),
    2 := Fetched(Underway1(120.0), [2], [HELD], PassAt(120.0))])

  lemma FirstRecords()
    ensures Step(FETCHED, RACE[2]) == HALF_RECORDED
  {
    HeldQuotedAt(100.0);
    FirstWins();
    hide NewPrices, NewRates, Returned, Write, HasNews, At, HELD, TWO_SHARES, PricedAt;
  }

  lemma SecondRecords()
    ensures Step(HALF_RECORDED, RACE[3]) == RECORDED
  {
    HeldQuotedAt(120.0);
    FirstWins();
    hide NewPrices, NewRates, Returned, Write, HasNews, At, HELD, TWO_SHARES, PricedAt;
  }

  lemma BothRecord()
    ensures Step(Step(FETCHED, RACE[2]), RACE[3]) == RECORDED
  {
    assert |RACE| == 6;
    FirstRecords();
    SecondRecords();
    hide Step, FETCHED, HALF_RECORDED, RECORDED, RACE;
  }

  lemma FirstWins()
    ensures Write(NOTHING_YET, Underway1(100.0)) == Obs(PricedAt(100.0), false)
    ensures Write(Obs(PricedAt(100.0), false), Underway1(120.0)) == Obs(PricedAt(100.0), false)
  {
    HeldQuotedAt(100.0);
    HeldQuotedAt(120.0);
    hide NewPrices, NewRates, BatchCaptured, At, HELD;
  }

  lemma BaselinesAt(price: real)
    requires price > 0.0
    ensures BaselineOf(HELD, PricedAt(price)) == Success(StartedAt(price))
  {
    var v, p := PricedAt(price), HELD.positions[0];
    assert [p][..0] == [] && HELD.positions == [p];
    assert PositionsTotal([], v, true) == Success(0.0) && CashTotal([], v, true) == Success(0.0);
    assert Mul(1.0, price) == price;
    assert PositionValue(p, v, true) == Success(price);
    assert PositionsTotal([p], v, true) == Success(price);
    assert BasketTotal(HELD, v, true) == Success(price);
    assert BaselinedPosition(p, v) == SAP.(original := 0.0, startPrice := price, startValue := price);
    assert BaselinedPositions([p], v) == [BaselinedPosition(p, v)];
  }

  /** What the race leaves. */
  const RACED := Book(
    map[1 := Entry(7, EntryStatus.Active, ""), 2 := Entry(8, EntryStatus.Active, "")],
    map[1 := StartedAt(100.0), 2 := StartedAt(120.0)])

  lemma AttemptActivates(k: Book, e: EntryId, b: Basket, v: View, w: World)
    requires Pending(k.entries, e) && BaselineOf(b, v).Success? && e !in w.completeFails
    ensures Attempt(k, e, b, v, w) ==
      Book(PutEntry(k.entries, e, k.entries[e].(status := EntryStatus.Active)), PutBasket(k.baskets, e, BaselineOf(b, v).value))
  {
    hide BaselineOf;
  }

  lemma BothAttempt()
    ensures var k := Attempt(TWO_SHARES, 1, HELD, PricedAt(100.0), PassAt(100.0));
      Attempt(k, 2, HELD, PricedAt(120.0), PassAt(120.0)) == RACED
  {
    BaselinesAt(100.0);
    BaselinesAt(120.0);
    hide BaselineOf, StartedAt, PricedAt, HELD, SHARE, At, Attempt;
    var k := Attempt(TWO_SHARES, 1, HELD, PricedAt(100.0), PassAt(100.0));
    AttemptActivates(TWO_SHARES, 1, HELD, PricedAt(100.0), PassAt(100.0));
    AttemptActivates(k, 2, HELD, PricedAt(120.0), PassAt(120.0));
  }

  lemma BothVisit()
    ensures var f := Step(Step(RECORDED, RACE[4]), RACE[5]); f.stored == RECORDED.stored && f.book == RACED
  {
    BothAttempt();
    hide Attempt, PricedAt, PassAt, HELD, TWO_SHARES, RACED;
  }

  lemma OneScore(b: Basket, v: View, total: real)
    requires b.startValue > 0.0 && b.cash == [] && |b.positions| == 1
    requires PositionValue(b.positions[0], v, true) == Success(total)
    ensures Value(b, v, true) == Success(ScoreAt(total, b.startValue))
  {
    hide PositionValue, ScoreAt;
    assert b.positions[..0] == [];
    assert PositionsTotal([], v, true) == Success(0.0) && CashTotal([], v, true) == Success(0.0);
    assert PositionsTotal(b.positions, v, true) == Success(total);
  }

  lemma ScoresAt(price: real)
    requires price == 100.0 || price == 120.0
    ensures Value(StartedAt(price), PricedAt(100.0), true) == Success(ScoreAt(100.0, price))
    ensures ScoreAt(100.0, price) == PAR <==> price == 100.0
  {
    SharePriced(StartedAt(price).positions[0]);
    hide ScoreAt, Value, PositionValue, PricedAt;
    OneScore(StartedAt(price), PricedAt(100.0), 100.0);
    ParAtTotal(100.0, price);
  }

  lemma SharePriced(p: Position)
    requires p.included && p.instrument == "" && p.symbol == "SAP" && p.quantity == 1.0
    ensures PositionValue(p, PricedAt(100.0), true) == Success(100.0)
  {
  }
}
