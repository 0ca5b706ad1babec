/** The common start-time baseline: every entry indexed to 100 on one shared set of
    observations, in whatever batches and passes it takes. */
module Baseline {
  import opened Money
  import opened OrderedIds
  import opened RankOrder
  import opened Lifecycles
  import opened Outcomes
  import opened Valuation
  import opened Observations
  import opened BasketAdjustments

  // ---- one entry -------------------------------------------------------------------

  /** The position with its official start price and value; the pre-adjustment quantity
      is not stored. */
  function BaselinedPosition(p: Position, v: View): Position {
    if !p.included || PriceOf(v, p).Failure? then p
    else
      var quote := PriceOf(v, p).value;
      match ToBase(v, Mul(p.quantity, quote.price), quote.currency)
      case Failure(_) => p
      case Success(base) => p.(original := 0.0, startPrice := quote.price, startValue := base)
  }

  function BaselinedPositions(ps: seq<Position>, v: View): seq<Position> {
    seq(|ps|, i requires 0 <= i < |ps| => BaselinedPosition(ps[i], v))
  }

  /** All or nothing: any unpriceable component, or a total that is not positive, leaves
      the entry without a baseline. */
  function BaselineOf(b: Basket, v: View): Result<Basket> {
    var total :- BasketTotal(b, v, true);
    if total <= 0.0 then Failure(ZeroBaseline)
    else Success(Basket(total, BaselinedPositions(b.positions, v), b.cash))
  }

  lemma PricedPosition(p: Position, v: View)
    requires PositionValue(p, v, true).Success?
    ensures p.included ==> PriceOf(v, p).Success?
    ensures BaselinedPosition(p, v) ==
      if p.included
      then p.(original := 0.0, startPrice := PriceOf(v, p).value.price, startValue := PositionValue(p, v, true).value)
      else p
  {
  }

  lemma BaselinedSnoc(ps: seq<Position>, v: View, i: nat)
    requires i < |ps|
    ensures BaselinedPositions(ps[..i + 1], v) == BaselinedPositions(ps[..i], v) + [BaselinedPosition(ps[i], v)]
  {
    hide BaselinedPosition;
  }

  method BaselineEntry(b: Basket, v: View) returns (r: Result<Basket>)
    ensures r == BaselineOf(b, v)
  {
    hide PositionValue, CashValue, PriceOf, BaselinedPosition, BaselinedPositions;
    NoneBaselined(v);
    var total := 0.0;
    var out: seq<Position> := [];
    var i := 0;
    while i < |b.positions|
      invariant 0 <= i <= |b.positions|
      invariant PositionsTotal(b.positions[..i], v, true) == Success(total)
      invariant out == BaselinedPositions(b.positions[..i], v)
    {
      var p := b.positions[i];
      assert b.positions[..i + 1][..i] == b.positions[..i];
      var value := PositionValue(p, v, true);
      if value.Failure? {
        PositionFailureStops(b.positions, v, true, i);
        return value.PropagateFailure();
      }
      total := total + value.value;
      PricedPosition(p, v);
      BaselinedSnoc(b.positions, v, i);
      if p.included {
        p := p.(original := 0.0, startPrice := PriceOf(v, p).value.price, startValue := value.value);
      }
      out := out + [p];
      i := i + 1;
    }
    assert b.positions[..i] == b.positions;
    ghost var positions := total;
    i := 0;
    while i < |b.cash|
      invariant 0 <= i <= |b.cash|
      invariant CashTotal(b.cash[..i], v, true) == Success(total - positions)
    {
      assert b.cash[..i + 1][..i] == b.cash[..i];
      var value := CashValue(b.cash[i], v, true);
      if value.Failure? {
        CashFailureStops(b.cash, v, true, i);
        return value.PropagateFailure();
      }
      total := total + value.value;
      i := i + 1;
    }
    assert b.cash[..i] == b.cash;
    if total <= 0.0 {
      return Failure(ZeroBaseline);
    }
    r := Success(Basket(total, out, b.cash));
  }

  lemma NoneBaselined(v: View)
    ensures BaselinedPositions([], v) == []
  {
  }

  // ---- its index is 100 ---------------------------------------------------------------

  const PAR := Score(100.0, 0.0)

  lemma {:induction false} BaselineKeepsTotal(ps: seq<Position>, v: View)
    ensures PositionsTotal(BaselinedPositions(ps, v), v, true) == PositionsTotal(ps, v, true)
  {
    if ps != [] {
      var n, qs := |ps| - 1, BaselinedPositions(ps, v);
      assert qs[..n] == BaselinedPositions(ps[..n], v);
      BaselineKeepsTotal(ps[..n], v);
      assert PositionValue(qs[n], v, true) == PositionValue(ps[n], v, true);
    }
  }

  lemma ParAtTotal(total: real, start: real)
    requires start > 0.0
    ensures ScoreAt(total, start) == PAR <==> total == start
  {
    assert total == Div(total, start) * start;
  }

  /** Scored again from the observations it was baselined on, an entry stands at exactly
      100 and 0 percent. */
  lemma BaselineIsPar(b: Basket, v: View)
    requires BaselineOf(b, v).Success?
    ensures Value(BaselineOf(b, v).value, v, true) == Success(PAR)
  {
    BaselineKeepsTotal(b.positions, v);
    var total := BasketTotal(b, v, true).value;
    ParAtTotal(total, total);
  }

  /** No scored position is worth zero at the captured price: each has a local price
      factor. */
  ghost predicate AllDivisible(ps: seq<Position>, v: View) {
    forall i :: 0 <= i < |ps| && ps[i].included && PriceOf(v, ps[i]).Success? ==>
      Mul(ps[i].quantity, PriceOf(v, ps[i]).value.price) != 0.0
  }

  lemma SelfRatio(x: real)
    requires x != 0.0
    ensures Div(x, x) == 1.0
  {
  }

  lemma LocalFactorIsOne(p: Position, v: View)
    requires PositionValue(p, v, true).Success?
    ensures var q := BaselinedPosition(p, v);
      if p.included && Mul(p.quantity, PriceOf(v, p).value.price) == 0.0
      then PositionValue(q, v, false) == Failure(DivisionByZero)
      else PositionValue(q, v, false) == PositionValue(p, v, true)
  {
    var q := BaselinedPosition(p, v);
    if p.included {
      var local := Mul(p.quantity, PriceOf(v, p).value.price);
      assert StartingLocal(q) == local;
      if local != 0.0 {
        SelfRatio(local);
        assert Mul(q.startValue, 1.0) == q.startValue;
      }
    }
  }

  lemma {:induction false} LocalFactorsAreOne(ps: seq<Position>, v: View)
    requires PositionsTotal(ps, v, true).Success?
    ensures if AllDivisible(ps, v)
      then PositionsTotal(BaselinedPositions(ps, v), v, false) == PositionsTotal(ps, v, true)
      else PositionsTotal(BaselinedPositions(ps, v), v, false).Failure?
  {
    if ps != [] {
      var n, qs := |ps| - 1, BaselinedPositions(ps, v);
      assert qs[..n] == BaselinedPositions(ps[..n], v) && qs[n] == BaselinedPosition(ps[n], v);
      LocalFactorIsOne(ps[n], v);
      DivisibleOneMore(ps, v);
      hide AllDivisible, PositionValue, BaselinedPosition, BaselinedPositions;
      LocalFactorsAreOne(ps[..n], v);
    }
  }

  lemma DivisibleOneMore(ps: seq<Position>, v: View)
    requires ps != [] && PositionValue(ps[|ps| - 1], v, true).Success?
    ensures var n := |ps| - 1;
      AllDivisible(ps, v) <==>
        && AllDivisible(ps[..n], v)
        && !(ps[n].included && PriceOf(v, ps[n]).Success? && Mul(ps[n].quantity, PriceOf(v, ps[n]).value.price) == 0.0)
  {
    hide Mul;
  }

  lemma {:induction false} FrozenCashSucceeds(cs: seq<Cash>, v: View)
    ensures CashTotal(cs, v, false).Success?
  {
    if cs != [] { FrozenCashSucceeds(cs[..|cs| - 1], v); }
  }

  /** With currency effects excluded from scoring, a fresh baseline is at par exactly
      when no scored position starts at zero and the cash was worth at the baseline's
      rates what it was worth when the user joined. */
  lemma ParWithoutFXExactly(b: Basket, v: View)
    requires BaselineOf(b, v).Success?
    ensures Value(BaselineOf(b, v).value, v, false) == Success(PAR) <==>
      AllDivisible(b.positions, v) && CashTotal(b.cash, v, false) == CashTotal(b.cash, v, true)
  {
    LocalFactorsAreOne(b.positions, v);
    FrozenCashSucceeds(b.cash, v);
    var start := BasketTotal(b, v, true).value;
    ParAtTotal(PositionsTotal(b.positions, v, true).value + CashTotal(b.cash, v, false).value, start);
  }

  /** A hundred euros worth 90 when the user joined and 110 at the baseline's rate, beside
      one share. */
  const EUROS := Cash("EUR", 100.0, 90.0, true)
  const MIXED := Basket(0.0, [SAP], [EUROS])
  const START := View(map[Ticker("SAP") := Quote(100.0, BASE)], map["EUR" := 1.1])

  /** The fresh baseline of 210 scores below 100 at once: the share is at 100, but the
      euros count at the value they had on joining. */
  lemma JoinTimeCashIsOffPar()
    ensures BaselineOf(MIXED, START).Success? && BaselineOf(MIXED, START).value.startValue == 210.0
    ensures AllDivisible(MIXED.positions, START)
    ensures CashTotal(MIXED.cash, START, false) == Success(90.0) && CashTotal(MIXED.cash, START, true) == Success(110.0)
    ensures Value(BaselineOf(MIXED, START).value, START, false) != Success(PAR)
  {
    hide Value, BaselineOf;
    assert [SAP][..0] == [] && [EUROS][..0] == [];
    assert PositionsTotal([], START, true) == Success(0.0) && PositionValue(SAP, START, true) == Success(100.0);
    assert PositionsTotal([SAP], START, true) == Success(100.0);
    assert CashTotal([], START, true) == Success(0.0) && CashTotal([], START, false) == Success(0.0);
    assert CashTotal([EUROS], START, true) == Success(110.0) && CashTotal([EUROS], START, false) == Success(90.0);
    BaselineFromTotal(MIXED, START, 210.0);
    ParWithoutFXExactly(MIXED, START);
  }

  lemma BaselineFromTotal(b: Basket, v: View, total: real)
    requires BasketTotal(b, v, true) == Success(total) && total > 0.0
    ensures BaselineOf(b, v).Success? && BaselineOf(b, v).value.startValue == total
  {
  }

  lemma BaselinesAreRebased(b: Basket, v: View)
    requires BaselineOf(b, v).Success?
    ensures Rebased(BaselineOf(b, v).value.positions, false)
  {
    hide CashTotal, PositionsTotal, PositionValue;
    var qs := BaselineOf(b, v).value.positions;
    PricedIfTotalled(b.positions, v);
    forall i | 0 <= i < |qs| && qs[i].included ensures qs[i].original == 0.0 {
      BaselinedIsRebased(b.positions[i], v);
    }
  }

  lemma BaselinedIsRebased(p: Position, v: View)
    requires PositionValue(p, v, true).Success?
    ensures BaselinedPosition(p, v).included ==> p.included && BaselinedPosition(p, v).original == 0.0
  {
  }

  lemma {:induction false} PricedIfTotalled(ps: seq<Position>, v: View)
    ensures PositionsTotal(ps, v, true).Success? ==> forall i :: 0 <= i < |ps| ==> PositionValue(ps[i], v, true).Success?
  {
    if ps != [] { PricedIfTotalled(ps[..|ps| - 1], v); }
  }

  /** And it keeps its score through later splits and renames whose quotes are restated: at
      par with currency effects, and without them wherever the fresh baseline stood. */
  lemma ParThroughSplits(b: Basket, v: View, history: seq<Action>, from: int, through: int, w: View)
    requires BaselineOf(b, v).Success?
    requires var f := BaselineOf(b, v).value;
      && AdjustBasket(f, history, from, through).Success? && v.fx == w.fx
      && AllRestated(w, v, f.positions, AdjustBasket(f, history, from, through).value.positions, history, from, through)
    ensures Value(AdjustBasket(BaselineOf(b, v).value, history, from, through).value, w, true) == Success(PAR)
    ensures Value(AdjustBasket(BaselineOf(b, v).value, history, from, through).value, w, false) == Success(PAR) <==>
      AllDivisible(b.positions, v) && CashTotal(b.cash, v, false) == CashTotal(b.cash, v, true)
  {
    BaselineIsPar(b, v);
    ParWithoutFXExactly(b, v);
    BaselinesAreRebased(b, v);
    hide Value, AdjustBasket, BaselineOf, AllRestated, AllDivisible, CashTotal;
    SplitsKeepScore(BaselineOf(b, v).value, history, from, through, v, w, true);
    SplitsKeepScore(BaselineOf(b, v).value, history, from, through, v, w, false);
  }

  // ---- the worker ---------------------------------------------------------------------

  /** The entries and what each holds: as frozen on joining until its baseline is stored,
      as baselined from then on. */
  datatype Book = Book(entries: Entries, baskets: map<EntryId, Basket>)

  const WINDOW_ELAPSED := "baseline window elapsed"

  predicate Pending(entries: Entries, e: EntryId) {
    e in entries && entries[e].status == Admitted
  }

  /** What one pass meets: the schedule and the operational window after the start, when
      each entry was frozen, the corporate actions applied so far and the entries whose
      reading of them fails, the providers, and the repository writes that fail. */
  datatype World = World(
    now: int, batch: Limit, startsAt: int, window: nat, frozenAt: map<EntryId, int>, history: seq<Action>,
    adjustFails: set<EntryId>, provider: Provider, recordOk: bool, completeFails: set<EntryId>, failFails: set<EntryId>)

  /** The operational window after the start is over. */
  predicate Late(w: World) {
    w.now > w.startsAt + w.window
  }

  function PutBasket(baskets: map<EntryId, Basket>, e: EntryId, b: Basket): map<EntryId, Basket> {
    baskets[e := b]
  }

  function PutEntry(entries: Entries, e: EntryId, entry: Entry): Entries {
    entries[e := entry]
  }

  /** An entry's frozen basket carried through the actions up to the start. */
  function NormalizedEntry(k: Book, e: EntryId, w: World): Result<Basket> {
    if e !in k.baskets || e !in w.frozenAt || e in w.adjustFails then Failure(BasketUnavailable)
    else AdjustBasket(k.baskets[e], w.history, w.frozenAt[e], w.startsAt)
  }

  /** One entry of a pass: baselined, or past the window failed, or left for a retry. */
  function VisitPending(k: Book, e: EntryId, b: Basket, v: View, w: World): Book
    requires Pending(k.entries, e)
  {
    var baseline := BaselineOf(b, v);
    if baseline.Success? && e !in w.completeFails then
      Book(PutEntry(k.entries, e, k.entries[e].(status := EntryStatus.Active)), PutBasket(k.baskets, e, baseline.value))
    else if Late(w) && e !in w.failFails then
      k.(entries := PutEntry(k.entries, e, k.entries[e].(status := BaselineFailed, reason := WINDOW_ELAPSED)))
    else k
  }

  /** The repository refuses what is not pending. */
  function Attempt(k: Book, e: EntryId, b: Basket, v: View, w: World): Book {
    if Pending(k.entries, e) then VisitPending(k, e, b, v, w) else k
  }

  class EntryBook {
    var entries: Entries
    var baskets: map<EntryId, Basket>

    constructor (entries: Entries, baskets: map<EntryId, Basket>)
      ensures Now() == Book(entries, baskets)
    {
      this.entries, this.baskets := entries, baskets;
    }

    ghost function Now(): Book
      reads this
    {
      Book(entries, baskets)
    }

    /** Some pending entries, all of them if fewer than the limit; the repository's map
        gives them in no particular order. */
    method ListPending(limit: Limit) returns (page: seq<EntryId>)
      ensures forall i :: 0 <= i < |page| ==> Pending(entries, page[i])
      ensures forall i, j :: 0 <= i < j < |page| ==> page[i] != page[j]
      ensures |page| <= limit
      ensures |page| < limit ==> forall e :: Pending(entries, e) ==> e in page
    {
      page := [];
      var keys := entries.Keys;
      while keys != {} && |page| < limit
        invariant keys <= entries.Keys && |page| <= limit
        invariant forall i :: 0 <= i < |page| ==> Pending(entries, page[i]) && page[i] !in keys
        invariant forall i, j :: 0 <= i < j < |page| ==> page[i] != page[j]
        invariant forall e :: Pending(entries, e) ==> e in page || e in keys
        decreases keys
      {
        var e :| e in keys;
        keys := keys - {e};
        if entries[e].status == Admitted {
          page := page + [e];
        }
      }
    }

    method CompleteBaseline(e: EntryId, b: Basket, writeOk: bool) returns (r: Result<()>)
      modifies this
      ensures if writeOk && Pending(old(entries), e) then
          r.Success? && Now() == Book(
            PutEntry(old(entries), e, old(entries)[e].(status := EntryStatus.Active)), PutBasket(old(baskets), e, b))
        else r.Failure? && Now() == old(Now())
    {
      if !writeOk {
        return Failure(StoreUnavailable);
      }
      if e !in entries || entries[e].status != Admitted {
        return Failure(EntryConflict);
      }
      entries := PutEntry(entries, e, entries[e].(status := EntryStatus.Active));
      baskets := PutBasket(baskets, e, b);
      r := Success(());
    }

    method FailBaseline(e: EntryId, reason: string, writeOk: bool) returns (r: Result<()>)
      modifies this`entries
      ensures if writeOk && Pending(old(entries), e) then
          r.Success? && entries == PutEntry(old(entries), e, old(entries)[e].(status := BaselineFailed, reason := reason))
        else r.Failure? && entries == old(entries)
    {
      if !writeOk {
        return Failure(StoreUnavailable);
      }
      if e !in entries || entries[e].status != Admitted {
        return Failure(EntryConflict);
      }
      entries := PutEntry(entries, e, entries[e].(status := BaselineFailed, reason := reason));
      r := Success(());
    }
  }

  /** One entry of the pass. */
  method RunOne(book: EntryBook, e: EntryId, b: Basket, v: View, w: World)
    modifies book
    ensures book.Now() == Attempt(old(book.Now()), e, b, v, w)
  {
    hide BaselineOf;
    var baseline := BaselineEntry(b, v);
    if baseline.Success? {
      var done := book.CompleteBaseline(e, baseline.value, e !in w.completeFails);
      if done.Success? {
        return;
      }
    }
    if Late(w) {
      var failed := book.FailBaseline(e, WINDOW_ELAPSED, e !in w.failFails);
    }
  }

  /** Pending entries, none twice. */
  ghost predicate PendingOnce(entries: Entries, page: seq<EntryId>) {
    && (forall i :: 0 <= i < |page| ==> Pending(entries, page[i]))
    && (forall i, j :: 0 <= i < j < |page| ==> page[i] != page[j])
  }

  /** A page the repository may return. */
  ghost predicate PendingPage(entries: Entries, page: seq<EntryId>, limit: Limit) {
    PendingOnce(entries, page) && |page| <= limit && (|page| < limit ==> forall e :: Pending(entries, e) ==> e in page)
  }

  ghost predicate AllNormalized(k: Book, page: seq<EntryId>, w: World) {
    forall e :: e in page ==> NormalizedEntry(k, e, w).Success?
  }

  ghost function NormalizedPage(k: Book, page: seq<EntryId>, w: World): seq<Basket>
    requires AllNormalized(k, page, w)
  {
    seq(|page|, i requires 0 <= i < |page| => NormalizedEntry(k, page[i], w).value)
  }

  /** normalizeEntriesForBaseline: each listed entry in turn, failing with the first whose
      basket cannot be carried to the start. */
  method NormalizeEntries(book: EntryBook, page: seq<EntryId>, w: World) returns (r: Result<seq<Basket>>)
    ensures r.Success? <==> AllNormalized(book.Now(), page, w)
    ensures r.Success? ==> r.value == NormalizedPage(book.Now(), page, w)
    ensures r.Failure? ==> exists i :: 0 <= i < |page| && NormalizedEntry(book.Now(), page[i], w) == Failure(r.error)
  {
    var out: seq<Basket> := [];
    for i := 0 to |page|
      invariant |out| == i
      invariant forall k :: 0 <= k < i ==> NormalizedEntry(book.Now(), page[k], w) == Success(out[k])
    {
      assert page[i] in page;
      if page[i] !in book.baskets || page[i] !in w.frozenAt || page[i] in w.adjustFails {
        return Failure(BasketUnavailable);
      }
      var adjusted := AdjustedEntryBasket(book.baskets[page[i]], w.history, w.frozenAt[page[i]], w.startsAt);
      if adjusted.Failure? {
        return adjusted.PropagateFailure();
      }
      out := out + [adjusted.value];
    }
    r := Success(out);
  }

  function VisitAll(k: Book, page: seq<EntryId>, baskets: seq<Basket>, v: View, w: World): Book
    requires |page| == |baskets|
  {
    if page == [] then k
    else
      var n := |page| - 1;
      Attempt(VisitAll(k, page[..n], baskets[..n], v, w), page[n], baskets[n], v, w)
  }

  ghost function ObservedBy(k: Book, o: Obs, page: seq<EntryId>, w: World): Obs {
    if page != [] && AllNormalized(k, page, w) && w.recordOk
    then Capture(o, NormalizedPage(k, page, w), |page| < w.batch, w.provider)
    else o
  }

  /** The book after a pass over the page: untouched if a basket cannot be normalized or
      the observations cannot be stored, else every entry of the page visited with the
      one stored view. */
  ghost function BookAfter(k: Book, o: Obs, page: seq<EntryId>, w: World): Book {
    if !AllNormalized(k, page, w) then k
    else if !w.recordOk && Capture(o, NormalizedPage(k, page, w), |page| < w.batch, w.provider) != o then k
    else VisitAll(k, page, NormalizedPage(k, page, w), ObservedBy(k, o, page, w).view, w)
  }

  /** RunCompetitionBaselines for one edition. */
  method RunBaselines(book: EntryBook, obs: ObservationSet, w: World) returns (page: seq<EntryId>)
    modifies book, obs
    ensures PendingPage(old(book.entries), page, w.batch)
    ensures obs.State() == ObservedBy(old(book.Now()), old(obs.State()), page, w)
    ensures book.Now() == BookAfter(old(book.Now()), old(obs.State()), page, w)
  {
    hide AllNormalized, Capture, Attempt;
    page := book.ListPending(w.batch);
    if page == [] {
      NothingToNormalize(book.Now(), w);
      return;
    }
    var normalized := NormalizeEntries(book, page, w);
    if normalized.Failure? {
      return;
    }
    var captured := CaptureObservations(obs, normalized.value, |page| < w.batch, w.provider, w.recordOk);
    if captured.Failure? {
      return;
    }
    SweepPending(book, page, normalized.value, captured.value, w);
  }

  lemma NothingToNormalize(k: Book, w: World)
    ensures AllNormalized(k, [], w)
  {
  }

  method SweepPending(book: EntryBook, page: seq<EntryId>, baskets: seq<Basket>, v: View, w: World)
    requires |page| == |baskets|
    modifies book
    ensures book.Now() == VisitAll(old(book.Now()), page, baskets, v, w)
  {
    hide Attempt;
    var i := 0;
    while i < |page|
      invariant 0 <= i <= |page|
      invariant book.Now() == VisitAll(old(book.Now()), page[..i], baskets[..i], v, w)
    {
      assert page[..i + 1][..i] == page[..i] && baskets[..i + 1][..i] == baskets[..i];
      RunOne(book, page[i], baskets[i], v, w);
      i := i + 1;
    }
    assert page[..i] == page && baskets[..i] == baskets;
  }

  // ---- what passes keep ------------------------------------------------------------------

  /** Every active entry scores at par on the observations; everyone else has been left
      alone, failed with the reason, or is still waiting. */
  ghost predicate Common(k: Book, k0: Book, v: View) {
    k.entries.Keys == k0.entries.Keys && AtPar(k, v) && forall e :: e in k0.entries ==> LeftOrDecided(k, k0, e)
  }

  ghost predicate AtPar(k: Book, v: View) {
    forall e :: e in k.entries && k.entries[e].status == EntryStatus.Active ==>
      e in k.baskets && Value(k.baskets[e], v, true) == Success(PAR)
  }

  ghost predicate LeftOrDecided(k: Book, k0: Book, e: EntryId)
    requires e in k0.entries
  {
    && e in k.entries
    && (|| k.entries[e] == k0.entries[e]
        || (k0.entries[e].status == Admitted && k.entries[e] == k0.entries[e].(status := EntryStatus.Active))
        || (k0.entries[e].status == Admitted && k.entries[e] == k0.entries[e].(status := BaselineFailed, reason := WINDOW_ELAPSED)))
  }

  /** A visit with a view that is part of the set keeps all of it. */
  lemma VisitKeepsCommon(k: Book, k0: Book, e: EntryId, b: Basket, v: View, u: View, w: World)
    requires Common(k, k0, u) && Grows(v, u)
    ensures Common(Attempt(k, e, b, v, w), k0, u)
  {
    var r := Attempt(k, e, b, v, w);
    VisitedAtPar(k, e, b, v, u, w);
    hide AtPar, Grows, BaselineOf, WINDOW_ELAPSED;
    forall d | d in k0.entries ensures LeftOrDecided(r, k0, d) {
      assert LeftOrDecided(k, k0, d);
    }
  }

  lemma VisitedAtPar(k: Book, e: EntryId, b: Basket, v: View, u: View, w: World)
    requires AtPar(k, u) && Grows(v, u)
    ensures AtPar(Attempt(k, e, b, v, w), u)
  {
    if BaselineOf(b, v).Success? {
      BaselineIsPar(b, v);
      ValuationSteady(BaselineOf(b, v).value, v, u, true);
    }
    hide BaselineOf, Value, Grows;
  }

  lemma {:induction false} VisitAllKeepsCommon(k: Book, k0: Book, page: seq<EntryId>, baskets: seq<Basket>, v: View, w: World)
    requires |page| == |baskets| && Common(k, k0, v)
    ensures Common(VisitAll(k, page, baskets, v, w), k0, v)
  {
    if page != [] {
      var n := |page| - 1;
      VisitAllKeepsCommon(k, k0, page[..n], baskets[..n], v, w);
      VisitKeepsCommon(VisitAll(k, page[..n], baskets[..n], v, w), k0, page[n], baskets[n], v, v, w);
      hide Common, Attempt;
    }
  }

  lemma CommonGrows(k: Book, k0: Book, v: View, u: View)
    requires Common(k, k0, v) && Grows(v, u)
    ensures Common(k, k0, u)
  {
    forall e | e in k.entries && k.entries[e].status == EntryStatus.Active
      ensures e in k.baskets && Value(k.baskets[e], u, true) == Success(PAR)
    {
      ValuationSteady(k.baskets[e], v, u, true);
    }
    hide LeftOrDecided, Grows, Value;
  }

  /** The pages and worlds of successive passes. */
  ghost function BookRun(k: Book, o: Obs, pages: seq<seq<EntryId>>, ws: seq<World>): (Book, Obs)
    requires |pages| == |ws|
  {
    if ws == [] then (k, o)
    else
      var n := |ws| - 1;
      var (k1, o1) := BookRun(k, o, pages[..n], ws[..n]);
      (BookAfter(k1, o1, pages[n], ws[n]), ObservedBy(k1, o1, pages[n], ws[n]))
  }

  /** Over every run of baseline passes: each entry that has become active, in whichever
      page and pass, stands at exactly 100 on the one observation set as it is now; no
      entry is dropped, and none fails without the reason. */
  lemma {:induction false} BaselineIsCommon(k: Book, o: Obs, pages: seq<seq<EntryId>>, ws: seq<World>)
    requires |pages| == |ws| && ActiveIds(k.entries) == {}
    ensures var (k1, o1) := BookRun(k, o, pages, ws);
      Common(k1, k, o1.view) && Grows(o.view, o1.view) && (o.sealed ==> o1 == o)
  {
    if ws == [] {
      NobodyActive(k, o.view);
    } else {
      var n := |ws| - 1;
      BaselineIsCommon(k, o, pages[..n], ws[..n]);
      var (k1, o1) := BookRun(k, o, pages[..n], ws[..n]);
      PassIsCommon(k1, k, o1, pages[n], ws[n]);
      hide Common, BookAfter, ObservedBy;
    }
  }

  lemma NobodyActive(k: Book, v: View)
    requires ActiveIds(k.entries) == {}
    ensures Common(k, k, v)
  {
    assert forall e :: e in k.entries && k.entries[e].status == EntryStatus.Active ==> e in ActiveIds(k.entries);
  }

  lemma PassIsCommon(k: Book, k0: Book, o: Obs, page: seq<EntryId>, w: World)
    requires Common(k, k0, o.view)
    ensures Common(BookAfter(k, o, page, w), k0, ObservedBy(k, o, page, w).view)
    ensures Grows(o.view, ObservedBy(k, o, page, w).view) && (o.sealed ==> ObservedBy(k, o, page, w) == o)
  {
    hide Common, AllNormalized, NormalizedEntry, Capture, Attempt;
    var v := ObservedBy(k, o, page, w).view;
    if AllNormalized(k, page, w) {
      CaptureOnlyAdds(o, NormalizedPage(k, page, w), |page| < w.batch, w.provider);
      CommonGrows(k, k0, o.view, v);
      VisitAllKeepsCommon(k, k0, page, NormalizedPage(k, page, w), v, w);
    }
  }

  /** The entry is as it was. */
  ghost predicate Untouched(k: Book, r: Book, e: EntryId) {
    && (e in r.entries <==> e in k.entries) && (e in k.entries ==> r.entries[e] == k.entries[e])
    && (e in r.baskets <==> e in k.baskets) && (e in k.baskets ==> r.baskets[e] == k.baskets[e])
  }

  /** The entry is active with its baseline if the view gives one and it can be stored, else
      failed after the window if that can be, and otherwise still pending. */
  ghost predicate Decided(k: Book, r: Book, e: EntryId, b: Basket, v: View, w: World) {
    && e in r.entries && e in k.entries
    && (if BaselineOf(b, v).Success? && e !in w.completeFails then
         && r.entries[e] == k.entries[e].(status := EntryStatus.Active)
         && e in r.baskets && r.baskets[e] == BaselineOf(b, v).value
       else if w.now > w.startsAt + w.window && e !in w.failFails then
         r.entries[e] == k.entries[e].(status := BaselineFailed, reason := WINDOW_ELAPSED)
       else r.entries[e] == k.entries[e])
  }

  lemma VisitDecides(k: Book, e: EntryId, b: Basket, v: View, w: World)
    requires Pending(k.entries, e)
    ensures Decided(k, Attempt(k, e, b, v, w), e, b, v, w)
    ensures forall d :: d != e ==> Untouched(k, Attempt(k, e, b, v, w), d)
  {
    hide BaselineOf, WINDOW_ELAPSED;
  }

  /** Untouched before or after is as good as never. */
  lemma DecisionsStand(k: Book, mid: Book, r: Book, e: EntryId, b: Basket, v: View, w: World)
    ensures Untouched(k, mid, e) && Untouched(mid, r, e) ==> Untouched(k, r, e)
    ensures Untouched(k, mid, e) && Decided(mid, r, e, b, v, w) ==> Decided(k, r, e, b, v, w)
    ensures Decided(k, mid, e, b, v, w) && Untouched(mid, r, e) ==> Decided(k, r, e, b, v, w)
    ensures Untouched(k, mid, e) && Pending(k.entries, e) ==> Pending(mid.entries, e)
  {
    hide BaselineOf, WINDOW_ELAPSED;
  }

  /** One visit more. */
  lemma OneMoreDecides(k: Book, mid: Book, page: seq<EntryId>, baskets: seq<Basket>, v: View, w: World, e: EntryId)
    requires |page| == |baskets| > 0
    requires forall i :: 0 <= i < |page| - 1 ==> page[i] != page[|page| - 1]
    requires Pending(k.entries, page[|page| - 1]) && Untouched(k, mid, page[|page| - 1])
    requires (forall i :: 0 <= i < |page| - 1 ==> page[i] != e) ==> Untouched(k, mid, e)
    requires forall i :: 0 <= i < |page| - 1 && page[i] == e ==> Decided(k, mid, e, baskets[i], v, w)
    ensures var r := Attempt(mid, page[|page| - 1], baskets[|page| - 1], v, w);
      && (e !in page ==> Untouched(k, r, e))
      && forall i :: 0 <= i < |page| && page[i] == e ==> Decided(k, r, e, baskets[i], v, w)
  {
    hide *;
    var n := |page| - 1;
    var last := page[n];
    var r := Attempt(mid, last, baskets[n], v, w);
    DecisionsStand(k, mid, mid, last, baskets[n], v, w);
    VisitDecides(mid, last, baskets[n], v, w);
    DecisionsStand(k, mid, r, e, baskets[n], v, w);
    forall i | 0 <= i < |page| && page[i] == e ensures Decided(k, r, e, baskets[i], v, w) {
      DecisionsStand(k, mid, r, e, baskets[i], v, w);
    }
  }

  lemma VisitAllStep(k: Book, page: seq<EntryId>, baskets: seq<Basket>, v: View, w: World)
    requires |page| == |baskets| > 0
    ensures var n := |page| - 1;
      VisitAll(k, page, baskets, v, w) == Attempt(VisitAll(k, page[..n], baskets[..n], v, w), page[n], baskets[n], v, w)
  {
    hide Attempt;
  }

  lemma PageShrinks(k: Book, page: seq<EntryId>, baskets: seq<Basket>)
    requires PendingOnce(k.entries, page) && |page| == |baskets| > 0
    ensures var n := |page| - 1;
      && PendingOnce(k.entries, page[..n]) && Pending(k.entries, page[n]) && page[n] !in page[..n]
      && (forall i :: 0 <= i < n ==> page[i] != page[n] && page[..n][i] == page[i] && baskets[..n][i] == baskets[i])
      && forall e :: e in page[..n] ==> e in page
  {
    hide Pending;
  }

  /** What a pass decides about the entries of its page, whatever writes fail: active if the
      normalized basket can be baselined on the stored view, else failed after the window,
      else still pending. Any other entry is untouched. */
  lemma {:induction false} VisitAllDecides(k: Book, page: seq<EntryId>, baskets: seq<Basket>, v: View, w: World, e: EntryId)
    requires |page| == |baskets| && PendingOnce(k.entries, page)
    ensures e !in page ==> Untouched(k, VisitAll(k, page, baskets, v, w), e)
    ensures forall i :: 0 <= i < |page| && page[i] == e ==> Decided(k, VisitAll(k, page, baskets, v, w), e, baskets[i], v, w)
  {
    if page != [] {
      var n := |page| - 1;
      VisitAllStep(k, page, baskets, v, w);
      hide *;
      PageShrinks(k, page, baskets);
      VisitAllDecides(k, page[..n], baskets[..n], v, w, e);
      VisitAllDecides(k, page[..n], baskets[..n], v, w, page[n]);
      OneMoreDecides(k, VisitAll(k, page[..n], baskets[..n], v, w), page, baskets, v, w, e);
    }
  }
}
