/** The ranking worker: one bounded refresh pass over the store. */
module RankingWorker {
  import opened OrderedIds
  import opened RankOrder
  import opened Generations
  import opened Lifecycles
  import opened Outcomes
  import opened Valuation
  import opened BasketAdjustments
  import opened Ranking
  import opened RankingStore

  /** What one pass meets: the baselined baskets, the corporate actions applied so far and
      the entries whose reading of them fails, the quotes and rates its memo takes, each
      asked for once, and which repository calls go through. */
  datatype World = World(
    batch: Limit, startsAt: int, now: int, baskets: map<EntryId, Basket>, history: seq<Action>,
    adjustFails: set<EntryId>, live: View, includeFX: bool, upsertFails: set<EntryId>, advanceOk: bool, closeOk: bool)

  /** The baskets that can be carried from the start to now. */
  function AdjustedNow(w: World): map<EntryId, Basket> {
    map e | e in w.baskets && e !in w.adjustFails && AdjustBasket(w.baskets[e], w.history, w.startsAt, w.now).Success? ::
      AdjustBasket(w.baskets[e], w.history, w.startsAt, w.now).value
  }

  function InputOf(w: World): Refresh {
    Refresh(w.batch, Valued(AdjustedNow(w), w.includeFX, w.live), w.upsertFails, w.advanceOk, w.closeOk)
  }

  lemma ApplyUpsert(b: Board, t: Tally, e: EntryId, score: Score)
    requires b.nextGen in b.rows
    ensures Apply(b, t.(drafts := Put(t.drafts, e, score))) ==
      Apply(b, t).(rows := Apply(b, t).rows[b.nextGen := PutRow(Apply(b, t).rows[b.nextGen], e, RankRow(score, 0))])
  {
    assert b.rows[b.nextGen] + Unranked(Put(t.drafts, e, score)) ==
      PutRow(b.rows[b.nextGen] + Unranked(t.drafts), e, RankRow(score, 0));
  }

  function ScoreNow(e: EntryId, w: World): Result<Score> {
    if e !in w.baskets || e in w.adjustFails then Failure(BasketUnavailable)
    else
      var adjusted :- AdjustBasket(w.baskets[e], w.history, w.startsAt, w.now);
      Value(adjusted, w.live, w.includeFX)
  }

  lemma ValuedIs(w: World, e: EntryId)
    ensures var valued, score := InputOf(w).valued, ScoreNow(e, w);
      if score.Success? then e in valued && valued[e] == score.value else e !in valued
  {
    hide Value, AdjustBasket;
  }

  /** Adjusts one entry's basket and values it. */
  method ScoreEntry(e: EntryId, w: World) returns (r: Result<Score>)
    ensures r == ScoreNow(e, w)
  {
    hide Value, AdjustBasket;
    if e !in w.baskets || e in w.adjustFails {
      return Failure(BasketUnavailable);
    }
    var adjusted := AdjustedEntryBasket(w.baskets[e], w.history, w.startsAt, w.now);
    if adjusted.Failure? {
      return adjusted.PropagateFailure();
    }
    r := ValueEntry(adjusted.value, w.live, w.includeFX);
  }

  /** One claimed entry: adjust, value and draft it; any failure is counted. */
  method VisitEntry(store: Store, number: nat, e: EntryId, w: World, t0: Tally, ghost b: Board) returns (t: Tally)
    requires b.nextGen in b.rows
    requires store.Now() == Apply(b, t0) && Sound(store.Now()) && HasBuilding(store.Now()) && number == b.nextGen
    requires !t0.aborted
    modifies store
    ensures t == Visit(t0, e, AnswersOf(InputOf(w)))
    ensures store.Now() == Apply(b, t)
  {
    hide Complete, ScoreNow, Tallied, Sound, Valued, AdjustedNow;
    t := t0;
    var score := ScoreEntry(e, w);
    ValuedIs(w, e);
    if score.Success? {
      ApplyUpsert(b, t, e, score.value);
      var written := store.UpsertRanking(number, e, score.value, e !in w.upsertFails);
      if written.Failure? {
        t := t.(processed := t.processed + 1, writeFailed := true);
      } else {
        t := t.(processed := t.processed + 1, successful := t.successful + 1, drafts := Put(t.drafts, e, score.value));
      }
    } else {
      t := t.(processed := t.processed + 1, failed := t.failed + 1);
    }
  }

  lemma SweptPrefixSound(b: Board, page: seq<EntryId>, a: Answers)
    requires Sound(b) && HasBuilding(b) && !a.late
    ensures Sound(Apply(b, Sweep(page, a))) && HasBuilding(Apply(b, Sweep(page, a)))
    ensures !Sweep(page, a).aborted
  {
    SweepAccounts(page, a);
    ApplyKeepsSound(b, Sweep(page, a));
    hide Sound, HasBuilding, Apply, Sweep;
  }

  lemma ApplyNothing(b: Board)
    requires b.nextGen in b.rows
    ensures Apply(b, NO_TALLY) == b
  {
    assert b.rows[b.nextGen] + Unranked(map[]) == b.rows[b.nextGen];
  }

  lemma SoundHasRows(b: Board)
    requires Sound(b) && HasBuilding(b)
    ensures b.nextGen in b.rows
  {
    hide Complete;
  }

  lemma NeverLate(w: World)
    ensures !AnswersOf(InputOf(w)).late
  {
    hide InputOf;
  }

  method SweepPage(store: Store, number: nat, page: seq<EntryId>, w: World, ghost b: Board) returns (t: Tally)
    requires Sound(b) && HasBuilding(b) && store.Now() == b && number == b.nextGen
    modifies store
    ensures t == Sweep(page, AnswersOf(InputOf(w)))
    ensures store.Now() == Apply(b, t)
  {
    ghost var a := AnswersOf(InputOf(w));
    t := NO_TALLY;
    ApplyNothing(b);
    SoundHasRows(b);
    NeverLate(w);
    hide Sound, Apply, AnswersOf, InputOf, Visit;
    for i := 0 to |page|
      invariant t == Sweep(page[..i], a)
      invariant store.Now() == Apply(b, t)
    {
      SweptPrefixSound(b, page[..i], a);
      assert page[..i + 1][..i] == page[..i] && page[..i + 1][i] == page[i];
      t := VisitEntry(store, number, page[i], w, t, b);
    }
    assert page[..|page|] == page;
  }

  /** refreshEditionRanking for the holder of the edition's lock. */
  method RefreshRanking(store: Store, w: World) returns (r: Result<()>)
    requires Sound(store.Now())
    modifies store
    ensures store.Now() == Pass(old(store.Now()), InputOf(w))
    ensures w.advanceOk && w.closeOk ==> r.Success?
  {
    ghost var p := InputOf(w);
    PassCases(store.Now(), p);
    hide Complete, Pass, Sweep, Valued;
    var number, g := store.EnsureBuildingGeneration();
    ghost var b := store.Now();
    var page := ClaimActive(store.entries, g.cursor, w.batch);
    assert page == Page(b, p.batch);
    var t := SweepPage(store, number, page, w, b);
    if !w.advanceOk {
      return Failure(StoreUnavailable);
    }
    r := RecordAndClose(store, number, g, page, t, w);
  }

  /** Records the swept page's coverage and, on a short page, ends the lap. */
  method RecordAndClose(store: Store, number: nat, g: Generation, page: seq<EntryId>, t: Tally,
      w: World) returns (r: Result<()>)
    requires number == store.nextGen && HasBuilding(store.Now()) && store.generations[number] == g
    requires Sound(Record(store.Now(), NextCursor(g.cursor, page, w.batch), t))
    modifies store
    ensures var recorded := Record(old(store.Now()), NextCursor(g.cursor, page, w.batch), t);
      store.Now() == if |page| >= w.batch || !w.closeOk then recorded else CloseLap(recorded)
    ensures w.closeOk ==> r.Success?
  {
    hide Complete;
    var cursor := g.cursor;
    if page != [] {
      cursor := page[|page| - 1];
    }
    if |page| < w.batch {
      cursor := 0;
    }
    var advanced := store.AdvanceGeneration(number, cursor, t);
    if |page| >= w.batch {
      return Success(());
    }
    if !w.closeOk {
      return Failure(StoreUnavailable);
    }
    if g.processed + t.processed == 0 {
      return Success(());
    }
    if !Clean(store.generations[number]) {
      var closed := store.FailGeneration(number);
      return Success(());
    }
    var pending := store.HasPendingBaselineEntries();
    if pending {
      return Success(());
    }
    var promoted := store.PromoteGeneration(number);
    r := Success(());
  }

  /** Nothing stands between a finished lap and its board: a short page over a clean
      generation with every claimed entry valued and written, and no baseline pending,
      is promoted by that very pass. */
  lemma FinishedLapIsPromoted(b: Board, p: Refresh)
    requires Sound(b) && p.advanceOk && p.closeOk && p.upsertFails == {}
    requires var o := EnsureBuilding(b);
      && HasBuilding(o) && Clean(o.generations[o.nextGen])
      && |Page(o, p.batch)| < p.batch && Elements(Page(o, p.batch)) <= p.valued.Keys
      && o.generations[o.nextGen].processed + |Page(o, p.batch)| != 0
    requires !PendingBaseline(b.entries)
    ensures Pass(b, p).active == EnsureBuilding(b).nextGen > b.active
  {
    OpeningKeepsSound(b);
    var o := EnsureBuilding(b);
    SweepKeepsSound(o, p);
    AllValuedSweep(Page(o, p.batch), AnswersOf(p));
    PromoteKeepsSound(Recorded(o, p));
  }

  lemma {:induction false} AllValuedSweep(page: seq<EntryId>, a: Answers)
    requires Elements(page) <= a.valued.Keys && a.upsertFails == {}
    ensures var t := Sweep(page, a);
      !t.aborted && t.failed == 0 && !t.writeFailed && t.processed == |page|
  {
    if page != [] {
      var init, e := page[..|page| - 1], page[|page| - 1];
      assert page == init + [e] && e in Elements(page);
      AllValuedSweep(init, a);
    }
  }
}
