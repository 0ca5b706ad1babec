/** When a ranking pass promotes, and the scores its board shows. */
module LiveScores {
  import opened OrderedIds
  import opened RankOrder
  import opened Generations
  import opened Sweeps
  import opened Lifecycles
  import opened Outcomes
  import opened Valuation
  import opened BasketAdjustments
  import opened Ranking
  import opened RankingCoverage
  import opened RankingWorker

  // ---- when a lap ends ---------------------------------------------------------------------

  /** The pass gets to the end of its lap with somebody covered. */
  ghost predicate EndsLap(o: Board, p: Refresh)
    requires HasBuilding(o)
  {
    && p.advanceOk && p.closeOk && |Page(o, p.batch)| < p.batch
    && o.generations[o.nextGen].processed + |Page(o, p.batch)| > 0
  }

  /** Nobody in this lap has failed to be valued or written. */
  ghost predicate AllWell(o: Board, p: Refresh)
    requires HasBuilding(o)
  {
    && o.generations[o.nextGen].failed == 0 && !o.generations[o.nextGen].writeFailure
    && forall i :: 0 <= i < |Page(o, p.batch)| ==>
      Page(o, p.batch)[i] in p.valued && Page(o, p.batch)[i] !in p.upsertFails
  }

  lemma RecordedCounts(o: Board, p: Refresh)
    requires Sound(o) && HasBuilding(o)
    ensures var r := Recorded(o, p);
      && Sound(r) && HasBuilding(r) && r.nextGen == o.nextGen && r.active == o.active && r.entries == o.entries
      && r.generations[r.nextGen].processed == o.generations[o.nextGen].processed + |Page(o, p.batch)|
      && (Clean(r.generations[r.nextGen]) <==> AllWell(o, p))
  {
    SweepKeepsSound(o, p);
    CleanExactly(Page(o, p.batch), AnswersOf(p));
    hide Sound, Page, Sweep, Unbroken;
  }

  lemma CloseLapExactly(b: Board)
    requires Sound(b) && HasBuilding(b)
    ensures var g, r := b.generations[b.nextGen], CloseLap(b);
      && b.nextGen in r.generations
      && (r.active != b.active <==> g.processed > 0 && Clean(g) && !PendingBaseline(b.entries))
      && (r.active != b.active ==> r.active == b.nextGen)
      && (r.generations[b.nextGen].status == Failed <==> g.processed > 0 && !Clean(g))
  {
    hide Complete, WithRanks;
  }

  /** A pass promotes exactly if it ends its lap, nothing in the lap has failed, and no
      admitted entry still waits for its baseline; what it promotes is the generation it
      was building. It gives that generation up exactly if the lap ends with a failure in
      it. */
  lemma PromotesExactly(b: Board, p: Refresh)
    requires Sound(b)
    ensures var o, r := EnsureBuilding(b), Pass(b, p);
      && HasBuilding(o) && o.nextGen in r.generations
      && (r.active != b.active <==>
           EndsLap(o, p) && AllWell(o, p) && forall e :: e in b.entries ==> b.entries[e].status != Admitted)
      && (r.active != b.active ==> r.active == o.nextGen)
      && (r.generations[o.nextGen].status == Failed <==> EndsLap(o, p) && !AllWell(o, p))
  {
    var o := EnsureBuilding(b);
    PassCases(b, p);
    RecordedCounts(o, p);
    CloseLapExactly(Recorded(o, p));
    assert PendingBaseline(b.entries) <==> !(forall e :: e in b.entries ==> b.entries[e].status != Admitted);
    hide Sound, CloseLap, Sweep, Page, AllWell, Pass, PendingBaseline;
  }

  // ---- the rows ----------------------------------------------------------------------------

  ghost predicate DraftedBy(o: Board, p: Refresh, e: EntryId)
    requires HasBuilding(o)
  {
    e in Page(o, p.batch) && e in p.valued && e !in p.upsertFails
  }

  /** Rows as they stand after the page is written: a drafted entry shows what it was valued
      at, every other shows what it showed. */
  ghost predicate Shows(rows: Rows, now: Rows, o: Board, p: Refresh, e: EntryId)
    requires HasBuilding(o)
  {
    && (e in now <==> DraftedBy(o, p, e) || e in rows)
    && (e in now ==>
         now[e].score == if DraftedBy(o, p, e) then p.valued[e] else rows[e].score)
  }

  lemma SweepDrafts(page: seq<EntryId>, p: Refresh, e: EntryId)
    ensures var drafts := Sweep(page, AnswersOf(p)).drafts;
      && (e in drafts <==> e in page && e in p.valued && e !in p.upsertFails)
      && (e in drafts ==> drafts[e] == p.valued[e])
  {
    var a := AnswersOf(p);
    SweepsExactly(page, a, e);
    hide Sweep;
    assert forall i :: 0 <= i < |page| ==> Unbroken(page, a, i);
    if e in page {
      var i :| 0 <= i < |page| && page[i] == e;
      assert e in p.valued && e !in p.upsertFails ==> DraftedAt(page, a, e, i);
    }
  }

  lemma SweptShows(o: Board, p: Refresh, e: EntryId)
    requires Sound(o) && HasBuilding(o)
    ensures var r := Swept(o, p);
      && r.rows.Keys == o.rows.Keys && o.nextGen in o.rows && Recorded(o, p).rows == r.rows
      && (forall g :: g in o.rows && g != o.nextGen ==> r.rows[g] == o.rows[g])
      && Shows(o.rows[o.nextGen], r.rows[o.nextGen], o, p, e)
  {
    SweepDrafts(Page(o, p.batch), p, e);
    hide Complete, Page, Sweep;
  }

  /** Closing a lap ranks the rows and drops whole boards; it changes no score. */
  lemma CloseLapShows(b: Board, e: EntryId)
    requires Sound(b) && HasBuilding(b)
    ensures var r := CloseLap(b);
      && r.rows.Keys <= b.rows.Keys
      && (forall g :: g in r.rows && g != b.nextGen ==> r.rows[g] == b.rows[g])
      && (b.nextGen in r.rows ==>
           && (e in r.rows[b.nextGen] <==> e in b.rows[b.nextGen])
           && (e in r.rows[b.nextGen] ==> r.rows[b.nextGen][e].score == b.rows[b.nextGen][e].score))
  {
    hide Complete, RankIn;
  }

  lemma PassEnds(b: Board, p: Refresh)
    requires Sound(b)
    ensures var o := EnsureBuilding(b);
      && Sound(o) && HasBuilding(o) && Sound(Recorded(o, p)) && HasBuilding(Recorded(o, p))
      && Recorded(o, p).nextGen == o.nextGen
      && (Pass(b, p) == Swept(o, p) || Pass(b, p) == Recorded(o, p) || Pass(b, p) == CloseLap(Recorded(o, p)))
  {
    PassCases(b, p);
    hide Sound, CloseLap, Sweep, Page, Pass;
  }

  lemma ShowsCarries(b: Board, r: Board, o: Board, p: Refresh, e: EntryId)
    requires HasBuilding(o) && o.nextGen in o.rows && o.nextGen in b.rows
    requires Shows(o.rows[o.nextGen], b.rows[o.nextGen], o, p, e)
    requires o.nextGen in r.rows ==>
      && (e in r.rows[o.nextGen] <==> e in b.rows[o.nextGen])
      && (e in r.rows[o.nextGen] ==> r.rows[o.nextGen][e].score == b.rows[o.nextGen][e].score)
    ensures o.nextGen in r.rows ==> Shows(o.rows[o.nextGen], r.rows[o.nextGen], o, p, e)
  {
    hide Page;
  }

  lemma OpeningShows(b: Board)
    requires Sound(b)
    ensures var o := EnsureBuilding(b);
      && Sound(o) && HasBuilding(o) && o.nextGen in o.rows
      && (forall g :: g in o.rows && g != o.nextGen ==> g in b.rows && o.rows[g] == b.rows[g])
      && (forall x :: x in o.rows[o.nextGen] ==> o.nextGen in b.rows && o.rows[o.nextGen] == b.rows[o.nextGen])
  {
    OpeningKeepsSound(b);
    hide Complete;
  }

  /** What one pass does to the scores on show: in the generation it builds, or promotes,
      the claimed entries that could be valued and written show their value of this pass
      and every other row its score from before. Other boards stay or go as a whole. */
  lemma PassShows(b: Board, p: Refresh, e: EntryId)
    requires Sound(b)
    ensures var o, r := EnsureBuilding(b), Pass(b, p);
      && HasBuilding(o) && o.nextGen in o.rows
      && (o.nextGen in r.rows ==> Shows(o.rows[o.nextGen], r.rows[o.nextGen], o, p, e))
      && (forall g :: g in r.rows && g != o.nextGen ==> g in b.rows && r.rows[g] == b.rows[g])
      && (forall x :: x in o.rows[o.nextGen] ==> o.nextGen in b.rows && o.rows[o.nextGen] == b.rows[o.nextGen])
  {
    var o := EnsureBuilding(b);
    OpeningShows(b);
    PassEnds(b, p);
    SweptShows(o, p, e);
    CloseLapShows(Recorded(o, p), e);
    hide *;
    ShowsCarries(Recorded(o, p), CloseLap(Recorded(o, p)), o, p, e);
  }

  /** The pass valued the entry so. */
  ghost predicate ValuedIn(ev: Event, e: EntryId, score: Score) {
    ev.Refreshes? && e in ev.p.valued && ev.p.valued[e] == score
  }

  ghost predicate ScoredBySome(evs: seq<Event>, e: EntryId, score: Score) {
    exists k :: 0 <= k < |evs| && ValuedIn(evs[k], e, score)
  }

  ghost predicate AllScored(b: Board, evs: seq<Event>) {
    forall g, e :: g in b.rows && e in b.rows[g] ==> ScoredBySome(evs, e, b.rows[g][e].score)
  }

  lemma ScoredLater(evs: seq<Event>, e: EntryId, score: Score)
    requires evs != []
    ensures ScoredBySome(evs, e, score) <==>
      ScoredBySome(evs[..|evs| - 1], e, score) || ValuedIn(evs[|evs| - 1], e, score)
  {
    var init := evs[..|evs| - 1];
    if ScoredBySome(init, e, score) {
      var k :| 0 <= k < |init| && ValuedIn(init[k], e, score);
      assert ValuedIn(evs[k], e, score);
    }
    if ScoredBySome(evs, e, score) {
      var k :| 0 <= k < |evs| && ValuedIn(evs[k], e, score);
      assert k < |init| ==> ValuedIn(init[k], e, score);
    }
  }

  /** Over every run: no board shows a score that no pass arrived at. */
  lemma {:induction false} RowsShowScores(b: Board, evs: seq<Event>)
    requires Opening(b)
    ensures Sound(b) && AllScored(FollowAll(Watch(b, {}, {}), evs).board, evs)
  {
    RunsStayTracked(b, evs);
    if evs != [] {
      var init, ev := evs[..|evs| - 1], evs[|evs| - 1];
      RowsShowScores(b, init);
      var before := FollowAll(Watch(b, {}, {}), init).board;
      var now := Step(before, ev);
      hide Sound, FollowAll, Pass, ScoredBySome, ValuedIn;
      forall g, e | g in now.rows && e in now.rows[g] ensures ScoredBySome(evs, e, now.rows[g][e].score) {
        ScoredLater(evs, e, now.rows[g][e].score);
        RowScored(before, init, ev, g, e);
      }
    }
  }

  lemma RowScored(b: Board, init: seq<Event>, ev: Event, g: nat, e: EntryId)
    requires Sound(b) && AllScored(b, init) && g in Step(b, ev).rows && e in Step(b, ev).rows[g]
    ensures var score := Step(b, ev).rows[g][e].score;
      ScoredBySome(init, e, score) || ValuedIn(ev, e, score)
  {
    hide Sound, Pass, ScoredBySome, Page;
    if ev.Refreshes? { PassShows(b, ev.p, e); }
  }

  // ---- the score now -----------------------------------------------------------------------

  /** With the live quotes restated by the splits since the start, an entry scores what its
      stored basket would at the quotes before any restating. */
  lemma LiveScoreThroughSplits(e: EntryId, w: World, raw: View)
    requires e in w.baskets && e !in w.adjustFails
    requires AdjustBasket(w.baskets[e], w.history, w.startsAt, w.now).Success?
    requires raw.fx == w.live.fx && Rebased(w.baskets[e].positions, w.includeFX)
    requires AllRestated(w.live, raw, w.baskets[e].positions,
      AdjustBasket(w.baskets[e], w.history, w.startsAt, w.now).value.positions, w.history, w.startsAt, w.now)
    ensures ScoreNow(e, w) == Value(w.baskets[e], raw, w.includeFX)
    ensures ScoreNow(e, w).Success? ==>
      e in InputOf(w).valued && Success(InputOf(w).valued[e]) == Value(w.baskets[e], raw, w.includeFX)
  {
    SplitsKeepScore(w.baskets[e], w.history, w.startsAt, w.now, raw, w.live, w.includeFX);
    ValuedIs(w, e);
    hide Value, AdjustBasket, AllRestated, Rebased;
  }
}
