/** The scores that finalization writes and the disqualifications it makes. */
module FinalScores {
  import opened OrderedIds
  import opened Generations
  import opened Sweeps
  import opened Lifecycles
  import opened Finalization
  import opened FinalizationRuns
  import opened Outcomes
  import opened Valuation
  import opened BasketAdjustments
  import opened Editions
  import opened EditionRuns

  // ---- who is disqualified -----------------------------------------------------------------

  ghost predicate Out(entries: Entries, e: EntryId) {
    e in entries && entries[e].status == Disqualified
  }

  lemma ClosingStrikesNobody(s: State, names: map<int, int>, e: EntryId)
    requires Sound(s) && HasBuilding(s)
    ensures Out(CloseLap(s, names).entries, e) <==> Out(s.entries, e)
  {
    hide OnePerUser, Results;
  }

  lemma SweptStrikes(o: State, p: PassInput, e: EntryId)
    requires Sound(o) && HasBuilding(o)
    ensures Out(Swept(o, p).entries, e) <==>
      Out(o.entries, e) || (e in o.entries && e in Sweep(Page(o, p.batch), p.answers).struck)
    ensures Recorded(o, p).entries == Swept(o, p).entries
  {
    hide OnePerUser, Page, Sweep;
  }

  lemma PassStrikes(s: State, p: PassInput, e: EntryId)
    requires Sound(s)
    ensures HasBuilding(EnsureBuilding(s))
    ensures Out(Pass(s, p).entries, e) <==>
      Out(s.entries, e) || (p.prepared && e in s.entries && e in Sweep(Page(EnsureBuilding(s), p.batch), p.answers).struck)
  {
    PassOpens(s, p);
    PassEnds(s, p);
    var o := EnsureBuilding(s);
    hide *;
    SweptStrikes(o, p, e);
    ClosingStrikesNobody(Recorded(o, p), p.names, e);
  }

  /** The actions up to the end carry the entry's frozen basket nowhere, or to one that the
      view does not price. */
  ghost predicate Unpriced(terms: Terms, w: World, v: View, e: EntryId) {
    || e !in terms.baskets
    || AdjustBasket(terms.baskets[e], w.history, terms.startsAt, terms.endsAt).Failure?
    || Value(AdjustBasket(terms.baskets[e], w.history, terms.startsAt, terms.endsAt).value, v, terms.includeFX).Failure?
  }

  lemma ValuedIsPriced(terms: Terms, w: World, v: View, e: EntryId)
    ensures e in AnswersFrom(terms, v, w).valued <==> !Unpriced(terms, w, v, e)
    ensures e in AnswersFrom(terms, v, w).valued ==>
      Success(AnswersFrom(terms, v, w).valued[e]) ==
      Value(AdjustBasket(terms.baskets[e], w.history, terms.startsAt, terms.endsAt).value, v, terms.includeFX)
  {
    hide Value, AdjustBasket;
  }

  /** Past the operational window, the page's entry at the place goes unpriced and no
      disqualification before it was refused. */
  ghost predicate StrickenAt(terms: Terms, w: World, v: View, page: seq<EntryId>, e: EntryId, i: nat)
    requires i < |page|
  {
    && w.now > terms.endsAt + terms.window
    && page[i] == e && Unpriced(terms, w, v, e) && e !in w.strikeFails
    && forall k :: 0 <= k < i ==> !Unpriced(terms, w, v, page[k]) || page[k] !in w.strikeFails
  }

  lemma StrickenIsStruck(terms: Terms, w: World, v: View, page: seq<EntryId>, e: EntryId, i: nat)
    requires i < |page|
    ensures StrickenAt(terms, w, v, page, e, i) <==> StruckAt(page, AnswersFrom(terms, v, w), e, i)
  {
    ValuedIsPriced(terms, w, v, e);
    forall k | 0 <= k < i
      ensures page[k] in AnswersFrom(terms, v, w).valued <==> !Unpriced(terms, w, v, page[k])
    {
      ValuedIsPriced(terms, w, v, page[k]);
    }
    hide Unpriced, Scores;
  }

  /** Whom one pass disqualifies: past the operational window, the claimed entries whose
      normalized basket the captured view does not price, up to the first disqualification
      that cannot be stored. Inside the window, nobody. */
  lemma DisqualifiesExactly(ed: Edition, terms: Terms, w: World, e: EntryId)
    requires Sound(ed.final)
    ensures HasBuilding(EnsureBuilding(ed.final))
    ensures var page, next := Page(EnsureBuilding(ed.final), w.batch), Step(ed, terms, w);
      Out(next.final.entries, e) <==>
        Out(ed.final.entries, e) ||
        (e in ed.final.entries && PageReady(ed.obs, page, terms, w) &&
         exists i :: 0 <= i < |page| && StrickenAt(terms, w, next.obs.view, page, e, i))
  {
    StepCases(ed, terms, w);
    StepIsPass(ed, terms, w);
    PassStrikes(ed.final, InputOf(ed, terms, w), e);
    var page, v := Page(EnsureBuilding(ed.final), w.batch), Step(ed, terms, w).obs.view;
    hide *;
    SweepsExactly(page, AnswersFrom(terms, v, w), e);
    forall i | 0 <= i < |page|
      ensures StrickenAt(terms, w, v, page, e, i) <==> StruckAt(page, AnswersFrom(terms, v, w), e, i)
    {
      StrickenIsStruck(terms, w, v, page, e, i);
    }
  }

  /** Over every run inside the window nobody is disqualified who was not before. */
  lemma {:induction false} NobodyStruckInTime(ed: Edition, terms: Terms, ws: seq<World>, e: EntryId)
    requires Sound(ed.final) && forall w :: w in ws ==> w.now <= terms.endsAt + terms.window
    ensures Out(RunEdition(ed, terms, ws).final.entries, e) ==> Out(ed.final.entries, e)
  {
    if ws != [] {
      var init, w := ws[..|ws| - 1], ws[|ws| - 1];
      assert w in ws;
      NobodyStruckInTime(ed, terms, init, e);
      RunEditionStep(ed, terms, ws);
      DisqualifiesExactly(RunEdition(ed, terms, init), terms, w, e);
      hide RunEdition, Sound, Page, Step, PageReady, Unpriced;
    }
  }

  // ---- when an edition completes -----------------------------------------------------------

  /** The pass gets to the end of its lap. */
  ghost predicate EndsLap(o: State, p: PassInput)
    requires HasBuilding(o)
  {
    p.prepared && p.advanceOk && p.closeOk && |Page(o, p.batch)| < p.batch && !Sweep(Page(o, p.batch), p.answers).aborted
  }

  /** Everyone this lap came to was given a row or struck out. */
  ghost predicate AllDecided(o: State, p: PassInput)
    requires HasBuilding(o)
  {
    && o.generations[o.nextGen].failed == 0 && !o.generations[o.nextGen].writeFailure
    && forall i :: 0 <= i < |Page(o, p.batch)| ==> Decided(Page(o, p.batch)[i], p.answers)
  }

  lemma RecordedCounts(o: State, p: PassInput)
    requires Sound(o) && HasBuilding(o) && !Sweep(Page(o, p.batch), p.answers).aborted
    ensures var r := Recorded(o, p);
      && Sound(r) && HasBuilding(r) && r.nextGen == o.nextGen && r.lifecycle == o.lifecycle
      && (Clean(r.generations[r.nextGen]) <==> AllDecided(o, p))
  {
    RecordedSound(o, p);
    CleanExactly(Page(o, p.batch), p.answers);
    hide Sound, Page, Sweep, Decided;
  }

  lemma CloseLapExactly(s: State, names: map<int, int>)
    requires Sound(s) && HasBuilding(s)
    ensures var r := CloseLap(s, names);
      && s.nextGen in r.generations
      && (s.lifecycle == Lifecycle.Finalizing ==>
           (r.lifecycle == Lifecycle.Completed <==> Clean(s.generations[s.nextGen])))
      && (r.generations[s.nextGen].status == Failed <==> !Clean(s.generations[s.nextGen]))
  {
    hide OnePerUser, Results;
  }

  /** A pass completes the edition exactly if it ends its lap and the lap has decided
      everyone it came to; a lap that ends with anyone undecided gives its generation up. */
  lemma CompletesExactly(s: State, p: PassInput)
    requires Sound(s) && s.lifecycle == Lifecycle.Finalizing
    ensures var o, r := EnsureBuilding(s), Pass(s, p);
      && HasBuilding(o) && o.nextGen in r.generations
      && (r.lifecycle == Lifecycle.Completed <==> EndsLap(o, p) && AllDecided(o, p))
      && (r.generations[o.nextGen].status == Failed <==> EndsLap(o, p) && !AllDecided(o, p))
  {
    var o := EnsureBuilding(s);
    PassEnds(s, p);
    if !Sweep(Page(o, p.batch), p.answers).aborted {
      RecordedCounts(o, p);
      CloseLapExactly(Recorded(o, p), p.names);
    }
    hide Sound, CloseLap, Sweep, Page, AllDecided, Pass, Recorded;
  }

  // ---- what the rows say -------------------------------------------------------------------

  /** Once an edition completes under one history, every row shows the value of the entry's
      frozen basket, carried from the start to the end, at the end set. */
  lemma FinalScoresAre(ed: Edition, terms: Terms, history: seq<Action>, ws: seq<World>, i: nat)
    requires Entering(ed.final) && forall w :: w in ws ==> SameActions(terms, w.history, history)
    requires var r := RunEdition(ed, terms, ws).final; r.lifecycle == Lifecycle.Completed && i < |r.results|
    ensures Sound(ed.final)
    ensures var r := RunEdition(ed, terms, ws);
      var row := r.final.results[i];
      && row.entry in terms.baskets
      && var normalized := AdjustBasket(terms.baskets[row.entry], history, terms.startsAt, terms.endsAt);
      && normalized.Success?
      && Value(normalized.value, r.obs.view, terms.includeFX) == Success(row.score)
  {
    EditionOmitsNobody(ed, terms, history, ws);
    hide Value, AdjustBasket, RunEdition, Sound, Resolved;
  }

  /** With the end set's quotes restated by the splits since the start, that is the value
      the basket as frozen would have at the quotes before any restating. */
  lemma FinalScoresThroughSplits(ed: Edition, terms: Terms, history: seq<Action>, ws: seq<World>, i: nat, raw: View)
    requires Entering(ed.final) && forall w :: w in ws ==> SameActions(terms, w.history, history)
    requires var r := RunEdition(ed, terms, ws);
      && r.final.lifecycle == Lifecycle.Completed && i < |r.final.results|
      && r.final.results[i].entry in terms.baskets
      && var b := terms.baskets[r.final.results[i].entry];
      && AdjustBasket(b, history, terms.startsAt, terms.endsAt).Success?
      && raw.fx == r.obs.view.fx && Rebased(b.positions, terms.includeFX)
      && AllRestated(r.obs.view, raw, b.positions,
           AdjustBasket(b, history, terms.startsAt, terms.endsAt).value.positions, history, terms.startsAt, terms.endsAt)
    ensures var row := RunEdition(ed, terms, ws).final.results[i];
      Value(terms.baskets[row.entry], raw, terms.includeFX) == Success(row.score)
  {
    hide *;
    FinalScoresAre(ed, terms, history, ws, i);
    var r := RunEdition(ed, terms, ws);
    SplitsKeepScore(terms.baskets[r.final.results[i].entry], history, terms.startsAt, terms.endsAt, raw, r.obs.view,
      terms.includeFX);
  }
}
