/** What every run of an edition's finalization passes guarantees. */
module EditionRuns {
  import opened OrderedIds
  import opened RankOrder
  import opened Generations
  import opened Lifecycles
  import opened Finalization
  import opened FinalizationRuns
  import opened FinalizationLimits
  import opened FinalizationProgress
  import opened Valuation
  import opened Observations
  import opened BasketAdjustments
  import opened Editions

  ghost function RunEdition(ed: Edition, terms: Terms, ws: seq<World>): (r: Edition)
    requires Sound(ed.final)
    ensures Sound(r.final)
  {
    if ws == [] then ed
    else
      var before := RunEdition(ed, terms, ws[..|ws| - 1]);
      PassKeepsSound(before.final, InputOf(before, terms, ws[|ws| - 1]));
      Step(before, terms, ws[|ws| - 1])
  }

  /** The pass inputs an edition's run amounts to. */
  ghost function InputsOf(ed: Edition, terms: Terms, ws: seq<World>): seq<PassInput>
    requires Sound(ed.final)
  {
    if ws == [] then []
    else
      var init := ws[..|ws| - 1];
      InputsOf(ed, terms, init) + [InputOf(RunEdition(ed, terms, init), terms, ws[|ws| - 1])]
  }

  lemma ObservedGrows(o: Obs, page: seq<EntryId>, terms: Terms, w: World)
    ensures Grows(o.view, Observed(o, page, terms, w).view)
  {
    if Adjustable(page, terms, w) && w.recordOk {
      CaptureOnlyAdds(o, Baskets(page, terms, w), |page| < w.batch, w.provider);
    }
  }

  lemma ValuedGrows(terms: Terms, history: seq<Action>, v: View, u: View)
    requires Grows(v, u)
    ensures Included(Scores(terms, history, v), Scores(terms, history, u))
  {
    var baskets := Normalized(terms, history);
    forall e | e in baskets && Value(baskets[e], v, terms.includeFX).Success?
      ensures Value(baskets[e], u, terms.includeFX) == Value(baskets[e], v, terms.includeFX)
    {
      ValuationSteady(baskets[e], v, u, terms.includeFX);
    }
  }

  /** The edition after one more pass, and the input that pass amounts to. */
  lemma RunEditionStep(ed: Edition, terms: Terms, ws: seq<World>)
    requires Sound(ed.final) && ws != []
    ensures var init, w := ws[..|ws| - 1], ws[|ws| - 1];
      var before := RunEdition(ed, terms, init);
      && Sound(before.final)
      && RunEdition(ed, terms, ws) == Step(before, terms, w)
      && InputsOf(ed, terms, ws) == InputsOf(ed, terms, init) + [InputOf(before, terms, w)]
  {
    hide Sound, InputOf, Step;
  }

  lemma RunStep(s: State, ps: seq<PassInput>, p: PassInput)
    requires Sound(s)
    ensures Run(s, ps + [p]) == Pass(Run(s, ps), p)
  {
    assert (ps + [p])[..|ps|] == ps;
    hide Sound, Pass;
  }

  lemma StepIsPass(ed: Edition, terms: Terms, w: World)
    requires Sound(ed.final)
    ensures Step(ed, terms, w).final == Pass(ed.final, InputOf(ed, terms, w))
    ensures InputOf(ed, terms, w).answers == AnswersFrom(terms, Step(ed, terms, w).obs.view, w)
    ensures Grows(ed.obs.view, Step(ed, terms, w).obs.view)
  {
    ObservedGrows(ed.obs, Page(EnsureBuilding(ed.final), w.batch), terms, w);
    hide Sound, Pass, Page, Observed, Grows, AnswersFrom;
  }

  /** An edition's runs are runs of passes, whatever happens in them. */
  lemma {:induction false} EditionRunIsRun(ed: Edition, terms: Terms, ws: seq<World>)
    requires Sound(ed.final)
    ensures |InputsOf(ed, terms, ws)| == |ws|
    ensures RunEdition(ed, terms, ws).final == Run(ed.final, InputsOf(ed, terms, ws))
  {
    if ws != [] {
      var init, w := ws[..|ws| - 1], ws[|ws| - 1];
      var before, ps := RunEdition(ed, terms, init), InputsOf(ed, terms, init);
      EditionRunIsRun(ed, terms, init);
      RunEditionStep(ed, terms, ws);
      StepIsPass(before, terms, w);
      RunStep(ed.final, ps, InputOf(before, terms, w));
      hide *;
    }
  }

  /** The same corporate actions fall between the edition's start and its end. */
  ghost predicate SameActions(terms: Terms, h: seq<Action>, g: seq<Action>) {
    Window(h, terms.startsAt, terms.endsAt) == Window(g, terms.startsAt, terms.endsAt)
  }

  lemma {:induction false} SamePositions(ps: seq<Position>, terms: Terms, h: seq<Action>, g: seq<Action>)
    requires SameActions(terms, h, g)
    ensures AdjustAll(ps, h, terms.startsAt, terms.endsAt) == AdjustAll(ps, g, terms.startsAt, terms.endsAt)
  {
    if ps != [] { SamePositions(ps[..|ps| - 1], terms, h, g); }
  }

  /** No other action moves a basket. */
  lemma SameActionsSameBaskets(terms: Terms, h: seq<Action>, g: seq<Action>)
    requires SameActions(terms, h, g)
    ensures Normalized(terms, h) == Normalized(terms, g)
  {
    forall e | e in terms.baskets
      ensures AdjustBasket(terms.baskets[e], h, terms.startsAt, terms.endsAt) ==
              AdjustBasket(terms.baskets[e], g, terms.startsAt, terms.endsAt)
    {
      SamePositions(terms.baskets[e].positions, terms, h, g);
    }
  }

  /** While the actions between start and end stay the same, prices being never taken
      twice, what an entry once scored it scores in every later pass: such runs are runs
      with steady valuations. */
  lemma {:induction false} EditionRunsAreSteady(ed: Edition, terms: Terms, history: seq<Action>, ws: seq<World>)
    requires Sound(ed.final)
    requires forall w :: w in ws ==> SameActions(terms, w.history, history)
    ensures var ps, view := InputsOf(ed, terms, ws), RunEdition(ed, terms, ws).obs.view;
      && Steady(ps)
      && (forall p :: p in ps ==> Included(p.answers.valued, Scores(terms, history, view)))
      && (ws != [] ==> ps != [] && LastValued(ps) == Scores(terms, history, view))
  {
    if ws != [] {
      var init, w := ws[..|ws| - 1], ws[|ws| - 1];
      assert w in ws;
      var before, ps := RunEdition(ed, terms, init), InputsOf(ed, terms, init);
      EditionRunsAreSteady(ed, terms, history, init);
      RunEditionStep(ed, terms, ws);
      SteadyStep(before, terms, history, w);
      SteadyExtends(ps, Scores(terms, history, before.obs.view), InputOf(before, terms, w));
      hide *;
      LastOf(ps, InputOf(before, terms, w));
    }
  }

  lemma LastOf(ps: seq<PassInput>, p: PassInput)
    ensures LastValued(ps + [p]) == p.answers.valued
  {
  }

  lemma SteadyStep(ed: Edition, terms: Terms, history: seq<Action>, w: World)
    requires Sound(ed.final) && SameActions(terms, w.history, history)
    ensures var p, r := InputOf(ed, terms, w), Step(ed, terms, w);
      && p.answers.valued == Scores(terms, history, r.obs.view)
      && Included(Scores(terms, history, ed.obs.view), p.answers.valued)
  {
    StepIsPass(ed, terms, w);
    SameActionsSameBaskets(terms, w.history, history);
    ValuedGrows(terms, history, ed.obs.view, Step(ed, terms, w).obs.view);
    hide Sound, InputOf, Step, Grows, Included, Normalized, SameActions, Valued;
  }

  lemma SteadyExtends(ps: seq<PassInput>, known: map<EntryId, Score>, p: PassInput)
    requires Steady(ps) && Included(known, p.answers.valued)
    requires forall q :: q in ps ==> Included(q.answers.valued, known)
    ensures Steady(ps + [p])
    ensures forall q :: q in ps + [p] ==> Included(q.answers.valued, p.answers.valued)
  {
    forall q | q in ps ensures Included(q.answers.valued, p.answers.valued) {}
    forall i, j | 0 <= i < j < |ps + [p]|
      ensures Included((ps + [p])[i].answers.valued, (ps + [p])[j].answers.valued)
    {
      if j == |ps| { assert ps[i] in ps; }
    }
  }

  /** Over every run of finalization passes on an edition in which the corporate actions
      between start and end stay the same, whatever else the providers and the repository
      do: once it completes, each entry that entered active has exactly one of a result
      row and a reasoned disqualification, and every row shows the score of the final
      observation set, which no retry has repriced. */
  lemma EditionOmitsNobody(ed: Edition, terms: Terms, history: seq<Action>, ws: seq<World>)
    requires Entering(ed.final)
    requires forall w :: w in ws ==> SameActions(terms, w.history, history)
    ensures var r := RunEdition(ed, terms, ws);
      if r.final.lifecycle == Lifecycle.Completed then
        Resolved(r.final, ed.final) && ScoredBy(r.final, Scores(terms, history, r.obs.view))
      else
        r.final.lifecycle == Lifecycle.Finalizing && Accounted(r.final.entries, ed.final.entries) && r.final.results == []
  {
    EditionRunIsRun(ed, terms, ws);
    EditionRunsAreSteady(ed, terms, history, ws);
    NobodyOmitted(ed.final, InputsOf(ed, terms, ws));
    hide Sound, Run, RunEdition, InputsOf, Scores, SameActions, Resolved, ScoredBy, Accounted, Steady, Included;
  }

  /** Without any assumption, even with the corporate actions changing between passes:
      on completion no entry that entered active is without both a result row and a
      reasoned disqualification, and no other entry has either. */
  lemma EditionMissesNobody(ed: Edition, terms: Terms, ws: seq<World>)
    requires Entering(ed.final)
    ensures var r := RunEdition(ed, terms, ws).final;
      r.lifecycle == Lifecycle.Completed ==>
        r.entries.Keys == ed.final.entries.Keys && forall e :: e in ed.final.entries ==> AtLeastOnce(r, ed.final, e)
  {
    EditionRunIsRun(ed, terms, ws);
    NobodyMissing(ed.final, InputsOf(ed, terms, ws));
    hide Sound, Run, RunEdition, InputsOf, AtLeastOnce;
  }

  /** This pass cannot score the entry: its basket cannot be normalized for the actions
      applied by now, or the observation set lacks what the normalized basket needs. */
  ghost predicate Unscored(ed: Edition, terms: Terms, w: World, e: EntryId)
    requires Sound(ed.final)
  {
    e !in Normalized(terms, w.history) ||
    Value(Normalized(terms, w.history)[e], Step(ed, terms, w).obs.view, terms.includeFX).Failure?
  }

  /** Exactly when an entry ends up with both, the actions being free to change: the
      completing pass finds it drafted and disqualified, or finds it drafted, claims it
      past the window and cannot score it any more. */
  lemma EditionDoubleCountedExactly(ed: Edition, terms: Terms, w: World, e: EntryId)
    requires Sound(ed.final) && ed.final.lifecycle == Lifecycle.Finalizing && e in ed.final.entries
    ensures var s, r := ed.final, Step(ed, terms, w).final;
      r.lifecycle == Lifecycle.Completed ==>
        && e in r.entries
        && (HasResult(r, e) && r.entries[e].status == Disqualified <==>
             && HasBuilding(s) && e in s.rows[s.nextGen]
             && (s.entries[e].status == Disqualified ||
                 (w.now > terms.endsAt + terms.window && e in Page(s, w.batch) && Unscored(ed, terms, w, e))))
  {
    DoubleCountedExactly(ed.final, InputOf(ed, terms, w), e);
    StepIsPass(ed, terms, w);
    hide Sound, Pass, HasResult, Normalized, Page, Grows, Observed, Capture;
  }

  // ---- completion ----------------------------------------------------------------

  /** A pass after the deadline with nothing in its way but unpriceable entries. */
  ghost predicate Unhindered(w: World, terms: Terms, batch: Limit) {
    && w.batch == batch && w.now > terms.endsAt + terms.window
    && w.adjustFails == {} && w.recordOk && w.upsertFails == {} && w.strikeFails == {}
    && w.advanceOk && w.closeOk
  }

  /** Every entry's basket can be normalized for this history. */
  ghost predicate AllNormalize(entries: Entries, terms: Terms, history: seq<Action>) {
    entries.Keys <= Normalized(terms, history).Keys
  }

  lemma PassKeepsEntryIds(s: State, p: PassInput)
    requires Sound(s)
    ensures Pass(s, p).entries.Keys == s.entries.Keys
  {
    PassOpens(s, p);
    var o := EnsureBuilding(s);
    SweptSound(o, p);
    RecordedSound(o, p);
    ClosingKeepsEntryIds(Recorded(o, p), p.names);
    hide Sound, Swept, Recorded, CloseLap, Page, Sweep;
  }

  lemma ClosingKeepsEntryIds(s: State, names: map<int, int>)
    requires Sound(s) && HasBuilding(s)
    ensures CloseLap(s, names).entries.Keys == s.entries.Keys
  {
    hide OnePerUser, Results;
  }

  lemma UnhinderedIsSmooth(ed: Edition, terms: Terms, w: World)
    requires Sound(ed.final) && AllNormalize(ed.final.entries, terms, w.history) && Unhindered(w, terms, w.batch)
    ensures Smooth(InputOf(ed, terms, w), w.batch)
  {
    var o := EnsureBuilding(ed.final);
    var page := Page(o, w.batch);
    PageIsActive(o, w.batch);
    forall e | e in page ensures AdjustedEntry(e, terms, w).Success? {
      assert e in Elements(page) && e in Normalized(terms, w.history);
    }
    hide Sound, Capture, Scores;
  }

  lemma {:induction false} UnhinderedRunIsSmooth(ed: Edition, terms: Terms, ws: seq<World>, batch: Limit)
    requires Sound(ed.final)
    requires forall w :: w in ws ==> Unhindered(w, terms, batch) && AllNormalize(ed.final.entries, terms, w.history)
    ensures forall p :: p in InputsOf(ed, terms, ws) ==> Smooth(p, batch)
    ensures RunEdition(ed, terms, ws).final.entries.Keys == ed.final.entries.Keys
  {
    if ws != [] {
      var init, w := ws[..|ws| - 1], ws[|ws| - 1];
      assert w in ws;
      UnhinderedRunIsSmooth(ed, terms, init, batch);
      var before := RunEdition(ed, terms, init);
      RunEditionStep(ed, terms, ws);
      UnhinderedIsSmooth(before, terms, w);
      StepIsPass(before, terms, w);
      PassKeepsEntryIds(before.final, InputOf(before, terms, w));
      hide Sound, InputsOf, RunEdition, InputOf, Step, Pass, Smooth, Normalized;
    }
  }

  /** Once the window is over, 2 * (n / batch + 1) unhindered passes complete an edition
      of n active entries, whatever the price and rate providers answer and however the
      corporate actions change, as long as they can be applied. */
  lemma EditionCompletes(ed: Edition, terms: Terms, ws: seq<World>, batch: Limit)
    requires Sound(ed.final) && ed.final.lifecycle == Lifecycle.Finalizing
    requires forall w :: w in ws ==> Unhindered(w, terms, batch) && AllNormalize(ed.final.entries, terms, w.history)
    requires |ws| >= 2 * (|ActiveIds(ed.final.entries)| / batch + 1)
    ensures RunEdition(ed, terms, ws).final.lifecycle == Lifecycle.Completed
  {
    EditionRunIsRun(ed, terms, ws);
    UnhinderedRunIsSmooth(ed, terms, ws, batch);
    FinalizationCompletes(ed.final, InputsOf(ed, terms, ws), batch);
    hide Sound, InputsOf, RunEdition, Run;
  }
}
