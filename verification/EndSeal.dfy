/** When an edition's end set seals, and whom it then serves. */
module EndSeal {
  import opened OrderedIds
  import opened Generations
  import opened Lifecycles
  import opened Finalization
  import opened FinalizationRuns
  import opened FinalizationProgress
  import opened Outcomes
  import opened Valuation
  import opened Observations
  import opened ValuationLaws
  import opened Sealing
  import opened BasketAdjustments
  import opened Editions
  import opened EditionRuns

  /** A pass seals the set exactly if it claims a short page, the last of its lap, finds
      all that the page asks for, and can store it; a full page never does. */
  lemma SealsExactly(ed: Edition, terms: Terms, w: World)
    requires Sound(ed.final)
    ensures var o := EnsureBuilding(ed.final);
      && HasBuilding(o)
      && var page := Page(o, w.batch);
      && (Step(ed, terms, w).obs.sealed <==>
           ed.obs.sealed ||
           (|page| < w.batch && w.recordOk && Adjustable(page, terms, w) &&
            BatchCaptured(ed.obs, Baskets(page, terms, w), w.provider)))
      && (!ed.obs.sealed && |page| == w.batch ==> !Step(ed, terms, w).obs.sealed)
  {
    hide Sound, Pass, InputOf, Page, BatchCaptured, Baskets, Adjustable;
  }

  // ---- what a pass moves -------------------------------------------------------------------

  /** Only claimed entries stop being active before a lap ends, only unvalued ones of them
      are disqualified, and the cursor moves over the claimed page alone. */
  ghost predicate Moves(s: State, p: PassInput, page: seq<EntryId>, r: State) {
    && r.entries.Keys == s.entries.Keys && ActiveIds(r.entries) <= ActiveIds(s.entries)
    && (!p.prepared ==> r.entries == s.entries && CursorOf(r) == CursorOf(s))
    && (p.prepared && |page| >= p.batch ==>
         && ActiveIds(s.entries) - ActiveIds(r.entries) <= Elements(page)
         && (CursorOf(r) == CursorOf(s) || (page != [] && CursorOf(r) == page[|page| - 1])))
    && (forall e :: e in r.entries && r.entries[e].status == Disqualified ==>
         s.entries[e].status == Disqualified || (p.prepared && e in page && e !in p.answers.valued))
  }

  lemma SweptMoves(o: State, p: PassInput)
    requires Sound(o) && HasBuilding(o) && p.prepared
    ensures Moves(o, p, Page(o, p.batch), Swept(o, p))
    ensures Recorded(o, p).entries == Swept(o, p).entries
    ensures |Page(o, p.batch)| >= p.batch ==> Moves(o, p, Page(o, p.batch), Recorded(o, p))
    ensures HasBuilding(Recorded(o, p)) && Sound(Recorded(o, p))
  {
    var page := Page(o, p.batch);
    SweepAccounts(page, p.answers);
    PageIsActive(o, p.batch);
    RecordedSound(o, p);
    StruckOnly(o.entries, Sweep(page, p.answers).struck);
    assert forall e :: e in Elements(page) <==> e in page;
    hide Sound, Sweep, Page, Strike;
  }

  lemma StruckOnly(entries: Entries, struck: set<EntryId>)
    ensures Strike(entries, struck).Keys == entries.Keys
    ensures ActiveIds(Strike(entries, struck)) == ActiveIds(entries) - struck
    ensures forall e :: e in entries && Strike(entries, struck)[e].status == Disqualified ==>
      e in struck || entries[e].status == Disqualified
  {
  }

  lemma ClosingMoves(s: State, names: map<int, int>)
    requires Sound(s) && HasBuilding(s)
    ensures var r := CloseLap(s, names);
      && r.entries.Keys == s.entries.Keys && ActiveIds(r.entries) <= ActiveIds(s.entries)
      && forall e :: e in r.entries && r.entries[e].status == Disqualified ==> s.entries[e].status == Disqualified
  {
    hide OnePerUser, Results;
  }

  lemma PassMoves(s: State, p: PassInput)
    requires Sound(s)
    ensures HasBuilding(EnsureBuilding(s)) && Moves(s, p, Page(EnsureBuilding(s), p.batch), Pass(s, p))
  {
    PassOpens(s, p);
    PassEnds(s, p);
    var o := EnsureBuilding(s);
    assert CursorOf(o) == CursorOf(s);
    if p.prepared {
      SweptMoves(o, p);
      ClosingMoves(Recorded(o, p), p.names);
    }
    hide Sound, Page, Swept, Recorded, CloseLap, Sweep, Pass;
  }

  // ---- everything answered -----------------------------------------------------------------

  /** The providers have a price for every symbol of the batch, and the rates it takes. */
  ghost predicate AllAnswered(p: Provider, batch: seq<Basket>) {
    && (forall k :: k in Symbols(batch) ==>
         Resolve(p, k).Some? && (Resolve(p, k).value.currency == BASE || Resolve(p, k).value.currency in p.rates))
    && Pairs(batch) <= p.rates.Keys
  }

  lemma AnsweredIsCaptured(o: Obs, batch: seq<Basket>, p: Provider)
    requires AllAnswered(p, batch)
    ensures BatchCaptured(o, batch, p)
  {
    var fetched := FetchedPrices(o.view, Symbols(batch), p);
    hide Symbols, Pairs;
    forall k | k in Symbols(batch) ensures k in Captured(o, batch, p).prices {
      assert k in o.view.prices || k in fetched;
    }
    forall c | c in WantedPairs(Pairs(batch), fetched) ensures c in Captured(o, batch, p).fx {
      assert c in p.rates;
    }
  }

  lemma OfOne(batch: seq<Basket>, b: Basket)
    requires b in batch
    ensures Symbols([b]) <= Symbols(batch) && Pairs([b]) <= Pairs(batch)
  {
  }

  lemma AllOfBatch(batch: seq<Basket>, p: Provider)
    requires forall b :: b in batch ==> AllAnswered(p, [b])
    ensures AllAnswered(p, batch)
  {
    forall k | k in Symbols(batch)
      ensures Resolve(p, k).Some? && (Resolve(p, k).value.currency == BASE || Resolve(p, k).value.currency in p.rates)
    {
      var b, m :| b in batch && m in b.positions && m.included && KeyOf(m.instrument, m.symbol) == k;
      assert b in [b] && k in Symbols([b]);
    }
    forall c | c in Pairs(batch) ensures c in p.rates {
      var b, m :| b in batch && m in b.cash && m.included && m.currency != BASE && m.currency == c;
      assert b in [b] && c in Pairs([b]);
    }
    hide Resolve;
  }

  lemma ScorableParts(v: View, batch: seq<Basket>, b: Basket)
    requires Scorable(v, batch) && b in batch
    ensures Scorable(v, [b])
  {
    OfOne(batch, b);
    hide Symbols, Pairs;
  }

  // ---- over a run --------------------------------------------------------------------------

  /** Everyone the lap has passed, everyone no longer active, and once the set is sealed
      simply everyone can be scored from it. */
  ghost predicate Served(ed: Edition, first: Entries, baskets: map<EntryId, Basket>) {
    && Sound(ed.final)
    && ActiveIds(ed.final.entries) <= ActiveIds(first) <= baskets.Keys
    && (!ed.obs.sealed ==> RatesComplete(ed.obs))
    && forall e :: e in ActiveIds(first) && Reached(ed, e) ==> Scorable(ed.obs.view, [baskets[e]])
  }

  ghost predicate Reached(ed: Edition, e: EntryId) {
    ed.obs.sealed || e !in ActiveIds(ed.final.entries) || e <= CursorOf(ed.final)
  }

  /** Every entry's basket is fully answered in the pass. */
  ghost predicate EveryoneAnswered(first: Entries, baskets: map<EntryId, Basket>, w: World)
    requires ActiveIds(first) <= baskets.Keys
  {
    forall e :: e in ActiveIds(first) ==> AllAnswered(w.provider, [baskets[e]])
  }

  lemma BasketsAre(page: seq<EntryId>, terms: Terms, history: seq<Action>, w: World)
    requires SameActions(terms, w.history, history) && Adjustable(page, terms, w)
    ensures forall e :: e in page ==> e in Normalized(terms, history)
    ensures |Baskets(page, terms, w)| == |page|
    ensures forall i :: 0 <= i < |page| ==>
      page[i] in Normalized(terms, history) && Baskets(page, terms, w)[i] == Normalized(terms, history)[page[i]]
  {
    SameActionsSameBaskets(terms, w.history, history);
    forall e | e in page ensures e in Normalized(terms, history) && AdjustedEntry(e, terms, w) == Success(Normalized(terms, history)[e]) {
      assert AdjustedEntry(e, terms, w).Success?;
      assert e in Normalized(terms, w.history);
    }
    hide AdjustBasket, Normalized, SameActions;
  }

  /** What a pass that gets past its capture leaves in the set. */
  lemma PageIsServed(o: Obs, page: seq<EntryId>, terms: Terms, history: seq<Action>, first: Entries, w: World)
    requires SameActions(terms, w.history, history) && PageReady(o, page, terms, w) && |page| <= w.batch
    requires Elements(page) <= ActiveIds(first) <= Normalized(terms, history).Keys
    requires EveryoneAnswered(first, Normalized(terms, history), w) && !o.sealed && RatesComplete(o)
    ensures var r := Observed(o, page, terms, w);
      && RatesComplete(r) && (r.sealed <==> |page| < w.batch)
      && forall e :: e in page ==> e in Normalized(terms, history) && Scorable(r.view, [Normalized(terms, history)[e]])
  {
    var batch, r := Baskets(page, terms, w), Observed(o, page, terms, w);
    BasketsAre(page, terms, history, w);
    assert r == Capture(o, batch, |page| < w.batch, w.provider);
    hide Normalized, Capture, Baskets, Observed, PageReady, SameActions;
    forall b | b in batch ensures AllAnswered(w.provider, [b]) {
      var i :| 0 <= i < |batch| && batch[i] == b;
      assert page[i] in Elements(page);
    }
    AllOfBatch(batch, w.provider);
    AnsweredIsCaptured(o, batch, w.provider);
    FullCapture(o, Taking(batch, |page| < w.batch, w.provider));
    forall e | e in page ensures Scorable(r.view, [Normalized(terms, history)[e]]) {
      var i :| 0 <= i < |page| && page[i] == e;
      assert batch[i] in batch;
      ScorableParts(r.view, batch, batch[i]);
    }
    hide Scorable, RatesComplete, AllAnswered, BatchCaptured;
  }

  /** The accounting behind it: who is passed, out or claimed. */
  lemma PassedOrClaimed(s: State, p: PassInput, r: State, e: EntryId)
    requires HasBuilding(EnsureBuilding(s)) && p.prepared
    requires var page := Page(EnsureBuilding(s), p.batch);
      Moves(s, p, page, r) && (|page| < p.batch || e !in ActiveIds(r.entries) || e <= CursorOf(r))
    ensures e !in ActiveIds(s.entries) || e <= CursorOf(s) || e in Page(EnsureBuilding(s), p.batch)
  {
    var o := EnsureBuilding(s);
    var live, cursor, page := ActiveIds(s.entries), CursorOf(s), Page(o, p.batch);
    assert page == Claim(live, cursor, p.batch);
    ClaimSplits(live, cursor, p.batch);
    hide Claim, ActiveIds;
    assert e in page <==> e in Elements(page);
    assert e in After(live, cursor) <==> e in live && cursor < e;
    if |page| == p.batch {
      assert e in After(live, page[p.batch - 1]) <==> e in live && page[p.batch - 1] < e;
    }
  }

  lemma ClaimedWereActive(s: State, batch: Limit)
    requires HasBuilding(EnsureBuilding(s))
    ensures Elements(Page(EnsureBuilding(s), batch)) <= ActiveIds(s.entries) && |Page(EnsureBuilding(s), batch)| <= batch
  {
    PageIsActive(EnsureBuilding(s), batch);
    ClaimSplits(ActiveIds(s.entries), CursorOf(s), batch);
  }

  lemma StepServes(ed: Edition, terms: Terms, history: seq<Action>, first: Entries, w: World)
    requires Served(ed, first, Normalized(terms, history)) && SameActions(terms, w.history, history)
    requires EveryoneAnswered(first, Normalized(terms, history), w)
    ensures Served(Step(ed, terms, w), first, Normalized(terms, history))
  {
    var s, p, baskets := ed.final, InputOf(ed, terms, w), Normalized(terms, history);
    var page, next := Page(EnsureBuilding(s), w.batch), Step(ed, terms, w);
    PassMoves(s, p);
    PassKeepsSound(s, p);
    ClaimedWereActive(s, w.batch);
    StepParts(ed, terms, w);
    CapturesOf(ed, terms, history, first, w);
    hide *;
    forall e | e in ActiveIds(first) && Reached(next, e) ensures e in baskets && Scorable(next.obs.view, [baskets[e]]) {
      ServedOne(ed, p, page, next, first, baskets, e);
    }
    AllServed(ed, p, page, next, first, baskets);
  }

  /** What the capture of a pass that goes on adds for the entries of its page. */
  ghost predicate Captures(ed: Edition, p: PassInput, page: seq<EntryId>, next: Edition, baskets: map<EntryId, Basket>) {
    && Grows(ed.obs.view, next.obs.view)
    && (ed.obs.sealed || !p.prepared ==> next.obs == ed.obs)
    && (!ed.obs.sealed && p.prepared ==>
         && RatesComplete(next.obs) && (next.obs.sealed <==> |page| < p.batch)
         && forall e :: e in page ==> e in baskets && Scorable(next.obs.view, [baskets[e]]))
  }

  lemma ServedOne(ed: Edition, p: PassInput, page: seq<EntryId>, next: Edition, first: Entries,
      baskets: map<EntryId, Basket>, e: EntryId)
    requires Served(ed, first, baskets) && HasBuilding(EnsureBuilding(ed.final)) && page == Page(EnsureBuilding(ed.final), p.batch)
    requires Moves(ed.final, p, page, next.final) && Captures(ed, p, page, next, baskets)
    requires e in ActiveIds(first) && Reached(next, e)
    ensures e in baskets && Scorable(next.obs.view, [baskets[e]])
  {
    if !ed.obs.sealed && p.prepared {
      PassedOrClaimed(ed.final, p, next.final, e);
    }
    hide Scorable, Page, Sound, RatesComplete, Grows;
    if Reached(ed, e) { ScorableGrows(ed.obs.view, next.obs.view, [baskets[e]]); }
  }

  lemma AllServed(ed: Edition, p: PassInput, page: seq<EntryId>, next: Edition, first: Entries, baskets: map<EntryId, Basket>)
    requires Served(ed, first, baskets) && Sound(next.final)
    requires Moves(ed.final, p, page, next.final) && Captures(ed, p, page, next, baskets)
    requires forall e :: e in ActiveIds(first) && Reached(next, e) ==> e in baskets && Scorable(next.obs.view, [baskets[e]])
    ensures Served(next, first, baskets)
  {
    hide Scorable, Sound, RatesComplete, Grows, Reached, ActiveIds;
  }

  /** A pass and its capture, one beside the other. */
  lemma StepParts(ed: Edition, terms: Terms, w: World)
    requires Sound(ed.final)
    ensures var p, next := InputOf(ed, terms, w), Step(ed, terms, w);
      && HasBuilding(EnsureBuilding(ed.final))
      && var page := Page(EnsureBuilding(ed.final), w.batch);
      && p.batch == w.batch && next.final == Pass(ed.final, p) && next.obs == Observed(ed.obs, page, terms, w)
      && (p.prepared <==> PageReady(ed.obs, page, terms, w))
      && (ed.obs.sealed ==> next.obs == ed.obs)
      && (!p.prepared ==> next.obs == ed.obs)
  {
    hide Sound, Pass, Page, Baskets;
  }

  lemma CapturesOf(ed: Edition, terms: Terms, history: seq<Action>, first: Entries, w: World)
    requires Served(ed, first, Normalized(terms, history)) && SameActions(terms, w.history, history)
    requires EveryoneAnswered(first, Normalized(terms, history), w)
    ensures HasBuilding(EnsureBuilding(ed.final))
    ensures Captures(ed, InputOf(ed, terms, w), Page(EnsureBuilding(ed.final), w.batch), Step(ed, terms, w), Normalized(terms, history))
  {
    StepParts(ed, terms, w);
    var page := Page(EnsureBuilding(ed.final), w.batch);
    ObservedGrows(ed.obs, page, terms, w);
    ClaimedWereActive(ed.final, w.batch);
    hide Sound, InputOf, Step, Page, EnsureBuilding, Observed, PageReady, Normalized, SameActions, EveryoneAnswered, Scorable,
         RatesComplete, Grows, ActiveIds;
    if !ed.obs.sealed && InputOf(ed, terms, w).prepared {
      PageIsServed(ed.obs, page, terms, history, first, w);
    }
  }

  lemma OpeningServes(ed: Edition, baskets: map<EntryId, Basket>)
    requires Entering(ed.final) && ActiveIds(ed.final.entries) <= baskets.Keys && !ed.obs.sealed && RatesComplete(ed.obs)
    ensures Served(ed, ed.final.entries, baskets)
  {
    hide Scorable, RatesComplete;
  }

  /** Over every run in which the corporate actions between start and end stay the same and
      the providers answer everything the entries need: once the end set is sealed, it
      serves everyone who entered active, however the laps fell and whatever the repository
      did. */
  lemma {:induction false} EndSetServesEveryone(ed: Edition, terms: Terms, history: seq<Action>, ws: seq<World>)
    requires Entering(ed.final) && !ed.obs.sealed && RatesComplete(ed.obs)
    requires ActiveIds(ed.final.entries) <= Normalized(terms, history).Keys
    requires forall w :: w in ws ==>
      SameActions(terms, w.history, history) && EveryoneAnswered(ed.final.entries, Normalized(terms, history), w)
    ensures Served(RunEdition(ed, terms, ws), ed.final.entries, Normalized(terms, history))
    ensures RunEdition(ed, terms, ws).obs.sealed ==>
      forall e :: e in ActiveIds(ed.final.entries) ==>
        Scorable(RunEdition(ed, terms, ws).obs.view, [Normalized(terms, history)[e]])
  {
    var first, baskets := ed.final.entries, Normalized(terms, history);
    if ws == [] {
      OpeningServes(ed, baskets);
    } else {
      var init, w := ws[..|ws| - 1], ws[|ws| - 1];
      assert w in ws;
      EndSetServesEveryone(ed, terms, history, init);
      RunEditionStep(ed, terms, ws);
      StepServes(RunEdition(ed, terms, init), terms, history, first, w);
    }
    SealedServes(RunEdition(ed, terms, ws), first, baskets);
    hide *;
  }

  lemma SealedServes(ed: Edition, first: Entries, baskets: map<EntryId, Basket>)
    ensures Served(ed, first, baskets) && ed.obs.sealed ==>
      forall e :: e in ActiveIds(first) ==> e in baskets && Scorable(ed.obs.view, [baskets[e]])
  {
    hide Scorable, Sound, RatesComplete, ActiveIds;
  }

  // ---- nobody is disqualified for want of a price ------------------------------------------

  ghost predicate NoneStruck(first: Entries, now: Entries) {
    forall e :: e in ActiveIds(first) ==> e in now && now[e].status != Disqualified
  }

  lemma ScorableIsValued(b: Basket, v: View)
    requires b.startValue > 0.0 && Scorable(v, [b])
    ensures Value(b, v, true).Success?
  {
    TotalledExactly(b, v);
    hide BasketTotal, Scorable;
  }

  lemma ClaimedAreValued(ed: Edition, terms: Terms, history: seq<Action>, first: Entries, w: World)
    requires Served(ed, first, Normalized(terms, history)) && SameActions(terms, w.history, history) && terms.includeFX
    requires EveryoneAnswered(first, Normalized(terms, history), w)
    requires forall e :: e in ActiveIds(first) ==> Normalized(terms, history)[e].startValue > 0.0
    ensures HasBuilding(EnsureBuilding(ed.final)) && InputOf(ed, terms, w).batch == w.batch
    ensures InputOf(ed, terms, w).prepared ==>
      forall e :: e in Page(EnsureBuilding(ed.final), w.batch) ==> e in InputOf(ed, terms, w).answers.valued
  {
    CapturesOf(ed, terms, history, first, w);
    StepParts(ed, terms, w);
    StepIsPass(ed, terms, w);
    ClaimedWereActive(ed.final, w.batch);
    SameActionsSameBaskets(terms, w.history, history);
    var page, next := Page(EnsureBuilding(ed.final), w.batch), Step(ed, terms, w);
    hide Sound, InputOf, Step, Page, EnsureBuilding, Observed, PageReady, Normalized, SameActions, EveryoneAnswered, Scorable,
         RatesComplete, Grows, ActiveIds, Value;
    if InputOf(ed, terms, w).prepared {
      forall e | e in page ensures e in InputOf(ed, terms, w).answers.valued {
        assert e in Elements(page);
        assert ed.obs.sealed ==> Reached(ed, e);
        assert Scorable(next.obs.view, [Normalized(terms, history)[e]]);
        ScorableIsValued(Normalized(terms, history)[e], next.obs.view);
      }
    }
  }

  /** Then, with currency effects in the score, nobody who entered active with a positive
      starting value is ever disqualified, in whatever passes it takes. */
  lemma {:induction false} AnsweredNobodyStruck(ed: Edition, terms: Terms, history: seq<Action>, ws: seq<World>)
    requires Entering(ed.final) && !ed.obs.sealed && RatesComplete(ed.obs) && terms.includeFX
    requires ActiveIds(ed.final.entries) <= Normalized(terms, history).Keys
    requires forall e :: e in ActiveIds(ed.final.entries) ==> Normalized(terms, history)[e].startValue > 0.0
    requires forall w :: w in ws ==>
      SameActions(terms, w.history, history) && EveryoneAnswered(ed.final.entries, Normalized(terms, history), w)
    ensures NoneStruck(ed.final.entries, RunEdition(ed, terms, ws).final.entries)
  {
    var first := ed.final.entries;
    if ws != [] {
      var init, w := ws[..|ws| - 1], ws[|ws| - 1];
      assert w in ws;
      AnsweredNobodyStruck(ed, terms, history, init);
      EndSetServesEveryone(ed, terms, history, init);
      RunEditionStep(ed, terms, ws);
      var before := RunEdition(ed, terms, init);
      ClaimedAreValued(before, terms, history, first, w);
      StepIsPass(before, terms, w);
      PassMoves(before.final, InputOf(before, terms, w));
      hide Sound, RunEdition, InputOf, Step, Pass, Page, EnsureBuilding, Served, Normalized, SameActions, EveryoneAnswered,
           RatesComplete, ActiveIds, HasBuilding, CursorOf;
    }
  }
}
