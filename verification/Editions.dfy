/** One edition's finalization as the worker really runs it: entries priced from the
    shared end observation set, drafts and results in the store. */
module Editions {
  import opened OrderedIds
  import opened RankOrder
  import opened Generations
  import opened Lifecycles
  import opened Finalization
  import opened Outcomes
  import opened Valuation
  import opened Observations
  import opened BasketAdjustments
  import FinalizationStore

  /** What stays fixed: the schedule, the scoring policy, and each entry's basket as it
      was frozen at the baseline. */
  datatype Terms = Terms(startsAt: int, endsAt: int, window: nat, includeFX: bool, baskets: map<EntryId, Basket>)

  /** What one pass meets. The corporate actions applied so far are read afresh in every
      pass; `adjustFails` are the entries whose reading of them fails. */
  datatype World = World(
    now: int, batch: Limit, history: seq<Action>, provider: Provider, names: map<int, int>,
    adjustFails: set<EntryId>, recordOk: bool,
    upsertFails: set<EntryId>, strikeFails: set<EntryId>, advanceOk: bool, closeOk: bool)

  datatype Edition = Edition(final: State, obs: Obs)

  /** The frozen baskets that the actions up to the end carry somewhere. */
  function Normalized(terms: Terms, history: seq<Action>): map<EntryId, Basket> {
    map e | e in terms.baskets && AdjustBasket(terms.baskets[e], history, terms.startsAt, terms.endsAt).Success? ::
      AdjustBasket(terms.baskets[e], history, terms.startsAt, terms.endsAt).value
  }

  /** One entry's normalized basket, or why this pass cannot have it. */
  function AdjustedEntry(e: EntryId, terms: Terms, w: World): Result<Basket> {
    if e !in terms.baskets || e in w.adjustFails then Failure(BasketUnavailable)
    else AdjustBasket(terms.baskets[e], w.history, terms.startsAt, terms.endsAt)
  }

  predicate Adjustable(page: seq<EntryId>, terms: Terms, w: World) {
    forall e :: e in page ==> AdjustedEntry(e, terms, w).Success?
  }

  function Baskets(page: seq<EntryId>, terms: Terms, w: World): seq<Basket>
    requires Adjustable(page, terms, w)
  {
    seq(|page|, i requires 0 <= i < |page| => AdjustedEntry(page[i], terms, w).value)
  }

  /** The observation set after the pass. */
  ghost function Observed(o: Obs, page: seq<EntryId>, terms: Terms, w: World): Obs {
    if Adjustable(page, terms, w) && w.recordOk then Capture(o, Baskets(page, terms, w), |page| < w.batch, w.provider)
    else o
  }

  ghost predicate PageReady(o: Obs, page: seq<EntryId>, terms: Terms, w: World) {
    Adjustable(page, terms, w) &&
    (w.recordOk || Capture(o, Baskets(page, terms, w), |page| < w.batch, w.provider) == o)
  }

  function Scores(terms: Terms, history: seq<Action>, v: View): map<EntryId, Score> {
    Valued(Normalized(terms, history), terms.includeFX, v)
  }

  function AnswersFrom(terms: Terms, v: View, w: World): Answers {
    Answers(Scores(terms, w.history, v), w.upsertFails, w.now > terms.endsAt + terms.window, w.strikeFails)
  }

  ghost function InputOf(ed: Edition, terms: Terms, w: World): PassInput
    requires Sound(ed.final)
  {
    var page := Page(EnsureBuilding(ed.final), w.batch);
    PassInput(w.batch, AnswersFrom(terms, Observed(ed.obs, page, terms, w).view, w),
      PageReady(ed.obs, page, terms, w), w.advanceOk, w.closeOk, w.names)
  }

  ghost function Step(ed: Edition, terms: Terms, w: World): Edition
    requires Sound(ed.final)
  {
    var page := Page(EnsureBuilding(ed.final), w.batch);
    Edition(Pass(ed.final, InputOf(ed, terms, w)), Observed(ed.obs, page, terms, w))
  }

  // ---- the worker --------------------------------------------------------------

  /** What one visit adds to the writes so far. */
  lemma ApplyVisit(s: State, t: Tally, e: EntryId, a: Answers)
    requires s.nextGen in s.rows && e in s.entries && !t.aborted && e !in t.struck
    ensures var before, after := Apply(s, t), Apply(s, Visit(t, e, a));
      && before.nextGen == s.nextGen && s.nextGen in before.rows
      && e in before.entries && before.entries[e] == s.entries[e]
      && after ==
           if e in a.valued && e !in a.upsertFails then
             before.(rows := before.rows[s.nextGen := Put(before.rows[s.nextGen], e, a.valued[e])])
           else if e !in a.valued && a.late && e !in a.strikeFails then
             before.(entries := before.entries[e := s.entries[e].(status := Disqualified, reason := LATE_REASON)])
           else before
  {
    if e in a.valued && e !in a.upsertFails {
      assert s.rows[s.nextGen] + Put(t.drafts, e, a.valued[e]) == Put(s.rows[s.nextGen] + t.drafts, e, a.valued[e]);
    }
  }

  /** What the sweep is told of an entry is what pricing its normalized basket gives. */
  lemma AnswersAre(e: EntryId, terms: Terms, v: View, w: World, basket: Basket)
    requires AdjustedEntry(e, terms, w) == Success(basket)
    ensures var a, score := AnswersFrom(terms, v, w), Value(basket, v, terms.includeFX);
      && (e in a.valued <==> score.Success?)
      && (e in a.valued ==> a.valued[e] == score.value)
      && (a.late <==> w.now > terms.endsAt + terms.window)
      && a.upsertFails == w.upsertFails && a.strikeFails == w.strikeFails
  {
    hide Value, AdjustBasket;
  }

  /** The generation the pass is building is there to be written. */
  ghost predicate Writable(now: State, s: State, t: Tally, e: EntryId) {
    && s.nextGen in s.rows && e in s.entries && s.entries[e].status == EntryStatus.Active
    && now == Apply(s, t) && Sound(now) && HasBuilding(now)
    && !t.aborted && e !in t.struck
  }

  /** Drafts the row of an entry that could be valued. */
  method DraftRow(store: FinalizationStore.Store, number: nat, e: EntryId, score: Score, w: World,
                  t0: Tally, ghost s: State, ghost a: Answers) returns (t: Tally)
    requires Writable(store.Now(), s, t0, e) && number == s.nextGen
    requires e in a.valued && a.valued[e] == score && a.upsertFails == w.upsertFails
    modifies store`rows
    ensures t == Visit(t0, e, a)
    ensures store.Now() == Apply(s, t)
  {
    ApplyVisit(s, t0, e, a);
    hide Apply;
    var written := store.UpsertRow(number, e, score, e !in w.upsertFails);
    if written.Failure? {
      t := t0.(processed := t0.processed + 1, writeFailed := true);
    } else {
      t := t0.(processed := t0.processed + 1, successful := t0.successful + 1, drafts := Put(t0.drafts, e, score));
    }
  }

  /** Disqualifies an entry that could not be valued in time. */
  method StrikeOut(store: FinalizationStore.Store, e: EntryId, w: World,
                   t0: Tally, ghost s: State, ghost a: Answers) returns (t: Tally)
    requires Writable(store.Now(), s, t0, e)
    requires e !in a.valued && a.late && a.strikeFails == w.strikeFails
    modifies store`entries
    ensures t == Visit(t0, e, a)
    ensures store.Now() == Apply(s, t)
  {
    ApplyVisit(s, t0, e, a);
    hide Apply, Sound, LATE_REASON, Put;
    var struck := store.DisqualifyEntry(e, LATE_REASON, e !in w.strikeFails);
    if struck.Failure? {
      t := t0.(aborted := true);
    } else {
      t := t0.(processed := t0.processed + 1, struck := t0.struck + {e});
    }
  }

  /** One claimed entry: value it and draft its row; failing that, past the window
      disqualify it, inside the window count it for a retry. */
  method VisitEntry(store: FinalizationStore.Store, number: nat, e: EntryId, basket: Basket,
                    terms: Terms, v: View, w: World, t0: Tally, ghost s: State) returns (t: Tally)
    requires Writable(store.Now(), s, t0, e) && number == s.nextGen
    requires AdjustedEntry(e, terms, w) == Success(basket)
    modifies store
    ensures t == Visit(t0, e, AnswersFrom(terms, v, w))
    ensures store.Now() == Apply(s, t)
  {
    ghost var a := AnswersFrom(terms, v, w);
    AnswersAre(e, terms, v, w, basket);
    ApplyVisit(s, t0, e, a);
    hide Sound, Value, AnswersFrom, AdjustedEntry, Apply;
    var score := ValueEntry(basket, v, terms.includeFX);
    if score.Success? {
      t := DraftRow(store, number, e, score.value, w, t0, s, a);
    } else if w.now > terms.endsAt + terms.window {
      t := StrikeOut(store, e, w, t0, s, a);
    } else {
      t := t0.(processed := t0.processed + 1, failed := t0.failed + 1);
    }
  }

  /** Sweeps one claimed page against the captured view. */
  method SweepPage(store: FinalizationStore.Store, number: nat, page: seq<EntryId>, baskets: seq<Basket>,
                   terms: Terms, v: View, w: World, ghost s: State) returns (t: Tally)
    requires Sound(s) && HasBuilding(s) && store.Now() == s && number == s.nextGen
    requires page == Page(s, w.batch)
    requires Adjustable(page, terms, w) && baskets == Baskets(page, terms, w)
    modifies store
    ensures t == Sweep(page, AnswersFrom(terms, v, w))
    ensures store.Now() == Apply(s, t)
  {
    hide OnePerUser, AnswersFrom;
    ghost var a := AnswersFrom(terms, v, w);
    t := NO_TALLY;
    ApplyNothing(s);
    var i := 0;
    while i < |page| && !t.aborted
      invariant 0 <= i <= |page|
      invariant t == Sweep(page[..i], a)
      invariant store.Now() == Apply(s, t)
    {
      SweptStateSound(s, w, a, page, i);
      assert page[..i + 1][..i] == page[..i] && page[..i + 1][i] == page[i];
      t := VisitEntry(store, number, page[i], baskets[i], terms, v, w, t, s);
      i := i + 1;
    }
    if t.aborted {
      SweepAborts(page, a, i);
    } else {
      assert page[..i] == page;
    }
  }

  lemma ApplyNothing(s: State)
    requires s.nextGen in s.rows
    ensures Apply(s, NO_TALLY) == s
  {
    assert Strike(s.entries, {}) == s.entries;
    assert s.rows[s.nextGen] + map[] == s.rows[s.nextGen];
  }

  lemma SweptStateSound(s: State, w: World, a: Answers, page: seq<EntryId>, i: nat)
    requires Sound(s) && HasBuilding(s) && page == Page(s, w.batch) && i <= |page|
    ensures Sound(Apply(s, Sweep(page[..i], a))) && HasBuilding(Apply(s, Sweep(page[..i], a)))
    ensures i < |page| ==> page[i] in ActiveIds(s.entries) && page[i] !in Sweep(page[..i], a).struck
  {
    SweepAccounts(page[..i], a);
    FirstOfIsAscending(After(ActiveIds(s.entries), s.generations[s.nextGen].cursor), w.batch);
    PageIsActive(s, w.batch);
    PrefixElements(page, i);
    hide Sound, HasBuilding, Apply, Sweep, Page, ActiveIds;
    ApplySound(s, Sweep(page[..i], a));
  }

  lemma PrefixElements(page: seq<EntryId>, i: nat)
    requires i <= |page| && forall a, b :: 0 <= a < b < |page| ==> page[a] < page[b]
    ensures Elements(page[..i]) <= Elements(page)
    ensures i < |page| ==> page[i] in Elements(page) && page[i] !in Elements(page[..i])
  {
  }

  lemma {:induction false} SweepAborts(page: seq<EntryId>, a: Answers, i: nat)
    requires i <= |page| && Sweep(page[..i], a).aborted
    ensures Sweep(page, a) == Sweep(page[..i], a)
  {
    if i == |page| {
      assert page[..i] == page;
    } else {
      assert page[..|page| - 1][..i] == page[..i];
      SweepAborts(page[..|page| - 1], a, i);
    }
  }

  /** Normalizes the page's baskets, failing with the first that cannot be. */
  method AdjustPage(page: seq<EntryId>, terms: Terms, w: World) returns (r: Result<seq<Basket>>)
    ensures r.Success? <==> Adjustable(page, terms, w)
    ensures r.Success? ==> r.value == Baskets(page, terms, w)
    ensures r.Failure? ==> exists i ::
      0 <= i < |page| && Adjustable(page[..i], terms, w) && AdjustedEntry(page[i], terms, w) == Failure(r.error)
  {
    var out: seq<Basket> := [];
    for i := 0 to |page|
      invariant |out| == i
      invariant forall k :: 0 <= k < i ==> AdjustedEntry(page[k], terms, w) == Success(out[k])
    {
      assert Adjustable(page[..i], terms, w) && page[i] in page;
      if page[i] !in terms.baskets || page[i] in w.adjustFails {
        return Failure(BasketUnavailable);
      }
      var adjusted := AdjustedEntryBasket(terms.baskets[page[i]], w.history, terms.startsAt, terms.endsAt);
      if adjusted.Failure? {
        return adjusted.PropagateFailure();
      }
      out := out + [adjusted.value];
    }
    r := Success(out);
  }

  /** The three ways a pass can go on from the opened state. */
  lemma StepCases(ed: Edition, terms: Terms, w: World)
    requires Sound(ed.final)
    ensures var o, p := EnsureBuilding(ed.final), InputOf(ed, terms, w);
      && Sound(o) && HasBuilding(o) && o.lifecycle == ed.final.lifecycle
      && var page := Page(o, w.batch);
        var t := Sweep(page, p.answers);
      && Step(ed, terms, w).obs == Observed(ed.obs, page, terms, w)
      && p.answers == AnswersFrom(terms, Observed(ed.obs, page, terms, w).view, w)
      && (p.prepared <==> PageReady(ed.obs, page, terms, w))
      && p.batch == w.batch && p.advanceOk == w.advanceOk && p.closeOk == w.closeOk && p.names == w.names
      && Step(ed, terms, w).final ==
        (if !p.prepared then o else if t.aborted || !w.advanceOk then Apply(o, t) else Pass(o, p))
  {
    PassOpens(ed.final, InputOf(ed, terms, w));
    hide Sound, OnePerUser, Recorded, CloseLap, Sweep, Claim, Observed, PageReady;
  }

  /** One bounded finalization pass, with each of its early returns. Success(true) is
      the call that completes the edition. */
  method FinalizeEdition(store: FinalizationStore.Store, obs: ObservationSet, terms: Terms,
      w: World) returns (r: Result<bool>)
    requires Sound(store.Now())
    modifies store, obs
    ensures Edition(store.Now(), obs.State()) == Step(Edition(old(store.Now()), old(obs.State())), terms, w)
    ensures old(store.lifecycle) == Lifecycle.Finalizing ==>
      (r == Success(true) <==> store.lifecycle == Lifecycle.Completed)
  {
    ghost var ed := Edition(store.Now(), obs.State());
    StepCases(ed, terms, w);
    hide Sound, Step, Pass, Sweep, Capture, Scores, InputOf, AnswersFrom;
    var number, g := store.EnsureBuildingGeneration();
    ghost var s := store.Now();
    ghost var p := InputOf(ed, terms, w);
    var page := ClaimActive(store.entries, g.cursor, w.batch);
    assert page == Page(s, w.batch);
    var lapComplete := |page| < w.batch;
    var adjusted := AdjustPage(page, terms, w);
    if adjusted.Failure? {
      return adjusted.PropagateFailure();
    }
    var captured := CaptureObservations(obs, adjusted.value, lapComplete, w.provider, w.recordOk);
    if captured.Failure? {
      return captured.PropagateFailure();
    }
    var t := SweepPage(store, number, page, adjusted.value, terms, captured.value, w, s);
    if t.aborted || !w.advanceOk {
      return Failure(StoreUnavailable);
    }
    r := RecordAndClose(store, number, g.cursor, page, t, w, s, p);
  }

  /** What is left of a pass whose sweep went through. */
  lemma PassRecords(s: State, p: PassInput, t: Tally)
    requires Sound(s) && HasBuilding(s) && p.prepared && p.advanceOk
    requires t == Sweep(Page(s, p.batch), p.answers) && !t.aborted
    ensures Recorded(s, p) == Record(Apply(s, t), NextCursor(s.generations[s.nextGen].cursor, Page(s, p.batch), p.batch), t)
    ensures Sound(Recorded(s, p)) && HasBuilding(Recorded(s, p)) && Recorded(s, p).lifecycle == s.lifecycle
    ensures Pass(s, p) ==
      if |Page(s, p.batch)| >= p.batch || !p.closeOk then Recorded(s, p) else CloseLap(Recorded(s, p), p.names)
  {
    RecordedSound(s, p);
    assert EnsureBuilding(s) == s;
    hide OnePerUser, Sweep, Page, CloseLap;
  }

  /** Adds the swept page's counts and moves the cursor behind it. */
  method RecordCoverage(store: FinalizationStore.Store, number: nat, cursor0: nat, page: seq<EntryId>, t: Tally, w: World)
    requires number == store.nextGen && number in store.generations && cursor0 == store.generations[number].cursor
    modifies store
    ensures store.Now() == Record(old(store.Now()), NextCursor(cursor0, page, w.batch), t)
  {
    var cursor := cursor0;
    if page != [] {
      cursor := page[|page| - 1];
    }
    if |page| < w.batch {
      cursor := 0;
    }
    var advanced := store.AdvanceGeneration(number, cursor, t.processed, t.successful, t.failed, t.writeFailed);
  }

  /** Records the swept page's coverage and, on a short page, ends the lap. */
  method RecordAndClose(store: FinalizationStore.Store, number: nat, cursor0: nat, page: seq<EntryId>, t: Tally,
                        w: World, ghost s: State, ghost p: PassInput) returns (r: Result<bool>)
    requires Sound(s) && HasBuilding(s) && number == s.nextGen && cursor0 == s.generations[number].cursor
    requires p.batch == w.batch && p.prepared && p.advanceOk && p.closeOk == w.closeOk && p.names == w.names
    requires page == Page(s, w.batch) && t == Sweep(page, p.answers) && !t.aborted
    requires store.Now() == Apply(s, t)
    modifies store
    ensures store.Now() == Pass(s, p)
    ensures s.lifecycle == Lifecycle.Finalizing ==>
      (r == Success(true) <==> store.lifecycle == Lifecycle.Completed)
  {
    PassRecords(s, p, t);
    hide Sound, Sweep, Page, Pass, CloseLap, Recorded;
    RecordCoverage(store, number, cursor0, page, t, w);
    if |page| >= w.batch {
      return Success(false);
    }
    if !w.closeOk {
      return Failure(StoreUnavailable);
    }
    r := EndLap(store, number, w.names);
  }

  /** Fails an incomplete generation, promotes a clean one. */
  method EndLap(store: FinalizationStore.Store, number: nat, names: map<int, int>) returns (r: Result<bool>)
    requires Sound(store.Now()) && HasBuilding(store.Now()) && number == store.nextGen
    modifies store
    ensures store.Now() == CloseLap(old(store.Now()), names)
    ensures old(store.lifecycle) == Lifecycle.Finalizing ==>
      (r == Success(true) <==> store.lifecycle == Lifecycle.Completed)
  {
    hide OnePerUser, Results;
    if !Clean(store.generations[number]) {
      var failed := store.FailGeneration(number);
      return Success(false);
    }
    var promoted := store.PromoteGeneration(number, names);
    r := if promoted.Success? then Success(true) else promoted.PropagateFailure();
  }
}
