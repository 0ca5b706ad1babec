/** A rename applied between two passes leaves an entry with a result and a
    disqualification. */
module Renames {
  import opened OrderedIds
  import opened Generations
  import opened Lifecycles
  import opened Finalization
  import opened FinalizationRuns
  import opened FinalizationLimits
  import opened Outcomes
  import opened Valuation
  import opened Observations
  import opened BasketAdjustments
  import opened Editions
  import opened EditionRuns

  /** One share held by ticker, and a rename of it that takes effect before the end. */
  const RENAMED := [Action(20, 1, "", "SAP", SymbolChange(Some("SAPX")))]
  const QUOTED := Provider(map[], map[Ticker("SAP") := Quote(110.0, BASE), Ticker("SAPX") := Quote(110.0, BASE)], map[])
  const ONE_DAY := Terms(0, 50, 10, true, map[1 := SHARE])

  /** A late pass before the rename is applied, which dies before recording its
      progress, and a late pass after it. */
  const BEFORE_RENAME := World(100, 2, [], QUOTED, map[], {}, true, {}, {}, false, true)
  const AFTER_RENAME := World(101, 2, RENAMED, QUOTED, map[], {}, true, {}, {}, true, true)
  const ENTERED := Edition(SOLO, NOTHING_YET)

  /** The share as each pass normalizes it. */
  const UNDER_OLD_NAME := Basket(100.0, [SAP.(original := 1.0)], [])
  const UNDER_NEW_NAME := Basket(100.0, [SAP.(original := 1.0, symbol := "SAPX")], [])

  /** What the first pass seals. */
  const OLD_NAME_SEALED := Obs(View(map[Ticker("SAP") := Quote(110.0, BASE)], map[]), true)

  /** The first pass drafts the entry and seals the set under the old ticker; the second
      looks for the new one, which nobody may add any more, and disqualifies the entry
      beside its draft. */
  lemma RenameBetweenPassesDoubleCounts()
    ensures Entering(ENTERED.final) && 1 in ENTERED.final.entries
    ensures var s := RunEdition(ENTERED, ONE_DAY, [BEFORE_RENAME, AFTER_RENAME]).final;
      && s.lifecycle == Lifecycle.Completed && HasResult(s, 1)
      && 1 in s.entries && s.entries[1].status == Disqualified
  {
    hide *;
    SoloEnters();
    EnteredIsSolo();
    TwoPasses();
    var mid := Step(ENTERED, ONE_DAY, BEFORE_RENAME);
    BeforeRename();
    AfterRename(mid);
    StepIsPass(mid, ONE_DAY, AFTER_RENAME);
    DraftThenStrike(mid.final, InputOf(mid, ONE_DAY, AFTER_RENAME));
  }

  lemma TwoPasses()
    ensures Sound(ENTERED.final)
    ensures var mid := Step(ENTERED, ONE_DAY, BEFORE_RENAME);
      Sound(mid.final) && RunEdition(ENTERED, ONE_DAY, [BEFORE_RENAME, AFTER_RENAME]) == Step(mid, ONE_DAY, AFTER_RENAME)
  {
    hide *;
    EnteredIsSolo();
    var ws := [BEFORE_RENAME, AFTER_RENAME];
    assert ws[..1] == [BEFORE_RENAME] && ws[..1][..0] == [];
    RunEditionStep(ENTERED, ONE_DAY, ws);
    RunEditionStep(ENTERED, ONE_DAY, ws[..1]);
    NoPasses(ENTERED, ONE_DAY);
  }

  lemma NoPasses(ed: Edition, terms: Terms)
    requires Sound(ed.final)
    ensures RunEdition(ed, terms, []) == ed
  {
    hide Sound, Step;
  }

  lemma RenameApplies()
    ensures Adjust([], "", Holding("SAP", 1.0), 0, 50) == Success(Holding("SAP", 1.0))
    ensures Adjust(RENAMED, "", Holding("SAP", 1.0), 0, 50) == Success(Holding("SAPX", 1.0))
  {
    assert RENAMED[..0] == [];
    assert Window(RENAMED, 0, 50) == RENAMED;
    assert ApplyAction(RENAMED[0], "", Holding("SAP", 1.0)) == Success(Holding("SAPX", 1.0));
  }

  lemma NormalizedShare()
    ensures Normalized(ONE_DAY, []) == map[1 := UNDER_OLD_NAME]
    ensures Normalized(ONE_DAY, RENAMED) == map[1 := UNDER_NEW_NAME]
  {
    RenameApplies();
    hide RENAMED, Adjust, AdjustAll;
    OnePosition(SAP, [], Holding("SAP", 1.0));
    OnePosition(SAP, RENAMED, Holding("SAPX", 1.0));
  }

  lemma OnePosition(p: Position, history: seq<Action>, h: Holding)
    requires p.included && Adjust(history, p.instrument, Holding(p.symbol, p.quantity), 0, 50) == Success(h)
    ensures AdjustAll([p], history, 0, 50) == Success([p.(original := p.quantity, symbol := h.symbol, quantity := h.quantity)])
  {
    assert [p][..0] == [];
    assert AdjustAll([], history, 0, 50) == Success([]);
    var adjusted := p.(original := p.quantity, symbol := h.symbol, quantity := h.quantity);
    assert AdjustOne(p, history, 0, 50) == Success(adjusted);
    assert [] + [adjusted] == [adjusted];
  }

  lemma OneShareAt(b: Basket, key: Valuation.Key, v: View)
    requires (b == UNDER_OLD_NAME && key == Ticker("SAP")) || (b == UNDER_NEW_NAME && key == Ticker("SAPX"))
    requires key in v.prices ==> v.prices[key].currency == BASE
    ensures Symbols([b]) == {key} && Pairs([b]) == {}
    ensures Value(b, v, true).Success? <==> key in v.prices
  {
    assert b.positions[0] in b.positions && [b][0] == b;
    assert Symbols([b]) == {key};
    var p := b.positions[0];
    assert b.positions == [p] && [p][..0] == [] && b.cash == [];
    assert PositionsTotal([], v, true) == Success(0.0);
    assert PositionsTotal([p], v, true).Success? <==> PositionValue(p, v, true).Success?;
  }

  lemma SealsOldName()
    ensures Capture(NOTHING_YET, [UNDER_OLD_NAME], true, QUOTED) == OLD_NAME_SEALED
  {
    OneShareAt(UNDER_OLD_NAME, Ticker("SAP"), View(map[], map[]));
    var fetched := FetchedPrices(NOTHING_YET.view, {Ticker("SAP")}, QUOTED);
    assert fetched == map[Ticker("SAP") := Quote(110.0, BASE)];
    assert WantedPairs({}, fetched) == {};
    assert FetchedRates(NOTHING_YET.view, {}, QUOTED) == map[];
  }

  lemma BeforeRename()
    ensures Sound(ENTERED.final) && Sound(Step(ENTERED, ONE_DAY, BEFORE_RENAME).final)
    ensures var s := Step(ENTERED, ONE_DAY, BEFORE_RENAME).final;
      && s.lifecycle == Lifecycle.Finalizing && HasBuilding(s) && s.nextGen in s.rows
      && s.generations[s.nextGen] == NEW_GENERATION && 1 in s.rows[s.nextGen]
      && ActiveIds(s.entries) == {1} && 1 in s.entries
    ensures Step(ENTERED, ONE_DAY, BEFORE_RENAME).obs == OLD_NAME_SEALED
  {
    hide *;
    SoloEnters();
    FirstInput();
    StepIsPass(ENTERED, ONE_DAY, BEFORE_RENAME);
    var p := InputOf(ENTERED, ONE_DAY, BEFORE_RENAME);
    EnteredIsSolo();
    PassKeepsSound(SOLO, p);
    AbandonedPassLeavesDraft(SOLO, p);
    RunStep(SOLO, [], p);
    assert [] + [p] == [p];
  }

  lemma EnteredIsSolo()
    ensures ENTERED.final == SOLO && SOLO.nextGen == 0 && Sound(SOLO) && 1 in SOLO.entries && Run(SOLO, []) == SOLO
  {
  }

  lemma SoloPage()
    ensures Sound(SOLO) && HasBuilding(EnsureBuilding(SOLO)) && Page(EnsureBuilding(SOLO), 2) == [1]
  {
    SoloEnters();
    OneEntryPage();
    hide Claim;
  }

  lemma FirstInput()
    ensures Sound(ENTERED.final)
    ensures var p := InputOf(ENTERED, ONE_DAY, BEFORE_RENAME);
      && p.batch == 2 && p.prepared && !p.advanceOk && p.answers.upsertFails == {} && 1 in p.answers.valued
    ensures Step(ENTERED, ONE_DAY, BEFORE_RENAME).obs == OLD_NAME_SEALED
  {
    SoloPage();
    FirstCapture();
    FirstScore();
    hide Observed, PageReady, AnswersFrom, Page, EnsureBuilding, Sound, HasBuilding, Pass, OLD_NAME_SEALED, SOLO;
  }

  lemma FirstCapture()
    ensures PageReady(NOTHING_YET, [1], ONE_DAY, BEFORE_RENAME)
    ensures Observed(NOTHING_YET, [1], ONE_DAY, BEFORE_RENAME) == OLD_NAME_SEALED
  {
    NormalizedShare();
    SealsOldName();
    hide Capture, AdjustBasket, QUOTED, OLD_NAME_SEALED, UNDER_OLD_NAME;
    assert 1 in Normalized(ONE_DAY, []);
    assert Baskets([1], ONE_DAY, BEFORE_RENAME) == [UNDER_OLD_NAME];
  }

  lemma FirstScore()
    ensures var a := AnswersFrom(ONE_DAY, OLD_NAME_SEALED.view, BEFORE_RENAME); 1 in a.valued && a.upsertFails == {}
  {
    NormalizedShare();
    OneShareAt(UNDER_OLD_NAME, Ticker("SAP"), OLD_NAME_SEALED.view);
    hide Value, Normalized;
  }

  lemma AfterRename(mid: Edition)
    requires Sound(mid.final) && HasBuilding(mid.final) && mid.obs == OLD_NAME_SEALED
    requires mid.final.generations[mid.final.nextGen] == NEW_GENERATION && ActiveIds(mid.final.entries) == {1}
    ensures var p := InputOf(mid, ONE_DAY, AFTER_RENAME);
      && p.batch == 2 && p.prepared && p.advanceOk && p.closeOk
      && p.answers.valued == map[] && p.answers.late && p.answers.strikeFails == {}
  {
    SamePage(mid.final);
    SecondCapture();
    SecondScore();
    hide Sound, HasBuilding, Page, EnsureBuilding, Observed, PageReady, AnswersFrom, OLD_NAME_SEALED;
  }

  lemma SamePage(s: State)
    requires HasBuilding(s) && s.generations[s.nextGen] == NEW_GENERATION && ActiveIds(s.entries) == {1}
    ensures EnsureBuilding(s) == s && Page(s, 2) == [1]
  {
    OneEntryPage();
    hide Claim, ActiveIds;
  }

  lemma SecondCapture()
    ensures PageReady(OLD_NAME_SEALED, [1], ONE_DAY, AFTER_RENAME)
    ensures Observed(OLD_NAME_SEALED, [1], ONE_DAY, AFTER_RENAME) == OLD_NAME_SEALED
  {
    NormalizedShare();
    hide AdjustBasket, QUOTED, UNDER_NEW_NAME;
    assert 1 in Normalized(ONE_DAY, RENAMED);
  }

  lemma SecondScore()
    ensures var a := AnswersFrom(ONE_DAY, OLD_NAME_SEALED.view, AFTER_RENAME);
      a.valued == map[] && a.late && a.strikeFails == {}
  {
    NormalizedShare();
    OneShareAt(UNDER_NEW_NAME, Ticker("SAPX"), OLD_NAME_SEALED.view);
    hide Value, Normalized, UNDER_NEW_NAME;
  }
}
