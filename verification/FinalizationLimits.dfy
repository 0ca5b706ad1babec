/** What finalization does when an entry's valuation is not steady. */
module FinalizationLimits {
  import opened OrderedIds
  import opened RankOrder
  import opened Generations
  import opened Lifecycles
  import opened Finalization
  import opened FinalizationRuns

  /** The one way a pass completes an edition. */
  lemma CompletedByPromotion(o: State, p: PassInput)
    requires Sound(o) && HasBuilding(o) && o.lifecycle == Lifecycle.Finalizing
    requires Pass(o, p).lifecycle == Lifecycle.Completed
    ensures var r := Recorded(o, p);
      && Sound(r) && HasBuilding(r) && Clean(r.generations[r.nextGen]) && r.lifecycle == Lifecycle.Finalizing
      && Pass(o, p) == Promote(r, p.names)
      && !Sweep(Page(o, p.batch), p.answers).aborted
  {
    RecordedSound(o, p);
  }

  /** What promotion makes of one entry. */
  lemma PromotedEntry(r: State, names: map<int, int>, e: EntryId)
    requires Sound(r) && HasBuilding(r) && Clean(r.generations[r.nextGen]) && r.lifecycle == Lifecycle.Finalizing
    requires e in r.entries
    ensures var s := Promote(r, names);
      && e in s.entries
      && (HasResult(s, e) <==> e in r.rows[r.nextGen])
      && (s.entries[e].status == Disqualified <==> r.entries[e].status == Disqualified)
  {
    ResultsCover(r.rows[r.nextGen], r.entries, names);
  }

  /** Exactly which entries a completing pass leaves both with a result row and
      disqualified, whatever was valued before: those already drafted that are
      disqualified by now, or that this late pass claims and cannot value. */
  lemma DoubleCountedExactly(s: State, p: PassInput, e: EntryId)
    requires Sound(s) && s.lifecycle == Lifecycle.Finalizing && e in s.entries
    ensures Pass(s, p).lifecycle == Lifecycle.Completed ==>
      && e in Pass(s, p).entries
      && (HasResult(Pass(s, p), e) && Pass(s, p).entries[e].status == Disqualified <==>
           && HasBuilding(s) && e in s.rows[s.nextGen]
           && (s.entries[e].status == Disqualified ||
               (p.answers.late && e in Page(s, p.batch) && e !in p.answers.valued)))
  {
    hide *;
    var o := EnsureBuilding(s);
    PassOpens(s, p);
    if Pass(s, p).lifecycle == Lifecycle.Completed {
      OpenedDoubleCount(o, p, e);
    }
  }

  lemma OpenedDoubleCount(o: State, p: PassInput, e: EntryId)
    requires Sound(o) && HasBuilding(o) && o.lifecycle == Lifecycle.Finalizing && e in o.entries
    requires Pass(o, p).lifecycle == Lifecycle.Completed
    ensures e in Pass(o, p).entries
    ensures HasResult(Pass(o, p), e) && Pass(o, p).entries[e].status == Disqualified <==>
      && e in o.rows[o.nextGen]
      && (o.entries[e].status == Disqualified ||
          (p.answers.late && e in Page(o, p.batch) && e !in p.answers.valued))
  {
    CompletedByPromotion(o, p);
    PromotedEntry(Recorded(o, p), p.names, e);
    SweptEntry(o, p, e);
  }

  /** What a sweep that is not abandoned and ends clean makes of one entry. */
  lemma SweptEntry(o: State, p: PassInput, e: EntryId)
    requires Sound(o) && HasBuilding(o) && e in o.entries
    requires !Sweep(Page(o, p.batch), p.answers).aborted && Sound(Recorded(o, p)) && HasBuilding(Recorded(o, p))
    requires Clean(Recorded(o, p).generations[o.nextGen])
    ensures var r := Recorded(o, p);
      && e in r.entries
      && (e in r.rows[o.nextGen] && r.entries[e].status == Disqualified <==>
           && e in o.rows[o.nextGen]
           && (o.entries[e].status == Disqualified ||
               (p.answers.late && e in Page(o, p.batch) && e !in p.answers.valued)))
  {
    var page := Page(o, p.batch);
    SweepAccounts(page, p.answers);
    FirstOfIsAscending(After(ActiveIds(o.entries), o.generations[o.nextGen].cursor), p.batch);
    assert e in page <==> e in Elements(page);
  }

  /** One active entry about to be finalized. */
  const SOLO := State(Lifecycle.Finalizing, map[1 := Entry(7, EntryStatus.Active, "")], map[], map[], 0, [])

  /** A pass that drafts it and dies before recording its progress. */
  const DRAFTING := PassInput(2, Answers(map[1 := Score(110.0, 10.0)], {}, true, {}), true, false, true, map[])

  /** A later pass that can no longer value it. */
  const STRIKING := PassInput(2, Answers(map[], {}, true, {}), true, true, true, map[])

  /** The separation really needs steady valuations: the second pass disqualifies
      the entry and promotes the old draft beside the disqualification. */
  lemma UnsteadyValuationDoubleCounts()
    ensures Entering(SOLO) && 1 in SOLO.entries
    ensures var s := Pass(Run(SOLO, [DRAFTING]), STRIKING);
      && s.lifecycle == Lifecycle.Completed && HasResult(s, 1)
      && 1 in s.entries && s.entries[1].status == Disqualified
  {
    SoloEnters();
    AbandonedPassLeavesDraft(SOLO, DRAFTING);
    DraftThenStrike(Run(SOLO, [DRAFTING]), STRIKING);
  }

  lemma SoloEnters()
    ensures Entering(SOLO) && ActiveIds(SOLO.entries) == {1}
  {
  }

  lemma DraftThenStrike(s: State, p: PassInput)
    requires Sound(s) && HasBuilding(s) && s.lifecycle == Lifecycle.Finalizing
    requires s.generations[s.nextGen] == NEW_GENERATION && 1 in s.rows[s.nextGen]
    requires ActiveIds(s.entries) == {1} && 1 in s.entries
    requires p.batch == 2 && p.prepared && p.advanceOk && p.closeOk
    requires p.answers.valued == map[] && p.answers.late && p.answers.strikeFails == {}
    ensures var r := Pass(s, p);
      && r.lifecycle == Lifecycle.Completed && HasResult(r, 1)
      && 1 in r.entries && r.entries[1].status == Disqualified
  {
    hide *;
    StrikingPassCompletes(s, p);
    DoubleCountedExactly(s, p, 1);
  }

  lemma AbandonedPassLeavesDraft(s0: State, p: PassInput)
    requires Entering(s0) && s0.nextGen == 0 && ActiveIds(s0.entries) == {1}
    requires p.batch == 2 && p.prepared && !p.advanceOk && p.answers.upsertFails == {} && 1 in p.answers.valued
    ensures var s := Run(s0, [p]);
      && s.lifecycle == Lifecycle.Finalizing && s.nextGen == 1 && HasBuilding(s)
      && s.generations[1] == NEW_GENERATION && 1 in s.rows && 1 in s.rows[1] && s.entries == s0.entries
  {
    assert [p][..0] == [];
    var o := EnsureBuilding(s0);
    OneEntryPage();
    assert Page(o, 2) == [1];
    assert [1][..0] == [];
    assert Sweep([1], p.answers) == Visit(NO_TALLY, 1, p.answers);
    assert Strike(o.entries, {}) == o.entries;
    RecordedSound(o, p);
  }

  lemma StrikingPassCompletes(s: State, p: PassInput)
    requires Sound(s) && HasBuilding(s) && s.lifecycle == Lifecycle.Finalizing
    requires s.generations[s.nextGen] == NEW_GENERATION && ActiveIds(s.entries) == {1}
    requires p.batch == 2 && p.prepared && p.advanceOk && p.closeOk
    requires p.answers.valued == map[] && p.answers.late && p.answers.strikeFails == {}
    ensures Pass(s, p).lifecycle == Lifecycle.Completed
    ensures Page(s, 2) == [1]
  {
    OneEntryPage();
    assert [1][..0] == [];
    assert Sweep([1], p.answers) == Visit(NO_TALLY, 1, p.answers);
    RecordedSound(s, p);
  }

  lemma OneEntryPage()
    ensures Claim({1}, 0, 2) == [1]
  {
    var all := After({1}, 0);
    assert all == {1};
    assert Least(all) == 1;
    assert all - {1} == {};
    assert FirstOf(all - {1}, 1) == [];
  }
}
