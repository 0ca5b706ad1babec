/** What every run of finalization passes guarantees. */
module FinalizationRuns {
  import opened OrderedIds
  import opened RankOrder
  import opened Generations
  import opened Lifecycles
  import opened Finalization

  // ---- nobody is omitted ---------------------------------------------------

  ghost predicate Included(a: map<EntryId, Score>, b: map<EntryId, Score>) {
    forall e :: e in a ==> e in b && b[e] == a[e]
  }

  /** An entry valued once is valued the same ever after. */
  ghost predicate Steady(ps: seq<PassInput>) {
    forall i, j :: 0 <= i < j < |ps| ==> Included(ps[i].answers.valued, ps[j].answers.valued)
  }

  /** An edition as it enters finalization. */
  ghost predicate Entering(s: State) {
    && Sound(s)
    && s.lifecycle == Lifecycle.Finalizing
    && s.generations == map[] && s.rows == map[] && s.results == []
  }

  function StruckOut(e: Entry): Entry {
    e.(status := Disqualified, reason := LATE_REASON)
  }

  /** Before completion: entries that entered active are still active or were
      disqualified with the reason; no other entry has changed. */
  ghost predicate Accounted(now: Entries, first: Entries) {
    && now.Keys == first.Keys
    && (forall e :: e in first ==>
         || now[e] == first[e]
         || (first[e].status == EntryStatus.Active && now[e] == StruckOut(first[e])))
  }

  ghost predicate HasResult(s: State, e: EntryId) {
    exists i :: 0 <= i < |s.results| && s.results[i].entry == e
  }

  /** What completion made of one entry: unchanged without a row if it was not active,
      else finalized with a row, or disqualified with the reason and without one. */
  ghost predicate EntryResolved(s: State, s0: State, e: EntryId) {
    && e in s0.entries && e in s.entries
    && if s0.entries[e].status != EntryStatus.Active then s.entries[e] == s0.entries[e] && !HasResult(s, e)
       else if HasResult(s, e) then s.entries[e] == s0.entries[e].(status := Finalized)
       else s.entries[e] == StruckOut(s0.entries[e])
  }

  /** After completion: every entry is resolved, only entries of the edition have a
      row, none has two, and the ranks run 1, 2, 3, ... */
  ghost predicate Resolved(s: State, s0: State) {
    && s.entries.Keys == s0.entries.Keys
    && (forall e :: e in s0.entries ==> EntryResolved(s, s0, e))
    && (forall i, j :: 0 <= i < j < |s.results| ==> s.results[i].entry != s.results[j].entry)
    && (forall i :: 0 <= i < |s.results| ==> s.results[i].entry in s0.entries && s.results[i].rank == i + 1)
  }

  /** Every result row carries the one score its entry was ever given. */
  ghost predicate ScoredBy(s: State, known: map<EntryId, Score>) {
    forall i :: 0 <= i < |s.results| ==>
      s.results[i].entry in known && s.results[i].score == known[s.results[i].entry]
  }

  type Drafts = map<EntryId, Score>

  ghost predicate DraftsHold(drafts: Drafts, entries: Entries, known: map<EntryId, Score>) {
    drafts.Keys <= ActiveIds(entries) && Included(drafts, known)
  }

  /** Every entry still active up to the cursor has a draft. */
  ghost predicate CoveredTo(drafts: Drafts, entries: Entries, cursor: nat) {
    forall e :: e in ActiveIds(entries) && e <= cursor ==> e in drafts
  }

  ghost predicate Underway(s: State, s0: State, known: map<EntryId, Score>) {
    && Sound(s)
    && s.lifecycle == Lifecycle.Finalizing && s.results == []
    && Accounted(s.entries, s0.entries)
    && (HasBuilding(s) ==>
         && DraftsHold(s.rows[s.nextGen], s.entries, known)
         && (Clean(s.generations[s.nextGen]) ==>
              CoveredTo(s.rows[s.nextGen], s.entries, s.generations[s.nextGen].cursor)))
  }

  ghost predicate Settled(s: State, s0: State, known: map<EntryId, Score>) {
    && Sound(s)
    && s.lifecycle == Lifecycle.Completed
    && Resolved(s, s0)
    && ScoredBy(s, known)
  }

  lemma StrikingAccounts(now: Entries, first: Entries, struck: set<EntryId>)
    requires Accounted(now, first) && struck <= ActiveIds(now)
    ensures Accounted(Strike(now, struck), first)
    ensures ActiveIds(Strike(now, struck)) == ActiveIds(now) - struck
  {
    var after := Strike(now, struck);
    forall e | e in first
      ensures after[e] == first[e] || (first[e].status == EntryStatus.Active && after[e] == StruckOut(first[e]))
    {
      if e in struck { assert now[e] == first[e]; }
    }
  }

  /** A swept page never strikes an entry that has a draft, so drafts stay active. */
  lemma SweepKeepsDrafts(drafts: Drafts, entries: Entries, known: map<EntryId, Score>, page: seq<EntryId>, a: Answers)
    requires DraftsHold(drafts, entries, known) && Included(known, a.valued)
    requires Elements(page) <= ActiveIds(entries)
    ensures var t := Sweep(page, a);
      && t.struck <= ActiveIds(entries)
      && DraftsHold(drafts + t.drafts, Strike(entries, t.struck), a.valued)
  {
    SweepAccounts(page, a);
    var t := Sweep(page, a);
    StrikingAccounts(entries, entries, t.struck);
    forall e | e in drafts ensures e !in t.struck {
      assert e in known && e in a.valued;
    }
  }

  lemma SweepCovers(drafts: Drafts, entries: Entries, cursor: nat, batch: Limit, a: Answers)
    requires CoveredTo(drafts, entries, cursor)
    ensures var page := Claim(ActiveIds(entries), cursor, batch);
      var t := Sweep(page, a);
      !t.aborted && t.failed == 0 && !t.writeFailed ==>
        && CoveredTo(drafts + t.drafts, Strike(entries, t.struck), NextCursor(cursor, page, batch))
        && (|page| < batch ==> ActiveIds(Strike(entries, t.struck)) <= (drafts + t.drafts).Keys)
  {
    var page := Claim(ActiveIds(entries), cursor, batch);
    var t := Sweep(page, a);
    SweepAccounts(page, a);
    ClaimSplits(ActiveIds(entries), cursor, batch);
    if !t.aborted && t.failed == 0 && !t.writeFailed {
      forall e | e in ActiveIds(Strike(entries, t.struck)) && e !in (drafts + t.drafts)
        ensures |page| == batch && NextCursor(cursor, page, batch) < e
      {
        assert e in ActiveIds(entries) && e !in Elements(page);
        assert e in After(ActiveIds(entries), cursor);
        assert e in After(ActiveIds(entries), page[batch - 1]);
      }
    }
  }

  /** The results list exactly the drafted entries, each once, ranked 1, 2, 3, ... */
  ghost predicate ListsExactly(results: seq<ResultRow>, drafts: Drafts) {
    && |results| == |drafts|
    && (forall i :: 0 <= i < |results| ==>
         results[i].rank == i + 1 && results[i].entry in drafts && results[i].score == drafts[results[i].entry])
    && (forall i, j :: 0 <= i < j < |results| ==> results[i].entry != results[j].entry)
    && (forall e :: e in drafts ==> exists i :: 0 <= i < |results| && results[i].entry == e)
  }

  lemma ResultsCover(rows: Drafts, entries: Entries, names: map<int, int>)
    requires rows.Keys <= entries.Keys && OnePerUser(entries)
    ensures ListsExactly(Results(rows, entries, names), rows)
  {
    hide OnePerUser, Standings;
    StandingsCover(rows, entries, names);
    var order, r := Standings(rows, entries, names), Results(rows, entries, names);
    forall e | e in rows ensures exists i :: 0 <= i < |r| && r[i].entry == e {
      var i :| 0 <= i < |order| && order[i] == e;
      assert r[i].entry == e;
    }
  }

  /** Promoting a clean, fully covered generation resolves every entry. */
  lemma PromotionResolves(s: State, s0: State, known: map<EntryId, Score>, names: map<int, int>)
    requires Sound(s) && HasBuilding(s) && s.lifecycle == Lifecycle.Finalizing
    requires Clean(s.generations[s.nextGen])
    requires Accounted(s.entries, s0.entries)
    requires DraftsHold(s.rows[s.nextGen], s.entries, known) && ActiveIds(s.entries) <= s.rows[s.nextGen].Keys
    ensures Settled(Promote(s, names), s0, known)
  {
    var drafts := s.rows[s.nextGen];
    CloseLapKeepsSound(s, names);
    ResultsCover(drafts, s.entries, names);
    SettlingResolves(Promote(s, names), s.entries, drafts, s0, known);
  }

  /** Every entry's outcome once the drafted ones are settled. */
  lemma SettlingResolves(r: State, entries: Entries, drafts: Drafts, s0: State, known: map<EntryId, Score>)
    requires r.entries == Settle(entries, drafts.Keys) && ListsExactly(r.results, drafts)
    requires Accounted(entries, s0.entries) && DraftsHold(drafts, entries, known) && ActiveIds(entries) <= drafts.Keys
    ensures Resolved(r, s0) && ScoredBy(r, known)
  {
    hide *;
    RowsOnce(r, drafts, entries, known);
    SettlingKeepsIds(entries, drafts, s0.entries);
    forall e | e in s0.entries ensures EntryResolved(r, s0, e) {
      SettledEntry(entries, drafts, s0.entries, known, e);
      OneResolved(r, entries, drafts, s0, e);
    }
    AllResolved(r, s0);
  }

  lemma AllResolved(r: State, s0: State)
    requires r.entries.Keys == s0.entries.Keys
    requires forall e :: e in s0.entries ==> EntryResolved(r, s0, e)
    requires forall i, j :: 0 <= i < j < |r.results| ==> r.results[i].entry != r.results[j].entry
    requires forall i :: 0 <= i < |r.results| ==> r.results[i].entry in s0.entries && r.results[i].rank == i + 1
    ensures Resolved(r, s0)
  {
    hide EntryResolved;
  }

  lemma SettlingKeepsIds(entries: Entries, drafts: Drafts, first: Entries)
    requires Accounted(entries, first)
    ensures Settle(entries, drafts.Keys).Keys == first.Keys == entries.Keys
  {
  }

  lemma OneResolved(r: State, entries: Entries, drafts: Drafts, s0: State, e: EntryId)
    requires r.entries == Settle(entries, drafts.Keys) && e in s0.entries && e in entries
    requires HasResult(r, e) <==> e in drafts
    requires var after := Settle(entries, drafts.Keys);
      if s0.entries[e].status != EntryStatus.Active then after[e] == s0.entries[e] && e !in drafts
      else if e in drafts then after[e] == s0.entries[e].(status := Finalized)
      else after[e] == StruckOut(s0.entries[e])
    ensures EntryResolved(r, s0, e)
  {
    hide HasResult;
  }

  lemma RowsOnce(r: State, drafts: Drafts, entries: Entries, known: map<EntryId, Score>)
    requires ListsExactly(r.results, drafts) && DraftsHold(drafts, entries, known)
    ensures forall i, j :: 0 <= i < j < |r.results| ==> r.results[i].entry != r.results[j].entry
    ensures forall i :: 0 <= i < |r.results| ==> r.results[i].entry in entries && r.results[i].rank == i + 1
    ensures forall e :: HasResult(r, e) <==> e in drafts
    ensures ScoredBy(r, known)
  {
  }

  lemma SettledEntry(entries: Entries, drafts: Drafts, first: Entries, known: map<EntryId, Score>, e: EntryId)
    requires Accounted(entries, first) && DraftsHold(drafts, entries, known) && ActiveIds(entries) <= drafts.Keys
    requires e in first
    ensures var after := Settle(entries, drafts.Keys);
      if first[e].status != EntryStatus.Active then after[e] == first[e] && e !in drafts
      else if e in drafts then after[e] == first[e].(status := Finalized)
      else after[e] == StruckOut(first[e])
  {
    assert e in ActiveIds(entries) <==> e in drafts;
  }

  /** The state after an uneventful sweep, recorded or not. */
  lemma SweepKeepsUnderway(s: State, s0: State, known: map<EntryId, Score>, p: PassInput)
    requires Underway(s, s0, known) && HasBuilding(s) && Included(known, p.answers.valued)
    ensures Underway(Swept(s, p), s0, p.answers.valued)
    ensures !Sweep(Page(s, p.batch), p.answers).aborted ==> Underway(Recorded(s, p), s0, p.answers.valued)
    ensures var r := Recorded(s, p);
      && r.nextGen in r.generations && r.nextGen in r.rows
      && (!Sweep(Page(s, p.batch), p.answers).aborted && |Page(s, p.batch)| < p.batch && Clean(r.generations[r.nextGen]) ==>
           ActiveIds(r.entries) <= r.rows[r.nextGen].Keys)
  {
    RecordedSound(s, p);
    var cursor, page := s.generations[s.nextGen].cursor, Page(s, p.batch);
    var t := Sweep(page, p.answers);
    ClaimSplits(ActiveIds(s.entries), cursor, p.batch);
    SweepKeepsDrafts(s.rows[s.nextGen], s.entries, known, page, p.answers);
    StrikingAccounts(s.entries, s0.entries, t.struck);
    if Clean(s.generations[s.nextGen]) {
      SweepCovers(s.rows[s.nextGen], s.entries, cursor, p.batch, p.answers);
    }
  }

  lemma OpeningKeepsUnderway(s: State, s0: State, known: map<EntryId, Score>, valued: map<EntryId, Score>)
    requires Underway(s, s0, known) && Included(known, valued)
    ensures Sound(s) && Underway(EnsureBuilding(s), s0, valued)
  {
    var o := EnsureBuilding(s);
    PassOpens(s, PassInput(1, Answers(valued, {}, false, {}), false, false, false, map[]));
    NothingDrafted(s.entries, valued);
    if HasBuilding(s) {
      DraftsHoldOn(s.rows[s.nextGen], s.entries, known, valued);
    }
    hide OnePerUser, Accounted, DraftsHold, CoveredTo, Included, Pass;
  }

  lemma NothingDrafted(entries: Entries, known: map<EntryId, Score>)
    ensures DraftsHold(map[], entries, known) && CoveredTo(map[], entries, 0)
  {
  }

  lemma DraftsHoldOn(drafts: Drafts, entries: Entries, known: map<EntryId, Score>, valued: map<EntryId, Score>)
    requires Included(known, valued) && DraftsHold(drafts, entries, known)
    ensures DraftsHold(drafts, entries, valued)
  {
  }

  lemma ClosingAdvances(s: State, s0: State, known: map<EntryId, Score>, names: map<int, int>)
    requires Underway(s, s0, known) && HasBuilding(s)
    requires Clean(s.generations[s.nextGen]) ==> ActiveIds(s.entries) <= s.rows[s.nextGen].Keys
    ensures Underway(CloseLap(s, names), s0, known) || Settled(CloseLap(s, names), s0, known)
  {
    CloseLapKeepsSound(s, names);
    if Clean(s.generations[s.nextGen]) {
      PromotionResolves(s, s0, known, names);
    }
  }

  lemma PassAdvances(s: State, s0: State, known: map<EntryId, Score>, p: PassInput)
    requires Underway(s, s0, known) && Included(known, p.answers.valued)
    ensures Underway(Pass(s, p), s0, p.answers.valued) || Settled(Pass(s, p), s0, p.answers.valued)
  {
    hide *;
    var o, valued := EnsureBuilding(s), p.answers.valued;
    OpeningKeepsUnderway(s, s0, known, valued);
    PassEnds(s, p);
    IncludedItself(valued);
    SweepKeepsUnderway(o, s0, valued, p);
    if !Sweep(Page(o, p.batch), p.answers).aborted && |Page(o, p.batch)| < p.batch {
      ClosingAdvances(Recorded(o, p), s0, valued, p.names);
    }
  }

  lemma IncludedItself(m: map<EntryId, Score>)
    ensures Included(m, m)
  {
  }

  /** A further pass on a completed edition, as a retry holding a stale copy would
      make, finds nobody active and changes neither results nor entries. */
  lemma PassAfterCompletion(s: State, p: PassInput)
    requires Sound(s) && s.lifecycle == Lifecycle.Completed && ActiveIds(s.entries) == {}
    ensures var r := Pass(s, p);
      r.lifecycle == Lifecycle.Completed && r.results == s.results && r.entries == s.entries
  {
    PassOpens(s, p);
    var o := EnsureBuilding(s);
    IdleSweep(o, p);
    hide Sound, OnePerUser, Swept, Recorded, Sweep, Page, Results;
  }

  lemma IdleSweep(s: State, p: PassInput)
    requires Sound(s) && HasBuilding(s) && ActiveIds(s.entries) == {}
    ensures Page(s, p.batch) == []
    ensures Swept(s, p).entries == Recorded(s, p).entries == s.entries
    ensures HasBuilding(Recorded(s, p)) && Sound(Recorded(s, p))
  {
    hide OnePerUser;
    RecordedSound(s, p);
    ClaimSplits({}, s.generations[s.nextGen].cursor, p.batch);
    assert Strike(s.entries, {}) == s.entries;
  }

  lemma SettledHasNoneActive(s: State, s0: State, known: map<EntryId, Score>)
    requires Settled(s, s0, known)
    ensures ActiveIds(s.entries) == {}
  {
    forall e | e in s.entries ensures s.entries[e].status != EntryStatus.Active { assert EntryResolved(s, s0, e); }
  }

  lemma SettledCarries(s: State, s0: State, known: map<EntryId, Score>, r: State, valued: map<EntryId, Score>)
    requires Settled(s, s0, known) && Included(known, valued)
    requires Sound(r) && r.lifecycle == s.lifecycle && r.results == s.results && r.entries == s.entries
    ensures Settled(r, s0, valued)
  {
    forall e | e in s0.entries ensures EntryResolved(r, s0, e) {
      assert EntryResolved(s, s0, e);
      assert HasResult(r, e) <==> HasResult(s, e);
    }
  }

  /** What the last pass of a run could value. */
  function LastValued(ps: seq<PassInput>): map<EntryId, Score> {
    if ps == [] then map[] else ps[|ps| - 1].answers.valued
  }

  lemma {:induction false} RunAdvances(s0: State, ps: seq<PassInput>)
    requires Entering(s0) && Steady(ps)
    ensures Underway(Run(s0, ps), s0, LastValued(ps)) || Settled(Run(s0, ps), s0, LastValued(ps))
  {
    if ps != [] {
      var init, p := ps[..|ps| - 1], ps[|ps| - 1];
      RunAdvances(s0, init);
      assert Included(LastValued(init), p.answers.valued);
      StepAdvances(Run(s0, init), s0, LastValued(init), p);
    }
  }

  lemma StepAdvances(s: State, s0: State, known: map<EntryId, Score>, p: PassInput)
    requires Underway(s, s0, known) || Settled(s, s0, known)
    requires Included(known, p.answers.valued)
    ensures Underway(Pass(s, p), s0, p.answers.valued) || Settled(Pass(s, p), s0, p.answers.valued)
  {
    if Settled(s, s0, known) {
      SettledHasNoneActive(s, s0, known);
      PassAfterCompletion(s, p);
      PassKeepsSound(s, p);
      SettledCarries(s, s0, known, Pass(s, p), p.answers.valued);
    } else {
      PassAdvances(s, s0, known, p);
    }
  }

  /** Finalization omits nobody: over every run of passes, whatever fails in them,
      an edition that completes has either one result row or one reasoned
      disqualification for each entry that entered finalization active, never both;
      until then each such entry is still active or already disqualified. */
  lemma NobodyOmitted(s0: State, ps: seq<PassInput>)
    requires Entering(s0) && Steady(ps)
    ensures var s := Run(s0, ps);
      if s.lifecycle == Lifecycle.Completed then
        && Resolved(s, s0)
        && ps != [] && ScoredBy(s, ps[|ps| - 1].answers.valued)
      else
        s.lifecycle == Lifecycle.Finalizing && Accounted(s.entries, s0.entries) && s.results == []
  {
    RunAdvances(s0, ps);
  }

  // ---- without steady valuations ----------------------------------------------------

  /** What holds of one entry however valuations move: an entry that was not active is
      unchanged and has no row; an active one ends up disqualified with the reason, or
      finalized with a row. */
  ghost predicate AtLeastOnce(s: State, s0: State, e: EntryId) {
    && e in s0.entries && e in s.entries
    && if s0.entries[e].status != EntryStatus.Active then s.entries[e] == s0.entries[e] && !HasResult(s, e)
       else s.entries[e] == StruckOut(s0.entries[e]) ||
            (s.entries[e] == s0.entries[e].(status := Finalized) && HasResult(s, e))
  }

  /** Before completion, drafts belong to entries that entered active and, nothing having
      failed, reach every active one up to the cursor. */
  ghost predicate Reaching(s: State, s0: State) {
    && Sound(s)
    && s.lifecycle == Lifecycle.Finalizing
    && Accounted(s.entries, s0.entries)
    && (HasBuilding(s) ==>
         && s.rows[s.nextGen].Keys <= ActiveIds(s0.entries)
         && (Clean(s.generations[s.nextGen]) ==>
              CoveredTo(s.rows[s.nextGen], s.entries, s.generations[s.nextGen].cursor)))
  }

  ghost predicate Reached(s: State, s0: State) {
    && Sound(s)
    && s.lifecycle == Lifecycle.Completed
    && s.entries.Keys == s0.entries.Keys
    && forall e :: e in s0.entries ==> AtLeastOnce(s, s0, e)
  }

  lemma SweepKeepsReaching(s: State, s0: State, p: PassInput)
    requires Reaching(s, s0) && HasBuilding(s)
    ensures Reaching(Swept(s, p), s0)
    ensures !Sweep(Page(s, p.batch), p.answers).aborted ==> Reaching(Recorded(s, p), s0)
    ensures var r := Recorded(s, p);
      && r.nextGen in r.generations && r.nextGen in r.rows
      && (!Sweep(Page(s, p.batch), p.answers).aborted && |Page(s, p.batch)| < p.batch && Clean(r.generations[r.nextGen]) ==>
           ActiveIds(r.entries) <= r.rows[r.nextGen].Keys)
  {
    RecordedSound(s, p);
    var cursor, page := s.generations[s.nextGen].cursor, Page(s, p.batch);
    var t := Sweep(page, p.answers);
    SweepAccounts(page, p.answers);
    PageIsActive(s, p.batch);
    StrikingAccounts(s.entries, s0.entries, t.struck);
    assert ActiveIds(s.entries) <= ActiveIds(s0.entries);
    if Clean(s.generations[s.nextGen]) {
      SweepCovers(s.rows[s.nextGen], s.entries, cursor, p.batch, p.answers);
    }
    hide OnePerUser, Sweep, Page, Accounted, Strike;
  }

  lemma ClosingReaches(s: State, s0: State, names: map<int, int>)
    requires Reaching(s, s0) && HasBuilding(s)
    requires Clean(s.generations[s.nextGen]) ==> ActiveIds(s.entries) <= s.rows[s.nextGen].Keys
    ensures Reaching(CloseLap(s, names), s0) || Reached(CloseLap(s, names), s0)
  {
    CloseLapKeepsSound(s, names);
    hide Results, CoveredTo, Settle, Accounted, ActiveIds, AtLeastOnce;
    if Clean(s.generations[s.nextGen]) {
      PromotionReaches(s, s0, names);
    }
  }

  lemma PromotionReaches(s: State, s0: State, names: map<int, int>)
    requires Sound(s) && HasBuilding(s) && s.lifecycle == Lifecycle.Finalizing && Clean(s.generations[s.nextGen])
    requires Accounted(s.entries, s0.entries)
    requires ActiveIds(s.entries) <= s.rows[s.nextGen].Keys <= ActiveIds(s0.entries)
    ensures var r := Promote(s, names);
      r.lifecycle == Lifecycle.Completed && r.entries.Keys == s0.entries.Keys && forall e :: e in s0.entries ==> AtLeastOnce(r, s0, e)
  {
    var drafts, r := s.rows[s.nextGen], Promote(s, names);
    ResultsCover(drafts, s.entries, names);
    ResultsAreDrafts(r, drafts);
    hide Sound, Results, HasResult, ListsExactly;
    forall e | e in s0.entries ensures AtLeastOnce(r, s0, e) {
      SettledAtLeastOnce(r, s.entries, drafts, s0, e);
    }
  }

  lemma ResultsAreDrafts(r: State, drafts: Drafts)
    requires ListsExactly(r.results, drafts)
    ensures forall e :: HasResult(r, e) <==> e in drafts
  {
  }

  lemma SettledAtLeastOnce(r: State, entries: Entries, drafts: Drafts, s0: State, e: EntryId)
    requires r.entries == Settle(entries, drafts.Keys) && e in s0.entries
    requires HasResult(r, e) <==> e in drafts
    requires Accounted(entries, s0.entries)
    requires ActiveIds(entries) <= drafts.Keys <= ActiveIds(s0.entries)
    ensures AtLeastOnce(r, s0, e)
  {
    assert e in ActiveIds(entries) ==> e in drafts;
    hide HasResult;
  }

  lemma PassReaches(s: State, s0: State, p: PassInput)
    requires Reaching(s, s0)
    ensures Reaching(Pass(s, p), s0) || Reached(Pass(s, p), s0)
  {
    hide *;
    var o := EnsureBuilding(s);
    OpeningReaches(s, s0);
    PassEnds(s, p);
    SweepKeepsReaching(o, s0, p);
    if !Sweep(Page(o, p.batch), p.answers).aborted && |Page(o, p.batch)| < p.batch {
      ClosingReaches(Recorded(o, p), s0, p.names);
    }
  }

  lemma OpeningReaches(s: State, s0: State)
    requires Reaching(s, s0)
    ensures Sound(s) && Reaching(EnsureBuilding(s), s0)
  {
  }

  lemma ReachedStays(s: State, s0: State, p: PassInput)
    requires Reached(s, s0)
    ensures Reached(Pass(s, p), s0)
  {
    forall e | e in s.entries ensures s.entries[e].status != EntryStatus.Active { assert AtLeastOnce(s, s0, e); }
    assert ActiveIds(s.entries) == {};
    PassAfterCompletion(s, p);
    PassKeepsSound(s, p);
    var r := Pass(s, p);
    forall e | e in s0.entries ensures AtLeastOnce(r, s0, e) {
      assert AtLeastOnce(s, s0, e);
      assert HasResult(r, e) <==> HasResult(s, e);
    }
  }

  /** Over every run of passes, valuations free to change between them, completion
      leaves nobody without an outcome. */
  lemma {:induction false} NobodyMissing(s0: State, ps: seq<PassInput>)
    requires Entering(s0)
    ensures Reaching(Run(s0, ps), s0) || Reached(Run(s0, ps), s0)
  {
    if ps != [] {
      var init, p := ps[..|ps| - 1], ps[|ps| - 1];
      NobodyMissing(s0, init);
      var before := Run(s0, init);
      if Reached(before, s0) { ReachedStays(before, s0, p); } else { PassReaches(before, s0, p); }
    }
  }
}
