/** What ranking and finalization share: the record of one attempt at covering an
    edition's entries, and the sweep of one claimed page. */
module Generations {
  import opened OrderedIds
  import opened RankOrder

  datatype Status = Building | Active | Superseded | Failed | Completed

  datatype Generation = Generation(
    status: Status, cursor: nat,
    processed: nat, successful: nat, failed: nat, writeFailure: bool)

  const NEW_GENERATION := Generation(Building, 0, 0, 0, 0, false)

  /** Nothing outstanding: no valuation and no row write failed so far. */
  predicate Clean(g: Generation) {
    g.failed == 0 && !g.writeFailure
  }

  /** Searches the generations for one that is building; 0 if there is none. */
  method FindBuilding(generations: map<nat, Generation>) returns (building: nat)
    requires 0 !in generations
    ensures building != 0 ==> building in generations && generations[building].status == Building
    ensures building == 0 ==> forall k :: k in generations ==> generations[k].status != Building
  {
    var keys := generations.Keys;
    building := 0;
    while keys != {}
      invariant keys <= generations.Keys
      invariant building != 0 ==> building in generations && generations[building].status == Building
      invariant building == 0 ==> forall k :: k in generations && k !in keys ==> generations[k].status != Building
      decreases keys
    {
      var k :| k in keys;
      keys := keys - {k};
      if generations[k].status == Building {
        building := k;
      }
    }
  }

  /** What the outside world answers while a page is swept: the entries that can be
      valued, the row writes that fail, and, past the operational window, the
      disqualifications that fail. */
  datatype Answers = Answers(
    valued: map<EntryId, Score>, upsertFails: set<EntryId>,
    late: bool, strikeFails: set<EntryId>)

  function Put(drafts: map<EntryId, Score>, e: EntryId, score: Score): map<EntryId, Score> {
    drafts[e := score]
  }

  datatype Tally = Tally(
    processed: nat, successful: nat, failed: nat, writeFailed: bool,
    drafts: map<EntryId, Score>, struck: set<EntryId>, aborted: bool)

  const NO_TALLY := Tally(0, 0, 0, false, map[], {}, false)

  /** One entry of a page: draft its row, latch its failure, or past the window
      strike it out. A failed disqualification abandons the pass. */
  function Visit(t: Tally, e: EntryId, a: Answers): Tally {
    if t.aborted then t
    else if e in a.valued then
      if e in a.upsertFails then t.(processed := t.processed + 1, writeFailed := true)
      else t.(processed := t.processed + 1, successful := t.successful + 1, drafts := Put(t.drafts, e, a.valued[e]))
    else if !a.late then t.(processed := t.processed + 1, failed := t.failed + 1)
    else if e in a.strikeFails then t.(aborted := true)
    else t.(processed := t.processed + 1, struck := t.struck + {e})
  }

  function Sweep(page: seq<EntryId>, a: Answers): Tally {
    if page == [] then NO_TALLY
    else Visit(Sweep(page[..|page| - 1], a), page[|page| - 1], a)
  }

  function Advance(g: Generation, cursor: nat, t: Tally): Generation {
    g.(cursor := cursor,
       processed := g.processed + t.processed, successful := g.successful + t.successful,
       failed := g.failed + t.failed, writeFailure := g.writeFailure || t.writeFailed)
  }

  /** Where the next pass resumes: after the last claimed entry, or at the start
      of the next lap when a short page ended this one. */
  function NextCursor(cursor: nat, page: seq<EntryId>, limit: Limit): nat {
    if |page| < limit then 0
    else if page == [] then cursor
    else page[|page| - 1]
  }

  /** What a sweep over these entries has done: it drafts only what was valued and strikes
      only what was not, never both, and with nothing latched every entry got one of the
      two. */
  ghost predicate Handled(swept: set<EntryId>, t: Tally, a: Answers) {
    && t.drafts.Keys <= swept * a.valued.Keys
    && (forall e :: e in t.drafts ==> t.drafts[e] == a.valued[e])
    && t.struck <= swept - a.valued.Keys
    && (t.aborted || t.struck != {} ==> a.late)
    && (!t.aborted && !t.writeFailed && t.failed == 0 ==> swept == t.drafts.Keys + t.struck)
    && (!t.aborted && t.failed == 0 && a.late ==> t.struck == swept - a.valued.Keys)
  }

  /** What a sweep over n entries counts, and what cannot have gone wrong in it. */
  ghost predicate Counted(n: nat, t: Tally, a: Answers) {
    && (a.late ==> t.failed == 0)
    && (a.upsertFails == {} ==> !t.writeFailed)
    && (a.strikeFails == {} ==> !t.aborted)
    && (!t.aborted ==> t.processed == n && t.successful <= t.processed)
    && (!t.aborted && !t.writeFailed && t.failed == 0 && t.struck == {} ==> t.successful == t.processed)
  }

  lemma {:induction false} SweepAccounts(page: seq<EntryId>, a: Answers)
    ensures Handled(Elements(page), Sweep(page, a), a) && Counted(|page|, Sweep(page, a), a)
  {
    if page != [] {
      var init, e := page[..|page| - 1], page[|page| - 1];
      SweepAccounts(init, a);
      assert page == init + [e];
      assert Elements(page) == Elements(init) + {e};
      VisitHandles(Elements(init), Sweep(init, a), e, a);
      VisitCounts(|init|, Sweep(init, a), e, a);
      hide Handled, Counted, Visit;
    }
  }

  lemma VisitHandles(swept: set<EntryId>, t: Tally, e: EntryId, a: Answers)
    requires Handled(swept, t, a)
    ensures Handled(swept + {e}, Visit(t, e, a), a)
  {
  }

  lemma VisitCounts(n: nat, t: Tally, e: EntryId, a: Answers)
    requires Counted(n, t, a)
    ensures Counted(n + 1, Visit(t, e, a), a)
  {
  }
}
