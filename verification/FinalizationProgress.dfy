/** Finalization always ends, however many valuations fail. */
module FinalizationProgress {
  import opened OrderedIds
  import opened Pages
  import opened Sets
  import opened Generations
  import opened Lifecycles
  import opened Finalization

  /** A pass past the deadline in which every repository and adjustment call goes
      through; any number of valuations may still fail. */
  ghost predicate Smooth(p: PassInput, batch: Limit) {
    && p.batch == batch
    && p.prepared && p.advanceOk && p.closeOk
    && p.answers.late && p.answers.upsertFails == {} && p.answers.strikeFails == {}
  }

  function CursorOf(s: State): nat {
    if HasBuilding(s) then s.generations[s.nextGen].cursor else 0
  }

  ghost predicate Dirty(s: State) {
    HasBuilding(s) && !Clean(s.generations[s.nextGen])
  }

  /** How many more smooth passes can be needed: the rest of this lap, plus one
      whole lap when this generation is already bound to fail. */
  ghost function Budget(s: State, batch: Limit): nat {
    Laps(ActiveIds(s.entries), CursorOf(s), Dirty(s), batch)
  }

  ghost function Laps(live: set<EntryId>, cursor: nat, dirty: bool, batch: Limit): nat {
    FullPages(|After(live, cursor)|, batch) + 1 + (if dirty then FullPages(|live|, batch) + 1 else 0)
  }

  /** Disqualifying part of a page never lengthens the rest of the lap; a full page
      shortens it by one batch, a short one leaves at most one more lap. */
  lemma SweepSpendsLaps(live: set<EntryId>, cursor: nat, dirty: bool, batch: Limit, struck: set<EntryId>)
    requires struck <= Elements(Claim(live, cursor, batch))
    ensures var page := Claim(live, cursor, batch);
      if |page| == batch then Laps(live - struck, NextCursor(cursor, page, batch), dirty, batch) < Laps(live, cursor, dirty, batch)
      else dirty ==> Laps(live - struck, 0, false, batch) < Laps(live, cursor, dirty, batch)
  {
    var page := Claim(live, cursor, batch);
    ClaimSplits(live, cursor, batch);
    hide Claim, After, Elements, FullPages;
    FewerPages(live, struck, batch);
    if |page| == batch {
      RestOfLap(live, cursor, batch, struck);
    } else {
      NothingPassed(live - struck);
    }
  }

  lemma FewerPages(live: set<EntryId>, struck: set<EntryId>, batch: Limit)
    ensures FullPages(|live - struck|, batch) <= FullPages(|live|, batch)
  {
    SubsetIsNoLarger(live - struck, live);
    FullPagesGrow(|live - struck|, |live|, batch);
    hide FullPages;
  }

  lemma NothingPassed(live: set<EntryId>)
    ensures After(live, 0) == live
  {
  }

  /** Past a full page there is one page less to go, whoever of it was struck. */
  lemma RestOfLap(live: set<EntryId>, cursor: nat, batch: Limit, struck: set<EntryId>)
    requires |Claim(live, cursor, batch)| == batch && struck <= Elements(Claim(live, cursor, batch))
    ensures var last := Claim(live, cursor, batch)[batch - 1];
      FullPages(|After(live, cursor)|, batch) == 1 + FullPages(|After(live - struck, last)|, batch)
  {
    var page := Claim(live, cursor, batch);
    ClaimSplits(live, cursor, batch);
    hide Claim;
    var last := page[batch - 1];
    assert After(live - struck, last) == After(live, last);
  }

  /** What a smooth pass has done by the time its coverage is recorded. */
  lemma SmoothSweep(o: State, p: PassInput)
    requires Sound(o) && HasBuilding(o) && Smooth(p, p.batch)
    ensures var r := Recorded(o, p);
      var page := Page(o, p.batch);
      var t := Sweep(page, p.answers);
      && !t.aborted && t.struck <= Elements(page)
      && Sound(r) && HasBuilding(r) && r.lifecycle == o.lifecycle
      && (Clean(r.generations[r.nextGen]) <==> Clean(o.generations[o.nextGen]))
      && r.generations[r.nextGen].cursor == NextCursor(o.generations[o.nextGen].cursor, page, p.batch)
      && ActiveIds(r.entries) == ActiveIds(o.entries) - t.struck
  {
    hide OnePerUser;
    RecordedSound(o, p);
    SweepAccounts(Page(o, p.batch), p.answers);
  }

  lemma SmoothPassSpendsBudget(s: State, p: PassInput)
    requires Sound(s) && s.lifecycle == Lifecycle.Finalizing && Smooth(p, p.batch)
    ensures var r := Pass(s, p);
      r.lifecycle == Lifecycle.Completed ||
      (r.lifecycle == Lifecycle.Finalizing && Budget(r, p.batch) < Budget(s, p.batch))
  {
    PassOpens(s, p);
    var o := EnsureBuilding(s);
    SmoothSweep(o, p);
    var page := Page(o, p.batch);
    var t := Sweep(page, p.answers);
    SweepSpendsLaps(ActiveIds(o.entries), CursorOf(o), Dirty(o), p.batch, t.struck);
    FirstOfIsAscending(After(ActiveIds(o.entries), CursorOf(o)), p.batch);
    ClosingEndsLap(Recorded(o, p), p.names);
    assert Budget(o, p.batch) == Budget(s, p.batch);
    hide Sound, Swept, Recorded, Sweep, CloseLap, Laps;
  }

  lemma ClosingEndsLap(r: State, names: map<int, int>)
    requires Sound(r) && HasBuilding(r) && r.lifecycle == Lifecycle.Finalizing
    ensures var c := CloseLap(r, names);
      if Clean(r.generations[r.nextGen]) then c.lifecycle == Lifecycle.Completed
      else c.lifecycle == Lifecycle.Finalizing && !HasBuilding(c) && c.entries == r.entries
  {
    hide OnePerUser, Results;
  }

  lemma CompletedStays(s: State, p: PassInput)
    requires Sound(s) && s.lifecycle == Lifecycle.Completed
    ensures Pass(s, p).lifecycle == Lifecycle.Completed
  {
    PassEnds(s, p);
    KeepsCompleted(EnsureBuilding(s), p);
    hide Sound, Swept, Recorded, CloseLap, Sweep, Page;
  }

  lemma KeepsCompleted(o: State, p: PassInput)
    requires Sound(o) && HasBuilding(o) && o.lifecycle == Lifecycle.Completed
    requires Sound(Recorded(o, p)) && HasBuilding(Recorded(o, p))
    ensures Swept(o, p).lifecycle == Recorded(o, p).lifecycle == Lifecycle.Completed
    ensures CloseLap(Recorded(o, p), p.names).lifecycle == Lifecycle.Completed
  {
    hide OnePerUser, Sweep, Page, Results;
  }

  lemma {:induction false} SmoothRunSpendsBudget(s: State, ps: seq<PassInput>, batch: Limit)
    requires Sound(s) && s.lifecycle == Lifecycle.Finalizing
    requires forall p :: p in ps ==> Smooth(p, batch)
    ensures var r := Run(s, ps);
      r.lifecycle == Lifecycle.Completed ||
      (r.lifecycle == Lifecycle.Finalizing && Budget(r, batch) + |ps| <= Budget(s, batch))
  {
    if ps != [] {
      var init, p := ps[..|ps| - 1], ps[|ps| - 1];
      assert p in ps;
      SmoothRunSpendsBudget(s, init, batch);
      var r := Run(s, init);
      if r.lifecycle == Lifecycle.Completed {
        CompletedStays(r, p);
      } else {
        SmoothPassSpendsBudget(r, p);
      }
    }
  }

  /** Past the deadline, 2 * (n / batch + 1) smooth passes over n active entries
      complete the edition from any sound state, however many valuations fail. */
  lemma FinalizationCompletes(s: State, ps: seq<PassInput>, batch: Limit)
    requires Sound(s) && s.lifecycle == Lifecycle.Finalizing
    requires forall p :: p in ps ==> Smooth(p, batch)
    requires |ps| >= 2 * (|ActiveIds(s.entries)| / batch + 1)
    ensures Run(s, ps).lifecycle == Lifecycle.Completed
  {
    SmoothRunSpendsBudget(s, ps, batch);
    var live := ActiveIds(s.entries);
    assert |After(live, CursorOf(s))| <= |live| by { SubsetIsNoLarger(After(live, CursorOf(s)), live); }
    FullPagesGrow(|After(live, CursorOf(s))|, |live|, batch);
    FullPagesIsQuotient(|live|, batch);
  }
}
