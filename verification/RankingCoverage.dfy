/** Exactly whom a promoted board lists. */
module RankingCoverage {
  import opened OrderedIds
  import opened RankOrder
  import opened Generations
  import opened Lifecycles
  import opened Ranking

  /** A board with the history of its current lap: the entries active when the lap
      began, and those activated since at an id the cursor had already passed. */
  datatype Watch = Watch(board: Board, lap: set<EntryId>, behind: set<EntryId>)

  function CursorOf(b: Board): nat {
    if HasBuilding(b) then b.generations[b.nextGen].cursor else 0
  }

  /** Who was active when the lap a pass is about to continue began. */
  function LapStart(w: Watch): set<EntryId> {
    if CursorOf(w.board) == 0 then ActiveIds(w.board.entries) else w.lap
  }

  /** Who was activated behind the cursor of that lap. */
  function Behind(w: Watch): set<EntryId> {
    if CursorOf(w.board) == 0 then {} else w.behind
  }

  function Newcomers(entries: Entries, activated: set<EntryId>): set<EntryId> {
    WithStatus(entries, Admitted) * activated
  }

  ghost function Follow(w: Watch, ev: Event): Watch
    requires Sound(w.board)
  {
    match ev
    case Refreshes(_) => Watch(Step(w.board, ev), LapStart(w), Behind(w))
    case Baselines(activated, _) =>
      var missed := set e | e in Newcomers(w.board.entries, activated) && e <= CursorOf(w.board);
      Watch(Step(w.board, ev), w.lap, w.behind + missed)
  }

  ghost function FollowAll(w: Watch, evs: seq<Event>): (r: Watch)
    requires Sound(w.board)
    ensures Sound(r.board)
  {
    if evs == [] then w
    else
      var before := FollowAll(w, evs[..|evs| - 1]);
      StepKeepsSound(before.board, evs[|evs| - 1]);
      Follow(before, evs[|evs| - 1])
  }

  /** A generation's rows against the lap's history: drafts are for active entries
      only, and up to the cursor they miss exactly the entries activated behind it. */
  ghost predicate Covers(rows: Rows, live: set<EntryId>, cursor: nat, clean: bool, lap: set<EntryId>,
      behind: set<EntryId>) {
    && rows.Keys <= live
    && (cursor != 0 ==>
         && lap <= live && behind <= live
         && behind !! lap && behind !! rows.Keys
         && (forall e :: e in behind ==> e <= cursor)
         && (clean ==> forall e :: e in live && e <= cursor ==> e in rows || e in behind))
  }

  ghost predicate Tracked(w: Watch) {
    && Sound(w.board)
    && (HasBuilding(w.board) ==>
         Covers(w.board.rows[w.board.nextGen], ActiveIds(w.board.entries), CursorOf(w.board),
                Clean(w.board.generations[w.board.nextGen]), w.lap, w.behind))
  }

  /** Drafting entries past the cursor disturbs nobody at or behind it. */
  lemma DraftingCovers(rows: Rows, drafts: map<EntryId, Score>, live: set<EntryId>, cursor: nat, clean: bool,
      lap: set<EntryId>, behind: set<EntryId>)
    requires Covers(rows, live, cursor, clean, lap, behind) && drafts.Keys <= After(live, cursor)
    requires behind !! rows.Keys && (cursor == 0 ==> behind == {})
    ensures Covers(rows + Unranked(drafts), live, cursor, clean, lap, behind)
    ensures behind !! (rows + Unranked(drafts)).Keys
  {
    var rows1 := rows + Unranked(drafts);
    assert rows1.Keys == rows.Keys + drafts.Keys;
    forall e | e in drafts ensures e !in behind { assert e in After(live, cursor); }
  }

  /** A page none of whose entries is left undrafted moves the covered range on. */
  lemma MovingCovers(rows: Rows, live: set<EntryId>, cursor: nat, clean: bool, lap: set<EntryId>,
      behind: set<EntryId>, page: seq<EntryId>, batch: Limit)
    requires Covers(rows, live, cursor, clean, lap, behind) && page == Claim(live, cursor, batch)
    requires clean ==> Elements(page) <= rows.Keys
    requires lap <= live && behind !! lap && behind !! rows.Keys && (cursor == 0 ==> behind == {})
    ensures Covers(rows, live, NextCursor(cursor, page, batch), clean, lap, behind)
    ensures |page| < batch && clean ==> rows.Keys == live - behind
  {
    ClaimSplits(live, cursor, batch);
    if clean {
      forall e | e in live && e !in rows && e !in behind
        ensures |page| == batch && page[|page| - 1] < e
      {
        assert e in After(live, cursor) && e !in Elements(page);
        assert e in After(live, page[|page| - 1]);
      }
    }
  }

  lemma SweepCovers(rows: Rows, live: set<EntryId>, cursor: nat, clean: bool, lap: set<EntryId>,
      behind: set<EntryId>, p: Refresh)
    requires Covers(rows, live, cursor, clean, lap, behind)
    requires lap <= live && behind !! lap && behind !! rows.Keys && (cursor == 0 ==> behind == {})
    ensures var page := Claim(live, cursor, p.batch);
      var t := Sweep(page, AnswersOf(p));
      var clean1 := clean && t.failed == 0 && !t.writeFailed;
      var rows1 := rows + Unranked(t.drafts);
      && Covers(rows1, live, cursor, clean, lap, behind)
      && Covers(rows1, live, NextCursor(cursor, page, p.batch), clean1, lap, behind)
      && (|page| < p.batch && clean1 ==> rows1.Keys == live - behind)
  {
    var page := Claim(live, cursor, p.batch);
    var t := Sweep(page, AnswersOf(p));
    SweepAccounts(page, AnswersOf(p));
    FirstOfIsAscending(After(live, cursor), p.batch);
    DraftingCovers(rows, t.drafts, live, cursor, clean, lap, behind);
    MovingCovers(rows + Unranked(t.drafts), live, cursor, clean && t.failed == 0 && !t.writeFailed, lap, behind, page, p.batch);
  }

  lemma TrackedOpens(w: Watch)
    requires Tracked(w)
    ensures var o := EnsureBuilding(w.board);
      Tracked(Watch(o, w.lap, w.behind)) && HasBuilding(o) && CursorOf(o) == CursorOf(w.board) && SameForReaders(w.board, o)
  {
    OpeningKeepsSound(w.board);
  }

  /** What a pass has done by the time its coverage is recorded. */
  lemma TrackedSweeps(w: Watch, p: Refresh)
    requires Tracked(w) && HasBuilding(w.board)
    ensures Tracked(Watch(Swept(w.board, p), LapStart(w), Behind(w)))
    ensures Tracked(Watch(Recorded(w.board, p), LapStart(w), Behind(w)))
    ensures var r := Recorded(w.board, p);
      && HasBuilding(r) && r.entries == w.board.entries && SameForReaders(w.board, r)
      && (|Page(w.board, p.batch)| < p.batch && Clean(r.generations[r.nextGen]) ==>
           r.rows[r.nextGen].Keys == ActiveIds(r.entries) - Behind(w))
      && LapStart(w) !! Behind(w) && LapStart(w) <= ActiveIds(r.entries)
  {
    var b := w.board;
    SweepKeepsSound(b, p);
    SweepCovers(b.rows[b.nextGen], ActiveIds(b.entries), CursorOf(b), Clean(b.generations[b.nextGen]), LapStart(w), Behind(w), p);
  }

  lemma PassCoverage(w: Watch, p: Refresh)
    requires Tracked(w)
    ensures Tracked(Follow(w, Refreshes(p)))
    ensures var r := Pass(w.board, p);
      r.active != w.board.active ==>
        && r.active in r.rows
        && r.rows[r.active].Keys == ActiveIds(w.board.entries) - Behind(w)
        && LapStart(w) <= r.rows[r.active].Keys
  {
    TrackedOpens(w);
    var o := Watch(EnsureBuilding(w.board), w.lap, w.behind);
    TrackedSweeps(o, p);
    StepKeepsSound(w.board, Refreshes(p));
    ClosingCoverage(Recorded(o.board, p));
  }

  lemma ClosingCoverage(b: Board)
    requires Sound(b) && HasBuilding(b)
    ensures var r := CloseLap(b);
      && (r == b || !HasBuilding(r))
      && (r.active != b.active ==>
           && Clean(b.generations[b.nextGen])
           && r.active in r.rows && r.rows[r.active].Keys == b.rows[b.nextGen].Keys)
  {
    WithRanksIsComplete(b.rows[b.nextGen]);
  }

  lemma BaselineCoverage(w: Watch, activated: set<EntryId>, failed: set<EntryId>)
    requires Tracked(w)
    ensures Tracked(Follow(w, Baselines(activated, failed)))
  {
    var entries := w.board.entries;
    var live, joined := ActiveIds(entries), Newcomers(entries, activated);
    assert ActiveIds(Baselined(entries, activated, failed)) == live + joined;
    assert joined !! live;
    StepKeepsSound(w.board, Baselines(activated, failed));
  }

  ghost predicate Opening(b: Board) {
    b.generations == map[] && b.rows == map[] && b.nextGen == 0 && b.active == 0
  }

  lemma {:induction false} RunsStayTracked(b: Board, evs: seq<Event>)
    requires Opening(b)
    ensures Sound(b) && Tracked(FollowAll(Watch(b, {}, {}), evs))
  {
    if evs != [] {
      var init, ev := evs[..|evs| - 1], evs[|evs| - 1];
      RunsStayTracked(b, init);
      var w := FollowAll(Watch(b, {}, {}), init);
      match ev
      case Refreshes(p) => PassCoverage(w, p);
      case Baselines(activated, failed) => BaselineCoverage(w, activated, failed);
    }
  }

  /** Readers never see a half board. Between any two moments of any run of ranking and
      baseline passes the active number does not fall, the board it shows is whole, and a
      number that is still shown shows the same rows. */
  lemma {:induction false} ReadersSeeWholeBoards(b: Board, evs: seq<Event>, k: nat)
    requires Opening(b) && k <= |evs|
    ensures Sound(b)
    ensures ShownAfter(FollowAll(Watch(b, {}, {}), evs[..k]).board, FollowAll(Watch(b, {}, {}), evs).board)
  {
    RunsStayTracked(b, evs);
    var w0 := Watch(b, {}, {});
    if k == |evs| {
      assert evs[..k] == evs;
      Unchanged(FollowAll(w0, evs).board);
    } else {
      var init, ev := evs[..|evs| - 1], evs[|evs| - 1];
      assert init[..k] == evs[..k];
      ReadersSeeWholeBoards(b, init, k);
      hide *;
      LastEvent(w0, evs);
      StepShowsWholeBoards(FollowAll(w0, init).board, ev);
      ShownThrough(FollowAll(w0, evs[..k]).board, FollowAll(w0, init).board, FollowAll(w0, evs).board);
    }
  }

  lemma Unchanged(b: Board)
    requires Sound(b)
    ensures ShownAfter(b, b)
  {
  }

  lemma LastEvent(w: Watch, evs: seq<Event>)
    requires Sound(w.board) && evs != []
    ensures FollowAll(w, evs).board == Step(FollowAll(w, evs[..|evs| - 1]).board, evs[|evs| - 1])
  {
    hide Sound, Step;
  }

  lemma ShownThrough(a: Board, b: Board, c: Board)
    requires ShownAfter(a, b) && ShownAfter(b, c)
    ensures ShownAfter(a, c)
  {
    hide Complete;
  }

  /** Over every run of ranking and baseline passes: whenever a pass promotes, its
      board lists the active entries except exactly those activated behind the cursor
      of the completing lap. So it lists everyone active when that lap began, and
      everyone active now when no entry was activated during the lap. */
  lemma PromotedBoardCoverage(b: Board, evs: seq<Event>, p: Refresh)
    requires Opening(b)
    ensures Sound(b)
    ensures var w := FollowAll(Watch(b, {}, {}), evs);
      var r := Pass(w.board, p);
      r.active != w.board.active ==>
        && r.active in r.rows
        && r.rows[r.active].Keys == ActiveIds(w.board.entries) - Behind(w)
        && LapStart(w) <= r.rows[r.active].Keys
        && (LapStart(w) == ActiveIds(w.board.entries) ==> r.rows[r.active].Keys == ActiveIds(w.board.entries))
  {
    RunsStayTracked(b, evs);
    PassCoverage(FollowAll(Watch(b, {}, {}), evs), p);
  }

  // ---- the gap is real -----------------------------------------------------------

  /** Entry 1 still awaits its baseline, entries 2 and 3 are active. */
  const STARTING := Board(
    map[1 := Entry(1, Admitted, ""), 2 := Entry(2, EntryStatus.Active, ""), 3 := Entry(3, EntryStatus.Active, "")],
    map[], map[], 0, 0)

  const ONES := Score(100.0, 0.0)

  /** Passes of batches of two in which everything can be valued. */
  const SMOOTHLY := Refresh(2, map[1 := ONES, 2 := ONES, 3 := ONES], {}, true, true)

  /** A lap is past entries 2 and 3 when entry 1 gets its baseline; nothing is pending
      any more, so the next, empty page promotes a board without it. */
  lemma LateNewcomerIsOmitted()
    ensures Opening(STARTING) && Sound(STARTING)
    ensures var w := FollowAll(Watch(STARTING, {}, {}), [Refreshes(SMOOTHLY), Baselines({1}, {})]);
      && 1 in ActiveIds(w.board.entries)
      && var r := Pass(w.board, SMOOTHLY);
        r.active == 1 && 1 in r.rows && 1 !in r.rows[1]
  {
    var first, evs := Refreshes(SMOOTHLY), [Refreshes(SMOOTHLY), Baselines({1}, {})];
    assert evs[..1] == [first] && [first][..0] == [];
    RunsStayTracked(STARTING, [first]);
    FirstPage();
    AfterFirstPage(FollowAll(Watch(STARTING, {}, {}), [first]), evs);
  }

  lemma AfterFirstPage(w: Watch, evs: seq<Event>)
    requires Opening(STARTING) && Sound(STARTING) && |evs| == 2 && evs[1] == Baselines({1}, {})
    requires w == FollowAll(Watch(STARTING, {}, {}), evs[..1]) && Tracked(w)
    requires w.board.entries == STARTING.entries && w.board.nextGen == 1 && HasBuilding(w.board) && CursorOf(w.board) == 3
    requires Clean(w.board.generations[1]) && w.board.generations[1].processed == 2 && w.board.active == 0
    requires WithStatus(w.board.entries, Admitted) == {1} && ActiveIds(w.board.entries) == {2, 3}
    ensures var n := FollowAll(Watch(STARTING, {}, {}), evs);
      && 1 in ActiveIds(n.board.entries)
      && var r := Pass(n.board, SMOOTHLY);
        r.active == 1 && 1 in r.rows && 1 !in r.rows[1]
  {
    assert FollowAll(Watch(STARTING, {}, {}), evs) == Follow(w, evs[1]);
    assert SMOOTHLY.batch == 2 && SMOOTHLY.advanceOk && SMOOTHLY.closeOk;
    hide *;
    NewcomerBehindIsOmitted(w, SMOOTHLY);
  }

  lemma TwoEntryPage()
    ensures Claim({2, 3}, 0, 2) == [2, 3]
  {
    var all := After({2, 3}, 0);
    assert all == {2, 3} && Least(all) == 2 && all - {2} == {3} && Least({3}) == 3;
    assert FirstOf({3}, 1) == [3] + FirstOf({3} - {3}, 0);
  }

  lemma FirstSweep()
    ensures var t := Sweep([2, 3], AnswersOf(SMOOTHLY));
      t.processed == 2 && t.successful == 2 && t.failed == 0 && !t.writeFailed
  {
    var a := AnswersOf(SMOOTHLY);
    assert [2, 3][..1] == [2] && [2][..0] == [];
    assert Sweep([2], a) == Visit(NO_TALLY, 2, a);
    assert Sweep([2, 3], a) == Visit(Sweep([2], a), 3, a);
  }

  lemma FirstPage()
    ensures Opening(STARTING) && Sound(STARTING)
    ensures var r := Pass(STARTING, SMOOTHLY);
      && r.entries == STARTING.entries && r.nextGen == 1 && HasBuilding(r) && CursorOf(r) == 3
      && Clean(r.generations[1]) && r.generations[1].processed == 2 && r.active == 0
    ensures WithStatus(STARTING.entries, Admitted) == {1} && ActiveIds(STARTING.entries) == {2, 3}
  {
    var o := EnsureBuilding(STARTING);
    assert WithStatus(STARTING.entries, Admitted) == {1} && ActiveIds(STARTING.entries) == {2, 3};
    TwoEntryPage();
    FirstSweep();
    hide Complete;
    SweepKeepsSound(o, SMOOTHLY);
    hide Sound, Sweep, Claim;
    assert Pass(STARTING, SMOOTHLY) == Recorded(o, SMOOTHLY);
  }

  lemma NewcomerBehindIsOmitted(w: Watch, p: Refresh)
    requires Tracked(w) && HasBuilding(w.board) && CursorOf(w.board) == 3
    requires Clean(w.board.generations[w.board.nextGen]) && w.board.generations[w.board.nextGen].processed == 2
    requires WithStatus(w.board.entries, Admitted) == {1} && ActiveIds(w.board.entries) == {2, 3}
    requires p.batch == 2 && p.advanceOk && p.closeOk
    ensures var n := Follow(w, Baselines({1}, {}));
      && Sound(n.board) && 1 in ActiveIds(n.board.entries)
      && var r := Pass(n.board, p);
        r.active == w.board.nextGen && r.active in r.rows && 1 !in r.rows[r.active]
  {
    var n := Follow(w, Baselines({1}, {}));
    BaselineCoverage(w, {1}, {});
    NewcomerActivates(w.board.entries);
    assert 1 in Newcomers(w.board.entries, {1}) by { assert 1 in WithStatus(w.board.entries, Admitted); }
    assert 1 in Behind(n);
    hide Complete, Covers;
    EmptyPagePromotes(n.board, p);
    PassCoverage(n, p);
  }

  lemma NewcomerActivates(entries: Entries)
    requires WithStatus(entries, Admitted) == {1} && ActiveIds(entries) == {2, 3}
    ensures ActiveIds(Baselined(entries, {1}, {})) == {1, 2, 3}
    ensures !PendingBaseline(Baselined(entries, {1}, {}))
  {
    var after := Baselined(entries, {1}, {});
    assert 1 in WithStatus(entries, Admitted);
    forall e | e in entries && entries[e].status == Admitted ensures e == 1 {
      assert e in WithStatus(entries, Admitted);
    }
    forall e | e in after ensures after[e].status == EntryStatus.Active <==> e in {1, 2, 3} {
      assert entries[e].status == EntryStatus.Active <==> e in ActiveIds(entries);
    }
    assert forall e :: e in ActiveIds(after) <==> e in {1, 2, 3} by {
      assert 2 in ActiveIds(entries) && 3 in ActiveIds(entries);
    }
  }

  lemma EmptyPagePromotes(b: Board, p: Refresh)
    requires Sound(b) && HasBuilding(b) && Clean(b.generations[b.nextGen]) && b.generations[b.nextGen].processed != 0
    requires After(ActiveIds(b.entries), b.generations[b.nextGen].cursor) == {} && !PendingBaseline(b.entries)
    requires p.advanceOk && p.closeOk
    ensures Pass(b, p).active == b.nextGen > b.active
  {
    hide Complete;
    assert Page(b, p.batch) == [];
    assert Sweep([], AnswersOf(p)) == NO_TALLY;
    SweepKeepsSound(b, p);
    PromoteKeepsSound(Recorded(b, p));
  }
}
