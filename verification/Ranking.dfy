/** The live board of one active edition as a state machine: ranking passes and
    baseline passes in any order, faults included. */
module Ranking {
  import opened OrderedIds
  import opened RankOrder
  import opened Generations
  import opened Lifecycles

  /** A ranking row; its rank is 0 until promotion fills it in. */
  datatype RankRow = RankRow(score: Score, rank: nat)

  type Rows = map<EntryId, RankRow>

  datatype Board = Board(
    entries: Entries,
    generations: map<nat, Generation>,
    rows: map<nat, Rows>,
    nextGen: nat,
    active: nat)

  /** What surrounds one pass. A ranking sweep never disqualifies, so `late` is
      ignored; an entry whose basket cannot be adjusted counts as not valued. */
  datatype Refresh = Refresh(
    batch: Limit, valued: map<EntryId, Score>, upsertFails: set<EntryId>,
    advanceOk: bool, closeOk: bool)

  function AnswersOf(p: Refresh): Answers {
    Answers(p.valued, p.upsertFails, false, {})
  }

  // ---- the repository's operations on values -----------------------------------

  predicate HasBuilding(b: Board) {
    b.nextGen in b.generations && b.generations[b.nextGen].status == Building
  }

  function EnsureBuilding(b: Board): Board {
    if HasBuilding(b) then b
    else
      var g := b.nextGen + 1;
      b.(nextGen := g, generations := b.generations[g := NEW_GENERATION], rows := b.rows[g := map[]])
  }

  function Unranked(drafts: map<EntryId, Score>): Rows {
    map e | e in drafts :: RankRow(drafts[e], 0)
  }

  function Apply(b: Board, t: Tally): Board
    requires b.nextGen in b.rows
  {
    b.(rows := b.rows[b.nextGen := b.rows[b.nextGen] + Unranked(t.drafts)])
  }

  function Record(b: Board, cursor: nat, t: Tally): Board
    requires b.nextGen in b.generations
  {
    b.(generations := b.generations[b.nextGen := Advance(b.generations[b.nextGen], cursor, t)])
  }

  function Fail(b: Board): Board
    requires b.nextGen in b.generations
  {
    b.(generations := b.generations[b.nextGen := b.generations[b.nextGen].(status := Failed)],
       rows := b.rows - {b.nextGen})
  }

  /** The live board's order: return descending, then entry id ascending. */
  function BoardKeys(rows: Rows): Keys {
    map e | e in rows :: Key(rows[e].score.ret, e, 0)
  }

  ghost function Standings(rows: Rows): seq<EntryId> {
    Ranked(BoardKeys(rows), rows.Keys)
  }

  /** A row's rank by definition: one more than the number of rows that beat it. */
  ghost function RankIn(rows: Rows, e: EntryId): nat
    requires e in rows
  {
    1 + |Better(BoardKeys(rows), rows.Keys, e)|
  }

  ghost function WithRanks(rows: Rows): Rows {
    map e | e in rows :: rows[e].(rank := RankIn(rows, e))
  }

  /** A whole board: every row carries its rank among all the rows. */
  ghost predicate Complete(rows: Rows) {
    forall e :: e in rows ==> rows[e].rank == RankIn(rows, e)
  }

  predicate Promotable(g: Generation) {
    g.status == Building && Clean(g) && g.processed == g.successful
  }

  function Supersede(generations: map<nat, Generation>, active: nat): map<nat, Generation> {
    if active in generations then generations[active := generations[active].(status := Superseded)] else generations
  }

  /** Promotion swaps the reader's board in one step; a generation that is not cleanly
      building is refused and nothing changes. */
  ghost function Promote(b: Board): Board
    requires b.nextGen in b.generations && (HasBuilding(b) ==> b.nextGen in b.rows)
  {
    var g := b.nextGen;
    if !Promotable(b.generations[g]) then b
    else
      b.(generations := Supersede(b.generations[g := b.generations[g].(status := Status.Active)], b.active),
         rows := b.rows[g := WithRanks(b.rows[g])] - {b.active},
         active := g)
  }

  /** The generation store's shape: at most the newest generation is building, at most
      one is active, rows exist for those two alone, and the active board is whole. */
  ghost predicate Sound(b: Board) {
    && (forall g :: g in b.generations ==>
         && 1 <= g <= b.nextGen
         && (b.generations[g].status == Building ==> g == b.nextGen)
         && (b.generations[g].status == Status.Active <==> g == b.active))
    && (b.active != 0 ==> b.active in b.generations)
    && b.rows.Keys == (if HasBuilding(b) then {b.nextGen} else {}) + (if b.active != 0 then {b.active} else {})
    && (b.active != 0 ==> Complete(b.rows[b.active]))
    && (HasBuilding(b) ==> Tallied(b.generations[b.nextGen]))
  }

  /** The counts never disagree silently: while nothing has failed, every processed
      entry was successful. */
  ghost predicate Tallied(g: Generation) {
    Clean(g) ==> g.processed == g.successful
  }

  // ---- one pass -----------------------------------------------------------------

  function Page(b: Board, batch: Limit): seq<EntryId>
    requires HasBuilding(b)
  {
    Claim(ActiveIds(b.entries), b.generations[b.nextGen].cursor, batch)
  }

  function Swept(b: Board, p: Refresh): Board
    requires HasBuilding(b) && b.nextGen in b.rows
  {
    Apply(b, Sweep(Page(b, p.batch), AnswersOf(p)))
  }

  function Recorded(b: Board, p: Refresh): Board
    requires HasBuilding(b) && b.nextGen in b.rows
  {
    var page := Page(b, p.batch);
    Record(Swept(b, p), NextCursor(b.generations[b.nextGen].cursor, page, p.batch), Sweep(page, AnswersOf(p)))
  }

  predicate PendingBaseline(entries: Entries) {
    exists e :: e in entries && entries[e].status == Admitted
  }

  /** The end of a lap over a recorded generation: an empty population promotes
      nothing, an incomplete generation is failed, a clean one waits for the last
      baseline and is then promoted. */
  ghost function CloseLap(b: Board): Board
    requires HasBuilding(b) && b.nextGen in b.rows
  {
    var g := b.generations[b.nextGen];
    if g.processed == 0 then b
    else if !Clean(g) then Fail(b)
    else if PendingBaseline(b.entries) then b
    else Promote(b)
  }

  /** One call of refreshEditionRanking. */
  ghost function Pass(b0: Board, p: Refresh): Board
    requires Sound(b0)
  {
    var b := EnsureBuilding(b0);
    if !p.advanceOk then Swept(b, p)
    else if |Page(b, p.batch)| >= p.batch || !p.closeOk then Recorded(b, p)
    else CloseLap(Recorded(b, p))
  }

  /** A baseline pass as the board sees it: some admitted entries become active,
      some fail for good. */
  datatype Event = Refreshes(p: Refresh) | Baselines(activated: set<EntryId>, failed: set<EntryId>)

  ghost function Step(b: Board, ev: Event): Board
    requires Sound(b)
  {
    match ev
    case Refreshes(p) => Pass(b, p)
    case Baselines(activated, failed) => b.(entries := Baselined(b.entries, activated, failed))
  }

  // ---- soundness over every step ---------------------------------------------------

  lemma WithRanksIsComplete(rows: Rows)
    ensures Complete(WithRanks(rows))
    ensures WithRanks(rows).Keys == rows.Keys
  {
    var ranked := WithRanks(rows);
    assert BoardKeys(ranked) == BoardKeys(rows) && ranked.Keys == rows.Keys;
    assert forall e :: e in rows ==> RankIn(ranked, e) == RankIn(rows, e);
  }

  /** The reader's view of a step that promotes nothing. */
  ghost predicate SameForReaders(b: Board, r: Board) {
    r.active == b.active && (b.active in b.rows ==> b.active in r.rows && r.rows[b.active] == b.rows[b.active])
  }

  lemma SweepKeepsSound(b: Board, p: Refresh)
    requires Sound(b) && HasBuilding(b)
    ensures Sound(Swept(b, p)) && HasBuilding(Swept(b, p)) && SameForReaders(b, Swept(b, p))
    ensures Sound(Recorded(b, p)) && HasBuilding(Recorded(b, p)) && SameForReaders(b, Recorded(b, p))
  {
    var page := Page(b, p.batch);
    var t := Sweep(page, AnswersOf(p));
    SweepAccounts(page, AnswersOf(p));
    hide Complete, Page, Sweep, Apply, Record;
    ApplyKeepsSound(b, t);
    RecordKeepsSound(Swept(b, p), NextCursor(b.generations[b.nextGen].cursor, page, p.batch), t);
  }

  lemma ApplyKeepsSound(b: Board, t: Tally)
    requires Sound(b) && HasBuilding(b)
    ensures Sound(Apply(b, t)) && HasBuilding(Apply(b, t)) && SameForReaders(b, Apply(b, t))
  {
    hide Complete;
  }

  lemma RecordKeepsSound(b: Board, cursor: nat, t: Tally)
    requires Sound(b) && HasBuilding(b) && (t.failed == 0 && !t.writeFailed ==> t.processed == t.successful)
    ensures Sound(Record(b, cursor, t)) && HasBuilding(Record(b, cursor, t)) && SameForReaders(b, Record(b, cursor, t))
  {
    hide Complete;
  }

  lemma OpeningKeepsSound(b: Board)
    requires Sound(b)
    ensures Sound(EnsureBuilding(b)) && HasBuilding(EnsureBuilding(b)) && SameForReaders(b, EnsureBuilding(b))
  {
    hide Complete;
    if !HasBuilding(b) {
      var g := b.nextGen + 1;
      assert g !in b.generations && b.active != g;
    }
  }

  lemma PromoteKeepsSound(b: Board)
    requires Sound(b) && HasBuilding(b)
    ensures Sound(Promote(b))
    ensures Promote(b).active != b.active ==> b.active < Promote(b).active == b.nextGen
  {
    WithRanksIsComplete(b.rows[b.nextGen]);
  }

  lemma CloseLapKeepsSound(b: Board)
    requires Sound(b) && HasBuilding(b)
    ensures Sound(CloseLap(b))
    ensures SameForReaders(b, CloseLap(b)) || b.active < CloseLap(b).active == b.nextGen
  {
    PromoteKeepsSound(b);
  }

  lemma PassKeepsSound(b: Board, p: Refresh)
    requires Sound(b)
    ensures Sound(Pass(b, p))
    ensures SameForReaders(b, Pass(b, p)) || b.active < Pass(b, p).active
  {
    var o := EnsureBuilding(b);
    OpeningKeepsSound(b);
    SweepKeepsSound(o, p);
    var r := Recorded(o, p);
    hide Sound, HasBuilding, Recorded, Swept, CloseLap;
    CloseLapKeepsSound(r);
  }

  lemma StepKeepsSound(b: Board, ev: Event)
    requires Sound(b)
    ensures Sound(Step(b, ev))
    ensures SameForReaders(b, Step(b, ev)) || b.active < Step(b, ev).active
  {
    if ev.Refreshes? {
      PassKeepsSound(b, ev.p);
    }
  }

  /** The ways a pass can go on from the opened board. */
  lemma PassCases(b: Board, p: Refresh)
    requires Sound(b)
    ensures var o := EnsureBuilding(b);
      && Sound(o) && HasBuilding(o) && o.entries == b.entries
      && var page := Page(o, p.batch);
        var t := Sweep(page, AnswersOf(p));
        var recorded := Record(Apply(o, t), NextCursor(o.generations[o.nextGen].cursor, page, p.batch), t);
      && Sound(recorded) && HasBuilding(recorded)
      && Pass(b, p) ==
        (if !p.advanceOk then Apply(o, t)
         else if |page| >= p.batch || !p.closeOk then recorded
         else CloseLap(recorded))
  {
    OpeningKeepsSound(b);
    SweepKeepsSound(EnsureBuilding(b), p);
    hide Sound, CloseLap, Sweep, Claim;
  }

  /** What readers see of one step: the active number never falls, its board is whole,
      and under an unchanged number it is the same row for row. */
  ghost predicate ShownAfter(b: Board, r: Board) {
    && b.active <= r.active
    && (r.active != 0 ==> r.active in r.rows && Complete(r.rows[r.active]))
    && (b.active != 0 && r.active == b.active ==>
         b.active in b.rows && r.active in r.rows && r.rows[r.active] == b.rows[b.active])
  }

  lemma StepShowsWholeBoards(b: Board, ev: Event)
    requires Sound(b)
    ensures ShownAfter(b, Step(b, ev))
  {
    StepKeepsSound(b, ev);
  }
}
