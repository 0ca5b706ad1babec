/** Finalizing one edition as a state machine: each step is one worker pass, and
    the theorems speak of every sequence of passes, faults included. */
module Finalization {
  import opened OrderedIds
  import opened RankOrder
  import opened Generations
  import opened Lifecycles

  datatype ResultRow = ResultRow(entry: EntryId, rank: nat, score: Score)

  datatype State = State(
    lifecycle: Lifecycle,
    entries: Entries,
    generations: map<nat, Generation>,
    rows: map<nat, map<EntryId, Score>>,
    nextGen: nat,
    results: seq<ResultRow>)

  /** What surrounds one pass: the batch size, the answers its sweep meets, and
      which repository calls go through. `prepared` covers basket adjustment and
      observation capture, which come before anything is written. */
  datatype PassInput = PassInput(
    batch: Limit, answers: Answers,
    prepared: bool, advanceOk: bool, closeOk: bool,
    names: map<int, int>)

  const LATE_REASON := "no valid end-time valuation within the operational window after ends_at"

  // ---- the repository's operations on values -------------------------------

  predicate HasBuilding(s: State) {
    s.nextGen in s.generations && s.generations[s.nextGen].status == Building
  }

  function EnsureBuilding(s: State): State {
    if HasBuilding(s) then s
    else
      var g := s.nextGen + 1;
      s.(nextGen := g, generations := s.generations[g := NEW_GENERATION], rows := s.rows[g := map[]])
  }

  function Strike(entries: Entries, struck: set<EntryId>): Entries {
    map e | e in entries ::
      if e in struck then entries[e].(status := Disqualified, reason := LATE_REASON) else entries[e]
  }

  /** The writes a sweep has made so far. */
  function Apply(s: State, t: Tally): State
    requires s.nextGen in s.rows
  {
    s.(rows := s.rows[s.nextGen := s.rows[s.nextGen] + t.drafts], entries := Strike(s.entries, t.struck))
  }

  function Record(s: State, cursor: nat, t: Tally): State
    requires s.nextGen in s.generations
  {
    s.(generations := s.generations[s.nextGen := Advance(s.generations[s.nextGen], cursor, t)])
  }

  function Close(s: State, status: Status): State
    requires s.nextGen in s.generations
  {
    s.(generations := s.generations[s.nextGen := s.generations[s.nextGen].(status := status)],
       rows := s.rows - {s.nextGen})
  }

  function NameOf(names: map<int, int>, user: int): int {
    if user in names then names[user] else user
  }

  function ResultKeys(rows: map<EntryId, Score>, entries: Entries, names: map<int, int>): Keys
    requires rows.Keys <= entries.Keys
  {
    map e | e in rows :: Key(rows[e].ret, NameOf(names, entries[e].user), entries[e].user)
  }

  lemma ResultKeysDistinct(rows: map<EntryId, Score>, entries: Entries, names: map<int, int>)
    requires rows.Keys <= entries.Keys && OnePerUser(entries)
    ensures Distinct(ResultKeys(rows, entries, names))
  {
  }

  ghost function Standings(rows: map<EntryId, Score>, entries: Entries, names: map<int, int>): seq<EntryId>
    requires rows.Keys <= entries.Keys && OnePerUser(entries)
  {
    ResultKeysDistinct(rows, entries, names);
    Ranked(ResultKeys(rows, entries, names), rows.Keys)
  }

  ghost function Results(rows: map<EntryId, Score>, entries: Entries, names: map<int, int>): seq<ResultRow>
    requires rows.Keys <= entries.Keys && OnePerUser(entries)
  {
    var order := Standings(rows, entries, names);
    StandingsCover(rows, entries, names);
    seq(|order|, i requires 0 <= i < |order| => ResultRow(order[i], i + 1, rows[order[i]]))
  }

  lemma StandingsCover(rows: map<EntryId, Score>, entries: Entries, names: map<int, int>)
    requires rows.Keys <= entries.Keys && OnePerUser(entries)
    ensures var order := Standings(rows, entries, names);
      && |order| == |rows|
      && (forall i :: 0 <= i < |order| ==> order[i] in rows)
      && (forall e :: e in rows ==> e in order)
      && (forall i, j :: 0 <= i < j < |order| ==> order[i] != order[j])
  {
    var keys := ResultKeys(rows, entries, names);
    ResultKeysDistinct(rows, entries, names);
    RankedIsSortedBijection(keys, rows.Keys);
    var order := Standings(rows, entries, names);
    assert |rows.Keys| == |rows|;
    forall e | e in rows ensures e in order { assert e in Elements(order); }
    forall i | 0 <= i < |order| ensures order[i] in rows { assert order[i] in Elements(order); }
    forall i, j | 0 <= i < j < |order| ensures order[i] != order[j] {
      assert Before(keys[order[i]], keys[order[j]]);
    }
  }

  function Settle(entries: Entries, scored: set<EntryId>): Entries {
    map e | e in entries ::
      if e in scored && entries[e].status == EntryStatus.Active
      then entries[e].(status := Finalized) else entries[e]
  }

  /** Promotion: a no-op on a completed edition, refused on any other that is not
      finalizing or whose generation is not cleanly building. */
  ghost function Promote(s: State, names: map<int, int>): State
    requires Sound(s) && s.nextGen in s.generations
  {
    if s.lifecycle != Lifecycle.Finalizing || !HasBuilding(s) || !Clean(s.generations[s.nextGen]) then s
    else
      var drafts := s.rows[s.nextGen];
      Close(s, Status.Completed).(
        lifecycle := Lifecycle.Completed,
        results := Results(drafts, s.entries, names),
        entries := Settle(s.entries, drafts.Keys))
  }

  /** The generation store's shape: only the newest generation can be building, and
      drafts exist for that one alone, each for a known entry. */
  ghost predicate Sound(s: State) {
    && (forall g :: g in s.generations ==>
         1 <= g <= s.nextGen && (s.generations[g].status == Building ==> g == s.nextGen))
    && s.rows.Keys == (if HasBuilding(s) then {s.nextGen} else {})
    && (HasBuilding(s) ==> s.rows[s.nextGen].Keys <= s.entries.Keys)
    && OnePerUser(s.entries)
  }

  lemma StrikeKeepsUsers(entries: Entries, struck: set<EntryId>)
    requires OnePerUser(entries)
    ensures OnePerUser(Strike(entries, struck))
  {
    var after := Strike(entries, struck);
    assert forall e :: e in after ==> after[e].user == entries[e].user;
  }

  lemma SettleKeepsUsers(entries: Entries, scored: set<EntryId>)
    requires OnePerUser(entries)
    ensures OnePerUser(Settle(entries, scored))
  {
    var after := Settle(entries, scored);
    assert forall e :: e in after ==> after[e].user == entries[e].user;
  }

  // ---- one pass ------------------------------------------------------------

  /** The page a pass over an opened generation claims. */
  function Page(s: State, batch: Limit): seq<EntryId>
    requires HasBuilding(s)
  {
    Claim(ActiveIds(s.entries), s.generations[s.nextGen].cursor, batch)
  }

  /** The state once the page's rows and disqualifications are written. */
  ghost function Swept(s: State, p: PassInput): State
    requires HasBuilding(s) && Sound(s)
  {
    Apply(s, Sweep(Page(s, p.batch), p.answers))
  }

  /** The state once the sweep's coverage is recorded as well. */
  ghost function Recorded(s: State, p: PassInput): (r: State)
    requires HasBuilding(s) && Sound(s)
  {
    var page := Page(s, p.batch);
    Record(Swept(s, p), NextCursor(s.generations[s.nextGen].cursor, page, p.batch), Sweep(page, p.answers))
  }

  /** One call of finalizeEdition, with each of its early returns. */
  ghost function Pass(s0: State, p: PassInput): State
    requires Sound(s0)
  {
    var s := EnsureBuilding(s0);
    RecordedSound(s, p);
    var page := Page(s, p.batch);
    if !p.prepared then s
    else if Sweep(page, p.answers).aborted || !p.advanceOk then Swept(s, p)
    else if |page| >= p.batch || !p.closeOk then Recorded(s, p)
    else CloseLap(Recorded(s, p), p.names)
  }

  /** The end of a lap: an incomplete generation is failed, a clean one promoted. */
  ghost function CloseLap(s: State, names: map<int, int>): State
    requires Sound(s) && HasBuilding(s)
  {
    if Clean(s.generations[s.nextGen]) then Promote(s, names) else Close(s, Failed)
  }

  lemma PageIsActive(s: State, batch: Limit)
    requires HasBuilding(s)
    ensures Elements(Page(s, batch)) <= ActiveIds(s.entries) <= s.entries.Keys
  {
    FirstOfIsAscending(After(ActiveIds(s.entries), s.generations[s.nextGen].cursor), batch);
  }

  lemma ApplySound(s: State, t: Tally)
    requires Sound(s) && HasBuilding(s) && t.drafts.Keys <= s.entries.Keys
    ensures var r := Apply(s, t);
      Sound(r) && HasBuilding(r) && r.generations == s.generations && r.entries.Keys == s.entries.Keys
  {
    StrikeKeepsUsers(s.entries, t.struck);
    hide OnePerUser;
  }

  lemma SweptSound(s: State, p: PassInput)
    requires Sound(s) && HasBuilding(s)
    ensures Sound(Swept(s, p)) && HasBuilding(Swept(s, p))
    ensures Swept(s, p).generations == s.generations && Swept(s, p).entries.Keys == s.entries.Keys
  {
    SweepAccounts(Page(s, p.batch), p.answers);
    PageIsActive(s, p.batch);
    hide Sound, Apply, Page, Sweep;
    ApplySound(s, Sweep(Page(s, p.batch), p.answers));
  }

  lemma RecordedSound(s: State, p: PassInput)
    requires Sound(s) && HasBuilding(s)
    ensures Sound(Swept(s, p)) && HasBuilding(Swept(s, p))
    ensures Sound(Recorded(s, p)) && HasBuilding(Recorded(s, p))
    ensures Recorded(s, p).entries.Keys == s.entries.Keys
  {
    SweptSound(s, p);
    hide OnePerUser, Swept, Sweep, Claim;
  }

  lemma CloseLapKeepsSound(s: State, names: map<int, int>)
    requires Sound(s) && HasBuilding(s)
    ensures Sound(CloseLap(s, names))
  {
    hide OnePerUser;
    SettleKeepsUsers(s.entries, s.rows[s.nextGen].Keys);
  }

  lemma PassKeepsSound(s0: State, p: PassInput)
    requires Sound(s0)
    ensures Sound(Pass(s0, p))
  {
    hide OnePerUser;
    var s := EnsureBuilding(s0);
    RecordedSound(s, p);
    CloseLapKeepsSound(Recorded(s, p), p.names);
  }

  /** The ways a pass can end, from the opened state. */
  lemma PassEnds(s: State, p: PassInput)
    requires Sound(s)
    ensures var o := EnsureBuilding(s);
      && Sound(o) && HasBuilding(o) && Sound(Recorded(o, p)) && HasBuilding(Recorded(o, p))
      && var page := Page(o, p.batch);
         Pass(s, p) ==
           if !p.prepared then o
           else if Sweep(page, p.answers).aborted || !p.advanceOk then Swept(o, p)
           else if |page| >= p.batch || !p.closeOk then Recorded(o, p)
           else CloseLap(Recorded(o, p), p.names)
  {
    hide OnePerUser, Swept, Recorded, CloseLap, Sweep, Page;
    RecordedSound(EnsureBuilding(s), p);
  }

  /** A pass depends on the opened state alone. */
  lemma PassOpens(s: State, p: PassInput)
    requires Sound(s)
    ensures var o := EnsureBuilding(s);
      && Sound(o) && HasBuilding(o) && o.lifecycle == s.lifecycle && o.entries == s.entries && o.results == s.results
      && Pass(o, p) == Pass(s, p)
      && (if HasBuilding(s) then o == s else o.rows[o.nextGen] == map[] && o.generations[o.nextGen] == NEW_GENERATION)
  {
    hide OnePerUser, Swept, Recorded, CloseLap;
    assert EnsureBuilding(EnsureBuilding(s)) == EnsureBuilding(s);
  }

  ghost function Run(s: State, ps: seq<PassInput>): (r: State)
    requires Sound(s)
    ensures Sound(r)
  {
    if ps == [] then s
    else
      var before := Run(s, ps[..|ps| - 1]);
      PassKeepsSound(before, ps[|ps| - 1]);
      Pass(before, ps[|ps| - 1])
  }
}
