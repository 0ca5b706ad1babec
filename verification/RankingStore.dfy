/** The ranking half of the repository, the refresh pass over it, and the paged
    leaderboard read from it. */
module RankingStore {
  import opened OrderedIds
  import opened RankOrder
  import opened Generations
  import opened Lifecycles
  import opened Outcomes
  import opened Ranking

  class Store {
    var entries: Entries
    var generations: map<nat, Generation>
    var rows: map<nat, Rows>
    var nextGen: nat
    var active: nat

    constructor (entries: Entries)
      ensures Now() == Board(entries, map[], map[], 0, 0)
    {
      this.entries := entries;
      generations, rows, nextGen, active := map[], map[], 0, 0;
    }

    ghost function Now(): Board
      reads this
    {
      Board(entries, generations, rows, nextGen, active)
    }

    /** The building generation, opened if there is none. */
    method EnsureBuildingGeneration() returns (number: nat, g: Generation)
      requires Sound(Now())
      modifies this
      ensures Now() == EnsureBuilding(old(Now()))
      ensures number == nextGen && number in generations && g == generations[number]
    {
      var building := FindBuilding(generations);
      if building == 0 {
        nextGen := nextGen + 1;
        building := nextGen;
        generations := generations[building := NEW_GENERATION];
        rows := rows[building := map[]];
      }
      number, g := building, generations[building];
    }

    method UpsertRanking(number: nat, e: EntryId, score: Score, writeOk: bool) returns (r: Result<()>)
      requires Sound(Now())
      modifies this`rows
      ensures var built := number in generations && generations[number].status == Building;
        if writeOk && built then
          r.Success? && number in old(rows) && rows == old(rows)[number := PutRow(old(rows)[number], e, RankRow(score, 0))]
        else
          r.Failure? && rows == old(rows)
    {
      if !writeOk {
        return Failure(StoreUnavailable);
      }
      if number !in generations || generations[number].status != Building {
        return Failure(GenerationConflict);
      }
      rows := rows[number := PutRow(rows[number], e, RankRow(score, 0))];
      r := Success(());
    }

    method AdvanceGeneration(number: nat, cursor: nat, t: Tally) returns (r: Result<()>)
      modifies this`generations
      ensures if number in old(generations) then
          r.Success? && generations == old(generations)[number := Advance(old(generations)[number], cursor, t)]
        else
          r == Failure(GenerationConflict) && generations == old(generations)
    {
      if number !in generations {
        return Failure(GenerationConflict);
      }
      var g := generations[number];
      g := g.(cursor := cursor);
      g := g.(processed := g.processed + t.processed);
      g := g.(successful := g.successful + t.successful);
      g := g.(failed := g.failed + t.failed);
      if t.writeFailed {
        g := g.(writeFailure := true);
      }
      generations := generations[number := g];
      r := Success(());
    }

    method FailGeneration(number: nat) returns (r: Result<()>)
      modifies this`generations, this`rows
      ensures if number in old(generations) && old(generations)[number].status == Building then
          && r.Success?
          && generations == old(generations)[number := old(generations)[number].(status := Failed)]
          && rows == old(rows) - {number}
        else
          r == Failure(GenerationConflict) && generations == old(generations) && rows == old(rows)
    {
      if number !in generations || generations[number].status != Building {
        return Failure(GenerationConflict);
      }
      generations := generations[number := generations[number].(status := Failed)];
      rows := rows - {number};
      r := Success(());
    }

    /** Fills in the ranks of the generation's rows, makes it the active one and drops the
        board it replaces. */
    method PromoteGeneration(number: nat) returns (r: Result<()>)
      requires Sound(Now())
      modifies this
      ensures if number in old(generations) && Promotable(old(generations)[number]) then
          r.Success? && number == nextGen && Now() == Promote(old(Now()))
        else
          r == Failure(GenerationConflict) && Now() == old(Now())
    {
      if number !in generations || !Promotable(generations[number]) {
        return Failure(GenerationConflict);
      }
      var ranked := MaterializeRanks(rows[number]);
      rows := rows[number := ranked];
      generations := generations[number := generations[number].(status := Status.Active)];
      if active != 0 {
        generations := generations[active := generations[active].(status := Superseded)];
        rows := rows - {active};
      }
      active := number;
      r := Success(());
      assert old(active) == 0 ==> rows - {0} == rows;
    }

    method HasPendingBaselineEntries() returns (pending: bool)
      ensures pending == PendingBaseline(entries)
    {
      var keys := entries.Keys;
      while keys != {}
        invariant keys <= entries.Keys
        invariant forall e :: e in entries && e !in keys ==> entries[e].status != Admitted
        decreases keys
      {
        var e :| e in keys;
        keys := keys - {e};
        if entries[e].status == Admitted {
          return true;
        }
      }
      return false;
    }
  }

  function PutRow(rows: Rows, e: EntryId, row: RankRow): Rows {
    rows[e := row]
  }

  lemma BoardKeysDistinct(rows: Rows)
    ensures Distinct(BoardKeys(rows))
  {
  }

  /** Sorting places a row at the rank its definition gives it. */
  lemma StandingIsRank(rows: Rows, i: nat)
    requires i < |Standings(rows)|
    ensures Standings(rows)[i] in rows
    ensures RankIn(rows, Standings(rows)[i]) == i + 1
  {
    BoardKeysDistinct(rows);
    RankCountsBetterRows(BoardKeys(rows), rows.Keys, i);
  }

  /** The standings list every row once. */
  lemma StandingsList(rows: Rows)
    ensures var order := Standings(rows);
      && |order| == |rows|
      && (forall i :: 0 <= i < |order| ==> order[i] in rows)
      && (forall e :: e in rows ==> e in order)
      && (forall i, j :: 0 <= i < j < |order| ==> order[i] != order[j])
  {
    var keys := BoardKeys(rows);
    BoardKeysDistinct(rows);
    RankedIsSortedBijection(keys, rows.Keys);
    var order := Standings(rows);
    assert |rows.Keys| == |rows|;
    forall e | e in rows ensures e in order { assert e in Elements(order); }
    forall i | 0 <= i < |order| ensures order[i] in rows { assert order[i] in Elements(order); }
    forall i, j | 0 <= i < j < |order| ensures order[i] != order[j] {
      assert Before(keys[order[i]], keys[order[j]]);
    }
  }

  /** Sorts the rows and writes 1, 2, 3, ... into them. */
  method MaterializeRanks(rows: Rows) returns (ranked: Rows)
    ensures ranked == WithRanks(rows)
  {
    BoardKeysDistinct(rows);
    var order := SortRows(BoardKeys(rows), rows.Keys);
    StandingsList(rows);
    assert order == Standings(rows);
    hide Standings, BoardKeys, RankIn, Ranked, WithRanks;
    ranked := NumberRanks(order, rows);
    NumbersAreRanks(order, rows, ranked);
  }

  /** Rows numbered down the standings carry their ranks. */
  lemma NumbersAreRanks(order: seq<EntryId>, rows: Rows, ranked: Rows)
    requires order == Standings(rows) && forall i :: 0 <= i < |order| ==> order[i] in rows
    requires forall e :: e in rows ==> e in order
    requires ranked.Keys == rows.Keys
    requires forall k :: 0 <= k < |order| ==> ranked[order[k]] == rows[order[k]].(rank := k + 1)
    ensures ranked == WithRanks(rows)
  {
    hide Standings, RankIn;
    forall e | e in rows ensures ranked[e] == rows[e].(rank := RankIn(rows, e)) {
      var i :| 0 <= i < |order| && order[i] == e;
      StandingIsRank(rows, i);
    }
  }

  method NumberRanks(order: seq<EntryId>, rows: Rows) returns (ranked: Rows)
    requires forall i :: 0 <= i < |order| ==> order[i] in rows
    requires forall i, j :: 0 <= i < j < |order| ==> order[i] != order[j]
    ensures ranked.Keys == rows.Keys
    ensures forall k :: 0 <= k < |order| ==> ranked[order[k]] == rows[order[k]].(rank := k + 1)
  {
    ranked := rows;
    for i := 0 to |order|
      invariant ranked.Keys == rows.Keys
      invariant forall k :: 0 <= k < i ==> ranked[order[k]] == rows[order[k]].(rank := k + 1)
      invariant forall k :: i <= k < |order| ==> ranked[order[k]] == rows[order[k]]
    {
      ranked := PutRow(ranked, order[i], ranked[order[i]].(rank := i + 1));
    }
  }
}
