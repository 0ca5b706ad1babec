/** The finalization half of the repository: one edition's generations, draft rows,
    results and entries, updated in place. */
module FinalizationStore {
  import opened OrderedIds
  import opened RankOrder
  import opened Generations
  import opened Lifecycles
  import opened Finalization
  import opened Outcomes

  class Store {
    var lifecycle: Lifecycle
    var entries: Entries
    var generations: map<nat, Generation>
    var rows: map<nat, map<EntryId, Score>>
    var nextGen: nat
    var results: seq<ResultRow>

    constructor (lifecycle: Lifecycle, entries: Entries)
      ensures Now() == State(lifecycle, entries, map[], map[], 0, [])
    {
      this.lifecycle, this.entries := lifecycle, entries;
      generations, rows, nextGen, results := map[], map[], 0, [];
    }

    ghost function Now(): State
      reads this
    {
      State(lifecycle, entries, generations, rows, nextGen, results)
    }

    /** The building generation, opened if there is none. */
    method EnsureBuildingGeneration() returns (number: nat, g: Generation)
      requires Sound(Now())
      modifies this
      ensures Now() == EnsureBuilding(old(Now()))
      ensures number == nextGen && number in generations && g == generations[number]
    {
      var building := FindBuilding(generations);
      if building == 0 {
        nextGen := nextGen + 1;
        building := nextGen;
        generations := generations[building := NEW_GENERATION];
        rows := rows[building := map[]];
      }
      number, g := building, generations[building];
    }

    method UpsertRow(number: nat, e: EntryId, score: Score, writeOk: bool) returns (r: Result<()>)
      requires Sound(Now())
      modifies this`rows
      ensures var built := number in generations && generations[number].status == Building;
        if writeOk && built then
          r.Success? && number in old(rows) && rows == old(rows)[number := Put(old(rows)[number], e, score)]
        else
          r.Failure? && rows == old(rows)
    {
      if !writeOk {
        return Failure(StoreUnavailable);
      }
      if number !in generations || generations[number].status != Building {
        return Failure(GenerationConflict);
      }
      rows := rows[number := Put(rows[number], e, score)];
      r := Success(());
    }

    method DisqualifyEntry(e: EntryId, reason: string, writeOk: bool) returns (r: Result<()>)
      modifies this`entries
      ensures var live := e in old(entries) && old(entries)[e].status == EntryStatus.Active;
        if writeOk && live then
          r.Success? && entries == old(entries)[e := old(entries)[e].(status := Disqualified, reason := reason)]
        else
          r.Failure? && entries == old(entries)
    {
      if !writeOk {
        return Failure(StoreUnavailable);
      }
      if e !in entries || entries[e].status != EntryStatus.Active {
        return Failure(EntryConflict);
      }
      entries := entries[e := entries[e].(status := Disqualified, reason := reason)];
      r := Success(());
    }

    /** Adds a batch's counts to a generation and moves its cursor; the write failure
        latches. */
    method AdvanceGeneration(number: nat, cursor: nat, processed: nat, successful: nat, failed: nat, writeFailed: bool)
        returns (r: Result<()>)
      modifies this`generations
      ensures if number in old(generations) then
          r.Success? && generations == old(generations)[number :=
            Advance(old(generations)[number], cursor, NO_TALLY.(
              processed := processed, successful := successful, failed := failed, writeFailed := writeFailed))]
        else
          r == Failure(GenerationConflict) && generations == old(generations)
    {
      if number !in generations {
        return Failure(GenerationConflict);
      }
      var g := generations[number];
      g := g.(cursor := cursor);
      g := g.(processed := g.processed + processed);
      g := g.(successful := g.successful + successful);
      g := g.(failed := g.failed + failed);
      if writeFailed {
        g := g.(writeFailure := true);
      }
      generations := generations[number := g];
      r := Success(());
    }

    method FailGeneration(number: nat) returns (r: Result<()>)
      modifies this`generations, this`rows
      ensures if number in old(generations) && old(generations)[number].status == Building then
          && r.Success?
          && generations == old(generations)[number := old(generations)[number].(status := Failed)]
          && rows == old(rows) - {number}
        else
          r == Failure(GenerationConflict) && generations == old(generations) && rows == old(rows)
    {
      if number !in generations || generations[number].status != Building {
        return Failure(GenerationConflict);
      }
      generations := generations[number := generations[number].(status := Failed)];
      rows := rows - {number};
      r := Success(());
    }

    /** Ranks the drafts into the immutable results, marks scored entries finalized and
        completes the edition; on a completed edition it is an idempotent success,
        whatever generation it is asked for. */
    method PromoteGeneration(number: nat, names: map<int, int>) returns (r: Result<()>)
      requires Sound(Now())
      modifies this
      ensures var clean := number in old(generations) && old(generations)[number].status == Building &&
          Clean(old(generations)[number]);
        if old(lifecycle) == Lifecycle.Completed then
          r.Success? && Now() == old(Now())
        else if old(lifecycle) != Lifecycle.Finalizing then
          r == Failure(LifecycleConflict) && Now() == old(Now())
        else if !clean then
          r == Failure(GenerationConflict) && Now() == old(Now())
        else
          r.Success? && Now() == Promote(old(Now()), names)
    {
      if lifecycle == Lifecycle.Completed {
        return Success(());
      }
      if lifecycle != Lifecycle.Finalizing {
        return Failure(LifecycleConflict);
      }
      if number !in generations || generations[number].status != Building || !Clean(generations[number]) {
        return Failure(GenerationConflict);
      }
      var drafts := rows[number];
      results := Materialize(drafts, entries, names);
      lifecycle := Lifecycle.Completed;
      SettleScored(drafts.Keys);
      generations := generations[number := generations[number].(status := Status.Completed)];
      rows := rows - {number};
      r := Success(());
    }

    /** Marks the scored entries that are still active as finalized. */
    method SettleScored(scored: set<EntryId>)
      modifies this`entries
      ensures entries == Settle(old(entries), scored)
    {
      var todo := scored;
      while todo != {}
        invariant todo <= scored
        invariant entries == Settle(old(entries), scored - todo)
        decreases todo
      {
        var e :| e in todo;
        todo := todo - {e};
        if e in entries && entries[e].status == EntryStatus.Active {
          entries := entries[e := entries[e].(status := Finalized)];
        }
      }
      assert scored - todo == scored;
    }
  }

  /** Sorts the drafts and gives them the ranks 1, 2, 3, ... */
  method Materialize(drafts: map<EntryId, Score>, entries: Entries, names: map<int, int>) returns (out: seq<ResultRow>)
    requires drafts.Keys <= entries.Keys && OnePerUser(entries)
    ensures out == Results(drafts, entries, names)
  {
    hide OnePerUser, Ranked, ResultKeys, Results;
    ResultKeysDistinct(drafts, entries, names);
    KeysOfDrafts(drafts, entries, names);
    var order := SortRows(ResultKeys(drafts, entries, names), drafts.Keys);
    StandingsCover(drafts, entries, names);
    assert order == Standings(drafts, entries, names);
    out := NumberRows(order, drafts);
    NumberedAreResults(order, out, drafts, entries, names);
  }

  lemma KeysOfDrafts(drafts: map<EntryId, Score>, entries: Entries, names: map<int, int>)
    requires drafts.Keys <= entries.Keys
    ensures drafts.Keys <= ResultKeys(drafts, entries, names).Keys
  {
  }

  lemma NumberedAreResults(order: seq<EntryId>, out: seq<ResultRow>, drafts: map<EntryId, Score>, entries: Entries,
      names: map<int, int>)
    requires drafts.Keys <= entries.Keys && OnePerUser(entries) && order == Standings(drafts, entries, names)
    requires |out| == |order| && forall k :: 0 <= k < |order| ==> order[k] in drafts
    requires forall k :: 0 <= k < |order| ==> out[k] == ResultRow(order[k], k + 1, drafts[order[k]])
    ensures out == Results(drafts, entries, names)
  {
    hide OnePerUser, Standings;
  }

  method NumberRows(order: seq<EntryId>, drafts: map<EntryId, Score>) returns (out: seq<ResultRow>)
    requires forall e :: e in order ==> e in drafts
    ensures |out| == |order|
    ensures forall k :: 0 <= k < |order| ==> out[k] == ResultRow(order[k], k + 1, drafts[order[k]])
  {
    out := [];
    for i := 0 to |order|
      invariant |out| == i
      invariant forall k :: 0 <= k < i ==> out[k] == ResultRow(order[k], k + 1, drafts[order[k]])
    {
      out := out + [ResultRow(order[i], i + 1, drafts[order[i]])];
    }
  }
}
