/** The two boards break ties by different chains: the live one by entry id, the final one
    by display name and then user. */
module TieBreaks {
  import opened OrderedIds
  import opened RankOrder
  import opened Lifecycles
  import Finalization
  import Ranking
  import RankingStore

  /** The final results' chain between two entries of equal return. */
  predicate NamedBefore(entries: Entries, names: map<int, int>, d: EntryId, e: EntryId)
    requires d in entries && e in entries
  {
    var first, second := Finalization.NameOf(names, entries[d].user), Finalization.NameOf(names, entries[e].user);
    first < second || (first == second && entries[d].user < entries[e].user)
  }

  /** Tied entries come in the order of their ids under the names' chain as well. */
  ghost predicate TiesAgree(scores: map<EntryId, Score>, entries: Entries, names: map<int, int>)
    requires scores.Keys <= entries.Keys
  {
    forall d, e :: d in scores && e in scores && d < e && scores[d].ret == scores[e].ret ==> NamedBefore(entries, names, d, e)
  }

  /** The live board and the final results list the same scores in the same order if and
      only if every pair tied on return is ordered alike by display name and user and by
      entry id. */
  lemma BoardsAgreeExactly(scores: map<EntryId, Score>, entries: Entries, names: map<int, int>)
    requires scores.Keys <= entries.Keys && OnePerUser(entries)
    ensures Finalization.Standings(scores, entries, names) == Ranking.Standings(Ranking.Unranked(scores)) <==>
      TiesAgree(scores, entries, names)
  {
    var named, live := Finalization.ResultKeys(scores, entries, names), Ranking.BoardKeys(Ranking.Unranked(scores));
    Finalization.ResultKeysDistinct(scores, entries, names);
    RankingStore.BoardKeysDistinct(Ranking.Unranked(scores));
    SameListingExactly(named, live, scores.Keys);
    KeysAgreeExactly(scores, entries, names);
    hide Ranked, Distinct, OrderAlike, TiesAgree, OnePerUser;
    assert Ranking.Unranked(scores).Keys == scores.Keys;
  }

  /** How each chain orders one pair. */
  lemma PairOrders(scores: map<EntryId, Score>, entries: Entries, names: map<int, int>, d: EntryId, e: EntryId)
    requires d in scores && e in scores && scores.Keys <= entries.Keys
    ensures var named, live := Finalization.ResultKeys(scores, entries, names), Ranking.BoardKeys(Ranking.Unranked(scores));
      && d in named && e in named && d in live && e in live
      && (Before(live[d], live[e]) <==>
           scores[d].ret > scores[e].ret || (scores[d].ret == scores[e].ret && d < e))
      && (Before(named[d], named[e]) <==>
           scores[d].ret > scores[e].ret || (scores[d].ret == scores[e].ret && NamedBefore(entries, names, d, e)))
  {
  }

  lemma KeysAgreeExactly(scores: map<EntryId, Score>, entries: Entries, names: map<int, int>)
    requires scores.Keys <= entries.Keys && OnePerUser(entries)
    ensures var named, live := Finalization.ResultKeys(scores, entries, names), Ranking.BoardKeys(Ranking.Unranked(scores));
      && scores.Keys <= named.Keys && scores.Keys <= live.Keys
      && (OrderAlike(named, live, scores.Keys) <==> TiesAgree(scores, entries, names))
  {
    var named, live := Finalization.ResultKeys(scores, entries, names), Ranking.BoardKeys(Ranking.Unranked(scores));
    hide OnePerUser, NamedBefore, Before, Finalization.ResultKeys, Ranking.BoardKeys, Ranking.Unranked;
    forall d, e | d in scores && e in scores
      ensures d in named && e in named && d in live && e in live
      ensures TiesAgree(scores, entries, names) ==> (Before(named[d], named[e]) <==> Before(live[d], live[e]))
    {
      PairOrders(scores, entries, names, d, e);
      OneComesFirst(scores, entries, names, d, e);
    }
    if OrderAlike(named, live, scores.Keys) {
      forall d, e | d in scores && e in scores && d < e && scores[d].ret == scores[e].ret ensures NamedBefore(entries, names, d, e) {
        PairOrders(scores, entries, names, d, e);
        assert Before(named[d], named[e]) <==> Before(live[d], live[e]);
      }
    }
  }

  lemma OneComesFirst(scores: map<EntryId, Score>, entries: Entries, names: map<int, int>, d: EntryId, e: EntryId)
    requires d in scores && e in scores && scores.Keys <= entries.Keys && OnePerUser(entries)
    ensures d == e ==> !NamedBefore(entries, names, d, e)
    ensures d != e ==> (NamedBefore(entries, names, d, e) <==> !NamedBefore(entries, names, e, d))
  {
  }

  /** Two entries with the same score; the display names run against the ids. */
  const TIED: map<EntryId, Score> := map[1 := Score(110.0, 10.0), 2 := Score(110.0, 10.0)]
  const PLAYERS: Entries := map[1 := Entry(7, EntryStatus.Active, ""), 2 := Entry(8, EntryStatus.Active, "")]
  const NAMES: map<int, int> := map[7 := 20, 8 := 10]

  lemma TiedEntries()
    ensures OnePerUser(PLAYERS) && TIED.Keys == {1, 2} == {2, 1} == PLAYERS.Keys
  {
  }

  lemma LiveKeys()
    ensures Ranking.Unranked(TIED).Keys == TIED.Keys
    ensures Ranking.BoardKeys(Ranking.Unranked(TIED)) == map[1 := Key(10.0, 1, 0), 2 := Key(10.0, 2, 0)]
  {
    TiedEntries();
    hide OnePerUser;
  }

  lemma NamedKeys()
    ensures TIED.Keys <= PLAYERS.Keys
    ensures Finalization.ResultKeys(TIED, PLAYERS, NAMES) == map[1 := Key(10.0, 20, 7), 2 := Key(10.0, 10, 8)]
  {
    TiedEntries();
    hide OnePerUser;
    assert Finalization.NameOf(NAMES, 7) == 20 && Finalization.NameOf(NAMES, 8) == 10;
  }

  /** The live board shows entry 1 above entry 2, the final results entry 2 above
      entry 1. */
  lemma TiedPairIsListedBothWays()
    ensures TIED.Keys <= PLAYERS.Keys && OnePerUser(PLAYERS)
    ensures Ranking.Standings(Ranking.Unranked(TIED)) == [1, 2]
    ensures Finalization.Standings(TIED, PLAYERS, NAMES) == [2, 1]
  {
    TiedEntries();
    LiveKeys();
    NamedKeys();
    Finalization.ResultKeysDistinct(TIED, PLAYERS, NAMES);
    RankingStore.BoardKeysDistinct(Ranking.Unranked(TIED));
    hide Ranked, Distinct, OnePerUser, TIED, PLAYERS, NAMES, Ranking.Unranked, Ranking.BoardKeys, Finalization.ResultKeys;
    PairListing(Ranking.BoardKeys(Ranking.Unranked(TIED)), 1, 2);
    PairListing(Finalization.ResultKeys(TIED, PLAYERS, NAMES), 2, 1);
  }

  // ---- who stands above whom ---------------------------------------------------------------

  /** A row's rank on the live board is one more than the number of rows with a higher
      return, or the same return and a smaller entry id. */
  lemma LiveRankExactly(rows: Ranking.Rows, e: EntryId)
    requires e in rows
    ensures Ranking.RankIn(rows, e) ==
      1 + |set d | d in rows && (rows[d].score.ret > rows[e].score.ret || (rows[d].score.ret == rows[e].score.ret && d < e))|
  {
    var better := Better(Ranking.BoardKeys(rows), rows.Keys, e);
    assert better ==
      set d | d in rows && (rows[d].score.ret > rows[e].score.ret || (rows[d].score.ret == rows[e].score.ret && d < e));
  }

  /** Down the final results returns fall, and equal ones are in the order of names and
      users. */
  lemma ResultsDescend(scores: map<EntryId, Score>, entries: Entries, names: map<int, int>, i: nat, j: nat)
    requires scores.Keys <= entries.Keys && OnePerUser(entries)
    requires i < j < |Finalization.Results(scores, entries, names)|
    ensures var above, below := Finalization.Results(scores, entries, names)[i], Finalization.Results(scores, entries, names)[j];
      && above.entry in scores && below.entry in scores && above.score == scores[above.entry] && below.score == scores[below.entry]
      && above.rank == i + 1
      && (above.score.ret > below.score.ret ||
          (above.score.ret == below.score.ret && NamedBefore(entries, names, above.entry, below.entry)))
  {
    var keys, order := Finalization.ResultKeys(scores, entries, names), Finalization.Standings(scores, entries, names);
    Finalization.ResultKeysDistinct(scores, entries, names);
    RankedIsSortedBijection(keys, scores.Keys);
    Finalization.StandingsCover(scores, entries, names);
    PairOrders(scores, entries, names, order[i], order[j]);
    hide Ranked, Distinct, OnePerUser, NamedBefore, Finalization.ResultKeys;
    assert Before(keys[order[i]], keys[order[j]]);
    hide Before;
  }
}
