/** Reading the active board page by page. */
module Leaderboard {
  import opened OrderedIds
  import opened RankOrder
  import opened Outcomes
  import opened Pages
  import opened Ranking
  import opened RankingStore

  datatype LeaderRow = LeaderRow(rank: nat, entry: EntryId, score: Score)

  datatype BoardPage =
    | Unavailable
    | BoardPage(rows: seq<LeaderRow>, next: Option<nat>)

  const MAX_PAGE: Limit := 100

  /** The whole board in rank order. */
  ghost function Listing(rows: Rows): seq<LeaderRow> {
    var order := Standings(rows);
    StandingsList(rows);
    seq(|order|, i requires 0 <= i < |order| => LeaderRow(i + 1, order[i], rows[order[i]].score))
  }

  lemma ListingRows(rows: Rows)
    requires Complete(rows)
    ensures var order, listing := Standings(rows), Listing(rows);
      && |listing| == |order|
      && forall i :: 0 <= i < |order| ==>
        order[i] in rows && rows[order[i]].rank == i + 1 && listing[i] == LeaderRow(i + 1, order[i], rows[order[i]].score)
  {
    StandingsList(rows);
    var order := Standings(rows);
    hide Standings, RankIn;
    forall i | 0 <= i < |order| ensures order[i] in rows && rows[order[i]].rank == i + 1 { StandingIsRank(rows, i); }
  }

  ghost predicate Numbered(listing: seq<LeaderRow>) {
    forall i :: 0 <= i < |listing| ==> listing[i].rank == i + 1
  }

  function Clamp(x: int, n: nat): nat {
    if x < 0 then 0 else if x > n then n else x
  }

  /** The rows ranked just past the cursor, at most `limit` of them. */
  function Slice(listing: seq<LeaderRow>, afterRank: int, limit: Limit): seq<LeaderRow> {
    var from := Clamp(afterRank, |listing|);
    listing[from..Clamp(from + limit, |listing|)]
  }

  function RankKeys(rows: Rows): Keys {
    map e | e in rows :: Key(0.0, rows[e].rank, 0)
  }

  lemma StoredRanksList(rows: Rows, order: seq<EntryId>)
    requires forall i :: 0 <= i < |order| ==> order[i] in rows && rows[order[i]].rank == i + 1
    requires forall e :: e in rows ==> e in order
    ensures Distinct(RankKeys(rows)) && Listed(RankKeys(rows), order) && Elements(order) == rows.Keys
  {
    forall d, e | d in rows && e in rows && d != e ensures RankKeys(rows)[d] != RankKeys(rows)[e] {
      var i :| 0 <= i < |order| && order[i] == d;
      var j :| 0 <= j < |order| && order[j] == e;
    }
  }

  /** On a whole board, listing rows by their stored rank is the board's own order. */
  lemma StoredRanksSort(rows: Rows)
    requires Complete(rows)
    ensures Distinct(RankKeys(rows))
    ensures Ranked(RankKeys(rows), rows.Keys) == Standings(rows)
  {
    StandingsList(rows);
    ListingRows(rows);
    hide *;
    StoredRanksList(rows, Standings(rows));
    ListingUnique(RankKeys(rows), rows.Keys, Standings(rows));
  }

  /** LeaderboardPage: sort the active rows by rank, skip up to the cursor, stop at the
      limit. */
  method ReadPage(store: Store, afterRank: int, limit: Limit) returns (out: seq<LeaderRow>)
    requires Sound(store.Now())
    ensures out == if store.active == 0 then [] else Slice(Listing(store.rows[store.active]), afterRank, limit)
  {
    out := [];
    if store.active == 0 {
      return;
    }
    var rows := store.rows[store.active];
    StoredRanksSort(rows);
    var order := SortRows(RankKeys(rows), rows.Keys);
    ListingRows(rows);
    hide *;
    out := TakePage(order, rows, afterRank, limit, Listing(rows));
  }

  method TakePage(order: seq<EntryId>, rows: Rows, afterRank: int, limit: Limit, ghost listing: seq<LeaderRow>)
      returns (out: seq<LeaderRow>)
    requires |listing| == |order|
    requires forall i :: 0 <= i < |order| ==>
      order[i] in rows && rows[order[i]].rank == i + 1 && listing[i] == LeaderRow(i + 1, order[i], rows[order[i]].score)
    ensures out == Slice(listing, afterRank, limit)
  {
    out := [];
    var i := 0;
    ghost var from := Clamp(afterRank, |listing|);
    while i < |order| && |out| < limit
      invariant 0 <= i <= |order|
      invariant |out| == (if i <= from then 0 else i - from) <= limit
      invariant forall k :: 0 <= k < |out| ==> out[k] == listing[from + k]
    {
      if rows[order[i]].rank > afterRank {
        out := out + [LeaderRow(rows[order[i]].rank, order[i], rows[order[i]].score)];
      }
      i := i + 1;
    }
  }

  /** EditionLeaderboard: an out-of-range limit becomes the maximum; a full page hands
      out its last rank as the next cursor; before any promotion there is no board. */
  method EditionLeaderboard(store: Store, afterRank: int, limit: int) returns (page: BoardPage)
    requires Sound(store.Now())
    ensures store.active == 0 ==> page == Unavailable
    ensures store.active != 0 ==>
      var size: Limit := if 0 < limit <= MAX_PAGE then limit else MAX_PAGE;
      var rows := Slice(Listing(store.rows[store.active]), afterRank, size);
      page == BoardPage(rows, if |rows| == size then Some(rows[|rows| - 1].rank) else None)
  {
    var size: Limit := if limit <= 0 || limit > MAX_PAGE then MAX_PAGE else limit;
    if store.active == 0 {
      return Unavailable;
    }
    var rows := ReadPage(store, afterRank, size);
    page := BoardPage(rows, if |rows| == size then Some(rows[|rows| - 1].rank) else None);
  }

  /** The pages a reader gets who keeps following the next cursor. */
  ghost function Follow(listing: seq<LeaderRow>, cursor: nat, limit: Limit): seq<seq<LeaderRow>>
    requires Numbered(listing)
    decreases |listing| - cursor
  {
    var page := Slice(listing, cursor, limit);
    if |page| == limit then [page] + Follow(listing, page[limit - 1].rank, limit) else [page]
  }

  ghost function Concat(pages: seq<seq<LeaderRow>>): seq<LeaderRow> {
    if pages == [] then [] else pages[0] + Concat(pages[1..])
  }

  lemma {:induction false} FollowFrom(listing: seq<LeaderRow>, cursor: nat, limit: Limit)
    requires Numbered(listing) && cursor <= |listing|
    ensures Concat(Follow(listing, cursor, limit)) == listing[cursor..]
    ensures |Follow(listing, cursor, limit)| == FullPages(|listing| - cursor, limit) + 1
    decreases |listing| - cursor
  {
    var page, pages := Slice(listing, cursor, limit), Follow(listing, cursor, limit);
    if |page| == limit {
      FollowFrom(listing, cursor + limit, limit);
      assert page[limit - 1] == listing[cursor + limit - 1];
      assert pages[1..] == Follow(listing, cursor + limit, limit);
      assert listing[cursor..] == page + listing[cursor + limit..];
    } else {
      assert pages[1..] == [];
      assert page == listing[cursor..];
    }
  }

  /** Following the cursors from 0 visits every row of a board of n exactly once, in
      rank order, in n / limit + 1 pages. */
  lemma PagingVisitsEveryRowOnce(rows: Rows, limit: Limit)
    ensures Numbered(Listing(rows)) && |Listing(rows)| == |rows|
    ensures Concat(Follow(Listing(rows), 0, limit)) == Listing(rows)
    ensures |Follow(Listing(rows), 0, limit)| == |rows| / limit + 1
  {
    StandingsList(rows);
    FollowFrom(Listing(rows), 0, limit);
    FullPagesIsQuotient(|rows|, limit);
  }
}
