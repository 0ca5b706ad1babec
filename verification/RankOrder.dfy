/** The order in which a promoted board lists its rows: return descending, then
    the tie-break chain of that board. */
module RankOrder {
  import opened OrderedIds

  datatype Score = Score(index: real, ret: real)

  /** A row's sort key. The live board breaks ties by entry id alone; the final
      results break them by display name and then user id. */
  datatype Key = Key(ret: real, major: int, minor: int)

  predicate Before(a: Key, b: Key) {
    if a.ret != b.ret then a.ret > b.ret
    else if a.major != b.major then a.major < b.major
    else a.minor < b.minor
  }

  type Keys = map<EntryId, Key>

  ghost predicate Distinct(keys: Keys) {
    forall d, e :: d in keys && e in keys && d != e ==> keys[d] != keys[e]
  }

  /** b is listed before every other row of s. */
  ghost predicate Leads(keys: Keys, s: set<EntryId>, b: EntryId) {
    b in s && s <= keys.Keys && forall e :: e in s && e != b ==> Before(keys[b], keys[e])
  }

  lemma LeaderExists(keys: Keys, s: set<EntryId>)
    requires s != {} && s <= keys.Keys && Distinct(keys)
    ensures exists b :: Leads(keys, s, b)
  {
    var e :| e in s;
    var rest := s - {e};
    if rest == {} {
      assert s == {e};
      assert Leads(keys, s, e);
    } else {
      LeaderExists(keys, rest);
      var b :| Leads(keys, rest, b);
      LeaderJoins(keys, rest, b, e);
      assert s == rest + {e};
    }
  }

  lemma LeaderJoins(keys: Keys, rest: set<EntryId>, b: EntryId, e: EntryId)
    requires Distinct(keys) && Leads(keys, rest, b) && e in keys && e !in rest
    ensures Leads(keys, rest + {e}, if Before(keys[e], keys[b]) then e else b)
  {
    assert keys[e] != keys[b];
    if Before(keys[e], keys[b]) {
      forall d | d in rest ensures Before(keys[e], keys[d]) {
        if d != b { assert Before(keys[b], keys[d]); }
      }
    }
  }

  lemma LeaderUnique(keys: Keys, s: set<EntryId>, b: EntryId, c: EntryId)
    requires Leads(keys, s, b) && Leads(keys, s, c)
    ensures b == c
  {
    assert b in s && c in s;
  }

  ghost function Leader(keys: Keys, s: set<EntryId>): (b: EntryId)
    requires s != {} && s <= keys.Keys && Distinct(keys)
    ensures Leads(keys, s, b)
  {
    LeaderExists(keys, s);
    var b :| Leads(keys, s, b);
    b
  }

  /** The rows s of a board in rank order. */
  ghost function Ranked(keys: Keys, s: set<EntryId>): seq<EntryId>
    requires s <= keys.Keys && Distinct(keys)
  {
    if s == {} then []
    else
      var b := Leader(keys, s);
      [b] + Ranked(keys, s - {b})
  }

  ghost predicate Listed(keys: Keys, order: seq<EntryId>) {
    && (forall i :: 0 <= i < |order| ==> order[i] in keys)
    && (forall i, j :: 0 <= i < j < |order| ==> Before(keys[order[i]], keys[order[j]]))
  }

  /** Every row appears exactly once, and each row stands strictly before the
      ones listed after it. */
  lemma {:induction false} RankedIsSortedBijection(keys: Keys, s: set<EntryId>)
    requires s <= keys.Keys && Distinct(keys)
    ensures Elements(Ranked(keys, s)) == s
    ensures |Ranked(keys, s)| == |s|
    ensures Listed(keys, Ranked(keys, s))
  {
    if s != {} {
      var b := Leader(keys, s);
      RankedIsSortedBijection(keys, s - {b});
      hide Distinct;
      LeaderHeads(keys, s, b, Ranked(keys, s - {b}));
    }
  }

  lemma LeaderHeads(keys: Keys, s: set<EntryId>, b: EntryId, tail: seq<EntryId>)
    requires Leads(keys, s, b) && Elements(tail) == s - {b} && Listed(keys, tail)
    ensures Elements([b] + tail) == s && Listed(keys, [b] + tail)
  {
    var order := [b] + tail;
    assert Elements(order) == {b} + Elements(tail) == {b} + (s - {b}) == s;
    forall i | 0 <= i < |tail| ensures Before(keys[b], keys[tail[i]]) {
      assert tail[i] in Elements(tail);
    }
    forall i | 0 <= i < |order| ensures order[i] in keys {
      assert order[i] in Elements(order);
    }
    assert order[1..] == tail;
    forall i, j | 0 <= i < j < |order| ensures Before(keys[order[i]], keys[order[j]]) {
      assert order[j] == tail[j - 1];
      if i > 0 { assert order[i] == tail[i - 1]; }
    }
  }

  /** The rows of s that beat the given one. */
  ghost function Better(keys: Keys, s: set<EntryId>, row: EntryId): set<EntryId>
    requires s <= keys.Keys && row in keys
  {
    set e | e in s && Before(keys[e], keys[row])
  }

  lemma BetterPeelsLeader(keys: Keys, s: set<EntryId>, b: EntryId, row: EntryId)
    requires Leads(keys, s, b) && row in s
    ensures row == b ==> Better(keys, s, row) == {}
    ensures row != b ==> Better(keys, s, row) == Better(keys, s - {b}, row) + {b}
    ensures row != b ==> |Better(keys, s, row)| == |Better(keys, s - {b}, row)| + 1
  {
    forall e | e in s && row == b ensures !Before(keys[e], keys[row]) {
      if e != b { assert Before(keys[b], keys[e]); }
    }
    if row != b {
      assert b !in Better(keys, s - {b}, row);
    }
  }

  lemma LeaderComesFirst(keys: Keys, s: set<EntryId>)
    requires s <= keys.Keys && Distinct(keys) && s != {}
    ensures Leads(keys, s, Leader(keys, s))
    ensures Ranked(keys, s) == [Leader(keys, s)] + Ranked(keys, s - {Leader(keys, s)})
  {
    hide Distinct;
  }

  /** A row's position is the number of rows that beat it, whatever algorithm
      sorted them. */
  lemma {:induction false} RankCountsBetterRows(keys: Keys, s: set<EntryId>, i: nat)
    requires s <= keys.Keys && Distinct(keys) && i < |Ranked(keys, s)|
    ensures Ranked(keys, s)[i] in s
    ensures |Better(keys, s, Ranked(keys, s)[i])| == i
  {
    NobodyRanked(keys);
    LeaderComesFirst(keys, s);
    hide Distinct, Better, Ranked;
    var b := Leader(keys, s);
    var row := Ranked(keys, s)[i];
    if i == 0 {
      BetterPeelsLeader(keys, s, b, b);
    } else {
      assert row == Ranked(keys, s - {b})[i - 1];
      RankCountsBetterRows(keys, s - {b}, i - 1);
      BetterPeelsLeader(keys, s, b, row);
    }
  }

  lemma NobodyRanked(keys: Keys)
    requires Distinct(keys)
    ensures Ranked(keys, {}) == []
  {
  }

  /** Any strictly sorted listing of s is the ranked one. */
  lemma {:induction false} ListingUnique(keys: Keys, s: set<EntryId>, order: seq<EntryId>)
    requires s <= keys.Keys && Distinct(keys)
    requires Listed(keys, order) && Elements(order) == s
    ensures order == Ranked(keys, s)
  {
    if order == [] {
      assert s == {};
    } else {
      assert order[0] in Elements(order);
      var b, tail := Leader(keys, s), order[1..];
      forall e | e in s && e != order[0] ensures Before(keys[order[0]], keys[e]) {
        assert e in order;
      }
      LeaderUnique(keys, s, b, order[0]);
      forall e | e in s - {b} ensures e in tail { assert e in order; }
      forall e | e in tail ensures e != b {
        var i :| 0 <= i < |tail| && tail[i] == e;
        assert order[i + 1] == e;
        assert Before(keys[order[0]], keys[order[i + 1]]);
      }
      assert Elements(tail) == s - {b};
      ListingUnique(keys, s - {b}, tail);
      assert order == [b] + tail;
    }
  }

  ghost predicate OrderAlike(keys: Keys, others: Keys, s: set<EntryId>)
    requires s <= keys.Keys && s <= others.Keys
  {
    forall d, e :: d in s && e in s ==> (Before(keys[d], keys[e]) <==> Before(others[d], others[e]))
  }

  /** Two sets of keys list the same rows in the same order exactly when they order every
      pair of them alike. */
  lemma SameListingExactly(keys: Keys, others: Keys, s: set<EntryId>)
    requires s <= keys.Keys && s <= others.Keys && Distinct(keys) && Distinct(others)
    ensures Ranked(keys, s) == Ranked(others, s) <==> OrderAlike(keys, others, s)
  {
    var order := Ranked(keys, s);
    RankedIsSortedBijection(keys, s);
    RankedIsSortedBijection(others, s);
    hide *;
    if order == Ranked(others, s) {
      OneOrderAlike(keys, others, s, order);
    }
    if OrderAlike(keys, others, s) {
      AlikeIsListed(keys, others, s, order);
      ListingUnique(others, s, order);
    }
  }

  lemma OneOrderAlike(keys: Keys, others: Keys, s: set<EntryId>, order: seq<EntryId>)
    requires s <= keys.Keys && s <= others.Keys
    requires Listed(keys, order) && Listed(others, order) && Elements(order) == s
    ensures OrderAlike(keys, others, s)
  {
    forall d, e | d in s && e in s ensures Before(keys[d], keys[e]) <==> Before(others[d], others[e]) {
      OrderDecides(keys, order, d, e);
      OrderDecides(others, order, d, e);
    }
  }

  lemma AlikeIsListed(keys: Keys, others: Keys, s: set<EntryId>, order: seq<EntryId>)
    requires s <= keys.Keys && s <= others.Keys && OrderAlike(keys, others, s)
    requires Listed(keys, order) && Elements(order) == s
    ensures Listed(others, order)
  {
    forall i | 0 <= i < |order| ensures order[i] in s { assert order[i] in Elements(order); }
  }

  /** Two rows are listed as their keys stand. */
  lemma PairListing(keys: Keys, d: EntryId, e: EntryId)
    requires d in keys && e in keys && d != e && Distinct(keys) && Before(keys[d], keys[e])
    ensures Ranked(keys, {d, e}) == [d, e]
  {
    var order := [d, e];
    assert Elements(order) == {d, e};
    assert Listed(keys, order);
    ListingUnique(keys, {d, e}, order);
  }

  /** In a sorted listing a row beats another exactly by standing before it. */
  lemma OrderDecides(keys: Keys, order: seq<EntryId>, d: EntryId, e: EntryId)
    requires Listed(keys, order) && d in Elements(order) && e in Elements(order)
    ensures d in keys && e in keys
    ensures Before(keys[d], keys[e]) <==> exists i, j :: 0 <= i < j < |order| && order[i] == d && order[j] == e
  {
    var i :| 0 <= i < |order| && order[i] == d;
    var j :| 0 <= j < |order| && order[j] == e;
    assert j < i ==> Before(keys[e], keys[d]);
    assert i == j ==> d == e;
  }

  /** Sorts the rows of a board by straight insertion. */
  method SortRows(keys: Keys, s: set<EntryId>) returns (order: seq<EntryId>)
    requires s <= keys.Keys && Distinct(keys)
    ensures order == Ranked(keys, s)
  {
    order := [];
    var rest := s;
    while rest != {}
      invariant rest <= s
      invariant Listed(keys, order) && Elements(order) == s - rest
      decreases rest
    {
      var e :| e in rest;
      rest := rest - {e};
      assert e !in Elements(order);
      order := InsertRow(keys, order, e);
    }
    ListingUnique(keys, s, order);
  }

  method InsertRow(keys: Keys, order: seq<EntryId>, e: EntryId) returns (r: seq<EntryId>)
    requires Distinct(keys) && Listed(keys, order) && e in keys && e !in order
    ensures Listed(keys, r) && Elements(r) == Elements(order) + {e}
  {
    var i := 0;
    while i < |order| && Before(keys[order[i]], keys[e])
      invariant 0 <= i <= |order|
      invariant forall k :: 0 <= k < i ==> Before(keys[order[k]], keys[e])
    {
      i := i + 1;
    }
    r := order[..i] + [e] + order[i..];
    InsertedListed(keys, order, i, e);
    InsertedElements(order, i, e);
  }

  lemma InsertedElements(order: seq<EntryId>, i: nat, e: EntryId)
    requires i <= |order|
    ensures Elements(order[..i] + [e] + order[i..]) == Elements(order) + {e}
  {
    var r := order[..i] + [e] + order[i..];
    forall x | x in Elements(order) + {e} ensures x in r {
      if x != e {
        var k :| 0 <= k < |order| && order[k] == x;
        assert r[if k < i then k else k + 1] == x;
      } else {
        assert r[i] == e;
      }
    }
  }

  lemma InsertedListed(keys: Keys, order: seq<EntryId>, i: nat, e: EntryId)
    requires Distinct(keys) && Listed(keys, order) && e in keys && e !in order && i <= |order|
    requires forall k :: 0 <= k < i ==> Before(keys[order[k]], keys[e])
    requires i < |order| ==> !Before(keys[order[i]], keys[e])
    ensures Listed(keys, order[..i] + [e] + order[i..])
  {
    forall k | i <= k < |order| ensures Before(keys[e], keys[order[k]]) {
      assert keys[e] != keys[order[i]];
      if i < k { assert Before(keys[order[i]], keys[order[k]]); }
    }
  }
}
