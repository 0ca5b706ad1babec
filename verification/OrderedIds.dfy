/** Entry identifiers and the cursor walk both batched workers make over them.
    Identifiers are the positive integers, standing for the original's strings in
    their sort order; the cursor 0 stands for the empty string. */
module OrderedIds {
  type EntryId = x: int | 0 < x witness 1

  /** A batch or page size; the original replaces anything below 1 by a default. */
  type Limit = x: int | 0 < x witness 1

  function Elements(ids: seq<EntryId>): set<EntryId> {
    set e | e in ids
  }

  ghost predicate Ascending(ids: seq<EntryId>) {
    forall i, j :: 0 <= i < j < |ids| ==> ids[i] < ids[j]
  }

  ghost predicate IsLeast(s: set<EntryId>, m: EntryId) {
    m in s && forall x :: x in s ==> m <= x
  }

  lemma LeastExists(s: set<EntryId>)
    requires s != {}
    ensures exists m :: IsLeast(s, m)
  {
    var e :| e in s;
    if s - {e} == {} {
      assert s == {e};
      assert IsLeast(s, e);
    } else {
      LeastExists(s - {e});
      var m :| IsLeast(s - {e}, m);
      assert s == (s - {e}) + {e};
      assert IsLeast(s, if m < e then m else e);
    }
  }

  function Least(s: set<EntryId>): (m: EntryId)
    requires s != {}
    ensures m in s && forall x :: x in s ==> m <= x
  {
    LeastExists(s);
    assert exists m :: m in s && forall x :: x in s ==> m <= x by {
      var m :| IsLeast(s, m);
    }
    var m :| m in s && forall x :: x in s ==> m <= x;
    m
  }

  /** The live identifiers a lap standing at the cursor still has to visit. */
  function After(live: set<EntryId>, cursor: nat): set<EntryId> {
    set e | e in live && cursor < e
  }

  /** The first `limit` identifiers of a set in ascending order. */
  function FirstOf(s: set<EntryId>, limit: nat): seq<EntryId>
    decreases limit
  {
    if s == {} || limit == 0 then []
    else [Least(s)] + FirstOf(s - {Least(s)}, limit - 1)
  }

  /** The bounded page one worker pass claims. */
  function Claim(live: set<EntryId>, cursor: nat, limit: Limit): seq<EntryId> {
    FirstOf(After(live, cursor), limit)
  }

  /** Claims a page the way the repository does: go through the live entries in
      id order, skip up to the cursor, stop at the limit. */
  method ClaimPage(live: set<EntryId>, cursor: nat, limit: Limit) returns (page: seq<EntryId>)
    ensures page == Claim(live, cursor, limit)
  {
    page := [];
    var rest := live;
    while rest != {} && |page| < limit
      invariant |page| <= limit
      invariant page + FirstOf(After(rest, cursor), limit - |page|) == Claim(live, cursor, limit)
      decreases rest
    {
      var e := Least(rest);
      ghost var after := After(rest, cursor);
      LeastAfter(rest, cursor);
      rest := rest - {e};
      if cursor < e {
        assert page + ([e] + FirstOf(after - {e}, limit - |page| - 1)) ==
               (page + [e]) + FirstOf(after - {e}, limit - |page| - 1);
        page := page + [e];
      }
    }
    if rest == {} {
      assert After(rest, cursor) == {};
    }
  }

  lemma LeastAfter(s: set<EntryId>, cursor: nat)
    requires s != {}
    ensures cursor < Least(s) ==>
      After(s, cursor) != {} && Least(After(s, cursor)) == Least(s)
    ensures After(s - {Least(s)}, cursor) == After(s, cursor) - {Least(s)}
    ensures Least(s) <= cursor ==> After(s - {Least(s)}, cursor) == After(s, cursor)
  {
    if cursor < Least(s) {
      assert Least(s) in After(s, cursor);
    }
  }

  lemma ElementsCons(m: EntryId, tail: seq<EntryId>)
    requires forall e :: e in tail ==> m < e
    requires Ascending(tail)
    ensures Ascending([m] + tail)
    ensures Elements([m] + tail) == {m} + Elements(tail)
    ensures |Elements([m] + tail)| == 1 + |Elements(tail)|
  {
    assert m !in Elements(tail);
    assert Elements([m] + tail) == {m} + Elements(tail);
    var all := [m] + tail;
    forall i, j | 0 <= i < j < |all| ensures all[i] < all[j] {
      assert all[j] == tail[j - 1] && tail[j - 1] in tail;
    }
  }

  lemma {:induction false} FirstOfIsAscending(s: set<EntryId>, limit: nat)
    ensures Elements(FirstOf(s, limit)) <= s
    ensures Ascending(FirstOf(s, limit))
    ensures |FirstOf(s, limit)| == |Elements(FirstOf(s, limit))| <= limit
    decreases limit
  {
    if s != {} && limit != 0 {
      var m := Least(s);
      var tail := FirstOf(s - {m}, limit - 1);
      FirstOfIsAscending(s - {m}, limit - 1);
      forall e | e in tail ensures m < e && e in s { assert e in Elements(tail); }
      assert FirstOf(s, limit) == [m] + tail;
      ElementsCons(m, tail);
    }
  }

  lemma {:induction false} FirstOfSplits(s: set<EntryId>, limit: nat)
    requires 0 < limit
    ensures var page := FirstOf(s, limit);
      && (|page| < limit ==> Elements(page) == s)
      && (|page| == limit ==> After(s, page[limit - 1]) == s - Elements(page))
    decreases limit
  {
    if s != {} {
      var m := Least(s);
      var tail := FirstOf(s - {m}, limit - 1);
      assert FirstOf(s, limit) == [m] + tail;
      if limit == 1 {
        assert tail == [];
        assert Elements([m] + tail) == {m} && After(s, m) == s - {m};
      } else {
        FirstOfSplits(s - {m}, limit - 1);
        FirstOfIsAscending(s - {m}, limit - 1);
        SplitCons(s, m, tail, limit);
      }
    }
  }

  lemma SplitCons(s: set<EntryId>, m: EntryId, tail: seq<EntryId>, limit: nat)
    requires m in s && 1 < limit && Elements(tail) <= s - {m} && (forall x :: x in s ==> m <= x)
    requires |tail| < limit - 1 ==> Elements(tail) == s - {m}
    requires |tail| == limit - 1 ==> After(s - {m}, tail[limit - 2]) == (s - {m}) - Elements(tail)
    ensures |tail| < limit - 1 ==> Elements([m] + tail) == s
    ensures |tail| == limit - 1 ==> After(s, ([m] + tail)[limit - 1]) == s - Elements([m] + tail)
  {
    assert Elements([m] + tail) == {m} + Elements(tail);
    if |tail| == limit - 1 {
      var last := tail[limit - 2];
      assert last in Elements(tail);
      assert After(s, last) == After(s - {m}, last);
    } else if |tail| < limit - 1 {
      assert s == {m} + (s - {m});
    }
  }

  /** What a claimed page says about the lap: a short page is everything that was
      left, a full page takes exactly `limit` entries off what is left. */
  lemma ClaimSplits(live: set<EntryId>, cursor: nat, limit: Limit)
    ensures var page := Claim(live, cursor, limit);
      && Ascending(page)
      && Elements(page) <= After(live, cursor)
      && |Elements(page)| == |page| <= limit
      && (|page| < limit ==> Elements(page) == After(live, cursor))
      && (|page| == limit ==>
           && cursor < page[limit - 1]
           && After(live, page[limit - 1]) == After(live, cursor) - Elements(page)
           && |After(live, page[limit - 1])| == |After(live, cursor)| - limit)
  {
    var page := Claim(live, cursor, limit);
    FirstOfIsAscending(After(live, cursor), limit);
    FirstOfSplits(After(live, cursor), limit);
    if |page| == limit {
      var last := page[limit - 1];
      assert last in Elements(page);
      assert After(live, last) == After(After(live, cursor), last);
      assert After(live, cursor) == Elements(page) + After(live, last);
    }
  }
}
