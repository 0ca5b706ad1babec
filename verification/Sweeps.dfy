/** What one sweep of a claimed page writes, entry by entry. */
module Sweeps {
  import opened OrderedIds
  import opened Generations

  /** The sweep gets past every entry before the place. */
  ghost predicate Unbroken(page: seq<EntryId>, a: Answers, i: nat)
    requires i <= |page|
  {
    forall k :: 0 <= k < i ==> page[k] in a.valued || !a.late || page[k] !in a.strikeFails
  }

  ghost predicate DraftedAt(page: seq<EntryId>, a: Answers, e: EntryId, i: nat)
    requires i < |page|
  {
    page[i] == e && e in a.valued && e !in a.upsertFails && Unbroken(page, a, i)
  }

  ghost predicate StruckAt(page: seq<EntryId>, a: Answers, e: EntryId, i: nat)
    requires i < |page|
  {
    page[i] == e && e !in a.valued && a.late && e !in a.strikeFails && Unbroken(page, a, i)
  }

  lemma {:induction false} BrokenAborts(page: seq<EntryId>, a: Answers)
    ensures Sweep(page, a).aborted <==> !Unbroken(page, a, |page|)
  {
    if page != [] {
      var front := page[..|page| - 1];
      BrokenAborts(front, a);
      assert forall k :: 0 <= k < |front| ==> page[k] == front[k];
    }
  }

  lemma {:induction false} DraftsExactly(page: seq<EntryId>, a: Answers, e: EntryId)
    ensures e in Sweep(page, a).drafts <==> exists i :: 0 <= i < |page| && DraftedAt(page, a, e, i)
    ensures e in Sweep(page, a).drafts ==> e in a.valued && Sweep(page, a).drafts[e] == a.valued[e]
  {
    if page != [] {
      var n := |page| - 1;
      var front := page[..n];
      DraftsExactly(front, a, e);
      BrokenAborts(front, a);
      UnbrokenPrefix(page, a);
      hide Unbroken;
      assert forall i :: 0 <= i < n ==> (DraftedAt(page, a, e, i) <==> DraftedAt(front, a, e, i));
      assert (exists i :: 0 <= i < |page| && DraftedAt(page, a, e, i)) <==>
        (exists i :: 0 <= i < n && DraftedAt(front, a, e, i)) || DraftedAt(page, a, e, n);
    }
  }

  lemma {:induction false} StrikesExactly(page: seq<EntryId>, a: Answers, e: EntryId)
    ensures e in Sweep(page, a).struck <==> exists i :: 0 <= i < |page| && StruckAt(page, a, e, i)
  {
    if page != [] {
      var n := |page| - 1;
      var front := page[..n];
      StrikesExactly(front, a, e);
      BrokenAborts(front, a);
      UnbrokenPrefix(page, a);
      hide Unbroken;
      assert forall i :: 0 <= i < n ==> (StruckAt(page, a, e, i) <==> StruckAt(front, a, e, i));
      assert (exists i :: 0 <= i < |page| && StruckAt(page, a, e, i)) <==>
        (exists i :: 0 <= i < n && StruckAt(front, a, e, i)) || StruckAt(page, a, e, n);
    }
  }

  lemma UnbrokenPrefix(page: seq<EntryId>, a: Answers)
    requires page != []
    ensures var front := page[..|page| - 1];
      && (forall k :: 0 <= k < |front| ==> page[k] == front[k])
      && (forall i :: 0 <= i <= |front| ==> (Unbroken(page, a, i) <==> Unbroken(front, a, i)))
  {
  }

  /** Whom a sweep drafts, at what score, and whom it strikes out. */
  lemma SweepsExactly(page: seq<EntryId>, a: Answers, e: EntryId)
    ensures e in Sweep(page, a).drafts <==> exists i :: 0 <= i < |page| && DraftedAt(page, a, e, i)
    ensures e in Sweep(page, a).drafts ==> e in a.valued && Sweep(page, a).drafts[e] == a.valued[e]
    ensures e in Sweep(page, a).struck <==> exists i :: 0 <= i < |page| && StruckAt(page, a, e, i)
  {
    DraftsExactly(page, a, e);
    StrikesExactly(page, a, e);
    hide Sweep, DraftedAt, StruckAt;
  }

  /** The entry gets its row, or is struck out. */
  ghost predicate Decided(e: EntryId, a: Answers) {
    if e in a.valued then e !in a.upsertFails else a.late && e !in a.strikeFails
  }

  /** A sweep goes through and leaves nothing outstanding exactly if it decides everyone. */
  lemma {:induction false} CleanExactly(page: seq<EntryId>, a: Answers)
    ensures var t := Sweep(page, a);
      && (!t.aborted ==> t.processed == |page|)
      && (!t.aborted && t.failed == 0 && !t.writeFailed <==> forall i :: 0 <= i < |page| ==> Decided(page[i], a))
      && (!a.late ==> !t.aborted && t.struck == {})
  {
    if page != [] {
      var front := page[..|page| - 1];
      CleanExactly(front, a);
      assert forall i :: 0 <= i < |front| ==> front[i] == page[i];
    }
  }
}
