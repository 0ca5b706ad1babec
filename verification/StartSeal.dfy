/** When the start set seals, and whom it then serves. */
module StartSeal {
  import opened OrderedIds
  import opened Valuation
  import opened Observations
  import opened Sealing
  import opened Baseline
  import opened EndSeal

  /** A baseline pass seals the set exactly if it lists a short page with somebody on it,
      finds all that the page asks for, and can store it; a full page never does. */
  lemma PassSealsExactly(k: Book, o: Obs, page: seq<EntryId>, w: World)
    ensures ObservedBy(k, o, page, w).sealed <==>
      o.sealed ||
      (0 < |page| < w.batch && w.recordOk && AllNormalized(k, page, w) && BatchCaptured(o, NormalizedPage(k, page, w), w.provider))
    ensures !o.sealed && |page| == w.batch ==> !ObservedBy(k, o, page, w).sealed
  {
    hide BatchCaptured, NormalizedEntry;
  }

  // ---- what a pass leaves alone ------------------------------------------------------------

  /** Whoever is still pending was, and holds what was frozen. */
  ghost predicate StillFrozen(k: Book, r: Book) {
    forall e :: Pending(r.entries, e) ==>
      Pending(k.entries, e) && (e in r.baskets <==> e in k.baskets) && (e in k.baskets ==> r.baskets[e] == k.baskets[e])
  }

  ghost predicate OnlyThese(k: Book, r: Book, page: seq<EntryId>) {
    forall e :: Pending(k.entries, e) && !Pending(r.entries, e) ==> e in page
  }

  lemma AttemptKeeps(k: Book, mid: Book, e: EntryId, b: Basket, v: View, w: World)
    requires StillFrozen(k, mid)
    ensures StillFrozen(k, Attempt(mid, e, b, v, w))
    ensures forall d :: d != e && Pending(mid.entries, d) ==> Pending(Attempt(mid, e, b, v, w).entries, d)
  {
    hide BaselineOf, WINDOW_ELAPSED;
  }

  lemma {:induction false} VisitAllKeeps(k: Book, page: seq<EntryId>, baskets: seq<Basket>, v: View, w: World)
    requires |page| == |baskets|
    ensures StillFrozen(k, VisitAll(k, page, baskets, v, w)) && OnlyThese(k, VisitAll(k, page, baskets, v, w), page)
  {
    if page != [] {
      var n := |page| - 1;
      VisitAllKeeps(k, page[..n], baskets[..n], v, w);
      AttemptKeeps(k, VisitAll(k, page[..n], baskets[..n], v, w), page[n], baskets[n], v, w);
      assert page == page[..n] + [page[n]];
      hide Attempt, Pending, StillFrozen;
    }
  }

  // ---- over a run --------------------------------------------------------------------------

  /** Everyone decided, and once the set is sealed simply everyone who was to be baselined,
      can be scored from it. */
  ghost predicate StartServed(k: Book, o: Obs, k0: Book, baskets: map<EntryId, Basket>) {
    && StillFrozen(k0, k)
    && (!o.sealed ==> RatesComplete(o))
    && forall e :: Pending(k0.entries, e) && (o.sealed || !Pending(k.entries, e)) ==> e in baskets && Scorable(o.view, [baskets[e]])
  }

  /** Every entry to be baselined normalizes to the same basket in the pass, if it does, and
      the providers answer for it. */
  ghost predicate EveryoneReady(k0: Book, baskets: map<EntryId, Basket>, w: World) {
    forall e :: Pending(k0.entries, e) ==>
      && e in baskets && AllAnswered(w.provider, [baskets[e]])
      && (NormalizedEntry(k0, e, w).Success? ==> NormalizedEntry(k0, e, w).value == baskets[e])
  }

  /** The pass gets past its capture. */
  ghost predicate GoesOn(k: Book, o: Obs, page: seq<EntryId>, w: World) {
    && page != [] && AllNormalized(k, page, w)
    && (w.recordOk || Capture(o, NormalizedPage(k, page, w), |page| < w.batch, w.provider) == o)
  }

  lemma PassParts(k: Book, o: Obs, page: seq<EntryId>, w: World)
    ensures !GoesOn(k, o, page, w) ==> BookAfter(k, o, page, w) == k && ObservedBy(k, o, page, w) == o
    ensures GoesOn(k, o, page, w) ==>
      && ObservedBy(k, o, page, w) == Capture(o, NormalizedPage(k, page, w), |page| < w.batch, w.provider)
      && BookAfter(k, o, page, w) == VisitAll(k, page, NormalizedPage(k, page, w), ObservedBy(k, o, page, w).view, w)
  {
    hide NormalizedEntry, Capture;
  }

  lemma PageBaskets(k: Book, k0: Book, baskets: map<EntryId, Basket>, page: seq<EntryId>, w: World)
    requires StillFrozen(k0, k) && EveryoneReady(k0, baskets, w) && AllNormalized(k, page, w)
    requires forall i :: 0 <= i < |page| ==> Pending(k.entries, page[i])
    ensures forall i :: 0 <= i < |page| ==>
      page[i] in baskets && NormalizedPage(k, page, w)[i] == baskets[page[i]] && AllAnswered(w.provider, [baskets[page[i]]])
  {
    hide AllAnswered;
    forall i | 0 <= i < |page|
      ensures page[i] in baskets && NormalizedPage(k, page, w)[i] == baskets[page[i]] && AllAnswered(w.provider, [baskets[page[i]]])
    {
      var e := page[i];
      assert NormalizedEntry(k, e, w).Success? && Pending(k0.entries, e);
      assert NormalizedEntry(k, e, w) == NormalizedEntry(k0, e, w);
    }
  }

  lemma PageCaptured(o: Obs, batch: seq<Basket>, page: seq<EntryId>, baskets: map<EntryId, Basket>, w: World)
    requires !o.sealed && RatesComplete(o) && |batch| == |page|
    requires forall i :: 0 <= i < |page| ==>
      page[i] in baskets && batch[i] == baskets[page[i]] && AllAnswered(w.provider, [baskets[page[i]]])
    ensures var r := Capture(o, batch, |page| < w.batch, w.provider);
      && RatesComplete(r) && (r.sealed <==> |page| < w.batch)
      && forall e :: e in page ==> e in baskets && Scorable(r.view, [baskets[e]])
  {
    var r := Capture(o, batch, |page| < w.batch, w.provider);
    forall b | b in batch ensures AllAnswered(w.provider, [b]) {
      var i :| 0 <= i < |batch| && batch[i] == b;
    }
    AllOfBatch(batch, w.provider);
    AnsweredIsCaptured(o, batch, w.provider);
    FullCapture(o, Taking(batch, |page| < w.batch, w.provider));
    hide Scorable, AllAnswered, RatesComplete, BatchCaptured, Capture;
    forall e | e in page ensures e in baskets && Scorable(r.view, [baskets[e]]) {
      var i :| 0 <= i < |page| && page[i] == e;
      ScorableParts(r.view, batch, batch[i]);
    }
  }

  lemma PassServes(k: Book, o: Obs, k0: Book, baskets: map<EntryId, Basket>, page: seq<EntryId>, w: World)
    requires StartServed(k, o, k0, baskets) && EveryoneReady(k0, baskets, w) && PendingPage(k.entries, page, w.batch)
    ensures StartServed(BookAfter(k, o, page, w), ObservedBy(k, o, page, w), k0, baskets)
  {
    PassParts(k, o, page, w);
    if GoesOn(k, o, page, w) {
      var batch, r := NormalizedPage(k, page, w), ObservedBy(k, o, page, w);
      PageBaskets(k, k0, baskets, page, w);
      VisitAllKeeps(k, page, batch, r.view, w);
      CaptureOnlyAdds(o, batch, |page| < w.batch, w.provider);
      if !o.sealed {
        PageCaptured(o, batch, page, baskets, w);
      }
      hide *;
      ServedAfter(k, o, k0, baskets, page, BookAfter(k, o, page, w), r, w.batch);
    }
    hide *;
  }

  lemma ServedAfter(k: Book, o: Obs, k0: Book, baskets: map<EntryId, Basket>, page: seq<EntryId>, next: Book, r: Obs, batch: Limit)
    requires StartServed(k, o, k0, baskets) && PendingPage(k.entries, page, batch)
    requires StillFrozen(k, next) && OnlyThese(k, next, page) && Grows(o.view, r.view) && (o.sealed ==> r == o)
    requires !o.sealed ==> RatesComplete(r) && (r.sealed <==> |page| < batch)
    requires !o.sealed ==> forall e :: e in page ==> e in baskets && Scorable(r.view, [baskets[e]])
    ensures StartServed(next, r, k0, baskets)
  {
    hide Scorable, RatesComplete, Grows, Pending;
    forall e | Pending(k0.entries, e) && (r.sealed || !Pending(next.entries, e)) ensures e in baskets && Scorable(r.view, [baskets[e]]) {
      if o.sealed || !Pending(k.entries, e) {
        ScorableGrows(o.view, r.view, [baskets[e]]);
      } else {
        assert r.sealed ==> e in page;
      }
    }
  }

  /** The repository returned each page. */
  ghost predicate PagesListed(k: Book, o: Obs, pages: seq<seq<EntryId>>, ws: seq<World>)
    requires |pages| == |ws|
  {
    forall i :: 0 <= i < |ws| ==> PendingPage(BookRun(k, o, pages[..i], ws[..i]).0.entries, pages[i], ws[i].batch)
  }

  /** Over every run of baseline passes in which the providers answer everything the entries
      need: once the start set is sealed, it serves everyone who was to be baselined. */
  lemma {:induction false} StartSetServesEveryone(k: Book, o: Obs, baskets: map<EntryId, Basket>, pages: seq<seq<EntryId>>,
      ws: seq<World>)
    requires |pages| == |ws| && !o.sealed && RatesComplete(o) && PagesListed(k, o, pages, ws)
    requires forall w :: w in ws ==> EveryoneReady(k, baskets, w)
    ensures var (k1, o1) := BookRun(k, o, pages, ws);
      && StartServed(k1, o1, k, baskets)
      && (o1.sealed ==> forall e :: Pending(k.entries, e) ==> e in baskets && Scorable(o1.view, [baskets[e]]))
  {
    if ws == [] {
      hide Scorable, RatesComplete;
    } else {
      var n := |ws| - 1;
      var w := ws[n];
      assert w in ws;
      EarlierListed(k, o, pages, ws);
      hide PagesListed, EveryoneReady, PendingPage, StartServed, Scorable, RatesComplete, BookAfter, ObservedBy;
      StartSetServesEveryone(k, o, baskets, pages[..n], ws[..n]);
      var (k1, o1) := BookRun(k, o, pages[..n], ws[..n]);
      PassServes(k1, o1, k, baskets, pages[n], w);
      StartSealedServes(BookAfter(k1, o1, pages[n], w), ObservedBy(k1, o1, pages[n], w), k, baskets);
    }
  }

  lemma StartSealedServes(k: Book, o: Obs, k0: Book, baskets: map<EntryId, Basket>)
    ensures StartServed(k, o, k0, baskets) && o.sealed ==>
      forall e :: Pending(k0.entries, e) ==> e in baskets && Scorable(o.view, [baskets[e]])
  {
    hide Scorable, RatesComplete, Pending;
  }

  lemma EarlierListed(k: Book, o: Obs, pages: seq<seq<EntryId>>, ws: seq<World>)
    requires |pages| == |ws| > 0 && PagesListed(k, o, pages, ws)
    ensures var n := |ws| - 1;
      && PagesListed(k, o, pages[..n], ws[..n])
      && PendingPage(BookRun(k, o, pages[..n], ws[..n]).0.entries, pages[n], ws[n].batch)
  {
    var n := |ws| - 1;
    hide PendingPage, BookRun;
    forall i | 0 <= i < n
      ensures PendingPage(BookRun(k, o, pages[..n][..i], ws[..n][..i]).0.entries, pages[..n][i], ws[..n][i].batch)
    {
      assert pages[..n][..i] == pages[..i] && ws[..n][..i] == ws[..i];
    }
  }
}
