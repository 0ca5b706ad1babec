/** What a sealed set holds for the batches before the one that sealed it. */
module Sealing {
  import opened Outcomes
  import opened Valuation
  import opened Observations

  /** One pass's capture: its batch, whether it ends the lap, and what the providers
      answer during it. */
  datatype Taking = Taking(batch: seq<Basket>, last: bool, provider: Provider)

  function Take(o: Obs, t: Taking): Obs {
    Capture(o, t.batch, t.last, t.provider)
  }

  function TakeAll(o: Obs, ts: seq<Taking>): Obs {
    if ts == [] then o else Take(TakeAll(o, ts[..|ts| - 1]), ts[|ts| - 1])
  }

  /** No capture ends the lap. */
  ghost predicate MidLap(ts: seq<Taking>) {
    forall t :: t in ts ==> !t.last
  }

  // ---- what a run of captures stores -----------------------------------------------

  predicate Answered(t: Taking, k: Key) {
    k in Symbols(t.batch) && Resolve(t.provider, k).Some?
  }

  /** The quote of the first pass that wanted the symbol and was given one. */
  function FirstAnswer(ts: seq<Taking>, k: Key): Option<Quote> {
    if ts == [] then None
    else
      var earlier := FirstAnswer(ts[..|ts| - 1], k);
      var t := ts[|ts| - 1];
      if earlier.Some? then earlier
      else if Answered(t, k) then Resolve(t.provider, k)
      else None
  }

  /** The price a run of captures ends up with: one stored beforehand, or else the first
      answer. */
  function PriceTaken(o: Obs, ts: seq<Taking>, k: Key): Option<Quote> {
    if k in o.view.prices then Some(o.view.prices[k]) else FirstAnswer(ts, k)
  }

  /** The capture after `before` asks for this rate: one of its batch's cash is in the
      currency, or a price answered for the first time is. */
  ghost predicate Asks(o: Obs, before: seq<Taking>, t: Taking, c: string) {
    c in Pairs(t.batch) ||
    exists k :: Answered(t, k) && PriceTaken(o, before, k).None? && Resolve(t.provider, k).value.currency == c != BASE
  }

  /** The rate a run of captures ends up with: one stored beforehand, or else what the first
      capture that asked for it and was answered was told. */
  ghost function RateTaken(o: Obs, ts: seq<Taking>, c: string): Option<real> {
    if c in o.view.fx then Some(o.view.fx[c])
    else if ts == [] then None
    else
      var init, t := ts[..|ts| - 1], ts[|ts| - 1];
      var earlier := RateTaken(o, init, c);
      if earlier.Some? then earlier
      else if Asks(o, init, t, c) && c in t.provider.rates then Some(t.provider.rates[c])
      else None
  }

  ghost predicate Holds(v: View, o: Obs, ts: seq<Taking>) {
    && (forall k :: k in v.prices <==> PriceTaken(o, ts, k).Some?)
    && (forall k :: k in v.prices ==> PriceTaken(o, ts, k) == Some(v.prices[k]))
    && (forall c :: c in v.fx <==> RateTaken(o, ts, c).Some?)
    && (forall c :: c in v.fx ==> RateTaken(o, ts, c) == Some(v.fx[c]))
  }

  function WantedBy(v: View, t: Taking): set<string> {
    WantedPairs(Pairs(t.batch), FetchedPrices(v, Symbols(t.batch), t.provider))
  }

  lemma AskedIsWanted(o: Obs, before: seq<Taking>, t: Taking, v: View)
    requires Holds(v, o, before)
    ensures forall c :: c in WantedBy(v, t) <==> Asks(o, before, t, c)
  {
    var fetched := FetchedPrices(v, Symbols(t.batch), t.provider);
    hide PriceTaken, RateTaken;
    assert forall k :: k in fetched <==> Answered(t, k) && PriceTaken(o, before, k).None?;
    forall c | Asks(o, before, t, c) ensures c in WantedBy(v, t) {
      if c !in Pairs(t.batch) {
        var k :| Answered(t, k) && PriceTaken(o, before, k).None? && Resolve(t.provider, k).value.currency == c != BASE;
        assert k in fetched && fetched[k].currency == c;
      }
    }
  }

  lemma OneMoreTaken(o: Obs, before: seq<Taking>, t: Taking, k: Key)
    ensures PriceTaken(o, before + [t], k) ==
      if PriceTaken(o, before, k).Some? then PriceTaken(o, before, k)
      else if Answered(t, k) then Resolve(t.provider, k)
      else None
  {
    assert (before + [t])[..|before|] == before;
  }

  lemma OneMoreRate(o: Obs, before: seq<Taking>, t: Taking, c: string)
    ensures RateTaken(o, before + [t], c) ==
      if RateTaken(o, before, c).Some? then RateTaken(o, before, c)
      else if Asks(o, before, t, c) && c in t.provider.rates then Some(t.provider.rates[c])
      else None
  {
    assert (before + [t])[..|before|] == before;
    hide Asks;
  }

  /** One capture on top of what earlier ones took. */
  lemma TakeHolds(o: Obs, before: seq<Taking>, t: Taking, v: Obs)
    requires !v.sealed && Holds(v.view, o, before)
    ensures Holds(Take(v, t).view, o, before + [t])
  {
    var r := Take(v, t).view;
    AskedIsWanted(o, before, t, v.view);
    hide PriceTaken, RateTaken, Asks, Symbols, Pairs;
    forall k
      ensures k in r.prices <==> PriceTaken(o, before + [t], k).Some?
      ensures k in r.prices ==> PriceTaken(o, before + [t], k) == Some(r.prices[k])
    {
      OneMoreTaken(o, before, t, k);
    }
    forall c
      ensures c in r.fx <==> RateTaken(o, before + [t], c).Some?
      ensures c in r.fx ==> RateTaken(o, before + [t], c) == Some(r.fx[c])
    {
      OneMoreRate(o, before, t, c);
      assert c in WantedBy(v.view, t) <==> Asks(o, before, t, c);
    }
  }

  /** A run of captures that seals nothing holds exactly the first answers to what each
      batch asked for. */
  lemma {:induction false} TakeAllHolds(o: Obs, ts: seq<Taking>)
    requires !o.sealed && MidLap(ts)
    ensures !TakeAll(o, ts).sealed && Holds(TakeAll(o, ts).view, o, ts)
  {
    if ts != [] {
      var init, t := ts[..|ts| - 1], ts[|ts| - 1];
      assert t in ts && ts == init + [t];
      TakeAllHolds(o, init);
      TakeHolds(o, init, t, TakeAll(o, init));
      hide Holds;
    }
  }

  // ---- what sealing says about the batches before ------------------------------------

  /** A batch's needs against what the passes before the sealing one took and what the
      sealing pass asks for itself. */
  ghost predicate ServedBySealing(o: Obs, before: seq<Taking>, sealing: Taking, batch: seq<Basket>) {
    && (forall k :: k in Symbols(batch) ==>
         match PriceTaken(o, before, k)
         case None => k in Symbols(sealing.batch)
         case Some(q) => q.currency == BASE || RateTaken(o, before, q.currency).Some? || Asks(o, before, sealing, q.currency))
    && (forall c :: c in Pairs(batch) ==> RateTaken(o, before, c).Some? || Asks(o, before, sealing, c))
  }

  /** A pass that seals took everything it asked for, and nothing else. */
  lemma SealingTakesAll(v: Obs, t: Taking)
    requires !v.sealed && Take(v, t).sealed
    ensures var r := Take(v, t).view;
      && r.fx.Keys == v.view.fx.Keys + WantedBy(v.view, t)
      && r.prices.Keys == v.view.prices.Keys + Symbols(t.batch)
      && (forall k :: k in v.view.prices ==> r.prices[k] == v.view.prices[k])
      && (forall k :: k in r.prices && k !in v.view.prices && r.prices[k].currency != BASE ==> r.prices[k].currency in r.fx)
  {
    var fetched := FetchedPrices(v.view, Symbols(t.batch), t.provider);
    var r := Take(v, t).view;
    CaptureOnlyAdds(v, t.batch, t.last, t.provider);
    hide Symbols, Pairs;
    forall k | k in r.prices && k !in v.view.prices && r.prices[k].currency != BASE ensures r.prices[k].currency in r.fx {
      assert k in fetched && fetched[k] == r.prices[k];
      assert fetched[k].currency in WantedBy(v.view, t);
    }
  }

  /** A lap whose last pass seals leaves the set scorable for a batch, whichever pass had
      it, exactly when each of its symbols was priced earlier with a rate that was taken
      earlier or is asked for now, or is a symbol of the sealing batch too, and each of
      its cash rates was taken earlier or is asked for now. */
  lemma SealedLapExactly(o: Obs, before: seq<Taking>, sealing: Taking, batch: seq<Basket>)
    requires !o.sealed && MidLap(before) && TakeAll(o, before + [sealing]).sealed
    ensures Scorable(TakeAll(o, before + [sealing]).view, batch) <==> ServedBySealing(o, before, sealing, batch)
  {
    var v := TakeAll(o, before);
    assert (before + [sealing])[..|before|] == before;
    TakeAllHolds(o, before);
    AskedIsWanted(o, before, sealing, v.view);
    SealingTakesAll(v, sealing);
    ServedExactly(o, before, sealing, v.view, Take(v, sealing).view, batch);
    assert Take(v, sealing) == TakeAll(o, before + [sealing]);
    hide Take, Holds, Asks, WantedBy, Symbols, Pairs, ServedBySealing, Scorable;
  }

  lemma ServedExactly(o: Obs, before: seq<Taking>, sealing: Taking, v: View, r: View, batch: seq<Basket>)
    requires Holds(v, o, before)
    requires forall c :: c in WantedBy(v, sealing) <==> Asks(o, before, sealing, c)
    requires r.fx.Keys == v.fx.Keys + WantedBy(v, sealing)
    requires r.prices.Keys == v.prices.Keys + Symbols(sealing.batch)
    requires forall k :: k in v.prices ==> r.prices[k] == v.prices[k]
    requires forall k :: k in r.prices && k !in v.prices && r.prices[k].currency != BASE ==> r.prices[k].currency in r.fx
    ensures Scorable(r, batch) <==> ServedBySealing(o, before, sealing, batch)
  {
    hide PriceTaken, RateTaken, Asks, WantedBy, Symbols, Pairs;
    forall c ensures c in r.fx <==> RateTaken(o, before, c).Some? || Asks(o, before, sealing, c) {
      assert c in r.fx.Keys <==> c in v.fx || c in WantedBy(v, sealing);
    }
    forall k ensures k in r.prices && (r.prices[k].currency == BASE || r.prices[k].currency in r.fx) <==>
      match PriceTaken(o, before, k)
      case None => k in Symbols(sealing.batch)
      case Some(q) => q.currency == BASE || RateTaken(o, before, q.currency).Some? || Asks(o, before, sealing, q.currency)
    {
      assert k in r.prices.Keys <==> k in v.prices || k in Symbols(sealing.batch);
    }
  }

  /** Each pass of the run found everything it asked for. */
  ghost predicate FullyTaken(o: Obs, ts: seq<Taking>) {
    forall i :: 0 <= i < |ts| ==> BatchCaptured(TakeAll(o, ts[..i]), ts[i].batch, ts[i].provider)
  }

  lemma FullCapture(o: Obs, t: Taking)
    requires !o.sealed && RatesComplete(o) && BatchCaptured(o, t.batch, t.provider)
    ensures RatesComplete(Take(o, t)) && Scorable(Take(o, t).view, t.batch)
    ensures Take(o, t).sealed <==> t.last
  {
    SealingSoundWhenRatesComplete(o, t.batch, true, t.provider);
    var fetched := FetchedPrices(o.view, Symbols(t.batch), t.provider);
    hide Symbols, Pairs, Scorable;
    forall k | k in fetched && fetched[k].currency != BASE
      ensures fetched[k].currency in o.view.fx || fetched[k].currency in t.provider.rates
    {
      assert fetched[k].currency in WantedPairs(Pairs(t.batch), fetched);
    }
    assert Capture(o, t.batch, true, t.provider).view == Take(o, t).view;
  }

  lemma ScorableGrows(v: View, w: View, batch: seq<Basket>)
    requires Grows(v, w) && Scorable(v, batch)
    ensures Scorable(w, batch)
  {
    hide Symbols, Pairs;
  }

  /** A lap in which every pass found all it asked for seals soundly for all its
      batches. */
  lemma {:induction false} CompleteLapSealsSoundly(o: Obs, ts: seq<Taking>)
    requires !o.sealed && RatesComplete(o) && FullyTaken(o, ts)
    requires forall i :: 0 <= i < |ts| ==> (ts[i].last <==> i == |ts| - 1)
    ensures forall i :: 0 <= i < |ts| ==> Scorable(TakeAll(o, ts).view, ts[i].batch)
    ensures ts != [] ==> TakeAll(o, ts).sealed
  {
    AllTaken(o, ts, |ts|);
    assert ts[..|ts|] == ts;
  }

  lemma {:induction false} AllTaken(o: Obs, ts: seq<Taking>, n: nat)
    requires !o.sealed && RatesComplete(o) && FullyTaken(o, ts) && n <= |ts|
    requires forall i :: 0 <= i < |ts| ==> (ts[i].last <==> i == |ts| - 1)
    ensures RatesComplete(TakeAll(o, ts[..n]))
    ensures TakeAll(o, ts[..n]).sealed <==> n == |ts| && n > 0
    ensures forall i :: 0 <= i < n ==> Scorable(TakeAll(o, ts[..n]).view, ts[i].batch)
  {
    if n > 0 {
      var before, t := TakeAll(o, ts[..n - 1]), ts[n - 1];
      AllTaken(o, ts, n - 1);
      assert ts[..n][..n - 1] == ts[..n - 1];
      FullCapture(before, t);
      CaptureOnlyAdds(before, t.batch, t.last, t.provider);
      hide RatesComplete, Grows, BatchCaptured, Capture;
      forall i | 0 <= i < n ensures Scorable(Take(before, t).view, ts[i].batch) {
        if i < n - 1 { ScorableGrows(before.view, Take(before, t).view, ts[i].batch); }
      }
    }
  }

  // ---- a set can seal without an earlier batch's price -----------------------------------

  lemma {:induction false} SealedForever(o: Obs, ts: seq<Taking>)
    requires o.sealed
    ensures TakeAll(o, ts) == o
  {
    if ts != [] { SealedForever(o, ts[..|ts| - 1]); }
  }

  const MSFT := Position("", "MSFT", true, 1.0, 0.0, 100.0, 100.0)
  const OTHER := Basket(100.0, [MSFT], [])
  const QUOTED := Provider(map[], map[Ticker("MSFT") := Quote(110.0, BASE)], map[])

  /** The first batch's share cannot be quoted for the moment; the second batch's can. */
  const LAP := [Taking([SHARE], false, QUOTED), Taking([OTHER], true, QUOTED)]

  /** Two passes of one lap: the second seals the set although the first batch's symbol
      was never priced, and no later capture, whatever the providers answer by then,
      makes that batch's entry valuable. */
  lemma SealsWithoutEarlierBatch(later: seq<Taking>, includeFX: bool)
    ensures TakeAll(NOTHING_YET, LAP).sealed
    ensures TakeAll(NOTHING_YET, LAP + later) == TakeAll(NOTHING_YET, LAP)
    ensures Value(SHARE, TakeAll(NOTHING_YET, LAP + later).view, includeFX) == Failure(NotCaptured)
    ensures Value(OTHER, TakeAll(NOTHING_YET, LAP + later).view, includeFX).Success?
  {
    LapTakes();
    TakeAllSplits(NOTHING_YET, LAP, later);
    SealedForever(TakeAll(NOTHING_YET, LAP), later);
    hide *;
    OneQuote(includeFX);
  }

  lemma {:induction false} TakeAllSplits(o: Obs, ts: seq<Taking>, later: seq<Taking>)
    ensures TakeAll(o, ts + later) == TakeAll(TakeAll(o, ts), later)
  {
    if later == [] {
      assert ts + later == ts;
    } else {
      assert (ts + later)[..|ts + later| - 1] == ts + later[..|later| - 1];
      TakeAllSplits(o, ts, later[..|later| - 1]);
      hide Take;
    }
  }

  const SECOND_ONLY := Obs(View(map[Ticker("MSFT") := Quote(110.0, BASE)], map[]), true)

  lemma LapTakes()
    ensures TakeAll(NOTHING_YET, LAP) == SECOND_ONLY && SECOND_ONLY.sealed
  {
    ShareIsNotQuoted();
    OtherIsQuoted();
    hide Capture;
    var one := Taking([SHARE], false, QUOTED);
    assert LAP[..1] == [one] && [one][..0] == [] && LAP[1] == Taking([OTHER], true, QUOTED);
    assert TakeAll(NOTHING_YET, [one]) == Take(TakeAll(NOTHING_YET, []), one) == NOTHING_YET;
    assert TakeAll(NOTHING_YET, LAP) == Take(TakeAll(NOTHING_YET, LAP[..1]), LAP[1]);
  }

  lemma ShareIsNotQuoted()
    ensures Capture(NOTHING_YET, [SHARE], false, QUOTED) == NOTHING_YET
  {
    ShareNeedsOnlyItsPrice();
    assert FetchedPrices(NOTHING_YET.view, {Ticker("SAP")}, QUOTED) == map[];
    assert WantedPairs({}, map[]) == {};
    assert FetchedRates(NOTHING_YET.view, {}, QUOTED) == map[];
  }

  lemma OtherIsQuoted()
    ensures Capture(NOTHING_YET, [OTHER], true, QUOTED) == SECOND_ONLY
  {
    assert OTHER.positions[0] == MSFT && [OTHER][0] == OTHER;
    assert Symbols([OTHER]) == {Ticker("MSFT")} && Pairs([OTHER]) == {};
    var fetched := FetchedPrices(NOTHING_YET.view, {Ticker("MSFT")}, QUOTED);
    assert fetched == map[Ticker("MSFT") := Quote(110.0, BASE)];
    assert WantedPairs({}, fetched) == {};
    assert FetchedRates(NOTHING_YET.view, {}, QUOTED) == map[];
  }

  lemma OneQuote(includeFX: bool)
    ensures Value(SHARE, SECOND_ONLY.view, includeFX) == Failure(NotCaptured)
    ensures Value(OTHER, SECOND_ONLY.view, includeFX).Success?
  {
    var v := SECOND_ONLY.view;
    assert [SAP][..0] == [] && [MSFT][..0] == [];
    assert PositionsTotal([], v, includeFX) == Success(0.0) && CashTotal([], v, includeFX) == Success(0.0);
    assert PositionValue(SAP, v, includeFX) == Failure(NotCaptured);
    assert StartingLocal(MSFT) == 100.0;
    assert PositionValue(MSFT, v, includeFX).Success?;
    assert PositionsTotal([SAP], v, includeFX) == Failure(NotCaptured);
    assert PositionsTotal([MSFT], v, includeFX).Success?;
  }
}
