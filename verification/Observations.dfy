/** The boundary observation set: captured once, never repriced, sealed at last. */
module Observations {
  import opened Outcomes
  import opened Valuation

  datatype Obs = Obs(view: View, sealed: bool)

  /** What the price and rate providers answer during one pass. History at or
      before the boundary is preferred to a live quote. */
  datatype Provider = Provider(history: map<Key, Quote>, live: map<Key, Quote>, rates: map<string, real>)

  function Resolve(p: Provider, key: Key): Option<Quote> {
    if key in p.history then Some(p.history[key])
    else if key in p.live then Some(p.live[key])
    else None
  }

  // ---- what a batch needs ----------------------------------------------------

  function PositionKeys(ps: seq<Position>): set<Key> {
    set p | p in ps && p.included :: KeyOf(p.instrument, p.symbol)
  }

  function CashPairs(cs: seq<Cash>): set<string> {
    set c | c in cs && c.included && c.currency != BASE :: c.currency
  }

  function Symbols(batch: seq<Basket>): set<Key> {
    set b, p | b in batch && p in b.positions && p.included :: KeyOf(p.instrument, p.symbol)
  }

  function Pairs(batch: seq<Basket>): set<string> {
    set b, c | b in batch && c in b.cash && c.included && c.currency != BASE :: c.currency
  }

  /** Collects the distinct symbols and currencies of a batch's scored components. */
  method EntrySymbolsAndPairs(batch: seq<Basket>) returns (symbols: set<Key>, pairs: set<string>)
    ensures symbols == Symbols(batch) && pairs == Pairs(batch)
  {
    symbols, pairs := {}, {};
    for i := 0 to |batch|
      invariant symbols == Symbols(batch[..i]) && pairs == Pairs(batch[..i])
    {
      var own, wanted := BasketNeeds(batch[i]);
      symbols, pairs := symbols + own, pairs + wanted;
      assert batch[..i + 1] == batch[..i] + [batch[i]];
    }
    assert batch[..|batch|] == batch;
  }

  method BasketNeeds(b: Basket) returns (symbols: set<Key>, pairs: set<string>)
    ensures symbols == PositionKeys(b.positions) && pairs == CashPairs(b.cash)
  {
    symbols, pairs := {}, {};
    for j := 0 to |b.positions|
      invariant symbols == PositionKeys(b.positions[..j])
    {
      var p := b.positions[j];
      assert b.positions[..j + 1] == b.positions[..j] + [p];
      if p.included {
        symbols := symbols + {KeyOf(p.instrument, p.symbol)};
      }
    }
    assert b.positions[..|b.positions|] == b.positions;
    for j := 0 to |b.cash|
      invariant pairs == CashPairs(b.cash[..j])
    {
      var c := b.cash[j];
      assert b.cash[..j + 1] == b.cash[..j] + [c];
      if c.included && c.currency != BASE {
        pairs := pairs + {c.currency};
      }
    }
    assert b.cash[..|b.cash|] == b.cash;
  }

  // ---- capture on values -----------------------------------------------------

  function FetchedPrices(v: View, symbols: set<Key>, p: Provider): map<Key, Quote> {
    map k | k in symbols && k !in v.prices && Resolve(p, k).Some? :: Resolve(p, k).value
  }

  /** The rates asked for: the batch's cash currencies and those of the prices
      fetched in this very pass. A price already stored asks for none. */
  function WantedPairs(pairs: set<string>, fetched: map<Key, Quote>): set<string> {
    pairs + set k | k in fetched && fetched[k].currency != BASE :: fetched[k].currency
  }

  function FetchedRates(v: View, wanted: set<string>, p: Provider): map<string, real> {
    map c | c in wanted && c !in v.fx && c in p.rates :: p.rates[c]
  }

  function Captured(o: Obs, batch: seq<Basket>, p: Provider): View {
    var prices := FetchedPrices(o.view, Symbols(batch), p);
    var rates := FetchedRates(o.view, WantedPairs(Pairs(batch), prices), p);
    View(o.view.prices + prices, o.view.fx + rates)
  }

  predicate BatchCaptured(o: Obs, batch: seq<Basket>, p: Provider) {
    var prices := FetchedPrices(o.view, Symbols(batch), p);
    && Symbols(batch) <= Captured(o, batch, p).prices.Keys
    && WantedPairs(Pairs(batch), prices) <= Captured(o, batch, p).fx.Keys
  }

  /** One capture pass over the set. */
  function Capture(o: Obs, batch: seq<Basket>, lastBatch: bool, p: Provider): Obs {
    if o.sealed then o
    else Obs(Captured(o, batch, p), BatchCaptured(o, batch, p) && lastBatch)
  }

  // ---- the store -------------------------------------------------------------

  class ObservationSet {
    var prices: map<Key, Quote>
    var fx: map<string, real>
    var sealed: bool

    constructor ()
      ensures State() == Obs(View(map[], map[]), false)
    {
      prices, fx, sealed := map[], map[], false;
    }

    ghost function State(): Obs
      reads this
    {
      Obs(View(prices, fx), sealed)
    }

    /** Stores what is not stored yet; a sealed set accepts nothing. */
    method Record(newPrices: map<Key, Quote>, newFX: map<string, real>, seal: bool)
      modifies this
      ensures old(sealed) ==> State() == old(State())
      ensures !old(sealed) ==>
        State() == Obs(View(newPrices + old(prices), newFX + old(fx)), seal)
    {
      if sealed {
        return;
      }
      prices := AddMissing(prices, newPrices);
      fx := AddMissing(fx, newFX);
      if seal {
        sealed := true;
      }
    }
  }

  /** Adds each new pair whose key is not taken. */
  method AddMissing<K, V>(existing: map<K, V>, added: map<K, V>) returns (r: map<K, V>)
    ensures r == added + existing
  {
    r := existing;
    var keys := added.Keys;
    while keys != {}
      invariant keys <= added.Keys
      invariant r == (map k | k in added.Keys - keys :: added[k]) + existing
      decreases keys
    {
      var key :| key in keys;
      keys := keys - {key};
      if key !in r {
        r := r[key := added[key]];
      }
    }
    assert (map k | k in added.Keys - keys :: added[k]) == added;
  }

  lemma WantedPairsAdd(pairs: set<string>, fetched: map<Key, Quote>, key: Key, quote: Quote)
    requires key !in fetched
    ensures WantedPairs(pairs, fetched[key := quote]) ==
            WantedPairs(pairs, fetched) + (if quote.currency != BASE then {quote.currency} else {})
  {
    var after := fetched[key := quote];
    forall c | c in WantedPairs(pairs, fetched) ensures c in WantedPairs(pairs, after) {
      if c !in pairs {
        var k :| k in fetched && fetched[k].currency == c && c != BASE;
        assert after[k].currency == c;
      }
    }
    if quote.currency != BASE {
      assert after[key].currency in WantedPairs(pairs, after);
    }
  }

  method FetchPrices(existing: map<Key, Quote>, symbols: set<Key>, p: Provider, wanted0: set<string>)
      returns (fetched: map<Key, Quote>, wanted: set<string>)
    ensures fetched == FetchedPrices(View(existing, map[]), symbols, p)
    ensures wanted == WantedPairs(wanted0, fetched)
  {
    fetched, wanted := map[], wanted0;
    var todo := symbols;
    while todo != {}
      invariant todo <= symbols
      invariant fetched == FetchedPrices(View(existing, map[]), symbols - todo, p)
      invariant wanted == WantedPairs(wanted0, fetched)
      decreases todo
    {
      var key :| key in todo;
      todo := todo - {key};
      if key !in existing {
        var quote := Resolve(p, key);
        if quote.Some? {
          WantedPairsAdd(wanted0, fetched, key, quote.value);
          fetched := fetched[key := quote.value];
          if quote.value.currency != BASE {
            wanted := wanted + {quote.value.currency};
          }
        }
      }
    }
    assert symbols - todo == symbols;
  }

  method FetchRates(existing: map<string, real>, wanted: set<string>, p: Provider) returns (fetched: map<string, real>)
    ensures fetched == FetchedRates(View(map[], existing), wanted, p)
  {
    fetched := map[];
    var todo := wanted;
    while todo != {}
      invariant todo <= wanted
      invariant fetched == FetchedRates(View(map[], existing), wanted - todo, p)
      decreases todo
    {
      var c :| c in todo;
      todo := todo - {c};
      if c !in existing && c in p.rates {
        fetched := fetched[c := p.rates[c]];
      }
    }
    assert wanted - todo == wanted;
  }

  /** captureObservations: fetch once what the batch needs and is not stored, persist
      it, seal on the last batch once nothing the pass asked for is missing, and
      return the view to price from, which is the store's own content. */
  method CaptureObservations(set_: ObservationSet, batch: seq<Basket>, lastBatch: bool, p: Provider, recordOk: bool)
      returns (r: Result<View>)
    modifies set_
    ensures set_.State() == if recordOk then Capture(old(set_.State()), batch, lastBatch, p) else old(set_.State())
    ensures r.Success? <==> recordOk || Capture(old(set_.State()), batch, lastBatch, p) == old(set_.State())
    ensures r.Success? ==> r.value == set_.State().view
    ensures r.Failure? ==> r.error == StoreUnavailable
  {
    if set_.sealed {
      return Success(View(set_.prices, set_.fx));
    }
    ghost var o := set_.State();
    var symbols, pairs := EntrySymbolsAndPairs(batch);
    var newPrices, wanted := FetchPrices(set_.prices, symbols, p, pairs);
    var newFX := FetchRates(set_.fx, wanted, p);
    var prices, fx := set_.prices + newPrices, set_.fx + newFX;
    CapturedParts(o, batch, p, newPrices, newFX, wanted);
    AddsOrKeeps(o.view.prices, newPrices);
    AddsOrKeeps(o.view.fx, newFX);
    var seal := symbols <= prices.Keys && wanted <= fx.Keys && lastBatch;
    if newPrices != map[] || newFX != map[] || seal {
      if !recordOk {
        return Failure(StoreUnavailable);
      }
      set_.Record(newPrices, newFX, seal);
    }
    r := Success(View(prices, fx));
  }

  lemma CapturedParts(o: Obs, batch: seq<Basket>, p: Provider, newPrices: map<Key, Quote>, newFX: map<string, real>,
      wanted: set<string>)
    requires newPrices == FetchedPrices(View(o.view.prices, map[]), Symbols(batch), p)
    requires wanted == WantedPairs(Pairs(batch), newPrices)
    requires newFX == FetchedRates(View(map[], o.view.fx), wanted, p)
    ensures newPrices + o.view.prices == o.view.prices + newPrices == Captured(o, batch, p).prices
    ensures newFX + o.view.fx == o.view.fx + newFX == Captured(o, batch, p).fx
    ensures BatchCaptured(o, batch, p) <==>
      Symbols(batch) <= (o.view.prices + newPrices).Keys && wanted <= (o.view.fx + newFX).Keys
  {
    OnlyPricesMatter(o.view, Symbols(batch), p);
    OnlyRatesMatter(o.view, wanted, p);
    hide Symbols, Pairs, WantedPairs, FetchedPrices, FetchedRates;
    Commute(o.view.prices, newPrices);
    Commute(o.view.fx, newFX);
  }

  lemma OnlyPricesMatter(v: View, symbols: set<Key>, p: Provider)
    ensures FetchedPrices(View(v.prices, map[]), symbols, p) == FetchedPrices(v, symbols, p)
    ensures v.prices.Keys !! FetchedPrices(v, symbols, p).Keys
  {
  }

  lemma OnlyRatesMatter(v: View, wanted: set<string>, p: Provider)
    ensures FetchedRates(View(map[], v.fx), wanted, p) == FetchedRates(v, wanted, p)
    ensures v.fx.Keys !! FetchedRates(v, wanted, p).Keys
  {
  }

  lemma Commute<K, V>(a: map<K, V>, b: map<K, V>)
    requires a.Keys !! b.Keys
    ensures a + b == b + a
  {
  }

  /** Adding pairs at fresh keys changes a map unless there are none to add. */
  lemma AddsOrKeeps<K, V>(m: map<K, V>, added: map<K, V>)
    requires m.Keys !! added.Keys
    ensures m + added == m <==> added == map[]
  {
    if added != map[] {
      var k :| k in added;
      assert k in m + added && k !in m;
    }
  }

  // ---- what a capture guarantees ----------------------------------------------

  /** Write-once: a capture only adds to the set, and a sealed set never changes. */
  lemma CaptureOnlyAdds(o: Obs, batch: seq<Basket>, lastBatch: bool, p: Provider)
    ensures Grows(o.view, Capture(o, batch, lastBatch, p).view)
    ensures o.sealed ==> Capture(o, batch, lastBatch, p) == o
  {
    var fetched := FetchedPrices(o.view, Symbols(batch), p);
    assert forall k :: k in fetched ==> k !in o.view.prices;
    assert forall c :: c in FetchedRates(o.view, WantedPairs(Pairs(batch), fetched), p) ==> c !in o.view.fx;
  }

  /** Every scored component of the batch can be priced and converted. */
  ghost predicate Scorable(v: View, batch: seq<Basket>) {
    && (forall k :: k in Symbols(batch) ==>
         k in v.prices && (v.prices[k].currency == BASE || v.prices[k].currency in v.fx))
    && Pairs(batch) <= v.fx.Keys
  }

  /** A price stored before the pass in a foreign currency has its rate stored too, or
      this pass asks for that rate on another component's account. */
  ghost predicate OldPricesConvert(o: Obs, batch: seq<Basket>, p: Provider) {
    var wanted := WantedPairs(Pairs(batch), FetchedPrices(o.view, Symbols(batch), p));
    forall k :: k in Symbols(batch) && k in o.view.prices && o.view.prices[k].currency != BASE ==>
      o.view.prices[k].currency in o.view.fx || o.view.prices[k].currency in wanted
  }

  /** A pass that seals leaves its own batch scorable exactly when the prices it found
      already stored did not need a rate it never asked for. */
  lemma SealingSoundExactly(o: Obs, batch: seq<Basket>, lastBatch: bool, p: Provider)
    requires !o.sealed && Capture(o, batch, lastBatch, p).sealed
    ensures Scorable(Capture(o, batch, lastBatch, p).view, batch) <==> OldPricesConvert(o, batch, p)
  {
    var fetched := FetchedPrices(o.view, Symbols(batch), p);
    var wanted := WantedPairs(Pairs(batch), fetched);
    var v := Captured(o, batch, p);
    forall k | k in Symbols(batch) && k !in o.view.prices
      ensures k in v.prices && (v.prices[k].currency == BASE || v.prices[k].currency in v.fx)
    {
      assert k in fetched && v.prices[k] == fetched[k];
      if fetched[k].currency != BASE { assert fetched[k].currency in wanted; }
    }
    forall c | c in v.fx ensures c in o.view.fx || c in wanted {}
  }

  /** Every stored foreign price has its rate stored. */
  ghost predicate RatesComplete(o: Obs) {
    forall k :: k in o.view.prices && o.view.prices[k].currency != BASE ==> o.view.prices[k].currency in o.view.fx
  }

  /** With no rate missing beforehand, sealing is sound; and no rate is missing
      afterwards exactly when the rate of every price fetched now is known. */
  lemma SealingSoundWhenRatesComplete(o: Obs, batch: seq<Basket>, lastBatch: bool, p: Provider)
    requires RatesComplete(o) && !o.sealed
    ensures Capture(o, batch, lastBatch, p).sealed ==> Scorable(Capture(o, batch, lastBatch, p).view, batch)
    ensures var fetched := FetchedPrices(o.view, Symbols(batch), p);
      RatesComplete(Capture(o, batch, lastBatch, p)) <==>
      forall k :: k in fetched && fetched[k].currency != BASE ==>
        fetched[k].currency in o.view.fx || fetched[k].currency in p.rates
  {
    var fetched := FetchedPrices(o.view, Symbols(batch), p);
    var v := Captured(o, batch, p);
    if Capture(o, batch, lastBatch, p).sealed { SealingSoundExactly(o, batch, lastBatch, p); }
    forall k | k in fetched && fetched[k].currency != BASE
      ensures fetched[k].currency in v.fx <==> fetched[k].currency in o.view.fx || fetched[k].currency in p.rates
    {
      assert fetched[k].currency in WantedPairs(Pairs(batch), fetched);
    }
    assert forall k :: k in v.prices ==> v.prices[k] == (if k in fetched then fetched[k] else o.view.prices[k]);
  }

  // ---- a set can seal without a rate it needs -------------------------------------

  const SAP := Position("", "SAP", true, 1.0, 0.0, 100.0, 100.0)
  const SHARE := Basket(100.0, [SAP], [])
  const NOTHING_YET := Obs(View(map[], map[]), false)
  const PRICE_ONLY := Provider(map[], map[Ticker("SAP") := Quote(110.0, "EUR")], map[])
  const PRICE_AND_RATE := Provider(map[], map[Ticker("SAP") := Quote(110.0, "EUR")], map["EUR" := 1.1])

  /** Two passes over one entry holding a euro-quoted share: the first finds the price
      but no rate, the second skips the stored price, asks for nothing, and seals a set
      in which the entry can never be scored. */
  lemma SealsWithoutRate()
    ensures var o1 := Capture(NOTHING_YET, [SHARE], true, PRICE_ONLY);
      var o2 := Capture(o1, [SHARE], true, PRICE_AND_RATE);
      && !o1.sealed && o2.sealed && !Scorable(o2.view, [SHARE])
      && Value(SHARE, o2.view, true) == Failure(NotCaptured)
  {
    ShareNeedsOnlyItsPrice();
    FirstPassFindsNoRate();
    var o1 := Capture(NOTHING_YET, [SHARE], true, PRICE_ONLY);
    SecondPassSeals(o1);
    var o2 := Capture(o1, [SHARE], true, PRICE_AND_RATE);
    assert Ticker("SAP") in Symbols([SHARE]);
    UnconvertibleShare(o2.view);
  }

  lemma ShareNeedsOnlyItsPrice()
    ensures Symbols([SHARE]) == {Ticker("SAP")} && Pairs([SHARE]) == {}
  {
    assert SHARE.positions[0] == SAP && [SHARE][0] == SHARE;
  }

  lemma FirstPassFindsNoRate()
    requires Symbols([SHARE]) == {Ticker("SAP")} && Pairs([SHARE]) == {}
    ensures Capture(NOTHING_YET, [SHARE], true, PRICE_ONLY) ==
      Obs(View(map[Ticker("SAP") := Quote(110.0, "EUR")], map[]), false)
  {
    var fetched := FetchedPrices(NOTHING_YET.view, {Ticker("SAP")}, PRICE_ONLY);
    assert fetched == map[Ticker("SAP") := Quote(110.0, "EUR")];
    assert fetched[Ticker("SAP")].currency == "EUR" && "EUR" in WantedPairs({}, fetched);
    assert FetchedRates(NOTHING_YET.view, WantedPairs({}, fetched), PRICE_ONLY) == map[];
  }

  lemma SecondPassSeals(o1: Obs)
    requires Symbols([SHARE]) == {Ticker("SAP")} && Pairs([SHARE]) == {}
    requires o1 == Obs(View(map[Ticker("SAP") := Quote(110.0, "EUR")], map[]), false)
    ensures Capture(o1, [SHARE], true, PRICE_AND_RATE) == Obs(o1.view, true)
  {
    assert FetchedPrices(o1.view, {Ticker("SAP")}, PRICE_AND_RATE) == map[];
    assert WantedPairs({}, map[]) == {};
    assert FetchedRates(o1.view, {}, PRICE_AND_RATE) == map[];
  }

  lemma UnconvertibleShare(v: View)
    requires v == View(map[Ticker("SAP") := Quote(110.0, "EUR")], map[])
    ensures Value(SHARE, v, true) == Failure(NotCaptured)
  {
    assert [SAP][..0] == [];
    assert PositionValue(SAP, v, true) == Failure(NotCaptured);
    assert PositionsTotal([SAP], v, true) == Failure(NotCaptured);
  }

  // ---- where a price comes from ------------------------------------------------------------

  /** A price captured now is the historical one at or before the boundary whenever there
      is one, and the live quote only when there is not; without either none is taken. */
  lemma HistoryFirst(o: Obs, batch: seq<Basket>, lastBatch: bool, p: Provider, k: Key)
    requires !o.sealed && k in Symbols(batch) && k !in o.view.prices
    ensures var v := Capture(o, batch, lastBatch, p).view;
      if k in p.history then k in v.prices && v.prices[k] == p.history[k]
      else if k in p.live then k in v.prices && v.prices[k] == p.live[k]
      else k !in v.prices
  {
    hide Symbols, Pairs, BatchCaptured, FetchedRates;
    var fetched := FetchedPrices(o.view, Symbols(batch), p);
    assert k in fetched <==> Resolve(p, k).Some?;
  }
}
