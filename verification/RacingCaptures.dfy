/** Captures that overlap. Finalization holds a lock over its capture; a baseline pass
    does not, so another capture may write between its read and its write. */
module RacingCaptures {
  import opened Valuation
  import opened Observations

  /** A capture that has read the set and fetched, and not written yet. */
  datatype Underway = Underway(seen: Obs, batch: seq<Basket>, last: bool, provider: Provider)

  function NewPrices(u: Underway): map<Key, Quote> {
    if u.seen.sealed then map[] else FetchedPrices(u.seen.view, Symbols(u.batch), u.provider)
  }

  function NewRates(u: Underway): map<string, real> {
    if u.seen.sealed then map[] else FetchedRates(u.seen.view, WantedPairs(Pairs(u.batch), NewPrices(u)), u.provider)
  }

  /** The view the capture returns: what it read and what it fetched. */
  function Returned(u: Underway): View {
    View(u.seen.view.prices + NewPrices(u), u.seen.view.fx + NewRates(u))
  }

  /** Its write onto what is stored by then: values stored meanwhile win, a set sealed
      meanwhile accepts nothing. */
  function Write(o: Obs, u: Underway): Obs {
    if u.seen.sealed || o.sealed then o
    else Obs(View(NewPrices(u) + o.view.prices, NewRates(u) + o.view.fx), u.last && BatchCaptured(u.seen, u.batch, u.provider))
  }

  /** Nobody in between: read and write together are the capture. */
  lemma UndisturbedIsCapture(o: Obs, batch: seq<Basket>, last: bool, p: Provider)
    ensures var u := Underway(o, batch, last, p);
      Write(o, u) == Capture(o, batch, last, p) && Returned(u) == Capture(o, batch, last, p).view
  {
    var u := Underway(o, batch, last, p);
    assert NewPrices(u) + o.view.prices == o.view.prices + NewPrices(u);
    assert NewRates(u) + o.view.fx == o.view.fx + NewRates(u);
    hide Symbols, Pairs, BatchCaptured;
  }

  // ---- any interleaving -----------------------------------------------------------------

  datatype Shared = Shared(stored: Obs, underway: map<nat, Underway>)

  datatype Event =
    | Reads(worker: nat, batch: seq<Basket>, last: bool, provider: Provider)
    | Writes(worker: nat)

  function Step(s: Shared, ev: Event): Shared {
    match ev
    case Reads(w, batch, last, p) => s.(underway := s.underway[w := Underway(s.stored, batch, last, p)])
    case Writes(w) =>
      if w in s.underway then Shared(Write(s.stored, s.underway[w]), s.underway - {w}) else s
  }

  function Run(s: Shared, evs: seq<Event>): Shared {
    if evs == [] then s else Step(Run(s, evs[..|evs| - 1]), evs[|evs| - 1])
  }

  /** b holds everything a holds, and is a if that was sealed. */
  ghost predicate Later(a: Obs, b: Obs) {
    Grows(a.view, b.view) && (a.sealed ==> b == a)
  }

  /** Every capture underway has read an earlier state of the set. */
  ghost predicate Coherent(s: Shared) {
    forall w :: w in s.underway ==> Later(s.underway[w].seen, s.stored)
  }

  lemma WriteOnlyAdds(o: Obs, u: Underway)
    ensures Later(o, Write(o, u))
  {
    hide NewPrices, NewRates, BatchCaptured;
  }

  lemma LaterThrough(a: Obs, b: Obs, c: Obs)
    requires Later(a, b) && Later(b, c)
    ensures Later(a, c)
  {
  }

  lemma StepKeepsCoherent(s: Shared, ev: Event)
    requires Coherent(s)
    ensures Coherent(Step(s, ev)) && Later(s.stored, Step(s, ev).stored)
  {
    match ev
    case Reads(w, batch, last, p) =>
    case Writes(w) =>
      if w in s.underway {
        var r := Write(s.stored, s.underway[w]);
        WriteOnlyAdds(s.stored, s.underway[w]);
        forall x | x in s.underway ensures Later(s.underway[x].seen, r) {
          LaterThrough(s.underway[x].seen, s.stored, r);
        }
      }
  }

  /** Write-once survives every interleaving: between any two moments the set only grows,
      and from the moment it is sealed it does not change. */
  lemma {:induction false} RacesKeepWriteOnce(s: Shared, evs: seq<Event>, k: nat)
    requires Coherent(s) && k <= |evs|
    ensures Coherent(Run(s, evs))
    ensures Later(Run(s, evs[..k]).stored, Run(s, evs).stored)
  {
    if evs != [] {
      var init, ev := evs[..|evs| - 1], evs[|evs| - 1];
      RacesKeepWriteOnce(s, init, if k < |evs| then k else |init|);
      StepKeepsCoherent(Run(s, init), ev);
      if k == |evs| {
        assert evs[..k] == evs;
      } else {
        assert init[..k] == evs[..k];
        LaterThrough(Run(s, evs[..k]).stored, Run(s, init).stored, Run(s, evs).stored);
      }
    }
  }

  // ---- what the racing capture returns ----------------------------------------------------

  ghost predicate Fits<K, V>(added: map<K, V>, stored: map<K, V>, closed: bool) {
    forall k :: k in added ==> if k in stored then stored[k] == added[k] else !closed
  }

  ghost predicate PartOf<K, V>(a: map<K, V>, b: map<K, V>) {
    forall k :: k in a ==> k in b && b[k] == a[k]
  }

  /** Nothing this capture fetched was stored differently meanwhile, and if the set was
      sealed meanwhile, nothing it fetched is missing there. */
  ghost predicate NotOvertaken(o: Obs, u: Underway) {
    Fits(NewPrices(u), o.view.prices, o.sealed) && Fits(NewRates(u), o.view.fx, o.sealed)
  }

  /** The same for one map. */
  lemma OverlayExactly<K, V>(seen: map<K, V>, added: map<K, V>, stored: map<K, V>, closed: bool)
    requires forall k :: k in added ==> k !in seen
    requires PartOf(seen, stored)
    ensures PartOf(seen + added, if closed then stored else added + stored) <==> Fits(added, stored, closed)
  {
    var returned, written := seen + added, if closed then stored else added + stored;
    if PartOf(returned, written) {
      forall k | k in added ensures if k in stored then stored[k] == added[k] else !closed {
        assert k in returned && returned[k] == added[k];
      }
    }
  }

  /** The returned view is part of the stored one exactly when it was not overtaken. */
  lemma ReturnsStoredExactly(o: Obs, u: Underway)
    requires Later(u.seen, o)
    ensures Grows(Returned(u), Write(o, u).view) <==> NotOvertaken(o, u)
  {
    FetchesAreNew(u);
    OverlayExactly(u.seen.view.prices, NewPrices(u), o.view.prices, o.sealed);
    OverlayExactly(u.seen.view.fx, NewRates(u), o.view.fx, o.sealed);
    WrittenParts(o, u);
    hide NewPrices, NewRates, Write, Fits;
  }

  lemma WrittenParts(o: Obs, u: Underway)
    requires Later(u.seen, o)
    ensures Write(o, u).view == View(
      if o.sealed then o.view.prices else NewPrices(u) + o.view.prices,
      if o.sealed then o.view.fx else NewRates(u) + o.view.fx)
  {
    hide BatchCaptured;
  }

  lemma FetchesAreNew(u: Underway)
    ensures forall k :: k in NewPrices(u) ==> k !in u.seen.view.prices
    ensures forall c :: c in NewRates(u) ==> c !in u.seen.view.fx
  {
    hide Symbols, Pairs;
  }

  /** In any interleaving of captures, a capture about to write returns values of the set
      exactly when no other capture overtook it. */
  lemma RacingViewExactly(s: Shared, evs: seq<Event>, w: nat)
    requires Coherent(s) && w in Run(s, evs).underway
    ensures var now, u := Run(s, evs), Run(s, evs).underway[w];
      Grows(Returned(u), Step(now, Writes(w)).stored.view) <==> NotOvertaken(now.stored, u)
  {
    RacesKeepWriteOnce(s, evs, 0);
    ReturnsStoredExactly(Run(s, evs).stored, Run(s, evs).underway[w]);
    hide Run, Write, Returned, NotOvertaken, Grows;
  }
}
