/** Pricing an entry's frozen basket: the index and return every board shows. */
module Valuation {
  import opened Money
  import opened OrderedIds
  import opened Outcomes
  import opened RankOrder

  const BASE := "USD"

  /** Identity by instrument when there is one, by ticker otherwise. */
  datatype Key = Identified(instrument: string) | Ticker(symbol: string)

  function KeyOf(instrument: string, symbol: string): Key {
    if instrument != "" then Identified(instrument) else Ticker(symbol)
  }

  datatype Position = Position(
    instrument: string, symbol: string, included: bool,
    quantity: real, original: real, startPrice: real, startValue: real)

  datatype Cash = Cash(currency: string, amount: real, valueBase: real, included: bool)

  datatype Basket = Basket(startValue: real, positions: seq<Position>, cash: seq<Cash>)

  datatype Quote = Quote(price: real, currency: string)

  /** The observations a pass prices from; rates convert into the base currency. */
  datatype View = View(prices: map<Key, Quote>, fx: map<string, real>)

  function PriceOf(v: View, p: Position): Result<Quote> {
    var key := KeyOf(p.instrument, p.symbol);
    if key in v.prices then Success(v.prices[key]) else Failure(NotCaptured)
  }

  function ToBase(v: View, amount: real, currency: string): Result<real> {
    if currency == BASE then Success(amount)
    else if currency in v.fx then Success(Mul(amount, v.fx[currency]))
    else Failure(NotCaptured)
  }

  function StartingLocal(p: Position): real {
    Mul(if p.original == 0.0 then p.quantity else p.original, p.startPrice)
  }

  function PositionValue(p: Position, v: View, includeFX: bool): Result<real> {
    if !p.included then Success(0.0)
    else
      var quote :- PriceOf(v, p);
      if includeFX then ToBase(v, Mul(p.quantity, quote.price), quote.currency)
      else if StartingLocal(p) == 0.0 then Failure(DivisionByZero)
      else Success(Mul(p.startValue, Div(Mul(p.quantity, quote.price), StartingLocal(p))))
  }

  function CashValue(c: Cash, v: View, includeFX: bool): Result<real> {
    if !c.included then Success(0.0)
    else if includeFX then ToBase(v, c.amount, c.currency)
    else Success(c.valueBase)
  }

  function PositionsTotal(ps: seq<Position>, v: View, includeFX: bool): Result<real> {
    if ps == [] then Success(0.0)
    else
      var total :- PositionsTotal(ps[..|ps| - 1], v, includeFX);
      var value :- PositionValue(ps[|ps| - 1], v, includeFX);
      Success(total + value)
  }

  function CashTotal(cs: seq<Cash>, v: View, includeFX: bool): Result<real> {
    if cs == [] then Success(0.0)
    else
      var total :- CashTotal(cs[..|cs| - 1], v, includeFX);
      var value :- CashValue(cs[|cs| - 1], v, includeFX);
      Success(total + value)
  }

  function BasketTotal(b: Basket, v: View, includeFX: bool): Result<real> {
    var positions :- PositionsTotal(b.positions, v, includeFX);
    var cash :- CashTotal(b.cash, v, includeFX);
    Success(positions + cash)
  }

  function ScoreAt(total: real, start: real): Score
    requires start > 0.0
  {
    Score(100.0 * Div(total, start), (Div(total, start) - 1.0) * 100.0)
  }

  function Value(b: Basket, v: View, includeFX: bool): Result<Score> {
    if b.startValue <= 0.0 then Failure(NoStartingValue)
    else
      var total :- BasketTotal(b, v, includeFX);
      Success(ScoreAt(total, b.startValue))
  }

  /** The loop over the shares: the first that cannot be priced fails the sum. */
  method SumPositions(ps: seq<Position>, v: View, includeFX: bool) returns (r: Result<real>)
    ensures r == PositionsTotal(ps, v, includeFX)
  {
    hide PositionValue;
    var total := 0.0;
    var i := 0;
    while i < |ps|
      invariant 0 <= i <= |ps|
      invariant PositionsTotal(ps[..i], v, includeFX) == Success(total)
    {
      assert ps[..i + 1][..i] == ps[..i];
      var value := PositionValue(ps[i], v, includeFX);
      if value.Failure? {
        PositionFailureStops(ps, v, includeFX, i);
        return value.PropagateFailure();
      }
      total := total + value.value;
      i := i + 1;
    }
    assert ps[..i] == ps;
    r := Success(total);
  }

  /** The loop over the cash. */
  method SumCash(cs: seq<Cash>, v: View, includeFX: bool) returns (r: Result<real>)
    ensures r == CashTotal(cs, v, includeFX)
  {
    hide CashValue;
    var total := 0.0;
    var i := 0;
    while i < |cs|
      invariant 0 <= i <= |cs|
      invariant CashTotal(cs[..i], v, includeFX) == Success(total)
    {
      assert cs[..i + 1][..i] == cs[..i];
      var value := CashValue(cs[i], v, includeFX);
      if value.Failure? {
        CashFailureStops(cs, v, includeFX, i);
        return value.PropagateFailure();
      }
      total := total + value.value;
      i := i + 1;
    }
    assert cs[..i] == cs;
    r := Success(total);
  }

  /** Shares, then cash: any component that cannot be priced fails the entry. */
  method ValueEntry(b: Basket, v: View, includeFX: bool) returns (r: Result<Score>)
    ensures r == Value(b, v, includeFX)
  {
    hide PositionsTotal, CashTotal, ScoreAt;
    if b.startValue <= 0.0 {
      return Failure(NoStartingValue);
    }
    var positions := SumPositions(b.positions, v, includeFX);
    if positions.Failure? {
      return positions.PropagateFailure();
    }
    var cash := SumCash(b.cash, v, includeFX);
    if cash.Failure? {
      return cash.PropagateFailure();
    }
    r := Success(ScoreAt(positions.value + cash.value, b.startValue));
  }

  lemma {:induction false} PositionFailureStops(ps: seq<Position>, v: View, includeFX: bool, i: nat)
    requires i < |ps|
    requires PositionsTotal(ps[..i], v, includeFX).Success? && PositionValue(ps[i], v, includeFX).Failure?
    ensures PositionsTotal(ps, v, includeFX) == PositionValue(ps[i], v, includeFX).PropagateFailure()
  {
    if i < |ps| - 1 {
      assert ps[..|ps| - 1][..i] == ps[..i];
      PositionFailureStops(ps[..|ps| - 1], v, includeFX, i);
    }
  }

  lemma {:induction false} CashFailureStops(cs: seq<Cash>, v: View, includeFX: bool, i: nat)
    requires i < |cs|
    requires CashTotal(cs[..i], v, includeFX).Success? && CashValue(cs[i], v, includeFX).Failure?
    ensures CashTotal(cs, v, includeFX) == CashValue(cs[i], v, includeFX).PropagateFailure()
  {
    if i < |cs| - 1 {
      assert cs[..|cs| - 1][..i] == cs[..i];
      CashFailureStops(cs[..|cs| - 1], v, includeFX, i);
    }
  }

  /** A total, last position first. */
  lemma TotalPeels(ps: seq<Position>, v: View, includeFX: bool)
    ensures ps == [] ==> PositionsTotal(ps, v, includeFX) == Success(0.0)
    ensures ps != [] ==> var total, value := PositionsTotal(ps[..|ps| - 1], v, includeFX), PositionValue(ps[|ps| - 1], v, includeFX);
      PositionsTotal(ps, v, includeFX) ==
        if total.Failure? then total else if value.Failure? then value else Success(total.value + value.value)
  {
    hide PositionValue;
  }

  // ---- steadiness ------------------------------------------------------------

  ghost predicate Grows(v: View, w: View) {
    && (forall k :: k in v.prices ==> k in w.prices && w.prices[k] == v.prices[k])
    && (forall c :: c in v.fx ==> c in w.fx && w.fx[c] == v.fx[c])
  }

  lemma PositionSteady(p: Position, v: View, w: View, includeFX: bool)
    requires Grows(v, w) && PositionValue(p, v, includeFX).Success?
    ensures PositionValue(p, w, includeFX) == PositionValue(p, v, includeFX)
  {
  }

  lemma CashComponentSteady(c: Cash, v: View, w: View, includeFX: bool)
    requires Grows(v, w) && CashValue(c, v, includeFX).Success?
    ensures CashValue(c, w, includeFX) == CashValue(c, v, includeFX)
  {
  }

  lemma {:induction false} PositionsSteady(ps: seq<Position>, v: View, w: View, includeFX: bool)
    requires Grows(v, w) && PositionsTotal(ps, v, includeFX).Success?
    ensures PositionsTotal(ps, w, includeFX) == PositionsTotal(ps, v, includeFX)
  {
    if ps != [] {
      PositionsSteady(ps[..|ps| - 1], v, w, includeFX);
      PositionSteady(ps[|ps| - 1], v, w, includeFX);
    }
  }

  lemma {:induction false} CashSteady(cs: seq<Cash>, v: View, w: View, includeFX: bool)
    requires Grows(v, w) && CashTotal(cs, v, includeFX).Success?
    ensures CashTotal(cs, w, includeFX) == CashTotal(cs, v, includeFX)
  {
    if cs != [] {
      CashSteady(cs[..|cs| - 1], v, w, includeFX);
      CashComponentSteady(cs[|cs| - 1], v, w, includeFX);
    }
  }

  /** A basket valued once keeps that score however many observations are added. */
  lemma ValuationSteady(b: Basket, v: View, w: View, includeFX: bool)
    requires Grows(v, w) && Value(b, v, includeFX).Success?
    ensures Value(b, w, includeFX) == Value(b, v, includeFX)
  {
    PositionsSteady(b.positions, v, w, includeFX);
    CashSteady(b.cash, v, w, includeFX);
  }

  /** The entries whose basket can be scored from a view. */
  function Valued(baskets: map<EntryId, Basket>, includeFX: bool, v: View): map<EntryId, Score> {
    map e | e in baskets && Value(baskets[e], v, includeFX).Success? :: Value(baskets[e], v, includeFX).value
  }
}
