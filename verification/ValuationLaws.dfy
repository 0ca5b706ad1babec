/** What a valuation needs and what it adds up to. */
module ValuationLaws {
  import opened Money
  import opened Outcomes
  import opened Valuation
  import opened Observations

  /** The quote can be turned into base currency. */
  predicate Convertible(v: View, currency: string) {
    currency == BASE || currency in v.fx
  }

  predicate PositionPriced(p: Position, v: View) {
    p.included ==>
      && KeyOf(p.instrument, p.symbol) in v.prices
      && Convertible(v, v.prices[KeyOf(p.instrument, p.symbol)].currency)
  }

  lemma {:induction false} PositionsPriceExactly(ps: seq<Position>, v: View)
    ensures PositionsTotal(ps, v, true).Success? <==> forall p :: p in ps ==> PositionPriced(p, v)
  {
    if ps != [] {
      var n := |ps| - 1;
      PositionsPriceExactly(ps[..n], v);
      assert ps == ps[..n] + [ps[n]];
      assert PositionValue(ps[n], v, true).Success? <==> PositionPriced(ps[n], v);
      hide PositionPriced, PositionValue;
    }
  }

  lemma {:induction false} CashConvertsExactly(cs: seq<Cash>, v: View)
    ensures CashTotal(cs, v, true).Success? <==> forall c :: c in cs && c.included ==> Convertible(v, c.currency)
  {
    if cs != [] {
      var n := |cs| - 1;
      CashConvertsExactly(cs[..n], v);
      assert cs == cs[..n] + [cs[n]];
      assert CashValue(cs[n], v, true).Success? <==> (cs[n].included ==> Convertible(v, cs[n].currency));
      hide Convertible, CashValue;
    }
  }

  /** What a capture asks for is what a valuation needs: with currency effects a basket is
      totalled exactly if it is scorable as a batch of one. */
  lemma TotalledExactly(b: Basket, v: View)
    ensures BasketTotal(b, v, true).Success? <==> Scorable(v, [b])
  {
    PositionsPriceExactly(b.positions, v);
    CashConvertsExactly(b.cash, v);
    NeedsOfOne(b);
    hide PositionsTotal, CashTotal, Symbols, Pairs;
  }

  lemma NeedsOfOne(b: Basket)
    ensures forall k :: k in Symbols([b]) <==> exists p :: p in b.positions && p.included && KeyOf(p.instrument, p.symbol) == k
    ensures forall c :: c in Pairs([b]) <==> exists m :: m in b.cash && m.included && m.currency == c && c != BASE
    ensures forall p :: p in b.positions && p.included ==> KeyOf(p.instrument, p.symbol) in Symbols([b])
    ensures forall m :: m in b.cash && m.included && m.currency != BASE ==> m.currency in Pairs([b])
  {
    assert [b][0] == b && forall x :: x in [b] <==> x == b;
  }

  /** With currency effects a share counts at quantity times price times rate. */
  lemma PositionWorth(p: Position, v: View, quote: Quote)
    requires p.included && KeyOf(p.instrument, p.symbol) in v.prices && v.prices[KeyOf(p.instrument, p.symbol)] == quote
    ensures quote.currency == "USD" ==> PositionValue(p, v, true) == Success(Mul(p.quantity, quote.price))
    ensures quote.currency != "USD" && quote.currency in v.fx ==>
      PositionValue(p, v, true) == Success(Mul(Mul(p.quantity, quote.price), v.fx[quote.currency]))
  {
  }

  /** And cash at amount times rate. */
  lemma CashWorth(c: Cash, v: View)
    requires c.included
    ensures c.currency == "USD" ==> CashValue(c, v, true) == Success(c.amount)
    ensures c.currency != "USD" && c.currency in v.fx ==> CashValue(c, v, true) == Success(Mul(c.amount, v.fx[c.currency]))
    ensures CashValue(c, v, false) == Success(c.valueBase)
  {
  }

  /** Totals add. */
  lemma {:induction false} PositionsAdd(ps: seq<Position>, qs: seq<Position>, v: View, includeFX: bool)
    requires PositionsTotal(ps, v, includeFX).Success? && PositionsTotal(qs, v, includeFX).Success?
    ensures PositionsTotal(ps + qs, v, includeFX) ==
      Success(PositionsTotal(ps, v, includeFX).value + PositionsTotal(qs, v, includeFX).value)
  {
    hide *;
    TotalPeels(qs, v, includeFX);
    TotalPeels(ps + qs, v, includeFX);
    if qs == [] {
      assert ps + qs == ps;
    } else {
      var n := |qs| - 1;
      assert (ps + qs)[..|ps + qs| - 1] == ps + qs[..n] && (ps + qs)[|ps + qs| - 1] == qs[n];
      PositionsAdd(ps, qs[..n], v, includeFX);
    }
  }
}
