/** Carrying a frozen basket through splits and symbol changes. */
module BasketAdjustments {
  import opened Money
  import opened Outcomes
  import opened Valuation

  /** An applied corporate action. Ratio parts and the target may be missing from its
      payload. */
  datatype Action = Action(at: int, id: int, instrument: string, symbol: string, kind: Kind)

  datatype Kind =
    | Split(numerator: Option<real>, denominator: Option<real>)
    | SymbolChange(target: Option<string>)

  /** A position as the walk over the actions carries it. */
  datatype Holding = Holding(symbol: string, quantity: real)

  predicate Matches(a: Action, instrument: string, symbol: string) {
    if instrument != "" then a.instrument == instrument else a.symbol == symbol
  }

  function ApplyAction(a: Action, instrument: string, h: Holding): Result<Holding> {
    if !Matches(a, instrument, h.symbol) then Success(h)
    else
      match a.kind
      case Split(n, d) =>
        if n.None? || d.None? || d.value == 0.0 then Failure(InvalidCorporateAction)
        else Success(h.(quantity := Mul(h.quantity, Div(n.value, d.value))))
      case SymbolChange(target) =>
        if target.None? || target.value == "" then Failure(InvalidCorporateAction)
        else Success(h.(symbol := target.value))
  }

  /** The actions effective after `from` and up to `through`, in history order. */
  function Window(history: seq<Action>, from: int, through: int): seq<Action> {
    if history == [] then []
    else
      var rest := Window(history[..|history| - 1], from, through);
      var last := history[|history| - 1];
      if from < last.at <= through then rest + [last] else rest
  }

  function Walk(actions: seq<Action>, instrument: string, h: Holding): Result<Holding> {
    if actions == [] then Success(h)
    else
      var before :- Walk(actions[..|actions| - 1], instrument, h);
      ApplyAction(actions[|actions| - 1], instrument, before)
  }

  function Adjust(history: seq<Action>, instrument: string, h: Holding, from: int, through: int): Result<Holding> {
    Walk(Window(history, from, through), instrument, h)
  }

  /** AdjustPosition: the query's rows in effective order, folded into the position. */
  method AdjustPosition(history: seq<Action>, instrument: string, symbol: string, quantity: real, from: int,
      through: int)
      returns (r: Result<Holding>)
    ensures r == Adjust(history, instrument, Holding(symbol, quantity), from, through)
  {
    var rows := Window(history, from, through);
    var currentSymbol, currentQuantity := symbol, quantity;
    var i := 0;
    while i < |rows|
      invariant 0 <= i <= |rows|
      invariant Walk(rows[..i], instrument, Holding(symbol, quantity)) == Success(Holding(currentSymbol, currentQuantity))
    {
      var a := rows[i];
      assert rows[..i + 1][..i] == rows[..i];
      ghost var next := ApplyAction(a, instrument, Holding(currentSymbol, currentQuantity));
      if Matches(a, instrument, currentSymbol) {
        match a.kind
        case Split(n, d) =>
          if n.None? || d.None? || d.value == 0.0 {
            WalkStops(rows, instrument, Holding(symbol, quantity), i);
            return Failure(InvalidCorporateAction);
          }
          currentQuantity := Mul(currentQuantity, Div(n.value, d.value));
        case SymbolChange(target) =>
          if target.None? || target.value == "" {
            WalkStops(rows, instrument, Holding(symbol, quantity), i);
            return Failure(InvalidCorporateAction);
          }
          currentSymbol := target.value;
      }
      assert next == Success(Holding(currentSymbol, currentQuantity));
      i := i + 1;
    }
    assert rows[..i] == rows;
    r := Success(Holding(currentSymbol, currentQuantity));
  }

  lemma {:induction false} WalkStops(actions: seq<Action>, instrument: string, h: Holding, i: nat)
    requires i < |actions| && Walk(actions[..i], instrument, h).Success?
    requires ApplyAction(actions[i], instrument, Walk(actions[..i], instrument, h).value).Failure?
    ensures Walk(actions, instrument, h) == Failure(InvalidCorporateAction)
  {
    if i < |actions| - 1 {
      assert actions[..|actions| - 1][..i] == actions[..i];
      WalkStops(actions[..|actions| - 1], instrument, h, i);
    } else {
      assert actions[..i] == actions[..|actions| - 1];
    }
  }

  // ---- two intervals are as good as one --------------------------------------------

  ghost predicate InOrder(history: seq<Action>) {
    forall i, j :: 0 <= i < j < |history| ==> history[i].at <= history[j].at
  }

  lemma {:induction false} WindowSplits(history: seq<Action>, a: int, b: int, c: int)
    requires InOrder(history) && a <= b <= c
    ensures Window(history, a, c) == Window(history, a, b) + Window(history, b, c)
  {
    if history != [] {
      var init, last := history[..|history| - 1], history[|history| - 1];
      WindowSplits(init, a, b, c);
      if a < last.at <= b {
        WindowEmpty(init, b, c);
        assert Window(history, b, c) == [];
      }
    }
  }

  lemma {:induction false} WindowEmpty(history: seq<Action>, from: int, through: int)
    requires forall i :: 0 <= i < |history| ==> history[i].at <= from
    ensures Window(history, from, through) == []
  {
    if history != [] { WindowEmpty(history[..|history| - 1], from, through); }
  }

  lemma {:induction false} WalkConcat(xs: seq<Action>, ys: seq<Action>, instrument: string, h: Holding)
    ensures Walk(xs + ys, instrument, h) ==
      match Walk(xs, instrument, h)
      case Failure(e) => Failure(e)
      case Success(mid) => Walk(ys, instrument, mid)
  {
    if ys == [] {
      assert xs + ys == xs;
    } else {
      assert (xs + ys)[..|xs + ys| - 1] == xs + ys[..|ys| - 1];
      WalkConcat(xs, ys[..|ys| - 1], instrument, h);
    }
  }

  /** Adjusting over (a, b] and then over (b, c] is adjusting over (a, c], through any
      chain of splits and renames, errors included. */
  lemma AdjustmentsCompose(history: seq<Action>, instrument: string, h: Holding, a: int, b: int, c: int)
    requires InOrder(history) && a <= b <= c
    ensures Adjust(history, instrument, h, a, c) ==
      match Adjust(history, instrument, h, a, b)
      case Failure(e) => Failure(e)
      case Success(mid) => Adjust(history, instrument, mid, b, c)
  {
    WindowSplits(history, a, b, c);
    WalkConcat(Window(history, a, b), Window(history, b, c), instrument, h);
  }

  // ---- what a walk does to the quantity --------------------------------------------

  /** The product of the split ratios a walk from this symbol meets. */
  function RatioOf(actions: seq<Action>, instrument: string, symbol: string): real {
    if actions == [] then 1.0
    else
      var init, last := actions[..|actions| - 1], actions[|actions| - 1];
      var ratio := RatioOf(init, instrument, symbol);
      match Walk(init, instrument, Holding(symbol, 1.0))
      case Failure(_) => ratio
      case Success(h) =>
        if Matches(last, instrument, h.symbol) && last.kind.Split? && last.kind.numerator.Some? &&
           last.kind.denominator.Some? && last.kind.denominator.value != 0.0
        then Mul(ratio, Div(last.kind.numerator.value, last.kind.denominator.value))
        else ratio
  }

  /** A walk scales every quantity by the same ratio and ends at the same symbol. */
  lemma {:induction false} WalkScales(actions: seq<Action>, instrument: string, symbol: string, quantity: real)
    ensures var r := Walk(actions, instrument, Holding(symbol, quantity));
      var one := Walk(actions, instrument, Holding(symbol, 1.0));
      match one
      case Failure(e) => r == Failure(e)
      case Success(h) => r == Success(Holding(h.symbol, Mul(quantity, RatioOf(actions, instrument, symbol))))
  {
    if actions != [] {
      var init, last := actions[..|actions| - 1], actions[|actions| - 1];
      WalkScales(init, instrument, symbol, quantity);
      if last.kind.Split? && last.kind.numerator.Some? && last.kind.denominator.Some? && last.kind.denominator.value != 0.0 {
        MulAssociates(quantity, RatioOf(init, instrument, symbol), Div(last.kind.numerator.value, last.kind.denominator.value));
      }
    }
  }

  // ---- a whole basket --------------------------------------------------------------

  function AdjustOne(p: Position, history: seq<Action>, from: int, through: int): Result<Position> {
    if !p.included then Success(p)
    else
      var h :- Adjust(history, p.instrument, Holding(p.symbol, p.quantity), from, through);
      Success(p.(original := p.quantity, symbol := h.symbol, quantity := h.quantity))
  }

  function AdjustAll(ps: seq<Position>, history: seq<Action>, from: int, through: int): Result<seq<Position>> {
    if ps == [] then Success([])
    else
      var init :- AdjustAll(ps[..|ps| - 1], history, from, through);
      var last :- AdjustOne(ps[|ps| - 1], history, from, through);
      Success(init + [last])
  }

  function AdjustBasket(b: Basket, history: seq<Action>, from: int, through: int): Result<Basket> {
    var positions :- AdjustAll(b.positions, history, from, through);
    Success(b.(positions := positions))
  }

  /** adjustedEntryBasket: every scored position in turn, failing with the first that
      cannot be adjusted; the quantity before adjustment is remembered. */
  method AdjustedEntryBasket(b: Basket, history: seq<Action>, from: int, through: int) returns (r: Result<Basket>)
    ensures r == AdjustBasket(b, history, from, through)
  {
    var out: seq<Position> := [];
    var i := 0;
    while i < |b.positions|
      invariant 0 <= i <= |b.positions|
      invariant AdjustAll(b.positions[..i], history, from, through) == Success(out)
    {
      var snap := b.positions[i];
      assert b.positions[..i + 1][..i] == b.positions[..i];
      if snap.included {
        var h := AdjustPosition(history, snap.instrument, snap.symbol, snap.quantity, from, through);
        if h.Failure? {
          AdjustStops(b.positions, history, from, through, i);
          return h.PropagateFailure();
        }
        snap := snap.(original := snap.quantity, symbol := h.value.symbol, quantity := h.value.quantity);
      }
      out := out + [snap];
      i := i + 1;
    }
    assert b.positions[..i] == b.positions;
    r := Success(b.(positions := out));
  }

  lemma {:induction false} AdjustStops(ps: seq<Position>, history: seq<Action>, from: int, through: int, i: nat)
    requires i < |ps| && AdjustAll(ps[..i], history, from, through).Success?
    requires AdjustOne(ps[i], history, from, through).Failure?
    ensures AdjustAll(ps, history, from, through) == AdjustOne(ps[i], history, from, through).PropagateFailure()
  {
    if i < |ps| - 1 {
      assert ps[..|ps| - 1][..i] == ps[..i];
      AdjustStops(ps[..|ps| - 1], history, from, through, i);
    } else {
      assert ps[..i] == ps[..|ps| - 1];
    }
  }

  // ---- splits are neutral ------------------------------------------------------------

  function PositionRatio(p: Position, history: seq<Action>, from: int, through: int): real {
    RatioOf(Window(history, from, through), p.instrument, p.symbol)
  }

  /** The later quotes restate the earlier ones: an instrument's price is divided by the
      ratio its quantity was multiplied by, in the same currency. */
  ghost predicate Restates(w: View, v: View, p: Position, q: Position, ratio: real) {
    && ratio != 0.0
    && KeyOf(p.instrument, p.symbol) in v.prices && KeyOf(q.instrument, q.symbol) in w.prices
    && w.prices[KeyOf(q.instrument, q.symbol)] ==
       Quote(Div(v.prices[KeyOf(p.instrument, p.symbol)].price, ratio), v.prices[KeyOf(p.instrument, p.symbol)].currency)
  }

  ghost predicate AllRestated(w: View, v: View, ps: seq<Position>, qs: seq<Position>, history: seq<Action>,
      from: int, through: int) {
    |ps| == |qs| && forall i :: 0 <= i < |ps| && ps[i].included ==>
      Restates(w, v, ps[i], qs[i], PositionRatio(ps[i], history, from, through))
  }

  /** Without FX a position is valued against its quantity before adjustment, so none may
      be left over from an earlier one; a baseline leaves none. */
  ghost predicate Rebased(ps: seq<Position>, includeFX: bool) {
    includeFX || forall i :: 0 <= i < |ps| && ps[i].included ==> ps[i].original == 0.0
  }

  lemma RestatedPosition(p: Position, history: seq<Action>, from: int, through: int, v: View, w: View, includeFX: bool)
    requires AdjustOne(p, history, from, through).Success? && v.fx == w.fx
    requires p.included ==> Restates(w, v, p, AdjustOne(p, history, from, through).value, PositionRatio(p, history, from, through))
    requires includeFX || !p.included || p.original == 0.0
    ensures PositionValue(AdjustOne(p, history, from, through).value, w, includeFX) == PositionValue(p, v, includeFX)
  {
    if p.included {
      var q := AdjustOne(p, history, from, through).value;
      var ratio := PositionRatio(p, history, from, through);
      WalkScales(Window(history, from, through), p.instrument, p.symbol, p.quantity);
      SplitCancels(p.quantity, v.prices[KeyOf(p.instrument, p.symbol)].price, ratio);
      assert q.quantity == Mul(p.quantity, ratio);
      SameStart(p, q, ratio);
      hide Window, Walk, RatioOf, Mul, Div, StartingLocal;
    }
  }

  lemma SameStart(p: Position, q: Position, ratio: real)
    requires q.quantity == Mul(p.quantity, ratio) && q.original == p.quantity && q.startPrice == p.startPrice
    ensures p.original == 0.0 ==> StartingLocal(q) == StartingLocal(p)
  {
  }

  lemma SplitCancels(quantity: real, price: real, ratio: real)
    requires ratio != 0.0
    ensures Mul(Mul(quantity, ratio), Div(price, ratio)) == Mul(quantity, price)
  {
    assert Mul(quantity, ratio) * (price / ratio) == quantity * (ratio * (price / ratio));
    assert ratio * (price / ratio) == price;
  }

  /** The positions adjusted one for one. */
  ghost predicate AdjustedTo(ps: seq<Position>, qs: seq<Position>, history: seq<Action>, from: int, through: int) {
    |qs| == |ps| && forall i :: 0 <= i < |ps| ==> AdjustOne(ps[i], history, from, through) == Success(qs[i])
  }

  lemma {:induction false} AdjustAllMeans(ps: seq<Position>, history: seq<Action>, from: int, through: int)
    requires AdjustAll(ps, history, from, through).Success?
    ensures AdjustedTo(ps, AdjustAll(ps, history, from, through).value, history, from, through)
  {
    if ps != [] {
      AdjustAllMeans(ps[..|ps| - 1], history, from, through);
      hide AdjustOne;
    }
  }

  lemma {:induction false} RestatedPositions(ps: seq<Position>, qs: seq<Position>, history: seq<Action>, from: int,
      through: int, v: View, w: View, includeFX: bool)
    requires AdjustedTo(ps, qs, history, from, through) && v.fx == w.fx && Rebased(ps, includeFX)
    requires AllRestated(w, v, ps, qs, history, from, through)
    ensures PositionsTotal(qs, w, includeFX) == PositionsTotal(ps, v, includeFX)
  {
    hide *;
    TotalPeels(ps, v, includeFX);
    TotalPeels(qs, w, includeFX);
    SameLength(ps, qs, history, from, through);
    if ps != [] {
      var n := |ps| - 1;
      RestatedParts(ps, qs, history, from, through, v, w, includeFX);
      RestatedPositions(ps[..n], qs[..n], history, from, through, v, w, includeFX);
      RestatedPosition(ps[n], history, from, through, v, w, includeFX);
    }
  }

  lemma SameLength(ps: seq<Position>, qs: seq<Position>, history: seq<Action>, from: int, through: int)
    requires AdjustedTo(ps, qs, history, from, through)
    ensures |ps| == |qs|
  {
    hide AdjustOne;
  }

  lemma RestatedParts(ps: seq<Position>, qs: seq<Position>, history: seq<Action>, from: int, through: int,
      v: View, w: View, includeFX: bool)
    requires ps != [] && AdjustedTo(ps, qs, history, from, through) && Rebased(ps, includeFX)
    requires AllRestated(w, v, ps, qs, history, from, through)
    ensures var n := |ps| - 1;
      && |qs| == |ps| && AdjustedTo(ps[..n], qs[..n], history, from, through)
      && AllRestated(w, v, ps[..n], qs[..n], history, from, through) && Rebased(ps[..n], includeFX)
      && AdjustOne(ps[n], history, from, through) == Success(qs[n])
      && (ps[n].included ==> Restates(w, v, ps[n], qs[n], PositionRatio(ps[n], history, from, through)))
      && (includeFX || !ps[n].included || ps[n].original == 0.0)
  {
    hide Restates, PositionRatio, AdjustOne;
  }

  lemma {:induction false} CashIgnoresPrices(cs: seq<Cash>, v: View, w: View, includeFX: bool)
    requires v.fx == w.fx
    ensures CashTotal(cs, w, includeFX) == CashTotal(cs, v, includeFX)
  {
    if cs != [] { CashIgnoresPrices(cs[..|cs| - 1], v, w, includeFX); }
  }

  /** Normalizing a basket and restating the quotes for the same splits and renames keeps
      what it adds up to. */
  lemma SplitsKeepTotal(b: Basket, history: seq<Action>, from: int, through: int, v: View, w: View, includeFX: bool)
    requires AdjustBasket(b, history, from, through).Success? && v.fx == w.fx && Rebased(b.positions, includeFX)
    requires AllRestated(w, v, b.positions, AdjustBasket(b, history, from, through).value.positions, history, from, through)
    ensures BasketTotal(AdjustBasket(b, history, from, through).value, w, includeFX) == BasketTotal(b, v, includeFX)
  {
    hide AdjustAll, PositionsTotal, CashTotal, AllRestated, Rebased, AdjustedTo;
    AdjustAllMeans(b.positions, history, from, through);
    RestatedPositions(b.positions, AdjustAll(b.positions, history, from, through).value, history, from, through, v, w, includeFX);
    CashIgnoresPrices(b.cash, v, w, includeFX);
  }

  /** So its score stays, with currency effects in it or without. */
  lemma SplitsKeepScore(b: Basket, history: seq<Action>, from: int, through: int, v: View, w: View, includeFX: bool)
    requires AdjustBasket(b, history, from, through).Success? && v.fx == w.fx && Rebased(b.positions, includeFX)
    requires AllRestated(w, v, b.positions, AdjustBasket(b, history, from, through).value.positions, history, from, through)
    ensures Value(AdjustBasket(b, history, from, through).value, w, includeFX) == Value(b, v, includeFX)
  {
    SplitsKeepTotal(b, history, from, through, v, w, includeFX);
    hide AdjustAll, BasketTotal, AllRestated, Rebased;
  }

  // ---- which actions count -----------------------------------------------------------------

  /** The actions after the one instant and up to the other, no more and no fewer. */
  lemma {:induction false} WindowMembers(history: seq<Action>, from: int, through: int, a: Action)
    ensures a in Window(history, from, through) <==> a in history && from < a.at && a.at <= through
  {
    if history != [] {
      var front := history[..|history| - 1];
      WindowMembers(front, from, through, a);
      assert history == front + [history[|history| - 1]];
    }
  }

  /** A position with an identity answers to that alone, whatever its ticker. */
  lemma {:induction false} IdentityIgnoresTickers(actions: seq<Action>, instrument: string, h: Holding)
    requires instrument != "" && forall i :: 0 <= i < |actions| ==> actions[i].instrument != instrument
    ensures Walk(actions, instrument, h) == Success(h)
  {
    if actions != [] { IdentityIgnoresTickers(actions[..|actions| - 1], instrument, h); }
  }

  /** One without answers to its ticker of the moment: after a rename a split under the new
      ticker applies, and one under the ticker does not. */
  lemma SplitFollowsRename(at: int, ticker: string, renamed: string, n: real, d: real, quantity: real)
    requires d != 0.0 && ticker != renamed && renamed != ""
    ensures var rename := Action(at, 1, "", ticker, SymbolChange(Some(renamed)));
      && Walk([rename, Action(at, 2, "", renamed, Split(Some(n), Some(d)))], "", Holding(ticker, quantity)) ==
         Success(Holding(renamed, Mul(quantity, Div(n, d))))
      && Walk([rename, Action(at, 2, "", ticker, Split(Some(n), Some(d)))], "", Holding(ticker, quantity)) ==
         Success(Holding(renamed, quantity))
  {
    var rename := Action(at, 1, "", ticker, SymbolChange(Some(renamed)));
    TwoActions(rename, Action(at, 2, "", renamed, Split(Some(n), Some(d))), Holding(ticker, quantity), Holding(renamed, quantity));
    TwoActions(rename, Action(at, 2, "", ticker, Split(Some(n), Some(d))), Holding(ticker, quantity), Holding(renamed, quantity));
  }

  lemma TwoActions(a: Action, b: Action, h: Holding, mid: Holding)
    requires ApplyAction(a, "", h) == Success(mid)
    ensures Walk([a, b], "", h) == ApplyAction(b, "", mid)
  {
    hide ApplyAction;
    assert [a, b][..1] == [a] && [a][..0] == [];
    assert Walk([], "", h) == Success(h);
    assert Walk([a], "", h) == Success(mid);
  }
}
