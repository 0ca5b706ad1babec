/** Building a total-return series from raw closes and corporate actions. */
module BackAdjustment {
  import opened Money
  import opened Outcomes
  import opened Portfolio

  datatype Close = Close(date: int, price: real)

  /** A dividend or split on its ex-date; zero stands for none. */
  datatype CorporateAction = CorporateAction(date: int, dividend: real, ratio: real)

  ghost predicate Ordered(points: seq<Close>) {
    forall i, j :: 0 <= i < j < |points| ==> points[i].date <= points[j].date
  }

  // ---- sorting -------------------------------------------------------------------------

  function InsertClose(points: seq<Close>, p: Close): (r: seq<Close>)
    ensures multiset(r) == multiset(points) + multiset{p}
  {
    if points == [] || points[|points| - 1].date <= p.date then points + [p]
    else
      assert points == points[..|points| - 1] + [points[|points| - 1]];
      InsertClose(points[..|points| - 1], p) + [points[|points| - 1]]
  }

  function ByDate(points: seq<Close>): (r: seq<Close>)
    ensures multiset(r) == multiset(points)
  {
    if points == [] then []
    else
      assert points == points[..|points| - 1] + [points[|points| - 1]];
      InsertClose(ByDate(points[..|points| - 1]), points[|points| - 1])
  }

  lemma OrderedSnoc(front: seq<Close>, last: Close)
    requires Ordered(front) && forall p :: p in front ==> p.date <= last.date
    ensures Ordered(front + [last])
  {
    var all := front + [last];
    forall i, j | 0 <= i < j < |all| ensures all[i].date <= all[j].date {
      assert all[i] == front[i] && front[i] in front;
    }
  }

  lemma {:induction false} InsertCloseOrders(points: seq<Close>, p: Close)
    requires Ordered(points)
    ensures Ordered(InsertClose(points, p))
  {
    if points == [] || points[|points| - 1].date <= p.date {
      OrderedSnoc(points, p);
    } else {
      var front, last := points[..|points| - 1], points[|points| - 1];
      InsertCloseOrders(front, p);
      forall q | q in InsertClose(front, p) ensures q.date <= last.date {
        assert q in multiset(InsertClose(front, p));
        if q != p {
          var i :| 0 <= i < |front| && front[i] == q;
        }
      }
      OrderedSnoc(InsertClose(front, p), last);
    }
  }

  lemma {:induction false} ByDateOrders(points: seq<Close>)
    ensures Ordered(ByDate(points))
  {
    if points != [] {
      ByDateOrders(points[..|points| - 1]);
      InsertCloseOrders(ByDate(points[..|points| - 1]), points[|points| - 1]);
    }
  }

  function InsertAction(acts: seq<CorporateAction>, a: CorporateAction): (r: seq<CorporateAction>)
    ensures multiset(r) == multiset(acts) + multiset{a}
  {
    if acts == [] || acts[|acts| - 1].date >= a.date then acts + [a]
    else
      assert acts == acts[..|acts| - 1] + [acts[|acts| - 1]];
      InsertAction(acts[..|acts| - 1], a) + [acts[|acts| - 1]]
  }

  function NewestFirst(acts: seq<CorporateAction>): (r: seq<CorporateAction>)
    ensures multiset(r) == multiset(acts)
  {
    if acts == [] then []
    else
      assert acts == acts[..|acts| - 1] + [acts[|acts| - 1]];
      InsertAction(NewestFirst(acts[..|acts| - 1]), acts[|acts| - 1])
  }

  // ---- one action ----------------------------------------------------------------------

  /** The close on the latest date strictly before the reference; zero when there is none. */
  function PriorClose(points: seq<Close>, ref: int): real {
    if points == [] then 0.0
    else if points[|points| - 1].date < ref then points[|points| - 1].price
    else PriorClose(points[..|points| - 1], ref)
  }

  /** priorClose stops at the first date not before the reference. */
  method FindPriorClose(points: seq<Close>, ref: int) returns (last: real)
    requires Ordered(points)
    ensures last == PriorClose(points, ref)
  {
    last := 0.0;
    var i := 0;
    while i < |points|
      invariant 0 <= i <= |points|
      invariant last == PriorClose(points[..i], ref)
    {
      if points[i].date >= ref {
        NoneLater(points, ref, i);
        return;
      }
      assert points[..i + 1][..i] == points[..i];
      last := points[i].price;
      i := i + 1;
    }
    assert points[..i] == points;
  }

  lemma {:induction false} NoneLater(points: seq<Close>, ref: int, i: nat)
    requires Ordered(points) && i < |points| && points[i].date >= ref
    ensures PriorClose(points, ref) == PriorClose(points[..i], ref)
  {
    var front := points[..|points| - 1];
    if i < |points| - 1 {
      NoneLater(front, ref, i);
      assert front[..i] == points[..i];
      assert points[|points| - 1].date >= points[i].date;
    } else {
      assert front == points[..i];
    }
  }

  function SplitFactor(a: CorporateAction): (f: real)
    ensures f > 0.0
  {
    if a.ratio > 0.0 && a.ratio != 1.0 then
      Inverse(a.ratio);
      Div(1.0, a.ratio)
    else 1.0
  }

  lemma Inverse(x: real)
    requires x > 0.0
    ensures Div(1.0, x) > 0.0 && Mul(Div(1.0, x), x) == 1.0
  {
    var y := 1.0 / x;
    assert y * x == 1.0;
    MulSign(x, y);
  }

  function DividendFactor(points: seq<Close>, a: CorporateAction): real {
    var close := PriorClose(points, a.date);
    if a.dividend > 0.0 && close > 0.0 then 1.0 - Div(a.dividend, close) else 1.0
  }

  function ActionFactor(points: seq<Close>, a: CorporateAction): real {
    Mul(SplitFactor(a), DividendFactor(points, a))
  }

  /** A dividend of at least the close before it. */
  predicate Overpays(points: seq<Close>, a: CorporateAction) {
    PriorClose(points, a.date) > 0.0 && a.dividend >= PriorClose(points, a.date)
  }

  lemma FactorSign(points: seq<Close>, a: CorporateAction)
    ensures ActionFactor(points, a) <= 0.0 <==> Overpays(points, a)
  {
    var close := PriorClose(points, a.date);
    if close > 0.0 { ShareSign(a.dividend, close); }
    MulSign(SplitFactor(a), DividendFactor(points, a));
  }

  lemma ShareSign(dividend: real, close: real)
    requires close > 0.0
    ensures 1.0 - Div(dividend, close) <= 0.0 <==> dividend >= close
  {
    var share := dividend / close;
    assert share * close == dividend;
    assert (share - 1.0) * close == dividend - close;
    if share > 1.0 {
      assert (share - 1.0) * close > 0.0;
    } else if share < 1.0 {
      assert (1.0 - share) * close > 0.0;
    }
  }

  // ---- cumulative factors --------------------------------------------------------------

  /** The product over the actions strictly after the date. */
  function Factor(points: seq<Close>, acts: seq<CorporateAction>, date: int): real {
    if acts == [] then 1.0
    else
      var a := acts[|acts| - 1];
      var before := Factor(points, acts[..|acts| - 1], date);
      if date < a.date then Mul(before, ActionFactor(points, a)) else before
  }

  ghost predicate NoneOverpays(points: seq<Close>, acts: seq<CorporateAction>) {
    forall k :: 0 <= k < |acts| ==> !Overpays(points, acts[k])
  }

  /** A close times its cumulative factor, rounded. */
  function AdjustedClose(points: seq<Close>, acts: seq<CorporateAction>, quantum: real, p: Close): Close {
    Close(p.date, SnapIndex(Mul(p.price, Factor(points, acts, p.date)), quantum))
  }

  ghost predicate IsAdjusted(points: seq<Close>, acts: seq<CorporateAction>, quantum: real, out: seq<Close>) {
    && |out| == |points|
    && forall i :: 0 <= i < |points| ==> out[i] == AdjustedClose(points, acts, quantum, points[i])
  }

  /** The nested loops over one array of factors, newest action first. */
  method CumulativeFactors(points: seq<Close>, acts: seq<CorporateAction>, factor: array<real>) returns (ok: bool)
    requires Ordered(points) && factor.Length == |points|
    modifies factor
    ensures ok <==> NoneOverpays(points, acts)
    ensures ok ==> forall i :: 0 <= i < |points| ==> factor[i] == Factor(points, acts, points[i].date)
  {
    for i := 0 to factor.Length
      invariant forall k :: 0 <= k < i ==> factor[k] == 1.0
    {
      factor[i] := 1.0;
    }
    for k := 0 to |acts|
      invariant NoneOverpays(points, acts[..k])
      invariant forall i :: 0 <= i < |points| ==> factor[i] == Factor(points, acts[..k], points[i].date)
    {
      var a := acts[k];
      var f := FactorFor(points, a);
      FactorSign(points, a);
      assert acts[..k + 1] == acts[..k] + [a];
      if f <= 0.0 {
        return false;
      }
      ApplyBefore(points, a.date, f, factor);
      forall i | 0 <= i < |points| ensures factor[i] == Factor(points, acts[..k + 1], points[i].date) {
        FactorSnoc(points, acts[..k], a, points[i].date);
      }
    }
    assert acts[..|acts|] == acts;
    ok := true;
  }

  lemma FactorSnoc(points: seq<Close>, acts: seq<CorporateAction>, a: CorporateAction, date: int)
    ensures Factor(points, acts + [a], date) ==
      if date < a.date then Mul(Factor(points, acts, date), ActionFactor(points, a)) else Factor(points, acts, date)
  {
    assert (acts + [a])[..|acts|] == acts;
  }

  method FactorFor(points: seq<Close>, a: CorporateAction) returns (f: real)
    requires Ordered(points)
    ensures f == ActionFactor(points, a)
  {
    f := 1.0;
    if a.ratio > 0.0 && a.ratio != 1.0 {
      f := Mul(f, Div(1.0, a.ratio));
    }
    if a.dividend > 0.0 {
      var close := FindPriorClose(points, a.date);
      if close > 0.0 {
        f := Mul(f, 1.0 - Div(a.dividend, close));
      }
    }
  }

  /** Multiplies, in place, the factor of every point strictly before the date. */
  method ApplyBefore(points: seq<Close>, date: int, f: real, factor: array<real>)
    requires factor.Length == |points|
    modifies factor
    ensures forall i :: 0 <= i < |points| ==>
      factor[i] == if points[i].date < date then Mul(old(factor[i]), f) else old(factor[i])
  {
    for i := 0 to |points|
      invariant forall k :: 0 <= k < i ==> factor[k] == if points[k].date < date then Mul(old(factor[k]), f) else old(factor[k])
      invariant forall k :: i <= k < |points| ==> factor[k] == old(factor[k])
    {
      if points[i].date < date {
        factor[i] := Mul(factor[i], f);
      }
    }
  }

  /** BuildTotalReturnSeries. */
  method BuildTotalReturnSeries(raw: seq<Close>, actions: seq<CorporateAction>,
      quantum: real) returns (r: Result<seq<Close>>)
    ensures |raw| < 2 ==> r == Failure(IncompleteSeries)
    ensures |raw| >= 2 ==> (r.Success? <==> NoneOverpays(ByDate(raw), actions))
    ensures |raw| >= 2 && r.Failure? ==> r.error == InvalidSeries
    ensures r.Success? ==> IsAdjusted(ByDate(raw), actions, quantum, r.value)
  {
    if |raw| < 2 {
      return Failure(IncompleteSeries);
    }
    var points := ByDate(raw);
    ByDateOrders(raw);
    var acts := NewestFirst(actions);
    var factor := new real[|points|];
    var ok := CumulativeFactors(points, acts, factor);
    SameNoneOverpays(points, acts, actions);
    hide Factor, NoneOverpays, SnapIndex, ByDate, NewestFirst;
    if !ok {
      return Failure(InvalidSeries);
    }
    var out: seq<Close> := [];
    for i := 0 to |points|
      invariant |out| == i
      invariant forall k :: 0 <= k < |points| ==> factor[k] == Factor(points, acts, points[k].date)
      invariant forall k :: 0 <= k < i ==> out[k] == AdjustedClose(points, actions, quantum, points[k])
    {
      OrderDoesNotMatter(points, acts, actions, points[i].date);
      assert factor[i] == Factor(points, actions, points[i].date);
      out := out + [Close(points[i].date, SnapIndex(Mul(points[i].price, factor[i]), quantum))];
    }
    r := Success(out);
  }

  // ---- the order of the actions does not matter ----------------------------------------

  lemma {:induction false} RemoveOne(points: seq<Close>, acts: seq<CorporateAction>, j: nat, date: int)
    requires j < |acts|
    ensures Factor(points, acts, date) ==
      if date < acts[j].date then Mul(Factor(points, acts[..j] + acts[j + 1..], date), ActionFactor(points, acts[j]))
      else Factor(points, acts[..j] + acts[j + 1..], date)
  {
    var n := |acts| - 1;
    if j == n {
      assert acts[..j] + acts[j + 1..] == acts[..n];
    } else {
      var front, last := acts[..n], acts[n];
      var rest := front[..j] + front[j + 1..];
      RemoveOne(points, front, j, date);
      assert acts[..j] + acts[j + 1..] == rest + [last];
      FactorSnoc(points, rest, last, date);
      MulAssociates(Factor(points, rest, date), ActionFactor(points, acts[j]), ActionFactor(points, last));
    }
  }

  /** Only which actions there are decides a factor, not the order they are applied in. */
  lemma {:induction false} OrderDoesNotMatter(points: seq<Close>, a: seq<CorporateAction>, b: seq<CorporateAction>,
      date: int)
    requires multiset(a) == multiset(b)
    ensures Factor(points, a, date) == Factor(points, b, date)
  {
    if a == [] {
      assert |multiset(b)| == 0;
      assert b == [];
    } else {
      var front, x := a[..|a| - 1], a[|a| - 1];
      var j := SamePlace(a, b);
      OrderDoesNotMatter(points, front, b[..j] + b[j + 1..], date);
      RemoveOne(points, b, j, date);
    }
  }

  /** Where b holds the last action of a; without it the two still agree. */
  lemma SamePlace(a: seq<CorporateAction>, b: seq<CorporateAction>) returns (j: nat)
    requires multiset(a) == multiset(b) && a != []
    ensures j < |b| && b[j] == a[|a| - 1]
    ensures multiset(a[..|a| - 1]) == multiset(b[..j] + b[j + 1..])
  {
    var front, x := a[..|a| - 1], a[|a| - 1];
    assert x in multiset(b);
    j :| 0 <= j < |b| && b[j] == x;
    Without(a, |front|);
    Without(b, j);
    assert front + [] == front;
  }

  lemma Without(acts: seq<CorporateAction>, j: nat)
    requires j < |acts|
    ensures multiset(acts[..j] + acts[j + 1..]) == multiset(acts) - multiset{acts[j]}
  {
    assert acts == acts[..j] + [acts[j]] + acts[j + 1..];
  }

  lemma SameNoneOverpays(points: seq<Close>, a: seq<CorporateAction>, b: seq<CorporateAction>)
    requires multiset(a) == multiset(b)
    ensures NoneOverpays(points, a) <==> NoneOverpays(points, b)
  {
    forall k | 0 <= k < |a| && NoneOverpays(points, b) ensures !Overpays(points, a[k]) {
      assert a[k] in multiset(b);
      var j :| 0 <= j < |b| && b[j] == a[k];
    }
    forall k | 0 <= k < |b| && NoneOverpays(points, a) ensures !Overpays(points, b[k]) {
      assert b[k] in multiset(a);
      var j :| 0 <= j < |a| && a[j] == b[k];
    }
  }

  // ---- returns -------------------------------------------------------------------------

  /** The product over the actions after one date and up to another. */
  function Between(points: seq<Close>, acts: seq<CorporateAction>, from: int, to: int): real {
    if acts == [] then 1.0
    else
      var a := acts[|acts| - 1];
      var before := Between(points, acts[..|acts| - 1], from, to);
      if from < a.date <= to then Mul(before, ActionFactor(points, a)) else before
  }

  lemma {:induction false} FactorSplits(points: seq<Close>, acts: seq<CorporateAction>, from: int, to: int)
    requires from <= to
    ensures Factor(points, acts, from) == Mul(Factor(points, acts, to), Between(points, acts, from, to))
  {
    if acts != [] {
      var front, a := acts[..|acts| - 1], acts[|acts| - 1];
      FactorSplits(points, front, from, to);
      MulAssociates(Factor(points, front, to), Between(points, front, from, to), ActionFactor(points, a));
    }
  }

  lemma {:induction false} FactorsPositive(points: seq<Close>, acts: seq<CorporateAction>, from: int, to: int)
    requires NoneOverpays(points, acts)
    ensures Factor(points, acts, from) > 0.0 && Between(points, acts, from, to) > 0.0
  {
    if acts != [] {
      var front, a := acts[..|acts| - 1], acts[|acts| - 1];
      FactorsPositive(points, front, from, to);
      FactorSign(points, a);
      MulSign(Factor(points, front, from), ActionFactor(points, a));
      MulSign(Between(points, front, from, to), ActionFactor(points, a));
    }
  }

  /** Before rounding, the adjusted return between two dates is the raw return divided by
      the factors of the actions in between. */
  lemma AdjustedReturn(points: seq<Close>, acts: seq<CorporateAction>, out: seq<Close>, i: nat, j: nat)
    requires Ordered(points) && NoneOverpays(points, acts) && IsAdjusted(points, acts, 0.0, out)
    requires i <= j < |points| && points[i].price > 0.0
    ensures out[i].price > 0.0 && Between(points, acts, points[i].date, points[j].date) > 0.0
    ensures Div(out[j].price, out[i].price) ==
      Div(Div(points[j].price, points[i].price), Between(points, acts, points[i].date, points[j].date))
  {
    var from, to := points[i].date, points[j].date;
    assert from <= to;
    FactorSplits(points, acts, from, to);
    FactorsPositive(points, acts, from, to);
    FactorsPositive(points, acts, to, to);
    MulSign(points[i].price, Factor(points, acts, from));
    Quotient(points[j].price, points[i].price, Factor(points, acts, to), Between(points, acts, from, to));
    hide Factor, Between, NoneOverpays, Ordered;
  }

  lemma Quotient(x: real, y: real, f: real, g: real)
    requires y > 0.0 && f > 0.0 && g > 0.0 && Mul(y, Mul(f, g)) > 0.0
    ensures Div(Mul(x, f), Mul(y, Mul(f, g))) == Div(Div(x, y), g)
  {
    var r := x / y;
    var q := r / g;
    assert r * y == x && q * g == r;
    var d := y * (f * g);
    assert q * d == q * g * (y * f) == r * (y * f) == x * f;
    assert x * f / d == q;
  }

  /** Exactly one action falls in the gap. */
  ghost predicate OnlyAction(acts: seq<CorporateAction>, from: int, to: int, k: nat) {
    && k < |acts| && from < acts[k].date <= to
    && forall m :: 0 <= m < |acts| && m != k ==> !(from < acts[m].date <= to)
  }

  lemma {:induction false} NothingBetween(points: seq<Close>, acts: seq<CorporateAction>, from: int, to: int)
    requires forall m :: 0 <= m < |acts| ==> !(from < acts[m].date <= to)
    ensures Between(points, acts, from, to) == 1.0
  {
    if acts != [] { NothingBetween(points, acts[..|acts| - 1], from, to); }
  }

  lemma {:induction false} OneBetween(points: seq<Close>, acts: seq<CorporateAction>, from: int, to: int, k: nat)
    requires OnlyAction(acts, from, to, k)
    ensures Between(points, acts, from, to) == ActionFactor(points, acts[k])
  {
    var n := |acts| - 1;
    if k == n {
      NothingBetween(points, acts[..n], from, to);
    } else {
      OneBetween(points, acts[..n], from, to, k);
    }
  }

  /** A pure split, quoted at the split price, is no return at all. */
  lemma SplitIsNoReturn(points: seq<Close>, acts: seq<CorporateAction>, out: seq<Close>, i: nat, j: nat, k: nat)
    requires Ordered(points) && NoneOverpays(points, acts) && IsAdjusted(points, acts, 0.0, out)
    requires i <= j < |points| && points[i].price > 0.0 && OnlyAction(acts, points[i].date, points[j].date, k)
    requires acts[k].ratio > 0.0 && acts[k].dividend <= 0.0
    requires Mul(points[j].price, acts[k].ratio) == points[i].price
    ensures out[j].price == out[i].price
  {
    var from, to := points[i].date, points[j].date;
    var a := acts[k];
    OneBetween(points, acts, from, to, k);
    FactorSplits(points, acts, from, to);
    Inverse(a.ratio);
    assert Mul(SplitFactor(a), 1.0) == SplitFactor(a);
    assert Mul(a.ratio, SplitFactor(a)) == 1.0;
    SplitCancels(points[j].price, a.ratio, SplitFactor(a), Factor(points, acts, to));
    hide Factor, Between, ActionFactor, NoneOverpays, Ordered;
  }

  lemma SplitCancels(y: real, ratio: real, inverse: real, f: real)
    requires Mul(ratio, inverse) == 1.0
    ensures Mul(Mul(y, ratio), Mul(f, inverse)) == Mul(y, f)
  {
    assert y * ratio * (f * inverse) == y * f * (ratio * inverse);
  }

  /** Over a dividend, the return is measured from the close less the dividend. */
  lemma DividendReturn(points: seq<Close>, acts: seq<CorporateAction>, out: seq<Close>, i: nat, k: nat)
    requires Ordered(points) && NoneOverpays(points, acts) && IsAdjusted(points, acts, 0.0, out)
    requires i + 1 < |points| && points[i].price > 0.0
    requires OnlyAction(acts, points[i].date, points[i + 1].date, k)
    requires acts[k].dividend > 0.0 && (acts[k].ratio <= 0.0 || acts[k].ratio == 1.0)
    ensures points[i].price - acts[k].dividend > 0.0 && out[i].price > 0.0
    ensures Div(out[i + 1].price, out[i].price) == Div(points[i + 1].price, points[i].price - acts[k].dividend)
  {
    var a := acts[k];
    PriorIsLastBefore(points, a.date, i);
    OneBetween(points, acts, points[i].date, points[i + 1].date, k);
    AdjustedReturn(points, acts, out, i, i + 1);
    assert !Overpays(points, a);
    assert ActionFactor(points, a) == 1.0 - Div(a.dividend, points[i].price);
    DividendQuotient(points[i + 1].price, points[i].price, a.dividend);
    hide Factor, Between, NoneOverpays, Ordered;
  }

  lemma {:induction false} PriorIsLastBefore(points: seq<Close>, ref: int, i: nat)
    requires Ordered(points) && i + 1 < |points| && points[i].date < ref <= points[i + 1].date
    ensures PriorClose(points, ref) == points[i].price
  {
    NoneLater(points, ref, i + 1);
    assert points[..i + 1][i] == points[i];
  }

  lemma DividendQuotient(x: real, y: real, d: real)
    requires y > 0.0 && d < y && 1.0 - Div(d, y) > 0.0
    ensures Div(Div(x, y), 1.0 - Div(d, y)) == Div(x, y - d)
  {
    var s := d / y;
    assert s * y == d;
    var r := x / y;
    assert r * y == x;
    var q := r / (1.0 - s);
    assert q * (1.0 - s) == r;
    assert q * (y - d) == q * ((1.0 - s) * y) == r * y == x;
  }
}
