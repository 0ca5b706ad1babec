/** What flattening weighs: the products of the weights along every path. */
module FlattenedWeights {
  import opened Money
  import opened Outcomes
  import opened Portfolio
  import opened Recipes
  import opened Merging
  import opened Flattening
  import opened IndexFormula
  import opened Sets

  // ---- trails --------------------------------------------------------------------------

  /** One component taken on the way down, with its place in the recipe: a component listed
      twice is two turns. */
  datatype Turn = Turn(at: nat, leg: Leg)

  /** A chain of components from a recipe down to a symbol. */
  ghost predicate IsTrail(store: Store, asOf: int, legs: seq<Leg>, t: seq<Turn>)
    decreases |t|, 1
  {
    t != [] && t[0].at < |legs| && legs[t[0].at] == t[0].leg && Continues(store, asOf, t)
  }

  ghost predicate Continues(store: Store, asOf: int, t: seq<Turn>)
    requires t != []
    decreases |t|, 0
  {
    var leg := t[0].leg;
    if leg.symbol != "" then |t| == 1
    else |t| > 1 && leg.recipe != "" && Selected(store, leg.recipe, asOf).Success? &&
         IsTrail(store, asOf, Selected(store, leg.recipe, asOf).value.legs, t[1..])
  }

  function Prefixed(turn: Turn, ts: seq<seq<Turn>>): seq<seq<Turn>> {
    if ts == [] then [] else Prefixed(turn, ts[..|ts| - 1]) + [[turn] + ts[|ts| - 1]]
  }

  /** All trails that follow at most `depth` references, one entry for each way down. */
  function Trails(store: Store, asOf: int, legs: seq<Leg>, depth: nat): seq<seq<Turn>>
    decreases depth, |legs| + 1
  {
    if legs == [] then []
    else
      var n := |legs| - 1;
      Trails(store, asOf, legs[..n], depth) + TrailsOf(store, asOf, Turn(n, legs[n]), depth)
  }

  function TrailsOf(store: Store, asOf: int, turn: Turn, depth: nat): seq<seq<Turn>>
    decreases depth, 0
  {
    var leg := turn.leg;
    if leg.symbol != "" then [[turn]]
    else if depth == 0 || leg.recipe == "" || Selected(store, leg.recipe, asOf).Failure? then []
    else Prefixed(turn, Trails(store, asOf, Selected(store, leg.recipe, asOf).value.legs, depth - 1))
  }

  function Product(t: seq<Turn>): real {
    if t == [] then 1.0 else Mul(t[0].leg.weight, Product(t[1..]))
  }

  /** The products of the trails that end at the symbol, added up. */
  function SumTo(ts: seq<seq<Turn>>, symbol: string): real {
    if ts == [] then 0.0
    else
      var t := ts[|ts| - 1];
      SumTo(ts[..|ts| - 1], symbol) + if t != [] && t[|t| - 1].leg.symbol == symbol then Product(t) else 0.0
  }

  lemma {:induction false} SumToAppends(a: seq<seq<Turn>>, b: seq<seq<Turn>>, symbol: string)
    ensures SumTo(a + b, symbol) == SumTo(a, symbol) + SumTo(b, symbol)
  {
    if b == [] {
      assert a + b == a;
    } else {
      SumToAppends(a, b[..|b| - 1], symbol);
      assert (a + b)[..|a + b| - 1] == a + b[..|b| - 1];
    }
  }

  lemma {:induction false} SumToPrefixed(turn: Turn, ts: seq<seq<Turn>>, symbol: string)
    requires symbol != "" && turn.leg.symbol == ""
    ensures SumTo(Prefixed(turn, ts), symbol) == Mul(turn.leg.weight, SumTo(ts, symbol))
  {
    if ts != [] {
      var front, t := ts[..|ts| - 1], ts[|ts| - 1];
      SumToPrefixed(turn, front, symbol);
      var all := Prefixed(turn, ts);
      assert all[..|all| - 1] == Prefixed(turn, front);
      assert ([turn] + t)[1..] == t;
      var own := if t != [] && t[|t| - 1].leg.symbol == symbol then Product(t) else 0.0;
      MulDistributes(turn.leg.weight, SumTo(front, symbol), own);
    }
  }

  // ---- weights -------------------------------------------------------------------------

  /** How many more references a successful expansion can follow. */
  ghost function Left(store: Store, visited: set<string>): nat {
    |store.Keys - visited|
  }

  lemma EnteringUsesRoom(store: Store, recipe: string, visited: set<string>)
    requires recipe in store && recipe !in visited
    ensures Left(store, visited + {recipe}) == Left(store, visited) - 1
    ensures store.Keys - (visited + {recipe}) < store.Keys - visited
  {
    assert store.Keys - (visited + {recipe}) == store.Keys - visited - {recipe};
  }

  /** A reference that expands does so to its recipe's merged expansion, one step further. */
  lemma Descend(store: Store, asOf: int, leg: Leg, weight: real, visited: set<string>)
    requires Keyed(store) && leg.symbol == "" && ExpandLeg(store, asOf, leg, weight, visited).Success?
    ensures leg.recipe != "" && leg.recipe in store && leg.recipe !in visited
    ensures Selected(store, leg.recipe, asOf).Success?
    ensures var below := ExpandLegs(store, asOf, Selected(store, leg.recipe, asOf).value.legs,
                                    Mul(weight, leg.weight), visited + {leg.recipe});
      below.Success? && ExpandLeg(store, asOf, leg, weight, visited) == Success(Merge(below.value))
  {
    SelectedIsKeyed(store, leg.recipe, asOf);
    hide Mul, Merge, ExpandLegs;
    var child := Selected(store, leg.recipe, asOf).value;
    assert Expand(store, asOf, child, Mul(weight, leg.weight), visited).Success?;
  }

  lemma {:induction false} LegsWeigh(store: Store, asOf: int, legs: seq<Leg>, weight: real, visited: set<string>,
      depth: nat, s: string)
    requires Keyed(store) && s != "" && Left(store, visited) <= depth
    requires ExpandLegs(store, asOf, legs, weight, visited).Success?
    ensures WeightOf(ExpandLegs(store, asOf, legs, weight, visited).value, s) ==
            Mul(weight, SumTo(Trails(store, asOf, legs, depth), s))
    decreases store.Keys - visited, |legs| + 2
  {
    hide *;
    if legs == [] {
      NothingWeighs(store, asOf, weight, visited, depth, s);
    } else {
      var n := |legs| - 1;
      LegsSplit(store, asOf, legs, weight, visited, depth);
      var before := ExpandLegs(store, asOf, legs[..n], weight, visited).value;
      var last := ExpandLeg(store, asOf, legs[n], weight, visited).value;
      LegsWeigh(store, asOf, legs[..n], weight, visited, depth, s);
      LegWeighs(store, asOf, Turn(n, legs[n]), weight, visited, depth, s);
      WeightOfAppends(before, last, s);
      var a, b := Trails(store, asOf, legs[..n], depth), TrailsOf(store, asOf, Turn(n, legs[n]), depth);
      SumToAppends(a, b, s);
      MulDistributes(weight, SumTo(a, s), SumTo(b, s));
    }
  }

  lemma NothingWeighs(store: Store, asOf: int, weight: real, visited: set<string>, depth: nat, s: string)
    requires Keyed(store)
    ensures ExpandLegs(store, asOf, [], weight, visited) == Success([])
    ensures WeightOf([], s) == Mul(weight, SumTo(Trails(store, asOf, [], depth), s))
  {
  }

  lemma LegsSplit(store: Store, asOf: int, legs: seq<Leg>, weight: real, visited: set<string>, depth: nat)
    requires Keyed(store) && legs != [] && ExpandLegs(store, asOf, legs, weight, visited).Success?
    ensures var before, last :=
        ExpandLegs(store, asOf, legs[..|legs| - 1], weight, visited), ExpandLeg(store, asOf, legs[|legs| - 1], weight, visited);
      && before.Success? && last.Success?
      && ExpandLegs(store, asOf, legs, weight, visited).value == before.value + last.value
    ensures Trails(store, asOf, legs, depth) ==
      Trails(store, asOf, legs[..|legs| - 1], depth) + TrailsOf(store, asOf, Turn(|legs| - 1, legs[|legs| - 1]), depth)
  {
    hide ExpandLeg, TrailsOf;
  }

  lemma {:induction false} LegWeighs(store: Store, asOf: int, turn: Turn, weight: real, visited: set<string>,
      depth: nat, s: string)
    requires Keyed(store) && s != "" && Left(store, visited) <= depth
    requires ExpandLeg(store, asOf, turn.leg, weight, visited).Success?
    ensures WeightOf(ExpandLeg(store, asOf, turn.leg, weight, visited).value, s) ==
            Mul(weight, SumTo(TrailsOf(store, asOf, turn, depth), s))
    decreases store.Keys - visited, 1
  {
    hide *;
    var leg := turn.leg;
    if leg.symbol != "" {
      SymbolWeighs(store, asOf, turn, weight, visited, depth, s);
    } else {
      Descend(store, asOf, leg, weight, visited);
      EnteringUsesRoom(store, leg.recipe, visited);
      var inside := visited + {leg.recipe};
      var below := Selected(store, leg.recipe, asOf).value.legs;
      var w := Mul(weight, leg.weight);
      LegsWeigh(store, asOf, below, w, inside, depth - 1, s);
      MergeMeans(ExpandLegs(store, asOf, below, w, inside).value, s);
      var ts := Trails(store, asOf, below, depth - 1);
      TrailsDescend(store, asOf, turn, depth);
      SumToPrefixed(turn, ts, s);
      MulAssociates(weight, leg.weight, SumTo(ts, s));
    }
  }

  lemma TrailsDescend(store: Store, asOf: int, turn: Turn, depth: nat)
    requires turn.leg.symbol == "" && depth > 0 && turn.leg.recipe != ""
    requires Selected(store, turn.leg.recipe, asOf).Success?
    ensures TrailsOf(store, asOf, turn, depth) ==
      Prefixed(turn, Trails(store, asOf, Selected(store, turn.leg.recipe, asOf).value.legs, depth - 1))
  {
    hide Selected, Trails, Prefixed;
  }

  lemma SymbolWeighs(store: Store, asOf: int, turn: Turn, weight: real, visited: set<string>, depth: nat, s: string)
    requires Keyed(store) && turn.leg.symbol != ""
    ensures var c := ExpandLeg(store, asOf, turn.leg, weight, visited);
      c.Success? && WeightOf(c.value, s) == Mul(weight, SumTo(TrailsOf(store, asOf, turn, depth), s))
  {
    assert [turn][1..] == [];
    assert Product([turn]) == Mul(turn.leg.weight, 1.0) == turn.leg.weight;
    var ts := [[turn]];
    assert ts[..0] == [];
    assert SumTo(ts, s) == if turn.leg.symbol == s then Product([turn]) else 0.0;
    var cs := [Component(turn.leg.symbol, Mul(weight, turn.leg.weight))];
    assert cs[..0] == [];
    hide Keyed, Selected, Expand;
  }

  /** A flattened recipe names each symbol once, with the sum over all paths to it of the
      products of the weights along the path. */
  lemma FlattenedWeightIsSumOverPaths(store: Store, asOf: int, v: RecipeVersion, weight: real, s: string)
    requires Keyed(store) && s != "" && Expand(store, asOf, v, weight, {}).Success?
    ensures var flat := Expand(store, asOf, v, weight, {}).value;
      && Distinct(flat)
      && WeightOf(flat, s) == Mul(weight, SumTo(Trails(store, asOf, v.legs, |store|), s))
  {
    var inside := {} + {v.recipe};
    assert |store.Keys| == |store|;
    SubsetIsNoLarger(store.Keys - inside, store.Keys);
    LegsWeigh(store, asOf, v.legs, weight, inside, |store|, s);
    MergeMeans(ExpandLegs(store, asOf, v.legs, weight, inside).value, s);
  }

  // ---- the listing is of all paths, each once ------------------------------------------

  lemma {:induction false} PrefixedMembers(turn: Turn, ts: seq<seq<Turn>>, t: seq<Turn>)
    ensures t in Prefixed(turn, ts) <==> t != [] && t[0] == turn && t[1..] in ts
  {
    if ts != [] {
      var front, last := ts[..|ts| - 1], ts[|ts| - 1];
      PrefixedMembers(turn, front, t);
      assert ts == front + [last];
      assert ([turn] + last)[1..] == last;
      if t != [] && t[0] == turn { assert t == [turn] + t[1..]; }
    }
  }

  lemma {:induction false} TrailsList(store: Store, asOf: int, legs: seq<Leg>, depth: nat, t: seq<Turn>)
    ensures t in Trails(store, asOf, legs, depth) <==> IsTrail(store, asOf, legs, t) && |t| <= depth + 1
    decreases depth, |legs| + 1
  {
    if legs != [] {
      var n := |legs| - 1;
      TrailsList(store, asOf, legs[..n], depth, t);
      TrailsOfList(store, asOf, Turn(n, legs[n]), depth, t);
      hide TrailsOf, Continues;
    }
  }

  lemma {:induction false} TrailsOfList(store: Store, asOf: int, turn: Turn, depth: nat, t: seq<Turn>)
    ensures t in TrailsOf(store, asOf, turn, depth) <==>
      t != [] && t[0] == turn && Continues(store, asOf, t) && |t| <= depth + 1
    decreases depth, 0
  {
    var leg := turn.leg;
    if leg.symbol != "" {
      assert t != [] && t[0] == turn && |t| == 1 ==> t == [turn];
    } else if depth > 0 && leg.recipe != "" && Selected(store, leg.recipe, asOf).Success? {
      var below := Selected(store, leg.recipe, asOf).value.legs;
      PrefixedMembers(turn, Trails(store, asOf, below, depth - 1), t);
      if t != [] { TrailsList(store, asOf, below, depth - 1, t[1..]); }
      hide Trails, IsTrail, Prefixed;
    }
  }

  ghost predicate EachOnce(ts: seq<seq<Turn>>) {
    forall i, j :: 0 <= i < j < |ts| ==> ts[i] != ts[j]
  }

  lemma AppendedOnce(a: seq<seq<Turn>>, b: seq<seq<Turn>>)
    requires EachOnce(a) && EachOnce(b) && forall t :: t in a ==> t !in b
    ensures EachOnce(a + b)
  {
    var all := a + b;
    forall i, j | 0 <= i < j < |all| ensures all[i] != all[j] {
      if i < |a| && |a| <= j { assert a[i] in a && all[j] == b[j - |a|]; }
    }
  }

  lemma {:induction false} PrefixedOnce(turn: Turn, ts: seq<seq<Turn>>)
    requires EachOnce(ts)
    ensures EachOnce(Prefixed(turn, ts))
  {
    if ts != [] {
      var front, last := ts[..|ts| - 1], ts[|ts| - 1];
      PrefixedOnce(turn, front);
      forall t | t in Prefixed(turn, front) ensures t !in [[turn] + last] {
        PrefixedMembers(turn, front, t);
        var i :| 0 <= i < |front| && front[i] == t[1..];
        assert ts[i] == front[i];
        assert ([turn] + last)[1..] == last;
      }
      AppendedOnce(Prefixed(turn, front), [[turn] + last]);
    }
  }

  lemma {:induction false} TrailsOnce(store: Store, asOf: int, legs: seq<Leg>, depth: nat)
    ensures EachOnce(Trails(store, asOf, legs, depth))
    decreases depth, |legs| + 1
  {
    if legs != [] {
      var n := |legs| - 1;
      var a, b := Trails(store, asOf, legs[..n], depth), TrailsOf(store, asOf, Turn(n, legs[n]), depth);
      TrailsOnce(store, asOf, legs[..n], depth);
      TrailsOfOnce(store, asOf, Turn(n, legs[n]), depth);
      forall t | t in a ensures t !in b {
        TrailsList(store, asOf, legs[..n], depth, t);
        TrailsOfList(store, asOf, Turn(n, legs[n]), depth, t);
      }
      hide TrailsOf, EachOnce, Continues;
      AppendedOnce(a, b);
    }
  }

  lemma {:induction false} TrailsOfOnce(store: Store, asOf: int, turn: Turn, depth: nat)
    ensures EachOnce(TrailsOf(store, asOf, turn, depth))
    decreases depth, 0
  {
    var leg := turn.leg;
    if leg.symbol == "" && depth > 0 && leg.recipe != "" && Selected(store, leg.recipe, asOf).Success? {
      var below := Selected(store, leg.recipe, asOf).value.legs;
      TrailsOnce(store, asOf, below, depth - 1);
      PrefixedOnce(turn, Trails(store, asOf, below, depth - 1));
    }
  }

  lemma {:induction false} TrailIsShort(store: Store, asOf: int, legs: seq<Leg>, weight: real, visited: set<string>,
      t: seq<Turn>)
    requires Keyed(store) && ExpandLegs(store, asOf, legs, weight, visited).Success? && IsTrail(store, asOf, legs, t)
    ensures |t| <= Left(store, visited) + 1
    decreases |t|
  {
    if |t| > 1 {
      var leg := t[0].leg;
      if ExpandLeg(store, asOf, leg, weight, visited).Failure? {
        AnyLegFails(store, asOf, legs, weight, visited, t[0].at);
      }
      Descend(store, asOf, leg, weight, visited);
      EnteringUsesRoom(store, leg.recipe, visited);
      var below := Selected(store, leg.recipe, asOf).value.legs;
      TrailIsShort(store, asOf, below, Mul(weight, leg.weight), visited + {leg.recipe}, t[1..]);
      hide ExpandLegs, ExpandLeg, Left, Merge, Mul;
    }
  }

  /** The trails summed over are all there are, each listed once: none is longer than the
      store is large. */
  lemma TrailsAreAllPaths(store: Store, asOf: int, v: RecipeVersion, weight: real, t: seq<Turn>)
    requires Keyed(store) && Expand(store, asOf, v, weight, {}).Success?
    ensures t in Trails(store, asOf, v.legs, |store|) <==> IsTrail(store, asOf, v.legs, t)
    ensures EachOnce(Trails(store, asOf, v.legs, |store|))
  {
    TrailsOnce(store, asOf, v.legs, |store|);
    TrailsList(store, asOf, v.legs, |store|, t);
    if IsTrail(store, asOf, v.legs, t) {
      TrailIsShort(store, asOf, v.legs, weight, {} + {v.recipe}, t);
      SubsetIsNoLarger(store.Keys - ({} + {v.recipe}), store.Keys);
      assert |store.Keys| == |store|;
    }
  }

  // ---- total weight --------------------------------------------------------------------

  ghost predicate AllSumToOne(store: Store) {
    forall recipe :: recipe in store ==> EachSumsToOne(store[recipe])
  }

  ghost predicate EachSumsToOne(vs: seq<RecipeVersion>) {
    forall v :: v in vs ==> LegTotal(v.legs) == 1.0
  }

  lemma {:induction false} LegsTotal(store: Store, asOf: int, legs: seq<Leg>, weight: real, visited: set<string>)
    requires Keyed(store) && AllSumToOne(store) && ExpandLegs(store, asOf, legs, weight, visited).Success?
    ensures TotalWeight(ExpandLegs(store, asOf, legs, weight, visited).value) == Mul(weight, LegTotal(legs))
    decreases store.Keys - visited, |legs| + 2
  {
    hide *;
    if legs == [] {
      NothingTotals(store, asOf, weight, visited);
    } else {
      var n := |legs| - 1;
      LegsSplit(store, asOf, legs, weight, visited, 0);
      LegsTotal(store, asOf, legs[..n], weight, visited);
      LegTotals(store, asOf, legs[n], weight, visited);
      WeightOfAppends(ExpandLegs(store, asOf, legs[..n], weight, visited).value,
        ExpandLeg(store, asOf, legs[n], weight, visited).value, "");
      MulDistributes(weight, LegTotal(legs[..n]), legs[n].weight);
      LegTotalSplits(legs);
    }
  }

  lemma NothingTotals(store: Store, asOf: int, weight: real, visited: set<string>)
    requires Keyed(store)
    ensures ExpandLegs(store, asOf, [], weight, visited) == Success([])
    ensures TotalWeight([]) == Mul(weight, LegTotal([]))
  {
  }

  lemma LegTotalSplits(legs: seq<Leg>)
    requires legs != []
    ensures LegTotal(legs) == LegTotal(legs[..|legs| - 1]) + legs[|legs| - 1].weight
  {
  }

  lemma {:induction false} LegTotals(store: Store, asOf: int, leg: Leg, weight: real, visited: set<string>)
    requires Keyed(store) && AllSumToOne(store) && ExpandLeg(store, asOf, leg, weight, visited).Success?
    ensures TotalWeight(ExpandLeg(store, asOf, leg, weight, visited).value) == Mul(weight, leg.weight)
    decreases store.Keys - visited, 1
  {
    hide *;
    if leg.symbol != "" {
      SymbolTotals(store, asOf, leg, weight, visited);
    } else {
      var w := Mul(weight, leg.weight);
      Descend(store, asOf, leg, weight, visited);
      EnteringUsesRoom(store, leg.recipe, visited);
      SelectedSumsToOne(store, leg.recipe, asOf);
      var below := Selected(store, leg.recipe, asOf).value.legs;
      LegsTotal(store, asOf, below, w, visited + {leg.recipe});
      MergeMeans(ExpandLegs(store, asOf, below, w, visited + {leg.recipe}).value, "");
      TimesOne(w);
    }
  }

  lemma SymbolTotals(store: Store, asOf: int, leg: Leg, weight: real, visited: set<string>)
    requires Keyed(store) && leg.symbol != ""
    ensures var c := ExpandLeg(store, asOf, leg, weight, visited);
      c.Success? && TotalWeight(c.value) == Mul(weight, leg.weight)
  {
    hide Keyed, Selected, Expand;
    var cs := [Component(leg.symbol, Mul(weight, leg.weight))];
    assert cs[..0] == [];
  }

  lemma SelectedSumsToOne(store: Store, recipe: string, asOf: int)
    requires AllSumToOne(store) && Selected(store, recipe, asOf).Success?
    ensures LegTotal(Selected(store, recipe, asOf).value.legs) == 1.0
  {
    hide LegTotal;
    LastKnownListed(store[recipe], asOf);
    assert EachSumsToOne(store[recipe]);
  }

  lemma TimesOne(w: real)
    ensures Mul(w, 1.0) == w
  {
  }

  /** When every version's weights sum to 1, so does the flattened recipe. */
  lemma FlatteningKeepsTotal(store: Store, asOf: int, v: RecipeVersion, weight: real)
    requires Keyed(store) && AllSumToOne(store) && LegTotal(v.legs) == 1.0
    requires Expand(store, asOf, v, weight, {}).Success?
    ensures TotalWeight(Expand(store, asOf, v, weight, {}).value) == weight
  {
    LegsTotal(store, asOf, v.legs, weight, {} + {v.recipe});
    MergeMeans(ExpandLegs(store, asOf, v.legs, weight, {} + {v.recipe}).value, "");
  }
}
