/** Expanding nested recipes into symbols. */
module Flattening {
  import opened Money
  import opened Outcomes
  import opened Portfolio
  import opened Recipes
  import opened Merging
  import IndexFormula

  /** Versions are listed under their own recipe's name. */
  ghost predicate Keyed(store: Store) {
    forall recipe :: recipe in store ==> AllNamed(store[recipe], recipe)
  }

  ghost predicate AllNamed(vs: seq<RecipeVersion>, recipe: string) {
    forall v :: v in vs ==> v.recipe == recipe
  }

  lemma SelectedIsKeyed(store: Store, recipe: string, asOf: int)
    requires Keyed(store) && Selected(store, recipe, asOf).Success?
    ensures Selected(store, recipe, asOf).value.recipe == recipe && recipe in store
  {
    LastKnownListed(store[recipe], asOf);
    assert AllNamed(store[recipe], recipe);
  }

  /** The recipes not yet on the path. */
  ghost function Room(store: Store, recipe: string, visited: set<string>): set<string> {
    store.Keys + {recipe} - visited
  }

  // ---- the expansion -------------------------------------------------------------------

  ghost function Expand(store: Store, asOf: int, v: RecipeVersion, weight: real,
      visited: set<string>): Result<seq<Component>>
    requires Keyed(store)
    decreases Room(store, v.recipe, visited), 0
  {
    if v.recipe in visited then Failure(CircularRecipe)
    else
      assert v.recipe in Room(store, v.recipe, visited);
      var all :- ExpandLegs(store, asOf, v.legs, weight, visited + {v.recipe});
      Success(Merge(all))
  }

  ghost function ExpandLegs(store: Store, asOf: int, legs: seq<Leg>, weight: real,
      visited: set<string>): Result<seq<Component>>
    requires Keyed(store)
    decreases store.Keys - visited, |legs| + 2
  {
    if legs == [] then Success([])
    else
      var before :- ExpandLegs(store, asOf, legs[..|legs| - 1], weight, visited);
      var last :- ExpandLeg(store, asOf, legs[|legs| - 1], weight, visited);
      Success(before + last)
  }

  ghost function ExpandLeg(store: Store, asOf: int, leg: Leg, weight: real,
      visited: set<string>): Result<seq<Component>>
    requires Keyed(store)
    decreases store.Keys - visited, 1
  {
    if leg.symbol != "" then Success([Component(leg.symbol, Mul(weight, leg.weight))])
    else if leg.recipe == "" then Failure(EmptyComponent)
    else
      var child :- Selected(store, leg.recipe, asOf);
      SelectedIsKeyed(store, leg.recipe, asOf);
      assert Room(store, child.recipe, visited) == store.Keys - visited;
      Expand(store, asOf, child, Mul(weight, leg.weight), visited)
  }

  lemma {:induction false} LegFailsAll(store: Store, asOf: int, legs: seq<Leg>, weight: real, visited: set<string>,
      i: nat)
    requires Keyed(store) && i < |legs|
    requires ExpandLegs(store, asOf, legs[..i], weight, visited).Success?
    requires ExpandLeg(store, asOf, legs[i], weight, visited).Failure?
    ensures ExpandLegs(store, asOf, legs, weight, visited) == Failure(ExpandLeg(store, asOf, legs[i], weight, visited).error)
  {
    var front := legs[..|legs| - 1];
    if i < |legs| - 1 {
      assert front[..i] == legs[..i];
      LegFailsAll(store, asOf, front, weight, visited, i);
    } else {
      assert front == legs[..i];
    }
  }

  /** flattenConcreteVersion and the set of recipes on the current path. */
  class Flattener {
    var visited: set<string>

    constructor ()
      ensures visited == {}
    {
      visited := {};
    }

    /** The path is as it was on every return, with or without an error. */
    method Flatten(store: Store, asOf: int, v: RecipeVersion, weight: real) returns (r: Result<seq<Component>>)
      requires Keyed(store)
      modifies this
      ensures r == Expand(store, asOf, v, weight, old(visited))
      ensures visited == old(visited)
      decreases Room(store, v.recipe, visited), 0
    {
      if v.recipe in visited {
        return Failure(CircularRecipe);
      }
      ghost var entered := visited;
      visited := visited + {v.recipe};
      ghost var path := visited;
      var result: seq<Component> := [];
      var i := 0;
      while i < |v.legs|
        invariant 0 <= i <= |v.legs| && visited == path
        invariant ExpandLegs(store, asOf, v.legs[..i], weight, path) == Success(result)
      {
        var leg := v.legs[i];
        assert v.legs[..i + 1][..i] == v.legs[..i];
        var nested := FlattenLeg(store, asOf, leg, weight, v.recipe);
        if nested.Failure? {
          LegFailsAll(store, asOf, v.legs, weight, path, i);
          visited := visited - {v.recipe};
          assert visited == entered;
          return nested;
        }
        result := result + nested.value;
        i := i + 1;
      }
      assert v.legs[..i] == v.legs;
      visited := visited - {v.recipe};
      assert visited == entered;
      var merged := MergeDuplicateSymbols(result);
      r := Success(merged);
    }

    /** One component of the recipe being flattened. */
    method FlattenLeg(store: Store, asOf: int, leg: Leg, weight: real,
        ghost parent: string) returns (r: Result<seq<Component>>)
      requires Keyed(store) && parent in visited
      modifies this
      ensures r == ExpandLeg(store, asOf, leg, weight, old(visited))
      ensures visited == old(visited)
      decreases store.Keys - visited, 1
    {
      var w := Mul(weight, leg.weight);
      if leg.symbol != "" {
        return Success([Component(leg.symbol, w)]);
      }
      if leg.recipe == "" {
        return Failure(EmptyComponent);
      }
      var child := SelectVersion(store, leg.recipe, asOf);
      if child.Failure? {
        return child.PropagateFailure();
      }
      SelectedIsKeyed(store, leg.recipe, asOf);
      assert Room(store, child.value.recipe, visited) == store.Keys - visited;
      r := Flatten(store, asOf, child.value, w);
    }
  }

  // ---- when it fails -------------------------------------------------------------------

  predicate BrokenLeg(store: Store, asOf: int, leg: Leg) {
    leg.symbol == "" && (leg.recipe == "" || Selected(store, leg.recipe, asOf).Failure?)
  }

  /** The leg leads to the version. */
  predicate LeadsTo(store: Store, asOf: int, leg: Leg, u: RecipeVersion) {
    leg.symbol == "" && leg.recipe != "" && Selected(store, leg.recipe, asOf) == Success(u)
  }

  ghost predicate Refers(store: Store, asOf: int, v: RecipeVersion, u: RecipeVersion) {
    exists i :: 0 <= i < |v.legs| && LeadsTo(store, asOf, v.legs[i], u)
  }

  ghost predicate IsPath(store: Store, asOf: int, p: seq<RecipeVersion>) {
    |p| > 0 && forall i :: 0 <= i < |p| - 1 ==> Refers(store, asOf, p[i], p[i + 1])
  }

  /** A version one of whose components is empty or cannot be resolved. */
  ghost predicate Dead(store: Store, asOf: int, v: RecipeVersion) {
    exists i :: 0 <= i < |v.legs| && BrokenLeg(store, asOf, v.legs[i])
  }

  /** The path comes back to a recipe it has passed. */
  ghost predicate Returns(p: seq<RecipeVersion>) {
    exists j :: 0 <= j < |p| - 1 && p[j].recipe == p[|p| - 1].recipe
  }

  ghost predicate Doomed(store: Store, asOf: int, p: seq<RecipeVersion>, visited: set<string>) {
    |p| > 0 && (Dead(store, asOf, p[|p| - 1]) || p[|p| - 1].recipe in visited || Returns(p))
  }

  lemma {:induction false} SomeLegFails(store: Store, asOf: int, legs: seq<Leg>, weight: real,
      visited: set<string>) returns (i: nat)
    requires Keyed(store) && ExpandLegs(store, asOf, legs, weight, visited).Failure?
    ensures i < |legs| && ExpandLeg(store, asOf, legs[i], weight, visited).Failure?
  {
    var n := |legs| - 1;
    if ExpandLegs(store, asOf, legs[..n], weight, visited).Failure? {
      i := SomeLegFails(store, asOf, legs[..n], weight, visited);
    } else {
      i := n;
    }
  }

  lemma {:induction false} AnyLegFails(store: Store, asOf: int, legs: seq<Leg>, weight: real, visited: set<string>,
      i: nat)
    requires Keyed(store) && i < |legs| && ExpandLeg(store, asOf, legs[i], weight, visited).Failure?
    ensures ExpandLegs(store, asOf, legs, weight, visited).Failure?
  {
    if i < |legs| - 1 {
      AnyLegFails(store, asOf, legs[..|legs| - 1], weight, visited, i);
    }
  }

  lemma {:induction false} FailureHasPath(store: Store, asOf: int, v: RecipeVersion, weight: real, visited: set<string>)
      returns (p: seq<RecipeVersion>)
    requires Keyed(store) && Expand(store, asOf, v, weight, visited).Failure?
    ensures IsPath(store, asOf, p) && p[0] == v && Doomed(store, asOf, p, visited)
    decreases Room(store, v.recipe, visited)
  {
    p := [v];
    if v.recipe !in visited {
      var inside := visited + {v.recipe};
      var i := SomeLegFails(store, asOf, v.legs, weight, inside);
      var leg := v.legs[i];
      if !BrokenLeg(store, asOf, leg) {
        var child := Selected(store, leg.recipe, asOf).value;
        SelectedIsKeyed(store, leg.recipe, asOf);
        assert Room(store, child.recipe, inside) == store.Keys - inside;
        assert v.recipe in Room(store, v.recipe, visited);
        var q := FailureHasPath(store, asOf, child, Mul(weight, leg.weight), inside);
        assert LeadsTo(store, asOf, leg, child);
        ExtendPath(store, asOf, v, q, visited);
        p := [v] + q;
      }
    }
  }

  lemma ExtendPath(store: Store, asOf: int, v: RecipeVersion, q: seq<RecipeVersion>, visited: set<string>)
    requires IsPath(store, asOf, q) && Refers(store, asOf, v, q[0]) && Doomed(store, asOf, q, visited + {v.recipe})
    ensures IsPath(store, asOf, [v] + q) && Doomed(store, asOf, [v] + q, visited)
  {
    var p := [v] + q;
    assert p[|p| - 1] == q[|q| - 1];
    forall i | 0 <= i < |p| - 1 ensures Refers(store, asOf, p[i], p[i + 1]) {
      if i > 0 { assert p[i] == q[i - 1] && p[i + 1] == q[i]; }
    }
    if Returns(q) {
      var j :| 0 <= j < |q| - 1 && q[j].recipe == q[|q| - 1].recipe;
      assert p[j + 1].recipe == p[|p| - 1].recipe;
    } else if q[|q| - 1].recipe == v.recipe {
      assert p[0].recipe == p[|p| - 1].recipe;
    }
    hide Refers;
  }

  lemma {:induction false} PathFails(store: Store, asOf: int, p: seq<RecipeVersion>, weight: real, visited: set<string>)
    requires Keyed(store) && IsPath(store, asOf, p) && Doomed(store, asOf, p, visited)
    ensures Expand(store, asOf, p[0], weight, visited).Failure?
    decreases |p|
  {
    var v := p[0];
    if v.recipe !in visited {
      var inside := visited + {v.recipe};
      if |p| == 1 {
        var i :| 0 <= i < |v.legs| && BrokenLeg(store, asOf, v.legs[i]);
        AnyLegFails(store, asOf, v.legs, weight, inside, i);
      } else {
        assert Refers(store, asOf, p[0], p[1]);
        var i :| 0 <= i < |v.legs| && LeadsTo(store, asOf, v.legs[i], p[1]);
        DropFirst(store, asOf, p, visited);
        PathFails(store, asOf, p[1..], Mul(weight, v.legs[i].weight), inside);
        AnyLegFails(store, asOf, v.legs, weight, inside, i);
      }
    }
  }

  lemma DropFirst(store: Store, asOf: int, p: seq<RecipeVersion>, visited: set<string>)
    requires IsPath(store, asOf, p) && Doomed(store, asOf, p, visited) && |p| > 1
    ensures IsPath(store, asOf, p[1..]) && Doomed(store, asOf, p[1..], visited + {p[0].recipe})
  {
    var q := p[1..];
    forall i | 0 <= i < |q| - 1 ensures Refers(store, asOf, q[i], q[i + 1]) {
      assert Refers(store, asOf, p[i + 1], p[i + 2]);
    }
    if Returns(p) {
      var j :| 0 <= j < |p| - 1 && p[j].recipe == p[|p| - 1].recipe;
      if j > 0 { assert q[j - 1].recipe == q[|q| - 1].recipe; }
    }
    hide Refers;
  }

  /** Flattening fails exactly when some chain of references from the recipe comes back on
      itself or ends at a component that is empty or cannot be resolved. */
  lemma FailsExactly(store: Store, asOf: int, v: RecipeVersion, weight: real)
    requires Keyed(store)
    ensures Expand(store, asOf, v, weight, {}).Failure? <==>
      exists p :: IsPath(store, asOf, p) && p[0] == v && (Dead(store, asOf, p[|p| - 1]) || Returns(p))
  {
    if Expand(store, asOf, v, weight, {}).Failure? {
      var p := FailureHasPath(store, asOf, v, weight, {});
      assert IsPath(store, asOf, p) && p[0] == v && (Dead(store, asOf, p[|p| - 1]) || Returns(p));
    }
    forall p | IsPath(store, asOf, p) && p[0] == v && (Dead(store, asOf, p[|p| - 1]) || Returns(p))
      ensures Expand(store, asOf, v, weight, {}).Failure?
    {
      PathFails(store, asOf, p, weight, {});
    }
    hide Expand, IsPath, Dead, Returns;
  }
}
