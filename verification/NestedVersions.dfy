/** The versions a recipe's components stand for: those public when the recipe was. */
module NestedVersions {
  import opened Money
  import opened Outcomes
  import opened Portfolio
  import opened Recipes
  import opened Merging
  import opened Flattening
  import opened FlattenedWeights
  import opened Timelines

  // ---- the instant they are chosen at --------------------------------------------------

  /** The trail follows a reference at the turn to a version public by the instant. */
  ghost predicate FollowsPublic(store: Store, t: seq<Turn>, k: nat, asOf: int)
    requires k + 1 < |t|
  {
    && Selected(store, t[k].leg.recipe, asOf).Success?
    && Selected(store, t[k].leg.recipe, asOf).value.known <= asOf
    && t[k + 1].at < |Selected(store, t[k].leg.recipe, asOf).value.legs|
    && Selected(store, t[k].leg.recipe, asOf).value.legs[t[k + 1].at] == t[k + 1].leg
  }

  lemma {:induction false} TrailFollowsPublic(store: Store, asOf: int, legs: seq<Leg>, t: seq<Turn>, k: nat)
    requires IsTrail(store, asOf, legs, t) && k + 1 < |t|
    ensures FollowsPublic(store, t, k, asOf)
    decreases k
  {
    LastKnownListed(store[t[0].leg.recipe], asOf);
    var below := Selected(store, t[0].leg.recipe, asOf).value.legs;
    assert IsTrail(store, asOf, below, t[1..]);
    assert t[1..][0] == t[1];
    if k > 0 {
      TrailFollowsPublic(store, asOf, below, t[1..], k - 1);
      assert t[1..][k - 1] == t[k] && t[1..][k] == t[k + 1];
    }
  }

  /** What a resolved version weighs a symbol: the sum over the trails chosen at the instant
      the version itself became public. No version on them was made public after it. */
  lemma ResolvedWeights(store: Store, v: RecipeVersion, s: string)
    requires Keyed(store) && s != "" && ResolveOne(store, v).Success?
    ensures WeightOf(ResolveOne(store, v).value.components, s) == SumTo(Trails(store, v.known, v.legs, |store|), s)
    ensures forall t, k: nat :: t in Trails(store, v.known, v.legs, |store|) && k + 1 < |t| ==>
      FollowsPublic(store, t, k, v.known)
  {
    hide *;
    ResolvedExpands(store, v);
    FlattenedWeightIsSumOverPaths(store, v.known, v, 1.0, s);
    OneTimes(SumTo(Trails(store, v.known, v.legs, |store|), s));
    forall t, k: nat | t in Trails(store, v.known, v.legs, |store|) && k + 1 < |t|
      ensures FollowsPublic(store, t, k, v.known)
    {
      TrailsAreAllPaths(store, v.known, v, 1.0, t);
      TrailFollowsPublic(store, v.known, v.legs, t, k);
    }
  }

  lemma ResolvedExpands(store: Store, v: RecipeVersion)
    requires Keyed(store) && ResolveOne(store, v).Success?
    ensures Expand(store, v.known, v, 1.0, {}) == Success(ResolveOne(store, v).value.components)
  {
    hide Expand, IndexRounding.Admitted;
  }

  lemma OneTimes(x: real)
    ensures Mul(1.0, x) == x
  {
  }

  // ---- later versions change nothing ---------------------------------------------------

  /** Both stores know the recipes alike up to the instant. */
  ghost predicate SameUntil(a: Store, b: Store, asOf: int) {
    a.Keys == b.Keys && forall recipe :: recipe in a ==> UpTo(a[recipe], asOf) == UpTo(b[recipe], asOf)
  }

  lemma {:induction false} LastKnownIsLastPublic(vs: seq<RecipeVersion>, asOf: int)
    ensures LastKnown(vs, asOf) == var public := UpTo(vs, asOf);
      if public == [] then None else Some(public[|public| - 1])
  {
    if vs != [] { LastKnownIsLastPublic(vs[..|vs| - 1], asOf); }
  }

  lemma SelectedAgree(a: Store, b: Store, asOf: int, recipe: string)
    requires SameUntil(a, b, asOf)
    ensures Selected(a, recipe, asOf) == Selected(b, recipe, asOf)
  {
    if recipe in a {
      LastKnownIsLastPublic(a[recipe], asOf);
      LastKnownIsLastPublic(b[recipe], asOf);
    }
  }

  lemma {:induction false} ExpandAgree(a: Store, b: Store, asOf: int, v: RecipeVersion, weight: real,
      visited: set<string>)
    requires Keyed(a) && Keyed(b) && SameUntil(a, b, asOf)
    ensures Expand(a, asOf, v, weight, visited) == Expand(b, asOf, v, weight, visited)
    decreases Room(a, v.recipe, visited), 0
  {
    if v.recipe !in visited {
      assert v.recipe in Room(a, v.recipe, visited);
      LegsAgree(a, b, asOf, v.legs, weight, visited + {v.recipe});
      hide ExpandLegs, Merge, SameUntil;
    }
  }

  lemma {:induction false} LegsAgree(a: Store, b: Store, asOf: int, legs: seq<Leg>, weight: real,
      visited: set<string>)
    requires Keyed(a) && Keyed(b) && SameUntil(a, b, asOf)
    ensures ExpandLegs(a, asOf, legs, weight, visited) == ExpandLegs(b, asOf, legs, weight, visited)
    decreases a.Keys - visited, |legs| + 2
  {
    if legs != [] {
      LegsAgree(a, b, asOf, legs[..|legs| - 1], weight, visited);
      LegAgrees(a, b, asOf, legs[|legs| - 1], weight, visited);
      hide ExpandLeg, SameUntil;
    }
  }

  lemma {:induction false} LegAgrees(a: Store, b: Store, asOf: int, leg: Leg, weight: real, visited: set<string>)
    requires Keyed(a) && Keyed(b) && SameUntil(a, b, asOf)
    ensures ExpandLeg(a, asOf, leg, weight, visited) == ExpandLeg(b, asOf, leg, weight, visited)
    decreases a.Keys - visited, 1
  {
    if leg.symbol == "" && leg.recipe != "" {
      SelectedAgree(a, b, asOf, leg.recipe);
      if Selected(a, leg.recipe, asOf).Success? {
        SelectedIsKeyed(a, leg.recipe, asOf);
        var child := Selected(a, leg.recipe, asOf).value;
        assert Room(a, child.recipe, visited) == a.Keys - visited;
        ExpandAgree(a, b, asOf, child, Mul(weight, leg.weight), visited);
      }
      hide Expand, SameUntil;
    }
  }

  /** A version resolves alike in any two stores that knew the recipes alike when it became
      public: no version of any recipe made public later has a say in it. */
  lemma LaterVersionsChangeNothing(a: Store, b: Store, v: RecipeVersion)
    requires Keyed(a) && Keyed(b) && SameUntil(a, b, v.known)
    ensures ResolveOne(a, v) == ResolveOne(b, v)
  {
    ExpandAgree(a, b, v.known, v, 1.0, {});
    hide Expand, IndexRounding.Admitted, SameUntil;
  }

  // ---- a whole timeline ----------------------------------------------------------------

  lemma {:induction false} UpToEarlier(vs: seq<RecipeVersion>, earlier: int, asOf: int)
    requires earlier <= asOf
    ensures UpTo(UpTo(vs, asOf), earlier) == UpTo(vs, earlier)
  {
    if vs != [] {
      UpToEarlier(vs[..|vs| - 1], earlier, asOf);
      UpToSnoc(UpTo(vs[..|vs| - 1], asOf), vs[|vs| - 1], earlier);
    }
  }

  lemma SameEarlier(a: Store, b: Store, earlier: int, asOf: int)
    requires SameUntil(a, b, asOf) && earlier <= asOf
    ensures SameUntil(a, b, earlier)
  {
    forall recipe | recipe in a ensures UpTo(a[recipe], earlier) == UpTo(b[recipe], earlier) {
      UpToEarlier(a[recipe], earlier, asOf);
      UpToEarlier(b[recipe], earlier, asOf);
    }
  }

  lemma {:induction false} LaterIsPublic(vs: seq<RecipeVersion>, id: string, start: int, end: int)
    ensures Later(vs, id, start, end) == Later(UpTo(vs, end), id, start, end)
  {
    if vs != [] {
      LaterIsPublic(vs[..|vs| - 1], id, start, end);
      var before, last := UpTo(vs[..|vs| - 1], end), vs[|vs| - 1];
      assert (before + [last])[..|before|] == before;
    }
  }

  lemma RelevantAgree(a: Store, b: Store, recipe: string, start: int, end: int)
    requires SameUntil(a, b, end) && start <= end
    ensures Relevant(a, recipe, start, end) == Relevant(b, recipe, start, end)
  {
    SameEarlier(a, b, start, end);
    SelectedAgree(a, b, start, recipe);
    if Selected(a, recipe, start).Success? {
      var id := Selected(a, recipe, start).value.id;
      LaterIsPublic(a[recipe], id, start, end);
      LaterIsPublic(b[recipe], id, start, end);
    }
    hide Selected, Later, UpTo, SortBy;
  }

  lemma {:induction false} ResolvedAlike(a: Store, b: Store, vs: seq<RecipeVersion>, end: int)
    requires Keyed(a) && Keyed(b) && SameUntil(a, b, end) && forall k :: 0 <= k < |vs| ==> vs[k].known <= end
    ensures ResolveAll(a, vs) == ResolveAll(b, vs)
  {
    if vs != [] {
      var last := vs[|vs| - 1];
      ResolvedAlike(a, b, vs[..|vs| - 1], end);
      SameEarlier(a, b, last.known, end);
      LaterVersionsChangeNothing(a, b, last);
      hide ResolveOne, SameUntil;
    }
  }

  /** A timeline is the same whatever became public after its end. */
  lemma TimelineKnowsNoFuture(a: Store, b: Store, recipe: string, start: int, end: int)
    requires Keyed(a) && Keyed(b) && SameUntil(a, b, end) && start <= end
    ensures Resolve(a, recipe, start, end) == Resolve(b, recipe, start, end)
  {
    hide *;
    RelevantAgree(a, b, recipe, start, end);
    ResolvesKept(a, recipe, start, end);
    ResolvesKept(b, recipe, start, end);
    if Relevant(a, recipe, start, end).Success? {
      KeptInWindow(a, recipe, start, end);
      ResolvedAlike(a, b, Kept(Relevant(a, recipe, start, end).value), end);
    }
  }

  // ---- the timeline, version by version ----------------------------------------------------

  lemma {:induction false} AllResolveExactly(store: Store, vs: seq<RecipeVersion>)
    requires Keyed(store)
    ensures ResolveAll(store, vs).Success? <==> forall k :: 0 <= k < |vs| ==> ResolveOne(store, vs[k]).Success?
  {
    if vs != [] {
      var front := vs[..|vs| - 1];
      AllResolveExactly(store, front);
      hide ResolveOne;
      assert forall k :: 0 <= k < |front| ==> front[k] == vs[k];
    }
  }

  /** The entry stands for the version: its public day, its policy, its flattened weights. */
  ghost predicate StandsFor(store: Store, t: Version, v: RecipeVersion)
    requires Keyed(store)
  {
    && t.known == v.known / 1000000 && t.policy == v.policy
    && Expand(store, v.known, v, 1.0, {}) == Success(t.components)
  }

  lemma ResolvedStandsFor(store: Store, v: RecipeVersion)
    requires Keyed(store) && ResolveOne(store, v).Success?
    ensures StandsFor(store, ResolveOne(store, v).value, v)
  {
    hide Expand, IndexRounding.Admitted;
  }

  /** A timeline has an entry for each of the window's versions of a filing recipe, and for
      the first alone under any other policy. It resolves exactly if each of those does. */
  lemma TimelineListsVersions(store: Store, recipe: string, start: int, end: int)
    requires Keyed(store) && Relevant(store, recipe, start, end).Success?
    ensures var vs := Relevant(store, recipe, start, end).value;
      && |vs| > 0
      && var kept := if vs[0].policy == FilingSnapshot then vs else [vs[0]];
        var r := Resolve(store, recipe, start, end);
      && (r.Success? <==> forall k :: 0 <= k < |kept| ==> ResolveOne(store, kept[k]).Success?)
      && (r.Success? ==> |r.value| == |kept| && forall k :: 0 <= k < |kept| ==> StandsFor(store, r.value[k], kept[k]))
  {
    ResolvesKept(store, recipe, start, end);
    var vs := Relevant(store, recipe, start, end).value;
    var kept := if vs[0].policy == FilingSnapshot then vs else [vs[0]];
    assert Kept(vs) == kept;
    hide *;
    AllResolveExactly(store, kept);
    if ResolveAll(store, kept).Success? {
      KeptStandFor(store, kept);
    }
  }

  lemma KeptStandFor(store: Store, kept: seq<RecipeVersion>)
    requires Keyed(store) && ResolveAll(store, kept).Success?
    ensures forall k :: 0 <= k < |kept| ==> StandsFor(store, ResolveAll(store, kept).value[k], kept[k])
  {
    hide *;
    forall k | 0 <= k < |kept| ensures StandsFor(store, ResolveAll(store, kept).value[k], kept[k]) {
      ResolvedAt(store, kept, k);
      ResolvedStandsFor(store, kept[k]);
    }
  }
}
