/** Dated recipe versions: validation, the store, and what was public when. */
module Recipes {
  import opened Outcomes
  import opened Portfolio
  import opened VersionNames

  /** One line of a recipe: a symbol or a reference to another recipe; "" for neither. */
  datatype Leg = Leg(symbol: string, recipe: string, weight: real)

  datatype Source =
    | CodeDefined
    | Filing13F(accession: string, url: string, reportEnd: Option<int>, coverage: Option<real>)

  /** Instants are the digits of year, month, day, hour, minute and second. */
  datatype RecipeVersion = RecipeVersion(
    recipe: string, id: string, known: int, from: int, until: Option<int>,
    policy: Policy, legs: seq<Leg>, source: Source)

  type Store = map<string, seq<RecipeVersion>>

  const MIN_COVERAGE := 0.90

  function DayOf(instant: int): int {
    instant / 1000000
  }

  // ---- validation ----------------------------------------------------------------------

  function LegTotal(legs: seq<Leg>): real {
    if legs == [] then 0.0 else LegTotal(legs[..|legs| - 1]) + legs[|legs| - 1].weight
  }

  predicate LegAllowed(leg: Leg) {
    leg.weight > 0.0 && ((leg.symbol == "") != (leg.recipe == ""))
  }

  predicate SourceAllowed(source: Source) {
    source.Filing13F? ==>
      && source.accession != "" && source.url != "" && source.reportEnd.Some?
      && (source.coverage.Some? ==> source.coverage.value >= MIN_COVERAGE)
  }

  predicate Valid(v: RecipeVersion) {
    && v.recipe != "" && v.id != "" && v.legs != []
    && (forall i :: 0 <= i < |v.legs| ==> LegAllowed(v.legs[i]))
    && -WEIGHT_TOLERANCE < LegTotal(v.legs) - 1.0 < WEIGHT_TOLERANCE
    && (v.until.Some? ==> v.until.value > v.from)
    && SourceAllowed(v.source)
  }

  method Validate(v: RecipeVersion) returns (ok: bool)
    ensures ok <==> Valid(v)
  {
    if v.recipe == "" || v.id == "" || |v.legs| == 0 {
      return false;
    }
    var total := 0.0;
    for i := 0 to |v.legs|
      invariant forall k :: 0 <= k < i ==> LegAllowed(v.legs[k])
      invariant total == LegTotal(v.legs[..i])
    {
      if !LegAllowed(v.legs[i]) {
        return false;
      }
      assert v.legs[..i + 1][..i] == v.legs[..i];
      total := total + v.legs[i].weight;
    }
    assert v.legs[..|v.legs|] == v.legs;
    var deviation := total - 1.0;
    if deviation < 0.0 {
      deviation := -deviation;
    }
    if deviation >= WEIGHT_TOLERANCE || (v.until.Some? && v.until.value <= v.from) {
      return false;
    }
    ok := SourceAllowed(v.source);
  }

  // ---- sorting -------------------------------------------------------------------------

  datatype Order = ByKnown | ByKnownThenId

  predicate Precedes(order: Order, a: RecipeVersion, b: RecipeVersion) {
    a.known < b.known || (a.known == b.known && order == ByKnownThenId && Less(a.id, b.id))
  }

  ghost predicate Sorted(order: Order, vs: seq<RecipeVersion>) {
    forall i, j :: 0 <= i < j < |vs| ==> !Precedes(order, vs[j], vs[i])
  }

  function Insert(order: Order, vs: seq<RecipeVersion>, v: RecipeVersion): (r: seq<RecipeVersion>)
    ensures multiset(r) == multiset(vs) + multiset{v}
  {
    if vs == [] then [v]
    else
      var n := |vs| - 1;
      assert vs == vs[..n] + [vs[n]];
      if Precedes(order, v, vs[n]) then Insert(order, vs[..n], v) + [vs[n]] else vs + [v]
  }

  /** Asymmetric, and what does not precede what does not precede does not precede. */
  lemma PrecedesOrders(order: Order, a: RecipeVersion, b: RecipeVersion, c: RecipeVersion)
    ensures Precedes(order, a, b) ==> !Precedes(order, b, a)
    ensures !Precedes(order, a, b) && !Precedes(order, b, c) ==> !Precedes(order, a, c)
  {
    LessOrders(a.id, b.id, c.id);
    LessOrders(b.id, a.id, c.id);
    hide Less;
  }

  lemma SortedSnoc(order: Order, front: seq<RecipeVersion>, last: RecipeVersion)
    requires Sorted(order, front) && forall x :: x in front ==> !Precedes(order, last, x)
    ensures Sorted(order, front + [last])
  {
    hide Precedes;
  }

  lemma {:induction false} InsertSorts(order: Order, vs: seq<RecipeVersion>, v: RecipeVersion)
    requires Sorted(order, vs)
    ensures Sorted(order, Insert(order, vs, v))
  {
    if vs != [] {
      var n := |vs| - 1;
      var last := vs[n];
      hide Precedes;
      PrecedesOrders(order, v, last, last);
      forall x | x in vs[..n] ensures !Precedes(order, last, x) {
        var k :| 0 <= k < n && vs[k] == x;
      }
      if Precedes(order, v, last) {
        InsertSorts(order, vs[..n], v);
        var front := Insert(order, vs[..n], v);
        forall x | x in front ensures !Precedes(order, last, x) {
          assert x in multiset(front);
        }
        SortedSnoc(order, front, last);
      } else {
        forall x | x in vs ensures !Precedes(order, v, x) {
          if x != last {
            var k :| 0 <= k < |vs| && vs[k] == x;
            PrecedesOrders(order, v, last, x);
          }
        }
        SortedSnoc(order, vs, v);
      }
    }
  }

  /** The outcome of a sort; equal keys keep their order here, and may not in the source. */
  function SortBy(order: Order, vs: seq<RecipeVersion>): (r: seq<RecipeVersion>)
    ensures multiset(r) == multiset(vs)
  {
    if vs == [] then []
    else
      assert vs == vs[..|vs| - 1] + [vs[|vs| - 1]];
      Insert(order, SortBy(order, vs[..|vs| - 1]), vs[|vs| - 1])
  }

  lemma {:induction false} SortSorts(order: Order, vs: seq<RecipeVersion>)
    ensures Sorted(order, SortBy(order, vs))
  {
    if vs != [] {
      SortSorts(order, vs[..|vs| - 1]);
      InsertSorts(order, SortBy(order, vs[..|vs| - 1]), vs[|vs| - 1]);
    }
  }

  // ---- the store -----------------------------------------------------------------------

  function OfRecipe(versions: seq<RecipeVersion>, recipe: string): seq<RecipeVersion> {
    if versions == [] then []
    else
      var rest := OfRecipe(versions[..|versions| - 1], recipe);
      var last := versions[|versions| - 1];
      if last.recipe == recipe then rest + [last] else rest
  }

  lemma OfRecipeSnoc(versions: seq<RecipeVersion>, v: RecipeVersion, recipe: string)
    ensures OfRecipe(versions + [v], recipe) == OfRecipe(versions, recipe) + if v.recipe == recipe then [v] else []
  {
    assert (versions + [v])[..|versions|] == versions;
  }

  /** Neighbours whose effective ranges collide. */
  predicate Overlap(before: RecipeVersion, after: RecipeVersion) {
    match before.until
    case None => after.from >= before.from && before.known == after.known
    case Some(until) => after.from < until
  }

  predicate Disjoint(vs: seq<RecipeVersion>) {
    forall i :: 0 < i < |vs| ==> !Overlap(vs[i - 1], vs[i])
  }

  predicate SameName(a: RecipeVersion, b: RecipeVersion) {
    Joined(a.recipe, a.id) == Joined(b.recipe, b.id)
  }

  predicate DistinctNames(versions: seq<RecipeVersion>) {
    forall i, j :: 0 <= i < j < |versions| ==> !SameName(versions[i], versions[j])
  }

  /** While no recipe id holds a slash, the joined names repeat exactly if a recipe has two
      versions of one id. */
  lemma SlashFreeNamesDecide(versions: seq<RecipeVersion>)
    requires forall v :: v in versions ==> '/' !in v.recipe
    ensures DistinctNames(versions) <==>
      forall i, j :: 0 <= i < j < |versions| ==> versions[i].recipe != versions[j].recipe || versions[i].id != versions[j].id
  {
    forall i, j | 0 <= i < j < |versions|
      ensures SameName(versions[i], versions[j]) <==>
        versions[i].recipe == versions[j].recipe && versions[i].id == versions[j].id
    {
      SlashFreeNamesAreExact(versions[i].recipe, versions[i].id, versions[j].recipe, versions[j].id);
    }
    hide SameName;
  }

  /** Otherwise versions of two recipes can be refused as duplicates. */
  lemma SlashedNamesCollide(v: RecipeVersion)
    ensures var a, b := v.(recipe := "a/b", id := "c"), v.(recipe := "a", id := "b/c");
      a.recipe != b.recipe && !DistinctNames([a, b])
  {
    JoinedNamesCollide();
    assert "a/b"[1] == '/' && |"a/b"| != |"a"|;
    var a, b := v.(recipe := "a/b", id := "c"), v.(recipe := "a", id := "b/c");
    assert SameName([a, b][0], [a, b][1]);
  }

  ghost predicate AllValid(versions: seq<RecipeVersion>) {
    forall i :: 0 <= i < |versions| ==> Valid(versions[i])
  }

  /** One recipe's versions, ascending by the day they became public. The source's sort
      may leave versions of one instant in any order. */
  ghost predicate Arranged(versions: seq<RecipeVersion>, recipe: string, vs: seq<RecipeVersion>) {
    multiset(vs) == multiset(OfRecipe(versions, recipe)) && Sorted(ByKnown, vs)
  }

  /** The same without collisions. */
  ghost predicate Timeline(versions: seq<RecipeVersion>, recipe: string, vs: seq<RecipeVersion>) {
    Arranged(versions, recipe, vs) && Disjoint(vs)
  }

  ghost predicate Holds(store: Store, versions: seq<RecipeVersion>) {
    && (forall recipe :: recipe in store <==> OfRecipe(versions, recipe) != [])
    && (forall recipe :: recipe in store ==> Timeline(versions, recipe, store[recipe]))
  }

  /** Some way to sort a recipe's versions brings colliding neighbours together. */
  ghost predicate Collides(versions: seq<RecipeVersion>, recipe: string) {
    exists vs :: Arranged(versions, recipe, vs) && !Disjoint(vs)
  }

  /** The versions filed under their recipes, in the order given. */
  ghost predicate Grouped(byRecipe: Store, versions: seq<RecipeVersion>) {
    && (forall recipe :: recipe in byRecipe <==> OfRecipe(versions, recipe) != [])
    && (forall recipe :: recipe in byRecipe ==> byRecipe[recipe] == OfRecipe(versions, recipe))
  }

  lemma AppendGroups(byRecipe: Store, versions: seq<RecipeVersion>, v: RecipeVersion)
    requires Grouped(byRecipe, versions)
    ensures Grouped(Append(byRecipe, v), versions + [v])
  {
    hide OfRecipe;
    forall recipe {
      OfRecipeSnoc(versions, v, recipe);
    }
  }

  lemma OneMoreValid(versions: seq<RecipeVersion>, v: RecipeVersion)
    requires AllValid(versions) && DistinctNames(versions)
    ensures AllValid(versions + [v]) <==> Valid(v)
    ensures DistinctNames(versions + [v]) <==> forall k :: 0 <= k < |versions| ==> !SameName(versions[k], v)
  {
    hide Valid, SameName;
    var all := versions + [v];
    assert all[|versions|] == v && forall k :: 0 <= k < |versions| ==> all[k] == versions[k];
  }

  lemma PrefixOfValid(versions: seq<RecipeVersion>, i: nat)
    requires i <= |versions|
    ensures AllValid(versions) && DistinctNames(versions) ==> AllValid(versions[..i]) && DistinctNames(versions[..i])
  {
    hide Valid, SameName;
  }

  /** The first loop: validate, refuse repeated names, group by recipe. */
  method Group(versions: seq<RecipeVersion>) returns (r: Result<Store>)
    ensures r.Success? <==> AllValid(versions) && DistinctNames(versions)
    ensures r.Success? ==> Grouped(r.value, versions)
  {
    hide Valid, SameName, Grouped, AllValid, DistinctNames;
    var byRecipe: Store := map[];
    NoneGrouped();
    for i := 0 to |versions|
      invariant AllValid(versions[..i]) && DistinctNames(versions[..i])
      invariant Grouped(byRecipe, versions[..i])
    {
      var v := versions[i];
      assert versions[..i + 1] == versions[..i] + [v];
      OneMoreValid(versions[..i], v);
      PrefixOfValid(versions, i + 1);
      var ok := Validate(v);
      if !ok {
        return Failure(InvalidSeries);
      }
      if exists k :: 0 <= k < i && SameName(versions[k], v) {
        return Failure(InvalidSeries);
      }
      AppendGroups(byRecipe, versions[..i], v);
      byRecipe := Append(byRecipe, v);
    }
    assert versions[..|versions|] == versions;
    r := Success(byRecipe);
  }

  lemma NoneGrouped()
    ensures Grouped(map[], []) && AllValid([]) && DistinctNames([])
  {
  }

  /** NewVersionedRecipeStore: validates, groups, sorts and rejects collisions. */
  method NewVersionedRecipeStore(versions: seq<RecipeVersion>) returns (r: Result<Store>)
    ensures r.Success? ==> AllValid(versions) && DistinctNames(versions) && Holds(r.value, versions)
    ensures r.Failure? ==>
      (!AllValid(versions) || !DistinctNames(versions) || exists recipe :: Collides(versions, recipe))
  {
    hide AllValid, DistinctNames, Disjoint, Sorted, SortBy, OfRecipe;
    var grouped := Group(versions);
    if grouped.Failure? {
      return grouped;
    }
    var byRecipe := grouped.value;
    var sorted: Store := map[];
    var todo := byRecipe.Keys;
    while todo != {}
      invariant todo <= byRecipe.Keys && sorted.Keys == byRecipe.Keys - todo
      invariant forall recipe :: recipe in sorted ==> Timeline(versions, recipe, sorted[recipe])
      decreases todo
    {
      var recipe :| recipe in todo;
      var vs := SortBy(ByKnown, byRecipe[recipe]);
      SortSorts(ByKnown, byRecipe[recipe]);
      assert Arranged(versions, recipe, vs);
      if !Disjoint(vs) {
        assert Collides(versions, recipe);
        return Failure(InvalidSeries);
      }
      assert Timeline(versions, recipe, vs);
      sorted := sorted[recipe := vs];
      todo := todo - {recipe};
    }
    r := Success(sorted);
  }

  function Append(byRecipe: Store, v: RecipeVersion): Store {
    byRecipe[v.recipe := (if v.recipe in byRecipe then byRecipe[v.recipe] else []) + [v]]
  }

  lemma SameLast(a: seq<RecipeVersion>, b: seq<RecipeVersion>)
    requires multiset(a) == multiset(b) && a != [] && Sorted(ByKnown, b)
    requires forall i, j :: 0 <= i < j < |a| ==> a[i].known < a[j].known
    ensures b != [] && a[|a| - 1] == b[|b| - 1]
  {
    var x := a[|a| - 1];
    assert x in multiset(b);
    var j :| 0 <= j < |b| && b[j] == x;
    var y := b[|b| - 1];
    assert y in multiset(a);
    var i :| 0 <= i < |a| && a[i] == y;
    assert j < |b| - 1 ==> !Precedes(ByKnown, y, x);
  }

  lemma FrontOf(vs: seq<RecipeVersion>)
    requires vs != []
    ensures multiset(vs[..|vs| - 1]) == multiset(vs) - multiset{vs[|vs| - 1]}
  {
    assert vs == vs[..|vs| - 1] + [vs[|vs| - 1]];
  }

  lemma WithoutLast(a: seq<RecipeVersion>, b: seq<RecipeVersion>)
    requires multiset(a) == multiset(b) && a != [] && b != [] && a[|a| - 1] == b[|b| - 1]
    ensures multiset(a[..|a| - 1]) == multiset(b[..|b| - 1])
  {
    FrontOf(a);
    FrontOf(b);
  }

  /** Versions of different instants can be sorted in one way only. */
  lemma {:induction false} OneArrangement(a: seq<RecipeVersion>, b: seq<RecipeVersion>)
    requires multiset(a) == multiset(b) && Sorted(ByKnown, b)
    requires forall i, j :: 0 <= i < j < |a| ==> a[i].known < a[j].known
    ensures a == b
  {
    if a == [] {
      assert |multiset(b)| == 0;
    } else {
      SameLast(a, b);
      WithoutLast(a, b);
      var front, rest := a[..|a| - 1], b[..|b| - 1];
      OneArrangement(front, rest);
      assert a == front + [a[|a| - 1]] && b == rest + [a[|a| - 1]];
    }
  }

  /** Then whether a recipe is refused does not depend on the sort: it is refused exactly
      if the one arrangement collides. */
  lemma DistinctInstantsDecide(versions: seq<RecipeVersion>, recipe: string, vs: seq<RecipeVersion>)
    requires Arranged(versions, recipe, vs) && forall i, j :: 0 <= i < j < |vs| ==> vs[i].known != vs[j].known
    ensures Collides(versions, recipe) <==> !Disjoint(vs)
  {
    forall i, j | 0 <= i < j < |vs| ensures vs[i].known < vs[j].known {
      assert !Precedes(ByKnown, vs[j], vs[i]);
    }
    forall ws | Arranged(versions, recipe, ws) ensures ws == vs {
      OneArrangement(vs, ws);
    }
  }

  /** Two versions of one instant, the first a bounded one that the second runs into. */
  const BOUNDED := RecipeVersion("R", "v1", 20260101000000, 20260101000000, Some(20260301000000), BuyAndHold, [Leg("A", "", 1.0)], CodeDefined)
  const OPEN_ENDED := RecipeVersion("R", "v2", 20260101000000, 20260201000000, None, BuyAndHold, [Leg("A", "", 1.0)], CodeDefined)

  /** Both orders are sorted, and only one is refused: the source's answer hangs on how
      its sort leaves the tie. */
  lemma TiedInstantsCanBeEither()
    ensures AllValid([BOUNDED, OPEN_ENDED]) && DistinctNames([BOUNDED, OPEN_ENDED])
    ensures Timeline([BOUNDED, OPEN_ENDED], "R", [OPEN_ENDED, BOUNDED])
    ensures Arranged([BOUNDED, OPEN_ENDED], "R", [BOUNDED, OPEN_ENDED]) && !Disjoint([BOUNDED, OPEN_ENDED])
  {
    var vs := [BOUNDED, OPEN_ENDED];
    PairOfRecipe(BOUNDED, OPEN_ENDED);
    TiedPairIsValid();
    assert Overlap(vs[0], vs[1]);
    assert multiset([OPEN_ENDED, BOUNDED]) == multiset(vs);
    hide AllValid, DistinctNames, OfRecipe, BOUNDED, OPEN_ENDED;
  }

  lemma TiedPairIsValid()
    ensures AllValid([BOUNDED, OPEN_ENDED]) && DistinctNames([BOUNDED, OPEN_ENDED])
  {
    OneLegIsValid();
    SlashFreeNamesAreExact("R", "v1", "R", "v2");
    assert "v1"[1] != "v2"[1];
    assert !SameName(BOUNDED, OPEN_ENDED);
    hide Valid, SameName, BOUNDED, OPEN_ENDED;
  }

  lemma PairOfRecipe(a: RecipeVersion, b: RecipeVersion)
    requires a.recipe == b.recipe
    ensures OfRecipe([a, b], a.recipe) == [a, b]
  {
    assert [] + [a] == [a] && [a] + [b] == [a, b];
    OfRecipeSnoc([], a, a.recipe);
    OfRecipeSnoc([a], b, a.recipe);
  }

  lemma OneLegIsValid()
    ensures Valid(BOUNDED) && Valid(OPEN_ENDED)
  {
    assert [Leg("A", "", 1.0)][..0] == [];
  }

  // ---- what was public when ------------------------------------------------------------

  /** The last listed version known at the start. */
  function LastKnown(vs: seq<RecipeVersion>, start: int): Option<RecipeVersion> {
    if vs == [] then None
    else if vs[|vs| - 1].known <= start then Some(vs[|vs| - 1])
    else LastKnown(vs[..|vs| - 1], start)
  }

  function Selected(store: Store, recipe: string, start: int): Result<RecipeVersion> {
    if recipe !in store || LastKnown(store[recipe], start).None? then Failure(VersionUnavailable)
    else Success(LastKnown(store[recipe], start).value)
  }

  method SelectVersion(store: Store, recipe: string, start: int) returns (r: Result<RecipeVersion>)
    ensures r == Selected(store, recipe, start)
  {
    if recipe !in store || |store[recipe]| == 0 {
      return Failure(VersionUnavailable);
    }
    var vs := store[recipe];
    var chosen: Option<RecipeVersion> := None;
    for i := 0 to |vs|
      invariant chosen == LastKnown(vs[..i], start)
    {
      assert vs[..i + 1][..i] == vs[..i];
      if vs[i].known <= start {
        chosen := Some(vs[i]);
      }
    }
    assert vs[..|vs|] == vs;
    r := if chosen.None? then Failure(VersionUnavailable) else Success(chosen.value);
  }

  /** The newest version public at the start: none is newer, and none is chosen only when
      none was public. */
  ghost predicate IsNewest(versions: seq<RecipeVersion>, recipe: string, start: int, v: RecipeVersion) {
    && v in versions && v.recipe == recipe && v.known <= start
    && forall i :: 0 <= i < |versions| && versions[i].recipe == recipe && versions[i].known <= start ==> versions[i].known <= v.known
  }

  lemma {:induction false} LastKnownIsNewest(vs: seq<RecipeVersion>, start: int)
    requires Sorted(ByKnown, vs)
    ensures LastKnown(vs, start).None? <==> forall i :: 0 <= i < |vs| ==> vs[i].known > start
    ensures LastKnown(vs, start).Some? ==>
      var v := LastKnown(vs, start).value;
      && v in vs && v.known <= start
      && forall i :: 0 <= i < |vs| && vs[i].known <= start ==> vs[i].known <= v.known
  {
    if vs != [] {
      var n := |vs| - 1;
      assert forall i :: 0 <= i < n ==> vs[..n][i] == vs[i];
      LastKnownIsNewest(vs[..n], start);
      if vs[n].known <= start {
        forall i | 0 <= i < n ensures vs[i].known <= vs[n].known {
          assert !Precedes(ByKnown, vs[n], vs[i]);
        }
      }
    }
  }

  lemma {:induction false} OfRecipeMembers(versions: seq<RecipeVersion>, recipe: string, v: RecipeVersion)
    ensures v in OfRecipe(versions, recipe) <==> v in versions && v.recipe == recipe
  {
    if versions != [] {
      OfRecipeMembers(versions[..|versions| - 1], recipe, v);
      assert versions == versions[..|versions| - 1] + [versions[|versions| - 1]];
    }
  }

  lemma HoldsMembers(store: Store, versions: seq<RecipeVersion>, recipe: string, v: RecipeVersion)
    requires Holds(store, versions) && recipe in store
    ensures v in store[recipe] <==> v in versions && v.recipe == recipe
  {
    OfRecipeMembers(versions, recipe, v);
    assert Timeline(versions, recipe, store[recipe]);
    assert v in store[recipe] <==> v in multiset(store[recipe]);
    assert v in OfRecipe(versions, recipe) <==> v in multiset(OfRecipe(versions, recipe));
  }

  /** No look-ahead: selection from a built store is the newest version public at the start,
      and fails only when there is none. */
  lemma SelectsNewest(store: Store, versions: seq<RecipeVersion>, recipe: string, start: int)
    requires Holds(store, versions)
    ensures Selected(store, recipe, start).Success? ==>
      IsNewest(versions, recipe, start, Selected(store, recipe, start).value)
    ensures Selected(store, recipe, start).Failure? <==>
      forall v :: v in versions && v.recipe == recipe ==> v.known > start
  {
    if recipe in store {
      assert Timeline(versions, recipe, store[recipe]);
      LastKnownIsNewest(store[recipe], start);
      forall v ensures v in store[recipe] <==> v in versions && v.recipe == recipe {
        HoldsMembers(store, versions, recipe, v);
      }
    } else {
      forall v ensures !(v in versions && v.recipe == recipe) {
        OfRecipeMembers(versions, recipe, v);
      }
    }
  }

  // ---- versions made public during a window --------------------------------------------

  function Later(vs: seq<RecipeVersion>, first: string, start: int, end: int): seq<RecipeVersion> {
    if vs == [] then []
    else
      var rest := Later(vs[..|vs| - 1], first, start, end);
      var v := vs[|vs| - 1];
      if v.id != first && start < v.known <= end then rest + [v] else rest
  }

  function Relevant(store: Store, recipe: string, start: int, end: int): (r: Result<seq<RecipeVersion>>)
    ensures r.Success? ==> |r.value| > 0
  {
    var first :- Selected(store, recipe, start);
    Success(SortBy(ByKnownThenId, [first] + Later(store[recipe], first.id, start, end)))
  }

  method RelevantVersions(store: Store, recipe: string, start: int, end: int) returns (r: Result<seq<RecipeVersion>>)
    ensures r == Relevant(store, recipe, start, end)
  {
    var first := SelectVersion(store, recipe, start);
    if first.Failure? {
      return first.PropagateFailure();
    }
    var vs := store[recipe];
    var out := [first.value];
    for i := 0 to |vs|
      invariant out == [first.value] + Later(vs[..i], first.value.id, start, end)
    {
      assert vs[..i + 1][..i] == vs[..i];
      if vs[i].id != first.value.id {
        if vs[i].known > start && vs[i].known <= end {
          out := out + [vs[i]];
        }
      }
    }
    assert vs[..|vs|] == vs;
    r := Success(SortBy(ByKnownThenId, out));
  }

  lemma {:induction false} LaterMembers(vs: seq<RecipeVersion>, first: string, start: int, end: int, v: RecipeVersion)
    ensures v in Later(vs, first, start, end) <==> v in vs && v.id != first && start < v.known <= end
  {
    if vs != [] {
      LaterMembers(vs[..|vs| - 1], first, start, end, v);
      assert vs == vs[..|vs| - 1] + [vs[|vs| - 1]];
    }
  }

  /** The version known at the start comes first; after it, in public order, every version
      made public after the start and up to the end, and no other. */
  lemma RelevantIsTheWindow(store: Store, recipe: string, start: int, end: int)
    requires Relevant(store, recipe, start, end).Success?
    ensures var vs := Relevant(store, recipe, start, end).value;
      && vs[0] == Selected(store, recipe, start).value
      && Sorted(ByKnownThenId, vs)
      && (forall k :: 0 < k < |vs| ==> start < vs[k].known <= end && vs[k] in store[recipe])
      && (forall v :: v in store[recipe] && v.id != vs[0].id && start < v.known <= end ==> v in vs)
  {
    var first := Selected(store, recipe, start).value;
    var later := Later(store[recipe], first.id, start, end);
    var vs := Relevant(store, recipe, start, end).value;
    LastKnownListed(store[recipe], start);
    SortSorts(ByKnownThenId, [first] + later);
    forall v ensures v in later <==> v in store[recipe] && v.id != first.id && start < v.known <= end {
      LaterMembers(store[recipe], first.id, start, end, v);
    }
    assert multiset(vs) == multiset([first]) + multiset(later);
    FirstSortsFirst(vs, first, later, start);
    forall v | v in later ensures v in vs {
      assert v in multiset(vs);
    }
  }

  lemma {:induction false} LastKnownListed(vs: seq<RecipeVersion>, start: int)
    requires LastKnown(vs, start).Some?
    ensures LastKnown(vs, start).value in vs && LastKnown(vs, start).value.known <= start
  {
    if vs[|vs| - 1].known > start { LastKnownListed(vs[..|vs| - 1], start); }
  }

  lemma HeadIsFirst(vs: seq<RecipeVersion>, first: RecipeVersion, later: seq<RecipeVersion>, start: int)
    requires |vs| > 0 && Sorted(ByKnownThenId, vs) && multiset(vs) == multiset([first]) + multiset(later)
    requires first.known <= start && forall v :: v in later ==> start < v.known
    ensures vs[0] == first
  {
    assert first in multiset(vs);
    var j :| 0 <= j < |vs| && vs[j] == first;
    assert vs[0] in multiset(vs);
    assert j > 0 ==> !Precedes(ByKnownThenId, vs[j], vs[0]);
  }

  lemma TailOf(vs: seq<RecipeVersion>, later: seq<RecipeVersion>)
    requires vs != [] && multiset(vs) == multiset([vs[0]]) + multiset(later)
    ensures multiset(vs[1..]) == multiset(later)
  {
    assert vs == [vs[0]] + vs[1..];
    assert multiset(vs[1..]) == multiset(vs) - multiset{vs[0]};
  }

  lemma TailMembers(vs: seq<RecipeVersion>, later: seq<RecipeVersion>)
    requires vs != [] && multiset(vs[1..]) == multiset(later)
    ensures forall k :: 0 < k < |vs| ==> vs[k] in later
  {
    forall k | 0 < k < |vs| ensures vs[k] in later {
      assert vs[1..][k - 1] == vs[k];
      assert vs[k] in multiset(vs[1..]);
    }
  }

  lemma FirstSortsFirst(vs: seq<RecipeVersion>, first: RecipeVersion, later: seq<RecipeVersion>, start: int)
    requires |vs| > 0 && Sorted(ByKnownThenId, vs) && multiset(vs) == multiset([first]) + multiset(later)
    requires first.known <= start && forall v :: v in later ==> start < v.known
    ensures vs[0] == first && forall k :: 0 < k < |vs| ==> vs[k] in later
  {
    hide *;
    HeadIsFirst(vs, first, later, start);
    TailOf(vs, later);
    TailMembers(vs, later);
  }

  // ---- edges -------------------------------------------------------------------------------

  /** Ranges that meet at an instant do not collide, ranges that share one do. An open range
      collides only with one made public at the same instant that starts no earlier. */
  lemma TouchingRangesAreAccepted(before: RecipeVersion, after: RecipeVersion, meet: int)
    requires before.until == Some(meet)
    ensures after.from == meet ==> !Overlap(before, after)
    ensures after.from == meet - 1 ==> Overlap(before, after)
    ensures before.known != after.known ==> !Overlap(before.(until := None), after)
    ensures before.known == after.known && after.from == before.from ==> Overlap(before.(until := None), after)
    ensures after.from == before.from - 1 ==> !Overlap(before.(until := None), after)
  {
  }

  /** The last word on each field of a version that is otherwise in order. */
  lemma ValidityEdges(v: RecipeVersion, accession: string, url: string, day: int)
    requires Valid(v.(until := None, source := CodeDefined)) && accession != "" && url != ""
    ensures !Valid(v.(until := Some(v.from), source := CodeDefined)) && Valid(v.(until := Some(v.from + 1), source := CodeDefined))
    ensures Valid(v.(until := None, source := Filing13F(accession, url, Some(day), None)))
    ensures Valid(v.(until := None, source := Filing13F(accession, url, Some(day), Some(0.9))))
    ensures !Valid(v.(until := None, source := Filing13F(accession, url, Some(day), Some(0.8999))))
    ensures !Valid(v.(until := None, source := Filing13F("", url, Some(day), None)))
    ensures !Valid(v.(until := None, source := Filing13F(accession, "", Some(day), None)))
    ensures !Valid(v.(until := None, source := Filing13F(accession, url, None, None)))
    ensures !Valid(v.(until := None, source := CodeDefined, id := "")) && !Valid(v.(until := None, source := CodeDefined, recipe := ""))
    ensures !Valid(v.(until := None, source := CodeDefined, legs := []))
  {
    hide LegTotal, LegAllowed;
  }

  /** A single component of weight w is in order exactly with one of symbol and recipe, and
      within 0.0001 of 1, the bound itself excluded. */
  lemma OneLegEdges(v: RecipeVersion, leg: Leg)
    requires v.recipe != "" && v.id != "" && v.until == None && v.source == CodeDefined && v.legs == [leg]
    ensures Valid(v) <==> 0.9999 < leg.weight < 1.0001 && ((leg.symbol == "" && leg.recipe != "") || (leg.symbol != "" && leg.recipe == ""))
  {
    assert [leg][..0] == [] && LegTotal([leg]) == 0.0 + leg.weight;
  }
}
