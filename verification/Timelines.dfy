/** From the version store to the dated compositions a run uses. */
module Timelines {
  import opened Outcomes
  import opened Portfolio
  import opened Recipes
  import opened Flattening
  import opened IndexFormula
  import opened IndexRounding
  import opened Activation

  ghost function ResolveOne(store: Store, v: RecipeVersion): Result<Version>
    requires Keyed(store)
  {
    var flat :- Expand(store, v.known, v, 1.0, {});
    if Admitted(flat) then Success(Version(DayOf(v.known), v.policy, flat)) else Failure(InvalidWeights)
  }

  ghost function ResolveAll(store: Store, vs: seq<RecipeVersion>): (r: Result<seq<Version>>)
    requires Keyed(store)
    ensures r.Success? ==> |r.value| == |vs|
  {
    if vs == [] then Success([])
    else
      var before :- ResolveAll(store, vs[..|vs| - 1]);
      var last :- ResolveOne(store, vs[|vs| - 1]);
      Success(before + [last])
  }

  /** Only filing recipes keep the versions after the first. */
  function Kept(vs: seq<RecipeVersion>): seq<RecipeVersion>
    requires |vs| > 0
  {
    if vs[0].policy != FilingSnapshot then vs[..1] else vs
  }

  ghost function Resolve(store: Store, recipe: string, start: int, end: int): Result<seq<Version>>
    requires Keyed(store)
  {
    var vs :- Relevant(store, recipe, start, end);
    ResolveAll(store, Kept(vs))
  }

  lemma {:induction false} OneFailsAll(store: Store, vs: seq<RecipeVersion>, i: nat)
    requires Keyed(store) && i < |vs| && ResolveAll(store, vs[..i]).Success? && ResolveOne(store, vs[i]).Failure?
    ensures ResolveAll(store, vs) == Failure(ResolveOne(store, vs[i]).error)
  {
    if i < |vs| - 1 {
      assert vs[..|vs| - 1][..i] == vs[..i];
      OneFailsAll(store, vs[..|vs| - 1], i);
    }
  }

  /** resolveTimeline. */
  method ResolveTimeline(store: Store, recipe: string, start: int, end: int) returns (r: Result<seq<Version>>)
    requires Keyed(store)
    ensures r == Resolve(store, recipe, start, end)
  {
    hide Expand, Admitted, Relevant, ResolveOne, ResolveAll;
    var relevant := RelevantVersions(store, recipe, start, end);
    if relevant.Failure? {
      return relevant.PropagateFailure();
    }
    var versions := relevant.value;
    if versions[0].policy != FilingSnapshot {
      versions := versions[..1];
    }
    r := ResolveKept(store, versions);
  }

  /** Flattens and checks each version in turn, failing with the first that cannot be. */
  method ResolveKept(store: Store, versions: seq<RecipeVersion>) returns (r: Result<seq<Version>>)
    requires Keyed(store)
    ensures r == ResolveAll(store, versions)
  {
    hide Expand, Admitted;
    var out: seq<Version> := [];
    for i := 0 to |versions|
      invariant ResolveAll(store, versions[..i]) == Success(out)
    {
      assert versions[..i + 1][..i] == versions[..i];
      var flattener := new Flattener();
      var components := flattener.Flatten(store, versions[i].known, versions[i], 1.0);
      if components.Failure? {
        OneFailsAll(store, versions, i);
        return components.PropagateFailure();
      }
      var ok := ValidateWeights(components.value);
      if !ok {
        OneFailsAll(store, versions, i);
        return Failure(InvalidWeights);
      }
      out := out + [Version(DayOf(versions[i].known), versions[i].policy, components.value)];
    }
    assert versions[..|versions|] == versions;
    r := Success(out);
  }

  // ---- what a run may rely on ----------------------------------------------------------

  lemma BuiltStoresAreKeyed(store: Store, versions: seq<RecipeVersion>)
    requires Holds(store, versions)
    ensures Keyed(store)
  {
    forall recipe, v | recipe in store && v in store[recipe] ensures v.recipe == recipe {
      HoldsMembers(store, versions, recipe, v);
    }
  }

  lemma {:induction false} ResolvedAt(store: Store, vs: seq<RecipeVersion>, k: nat)
    requires Keyed(store) && k < |vs| && ResolveAll(store, vs).Success?
    ensures ResolveOne(store, vs[k]) == Success(ResolveAll(store, vs).value[k])
  {
    if k < |vs| - 1 { ResolvedAt(store, vs[..|vs| - 1], k); }
  }

  lemma ResolvedMeans(store: Store, v: RecipeVersion)
    requires Keyed(store) && ResolveOne(store, v).Success?
    ensures var t := ResolveOne(store, v).value;
      Distinct(t.components) && Admitted(t.components) && t.known == DayOf(v.known) && t.policy == v.policy
  {
    Merging.MergeMeans(ExpandLegs(store, v.known, v.legs, 1.0, {} + {v.recipe}).value, "");
    hide Admitted, Distinct, Merging.Merge, ExpandLegs;
  }

  lemma KeptInWindow(store: Store, recipe: string, start: int, end: int)
    requires Relevant(store, recipe, start, end).Success?
    ensures var vs := Kept(Relevant(store, recipe, start, end).value);
      && |vs| > 0 && vs[0].known <= start
      && (forall k :: 0 < k < |vs| ==> start < vs[k].known <= end)
      && (forall j, k :: 0 <= j < k < |vs| ==> vs[j].known <= vs[k].known)
  {
    RelevantIsTheWindow(store, recipe, start, end);
    LastKnownListed(store[recipe], start);
    var all := Relevant(store, recipe, start, end).value;
    forall j, k | 0 <= j < k < |all| ensures all[j].known <= all[k].known {
      assert !Precedes(ByKnownThenId, all[k], all[j]);
    }
  }

  /** A resolved timeline opens with a version public by the start; the others became public
      within the window and follow in that order; each names a symbol once and passes the
      weight check. */
  lemma TimelineIsSound(store: Store, recipe: string, start: int, end: int)
    requires Keyed(store) && Resolve(store, recipe, start, end).Success?
    ensures var timeline := Resolve(store, recipe, start, end).value;
      && |timeline| > 0 && InPublicOrder(timeline) && timeline[0].known <= DayOf(start)
      && (forall k :: 0 < k < |timeline| ==> DayOf(start) <= timeline[k].known <= DayOf(end))
      && (forall k :: 0 <= k < |timeline| ==> Distinct(timeline[k].components) && Admitted(timeline[k].components))
  {
    var vs := Kept(Relevant(store, recipe, start, end).value);
    var timeline := Resolve(store, recipe, start, end).value;
    KeptInWindow(store, recipe, start, end);
    hide Relevant, Distinct, Admitted, ResolveOne;
    forall k | 0 <= k < |timeline|
      ensures Distinct(timeline[k].components) && Admitted(timeline[k].components) && timeline[k].known == DayOf(vs[k].known)
    {
      ResolvedAt(store, vs, k);
      ResolvedMeans(store, vs[k]);
    }
  }

  /** Only a filing recipe resolves to more than one version. */
  lemma OneVersionUnlessFiling(store: Store, recipe: string, start: int, end: int)
    requires Keyed(store) && Resolve(store, recipe, start, end).Success?
    ensures var timeline := Resolve(store, recipe, start, end).value;
      |timeline| > 0 && (timeline[0].policy != FilingSnapshot ==> |timeline| == 1)
  {
    hide ResolveOne, Keyed;
    var vs := Kept(Relevant(store, recipe, start, end).value);
    ResolvedAt(store, vs, 0);
    ResolvedMeans(store, vs[0]);
  }

  // ---- a longer window -----------------------------------------------------------------

  function UpTo(vs: seq<RecipeVersion>, end: int): seq<RecipeVersion> {
    if vs == [] then []
    else
      var rest := UpTo(vs[..|vs| - 1], end);
      if vs[|vs| - 1].known <= end then rest + [vs[|vs| - 1]] else rest
  }

  lemma UpToSnoc(vs: seq<RecipeVersion>, v: RecipeVersion, end: int)
    ensures UpTo(vs + [v], end) == UpTo(vs, end) + if v.known <= end then [v] else []
  {
    assert (vs + [v])[..|vs|] == vs;
  }

  lemma UpToTakes(vs: seq<RecipeVersion>, v: RecipeVersion, end: int)
    requires v.known <= end
    ensures UpTo(vs + [v], end) == UpTo(vs, end) + [v]
  {
    UpToSnoc(vs, v, end);
  }

  lemma UpToDrops(vs: seq<RecipeVersion>, v: RecipeVersion, end: int)
    requires v.known > end
    ensures UpTo(vs + [v], end) == UpTo(vs, end)
  {
    UpToSnoc(vs, v, end);
  }

  lemma {:induction false} InsertUpTo(vs: seq<RecipeVersion>, v: RecipeVersion, end: int)
    ensures UpTo(Insert(ByKnownThenId, vs, v), end) ==
      if v.known <= end then Insert(ByKnownThenId, UpTo(vs, end), v) else UpTo(vs, end)
  {
    if vs == [] {
      UpToSnoc([], v, end);
    } else {
      var front, last := vs[..|vs| - 1], vs[|vs| - 1];
      assert vs == front + [last];
      hide *;
      InsertUpTo(front, v, end);
      if Precedes(ByKnownThenId, v, last) {
        PlacedBefore(front, last, v, end);
      } else {
        PlacedAfter(front, last, v, end);
      }
    }
  }

  lemma PlacedBefore(front: seq<RecipeVersion>, last: RecipeVersion, v: RecipeVersion, end: int)
    requires Precedes(ByKnownThenId, v, last)
    requires UpTo(Insert(ByKnownThenId, front, v), end) ==
      if v.known <= end then Insert(ByKnownThenId, UpTo(front, end), v) else UpTo(front, end)
    ensures UpTo(Insert(ByKnownThenId, front + [last], v), end) ==
      if v.known <= end then Insert(ByKnownThenId, UpTo(front + [last], end), v) else UpTo(front + [last], end)
  {
    hide *;
    PrecedesByDay(v, last);
    InsertAfter(front, last, v);
    if last.known <= end {
      UpToTakes(Insert(ByKnownThenId, front, v), last, end);
      UpToTakes(front, last, end);
      InsertAfter(UpTo(front, end), last, v);
    } else {
      UpToDrops(Insert(ByKnownThenId, front, v), last, end);
      UpToDrops(front, last, end);
    }
  }

  lemma PlacedAfter(front: seq<RecipeVersion>, last: RecipeVersion, v: RecipeVersion, end: int)
    requires !Precedes(ByKnownThenId, v, last)
    ensures UpTo(Insert(ByKnownThenId, front + [last], v), end) ==
      if v.known <= end then Insert(ByKnownThenId, UpTo(front + [last], end), v) else UpTo(front + [last], end)
  {
    hide *;
    PrecedesByDay(v, last);
    InsertAfter(front, last, v);
    if v.known <= end {
      UpToTakes(front, last, end);
      UpToTakes(front + [last], v, end);
      InsertAfter(UpTo(front, end), last, v);
    } else {
      UpToDrops(front + [last], v, end);
    }
  }

  lemma PrecedesByDay(a: RecipeVersion, b: RecipeVersion)
    ensures if Precedes(ByKnownThenId, a, b) then a.known <= b.known else b.known <= a.known
  {
  }

  lemma InsertAfter(front: seq<RecipeVersion>, last: RecipeVersion, v: RecipeVersion)
    ensures Insert(ByKnownThenId, front + [last], v) ==
      if Precedes(ByKnownThenId, v, last) then Insert(ByKnownThenId, front, v) + [last] else front + [last] + [v]
  {
    assert (front + [last])[..|front|] == front;
  }

  lemma {:induction false} SortUpTo(vs: seq<RecipeVersion>, end: int)
    ensures UpTo(SortBy(ByKnownThenId, vs), end) == SortBy(ByKnownThenId, UpTo(vs, end))
  {
    if vs != [] {
      var front, last := vs[..|vs| - 1], vs[|vs| - 1];
      SortUpTo(front, end);
      InsertUpTo(SortBy(ByKnownThenId, front), last, end);
      var kept := UpTo(front, end);
      assert (kept + [last])[..|kept|] == kept;
    }
  }

  lemma {:induction false} UpToIsAPrefix(vs: seq<RecipeVersion>, end: int)
    requires Sorted(ByKnownThenId, vs)
    ensures UpTo(vs, end) <= vs
    ensures forall k :: |UpTo(vs, end)| <= k < |vs| ==> vs[k].known > end
  {
    if vs != [] {
      var n := |vs| - 1;
      UpToIsAPrefix(vs[..n], end);
      var m := |UpTo(vs[..n], end)|;
      assert m < n ==> vs[m] == vs[..n][m] && !Precedes(ByKnownThenId, vs[n], vs[m]);
    }
  }

  lemma {:induction false} LaterUpTo(vs: seq<RecipeVersion>, first: RecipeVersion, start: int, near: int, far: int)
    requires near <= far && first.known <= near
    ensures UpTo([first] + Later(vs, first.id, start, far), near) == [first] + Later(vs, first.id, start, near)
  {
    if vs == [] {
      UpToSnoc([], first, near);
      assert [] + [first] == [first] + [];
    } else {
      var front, v := vs[..|vs| - 1], vs[|vs| - 1];
      LaterUpTo(front, first, start, near, far);
      var before := [first] + Later(front, first.id, start, far);
      UpToSnoc(before, v, near);
      assert before + [v] == [first] + (Later(front, first.id, start, far) + [v]);
      assert [first] + (Later(front, first.id, start, near) + [v]) == [first] + Later(front, first.id, start, near) + [v];
    }
  }

  /** Asking for a later end only adds versions made public after the nearer one. */
  lemma LongerWindowExtends(store: Store, recipe: string, start: int, near: int, far: int)
    requires start <= near <= far && Relevant(store, recipe, start, far).Success?
    ensures Relevant(store, recipe, start, near).Success?
    ensures var a, b := Relevant(store, recipe, start, near).value, Relevant(store, recipe, start, far).value;
      a <= b && forall k :: |a| <= k < |b| ==> b[k].known > near
  {
    var first := Selected(store, recipe, start).value;
    var all := [first] + Later(store[recipe], first.id, start, far);
    LastKnownListed(store[recipe], start);
    LaterUpTo(store[recipe], first, start, near, far);
    SortUpTo(all, near);
    SortSorts(ByKnownThenId, all);
    UpToIsAPrefix(SortBy(ByKnownThenId, all), near);
  }

  lemma {:induction false} ResolvePrefix(store: Store, vs: seq<RecipeVersion>, n: nat)
    requires Keyed(store) && n <= |vs| && ResolveAll(store, vs).Success?
    ensures ResolveAll(store, vs[..n]) == Success(ResolveAll(store, vs).value[..n])
  {
    hide ResolveOne;
    if n < |vs| {
      var front := vs[..|vs| - 1];
      ResolvePrefix(store, front, n);
      assert front[..n] == vs[..n];
      var all := ResolveAll(store, vs).value;
      assert all[..|front|] == ResolveAll(store, front).value;
      assert all[..|front|][..n] == all[..n];
    } else {
      assert vs[..n] == vs;
      assert n == |vs| ==> ResolveAll(store, vs).value[..n] == ResolveAll(store, vs).value;
    }
  }

  lemma ResolvesKept(store: Store, recipe: string, start: int, end: int)
    requires Keyed(store)
    ensures var vs := Relevant(store, recipe, start, end);
      && (vs.Failure? ==> Resolve(store, recipe, start, end) == Failure(vs.error))
      && (vs.Success? ==> |vs.value| > 0)
      && (vs.Success? ==> Resolve(store, recipe, start, end) == ResolveAll(store, Kept(vs.value)))
  {
    if Relevant(store, recipe, start, end).Success? { RelevantIsTheWindow(store, recipe, start, end); }
    hide Relevant, ResolveAll, Kept;
  }

  lemma KeptExtends(vs: seq<RecipeVersion>, ws: seq<RecipeVersion>, near: int)
    requires 0 < |vs| && vs <= ws && forall k :: |vs| <= k < |ws| ==> ws[k].known > near
    ensures Kept(vs) <= Kept(ws) && |Kept(vs)| > 0
    ensures forall k :: |Kept(vs)| <= k < |Kept(ws)| ==> DayOf(Kept(ws)[k].known) >= DayOf(near)
  {
  }

  /** So two windows from one start agree on every version public before any day of the
      nearer one; a later end adds versions, and only later ones. */
  lemma LongerWindowKnowsAsMuch(store: Store, recipe: string, start: int, near: int, far: int, day: int)
    requires Keyed(store) && start <= near <= far && day <= DayOf(near)
    requires Resolve(store, recipe, start, far).Success?
    ensures Resolve(store, recipe, start, near).Success?
    ensures var a, b := Resolve(store, recipe, start, near).value, Resolve(store, recipe, start, far).value;
      && |a| > 0 && a <= b
      && forall k :: |a| <= k < |b| ==> b[k].known >= day
  {
    ResolvesKept(store, recipe, start, far);
    LongerWindowExtends(store, recipe, start, near, far);
    ResolvesKept(store, recipe, start, near);
    hide *;
    KeptExtends(Relevant(store, recipe, start, near).value, Relevant(store, recipe, start, far).value, near);
    var vs, ws := Kept(Relevant(store, recipe, start, near).value), Kept(Relevant(store, recipe, start, far).value);
    ResolvePrefix(store, ws, |vs|);
    assert ws[..|vs|] == vs;
    KnownAsListed(store, ws);
  }

  lemma KnownAsListed(store: Store, vs: seq<RecipeVersion>)
    requires Keyed(store) && ResolveAll(store, vs).Success?
    ensures var b := ResolveAll(store, vs).value; |b| == |vs| && forall k :: 0 <= k < |b| ==> b[k].known == DayOf(vs[k].known)
  {
    hide ResolveAll, ResolveOne, Keyed;
    var b := ResolveAll(store, vs).value;
    forall k | 0 <= k < |b| ensures b[k].known == DayOf(vs[k].known) {
      ResolvedAt(store, vs, k);
      ResolvedMeans(store, vs[k]);
    }
  }
}
