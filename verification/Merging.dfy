/** Merging repeated symbols: one component a symbol, in order of first appearance. */
module Merging {
  import opened Portfolio
  import opened IndexFormula

  function WeightOf(components: seq<Component>, symbol: string): real {
    if components == [] then 0.0
    else
      var c := components[|components| - 1];
      WeightOf(components[..|components| - 1], symbol) + if c.symbol == symbol then c.weight else 0.0
  }

  /** The symbols in the order they first appear. */
  function FirstSeen(components: seq<Component>): seq<string> {
    if components == [] then []
    else
      var before := FirstSeen(components[..|components| - 1]);
      var s := components[|components| - 1].symbol;
      if s in before then before else before + [s]
  }

  function Gather(order: seq<string>, components: seq<Component>): seq<Component> {
    if order == [] then []
    else
      var s := order[|order| - 1];
      Gather(order[..|order| - 1], components) + [Component(s, WeightOf(components, s))]
  }

  function Merge(components: seq<Component>): seq<Component> {
    Gather(FirstSeen(components), components)
  }

  /** mergeDuplicateSymbols. */
  method MergeDuplicateSymbols(components: seq<Component>) returns (out: seq<Component>)
    ensures out == Merge(components)
  {
    var merged: map<string, real> := map[];
    var order: seq<string> := [];
    for i := 0 to |components|
      invariant order == FirstSeen(components[..i])
      invariant forall s :: s in merged <==> s in order
      invariant forall s :: s in merged ==> merged[s] == WeightOf(components[..i], s)
    {
      var c := components[i];
      ghost var before := components[..i];
      assert components[..i + 1] == before + [c] && components[..i + 1][..i] == before;
      if c.symbol !in merged {
        UnseenWeighsNothing(before, c.symbol);
        order := order + [c.symbol];
        merged := merged[c.symbol := 0.0];
      }
      merged := merged[c.symbol := merged[c.symbol] + c.weight];
    }
    assert components[..|components|] == components;
    out := [];
    for k := 0 to |order|
      invariant out == Gather(order[..k], components)
    {
      assert order[..k + 1][..k] == order[..k];
      out := out + [Component(order[k], merged[order[k]])];
    }
    assert order[..|order|] == order;
  }

  lemma {:induction false} UnseenWeighsNothing(components: seq<Component>, s: string)
    requires s !in FirstSeen(components)
    ensures WeightOf(components, s) == 0.0
  {
    if components != [] { UnseenWeighsNothing(components[..|components| - 1], s); }
  }

  ghost predicate NoRepeats(order: seq<string>) {
    forall i, j :: 0 <= i < j < |order| ==> order[i] != order[j]
  }

  lemma {:induction false} FirstSeenOnce(components: seq<Component>)
    ensures NoRepeats(FirstSeen(components))
  {
    if components != [] { FirstSeenOnce(components[..|components| - 1]); }
  }

  lemma {:induction false} GatherSymbols(order: seq<string>, components: seq<Component>)
    ensures |Gather(order, components)| == |order|
    ensures forall k :: 0 <= k < |order| ==> Gather(order, components)[k].symbol == order[k]
  {
    if order != [] { GatherSymbols(order[..|order| - 1], components); }
  }

  lemma {:induction false} GatherWeights(order: seq<string>, components: seq<Component>, s: string)
    requires NoRepeats(order)
    ensures WeightOf(Gather(order, components), s) == if s in order then WeightOf(components, s) else 0.0
  {
    if order != [] {
      var n := |order| - 1;
      GatherWeights(order[..n], components, s);
      assert order == order[..n] + [order[n]];
      var all := Gather(order, components);
      assert all[..|all| - 1] == Gather(order[..n], components);
      if order[n] == s { assert s !in order[..n]; }
    }
  }

  /** One more component adds its weight to its symbol, wherever that is in the order. */
  lemma {:induction false} GatherOneMore(order: seq<string>, components: seq<Component>, c: Component)
    requires NoRepeats(order)
    ensures TotalWeight(Gather(order, components + [c])) ==
      TotalWeight(Gather(order, components)) + if c.symbol in order then c.weight else 0.0
  {
    assert (components + [c])[..|components|] == components;
    if order != [] {
      var n := |order| - 1;
      GatherOneMore(order[..n], components, c);
      var a, b := Gather(order, components), Gather(order, components + [c]);
      assert a[..|a| - 1] == Gather(order[..n], components) && b[..|b| - 1] == Gather(order[..n], components + [c]);
      assert order == order[..n] + [order[n]];
      if order[n] == c.symbol { assert c.symbol !in order[..n]; }
    }
  }

  lemma {:induction false} MergeKeepsTotal(components: seq<Component>)
    ensures TotalWeight(Merge(components)) == TotalWeight(components)
  {
    if components != [] {
      var front, c := components[..|components| - 1], components[|components| - 1];
      assert components == front + [c];
      MergeKeepsTotal(front);
      FirstSeenOnce(front);
      var order := FirstSeen(front);
      GatherOneMore(order, front, c);
      if c.symbol !in order {
        UnseenWeighsNothing(front, c.symbol);
        assert (order + [c.symbol])[..|order|] == order;
        var all := Gather(order + [c.symbol], components);
        assert all[..|all| - 1] == Gather(order, components);
      }
    }
  }

  /** No symbol repeats, each keeps its whole weight, and the total stays. */
  lemma MergeMeans(components: seq<Component>, s: string)
    ensures Distinct(Merge(components))
    ensures WeightOf(Merge(components), s) == WeightOf(components, s)
    ensures TotalWeight(Merge(components)) == TotalWeight(components)
  {
    FirstSeenOnce(components);
    GatherSymbols(FirstSeen(components), components);
    GatherWeights(FirstSeen(components), components, s);
    if s !in FirstSeen(components) { UnseenWeighsNothing(components, s); }
    MergeKeepsTotal(components);
  }

  lemma {:induction false} WeightOfAppends(a: seq<Component>, b: seq<Component>, s: string)
    ensures WeightOf(a + b, s) == WeightOf(a, s) + WeightOf(b, s)
    ensures TotalWeight(a + b) == TotalWeight(a) + TotalWeight(b)
  {
    if b == [] {
      assert a + b == a;
    } else {
      WeightOfAppends(a, b[..|b| - 1], s);
      assert (a + b)[..|a + b| - 1] == a + b[..|b| - 1];
    }
  }

  // ---- the order kept ----------------------------------------------------------------------

  /** Both symbols occur, the first of them before the other ever does. */
  ghost predicate AppearsFirst(components: seq<Component>, s: string, t: string) {
    exists a :: 0 <= a < |components| && components[a].symbol == s && forall b :: 0 <= b <= a ==> components[b].symbol != t
  }

  lemma {:induction false} FirstSeenFirst(components: seq<Component>, i: nat, j: nat)
    requires i < j < |FirstSeen(components)|
    ensures AppearsFirst(components, FirstSeen(components)[i], FirstSeen(components)[j])
  {
    var n := |components| - 1;
    var front, order := components[..n], FirstSeen(components);
    var before := FirstSeen(front);
    if j < |before| {
      FirstSeenFirst(front, i, j);
      var a :| 0 <= a < |front| && front[a].symbol == before[i] && forall b :: 0 <= b <= a ==> front[b].symbol != before[j];
      assert components[a] == front[a] && forall b :: 0 <= b <= a ==> components[b] == front[b];
    } else {
      SeenOccurs(front, before[i]);
      var a :| 0 <= a < |front| && front[a].symbol == before[i];
      forall b | 0 <= b <= a ensures components[b].symbol != order[j] {
        OccursSeen(front, b);
      }
      assert components[a] == front[a];
    }
  }

  lemma {:induction false} SeenOccurs(components: seq<Component>, s: string)
    requires s in FirstSeen(components)
    ensures exists a :: 0 <= a < |components| && components[a].symbol == s
  {
    var n := |components| - 1;
    if s in FirstSeen(components[..n]) {
      SeenOccurs(components[..n], s);
      var a :| 0 <= a < n && components[..n][a].symbol == s;
      assert components[a].symbol == s;
    } else {
      assert components[n].symbol == s;
    }
  }

  lemma {:induction false} OccursSeen(components: seq<Component>, b: nat)
    requires b < |components|
    ensures components[b].symbol in FirstSeen(components)
  {
    if b < |components| - 1 { OccursSeen(components[..|components| - 1], b); }
  }

  /** Merged symbols stand in the order of their first appearance. */
  lemma MergeKeepsOrder(components: seq<Component>, i: nat, j: nat)
    requires i < j < |Merge(components)|
    ensures AppearsFirst(components, Merge(components)[i].symbol, Merge(components)[j].symbol)
  {
    GatherNames(FirstSeen(components), components);
    FirstSeenFirst(components, i, j);
    hide AppearsFirst, FirstSeen;
  }

  lemma {:induction false} GatherNames(order: seq<string>, components: seq<Component>)
    ensures |Gather(order, components)| == |order|
    ensures forall k :: 0 <= k < |order| ==> Gather(order, components)[k].symbol == order[k]
  {
    if order != [] { GatherNames(order[..|order| - 1], components); }
  }
}
