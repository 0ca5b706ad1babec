/** When filed versions take effect during a run. */
module Activation {
  import opened Outcomes
  import opened Portfolio
  import opened IndexFormula
  import opened IndexCausality

  /** Versions in the order they became public. */
  ghost predicate InPublicOrder(timeline: seq<Version>) {
    forall j, k :: 0 <= j < k < |timeline| ==> timeline[j].known <= timeline[k].known
  }

  /** How many versions after the first were public before the date. */
  function Due(timeline: seq<Version>, date: int): (n: nat)
    requires |timeline| > 0
    ensures n < |timeline|
  {
    if |timeline| == 1 then 0
    else Due(timeline[..|timeline| - 1], date) + if timeline[|timeline| - 1].known < date then 1 else 0
  }

  /** In public order, the due versions are the first ones. */
  lemma {:induction false} DueIsAPrefix(timeline: seq<Version>, date: int, k: nat)
    requires InPublicOrder(timeline) && 0 < k < |timeline|
    ensures k <= Due(timeline, date) <==> timeline[k].known < date
  {
    var n := |timeline| - 1;
    var front := timeline[..n];
    assert InPublicOrder(front);
    if k < n {
      DueIsAPrefix(front, date, k);
      if timeline[n].known < date {
        assert timeline[k].known <= timeline[n].known;
      }
    } else if n > 1 {
      DueIsAPrefix(front, date, n - 1);
      assert timeline[n - 1].known <= timeline[n].known;
    }
  }

  function FirstNumbers(n: nat): seq<nat> {
    if n == 0 then [] else FirstNumbers(n - 1) + [n - 1]
  }

  /** Versions take effect one a date, in order, each once. */
  lemma {:induction false} ActivatesInOrder(req: Request, i: nat, r: Progress)
    requires |req.timeline| > 0 && i < |req.dates| && RunTo(req, i) == Success(r)
    ensures r.next == Active(req, i) && r.activations == FirstNumbers(r.next)
  {
    hide *;
    if i == 0 {
      OpensInOrder(req, r);
    } else {
      RunUnfolds(req, i);
      var before := RunTo(req, i - 1).value;
      ActivatesInOrder(req, i - 1, before);
      ScheduleAgrees(req, i, before);
      CloseActivates(req, before, i);
      OneMoreNumber(before.next);
    }
  }

  lemma OneMoreNumber(n: nat)
    ensures FirstNumbers(n + 1) == FirstNumbers(n) + [n]
  {
  }

  lemma OpensInOrder(req: Request, r: Progress)
    requires |req.timeline| > 0 && |req.dates| > 0 && RunTo(req, 0) == Success(r)
    ensures r.next == Active(req, 0) && r.activations == FirstNumbers(r.next)
  {
    hide Units, Allocatable;
    assert FirstNumbers(1) == [0];
  }

  lemma CloseActivates(req: Request, r: Progress, i: nat)
    requires Started(req, r) && i < |req.dates| && Close(req, r, i).Success?
    ensures var c := Close(req, r, i).value;
      if Activates(req, r, i) then c.next == r.next + 1 && c.activations == r.activations + [r.next]
      else c.next == r.next && c.activations == r.activations
  {
    hide ValueAt, Units, Allocatable, Rebalances, Activates;
  }

  /** One date's activation: the next version, if it is due. */
  lemma ActiveCatchesUp(req: Request, i: nat)
    requires |req.timeline| > 0 && InPublicOrder(req.timeline) && 0 < i < |req.dates|
    requires req.timeline[0].policy == FilingSnapshot
    ensures Active(req, i) - 1 ==
      if Active(req, i - 1) <= Due(req.timeline, req.dates[i]) then Active(req, i - 1) else Active(req, i - 1) - 1
  {
    var next := Active(req, i - 1);
    if next < |req.timeline| {
      DueIsAPrefix(req.timeline, req.dates[i], next);
    }
  }

  /** Nothing takes effect before the day after it became public. */
  lemma {:induction false} NeverEarly(req: Request, i: nat)
    requires |req.timeline| > 0 && InPublicOrder(req.timeline) && Ascending(req.dates) && 0 < i < |req.dates|
    requires req.timeline[0].policy == FilingSnapshot
    ensures Active(req, i) - 1 <= Due(req.timeline, req.dates[i])
  {
    ActiveCatchesUp(req, i);
    if i > 1 {
      NeverEarly(req, i - 1);
      DueGrows(req.timeline, req.dates[i - 1], req.dates[i]);
    }
  }

  lemma {:induction false} DueGrows(timeline: seq<Version>, a: int, b: int)
    requires |timeline| > 0 && a <= b
    ensures Due(timeline, a) <= Due(timeline, b)
  {
    if |timeline| > 1 { DueGrows(timeline[..|timeline| - 1], a, b); }
  }

  /** At most one version is newly due. The first date that can activate one is at index 1. */
  predicate OneNewlyDue(req: Request, i: nat)
    requires |req.timeline| > 0 && 0 < i < |req.dates|
  {
    Due(req.timeline, req.dates[i]) <= (if i == 1 then 0 else Due(req.timeline, req.dates[i - 1])) + 1
  }

  ghost predicate OneAtATime(req: Request, n: nat)
    requires |req.timeline| > 0 && n < |req.dates|
  {
    forall i :: 0 < i <= n ==> OneNewlyDue(req, i)
  }

  /** Every version is in effect from the first date after its public day. */
  ghost predicate Prompt(req: Request, n: nat)
    requires |req.timeline| > 0 && n < |req.dates|
  {
    forall i :: 0 < i <= n ==> Active(req, i) - 1 == Due(req.timeline, req.dates[i])
  }

  lemma PromptOneMore(req: Request, n: nat)
    requires |req.timeline| > 0 && 0 < n < |req.dates|
    ensures Prompt(req, n) <==> (Prompt(req, n - 1) && Active(req, n) - 1 == Due(req.timeline, req.dates[n]))
    ensures OneAtATime(req, n) <==> (OneAtATime(req, n - 1) && OneNewlyDue(req, n))
  {
    hide Active, Due, OneNewlyDue;
  }

  /** Filings are prompt exactly when no date has more than one of them newly due. */
  lemma {:induction false} PromptExactly(req: Request, n: nat)
    requires |req.timeline| > 0 && InPublicOrder(req.timeline) && Ascending(req.dates) && n < |req.dates|
    requires req.timeline[0].policy == FilingSnapshot
    ensures Prompt(req, n) <==> OneAtATime(req, n)
  {
    if n > 0 {
      PromptExactly(req, n - 1);
      PromptOneMore(req, n);
      ActiveCatchesUp(req, n);
      NeverEarly(req, n);
      if n > 1 {
        PromptOneMore(req, n - 1);
        NeverEarly(req, n - 1);
        DueGrows(req.timeline, req.dates[n - 1], req.dates[n]);
      }
      hide Prompt, OneAtATime, Due;
    }
  }

  // ---- two filings at once -----------------------------------------------------------

  /** Two filings become public between the same two dates. */
  const WEEKEND := Request(
    [Version(1, FilingSnapshot, []), Version(12, FilingSnapshot, []), Version(15, FilingSnapshot, [])],
    [10, 20, 30], map[], 30, EXACT)

  /** The first date after them activates only the earlier one; the later one waits for
      the date after, although it was public in time. */
  lemma SecondFilingWaits()
    ensures InPublicOrder(WEEKEND.timeline) && Ascending(WEEKEND.dates) && WEEKEND.timeline[0].policy == FilingSnapshot
    ensures Due(WEEKEND.timeline, 20) == 2 && Active(WEEKEND, 1) - 1 == 1
    ensures Due(WEEKEND.timeline, 30) == 2 && Active(WEEKEND, 2) - 1 == 2
    ensures !Prompt(WEEKEND, 1) && !OneNewlyDue(WEEKEND, 1)
  {
    var t := WEEKEND.timeline;
    assert t[..2][..1] == t[..1] && |t[..2]| == 2;
    forall date ensures Due(t, date) == (if 12 < date then 1 else 0) + (if 15 < date then 1 else 0) {
      assert Due(t[..1], date) == 0;
      assert Due(t[..2], date) == Due(t[..1], date) + (if t[..2][1].known < date then 1 else 0);
    }
    assert Active(WEEKEND, 0) == 1;
    assert Active(WEEKEND, 1) == 2;
  }
}
