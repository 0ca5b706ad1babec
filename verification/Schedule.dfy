/** Editions along their schedule: the transition table, the scheduler's tick, and who
    may still come or go. */
module Schedule {
  import opened OrderedIds
  import opened Lifecycles
  import opened Outcomes

  datatype Edition = Edition(
    lifecycle: Lifecycle, joinOpens: Option<int>, joinCloses: Option<int>, startsAt: int, endsAt: int)

  // ---- the transition table ----------------------------------------------------------

  function NextStates(from: Lifecycle): set<Lifecycle> {
    match from
    case Legacy => {}
    case Draft => {Published, Cancelled}
    case Published => {RegistrationOpen, Cancelled}
    case RegistrationOpen => {RegistrationClosed, Cancelled}
    case RegistrationClosed => {Lifecycle.Active, Cancelled}
    case Active => {Finalizing, Cancelled}
    case Finalizing => {Lifecycle.Completed, Cancelled}
    case Completed => {}
    case Cancelled => {}
  }

  /** The guarded transition: the move must be in the table and the edition must still
      be where the caller thinks it is. */
  function Transition(e: Edition, from: Lifecycle, to: Lifecycle): Result<Edition> {
    if to !in NextStates(from) || e.lifecycle != from then Failure(LifecycleConflict)
    else Success(e.(lifecycle := to))
  }

  // ---- the tick ------------------------------------------------------------------------

  /** The scheduler's four moves, in the order it sweeps them. */
  datatype Move = Move(from: Lifecycle, to: Lifecycle)

  const MOVES: seq<Move> := [
    Move(Published, RegistrationOpen),
    Move(RegistrationOpen, RegistrationClosed),
    Move(RegistrationClosed, Lifecycle.Active),
    Move(Lifecycle.Active, Finalizing)
  ]

  function DueAt(e: Edition, m: Move): Option<int> {
    match m.from
    case Published => e.joinOpens
    case RegistrationOpen => e.joinCloses
    case RegistrationClosed => Some(e.startsAt)
    case Active => Some(e.endsAt)
    case _ => None
  }

  function ApplyMove(e: Edition, m: Move, now: int): Edition {
    if e.lifecycle == m.from && DueAt(e, m).Some? && DueAt(e, m).value <= now then e.(lifecycle := m.to) else e
  }

  /** The first n moves, of which some fail and leave the edition where it is. */
  function ApplyMoves(e: Edition, n: nat, now: int, failed: set<nat>): Edition
    requires n <= |MOVES|
  {
    if n == 0 then e
    else
      var before := ApplyMoves(e, n - 1, now, failed);
      if n - 1 in failed then before else ApplyMove(before, MOVES[n - 1], now)
  }

  /** A tick in which everything goes through. */
  function Tick(e: Edition, now: int): Edition {
    ApplyMoves(e, |MOVES|, now, {})
  }

  /** The transitions the repository refuses during one tick, as edition and move. */
  type Faults = set<(nat, nat)>

  function FaultsOf(faults: Faults, id: nat): set<nat> {
    set n | 0 <= n < |MOVES| && (id, n) in faults
  }

  class EditionTable {
    var editions: map<nat, Edition>

    constructor (editions: map<nat, Edition>)
      ensures this.editions == editions
    {
      this.editions := editions;
    }

    method TransitionLifecycle(id: nat, from: Lifecycle, to: Lifecycle, writeOk: bool) returns (r: Result<()>)
      modifies this
      ensures if writeOk && id in old(editions) && Transition(old(editions)[id], from, to).Success? then
          r.Success? && editions == old(editions)[id := Transition(old(editions)[id], from, to).value]
        else r.Failure? && editions == old(editions)
    {
      if to !in NextStates(from) || id !in editions || editions[id].lifecycle != from {
        return Failure(LifecycleConflict);
      }
      if !writeOk {
        return Failure(StoreUnavailable);
      }
      editions := editions[id := editions[id].(lifecycle := to)];
      r := Success(());
    }

    /** AdvanceCompetitionLifecycles: sweep each move over the editions standing at its
        start, so one tick can carry an edition through several states. A refused
        transition waits for the next tick; a listing that fails ends this one, `listed`
        being the number of listings that go through. */
    method AdvanceLifecycles(now: int, listed: nat, faults: Faults) returns (r: Result<()>)
      requires listed <= |MOVES|
      modifies this
      ensures editions == map id | id in old(editions) :: ApplyMoves(old(editions)[id], listed, now, FaultsOf(faults, id))
      ensures r.Success? <==> listed == |MOVES|
    {
      hide FaultsOf;
      var n := 0;
      assert editions == map id | id in old(editions) :: ApplyMoves(old(editions)[id], 0, now, FaultsOf(faults, id));
      while n < |MOVES|
        invariant 0 <= n <= listed
        invariant editions == map id | id in old(editions) :: ApplyMoves(old(editions)[id], n, now, FaultsOf(faults, id))
      {
        if n == listed {
          return Failure(StoreUnavailable);
        }
        SweepMove(n, now, faults);
        n := n + 1;
      }
      r := Success(());
    }

    method SweepMove(n: nat, now: int, faults: Faults)
      requires n < |MOVES|
      modifies this
      ensures editions == map id | id in old(editions) ::
        if n in FaultsOf(faults, id) then old(editions)[id] else ApplyMove(old(editions)[id], MOVES[n], now)
    {
      var m := MOVES[n];
      var ids := editions.Keys;
      while ids != {}
        invariant ids <= old(editions).Keys && editions.Keys == old(editions).Keys
        invariant forall id :: id in editions ==>
          editions[id] ==
            if id in ids || n in FaultsOf(faults, id) then old(editions)[id] else ApplyMove(old(editions)[id], m, now)
        decreases ids
      {
        var id :| id in ids;
        ids := ids - {id};
        var e := editions[id];
        if e.lifecycle == m.from && DueAt(e, m).Some? && DueAt(e, m).value <= now {
          var moved := TransitionLifecycle(id, m.from, m.to, (id, n) !in faults);
        }
      }
    }
  }

  // ---- what ticks guarantee --------------------------------------------------------------

  /** The schedule an edition is created with. */
  ghost predicate Scheduled(e: Edition) {
    && e.joinOpens.Some? && e.joinCloses.Some?
    && e.joinOpens.value < e.joinCloses.value <= e.startsAt < e.endsAt
  }

  /** How far along the scheduled path a state is; none for states off it. */
  function Stage(l: Lifecycle): Option<nat> {
    match l
    case Published => Some(0)
    case RegistrationOpen => Some(1)
    case RegistrationClosed => Some(2)
    case Active => Some(3)
    case Finalizing => Some(4)
    case _ => None
  }

  /** The stage the timestamps alone dictate. */
  function DictatedStage(e: Edition, now: int): nat
    requires e.joinOpens.Some? && e.joinCloses.Some?
  {
    if e.endsAt <= now then 4
    else if e.startsAt <= now then 3
    else if e.joinCloses.value <= now then 2
    else if e.joinOpens.value <= now then 1
    else 0
  }

  lemma TickUnfolds(e: Edition, now: int)
    ensures Tick(e, now) ==
      ApplyMove(ApplyMove(ApplyMove(ApplyMove(e, MOVES[0], now), MOVES[1], now), MOVES[2], now), MOVES[3], now)
  {
    assert ApplyMoves(e, 1, now, {}) == ApplyMove(ApplyMoves(e, 0, now, {}), MOVES[0], now);
    assert ApplyMoves(e, 2, now, {}) == ApplyMove(ApplyMoves(e, 1, now, {}), MOVES[1], now);
    assert ApplyMoves(e, 3, now, {}) == ApplyMove(ApplyMoves(e, 2, now, {}), MOVES[2], now);
    assert ApplyMoves(e, 4, now, {}) == ApplyMove(ApplyMoves(e, 3, now, {}), MOVES[3], now);
  }

  /** A tick leaves a scheduled edition in the later of where it was and where its
      timestamps put it, and touches no edition off the path. */
  lemma TickIsLaterOf(e: Edition, now: int)
    requires Scheduled(e)
    ensures var r := Tick(e, now);
      && r == e.(lifecycle := r.lifecycle)
      && match Stage(e.lifecycle)
         case None => r == e
         case Some(s) =>
           Stage(r.lifecycle) == Some(if s < DictatedStage(e, now) then DictatedStage(e, now) else s)
  {
    TickUnfolds(e, now);
  }

  lemma MoveThenTick(e: Edition, n: nat, t1: int, t2: int)
    requires n < |MOVES| && t1 <= t2
    ensures Tick(ApplyMove(e, MOVES[n], t1), t2) == Tick(e, t2)
  {
    TickUnfolds(ApplyMove(e, MOVES[n], t1), t2);
    TickUnfolds(e, t2);
  }

  /** Missed and broken ticks do not matter: a tick at t1 that ends early, with any
      transitions refused, followed by a whole tick at t2 is the tick at t2 alone,
      whatever the timestamps. */
  lemma {:induction false} TicksCatchUp(e: Edition, listed: nat, failed: set<nat>, t1: int, t2: int)
    requires listed <= |MOVES| && t1 <= t2
    ensures Tick(ApplyMoves(e, listed, t1, failed), t2) == Tick(e, t2)
  {
    if listed > 0 {
      TicksCatchUp(e, listed - 1, failed, t1, t2);
      MoveThenTick(ApplyMoves(e, listed - 1, t1, failed), listed - 1, t1, t2);
      hide Tick, ApplyMove;
    }
  }

  /** In particular, ticking at t1 and then at t2 is ticking at t2 alone. */
  lemma TicksCompose(e: Edition, t1: int, t2: int)
    requires t1 <= t2
    ensures Tick(Tick(e, t1), t2) == Tick(e, t2)
  {
    TicksCatchUp(e, |MOVES|, {}, t1, t2);
  }

  // ---- coming, going and the baseline ------------------------------------------------------

  predicate JoinWindowOpen(e: Edition, now: int) {
    && e.lifecycle == RegistrationOpen
    && e.joinOpens.Some? && e.joinCloses.Some?
    && e.joinOpens.value <= now < e.joinCloses.value
  }

  predicate BaselineDue(e: Edition, now: int) {
    e.startsAt <= now && (e.lifecycle == RegistrationClosed || e.lifecycle == Lifecycle.Active)
  }

  datatype Roster = Roster(edition: Edition, entries: Entries)

  /** What happens to one edition before it is finalized. A baseline pass may take any
      admitted entries to active or baseline-failed. */
  datatype Event =
    | Ticks(listed: nat, refused: set<nat>)
    | Joins(id: EntryId, user: int)
    | Withdraws(user: int)
    | Administers(to: Lifecycle)
    | RunsBaseline(activated: set<EntryId>, failed: set<EntryId>)

  predicate HasUser(entries: Entries, user: int) {
    exists e :: e in entries && entries[e].user == user
  }

  function WithdrawUser(entries: Entries, user: int): Entries {
    map e | e in entries ::
      if entries[e].user == user && entries[e].status == Admitted then entries[e].(status := Withdrawn) else entries[e]
  }

  function AddEntry(entries: Entries, id: EntryId, user: int): Entries {
    entries[id := Entry(user, Admitted, "")]
  }

  function Step(r: Roster, ev: Event, now: int): Roster {
    match ev
    case Ticks(listed, refused) => r.(edition := ApplyMoves(r.edition, if listed < |MOVES| then listed else |MOVES|, now, refused))
    case Joins(id, user) =>
      if JoinWindowOpen(r.edition, now) && !HasUser(r.entries, user) && id !in r.entries
      then r.(entries := AddEntry(r.entries, id, user))
      else r
    case Withdraws(user) =>
      if r.edition.lifecycle != Legacy && r.edition.joinCloses.Some? && now < r.edition.joinCloses.value
      then r.(entries := WithdrawUser(r.entries, user))
      else r
    case Administers(to) =>
      (match Transition(r.edition, r.edition.lifecycle, to)
       case Success(e) => r.(edition := e)
       case Failure(_) => r)
    case RunsBaseline(activated, failed) =>
      if BaselineDue(r.edition, now) then r.(entries := Baselined(r.entries, activated, failed)) else r
  }

  function Run(r: Roster, evs: seq<Event>, times: seq<int>): Roster
    requires |evs| == |times|
  {
    if evs == [] then r
    else Step(Run(r, evs[..|evs| - 1], times[..|times| - 1]), evs[|evs| - 1], times[|times| - 1])
  }

  ghost predicate Monotone(times: seq<int>) {
    forall i, j :: 0 <= i <= j < |times| ==> times[i] <= times[j]
  }

  /** The schedule itself never changes. */
  ghost predicate SameSchedule(a: Edition, b: Edition) {
    a == b.(lifecycle := a.lifecycle)
  }

  lemma {:induction false} MovesKeepSchedule(e: Edition, n: nat, now: int, failed: set<nat>)
    requires n <= |MOVES|
    ensures SameSchedule(ApplyMoves(e, n, now, failed), e)
    ensures NextStates(e.lifecycle) == {} ==> ApplyMoves(e, n, now, failed) == e
  {
    if n > 0 { MovesKeepSchedule(e, n - 1, now, failed); }
  }

  lemma StepKeepsSchedule(r: Roster, ev: Event, now: int)
    ensures SameSchedule(Step(r, ev, now).edition, r.edition)
    ensures NextStates(r.edition.lifecycle) == {} ==> Step(r, ev, now).edition == r.edition
  {
    if ev.Ticks? {
      MovesKeepSchedule(r.edition, if ev.listed < |MOVES| then ev.listed else |MOVES|, now, ev.refused);
      hide ApplyMoves;
    }
  }

  lemma {:induction false} RunKeepsSchedule(r: Roster, evs: seq<Event>, times: seq<int>)
    requires |evs| == |times|
    ensures SameSchedule(Run(r, evs, times).edition, r.edition)
  {
    if evs != [] {
      var n := |evs| - 1;
      RunKeepsSchedule(r, evs[..n], times[..n]);
      StepKeepsSchedule(Run(r, evs[..n], times[..n]), evs[n], times[n]);
    }
  }

  /** Once a baseline pass could run, the roster is closed: over every run on a monotone
      clock, no later event creates or withdraws an entry of a scheduled edition. */
  lemma RosterClosesBeforeBaseline(r: Roster, evs: seq<Event>, times: seq<int>, i: nat, j: nat)
    requires |evs| == |times| && Monotone(times) && Scheduled(r.edition)
    requires i <= j < |evs| && BaselineDue(Run(r, evs[..i], times[..i]).edition, times[i])
    requires evs[j].Joins? || evs[j].Withdraws?
    ensures Run(r, evs[..j + 1], times[..j + 1]) == Run(r, evs[..j], times[..j])
  {
    RunKeepsSchedule(r, evs[..i], times[..i]);
    RunKeepsSchedule(r, evs[..j], times[..j]);
    assert evs[..j + 1][..j] == evs[..j] && times[..j + 1][..j] == times[..j];
  }

  /** A user never has two entries in an edition, and a withdrawn one stays withdrawn. */
  lemma {:induction false} OneEntryPerUserForever(r: Roster, evs: seq<Event>, times: seq<int>)
    requires |evs| == |times| && OnePerUser(r.entries)
    ensures var s := Run(r, evs, times);
      && OnePerUser(s.entries)
      && (forall e :: e in r.entries ==> e in s.entries && s.entries[e].user == r.entries[e].user)
      && (forall e :: e in r.entries && r.entries[e].status == Withdrawn ==> s.entries[e].status == Withdrawn)
  {
    if evs != [] {
      var n := |evs| - 1;
      OneEntryPerUserForever(r, evs[..n], times[..n]);
      StepKeepsUsers(Run(r, evs[..n], times[..n]), evs[n], times[n]);
    }
  }

  lemma StepKeepsUsers(r: Roster, ev: Event, now: int)
    requires OnePerUser(r.entries)
    ensures var s := Step(r, ev, now);
      && OnePerUser(s.entries)
      && (forall e :: e in r.entries ==> e in s.entries && s.entries[e].user == r.entries[e].user)
      && (forall e :: e in r.entries && r.entries[e].status == Withdrawn ==> s.entries[e].status == Withdrawn)
  {
  }

  /** Terminal states are terminal for the scheduler and the administrator alike. */
  lemma {:induction false} EndsAreFinal(r: Roster, evs: seq<Event>, times: seq<int>)
    requires |evs| == |times|
    requires r.edition.lifecycle in {Lifecycle.Completed, Cancelled, Legacy}
    ensures Run(r, evs, times).edition == r.edition
  {
    if evs != [] {
      var n := |evs| - 1;
      EndsAreFinal(r, evs[..n], times[..n]);
      StepKeepsSchedule(Run(r, evs[..n], times[..n]), evs[n], times[n]);
    }
  }

  // ---- entries nobody decides --------------------------------------------------------------

  /** Nothing on the schedule decides an entry any more. */
  ghost predicate Closed(r: Roster, now: int) {
    && r.edition.lifecycle in {Finalizing, Lifecycle.Completed, Cancelled}
    && r.edition.joinCloses.Some? && r.edition.joinCloses.value <= now
  }

  lemma {:induction false} ClosedStaysClosed(e: Edition, n: nat, now: int, refused: set<nat>)
    requires n <= |MOVES| && e.lifecycle in {Finalizing, Lifecycle.Completed, Cancelled}
    ensures ApplyMoves(e, n, now, refused) == e
  {
    if n > 0 { ClosedStaysClosed(e, n - 1, now, refused); }
  }

  /** An entry the baseline has not reached when the edition starts to finalize is never
      reached: no later event of any run changes the roster. */
  lemma {:induction false} StrandedForever(r: Roster, evs: seq<Event>, times: seq<int>, now: int)
    requires |evs| == |times| && Closed(r, now) && forall i :: 0 <= i < |times| ==> now <= times[i]
    ensures Run(r, evs, times).entries == r.entries && Closed(Run(r, evs, times), now)
  {
    if evs != [] {
      var n := |evs| - 1;
      StrandedForever(r, evs[..n], times[..n], now);
      var before := Run(r, evs[..n], times[..n]);
      if evs[n].Ticks? {
        ClosedStaysClosed(before.edition, if evs[n].listed < |MOVES| then evs[n].listed else |MOVES|, times[n], evs[n].refused);
      }
    }
  }

  /** An edition that opens, takes a join and sees no worker until after its end. */
  const UNATTENDED := Roster(Edition(Published, Some(10), Some(20), 30, 40), map[])
  const JOIN_THEN_END := [Ticks(4, {}), Joins(1, 7), Ticks(4, {})]

  /** It is finalizing with its entry still admitted. */
  lemma AdmittedAtTheEnd()
    ensures Scheduled(UNATTENDED.edition)
    ensures var r := Run(UNATTENDED, JOIN_THEN_END, [10, 12, 50]);
      Closed(r, 50) && r.edition.lifecycle == Finalizing && 1 in r.entries && r.entries[1].status == Admitted
  {
    ThreeEvents(UNATTENDED, JOIN_THEN_END, [10, 12, 50]);
    var ready := Step(UNATTENDED, Ticks(4, {}), 10);
    TickUnfolds(UNATTENDED.edition, 10);
    assert ready == UNATTENDED.(edition := UNATTENDED.edition.(lifecycle := RegistrationOpen));
    var joined := Step(ready, Joins(1, 7), 12);
    assert joined == ready.(entries := AddEntry(map[], 1, 7));
    TickUnfolds(joined.edition, 50);
  }

  lemma ThreeEvents(r: Roster, evs: seq<Event>, times: seq<int>)
    requires |evs| == 3 == |times|
    ensures Run(r, evs, times) == Step(Step(Step(r, evs[0], times[0]), evs[1], times[1]), evs[2], times[2])
  {
    hide Step;
    assert evs[..2][..1] == evs[..1] && times[..2][..1] == times[..1];
    assert evs[..1][..0] == [] && times[..1][..0] == [];
    assert Run(r, evs[..1], times[..1]) == Step(r, evs[0], times[0]);
    assert Run(r, evs[..2], times[..2]) == Step(Run(r, evs[..1], times[..1]), evs[1], times[1]);
  }

  // ---- one step ----------------------------------------------------------------------------

  /** A join adds an admitted entry exactly while registration is open and its window runs,
      for a user who has none, under a new id, and changes nothing else. */
  lemma JoinsExactly(r: Roster, id: EntryId, user: int, now: int)
    ensures var s := Step(r, Joins(id, user), now);
      && s.edition == r.edition
      && (s.entries != r.entries <==>
           && r.edition.lifecycle == RegistrationOpen && id !in r.entries
           && r.edition.joinOpens.Some? && r.edition.joinOpens.value <= now
           && r.edition.joinCloses.Some? && now < r.edition.joinCloses.value
           && forall e :: e in r.entries ==> r.entries[e].user != user)
      && (s.entries != r.entries ==> s.entries == r.entries[id := Entry(user, Admitted, "")])
  {
    var s := Step(r, Joins(id, user), now);
    if id !in r.entries && s.entries != r.entries {
      assert id in s.entries;
    }
    assert id in AddEntry(r.entries, id, user);
  }

  /** Until joining closes a withdrawal takes out the user's admitted entry and nobody
      else's; afterwards, or on a legacy sprint, it changes nothing. */
  lemma WithdrawsExactly(r: Roster, user: int, now: int, e: EntryId)
    requires e in r.entries
    ensures var s := Step(r, Withdraws(user), now);
      && s.edition == r.edition && s.entries.Keys == r.entries.Keys
      && s.entries[e] ==
           if r.edition.lifecycle != Legacy && r.edition.joinCloses.Some? && now < r.edition.joinCloses.value &&
              r.entries[e].user == user && r.entries[e].status == Admitted
           then r.entries[e].(status := Withdrawn) else r.entries[e]
  {
  }

  /** A baseline pass decides nobody before the start, or on an edition that is not closed
      to registration or active. */
  lemma NoBaselineBeforeStart(r: Roster, activated: set<EntryId>, failed: set<EntryId>, now: int)
    requires now < r.edition.startsAt || r.edition.lifecycle !in {RegistrationClosed, Lifecycle.Active}
    ensures Step(r, RunsBaseline(activated, failed), now) == r
  {
  }

  /** How far along its life an edition is; both ends count as the last stage. */
  function Age(l: Lifecycle): nat {
    match l
    case Legacy => 0
    case Draft => 0
    case Published => 1
    case RegistrationOpen => 2
    case RegistrationClosed => 3
    case Active => 4
    case Finalizing => 5
    case Completed => 6
    case Cancelled => 6
  }

  /** The table knows two moves from every state but the ends: one stage on, and out. */
  lemma OneStageOrOut(from: Lifecycle, to: Lifecycle)
    ensures to in NextStates(from) <==>
      && from != Legacy && from != Lifecycle.Completed && from != Cancelled
      && (to == Cancelled || (to != Legacy && Age(to) == Age(from) + 1))
  {
  }

  lemma {:induction false} MovesAge(e: Edition, n: nat, now: int, failed: set<nat>)
    requires n <= |MOVES|
    ensures Age(e.lifecycle) <= Age(ApplyMoves(e, n, now, failed).lifecycle)
  {
    if n > 0 { MovesAge(e, n - 1, now, failed); }
  }

  /** Over every run an edition only grows older. */
  lemma {:induction false} NeverBack(r: Roster, evs: seq<Event>, times: seq<int>)
    requires |evs| == |times|
    ensures Age(r.edition.lifecycle) <= Age(Run(r, evs, times).edition.lifecycle)
  {
    if evs != [] {
      var n := |evs| - 1;
      NeverBack(r, evs[..n], times[..n]);
      StepAges(Run(r, evs[..n], times[..n]), evs[n], times[n]);
      hide Age, Step;
    }
  }

  lemma StepAges(r: Roster, ev: Event, now: int)
    ensures Age(r.edition.lifecycle) <= Age(Step(r, ev, now).edition.lifecycle)
  {
    match ev
    case Ticks(listed, refused) => MovesAge(r.edition, if listed < |MOVES| then listed else |MOVES|, now, refused);
    case Joins(_, _) =>
    case Withdraws(_) =>
    case Administers(to) =>
      if to in NextStates(r.edition.lifecycle) { OneStageOrOut(r.edition.lifecycle, to); }
    case RunsBaseline(_, _) =>
  }
}
