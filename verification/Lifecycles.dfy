/** The stored states of an edition and of its entries. */
module Lifecycles {
  import opened OrderedIds

  datatype Lifecycle =
    | Legacy
    | Draft
    | Published
    | RegistrationOpen
    | RegistrationClosed
    | Active
    | Finalizing
    | Completed
    | Cancelled

  datatype EntryStatus =
    | Admitted
    | Active
    | Withdrawn
    | BaselineFailed
    | Disqualified
    | Finalized

  /** One participant's entry. The repository files entries by user, so no two
      entries of an edition share one. */
  datatype Entry = Entry(user: int, status: EntryStatus, reason: string)

  type Entries = map<EntryId, Entry>

  ghost predicate OnePerUser(entries: Entries) {
    forall d, e :: d in entries && e in entries && d != e ==> entries[d].user != entries[e].user
  }

  function WithStatus(entries: Entries, status: EntryStatus): set<EntryId> {
    set e | e in entries && entries[e].status == status
  }

  function ActiveIds(entries: Entries): set<EntryId> {
    WithStatus(entries, EntryStatus.Active)
  }

  /** A baseline pass as seen from outside: some admitted entries become active, some
      fail for good. */
  function Baselined(entries: Entries, activated: set<EntryId>, failed: set<EntryId>): Entries {
    map e | e in entries ::
      if entries[e].status != Admitted then entries[e]
      else if e in activated then entries[e].(status := EntryStatus.Active)
      else if e in failed then entries[e].(status := BaselineFailed)
      else entries[e]
  }

  /** The next page of active entries after the cursor. */
  method ClaimActive(entries: Entries, cursor: nat, limit: Limit) returns (page: seq<EntryId>)
    ensures page == Claim(ActiveIds(entries), cursor, limit)
  {
    var live, keys := {}, entries.Keys;
    while keys != {}
      invariant keys <= entries.Keys
      invariant live == set e | e in entries.Keys - keys && entries[e].status == EntryStatus.Active
      decreases keys
    {
      var e :| e in keys;
      keys := keys - {e};
      if entries[e].status == EntryStatus.Active {
        live := live + {e};
      }
    }
    assert live == ActiveIds(entries);
    page := ClaimPage(live, cursor, limit);
  }
}
