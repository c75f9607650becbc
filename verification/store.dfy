/** The data hook: an in-memory mirror of the five entity lists held by the
    document store, with a loading flag, the last error text and the
    last-reset marker the browser keeps in local storage.

    Every mutation first calls the gateway; only when the call succeeds is
    the mirror changed. A failed call leaves the lists as they were, stores
    the error text and hands the failure back to the caller (the source
    rethrows it). Gateway calls are represented by their replies. */
module DataStore {
  import opened Common
  import opened Types
  import opened Lists

  /** Everything the hook holds, as one value. */
  datatype StoreState = StoreState(
    households: seq<Household>,
    users: seq<User>,
    locations: seq<AreaLocation>,
    collectionRecords: seq<CollectionRecord>,
    pendingDates: seq<PendingDate>,
    loading: bool,
    error: Option<string>,
    lastResetDate: Option<string>)

  /** The five lists one bulk load fetches. */
  datatype Snapshot = Snapshot(
    households: seq<Household>,
    users: seq<User>,
    locations: seq<AreaLocation>,
    collectionRecords: seq<CollectionRecord>,
    pendingDates: seq<PendingDate>)

  /** Reply `i` is rejected and every reply before it was accepted. */
  predicate FailsFirstAt(acks: seq<Ack>, i: int)
  {
    0 <= i < |acks| && acks[i].Failed? && forall j :: 0 <= j < i ==> acks[j].Done?
  }

  /** Reply `i` is rejected and every reply after it was accepted. */
  predicate FailsLastAt(acks: seq<Ack>, i: int)
  {
    0 <= i < |acks| && acks[i].Failed? && forall j :: i < j < |acks| ==> acks[j].Done?
  }

  /** The first rejection among the replies, in call order. */
  function FirstFailure(acks: seq<Ack>): (f: Option<Fault>)
    ensures f.None? <==> forall i :: 0 <= i < |acks| ==> acks[i].Done?
    ensures f.Some? ==> exists i :: FailsFirstAt(acks, i) && acks[i].fault == f.value
  {
    if acks == [] then None
    else
      var front, last := acks[..|acks| - 1], acks[|acks| - 1];
      if FirstFailure(front).Some? then
        var i :| FailsFirstAt(front, i) && front[i].fault == FirstFailure(front).value;
        assert FailsFirstAt(acks, i) by {
          forall j | 0 <= j < i ensures acks[j].Done? {
            assert acks[j] == front[j];
          }
        }
        FirstFailure(front)
      else if last.Failed? then
        assert FailsFirstAt(acks, |acks| - 1);
        Some(last.fault)
      else None
  }

  /** The last rejection among the replies, in call order. */
  function LastFailure(acks: seq<Ack>): (f: Option<Fault>)
    ensures f.None? <==> forall i :: 0 <= i < |acks| ==> acks[i].Done?
    ensures f.Some? ==> exists i :: 0 <= i < |acks| && acks[i].Failed? && acks[i].fault == f.value
  {
    if acks == [] then None
    else if acks[|acks| - 1].Failed? then Some(acks[|acks| - 1].fault)
    else LastFailure(acks[..|acks| - 1])
  }

  /** The rejection `LastFailure` reports is the last one: every reply after
      it was accepted. */
  lemma {:induction false} LastFailureIsLast(acks: seq<Ack>)
    ensures LastFailure(acks).Some? ==> exists i :: FailsLastAt(acks, i) && acks[i].fault == LastFailure(acks).value
  {
    if acks != [] {
      var front, last := acks[..|acks| - 1], acks[|acks| - 1];
      if last.Failed? {
        assert FailsLastAt(acks, |acks| - 1);
      } else if LastFailure(front).Some? {
        LastFailureIsLast(front);
        var i :| FailsLastAt(front, i) && front[i].fault == LastFailure(front).value;
        assert FailsLastAt(acks, i) by {
          forall j | i < j < |acks| ensures acks[j].Done? {
            if j < |front| {
              assert acks[j] == front[j] && front[j].Done?;
            } else {
              assert acks[j] == last;
            }
          }
        }
      }
    }
  }

  /** The ids of the households whose status update was acknowledged. */
  function AckedIds(hs: seq<Household>, acks: seq<Ack>): set<Id>
    requires |acks| == |hs|
  {
    if hs == [] then {}
    else AckedIds(hs[..|hs| - 1], acks[..|acks| - 1])
         + (if acks[|acks| - 1].Done? then {hs[|hs| - 1].id} else {})
  }

  /** When every update was acknowledged, every household's id was acknowledged. */
  lemma {:induction false} AllAcked(hs: seq<Household>, acks: seq<Ack>)
    requires |acks| == |hs|
    requires forall i :: 0 <= i < |acks| ==> acks[i].Done?
    ensures forall i :: 0 <= i < |hs| ==> hs[i].id in AckedIds(hs, acks)
  {
    if hs != [] {
      AllAcked(hs[..|hs| - 1], acks[..|acks| - 1]);
    }
  }

  /** The households with their status set to `s` wherever their id is in `ids`. */
  function StatusWhere(hs: seq<Household>, ids: set<Id>, s: CollectionStatus): seq<Household>
  {
    seq(|hs|, i requires 0 <= i < |hs| => if hs[i].id in ids then hs[i].(status := s) else hs[i])
  }

  /** Applying one more status update by id to a list already updated for
      `ids` is the list updated for `ids` plus that id. */
  lemma UpdateStatusWhere(hs: seq<Household>, ids: set<Id>, id: Id, s: CollectionStatus)
    ensures UpdateWhere(StatusWhere(hs, ids, s), HouseholdId, id, MergeHousehold, StatusPatch(s))
         == StatusWhere(hs, ids + {id}, s)
  {
    var before := StatusWhere(hs, ids, s);
    var after := UpdateWhere(before, HouseholdId, id, MergeHousehold, StatusPatch(s));
    forall i | 0 <= i < |hs| ensures after[i] == StatusWhere(hs, ids + {id}, s)[i] {
      assert before[i].id == hs[i].id;
    }
  }

  /** After a reset in which every update was acknowledged, every household
      is `Pending` and nothing else about any household changed. */
  lemma ResetAllPending(hs: seq<Household>, acks: seq<Ack>)
    requires |acks| == |hs|
    requires FirstFailure(acks).None?
    ensures var r := StatusWhere(hs, AckedIds(hs, acks), Pending);
            |r| == |hs| && forall i :: 0 <= i < |hs| ==> r[i] == hs[i].(status := Pending)
  {
    AllAcked(hs, acks);
  }

  /** The error text left by the per-household updates of a reset: that of the
      last update to fail, or the earlier text when none failed. */
  function UpdateErrors(prior: Option<string>, acks: seq<Ack>): Option<string>
  {
    match LastFailure(acks)
    case None => prior
    case Some(f) => Some(Describe(f, "Failed to update household"))
  }

  /** How the bookkeeping of a reset grows by one update. */
  lemma ResetStep(hs: seq<Household>, acks: seq<Ack>, i: nat, prior: Option<string>)
    requires |acks| == |hs| && i < |hs|
    ensures AckedIds(hs[..i + 1], acks[..i + 1])
         == AckedIds(hs[..i], acks[..i]) + (if acks[i].Done? then {hs[i].id} else {})
    ensures FirstFailure(acks[..i + 1])
         == if FirstFailure(acks[..i]).Some? then FirstFailure(acks[..i])
            else if acks[i].Failed? then Some(acks[i].fault) else None
    ensures UpdateErrors(prior, acks[..i + 1])
         == if acks[i].Failed? then Some(Describe(acks[i].fault, "Failed to update household"))
            else UpdateErrors(prior, acks[..i])
  {
    assert hs[..i + 1][..i] == hs[..i];
    assert acks[..i + 1][..i] == acks[..i];
  }

  /** The hook's state after `markAsCollected`: a rejected status update
      changes nothing but the error text; an accepted one marks the
      household `Collected`, and the record is appended only when its write
      is accepted too. */
  function AfterMark(st: StoreState, householdId: Id, collectorId: Id, location: Option<Coords>, now: Instant,
                     statusAck: Ack, recordReply: Reply<Id>): StoreState
  {
    if statusAck.Failed? then st.(error := Some(Describe(statusAck.fault, "Failed to mark as collected")))
    else
      var marked := st.(households := UpdateWhere(st.households, HouseholdId, householdId, MergeHousehold, StatusPatch(Collected)));
      if recordReply.Failed? then marked.(error := Some(Describe(recordReply.fault, "Failed to mark as collected")))
      else marked.(collectionRecords := st.collectionRecords
                     + [CollectionRecord(Some(recordReply.value), householdId, collectorId, now, location)])
  }

  /** What a mark changes: only the households and the records (and the
      error text). With the status update accepted, every entry of the
      household is `Collected` and keeps its other fields, the other entries
      are untouched; a record is added exactly when both writes are accepted,
      and it names the household and the collector. */
  lemma MarkMeaning(st: StoreState, householdId: Id, collectorId: Id, location: Option<Coords>, now: Instant,
                    statusAck: Ack, recordReply: Reply<Id>)
    ensures var after := AfterMark(st, householdId, collectorId, location, now, statusAck, recordReply);
            && after.users == st.users && after.locations == st.locations
            && after.pendingDates == st.pendingDates && after.loading == st.loading
            && after.lastResetDate == st.lastResetDate
            && |after.households| == |st.households|
            && (statusAck.Failed? ==> after.households == st.households)
            && (statusAck.Done? ==> forall i :: 0 <= i < |st.households| ==>
                  after.households[i] == if st.households[i].id == householdId
                                         then st.households[i].(status := Collected) else st.households[i])
            && (statusAck.Done? && recordReply.Done? <==> |after.collectionRecords| == |st.collectionRecords| + 1)
            && (statusAck.Done? && recordReply.Done? ==>
                  after.collectionRecords[..|st.collectionRecords|] == st.collectionRecords
                  && after.collectionRecords[|st.collectionRecords|].householdId == householdId
                  && after.collectionRecords[|st.collectionRecords|].collectorId == collectorId
                  && after.collectionRecords[|st.collectionRecords|].location == location)
            && (statusAck.Failed? || recordReply.Failed? ==> after.collectionRecords == st.collectionRecords)
  {
  }

  /** How the households of a reset grow by one update: an acknowledged
      update merges `{ status: Pending }` into the entries with that id, a
      rejected one leaves the list as it was. */
  lemma ResetHouseholdsStep(hs: seq<Household>, acks: seq<Ack>, i: nat, before: seq<Household>, after: seq<Household>)
    requires |acks| == |hs| && i < |hs|
    requires before == StatusWhere(hs, AckedIds(hs[..i], acks[..i]), Pending)
    requires after == if acks[i].Done? then UpdateWhere(before, HouseholdId, hs[i].id, MergeHousehold, StatusPatch(Pending))
                      else before
    ensures after == StatusWhere(hs, AckedIds(hs[..i + 1], acks[..i + 1]), Pending)
  {
    ResetStep(hs, acks, i, None);
    UpdateStatusWhere(hs, AckedIds(hs[..i], acks[..i]), hs[i].id, Pending);
  }

  class Store {
    var households: seq<Household>
    var users: seq<User>
    var locations: seq<AreaLocation>
    var collectionRecords: seq<CollectionRecord>
    var pendingDates: seq<PendingDate>
    var loading: bool
    var error: Option<string>
    /** The `lastResetDate` entry of the browser's local storage. */
    var lastResetDate: Option<string>

    function State(): StoreState
      reads this
    {
      StoreState(households, users, locations, collectionRecords, pendingDates, loading, error, lastResetDate)
    }

    /** The hook's initial state: empty lists, loading, no error. */
    constructor (lastReset: Option<string>)
      ensures State() == StoreState([], [], [], [], [], true, None, lastReset)
    {
      households, users, locations, collectionRecords, pendingDates := [], [], [], [], [];
      loading, error, lastResetDate := true, None, lastReset;
    }

    /** `loadAllData`: the five lists are replaced together, or, when the
        fetch fails, none of them is and the error is stored. Loading ends
        either way. */
    method LoadAllData(reply: Reply<Snapshot>)
      modifies this
      ensures reply.Done? ==> State() == old(State()).(
        households := reply.value.households, users := reply.value.users,
        locations := reply.value.locations, collectionRecords := reply.value.collectionRecords,
        pendingDates := reply.value.pendingDates, loading := false, error := None)
      ensures reply.Failed? ==> State() == old(State()).(
        loading := false, error := Some(Describe(reply.fault, "Failed to load data")))
    {
      loading := true;
      error := None;
      match reply {
        case Done(snap) =>
          households, users, locations := snap.households, snap.users, snap.locations;
          collectionRecords, pendingDates := snap.collectionRecords, snap.pendingDates;
        case Failed(f) =>
          error := Some(Describe(f, "Failed to load data"));
      }
      loading := false;
    }

    method AddHousehold(h: Household, reply: Reply<Id>) returns (r: Reply<Id>)
      modifies this
      ensures r == reply
      ensures reply.Done? ==> State() == old(State()).(households := old(households) + [h.(id := reply.value)])
      ensures reply.Failed? ==> State() == old(State()).(error := Some(Describe(reply.fault, "Failed to add household")))
    {
      if reply.Done? {
        households := households + [h.(id := reply.value)];
      } else {
        error := Some(Describe(reply.fault, "Failed to add household"));
      }
      r := reply;
    }

    method UpdateHousehold(id: Id, patch: HouseholdPatch, ack: Ack) returns (r: Ack)
      modifies this
      ensures r == ack
      ensures ack.Done? ==> State() == old(State()).(
        households := UpdateWhere(old(households), HouseholdId, id, MergeHousehold, patch))
      ensures ack.Failed? ==> State() == old(State()).(error := Some(Describe(ack.fault, "Failed to update household")))
    {
      if ack.Done? {
        households := UpdateWhere(households, HouseholdId, id, MergeHousehold, patch);
      } else {
        error := Some(Describe(ack.fault, "Failed to update household"));
      }
      r := ack;
    }

    method DeleteHousehold(id: Id, ack: Ack) returns (r: Ack)
      modifies this
      ensures r == ack
      ensures ack.Done? ==> State() == old(State()).(households := Without(old(households), HouseholdId, id))
      ensures ack.Failed? ==> State() == old(State()).(error := Some(Describe(ack.fault, "Failed to delete household")))
    {
      if ack.Done? {
        households := Without(households, HouseholdId, id);
      } else {
        error := Some(Describe(ack.fault, "Failed to delete household"));
      }
      r := ack;
    }

    method AddUser(u: User, reply: Reply<Id>) returns (r: Reply<Id>)
      modifies this
      ensures r == reply
      ensures reply.Done? ==> State() == old(State()).(users := old(users) + [u.(id := reply.value)])
      ensures reply.Failed? ==> State() == old(State()).(error := Some(Describe(reply.fault, "Failed to add user")))
    {
      if reply.Done? {
        users := users + [u.(id := reply.value)];
      } else {
        error := Some(Describe(reply.fault, "Failed to add user"));
      }
      r := reply;
    }

    method UpdateUser(id: Id, patch: UserPatch, ack: Ack) returns (r: Ack)
      modifies this
      ensures r == ack
      ensures ack.Done? ==> State() == old(State()).(users := UpdateWhere(old(users), UserId, id, MergeUser, patch))
      ensures ack.Failed? ==> State() == old(State()).(error := Some(Describe(ack.fault, "Failed to update user")))
    {
      if ack.Done? {
        users := UpdateWhere(users, UserId, id, MergeUser, patch);
      } else {
        error := Some(Describe(ack.fault, "Failed to update user"));
      }
      r := ack;
    }

    method DeleteUser(id: Id, ack: Ack) returns (r: Ack)
      modifies this
      ensures r == ack
      ensures ack.Done? ==> State() == old(State()).(users := Without(old(users), UserId, id))
      ensures ack.Failed? ==> State() == old(State()).(error := Some(Describe(ack.fault, "Failed to delete user")))
    {
      if ack.Done? {
        users := Without(users, UserId, id);
      } else {
        error := Some(Describe(ack.fault, "Failed to delete user"));
      }
      r := ack;
    }

    method AddLocation(l: AreaLocation, reply: Reply<Id>) returns (r: Reply<Id>)
      modifies this
      ensures r == reply
      ensures reply.Done? ==> State() == old(State()).(locations := old(locations) + [l.(id := reply.value)])
      ensures reply.Failed? ==> State() == old(State()).(error := Some(Describe(reply.fault, "Failed to add location")))
    {
      if reply.Done? {
        locations := locations + [l.(id := reply.value)];
      } else {
        error := Some(Describe(reply.fault, "Failed to add location"));
      }
      r := reply;
    }

    method UpdateLocation(id: Id, patch: LocationPatch, ack: Ack) returns (r: Ack)
      modifies this
      ensures r == ack
      ensures ack.Done? ==> State() == old(State()).(
        locations := UpdateWhere(old(locations), LocationId, id, MergeLocation, patch))
      ensures ack.Failed? ==> State() == old(State()).(error := Some(Describe(ack.fault, "Failed to update location")))
    {
      if ack.Done? {
        locations := UpdateWhere(locations, LocationId, id, MergeLocation, patch);
      } else {
        error := Some(Describe(ack.fault, "Failed to update location"));
      }
      r := ack;
    }

    method DeleteLocation(id: Id, ack: Ack) returns (r: Ack)
      modifies this
      ensures r == ack
      ensures ack.Done? ==> State() == old(State()).(locations := Without(old(locations), LocationId, id))
      ensures ack.Failed? ==> State() == old(State()).(error := Some(Describe(ack.fault, "Failed to delete location")))
    {
      if ack.Done? {
        locations := Without(locations, LocationId, id);
      } else {
        error := Some(Describe(ack.fault, "Failed to delete location"));
      }
      r := ack;
    }

    method AddCollectionRecord(rec: CollectionRecord, reply: Reply<Id>) returns (r: Reply<Id>)
      modifies this
      ensures r == reply
      ensures reply.Done? ==> State() == old(State()).(
        collectionRecords := old(collectionRecords) + [rec.(id := Some(reply.value))])
      ensures reply.Failed? ==> State() == old(State()).(
        error := Some(Describe(reply.fault, "Failed to add collection record")))
    {
      if reply.Done? {
        collectionRecords := collectionRecords + [rec.(id := Some(reply.value))];
      } else {
        error := Some(Describe(reply.fault, "Failed to add collection record"));
      }
      r := reply;
    }

    /** `markAsCollected`: the status update comes first; only if it succeeds
        is the record written. The prior status is not looked at, so every
        successful call adds one record. If the record write fails after the
        status update succeeded, the household stays `Collected` without a
        record. */
    method MarkAsCollected(householdId: Id, collectorId: Id, location: Option<Coords>, now: Instant,
                           statusAck: Ack, recordReply: Reply<Id>) returns (r: Ack)
      modifies this
      ensures r.Done? <==> statusAck.Done? && recordReply.Done?
      ensures State() == AfterMark(old(State()), householdId, collectorId, location, now, statusAck, recordReply)
    {
      var a := UpdateHousehold(householdId, StatusPatch(Collected), statusAck);
      if a.Failed? {
        error := Some(Describe(a.fault, "Failed to mark as collected"));
        return a;
      }
      var rec := CollectionRecord(None, householdId, collectorId, now, location);
      var id := AddCollectionRecord(rec, recordReply);
      if id.Failed? {
        error := Some(Describe(id.fault, "Failed to mark as collected"));
        return Failed(id.fault);
      }
      r := Done(());
    }

    /** The status updates shared by `resetCollections` and
        `checkAndResetDaily`: one update to `Pending` per household of the list
        as it stood when the call began. Every update is issued; each
        acknowledged one is applied to the mirror, each rejected one stores
        its error text. */
    method ResetStatuses(acks: seq<Ack>) returns (failure: Option<Fault>)
      requires |acks| == |households|
      modifies this
      ensures failure == FirstFailure(acks)
      ensures State() == old(State()).(
        households := StatusWhere(old(households), AckedIds(old(households), acks), Pending),
        error := UpdateErrors(old(error), acks))
    {
      var snapshot := households;
      var i := 0;
      failure := None;
      assert households == StatusWhere(snapshot, AckedIds(snapshot[..0], acks[..0]), Pending);
      while i < |snapshot|
        invariant 0 <= i <= |snapshot|
        invariant failure == FirstFailure(acks[..i])
        invariant households == StatusWhere(snapshot, AckedIds(snapshot[..i], acks[..i]), Pending)
        invariant error == UpdateErrors(old(error), acks[..i])
        invariant users == old(users) && locations == old(locations)
        invariant collectionRecords == old(collectionRecords) && pendingDates == old(pendingDates)
        invariant loading == old(loading) && lastResetDate == old(lastResetDate)
      {
        ResetStep(snapshot, acks, i, old(error));
        ghost var before := households;
        ghost var errorBefore := error;
        var a := UpdateHousehold(snapshot[i].id, StatusPatch(Pending), acks[i]);
        ResetHouseholdsStep(snapshot, acks, i, before, households);
        if a.Failed? {
          assert error == Some(Describe(acks[i].fault, "Failed to update household"));
          if failure.None? {
            failure := Some(a.fault);
          }
        } else {
          assert error == errorBefore;
        }
        i := i + 1;
      }
      assert snapshot[..i] == snapshot;
      assert acks[..i] == acks;
      assert households == StatusWhere(old(households), AckedIds(old(households), acks), Pending);
      assert error == UpdateErrors(old(error), acks);
    }

    /** `resetCollections`: every household's status goes back to `Pending`;
        collection records and pending dates are not touched. A rejected
        update makes the whole call fail. */
    method ResetCollections(acks: seq<Ack>) returns (r: Ack)
      requires |acks| == |households|
      modifies this
      ensures r.Done? <==> forall i :: 0 <= i < |acks| ==> acks[i].Done?
      ensures State() == old(State()).(
        households := StatusWhere(old(households), AckedIds(old(households), acks), Pending),
        error := if r.Failed? then Some(Describe(r.fault, "Failed to reset collections"))
                 else old(error))
    {
      var failure := ResetStatuses(acks);
      if failure.Some? {
        error := Some(Describe(failure.value, "Failed to reset collections"));
        r := Failed(failure.value);
      } else {
        r := Done(());
      }
    }

    /** `checkAndResetDaily`: resets only when the stored last-reset day
        differs from `today`, and records `today` only when every update
        succeeded. Its own failure is only logged. */
    method CheckAndResetDaily(today: string, acks: seq<Ack>)
      requires |acks| == |households|
      modifies this
      ensures old(lastResetDate) == Some(today) ==> State() == old(State())
      ensures old(lastResetDate) != Some(today) ==> State() == old(State()).(
        households := StatusWhere(old(households), AckedIds(old(households), acks), Pending),
        error := UpdateErrors(old(error), acks),
        lastResetDate := if FirstFailure(acks).None? then Some(today) else old(lastResetDate))
    {
      if lastResetDate != Some(today) {
        var failure := ResetStatuses(acks);
        if failure.None? {
          lastResetDate := Some(today);
        }
      }
    }

    /** The daily check as evidently intended: it does nothing, and in
        particular does not record `today`, until the bulk load has delivered
        the households. */
    method CheckAndResetDailyWhenLoaded(today: string, acks: seq<Ack>)
      requires |acks| == |households|
      modifies this
      ensures old(loading) || old(error).Some? || old(lastResetDate) == Some(today) ==> State() == old(State())
      ensures !old(loading) && old(error).None? && old(lastResetDate) != Some(today) ==> State() == old(State()).(
        households := StatusWhere(old(households), AckedIds(old(households), acks), Pending),
        error := UpdateErrors(old(error), acks),
        lastResetDate := if FirstFailure(acks).None? then Some(today) else old(lastResetDate))
    {
      if !loading && error.None? {
        CheckAndResetDaily(today, acks);
      }
    }

    /** `authenticateUser`: the user the username lookup found, provided its
        password is exactly the one given; nothing otherwise, and nothing when
        the lookup fails (its error is stored, not thrown). */
    method AuthenticateUser(username: string, password: string, lookup: Reply<Option<User>>)
      returns (u: Option<User>)
      requires lookup.Done? && lookup.value.Some? ==> lookup.value.value.username == username
      modifies this
      ensures u.Some? <==> lookup.Done? && lookup.value.Some? && lookup.value.value.password == password
      ensures u.Some? ==> u == lookup.value && u.value.username == username && u.value.password == password
      ensures lookup.Done? ==> State() == old(State())
      ensures lookup.Failed? ==> State() == old(State()).(error := Some(Describe(lookup.fault, "Authentication failed")))
    {
      match lookup {
        case Done(found) =>
          if found.Some? && found.value.password == password {
            return found;
          }
          return None;
        case Failed(f) =>
          error := Some(Describe(f, "Authentication failed"));
          return None;
      }
    }

    method AddPendingDate(p: PendingDate, reply: Reply<Id>) returns (r: Reply<Id>)
      modifies this
      ensures r == reply
      ensures reply.Done? ==> State() == old(State()).(pendingDates := old(pendingDates) + [p.(id := reply.value)])
      ensures reply.Failed? ==> State() == old(State()).(error := Some(Describe(reply.fault, "Failed to add pending date")))
    {
      if reply.Done? {
        pendingDates := pendingDates + [p.(id := reply.value)];
      } else {
        error := Some(Describe(reply.fault, "Failed to add pending date"));
      }
      r := reply;
    }

    method DeletePendingDate(id: Id, ack: Ack) returns (r: Ack)
      modifies this
      ensures r == ack
      ensures ack.Done? ==> State() == old(State()).(pendingDates := Without(old(pendingDates), PendingDateId, id))
      ensures ack.Failed? ==> State() == old(State()).(error := Some(Describe(ack.fault, "Failed to delete pending date")))
    {
      if ack.Done? {
        pendingDates := Without(pendingDates, PendingDateId, id);
      } else {
        error := Some(Describe(ack.fault, "Failed to delete pending date"));
      }
      r := ack;
    }
  }
}
