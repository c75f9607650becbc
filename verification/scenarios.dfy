/** Whole-application runs on fresh objects: a mount followed by the bulk
    load and the daily check, as written and as evidently intended; two
    daily checks on one day; a collection whose position request fails; two
    marks of one household; and a pending date added and deleted again. */
module Scenarios {
  import opened Common
  import opened Types
  import opened Lists
  import opened DataStore
  import opened CollectorView
  import opened App

  /** Every household of the list is collected. */
  predicate AllCollected(hs: seq<Household>)
  {
    forall i :: 0 <= i < |hs| ==> hs[i].status == Collected
  }

  /** The daily check as written: on mount it runs before the load has
      delivered any household, so it resets nothing yet records today; when
      the loaded households arrive and the check runs again, today is already
      recorded and yesterday's collected households stay collected. */
  method DailyResetAfterMountAsWritten(today: string, lastReset: Option<string>, snap: Snapshot, acks: seq<Ack>)
    returns (st: StoreState)
    requires lastReset != Some(today)
    requires |acks| == |snap.households|
    ensures st.lastResetDate == Some(today)
    ensures st.households == snap.households
    ensures AllCollected(snap.households) ==> AllCollected(st.households)
  {
    var store := new Store(lastReset);
    store.CheckAndResetDaily(today, []);
    assert store.lastResetDate == Some(today);
    store.LoadAllData(Done(snap));
    store.CheckAndResetDaily(today, acks);
    st := store.State();
  }

  /** The daily check as evidently intended: it waits for the load, so the
      run after the load resets every household to `Pending` and only then
      records today. */
  method DailyResetAfterMountCorrected(today: string, lastReset: Option<string>, snap: Snapshot, acks: seq<Ack>)
    returns (st: StoreState)
    requires lastReset != Some(today)
    requires |acks| == |snap.households|
    requires forall i :: 0 <= i < |acks| ==> acks[i].Done?
    ensures st.lastResetDate == Some(today)
    ensures |st.households| == |snap.households|
    ensures forall i :: 0 <= i < |snap.households| ==> st.households[i] == snap.households[i].(status := Pending)
  {
    var store := new Store(lastReset);
    store.CheckAndResetDailyWhenLoaded(today, []);
    assert store.lastResetDate == lastReset;
    store.LoadAllData(Done(snap));
    store.CheckAndResetDailyWhenLoaded(today, acks);
    ResetAllPending(snap.households, acks);
    st := store.State();
  }

  /** Once a daily check has reset every household and recorded today, a
      second check on the same day changes nothing. */
  method DailyResetTwiceSameDay(today: string, lastReset: Option<string>, snap: Snapshot, acks: seq<Ack>, again: seq<Ack>)
    returns (first: StoreState, second: StoreState)
    requires lastReset != Some(today)
    requires |acks| == |snap.households| && |again| == |snap.households|
    requires forall i :: 0 <= i < |acks| ==> acks[i].Done?
    ensures first.lastResetDate == Some(today)
    ensures second == first
  {
    var store := new Store(lastReset);
    store.LoadAllData(Done(snap));
    store.CheckAndResetDaily(today, acks);
    first := store.State();
    store.CheckAndResetDaily(today, again);
    second := store.State();
  }

  /** A collector logs in, asks for a household's position, the request
      fails, and the household is still marked collected: its status turns
      `Collected` and a record without coordinates names the collector. */
  method CollectWithoutPosition(snap: Snapshot, u: User, householdId: Id, code: int, now: Instant, recordId: Id)
    returns (st: StoreState, screen: Screen)
    requires u.role == Role.Collector
    ensures |st.households| == |snap.households|
    ensures forall i :: 0 <= i < |snap.households| && snap.households[i].id == householdId
                     ==> st.households[i] == snap.households[i].(status := Collected)
    ensures st.collectionRecords == snap.collectionRecords
                                  + [CollectionRecord(Some(recordId), householdId, u.id, now, None)]
    ensures screen == CollectorScreen
  {
    var store := new Store(None);
    store.LoadAllData(Done(snap));
    var app := new AppState();
    var ok := app.HandleLogin(store, u.username, u.password, Done(Some(u)));
    assert ok;
    var requests, marker := CollectOnce(householdId, PositionError(code));
    app.HandleMarkAsCollected(store, requests[0].householdId, requests[0].location, now,
                              Done(()), Done(recordId));
    st := store.State();
    screen := app.Screen(store);
  }

  /** Two accepted marks of one household, on the hook's state: the second
      appends a second record, but the households are as after one mark. */
  lemma TwoMarks(st: StoreState, householdId: Id, collectorId: Id, t1: Instant, t2: Instant, id1: Id, id2: Id)
    ensures var once := AfterMark(st, householdId, collectorId, None, t1, Done(()), Done(id1));
            var twice := AfterMark(once, householdId, collectorId, None, t2, Done(()), Done(id2));
            && twice.collectionRecords == st.collectionRecords
                 + [CollectionRecord(Some(id1), householdId, collectorId, t1, None),
                    CollectionRecord(Some(id2), householdId, collectorId, t2, None)]
            && twice.households == once.households
            && once.households == UpdateWhere(st.households, HouseholdId, householdId, MergeHousehold, StatusPatch(Collected))
  {
    var once := AfterMark(st, householdId, collectorId, None, t1, Done(()), Done(id1));
    var twice := AfterMark(once, householdId, collectorId, None, t2, Done(()), Done(id2));
    forall i | 0 <= i < |once.households| ensures twice.households[i] == once.households[i] {
      if once.households[i].id == householdId {
        MergeIdempotent(st.households[i], StatusPatch(Collected));
      }
    }
  }

  /** Marking is not idempotent: two accepted marks of the same household
      leave it collected once but add two records. */
  method MarkTwice(snap: Snapshot, householdId: Id, collectorId: Id, t1: Instant, t2: Instant, id1: Id, id2: Id)
    returns (st: StoreState)
    ensures st.collectionRecords == snap.collectionRecords
              + [CollectionRecord(Some(id1), householdId, collectorId, t1, None),
                 CollectionRecord(Some(id2), householdId, collectorId, t2, None)]
    ensures st.households == UpdateWhere(snap.households, HouseholdId, householdId, MergeHousehold, StatusPatch(Collected))
  {
    var store := new Store(None);
    store.LoadAllData(Done(snap));
    var loaded := store.State();
    var _ := store.MarkAsCollected(householdId, collectorId, None, t1, Done(()), Done(id1));
    var _ := store.MarkAsCollected(householdId, collectorId, None, t2, Done(()), Done(id2));
    st := store.State();
    TwoMarks(loaded, householdId, collectorId, t1, t2, id1, id2);
  }

  /** Adding a pending date under a fresh id and deleting it again leaves
      the pending dates as they were. */
  method AddThenDeletePendingDate(snap: Snapshot, p: PendingDate, id: Id) returns (st: StoreState)
    requires forall q :: q in snap.pendingDates ==> q.id != id
    ensures st.pendingDates == snap.pendingDates
    ensures st.error == None
  {
    var store := new Store(None);
    store.LoadAllData(Done(snap));
    var _ := store.AddPendingDate(p, Done(id));
    var _ := store.DeletePendingDate(id, Done(()));
    AppendThenRemove(snap.pendingDates, p.(id := id), PendingDateId, id);
    st := store.State();
  }
}
