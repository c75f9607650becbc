# EcoTrack waste collection — a Dafny model of its list, map and string logic

EcoTrack is a small React application with which a panchayat administration
tracks door-to-door waste collection. Admins manage blocks, panchayats,
households and user accounts. Collectors mark households as collected, and
the device position is attached when it can be obtained. A dashboard shows
how many households are collected and pending, and lists the five most
recent collections. A calendar per household shows the days it was
collected and the days marked as pending. Everything is stored in a hosted
document store. The application keeps an in-memory mirror of it in a data
hook.

This project models the logic between the screens and the store:

- `DataStore` (`store.dfy`): the data hook as a class `Store`. It has one
  `seq` field per entity list, plus `loading`, `error` and the last-reset
  day kept in the browser's local storage. Each mutation takes the reply of
  its gateway call as a parameter. An accepted reply changes the mirror. A
  rejected one leaves the lists alone and stores the error text. Every
  method states its whole new state through `State()`.
- `Lists` (`lists.dfy`): remove-by-id, merge-by-id and first-match, generic
  in the entity type.
- `Types` (`types.ts` shapes) and `Common` (options and gateway replies).
- `Text` (`text.dfy`): `toLowerCase`, `includes`, `trim`, `String(n)` and
  `padStart(2, '0')`.
- `Calendar` (`calendar.dfy`): the day keys, the grouping of records and
  pending dates into day buckets, the classification of each day, the month
  grid and the modal's state.
- `AdminPanel`, `EditHousehold`, `HouseholdSearch`, `DashboardFigures`,
  `CollectorView` and `App`: the admin panel's guards and handlers, the edit
  dialog, the household search, the dashboard figures, the collect flow, and
  the shell's login, routing and handlers.
- `Scenarios` (`scenarios.dfy`): whole-application runs on fresh objects.

## Model

| member | source | states |
|---|---|---|
| Text.ToLowerIdempotent | components/AdminPanel.tsx:246-249 | lower-casing an already lower-cased string changes nothing |
| Text.ContainsIffOccurs | components/AdminPanel.tsx:246 | `includes` holds exactly when the needle occurs at some position |
| Text.ContainsEmpty | components/CollectorView.tsx:64-66 | every string contains the empty string |
| Text.TrimStart | components/AdminPanel.tsx:130 | the result is a suffix of the input; everything dropped is white space; it does not start with white space |
| Text.TrimEnd | components/AdminPanel.tsx:130 | the result is a prefix of the input; everything dropped is white space; it does not end with white space |
| Text.TrimMeaning | components/AdminPanel.tsx:130-136 | `trim` gives a piece of the input with no white space at either end; it is empty exactly when the input is all white space |
| Text.TrimOccurs | components/AdminPanel.tsx:130 | the trimmed text occurs in the input right after the leading white space |
| Text.TrimmedEmpty | components/AdminPanel.tsx:130 | trimming gives the empty string exactly when every character is white space |
| Text.TrimIdempotent | components/AdminPanel.tsx:136 | trimming a trimmed name changes nothing |
| Text.Decimal | components/CalendarModal.tsx:79 | `String(n)` is a non-empty digit string; one digit exactly below 10, two digits from 10 to 99 |
| Text.DecimalRoundTrip | components/CalendarModal.tsx:79 | reading back the digits of `String(n)` gives `n` |
| Text.LeadingZero | components/CalendarModal.tsx:79 | a leading `0` does not change the value of a digit string |
| Text.TwoDigits | components/CalendarModal.tsx:79 | `String(n).padStart(2, '0')` for `n < 100` is exactly two digits that read back as `n` |
| Lists.Without | hooks/useFirebase.ts:74-77 | a delete removes exactly the entries with that id: every other entry stays, and the length drops by the number of matches |
| Lists.WithoutConcat | hooks/useFirebase.ts:222-225 | removal works piecewise, so the surviving entries keep their order |
| Lists.WithoutAbsent | hooks/useFirebase.ts:140-143 | deleting an id no entry carries leaves the list unchanged |
| Lists.AppendThenRemove | hooks/useFirebase.ts:210-225 | appending an entry under a fresh id and then deleting that id gives back the original list |
| Lists.UpdateWhere | hooks/useFirebase.ts:64-67 | an update keeps the length, merges the patch into every entry with the id, and leaves every other entry untouched |
| Lists.Find | components/AdminPanel.tsx:164 | `find` is absent exactly when no entry has the key; otherwise it is the first entry that has it |
| Common.Describe | hooks/useFirebase.ts:44 | the stored text is the `Error`'s message, or the call's fallback text for any other thrown value |
| Types.StatusPatch | hooks/useFirebase.ts:166 | merging `{ status }` changes the status and nothing else |
| Types.WholeHousehold | App.tsx:93 | merging a whole household as the patch replaces the entry with it |
| Types.PanchayatsPatch | components/AdminPanel.tsx:173-175 | merging `{ panchayats }` replaces the panchayat list and nothing else |
| Types.MergeIdempotent | hooks/useFirebase.ts:67 | merging the same patch twice is merging it once |
| DataStore.FirstFailure | hooks/useFirebase.ts:188 | none exactly when every reply of the parallel updates was accepted; otherwise the fault of the first rejected reply, every reply before it being accepted |
| DataStore.LastFailure | hooks/useFirebase.ts:68-69 | none exactly when every per-household update was accepted; otherwise the fault of some rejected reply (that it is the last one is `LastFailureIsLast`) |
| DataStore.LastFailureIsLast | hooks/useFirebase.ts:68-69 | the fault LastFailure reports is that of the last rejected reply: every reply after it was accepted |
| DataStore.AllAcked | hooks/useFirebase.ts:185-188 | when every update is accepted, every household's id is among the acknowledged ones |
| DataStore.UpdateStatusWhere | hooks/useFirebase.ts:185-187 | one more accepted status update by id adds that id to the set of updated households |
| DataStore.ResetAllPending | hooks/useFirebase.ts:182-193 | after a fully accepted reset, every household is `Pending` and nothing else about any household changed |
| DataStore.ResetStep | hooks/useFirebase.ts:185-188 | how the acknowledged ids, the first failure and the stored error text grow by one update |
| DataStore.ResetHouseholdsStep | hooks/useFirebase.ts:185-187 | an accepted update resets that household's entries; a rejected one leaves the list |
| DataStore.MarkMeaning | hooks/useFirebase.ts:163-180 | a mark leaves users, locations, pending dates and the reset day alone; an accepted status update makes exactly the household's entries `Collected`; a record naming the household, the collector and the location is appended exactly when both writes are accepted; a rejected status update adds no record |
| DataStore.Store.constructor | hooks/useFirebase.ts:12-18 | all lists empty, loading, no error |
| DataStore.Store.LoadAllData | hooks/useFirebase.ts:25-49 | the five lists are replaced together and the error cleared, or, on a failed fetch, none is replaced and the error is stored; loading ends either way |
| DataStore.Store.AddHousehold | hooks/useFirebase.ts:52-62 | an accepted add appends the household under the returned id; a rejected one only stores the error and is handed back |
| DataStore.Store.UpdateHousehold | hooks/useFirebase.ts:64-72 | an accepted update merges the patch into the entries with the id; a rejected one only stores the error |
| DataStore.Store.DeleteHousehold | hooks/useFirebase.ts:74-82 | an accepted delete removes the entries with the id; a rejected one only stores the error |
| DataStore.Store.AddUser | hooks/useFirebase.ts:85-95 | as for households, on the user list |
| DataStore.Store.UpdateUser | hooks/useFirebase.ts:97-105 | as for households, on the user list |
| DataStore.Store.DeleteUser | hooks/useFirebase.ts:107-115 | as for households, on the user list |
| DataStore.Store.AddLocation | hooks/useFirebase.ts:118-128 | as for households, on the location list |
| DataStore.Store.UpdateLocation | hooks/useFirebase.ts:130-138 | as for households, on the location list |
| DataStore.Store.DeleteLocation | hooks/useFirebase.ts:140-148 | as for households, on the location list |
| DataStore.Store.AddCollectionRecord | hooks/useFirebase.ts:151-161 | an accepted add appends the record under the returned id; a rejected one only stores the error |
| DataStore.Store.MarkAsCollected | hooks/useFirebase.ts:163-180 | succeeds exactly when both writes are accepted; the new state is `AfterMark` of the old one, so the status update comes first and a rejected status update writes no record |
| DataStore.Store.ResetStatuses | hooks/useFirebase.ts:185-188 | one update to `Pending` per household of the list as it stood at the start; exactly the acknowledged ones are reset; the first failure is reported; only the households and the error text change |
| DataStore.Store.ResetCollections | hooks/useFirebase.ts:182-193 | succeeds exactly when every update is accepted; resets the acknowledged households and touches neither records nor pending dates |
| DataStore.Store.CheckAndResetDaily | hooks/useFirebase.ts:233-250 | nothing changes when today is already recorded; otherwise the households are reset, and today is recorded only when every update was accepted |
| DataStore.Store.CheckAndResetDailyWhenLoaded | hooks/useFirebase.ts:252-255 | the corrected daily check: nothing changes while loading or after a failed load; otherwise as `CheckAndResetDaily` |
| DataStore.Store.AuthenticateUser | hooks/useFirebase.ts:196-207 | a user is returned exactly when the lookup found one whose password matches exactly; a failed lookup stores its error and returns nothing |
| DataStore.Store.AddPendingDate | hooks/useFirebase.ts:210-220 | an accepted add appends the pending date under the returned id; a rejected one only stores the error |
| DataStore.Store.DeletePendingDate | hooks/useFirebase.ts:222-230 | an accepted delete removes the entries with the id; a rejected one only stores the error |
| HouseholdSearch.Keep | components/CollectorView.tsx:67-73 | the filter never grows the list and keeps exactly the matching households |
| HouseholdSearch.FilteredHouseholds | components/AdminPanel.tsx:241-251 | an empty query gives the list unchanged; otherwise exactly the households with a field containing the query, ignoring case |
| HouseholdSearch.KeepConcat | components/CollectorView.tsx:67 | the filter works piecewise, so the kept households stay in list order |
| HouseholdSearch.EmptyQueryKeepsAll | components/CollectorView.tsx:63-66 | filtering by the empty query would also keep every household |
| HouseholdSearch.FilteredIsKeep | components/CollectorView.tsx:63-74 | whatever the query, the result is the order-preserving filter |
| HouseholdSearch.CaseInsensitive | components/AdminPanel.tsx:246-249 | the query's case does not matter |
| HouseholdSearch.AdminWithinCollector | components/AdminPanel.tsx:245-250 | every household the admin search finds, the collector search finds too (it also looks at the address) |
| Calendar.YearRoundTrip | components/CalendarModal.tsx:79 | the year text reads back as the year |
| Calendar.DayKeyRoundTrip | components/CalendarModal.tsx:111 | for a real month and a day below 100, the `YYYY-MM-DD` key reads back as the date it was made from |
| Calendar.DayKeyInjective | components/CalendarModal.tsx:111 | different dates never share a key |
| Calendar.BucketMembership | components/CalendarModal.tsx:28-35 | a bucket holds exactly the household's entries of that day |
| Calendar.BucketConcat | components/CalendarModal.tsx:30-35 | bucketing works piecewise, so buckets keep list order and keep duplicates |
| Calendar.BucketNonEmpty | components/CalendarModal.tsx:32-35 | a bucket is non-empty exactly when one of the household's entries falls on that day |
| Calendar.GroupingMeaning | components/CalendarModal.tsx:26-38 | a present key has a non-empty bucket; a bucket holds only the household's entries of its day; every entry of the household sits in its day's bucket |
| Calendar.DaysOfStep | components/CalendarModal.tsx:30-36 | the set of days grows by the next entry's day when the entry belongs to the household |
| Calendar.BucketStep | components/CalendarModal.tsx:30-36 | a bucket grows by the next entry exactly when that entry belongs to the household and falls on the bucket's day |
| Calendar.GroupingStep | components/CalendarModal.tsx:30-36 | one step of the `forEach`: another household's entry is skipped; this household's entry is pushed onto its day's bucket, created empty on first use |
| Calendar.GroupByDay | components/CalendarModal.tsx:26-38 | the loop builds exactly the grouping of the whole list |
| Calendar.CollectionsByDate | components/CalendarModal.tsx:26-38 | the household's records grouped by the UTC day of their timestamp |
| Calendar.PendingDatesByDate | components/CalendarModal.tsx:40-52 | the household's pending dates grouped by their stored date string, verbatim |
| Calendar.ClassifyMeaning | components/CalendarModal.tsx:112-124 | a day is collected exactly when the household has a record on it; pending-marked exactly when it has no record but a pending date; untouched exactly when it has neither |
| Calendar.Blanks | components/CalendarModal.tsx:107-109 | exactly `firstDayOfMonth` blank cells |
| Calendar.MonthDaysAt | components/CalendarModal.tsx:110-138 | the cell at position `j` of the day cells is the one of day `j + 1` |
| Calendar.DayCells | components/CalendarModal.tsx:110-138 | the loop over days 1..daysInMonth builds exactly the month's day cells, each from its own key's lookups |
| Calendar.RenderCalendarDays | components/CalendarModal.tsx:105-140 | `firstDayOfMonth` blanks, then days 1..daysInMonth once each and in order, each with its own key's lookups and class |
| Calendar.ShiftMonth | components/CalendarModal.tsx:64 | the month stays in 0..11 and the month index moves by exactly the offset |
| Calendar.MonthIndexUnique | components/CalendarModal.tsx:64 | a year and an in-range month are fixed by their month index |
| Calendar.ShiftCompose | components/CalendarModal.tsx:63-68 | moving by `a` months and then by `b` is moving by `a + b`, so "next" undoes "previous" |
| Calendar.ReasonOf | components/CalendarModal.tsx:85 | an empty reason becomes absent; any other reason is kept as typed |
| Calendar.CalendarModal.constructor | components/CalendarModal.tsx:19-24 | the current month is shown; no day is selected and the dialog is closed |
| Calendar.CalendarModal.ChangeMonth | components/CalendarModal.tsx:63-68 | the shown month moves by the offset and the selected day and both detail lists are cleared |
| Calendar.CalendarModal.HandleDayClick | components/CalendarModal.tsx:70-74 | the day is selected with the lookups of its cell |
| Calendar.CalendarModal.OpenAddPending | components/CalendarModal.tsx:245 | the dialog opens; nothing else changes |
| Calendar.CalendarModal.SetPendingReason | components/CalendarModal.tsx:273 | the reason text is set; nothing else changes |
| Calendar.CalendarModal.CancelAddPending | components/CalendarModal.tsx:281-284 | the dialog closes and the reason is cleared |
| Calendar.CalendarModal.HandleAddPendingDate | components/CalendarModal.tsx:76-94 | nothing happens without a selected day; otherwise one pending date is added for this household under the selected day's key, with an empty reason left out; on success the reason is cleared and the dialog closes |
| Calendar.CalendarModal.HandleDeletePendingDate | components/CalendarModal.tsx:96-103 | the store deletes the entry or stores the error |
| EditHousehold.PanchayatsOfBlock | components/EditHouseholdModal.tsx:20-27 | no choices for an empty block or a block no location has; otherwise the panchayats of the first location with that block name |
| EditHousehold.SetField | components/EditHouseholdModal.tsx:31-33 | the named field takes the value; every other field, the id and the status stay |
| EditHousehold.EditHouseholdModal.constructor | components/EditHouseholdModal.tsx:13-27 | the form is a copy of the household, with its block's panchayat choices |
| EditHousehold.EditHouseholdModal.OnHouseholdChange | components/EditHouseholdModal.tsx:16-18 | a new household prop resets the form to it |
| EditHousehold.EditHouseholdModal.HandleChange | components/EditHouseholdModal.tsx:31-38 | only the named field changes, except that choosing a block also clears the panchayat; the choices follow the block |
| EditHousehold.EditHouseholdModal.HandleSubmit | components/EditHouseholdModal.tsx:40-43 | the form data is handed on unchanged |
| AdminPanel.SomeBlockNamed | components/AdminPanel.tsx:130 | true exactly when some block name lower-cases to the given text |
| AdminPanel.BlockRejected | components/AdminPanel.tsx:130 | a new block is rejected exactly when its trimmed name is empty or equals an existing block name ignoring case |
| AdminPanel.SomeHouseholdInBlock | components/AdminPanel.tsx:148 | true exactly when some household is in the block |
| AdminPanel.BlockInUse | components/AdminPanel.tsx:148 | true exactly when the id names a location and some household is in its block |
| AdminPanel.SomeHouseholdAt | components/AdminPanel.tsx:184 | true exactly when some household has that block and that panchayat |
| AdminPanel.PanchayatInUse | components/AdminPanel.tsx:184 | true exactly when the id names a location and some household has its block and the panchayat |
| AdminPanel.PanchayatTaken | components/AdminPanel.tsx:167 | true exactly when the block has a panchayat of that name ignoring case |
| AdminPanel.AddBlockKeepsNamesOk | components/AdminPanel.tsx:130-138 | a block the guard lets through keeps all block names trimmed, non-empty and distinct ignoring case |
| AdminPanel.AddPanchayatKeepsDistinct | components/AdminPanel.tsx:167-175 | a panchayat the guard lets through keeps the block's panchayats distinct ignoring case |
| AdminPanel.RemovePanchayatKeepsDistinct | components/AdminPanel.tsx:193-195 | removing a panchayat keeps the rest distinct |
| AdminPanel.PanchayatsAfterAdd | components/AdminPanel.tsx:160-175 | rejected exactly for an empty trimmed name, an unknown block or a duplicate ignoring case; otherwise the block's list with the trimmed name appended |
| AdminPanel.PanchayatsAfterDelete | components/AdminPanel.tsx:183-195 | rejected exactly while a household has the (block, panchayat) pair or when the block is unknown; otherwise the block's list with every entry equal to the name removed (`Without`), the other entries kept in order and with their multiplicities, as `WithoutConcat` and `Without`'s count state |
| AdminPanel.NewHousehold | components/AdminPanel.tsx:87-94 | a created household has the form's fields and status `Pending` |
| AdminPanel.AdminForms.constructor | components/AdminPanel.tsx:39-53 | empty forms; the role defaults to `Collector` |
| AdminPanel.AfterBlockEffect | components/AdminPanel.tsx:72-80 | the effect offers exactly the chosen block's panchayats (none without a block), clears the chosen panchayat when a block is chosen, and changes no other field |
| AdminPanel.NoChoicesAfterBlockDelete | components/AdminPanel.tsx:72-80 | once the only location carrying the chosen block's name is deleted, the effect leaves no panchayat choices |
| AdminPanel.EffectUnfillsHouseholdForm | components/AdminPanel.tsx:72-84 | after the effect has run, the household form fails its guard until a panchayat is chosen again |
| AdminPanel.ChoicesAfterPanchayatUpdate | components/AdminPanel.tsx:72-80 | when the chosen block's first location gets a new panchayat list, the effect offers exactly that list and clears the chosen panchayat |
| AdminPanel.AdminForms.BlockEffect | components/AdminPanel.tsx:72-80 | the forms become `AfterBlockEffect` of the old forms over the given locations |
| AdminPanel.AdminForms.SelectBlock | components/AdminPanel.tsx:72-80 | choosing a block sets its panchayat choices and clears the chosen panchayat; no block gives no choices |
| AdminPanel.AdminForms.ClearHouseholdForm | components/AdminPanel.tsx:96-100 | the five fields of the household form are cleared and no panchayat choices remain |
| AdminPanel.AdminForms.HandleAddHousehold | components/AdminPanel.tsx:82-105 | rejected, with no store call, exactly when a field is empty; otherwise the `Pending` household is added, and the form is cleared only on success |
| AdminPanel.AdminForms.HandleAddUser | components/AdminPanel.tsx:107-125 | rejected exactly when the username or the password is empty; otherwise the user is added, and on success the form is cleared with the role back to `Collector` |
| AdminPanel.AdminForms.HandleAddBlock | components/AdminPanel.tsx:128-145 | rejected exactly by `BlockRejected`; otherwise the trimmed name is added with no panchayats; on success the input is cleared and the block effect runs over the new locations |
| AdminPanel.AdminForms.HandleDeleteBlock | components/AdminPanel.tsx:147-158 | rejected, with no store call, exactly while a household is in the block; otherwise the location is deleted, and on success the block effect runs over the shortened list; the forms stay otherwise |
| AdminPanel.AdminForms.HandleAddPanchayat | components/AdminPanel.tsx:160-181 | rejected exactly by `PanchayatsAfterAdd`; otherwise the block takes the new list; on success its input is cleared and the block effect runs over the new locations |
| AdminPanel.AdminForms.HandleDeletePanchayat | components/AdminPanel.tsx:183-200 | rejected, with no store call, exactly by `PanchayatsAfterDelete`; otherwise the block takes the shortened list, and on success the block effect runs over the new locations; the forms stay otherwise |
| DashboardFigures.WithStatus | components/Dashboard.tsx:13 | the filter never grows the list and keeps exactly the households with that status |
| DashboardFigures.CollectedCount | components/Dashboard.tsx:13 | the collected figure is at most the number of households |
| DashboardFigures.PendingCount | components/Dashboard.tsx:14 | collected plus pending is the number of households |
| DashboardFigures.WithStatusConcat | components/Dashboard.tsx:13 | the status filter works piecewise |
| DashboardFigures.CountsPartition | components/Dashboard.tsx:13-15 | the collected and the pending households together are all households |
| DashboardFigures.PendingCountIsPending | components/Dashboard.tsx:13-15 | the pending figure, computed as a difference, is the number of `Pending` households |
| DashboardFigures.AllWithStatus | components/Dashboard.tsx:13-15 | when every household has one status, that filter keeps all and the other keeps none |
| DashboardFigures.ConsNewestFirst | components/Dashboard.tsx:25 | a record no older than the head of a sorted list can go in front of it |
| DashboardFigures.InsertKeepsRecords | components/Dashboard.tsx:25 | inserting adds exactly that record, keeping all others |
| DashboardFigures.InsertSorted | components/Dashboard.tsx:25 | inserting into a newest-first list keeps it newest first |
| DashboardFigures.SortNewestFirst | components/Dashboard.tsx:24-25 | the sorted copy is newest first and holds exactly the same records |
| DashboardFigures.RecentCollectionsMeaning | components/Dashboard.tsx:24-26 | the recent list has min(5, n) records, newest first, all drawn from the input (all of it when n is at most 5), and no record left out is newer than one shown |
| DashboardFigures.TakeNewest | components/Dashboard.tsx:26 | the first `n` of a sorted list are sorted, drawn from it, and no newer than any record cut off |
| DashboardFigures.BackNoNewer | components/Dashboard.tsx:26 | in a sorted list no record after the cut is newer than one before it |
| DashboardFigures.SortKeepsSorted | components/Dashboard.tsx:24-25 | a list already newest first comes out of the sort unchanged |
| CollectorView.PendingHouseholdsCount | components/CollectorView.tsx:61 | the pending figure is at most the number of households |
| CollectorView.PendingFiguresAgree | components/CollectorView.tsx:61 | the collector's pending figure equals the dashboard's, and it plus the collected figure is the total |
| CollectorView.LocationOf | components/CollectorView.tsx:17-58 | a collect reports coordinates exactly when a position was obtained, and then those coordinates |
| CollectorView.ActionFor | components/CollectorView.tsx:112-134 | the mark button is offered exactly for a `Pending` household, showing "fetching" exactly while its position is requested; a collected one shows the badge |
| CollectorView.MarkedShowsBadge | components/CollectorView.tsx:112-134 | after an accepted mark, the household's entries show the badge instead of the button |
| CollectorView.CollectorPanel.constructor | components/CollectorView.tsx:14-15 | no marker and an empty query |
| CollectorView.CollectorPanel.SetSearchQuery | components/CollectorView.tsx:95 | the query is set; the marker stays |
| CollectorView.CollectorPanel.HandleCollect | components/CollectorView.tsx:17-24 | the marker is set; without geolocation the household is reported at once without coordinates and the marker cleared |
| CollectorView.CollectorPanel.OnPosition | components/CollectorView.tsx:27-34 | the household is reported with the coordinates and the marker cleared |
| CollectorView.CollectorPanel.OnPositionError | components/CollectorView.tsx:35-56 | whatever the error code, the household is still reported, without coordinates, and the marker cleared |
| CollectorView.CollectorPanel.Collect | components/CollectorView.tsx:17-58 | for every outcome of the position request exactly one report is made, with `LocationOf` the outcome, and the marker is cleared |
| CollectorView.CollectOnce | components/CollectorView.tsx:17-58 | exactly one report, for that household, with coordinates exactly when a position was obtained; the marker ends cleared |
| App.RenderView | App.tsx:109-145 | the admin panel exactly for an admin on the admin view; the collector view exactly for a collector on the collector view; the dashboard otherwise |
| App.Page | App.tsx:147-189 | the spinner exactly while loading; then the error exactly when there is a non-empty error text; then the login form when asked for; then the chosen view |
| App.AppState.constructor | App.tsx:12-14 | nobody logged in, the dashboard chosen, no login form |
| App.AppState.HandleLogin | App.tsx:42-61 | true exactly when the lookup found the user and the password matches; then the user is set, the form hidden, and a collector lands on the collector view, an admin on the dashboard; otherwise the shell is unchanged |
| App.AppState.HandleLogout | App.tsx:63-66 | the user is cleared and the dashboard chosen |
| App.AppState.ShowLoginForm | App.tsx:185 | the login form is shown; user and view stay |
| App.AppState.SetCurrentView | App.tsx:184 | the chosen view is set; user and login form stay |
| App.AppState.HandleMarkAsCollected | App.tsx:68-75 | nothing without a logged-in user; otherwise the store marks the household with the current user's id as collector |
| App.AppState.HandleDeleteUser | App.tsx:78-89 | deleting one's own account leaves the store untouched; any other id is deleted by the store |
| App.AppState.HandleUpdateHousehold | App.tsx:91-98 | the edited household is merged into the entries with its id |
| App.AppState.HandleDeleteHousehold | App.tsx:100-107 | the store deletes the household or stores the error |
| App.FailedWriteShowsError | App.tsx:147-175 | with a non-empty fallback, a failed write puts the error screen in place of the whole page, unless the fault is an `Error` with an empty message |
| App.UpdateReplaces | App.tsx:91-93 | after an update with the whole household, every entry with its id is that household and the others are untouched |
| App.LandingScreen | App.tsx:49-53 | after login a collector sees the collector view and an admin the dashboard |
| App.VisitorSeesDashboard | App.tsx:109-145 | with nobody logged in, every view falls back to the dashboard |
| Scenarios.DailyResetAfterMountAsWritten | hooks/useFirebase.ts:233-255 | the daily check as written: mount, load, check again; today is recorded and the loaded households are left exactly as loaded, collected ones included |
| Scenarios.DailyResetAfterMountCorrected | hooks/useFirebase.ts:233-255 | the corrected check over the same run resets every loaded household to `Pending` and records today |
| Scenarios.DailyResetTwiceSameDay | hooks/useFirebase.ts:238-244 | once a check has recorded today, a second check the same day changes nothing |
| Scenarios.CollectWithoutPosition | components/CollectorView.tsx:35-56 | a logged-in collector whose position request fails still marks the household `Collected`; a record without coordinates names the collector; the collector view is shown |
| Scenarios.TwoMarks | hooks/useFirebase.ts:163-180 | on the hook's state, a second accepted mark of a household appends a second record and leaves the households as after the first mark |
| Scenarios.MarkTwice | hooks/useFirebase.ts:163-180 | two accepted marks of one household append the two records, in order, and leave it marked once |
| Scenarios.AddThenDeletePendingDate | hooks/useFirebase.ts:210-225 | adding a pending date under a fresh id and deleting it leaves the pending dates as they were |

Some definitions have no ensures of their own, because a lemma or a caller states what they mean:

- `Text.ToLower`: `Text.ToLowerIdempotent` and `HouseholdSearch.CaseInsensitive`.
- `Text.Contains`: `Text.ContainsIffOccurs` and `Text.ContainsEmpty`.
- `Text.Trim`: `Text.TrimMeaning`, `Text.TrimOccurs`, `Text.TrimmedEmpty` and `Text.TrimIdempotent`.
- `Text.PadStart2`: `Text.TwoDigits`.
- `Calendar.DayKey`: `Calendar.DayKeyRoundTrip` and `Calendar.DayKeyInjective`.
- `Calendar.Classify`: `Calendar.ClassifyMeaning`.
- `Calendar.DayCellFor`: `Calendar.RenderCalendarDays` and `Calendar.MonthDaysAt`.
- `DataStore.AfterMark`: `DataStore.MarkMeaning` and `DataStore.Store.MarkAsCollected`.
- `DataStore.StatusWhere`: `DataStore.UpdateStatusWhere`, `DataStore.ResetAllPending` and `DataStore.Store.ResetStatuses`.
- `DataStore.UpdateErrors`: `DataStore.ResetStep` and `DataStore.Store.ResetStatuses`.
- `DashboardFigures.RecentCollections`: `DashboardFigures.RecentCollectionsMeaning`.
- `DashboardFigures.Insert`: `DashboardFigures.InsertSorted` and `DashboardFigures.InsertKeepsRecords`.
- `Types.MergeHousehold`, `Types.MergeUser` and `Types.MergeLocation`: `Types.StatusPatch`, `Types.WholeHousehold`, `Types.PanchayatsPatch` and `Types.MergeIdempotent`.
- `App.AppState.Screen`: `App.Page`.
- `HouseholdSearch.Matches`: `HouseholdSearch.Keep` and `HouseholdSearch.FilteredHouseholds`.
- `AdminPanel.HouseholdFormFilled`: `AdminPanel.AdminForms.HandleAddHousehold` and `AdminPanel.EffectUnfillsHouseholdForm`.

## Left out

- The hosted document store, its wrapper (`services/firebaseService.ts`, `firebase.ts`) and the seed scripts. Each gateway call is represented by its reply (`Reply`), passed in as a parameter. A fresh id is whatever an accepted add returns.
- Rendering, CSS classes, icons, `alert` and `console` output, the pie chart, `Header.tsx` and `Login.tsx`. The collect flow's alert texts are left out, and so are the error codes' wording.
- Dates. The UTC day of a timestamp (`utcDay`), the shown month's first weekday and length, the current month, "now" and `toDateString` are parameters. Timestamps are integers. A record can fall on another UTC day than the local day the grid shows; that is outside the model.
- Calendar.DayKeyRoundTrip: holds for every integer year. A JavaScript `Date` maps years 0–99 to 1900–1999, and `toISOString` writes years below 1000 with four digits and years above 9999 with six digits and a sign. The model states neither.
- Coordinates are an opaque `Coords` value; `toFixed` display is not modelled.
- Concurrency. `Promise.all` in `loadAllData` and `resetCollections` is modelled as sequential calls in list order. Every update is issued. The reported failure is the first in list order, not the first to arrive in time. The stored error text is that of the last update to fail in list order.
- `localStorage` is the store field `lastResetDate`. Geolocation is an input (`GeoOutcome`), and whether the browser supports it is a flag.
- Text.ToLower: ASCII letters only. `trim` strips ASCII white space, the no-break space, the byte-order mark and the two Unicode line separators. Other Unicode spaces and case mappings are not modelled.
- Ids are one string type. The collector view types household ids as numbers and the rest of the application as strings.
- The `catch` of `handleLogin` cannot be reached, because `authenticateUser` never rethrows. A failed lookup therefore just returns false.
- DashboardFigures.SortNewestFirst: the sort is stable, and records with equal timestamps keep their input order; the contract does not state this. The input list is a value, so sorting a copy trivially leaves it as it was.
- The admin panel's confirmation dialogs (`requestDeleteUser`, `confirmUserDeletion`, `openEditModal`, `openCalendarModal`, `requestDeleteHousehold`, `confirmHouseholdDeletion`) only open and close modals before calling the modelled handlers.
- AdminPanel.AdminForms.HandleAddHousehold, AdminPanel.AdminForms.HandleAddUser, AdminPanel.AdminForms.HandleAddBlock, AdminPanel.AdminForms.HandleDeleteBlock, AdminPanel.AdminForms.HandleAddPanchayat and AdminPanel.AdminForms.HandleDeletePanchayat keep the forms unchanged after a failed write. In the application, the stored error text (when not empty) replaces the page by the error screen (`App.FailedWriteShowsError`). That unmounts the admin panel, and Retry remounts it with empty forms. The model does not capture this unmount and remount, so the forms kept after a failed write stand for nothing on screen.
- Calendar.CalendarModal.HandleAddPendingDate and Calendar.CalendarModal.HandleDeletePendingDate keep the modal's state after a failed write. The modal disappears with the rest of the page behind the error screen in the same way.
- DataStore.Store.AuthenticateUser: the precondition that a found user carries the given username is an assumption about the gateway. Its username lookup (`getByUsername`, a query on `username == …`) is outside the model.
- `updateUser` is provided by the store but no modelled screen calls it. Its store method is modelled.

## Findings

| source | as written | input that shows it | evidently intended | confidence | as-written member | corrected member |
|---|---|---|---|---|---|---|
| hooks/useFirebase.ts:233-255 | The daily check runs on mount, before the bulk load has delivered any household. It resets nothing, yet records today. When the loaded households arrive, the check runs again, sees today recorded, and resets nothing. | Last reset yesterday; the store holds collected households; the app is opened today. After mount and load, every household is still `Collected`, and today is recorded. | The first check of a new day resets the households that were loaded, and only then records the day. | not executed | Scenarios.DailyResetAfterMountAsWritten | Scenarios.DailyResetAfterMountCorrected |
