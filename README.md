# LocationTracker core, modelled in Dafny

LocationTracker is an Android app that records where its user has been. A
background service receives position fixes from the fused location provider
and saves a fix only when it lies at least 100 m from the last fix it
accepted. Each saved fix gets a reverse-geocoded address and goes into a
Room table (`locations`). A view model turns the stored history, the tracking
flag and the user's selection into one UI snapshot. The main activity runs the
permission flow that decides when the splash screen gives way to the map.

This project models that core: the service's acceptance filter and command
dispatch, the DAO's table, the repository and mapper, the view model's state
updates and the activity's permission gate. It proves what each of them
promises.

Modules (one per source file or component):

- `Wrappers` (`wrappers.dfy`): `Option`, which stands in for Kotlin's nullable types.
- `Domain` (`domain.dfy`): `Location` and `LocationEntity`. Both have id default 0 and an optional address; timestamps are integers the caller supplies.
- `Remote` (`remote.dfy`): the geocoding query, its response types, and the outcome of one remote call (`CallFailed` or `Responded`).
- `LocalMapper` (`mapper.dfy`): `toDomain` / `toEntity` and their round trips.
- `Dao` (`dao.dfy`): the `locations` table as a class `LocationDao`. Its fields are `rows` (insertion order; a replaced row keeps its place) and `nextId`, which is SQLite's AUTOINCREMENT counter plus one. Pure spec functions `Insert`, `Cleared` and `SortByTimestamp` come with lemmas about them.
- `Repository` (`repository.dfy`): `LocationRepository`, which delegates to the DAO, and the selection of an address from a geocoding answer.
- `Service` (`service.dfy`): `LocationService`, with `lastLocation`, the acceptance rule, `onStartCommand` dispatch and `saveLocation`. Trace functions over a run of callbacks come with the spacing lemmas.
- `ViewModel` (`viewmodel.dfy`): `LocationUiState` and the class `LocationViewModel`, whose methods replace `state`.
- `Activity` (`activity.dfy`): the `showSplashScreen` / `isRequestingPermissions` transitions. They are a pure `Step` function with trace lemmas, and the class `MainActivity` whose callbacks follow `Step`.

Inputs that stand for things outside the model:

- The vendor distance `Location.distanceBetween` is a function-typed value `(Fix, Fix) -> real`.
- The geocoding HTTP call is a function `GeocodeQuery -> GeocodingOutcome`, passed in by the caller.
- The current time (`Date()`) is a `Timestamp` parameter.
- The permissions the device holds are a `Grants` value.
- The SDK level is the activity's `sdkInt`.
- Whether the service holds a location permission is a boolean.

Behaviour of the code worth knowing:

- A geocoding reply's `status` and `error_message` are never read. A non-OK reply that still lists results yields the first address. A reply is treated as absent only when the call fails or the result list is empty.
- A looked-up address for a selected fix goes into the UI selection only. It is never written back to the store.
- `insertLocation` is Room's `INSERT OR REPLACE ... VALUES (nullif(?, 0), ...)` over an `AUTOINCREMENT` key. So id 0 is replaced by a fresh id above every id the table has held, and clearing the table does not reset that counter.

## Model

| member | source | states |
|---|---|---|
| `LocalMapper.ToDomain` | app/src/main/java/com/mert/locationtracker/data/local/mapper/LocalMapper.kt:6-12 | `toEntity(toDomain(e)) == e` for every row |
| `LocalMapper.ToEntity` | app/src/main/java/com/mert/locationtracker/data/local/mapper/LocalMapper.kt:15-21 | id (including the default 0), address (including absence), latitude, longitude and timestamp are carried over |
| `LocalMapper.RecordRoundTrip` | app/src/main/java/com/mert/locationtracker/data/local/mapper/LocalMapper.kt:6-21 | `toDomain(toEntity(l)) == l` for every domain record |
| `LocalMapper.MapToDomain` | app/src/main/java/com/mert/locationtracker/data/repository/LocationRepositoryImpl.kt:20 | mapping a list keeps its length, and each element maps back to the row at the same position |
| `Dao.IndexOfId` | app/src/main/java/com/mert/locationtracker/data/local/dao/LocationDao.kt:9-10 | finds the first row with the given primary key, and returns the row count exactly when no row has that key |
| `Dao.Insert` | app/src/main/java/com/mert/locationtracker/data/local/dao/LocationDao.kt:9-10 | the id counter never goes back, at most one row is added, and the stored row is present afterwards: with a fresh id when its id is 0, as given otherwise; `InsertWellFormed`, `InsertExistingReplaces` and `InsertUnassignedAppends` state the rest |
| `Dao.Cleared` | app/src/main/java/com/mert/locationtracker/data/local/dao/LocationDao.kt:15-16 | `DELETE FROM locations` leaves no rows and keeps the id counter |
| `Dao.InsertByTimestamp` | app/src/main/java/com/mert/locationtracker/data/local/dao/LocationDao.kt:12-13 | inserting a row into a timestamp-sorted list keeps it sorted and adds exactly that row |
| `Dao.SortByTimestamp` | app/src/main/java/com/mert/locationtracker/data/local/dao/LocationDao.kt:12-13 | `ORDER BY timestamp ASC` yields a permutation of the rows with non-decreasing timestamps |
| `Dao.InsertWellFormed` | app/src/main/java/com/mert/locationtracker/data/local/dao/LocationDao.kt:9-10 | every insert keeps ids unique and non-zero, and keeps all ids below the next fresh id |
| `Dao.InsertExistingReplaces` | app/src/main/java/com/mert/locationtracker/data/local/dao/LocationDao.kt:9-10 | REPLACE on an existing id overwrites that row only; the row count and all other rows are unchanged |
| `Dao.InsertUnassignedAppends` | app/src/main/java/com/mert/locationtracker/data/local/entity/LocationEntity.kt:9-10 | an insert with id 0 adds exactly one row with a fresh id that no existing row has; the old rows are unchanged |
| `Dao.InsertedRowListed` | app/src/main/java/com/mert/locationtracker/data/local/dao/LocationDao.kt:9-13 | after any insert the listing is still in timestamp order and contains the stored row (with its assigned id) |
| `Dao.ClearedListsNothing` | app/src/main/java/com/mert/locationtracker/data/local/dao/LocationDao.kt:12-16 | after clearing, the listing is empty whatever the table held |
| `Dao.LocationDao.constructor` | app/src/main/java/com/mert/locationtracker/data/local/entity/LocationEntity.kt:7-15 | a new database has no rows and its first fresh id is 1 |
| `Dao.LocationDao.InsertLocation` | app/src/main/java/com/mert/locationtracker/data/local/dao/LocationDao.kt:9-10 | the new table is `Insert(old table, e)`, and the invariant is kept |
| `Dao.LocationDao.GetAllLocations` | app/src/main/java/com/mert/locationtracker/data/local/dao/LocationDao.kt:12-13 | returns exactly the stored rows, as a permutation, with timestamps non-decreasing |
| `Dao.LocationDao.ClearAllLocations` | app/src/main/java/com/mert/locationtracker/data/local/dao/LocationDao.kt:15-16 | the new table is `Cleared(old table)` |
| `Repository.AddressQuery` | app/src/main/java/com/mert/locationtracker/data/repository/LocationRepositoryImpl.kt:34-38 | the request carries the coordinate, sensor `"true"` and language `"tr"` |
| `Repository.AddressFrom` | app/src/main/java/com/mert/locationtracker/data/repository/LocationRepositoryImpl.kt:39-43 | an address exactly when the call succeeded and the reply lists at least one result, and then the first result's formatted address; `AddressIgnoresStatus` adds that status and error message play no part |
| `Repository.AddressIgnoresStatus` | app/src/main/java/com/mert/locationtracker/data/repository/LocationRepositoryImpl.kt:39 | the chosen address does not depend on the reply's `status` or `errorMessage` |
| `Repository.LocationRepository.constructor` | app/src/main/java/com/mert/locationtracker/data/repository/LocationRepositoryImpl.kt:13-16 | the repository wraps the given DAO |
| `Repository.LocationRepository.GetLocations` | app/src/main/java/com/mert/locationtracker/data/repository/LocationRepositoryImpl.kt:18-22 | the DAO listing mapped element-wise by `toDomain`: same length and order, and a permutation of the stored rows |
| `Repository.LocationRepository.AddLocation` | app/src/main/java/com/mert/locationtracker/data/repository/LocationRepositoryImpl.kt:24-26 | stores `toEntity(l)` through the DAO's insert |
| `Repository.LocationRepository.ClearLocations` | app/src/main/java/com/mert/locationtracker/data/repository/LocationRepositoryImpl.kt:28-30 | the store is empty afterwards |
| `Repository.LocationRepository.GetAddressFromLocation` | app/src/main/java/com/mert/locationtracker/data/repository/LocationRepositoryImpl.kt:32-44 | queries with sensor "true" and language "tr"; returns the first result's formatted address, and absent on an empty list or a failed call |
| `Service.CalculateDistance` | app/src/main/java/com/mert/locationtracker/data/service/LocationService.kt:118-126 | the distance is the vendor value or its negation, and never negative |
| `Service.Accept` | app/src/main/java/com/mert/locationtracker/data/service/LocationService.kt:44-53 | a result without a fix is ignored; with no previous fix the fix is always accepted; otherwise it is accepted iff its distance is at least 100 (inclusive) |
| `Service.NextLastLocation` | app/src/main/java/com/mert/locationtracker/data/service/LocationService.kt:45-51 | `lastLocation` is never reset to null, stays put when the result has no fix, and changes only to an accepted fix; `LastLocationIsLastAccepted` ties it to the saved fixes of a run |
| `Service.AcceptedFixesSpaced` | app/src/main/java/com/mert/locationtracker/data/service/LocationService.kt:43-55 | in any run of callbacks, consecutive saved fixes are at least 100 apart, and the first is at least 100 from the previously accepted fix |
| `Service.LastLocationIsLastAccepted` | app/src/main/java/com/mert/locationtracker/data/service/LocationService.kt:49-52 | after any run, `lastLocation` is the last saved fix (or the starting one), so rejected fixes are never measured against |
| `Service.FirstFixAccepted` | app/src/main/java/com/mert/locationtracker/data/service/LocationService.kt:46 | with no fix accepted yet, the first result carrying a fix is saved |
| `Service.Dispatch` | app/src/main/java/com/mert/locationtracker/data/service/LocationService.kt:59-62 | `ACTION_START` only starts, `ACTION_STOP` only stops, and any other or null action does neither |
| `Service.NewRecord` | app/src/main/java/com/mert/locationtracker/data/service/LocationService.kt:107-112 | the saved record has id 0, the fix's latitude and longitude, the looked-up address (possibly absent) and the given time |
| `Service.SavedRecordGrowsTable` | app/src/main/java/com/mert/locationtracker/data/service/LocationService.kt:107-114 | storing a record built by the service adds exactly one row with a fresh id and leaves existing rows unchanged |
| `Service.LocationService.constructor` | app/src/main/java/com/mert/locationtracker/data/service/LocationService.kt:37-42 | no fix accepted yet, no updates requested |
| `Service.LocationService.OnLocationResult` | app/src/main/java/com/mert/locationtracker/data/service/LocationService.kt:43-55 | an accepted fix becomes `lastLocation` and adds exactly one stored row; a rejected fix or a missing fix changes neither |
| `Service.LocationService.SaveLocation` | app/src/main/java/com/mert/locationtracker/data/service/LocationService.kt:100-116 | stores `NewRecord(fix, looked-up address, now)`, which grows the table by one |
| `Service.LocationService.OnStartCommand` | app/src/main/java/com/mert/locationtracker/data/service/LocationService.kt:58-64 | always returns `START_STICKY`; each action has exactly its own effect; `lastLocation` is untouched |
| `Service.LocationService.StartLocationUpdates` | app/src/main/java/com/mert/locationtracker/data/service/LocationService.kt:66-92 | without permission the service stops itself; with permission it subscribes once and goes to the foreground |
| `Service.LocationService.StopLocationUpdates` | app/src/main/java/com/mert/locationtracker/data/service/LocationService.kt:94-98 | unsubscribes, leaves the foreground and stops; `lastLocation` is not reset |
| `ViewModel.LocationUiState.HasLocations` | app/src/main/java/com/mert/locationtracker/presentation/viewmodel/LocationViewModel.kt:132 | true iff the list is non-empty |
| `ViewModel.InitialState` | app/src/main/java/com/mert/locationtracker/presentation/viewmodel/LocationViewModel.kt:125-131 | empty list, not tracking, loading, no selection, no current position |
| `ViewModel.LocationViewModel.constructor` | app/src/main/java/com/mert/locationtracker/presentation/viewmodel/LocationViewModel.kt:31-39 | the state starts as `LocationUiState()` |
| `ViewModel.LocationViewModel.CollectLocations` | app/src/main/java/com/mert/locationtracker/presentation/viewmodel/LocationViewModel.kt:41-50 | a snapshot of the stored history replaces `locations` and loading ends; nothing else changes |
| `ViewModel.LocationViewModel.GetCurrentLocation` | app/src/main/java/com/mert/locationtracker/presentation/viewmodel/LocationViewModel.kt:52-81 | with permission, a known position becomes `currentUserLocation`; otherwise nothing changes |
| `ViewModel.LocationViewModel.StartLocationTracking` | app/src/main/java/com/mert/locationtracker/presentation/viewmodel/LocationViewModel.kt:83-86 | sends the service's start action and sets only `isTracking := true` (so a repeat call changes nothing) |
| `ViewModel.LocationViewModel.StopLocationTracking` | app/src/main/java/com/mert/locationtracker/presentation/viewmodel/LocationViewModel.kt:88-91 | sends the service's stop action and sets only `isTracking := false` (so a repeat call changes nothing) |
| `ViewModel.LocationViewModel.ClearLocations` | app/src/main/java/com/mert/locationtracker/presentation/viewmodel/LocationViewModel.kt:93-97 | empties the store and leaves the UI state as it was |
| `ViewModel.LocationViewModel.SelectLocation` | app/src/main/java/com/mert/locationtracker/presentation/viewmodel/LocationViewModel.kt:99-101 | changes only `selectedLocation`, to the argument |
| `ViewModel.LocationViewModel.GetAddressForSelectedLocation` | app/src/main/java/com/mert/locationtracker/presentation/viewmodel/LocationViewModel.kt:103-118 | does nothing without a selection or when the selection has a non-empty address; otherwise replaces only the selection's address with the lookup result; `locations` is never touched |
| `ViewModel.LocationViewModel.ClearSelectedLocation` | app/src/main/java/com/mert/locationtracker/presentation/viewmodel/LocationViewModel.kt:120-122 | changes only `selectedLocation`, to none |
| `Activity.HasMinimumLocationPermissions` | app/src/main/java/com/mert/locationtracker/MainActivity.kt:141-143 | fine alone or coarse alone suffices, and holding neither fails; `HasRequiredPermissions` and `Step`'s `Resumed` case state how `onResume` and the splash gate use it |
| `Activity.MinimumIgnoresBackground` | app/src/main/java/com/mert/locationtracker/MainActivity.kt:141-143 | the minimum does not depend on the background permission |
| `Activity.HasRequiredPermissions` | app/src/main/java/com/mert/locationtracker/MainActivity.kt:145-154 | the required permissions always include the minimum that `onResume` checks; below SDK 29 the two coincide; from 29 on they hold exactly when fine or coarse location and background location are held |
| `Activity.ForegroundLocationGranted` | app/src/main/java/com/mert/locationtracker/MainActivity.kt:37-39 | the answer grants fine or coarse, and a missing entry counts as denied |
| `Activity.Step` | app/src/main/java/com/mert/locationtracker/MainActivity.kt:30-161 | the splash, once hidden, stays hidden; each permission-result callback clears `isRequestingPermissions` unless it launches the background request, and `onPermissionsGranted` and `onResume` leave it as it was; a foreground denial keeps the splash; a foreground grant hides it below Q, or from Q on when background is already held; a background answer hides it either way; `onResume` hides it exactly when fine or coarse is held |
| `Activity.SplashStaysHidden` | app/src/main/java/com/mert/locationtracker/MainActivity.kt:30-161 | after any sequence of events a hidden splash screen is still hidden |
| `Activity.SplashShownUntilHidden` | app/src/main/java/com/mert/locationtracker/MainActivity.kt:30-161 | a shown splash survives a run iff no event of the run hid it |
| `Activity.MainActivity.constructor` | app/src/main/java/com/mert/locationtracker/MainActivity.kt:30-31 | the splash is shown and no request is running |
| `Activity.MainActivity.OnCreate` | app/src/main/java/com/mert/locationtracker/MainActivity.kt:75-78 | launches the foreground request |
| `Activity.MainActivity.RequestLocationPermissions` | app/src/main/java/com/mert/locationtracker/MainActivity.kt:105-113 | sets `isRequestingPermissions` |
| `Activity.MainActivity.RequestBackgroundLocationPermission` | app/src/main/java/com/mert/locationtracker/MainActivity.kt:131-136 | sets `isRequestingPermissions` only from SDK 29 on |
| `Activity.MainActivity.OnLocationPermissionResult` | app/src/main/java/com/mert/locationtracker/MainActivity.kt:33-58 | follows `Step` for a foreground answer |
| `Activity.MainActivity.OnBackgroundPermissionResult` | app/src/main/java/com/mert/locationtracker/MainActivity.kt:60-73 | hides the splash and clears the request flag, granted or not |
| `Activity.MainActivity.OnSplashPermissionsGranted` | app/src/main/java/com/mert/locationtracker/MainActivity.kt:88-90 | hides the splash |
| `Activity.MainActivity.OnResume` | app/src/main/java/com/mert/locationtracker/MainActivity.kt:156-161 | hides the splash exactly when fine or coarse is held, otherwise changes nothing |

## Left out

- Geodesic distance: `Location.distanceBetween` and its `Float` arithmetic are an arbitrary real-valued function. Only the `abs` and the inclusive comparison with 100 are modelled.
- Floating point: latitudes and longitudes are reals that are only copied and compared. The `"$latitude,$longitude"` query string, which depends on `Double.toString`, is kept as the coordinate pair.
- Platform calls in the service: the fused-location request parameters, notification channel and notification, `startForeground`/`stopForeground`/`stopSelf` become three booleans (`receivingUpdates`, `inForeground`, `stopRequested`). The `SecurityException` handler is not modelled. The platform destroying a stopped service instance is not modelled.
- Coroutines and `Flow`: every `launch` is one atomic step. The live query is one snapshot per emission (`CollectLocations`). The race in which a slow address lookup overwrites a newer selection is not modelled.
- HTTP, Retrofit and Gson: a call is either a parsed reply or a failure. The API key is a build constant and is left out. Gson filling a declared non-null field with null is treated as part of the failure case.
- Storage failures and the 64-bit limit of `Long` ids (SQLite's `SQLITE_FULL` at the largest rowid): ids are unbounded integers.
- The physical row order of SQLite: ties in `ORDER BY timestamp ASC` are left open by SQL. `SortByTimestamp` fixes one order, stable in insertion order. Its contract promises only sortedness and the permutation.
- Dependency injection, `LocationDatabase.kt`, and the one-line use cases: the view model calls the repository directly. The start/stop use cases become the intent action the view model's method returns.
- The UI files (`MapScreen.kt`, `SplashScreen.kt`, `Theme.kt`). The splash screen's choice of when to fire `onPermissionsGranted` is not modelled; the callback's effect is (`OnSplashPermissionsGranted`). Toasts, the settings redirect and `setContent` are side effects only. `onCreate` is modelled only for its permission request.
- `hasPermission` and `checkSelfPermission`: the answers are the `Grants` input.
