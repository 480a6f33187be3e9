/**
 * presentation/viewmodel/LocationViewModel.kt: one immutable UI snapshot
 * (`LocationUiState`) that the view model replaces on every event.  Each
 * coroutine the view model launches is modelled as one atomic step.
 */
module ViewModel {
  import opened Wrappers
  import opened Domain
  import opened Remote
  import Repository
  import Service
  import Dao
  import LocalMapper

  /** The map library's `LatLng`. */
  datatype LatLng = LatLng(latitude: real, longitude: real)

  /** `LocationUiState` with the declared defaults. */
  datatype LocationUiState = LocationUiState(
    locations: seq<Location> := [],
    isTracking: bool := false,
    isLoading: bool := true,
    selectedLocation: Option<Location> := None,
    currentUserLocation: Option<LatLng> := None)
  {
    /** `hasLocations`: some fix is on record (enables the reset button). */
    predicate HasLocations()
      ensures HasLocations() <==> |locations| > 0
    {
      locations != []
    }
  }

  /** `String?.isNullOrEmpty()`. */
  predicate IsNullOrEmpty(s: Option<string>) {
    s.None? || s.value == ""
  }

  /** `LocationUiState()`: no history, not tracking, loading, nothing selected, no position. */
  lemma InitialState()
    ensures var s := LocationUiState();
      && s.locations == [] && !s.HasLocations() && !s.isTracking && s.isLoading
      && s.selectedLocation.None? && s.currentUserLocation.None?
  {
  }

  class LocationViewModel {
    const repository: Repository.LocationRepository
    /** `_state`. */
    var state: LocationUiState

    /** The constructor; the two coroutines `init` launches run later as `CollectLocations` and `GetCurrentLocation`. */
    constructor (repository: Repository.LocationRepository)
      ensures this.repository == repository
      ensures state == LocationUiState()
    {
      this.repository := repository;
      state := LocationUiState();
    }

    /**
     * One emission of `getLocations`' collector: the stored history replaces
     * `locations` and loading ends; nothing else changes.
     */
    method CollectLocations()
      modifies this`state
      ensures state == old(state).(locations := state.locations, isLoading := false)
      ensures state.locations == LocalMapper.MapToDomain(Dao.SortByTimestamp(repository.dao.rows))
      ensures state.HasLocations() <==> repository.dao.rows != []
    {
      var locations := repository.GetLocations();
      state := state.(locations := locations, isLoading := false);
    }

    /**
     * `getCurrentLocation`: with fine or coarse permission, a non-null last
     * known position becomes `currentUserLocation`; otherwise nothing changes.
     */
    method GetCurrentLocation(fineGranted: bool, coarseGranted: bool, lastKnown: Option<Service.Fix>)
      modifies this`state
      ensures (fineGranted || coarseGranted) && lastKnown.Some? ==>
                state == old(state).(currentUserLocation := Some(LatLng(lastKnown.value.latitude, lastKnown.value.longitude)))
      ensures !(fineGranted || coarseGranted) || lastKnown.None? ==> state == old(state)
    {
      if fineGranted || coarseGranted {
        match lastKnown {
          case Some(location) =>
            state := state.(currentUserLocation := Some(LatLng(location.latitude, location.longitude)));
          case None =>
        }
      }
    }

    /** `startLocationTracking`: sends `ACTION_START` to the service and marks tracking on. */
    method StartLocationTracking() returns (action: string)
      modifies this`state
      ensures action == Service.ACTION_START && Service.Dispatch(Some(action)) == Service.StartUpdates
      ensures state == old(state).(isTracking := true)
    {
      action := Service.ACTION_START;
      state := state.(isTracking := true);
    }

    /** `stopLocationTracking`: sends `ACTION_STOP` to the service and marks tracking off. */
    method StopLocationTracking() returns (action: string)
      modifies this`state
      ensures action == Service.ACTION_STOP && Service.Dispatch(Some(action)) == Service.StopUpdates
      ensures state == old(state).(isTracking := false)
    {
      action := Service.ACTION_STOP;
      state := state.(isTracking := false);
    }

    /** `clearLocations`: empties the store; the UI state only changes on the next emission. */
    method ClearLocations()
      requires repository.dao.Valid()
      modifies repository.dao
      ensures repository.dao.Valid()
      ensures repository.dao.rows == []
      ensures state == old(state)
    {
      repository.ClearLocations();
    }

    /** `selectLocation`: only the selection changes. */
    method SelectLocation(location: Option<Location>)
      modifies this`state
      ensures state == old(state).(selectedLocation := location)
    {
      state := state.(selectedLocation := location);
    }

    /**
     * `getAddressForSelectedLocation`: when a fix is selected and its address
     * is null or empty, look it up and put the result (possibly absent) into
     * the selection only; otherwise do nothing.
     */
    method GetAddressForSelectedLocation(geocoder: GeocodingService)
      modifies this`state
      ensures old(state).selectedLocation.None? ==> state == old(state)
      ensures old(state).selectedLocation.Some? && !IsNullOrEmpty(old(state).selectedLocation.value.address) ==>
                state == old(state)
      ensures old(state).selectedLocation.Some? && IsNullOrEmpty(old(state).selectedLocation.value.address) ==>
                var selected := old(state).selectedLocation.value;
                state == old(state).(selectedLocation := Some(selected.(address :=
                  Repository.LocationRepository.GetAddressFromLocation(selected.latitude, selected.longitude, geocoder))))
    {
      if state.selectedLocation.None? {
        return;
      }
      var selectedLocation := state.selectedLocation.value;
      if IsNullOrEmpty(selectedLocation.address) {
        var address := Repository.LocationRepository.GetAddressFromLocation(
          selectedLocation.latitude, selectedLocation.longitude, geocoder);
        state := state.(selectedLocation := Some(selectedLocation.(address := address)));
      }
    }

    /** `clearSelectedLocation`: only the selection changes, to none. */
    method ClearSelectedLocation()
      modifies this`state
      ensures state == old(state).(selectedLocation := None)
    {
      state := state.(selectedLocation := None);
    }
  }
}
