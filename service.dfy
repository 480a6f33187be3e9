/**
 * data/service/LocationService.kt: the background service that receives
 * fixes from the fused location provider, keeps the last accepted fix, and
 * saves every fix that moved at least 100 m from it.
 *
 * The geodesic distance (`Location.distanceBetween`) is a vendor routine on
 * floats; here it is any function of two fixes, and the service's
 * `calculateDistance` takes its absolute value as the source does.
 */
module Service {
  import opened Wrappers
  import opened Domain
  import opened Remote
  import Dao
  import Repository
  import LocalMapper

  /** One position sample from the provider (`android.location.Location`). */
  datatype Fix = Fix(latitude: real, longitude: real)

  /** A provider callback's payload; `lastLocation` may be null. */
  datatype LocationResult = LocationResult(lastLocation: Option<Fix>)

  /** `Location.distanceBetween`, signed as the vendor returns it. */
  type DistanceBetween = (Fix, Fix) -> real

  const ACTION_START: string := "ACTION_START"
  const ACTION_STOP: string := "ACTION_STOP"
  /** `MIN_DISTANCE_CHANGE_FOR_UPDATES`, in metres. */
  const MIN_DISTANCE_CHANGE_FOR_UPDATES: real := 100.0
  /** `Service.START_STICKY`. */
  const START_STICKY: int := 1

  /** `calculateDistance`: the absolute value of the vendor's distance. */
  function CalculateDistance(distanceBetween: DistanceBetween, from: Fix, to: Fix): (d: real)
    ensures d >= 0.0
    ensures d == distanceBetween(from, to) || d == -distanceBetween(from, to)
  {
    var raw := distanceBetween(from, to);
    if raw < 0.0 then -raw else raw
  }

  /**
   * The fix a callback accepts, if any: the result's fix when there is no
   * previous fix, or when it lies at least 100 m (inclusive) from the last
   * accepted one.
   */
  function Accept(distanceBetween: DistanceBetween, last: Option<Fix>, result: LocationResult): (a: Option<Fix>)
    ensures result.lastLocation.None? ==> a.None?
    ensures a.Some? ==> a == result.lastLocation
    ensures last.None? ==> a == result.lastLocation
    ensures last.Some? && result.lastLocation.Some? ==>
              (a.Some? <==> CalculateDistance(distanceBetween, last.value, result.lastLocation.value)
                              >= MIN_DISTANCE_CHANGE_FOR_UPDATES)
  {
    match result.lastLocation
    case None => None
    case Some(location) =>
      var shouldSaveLocation := last.None? ||
        CalculateDistance(distanceBetween, last.value, location) >= MIN_DISTANCE_CHANGE_FOR_UPDATES;
      if shouldSaveLocation then Some(location) else None
  }

  /** The last accepted fix after a callback: the new fix if accepted, otherwise unchanged. */
  function NextLastLocation(distanceBetween: DistanceBetween, last: Option<Fix>, result: LocationResult): (next: Option<Fix>)
    ensures last.Some? ==> next.Some?
    ensures result.lastLocation.None? ==> next == last
    ensures next == last || next == result.lastLocation
    ensures next != last ==> Accept(distanceBetween, last, result).Some?
  {
    var a := Accept(distanceBetween, last, result);
    if a.Some? then a else last
  }

  /** The fixes a run of callbacks saves, in order, starting from `last`. */
  function AcceptedFixes(distanceBetween: DistanceBetween, last: Option<Fix>, results: seq<LocationResult>): seq<Fix>
    decreases |results|
  {
    if results == [] then []
    else
      var a := Accept(distanceBetween, last, results[0]);
      (if a.Some? then [a.value] else [])
        + AcceptedFixes(distanceBetween, NextLastLocation(distanceBetween, last, results[0]), results[1..])
  }

  /** `lastLocation` after a run of callbacks starting from `last`. */
  function LastLocationAfter(distanceBetween: DistanceBetween, last: Option<Fix>, results: seq<LocationResult>): Option<Fix>
    decreases |results|
  {
    if results == [] then last
    else LastLocationAfter(distanceBetween, NextLastLocation(distanceBetween, last, results[0]), results[1..])
  }

  /**
   * Consecutive fixes of `acc` are at least 100 m apart, and the first is at
   * least 100 m from `last` when there is one.
   */
  ghost predicate Spaced(distanceBetween: DistanceBetween, last: Option<Fix>, acc: seq<Fix>) {
    && (forall i :: 0 <= i < |acc| - 1 ==>
          CalculateDistance(distanceBetween, acc[i], acc[i + 1]) >= MIN_DISTANCE_CHANGE_FOR_UPDATES)
    && (last.Some? && acc != [] ==>
          CalculateDistance(distanceBetween, last.value, acc[0]) >= MIN_DISTANCE_CHANGE_FOR_UPDATES)
  }

  /** Any run of callbacks saves fixes that are pairwise-consecutively at least 100 m apart. */
  lemma {:induction false} AcceptedFixesSpaced(distanceBetween: DistanceBetween, last: Option<Fix>, results: seq<LocationResult>)
    ensures Spaced(distanceBetween, last, AcceptedFixes(distanceBetween, last, results))
    decreases |results|
  {
    if results != [] {
      var next := NextLastLocation(distanceBetween, last, results[0]);
      var rest := AcceptedFixes(distanceBetween, next, results[1..]);
      AcceptedFixesSpaced(distanceBetween, next, results[1..]);
      var a := Accept(distanceBetween, last, results[0]);
      if a.Some? {
        var acc := [a.value] + rest;
        assert AcceptedFixes(distanceBetween, last, results) == acc;
        assert next == a;
        forall i | 0 <= i < |acc| - 1
          ensures CalculateDistance(distanceBetween, acc[i], acc[i + 1]) >= MIN_DISTANCE_CHANGE_FOR_UPDATES
        {
          if i == 0 {
            assert acc[1] == rest[0];
          } else {
            assert acc[i] == rest[i - 1] && acc[i + 1] == rest[i];
          }
        }
      } else {
        assert AcceptedFixes(distanceBetween, last, results) == rest;
      }
    }
  }

  /**
   * Distance is always measured against the last accepted fix: after a run,
   * `lastLocation` is the last fix saved, or the starting fix when none was.
   */
  lemma {:induction false} LastLocationIsLastAccepted(distanceBetween: DistanceBetween, last: Option<Fix>, results: seq<LocationResult>)
    ensures var acc := AcceptedFixes(distanceBetween, last, results);
      LastLocationAfter(distanceBetween, last, results) == if acc == [] then last else Some(acc[|acc| - 1])
    decreases |results|
  {
    if results != [] {
      var next := NextLastLocation(distanceBetween, last, results[0]);
      LastLocationIsLastAccepted(distanceBetween, next, results[1..]);
    }
  }

  /** With no fix accepted yet, the first result that carries a fix is saved. */
  lemma {:induction false} FirstFixAccepted(distanceBetween: DistanceBetween, results: seq<LocationResult>, k: nat)
    requires k < |results| && results[k].lastLocation.Some?
    requires forall j :: 0 <= j < k ==> results[j].lastLocation.None?
    ensures var acc := AcceptedFixes(distanceBetween, None, results);
      acc != [] && acc[0] == results[k].lastLocation.value
    decreases k
  {
    if k > 0 {
      assert Accept(distanceBetween, None, results[0]).None?;
      FirstFixAccepted(distanceBetween, results[1..], k - 1);
    }
  }

  /** What a start command does to the service. */
  datatype Command = StartUpdates | StopUpdates | Ignore

  /** `when (intent?.action)`: only the two known actions do anything. */
  function Dispatch(action: Option<string>): (c: Command)
    ensures c == StartUpdates <==> action == Some(ACTION_START)
    ensures c == StopUpdates <==> action == Some(ACTION_STOP)
  {
    match action
    case Some(name) =>
      if name == ACTION_START then StartUpdates
      else if name == ACTION_STOP then StopUpdates
      else Ignore
    case None => Ignore
  }

  /** The record `saveLocation` builds for a fix: unassigned id, looked-up address, current time. */
  function NewRecord(fix: Fix, address: Option<string>, now: Timestamp): (l: Location)
    ensures l.id == UNASSIGNED_ID
    ensures l.latitude == fix.latitude && l.longitude == fix.longitude
    ensures l.address == address && l.timestamp == now
  {
    Location(latitude := fix.latitude, longitude := fix.longitude, address := address, timestamp := now)
  }

  /** A record the service builds always adds exactly one row with a fresh id. */
  lemma SavedRecordGrowsTable(t: Dao.Table, fix: Fix, address: Option<string>, now: Timestamp)
    requires Dao.WellFormed(t)
    ensures var r := Dao.Insert(t, LocalMapper.ToEntity(NewRecord(fix, address, now)));
      && |r.rows| == |t.rows| + 1
      && r.rows[..|t.rows|] == t.rows
      && t.nextId !in Dao.Ids(t.rows)
      && r.rows[|t.rows|] == LocalMapper.ToEntity(NewRecord(fix, address, now)).(id := t.nextId)
  {
  }

  class LocationService {
    const repository: Repository.LocationRepository
    /** The vendor's `Location.distanceBetween`. */
    const distanceBetween: DistanceBetween
    /** `lastLocation`: the last accepted fix. */
    var lastLocation: Option<Fix>
    /** Whether `locationCallback` is registered with the fused provider. */
    var receivingUpdates: bool
    /** Whether the service runs in the foreground with its notification. */
    var inForeground: bool
    /** Whether the service has called `stopSelf`. */
    var stopRequested: bool

    /** `onCreate`: no fix accepted yet, no updates requested. */
    constructor (repository: Repository.LocationRepository, distanceBetween: DistanceBetween)
      ensures this.repository == repository && this.distanceBetween == distanceBetween
      ensures lastLocation.None? && !receivingUpdates && !inForeground && !stopRequested
    {
      this.repository := repository;
      this.distanceBetween := distanceBetween;
      lastLocation := None;
      receivingUpdates, inForeground, stopRequested := false, false, false;
    }

    /**
     * `onLocationResult`: an accepted fix becomes `lastLocation` and is saved
     * once; a rejected fix, or a result without one, changes nothing.
     */
    method OnLocationResult(result: LocationResult, now: Timestamp, geocoder: GeocodingService)
      requires repository.dao.Valid()
      modifies this`lastLocation, repository.dao
      ensures repository.dao.Valid()
      ensures lastLocation == NextLastLocation(distanceBetween, old(lastLocation), result)
      ensures var a := Accept(distanceBetween, old(lastLocation), result);
        if a.Some? then
          var address := Repository.LocationRepository.GetAddressFromLocation(a.value.latitude, a.value.longitude, geocoder);
          repository.dao.State() == Dao.Insert(old(repository.dao.State()), LocalMapper.ToEntity(NewRecord(a.value, address, now)))
          && |repository.dao.rows| == |old(repository.dao.rows)| + 1
        else
          repository.dao.State() == old(repository.dao.State())
    {
      match result.lastLocation {
        case None =>
        case Some(location) =>
          var shouldSaveLocation := lastLocation.None? ||
            CalculateDistance(distanceBetween, lastLocation.value, location) >= MIN_DISTANCE_CHANGE_FOR_UPDATES;
          if shouldSaveLocation {
            lastLocation := Some(location);
            SaveLocation(location, now, geocoder);
          }
      }
    }

    /** `saveLocation`: look up the address, then store a new record stamped `now`. */
    method SaveLocation(location: Fix, now: Timestamp, geocoder: GeocodingService)
      requires repository.dao.Valid()
      modifies repository.dao
      ensures repository.dao.Valid()
      ensures var address := Repository.LocationRepository.GetAddressFromLocation(location.latitude, location.longitude, geocoder);
        repository.dao.State() == Dao.Insert(old(repository.dao.State()), LocalMapper.ToEntity(NewRecord(location, address, now)))
      ensures |repository.dao.rows| == |old(repository.dao.rows)| + 1
    {
      var address := Repository.LocationRepository.GetAddressFromLocation(location.latitude, location.longitude, geocoder);
      var locationModel := NewRecord(location, address, now);
      SavedRecordGrowsTable(repository.dao.State(), location, address, now);
      repository.AddLocation(locationModel);
    }

    /** `onStartCommand`: dispatch on the intent's action; always `START_STICKY`. */
    method OnStartCommand(action: Option<string>, hasLocationPermission: bool) returns (r: int)
      modifies this`receivingUpdates, this`inForeground, this`stopRequested
      ensures r == START_STICKY
      ensures lastLocation == old(lastLocation)
      ensures Dispatch(action) == StartUpdates ==>
                if hasLocationPermission then receivingUpdates && inForeground && stopRequested == old(stopRequested)
                else stopRequested && receivingUpdates == old(receivingUpdates) && inForeground == old(inForeground)
      ensures Dispatch(action) == StopUpdates ==> !receivingUpdates && !inForeground && stopRequested
      ensures Dispatch(action) == Ignore ==>
                receivingUpdates == old(receivingUpdates) && inForeground == old(inForeground)
                && stopRequested == old(stopRequested)
    {
      match Dispatch(action) {
        case StartUpdates => StartLocationUpdates(hasLocationPermission);
        case StopUpdates => StopLocationUpdates();
        case Ignore =>
      }
      r := START_STICKY;
    }

    /**
     * `startLocationUpdates`: without fine or coarse permission the service
     * stops itself; otherwise it registers the callback (re-registering the
     * same callback keeps a single subscription) and goes to the foreground.
     */
    method StartLocationUpdates(hasLocationPermission: bool)
      modifies this`receivingUpdates, this`inForeground, this`stopRequested
      ensures hasLocationPermission ==>
                receivingUpdates && inForeground && stopRequested == old(stopRequested)
      ensures !hasLocationPermission ==>
                stopRequested && receivingUpdates == old(receivingUpdates) && inForeground == old(inForeground)
    {
      if !hasLocationPermission {
        stopRequested := true;
        return;
      }
      receivingUpdates := true;
      inForeground := true;
    }

    /** `stopLocationUpdates`: unregister, leave the foreground, stop; `lastLocation` is kept. */
    method StopLocationUpdates()
      modifies this`receivingUpdates, this`inForeground, this`stopRequested
      ensures !receivingUpdates && !inForeground && stopRequested
    {
      receivingUpdates := false;
      inForeground := false;
      stopRequested := true;
    }
  }
}
