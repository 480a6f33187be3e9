/**
 * data/repository/LocationRepositoryImpl.kt: the repository delegates storage
 * to the DAO, converting with the mapper, and turns one remote geocoding call
 * into a best-effort address.
 */
module Repository {
  import opened Wrappers
  import opened Domain
  import opened Remote
  import opened LocalMapper
  import Dao

  /** The `sensor` query parameter every lookup sends. */
  const SENSOR: string := "true"
  /** The `language` query parameter every lookup sends (Turkish). */
  const LANGUAGE: string := "tr"

  /** The request `getAddressFromLocation` issues for a coordinate. */
  function AddressQuery(latitude: real, longitude: real): (q: GeocodeQuery)
    ensures q.latitude == latitude && q.longitude == longitude
    ensures q.sensor == "true" && q.language == "tr"
  {
    GeocodeQuery(latitude, longitude, SENSOR, LANGUAGE)
  }

  /**
   * `response.results.firstOrNull()?.formattedAddress`, with a failed call
   * caught and turned into "no address".  `status` and `errorMessage` are
   * never consulted.
   */
  function AddressFrom(outcome: GeocodingOutcome): (address: Option<string>)
    ensures address.Some? <==> outcome.Responded? && |outcome.response.results| > 0
    ensures address.Some? ==> address.value == outcome.response.results[0].formattedAddress
  {
    match outcome
    case CallFailed => None
    case Responded(response) =>
      if response.results == [] then None else Some(response.results[0].formattedAddress)
  }

  /** The address does not depend on the reply's status or error message. */
  lemma AddressIgnoresStatus(response: GeocodingResponse, status: string, errorMessage: Option<string>)
    ensures AddressFrom(Responded(response.(status := status, errorMessage := errorMessage)))
         == AddressFrom(Responded(response))
  {
  }

  class LocationRepository {
    const dao: Dao.LocationDao

    constructor (dao: Dao.LocationDao)
      ensures this.dao == dao
    {
      this.dao := dao;
    }

    /** `getLocations`, one snapshot: the DAO listing mapped row by row to domain records. */
    method GetLocations() returns (ls: seq<Location>)
      ensures |ls| == |dao.rows|
      ensures ls == MapToDomain(Dao.SortByTimestamp(dao.rows))
      ensures multiset(seq(|ls|, i requires 0 <= i < |ls| => ToEntity(ls[i]))) == multiset(dao.rows)
    {
      var entities := dao.GetAllLocations();
      ls := MapToDomain(entities);
      assert seq(|ls|, i requires 0 <= i < |ls| => ToEntity(ls[i])) == entities;
    }

    /** `addLocation`: stores the record as a row. */
    method AddLocation(l: Location)
      requires dao.Valid()
      modifies dao
      ensures dao.Valid()
      ensures dao.State() == Dao.Insert(old(dao.State()), ToEntity(l))
    {
      dao.InsertLocation(ToEntity(l));
    }

    /** `clearLocations`: empties the store. */
    method ClearLocations()
      requires dao.Valid()
      modifies dao
      ensures dao.Valid()
      ensures dao.rows == [] && dao.nextId == old(dao.nextId)
    {
      dao.ClearAllLocations();
    }

    /**
     * `getAddressFromLocation`: one call of the remote service with sensor
     * "true" and language "tr"; the first result's formatted address, and
     * absent on an empty result list or on any failure.
     */
    static function GetAddressFromLocation(latitude: real, longitude: real, service: GeocodingService): (a: Option<string>)
      ensures var outcome := service(GeocodeQuery(latitude, longitude, "true", "tr"));
        && (outcome.CallFailed? ==> a.None?)
        && (outcome.Responded? && outcome.response.results == [] ==> a.None?)
        && (outcome.Responded? && outcome.response.results != [] ==>
              a == Some(outcome.response.results[0].formattedAddress))
    {
      AddressFrom(service(AddressQuery(latitude, longitude)))
    }
  }
}
