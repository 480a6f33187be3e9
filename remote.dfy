/**
 * The reverse-geocoding HTTP interface (data/remote/api/GeocodingService.kt)
 * and its JSON response (data/remote/model/GeocodingResponse.kt).  The HTTP
 * call itself is not modelled: it is a function from the query to an outcome,
 * either a parsed response or a failure (any exception Retrofit or Gson throws).
 */
module Remote {
  import opened Wrappers

  /** One candidate address (`formatted_address`). */
  datatype GeocodingResult = GeocodingResult(formattedAddress: string)

  /** The parsed body of a `geocode/json` reply. */
  datatype GeocodingResponse = GeocodingResponse(
    errorMessage: Option<string>,
    results: seq<GeocodingResult>,
    status: string)

  /**
   * The query parameters of `getAddressFromLocation`.  The `latlng` string is
   * kept as the coordinate pair it is printed from; the API key is a build
   * constant and is left out.
   */
  datatype GeocodeQuery = GeocodeQuery(latitude: real, longitude: real, sensor: string, language: string)

  /** What one call of the remote service produces. */
  datatype GeocodingOutcome = CallFailed | Responded(response: GeocodingResponse)

  /** The remote service, seen from the caller: any query may fail or answer. */
  type GeocodingService = GeocodeQuery -> GeocodingOutcome
}
