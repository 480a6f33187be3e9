/**
 * The records of the location history: the domain model `Location`
 * (domain/model/Location.kt) and the Room row `LocationEntity`
 * (data/local/entity/LocationEntity.kt).
 *
 * Latitude and longitude are Kotlin `Double`s; the model only copies and
 * compares them, so they are `real`.  A `java.util.Date` is compared by its
 * millisecond value, so a timestamp is an `int` supplied by the caller.
 */
module Domain {
  import opened Wrappers

  /** A `java.util.Date`: an opaque, totally ordered point in time. */
  type Timestamp = int

  /** The id a record carries before the store has assigned one (`id: Long = 0`). */
  const UNASSIGNED_ID: int := 0

  /** A recorded fix as the domain and presentation layers see it. */
  datatype Location = Location(
    id: int := UNASSIGNED_ID,
    latitude: real,
    longitude: real,
    address: Option<string>,
    timestamp: Timestamp)

  /** One row of the `locations` table; `id` is the auto-generated primary key. */
  datatype LocationEntity = LocationEntity(
    id: int := UNASSIGNED_ID,
    latitude: real,
    longitude: real,
    address: Option<string>,
    timestamp: Timestamp)
}
