/** The field-by-field conversions of data/local/mapper/LocalMapper.kt. */
module LocalMapper {
  import opened Domain

  /** `LocationEntity.toDomain()`: a row as a domain record; mapping back gives the row. */
  function ToDomain(e: LocationEntity): (l: Location)
    ensures ToEntity(l) == e
  {
    Location(id := e.id, latitude := e.latitude, longitude := e.longitude,
             address := e.address, timestamp := e.timestamp)
  }

  /**
   * `Location.toEntity()`: a domain record as a row.  The id is carried over as
   * it is, so an unassigned record (id 0) becomes a row the store numbers itself;
   * an absent address stays absent.
   */
  function ToEntity(l: Location): (e: LocationEntity)
    ensures e.id == l.id && e.address == l.address
    ensures e.latitude == l.latitude && e.longitude == l.longitude && e.timestamp == l.timestamp
  {
    LocationEntity(id := l.id, latitude := l.latitude, longitude := l.longitude,
                   address := l.address, timestamp := l.timestamp)
  }

  /** Mapping a record to a row and back gives the record. */
  lemma RecordRoundTrip(l: Location)
    ensures ToDomain(ToEntity(l)) == l
  {
  }

  /** `entities.map { it.toDomain() }`: element-wise, preserving length and order. */
  function MapToDomain(es: seq<LocationEntity>): (ls: seq<Location>)
    ensures |ls| == |es|
    ensures forall i :: 0 <= i < |es| ==> ToEntity(ls[i]) == es[i]
  {
    seq(|es|, i requires 0 <= i < |es| => ToDomain(es[i]))
  }
}
