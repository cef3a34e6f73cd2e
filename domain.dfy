/** The airport record exchanged by the service, the store and the HTTP layer,
    and the small result wrappers used for Go's (value, error) pairs. */
module Domain {

  /** One airport row: fifteen descriptive fields copied from the aviation
      directory plus the last weather condition text. All fields are strings,
      latitude and longitude included. */
  datatype Airport = Airport(
    siteNumber: string,
    facilityName: string,
    faa: string,
    icao: string,
    stateCode: string,
    stateFull: string,
    county: string,
    city: string,
    ownershipType: string,
    useType: string,
    manager: string,
    managerPhone: string,
    latitude: string,
    longitude: string,
    airportStatus: string,
    weather: string)

  /** A Go pointer that may be nil. */
  datatype Option<+T> = None | Some(value: T)

  /** A Go (value, error) pair in which exactly one side is meaningful. */
  datatype Result<+T, +E> = Ok(value: T) | Err(error: E)
}
