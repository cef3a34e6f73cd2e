/** The two remote lookups of the service with HTTP and JSON stripped away:
    what a reply can be, and the rules the service applies to a reply. */
module Gateway {
  import opened Domain

  /** One entry of the aviation directory's answer: an airport without weather. */
  datatype DirectoryEntry = DirectoryEntry(
    siteNumber: string,
    facilityName: string,
    faa: string,
    icao: string,
    stateCode: string,
    stateFull: string,
    county: string,
    city: string,
    ownershipType: string,
    useType: string,
    manager: string,
    managerPhone: string,
    latitude: string,
    longitude: string,
    airportStatus: string)

  /** The outcome of one aviation-directory request. `AviationFailed` stands for
      every failure before a body is decoded (transport error, a status other
      than 200, an unreadable body, a body that is not JSON); otherwise the body
      decodes to a map from FAA code to a list of entries. */
  datatype AviationReply =
    | AviationFailed
    | AviationDecoded(body: map<string, seq<DirectoryEntry>>)

  /** The outcome of one weather request: a failure of any kind, or the
      decoded condition text. */
  datatype WeatherReply =
    | WeatherFailed
    | WeatherDecoded(conditionText: string)

  /** Why a lookup produced no data. */
  datatype FetchError =
    | RequestFailed
    | MissingWeatherApiKey

  /** An external call the service makes, in the order it makes them. */
  datatype Call =
    | ListAirports
    | LookupAirport(faa: string)
    | LookupWeather(city: string)
    | UpdateRecord(faa: string)
    | CreateRecord(faa: string)

  /** The directory fields of a stored airport (its weather dropped). */
  function EntryOf(a: Airport): DirectoryEntry {
    DirectoryEntry(a.siteNumber, a.facilityName, a.faa, a.icao, a.stateCode,
                   a.stateFull, a.county, a.city, a.ownershipType, a.useType,
                   a.manager, a.managerPhone, a.latitude, a.longitude,
                   a.airportStatus)
  }

  /** The airport built from a directory entry: every field copied, weather
      left empty until the weather lookup fills it. */
  function ToAirport(e: DirectoryEntry): (a: Airport)
    ensures EntryOf(a) == e
    ensures a.weather == ""
  {
    Airport(e.siteNumber, e.facilityName, e.faa, e.icao, e.stateCode,
            e.stateFull, e.county, e.city, e.ownershipType, e.useType,
            e.manager, e.managerPhone, e.latitude, e.longitude,
            e.airportStatus, "")
  }

  /** An airport whose weather is cleared is rebuilt exactly from its directory fields. */
  lemma ToAirportOfEntry(a: Airport)
    ensures ToAirport(EntryOf(a)) == a.(weather := "")
  {
  }

  /** What the aviation lookup for `faa` yields from a reply: an error when the
      request failed, nil (not found) when the key is missing or its list is
      empty, and otherwise the first entry of the list as an airport. */
  function AviationResult(faa: string, reply: AviationReply): (r: Result<Option<Airport>, FetchError>)
    ensures r.Err? <==> reply.AviationFailed?
    ensures r == Ok(None) <==> reply.AviationDecoded? && (faa !in reply.body || |reply.body[faa]| == 0)
    ensures r.Ok? && r.value.Some? ==>
              && reply.AviationDecoded? && faa in reply.body && |reply.body[faa]| > 0
              && EntryOf(r.value.value) == reply.body[faa][0]
              && r.value.value.weather == ""
  {
    match reply
    case AviationFailed => Err(RequestFailed)
    case AviationDecoded(body) =>
      if faa !in body || |body[faa]| == 0 then Ok(None)
      else Ok(Some(ToAirport(body[faa][0])))
  }

  /** What the weather lookup yields: it fails before any request when no API
      key is configured; otherwise it fails exactly when the request fails and
      gives the decoded condition text when it succeeds. */
  function WeatherResult(apiKey: string, reply: WeatherReply): (r: Result<string, FetchError>)
    ensures apiKey == "" ==> r == Err(MissingWeatherApiKey)
    ensures apiKey != "" ==> (r.Ok? <==> reply.WeatherDecoded?)
    ensures r.Ok? ==> apiKey != "" && r.value == reply.conditionText
  {
    if apiKey == "" then Err(MissingWeatherApiKey)
    else match reply
      case WeatherFailed => Err(RequestFailed)
      case WeatherDecoded(text) => Ok(text)
  }

  /** The requests a weather lookup for `city` sends: none without an API key. */
  function WeatherCalls(apiKey: string, city: string): seq<Call> {
    if apiKey == "" then [] else [LookupWeather(city)]
  }
}
