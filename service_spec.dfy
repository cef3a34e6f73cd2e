/** What the service's operations compute, as functions of the store's rows
    and of the replies the remote services give. The methods of module AirportService
    are proved to do exactly this; module ServiceProperties proves what it means. */
module ServiceSpec {
  import opened Domain
  import opened Gateway
  import opened Store

  /** The errors the service returns. */
  datatype ServiceError =
    | ListingFailed(storeCause: StoreError)
    | NothingToSync
    | SyncIncomplete(updated: nat, total: nat, entries: seq<SyncError>)
    | AviationFetchFailed(cause: FetchError)
    | AirportNotFound(faa: string)
    | WeatherFetchFailed(city: string, cause: FetchError)
    | PersistFailed(storeCause: StoreError)

  /** One entry of the error list a bulk sync accumulates. */
  datatype SyncError =
    | AviationLookupFailed(faa: string, cause: FetchError)
    | NoAviationData(faa: string)
    | WeatherLookupFailed(faa: string, cause: FetchError)
    | UpdateFailed(faa: string, storeCause: StoreError)

  /** The replies the remote services and the store give while one airport is synced. */
  datatype Replies = Replies(aviation: AviationReply, weather: WeatherReply, storeReachable: bool)

  /** The loop state of a bulk sync: the updated counter, the error list, the
      store's rows and the external calls made so far. */
  datatype Tally = Tally(updated: nat, errors: seq<SyncError>, records: map<string, Airport>, calls: seq<Call>)

  /** What a bulk sync returns and leaves behind. */
  datatype SyncReport = SyncReport(updated: nat, error: Option<ServiceError>, records: map<string, Airport>, calls: seq<Call>)

  /** What the single-airport pipeline returns and leaves behind. */
  datatype SingleReport = SingleReport(result: Result<Airport, ServiceError>, records: map<string, Airport>, calls: seq<Call>)

  /** The record a bulk sync writes for a directory record: the directory's
      fields with the looked-up weather, or an empty weather when the lookup failed. */
  function Merged(fetched: Airport, w: Result<string, FetchError>): Airport {
    fetched.(weather := if w.Ok? then w.value else "")
  }

  /** What syncing one airport does: whether its record was persisted, the
      error entries it adds, the store's rows afterwards and the calls it makes. */
  datatype Step = Step(persisted: bool, entries: seq<SyncError>, records: map<string, Airport>, calls: seq<Call>)

  /** The body of the bulk-sync loop for `airport`, over the store's `records`. */
  function SyncStep(airport: Airport, r: Replies, apiKey: string, records: map<string, Airport>): Step {
    var looked := [LookupAirport(airport.faa)];
    match AviationResult(airport.faa, r.aviation)
    case Err(e) => Step(false, [AviationLookupFailed(airport.faa, e)], records, looked)
    case Ok(None) => Step(false, [NoAviationData(airport.faa)], records, looked)
    case Ok(Some(fetched)) =>
      var w := WeatherResult(apiKey, r.weather);
      var rec := Merged(fetched, w);
      var entries := if w.Err? then [WeatherLookupFailed(fetched.faa, w.error)] else [];
      var calls := looked + WeatherCalls(apiKey, fetched.city) + [UpdateRecord(rec.faa)];
      match UpdateError(records, rec, r.storeReachable)
      case None => Step(true, entries, records[rec.faa := rec], calls)
      case Some(e) => Step(false, entries + [UpdateFailed(rec.faa, e)], records, calls)
  }

  /** One iteration of the bulk-sync loop applied to the loop state. */
  function Visit(t: Tally, airport: Airport, r: Replies, apiKey: string): Tally {
    var s := SyncStep(airport, r, apiKey, t.records);
    Tally(if s.persisted then t.updated + 1 else t.updated, t.errors + s.entries, s.records, t.calls + s.calls)
  }

  /** The loop state after the first `n` airports of the listing. */
  function SyncPrefix(listing: seq<Airport>, replies: seq<Replies>, apiKey: string,
                      records: map<string, Airport>, n: nat): Tally
    requires n <= |listing| == |replies|
  {
    if n == 0 then Tally(0, [], records, [])
    else Visit(SyncPrefix(listing, replies, apiKey, records, n - 1), listing[n - 1], replies[n - 1], apiKey)
  }

  /** True when the bulk sync writes a record for `airport`: the directory
      knows it and the store accepts the update. */
  predicate Persists(airport: Airport, r: Replies, keys: set<string>) {
    match AviationResult(airport.faa, r.aviation)
    case Ok(Some(fetched)) => r.storeReachable && fetched.faa in keys
    case _ => false
  }

  /** True when syncing `airport` records no error at all. */
  predicate Clean(airport: Airport, r: Replies, apiKey: string, keys: set<string>) {
    Persists(airport, r, keys) && WeatherResult(apiKey, r.weather).Ok?
  }

  /** How many of the first `n` airports the bulk sync writes. */
  function CountPersisted(listing: seq<Airport>, replies: seq<Replies>, keys: set<string>, n: nat): nat
    requires n <= |listing| == |replies|
  {
    if n == 0 then 0
    else CountPersisted(listing, replies, keys, n - 1) + (if Persists(listing[n - 1], replies[n - 1], keys) then 1 else 0)
  }

  /** The FAA codes of the first `n` airports of `listing`, in order. */
  function FaaCodes(listing: seq<Airport>, n: nat): seq<string>
    requires n <= |listing|
  {
    if n == 0 then [] else FaaCodes(listing, n - 1) + [listing[n - 1].faa]
  }

  /** The FAA codes looked up in the aviation directory by `calls`, in order. */
  function AirportLookups(calls: seq<Call>): seq<string> {
    if calls == [] then []
    else AirportLookups(calls[..|calls| - 1])
           + (if calls[|calls| - 1].LookupAirport? then [calls[|calls| - 1].faa] else [])
  }

  /** A whole bulk sync over the store's `listing` (`listed` is false when the
      listing itself fails). */
  function SyncRun(listed: bool, listing: seq<Airport>, replies: seq<Replies>, apiKey: string,
                   records: map<string, Airport>): SyncReport
    requires |listing| == |replies|
  {
    if !listed then SyncReport(0, Some(ListingFailed(StoreUnavailable)), records, [ListAirports])
    else if |listing| == 0 then SyncReport(0, Some(NothingToSync), records, [ListAirports])
    else
      var t := SyncPrefix(listing, replies, apiKey, records, |listing|);
      var error := if |t.errors| > 0 then Some(SyncIncomplete(t.updated, |listing|, t.errors)) else None;
      SyncReport(t.updated, error, t.records, [ListAirports] + t.calls)
  }

  /** Concatenation regroups freely; used to relate call logs built in different steps. */
  lemma AppendRegroup<T>(a: seq<T>, b: seq<T>, c: seq<T>)
    ensures a + (b + c) == (a + b) + c
  {
  }

  /** The weather text shown for one airport in the enriched listing. */
  function WeatherLabel(apiKey: string, city: string, reply: WeatherReply): (shown: string)
    ensures city == "" ==> shown == "City not available"
    ensures city != "" && WeatherResult(apiKey, reply).Err? ==> shown == "Weather unavailable"
    ensures city != "" && WeatherResult(apiKey, reply).Ok? ==> shown == reply.conditionText
  {
    if city == "" then "City not available"
    else match WeatherResult(apiKey, reply)
      case Err(_) => "Weather unavailable"
      case Ok(text) => text
  }

  /** The row the enriched listing shows for `a`: the stored row with only its
      weather replaced by the label. */
  function Enriched(apiKey: string, a: Airport, reply: WeatherReply): Airport {
    a.(weather := WeatherLabel(apiKey, a.city, reply))
  }

  /** The weather requests the enrichment of the first `n` airports of `listing` sends, in order. */
  function EnrichCalls(listing: seq<Airport>, apiKey: string, n: nat): seq<Call>
    requires n <= |listing|
  {
    if n == 0 then []
    else
      var a := listing[n - 1];
      EnrichCalls(listing, apiKey, n - 1) + (if a.city != "" then WeatherCalls(apiKey, a.city) else [])
  }

  /** The single-airport pipeline: directory lookup, weather lookup, insert. */
  function AirportWithWeather(faa: string, aviation: AviationReply, apiKey: string, weather: WeatherReply,
                              reachable: bool, records: map<string, Airport>): SingleReport
  {
    var looked := [LookupAirport(faa)];
    match AviationResult(faa, aviation)
    case Err(e) => SingleReport(Err(AviationFetchFailed(e)), records, looked)
    case Ok(None) => SingleReport(Err(AirportNotFound(faa)), records, looked)
    case Ok(Some(found)) =>
      var asked := looked + WeatherCalls(apiKey, found.city);
      match WeatherResult(apiKey, weather)
      case Err(e) => SingleReport(Err(WeatherFetchFailed(found.city, e)), records, asked)
      case Ok(text) =>
        var a := found.(weather := text);
        var calls := asked + [CreateRecord(a.faa)];
        match CreateError(records, a, reachable)
        case Some(e) => SingleReport(Err(PersistFailed(e)), records, calls)
        case None =>
          SingleReport(Ok(a), if Inserts(records, a, reachable) then records[a.faa := a] else records, calls)
  }
}
