/** The service: the bulk sync, the enriched listing and the single-airport
    pipeline, over an airport store, with the remote replies as parameters.
    Every external call is appended to the ghost `trace`. */
module AirportService {
  import opened Domain
  import opened Gateway
  import opened Store
  import opened ServiceSpec

  class Service {
    const store: AirportStore
    /** The configured weather API key; empty when none is configured. */
    const weatherApiKey: string
    /** The external calls made so far, oldest first. */
    ghost var trace: seq<Call>

    ghost predicate Valid()
      reads this, store
    {
      store.Valid()
    }

    constructor (store: AirportStore, weatherApiKey: string)
      requires store.Valid()
      ensures Valid()
      ensures this.store == store && this.weatherApiKey == weatherApiKey && trace == []
    {
      this.store := store;
      this.weatherApiKey := weatherApiKey;
      trace := [];
    }

    /** The aviation-directory lookup for `faa`, answered by `reply`. */
    method FetchAirportFromAviationApi(faa: string, reply: AviationReply) returns (r: Result<Option<Airport>, FetchError>)
      modifies this`trace
      ensures trace == old(trace) + [LookupAirport(faa)]
      ensures r == AviationResult(faa, reply)
    {
      trace := trace + [LookupAirport(faa)];
      r := AviationResult(faa, reply);
    }

    /** The weather lookup for `city`, answered by `reply`; no request is sent
        without an API key. */
    method FetchWeather(city: string, reply: WeatherReply) returns (r: Result<string, FetchError>)
      modifies this`trace
      ensures trace == old(trace) + WeatherCalls(weatherApiKey, city)
      ensures r == WeatherResult(weatherApiKey, reply)
    {
      if weatherApiKey == "" {
        return Err(MissingWeatherApiKey);
      }
      trace := trace + [LookupWeather(city)];
      r := WeatherResult(weatherApiKey, reply);
    }

    /** One pass of the bulk-sync loop: refreshes `airport` from the directory
        and the weather service and writes it back. The stored weather of
        `airport` is overwritten whatever the lookups return. */
    method SyncAirport(airport: Airport, reply: Replies) returns (persisted: bool, entries: seq<SyncError>)
      requires Valid()
      modifies this`trace, store
      ensures Valid() && store.order == old(store.order)
      ensures var s := SyncStep(airport, reply, weatherApiKey, old(store.records));
              && persisted == s.persisted && entries == s.entries
              && store.records == s.records && trace == old(trace) + s.calls
    {
      var fetched := FetchAirportFromAviationApi(airport.faa, reply.aviation);
      if fetched.Err? {
        return false, [AviationLookupFailed(airport.faa, fetched.error)];
      }
      if fetched.value.None? {
        return false, [NoAviationData(airport.faa)];
      }

      var realAirport := fetched.value.value;
      realAirport := realAirport.(weather := airport.weather);
      var weatherText := FetchWeather(realAirport.city, reply.weather);
      entries := [];
      if weatherText.Err? {
        entries := [WeatherLookupFailed(realAirport.faa, weatherText.error)];
        realAirport := realAirport.(weather := "");
      } else {
        realAirport := realAirport.(weather := weatherText.value);
      }

      ghost var looked := [LookupAirport(airport.faa)] + WeatherCalls(weatherApiKey, realAirport.city);
      AppendRegroup(old(trace), [LookupAirport(airport.faa)], WeatherCalls(weatherApiKey, realAirport.city));
      AppendRegroup(old(trace), looked, [UpdateRecord(realAirport.faa)]);
      trace := trace + [UpdateRecord(realAirport.faa)];
      var failure := store.UpdateAirport(realAirport, reply.storeReachable);
      if failure.Some? {
        return false, entries + [UpdateFailed(realAirport.faa, failure.value)];
      }
      persisted := true;
    }

    /** The loop of the bulk sync over the listed `airports`, from the first
        airport to the last, each visited once. */
    method SyncEach(airports: seq<Airport>, replies: seq<Replies>) returns (updated: nat, errors: seq<SyncError>)
      requires Valid()
      requires |airports| == |replies|
      modifies this`trace, store
      ensures Valid() && store.order == old(store.order)
      ensures var t := SyncPrefix(airports, replies, weatherApiKey, old(store.records), |airports|);
              && updated == t.updated && errors == t.errors
              && store.records == t.records && trace == old(trace) + t.calls
    {
      updated := 0;
      errors := [];
      ghost var tally := Tally(0, [], store.records, []);
      for i := 0 to |airports|
        invariant store.Valid() && store.order == old(store.order)
        invariant tally == SyncPrefix(airports, replies, weatherApiKey, old(store.records), i)
        invariant updated == tally.updated && errors == tally.errors && store.records == tally.records
        invariant trace == old(trace) + tally.calls
      {
        ghost var step := SyncStep(airports[i], replies[i], weatherApiKey, store.records);
        AppendRegroup(old(trace), tally.calls, step.calls);
        var persisted, entries := SyncAirport(airports[i], replies[i]);
        errors := errors + entries;
        if persisted {
          updated := updated + 1;
        }
        tally := Visit(tally, airports[i], replies[i], weatherApiKey);
      }
    }

    /** Refreshes every stored airport from the directory and the weather
        service. `replies[i]` answers the calls made for the i-th listed airport. */
    method SyncAllAirports(listed: bool, replies: seq<Replies>) returns (updated: nat, err: Option<ServiceError>)
      requires Valid()
      requires |replies| == |store.order|
      modifies this`trace, store
      ensures Valid() && store.order == old(store.order)
      ensures var run := SyncRun(listed, old(store.Listing()), replies, weatherApiKey, old(store.records));
              && updated == run.updated && err == run.error
              && store.records == run.records
              && trace == old(trace) + run.calls
    {
      ghost var run := SyncRun(listed, store.Listing(), replies, weatherApiKey, store.records);
      trace := trace + [ListAirports];
      var all := store.GetAllAirports(listed);
      if all.Err? {
        assert run == SyncReport(0, Some(ListingFailed(all.error)), store.records, [ListAirports]);
        return 0, Some(ListingFailed(all.error));
      }
      var airports := all.value;
      if |airports| == 0 {
        assert run == SyncReport(0, Some(NothingToSync), store.records, [ListAirports]);
        return 0, Some(NothingToSync);
      }

      ghost var t := SyncPrefix(airports, replies, weatherApiKey, store.records, |airports|);
      assert run == SyncReport(t.updated, if |t.errors| > 0 then Some(SyncIncomplete(t.updated, |airports|, t.errors)) else None,
                               t.records, [ListAirports] + t.calls);
      ghost var listedTrace := trace;
      var errors;
      updated, errors := SyncEach(airports, replies);
      assert trace == listedTrace + t.calls;
      AppendRegroup(old(trace), [ListAirports], t.calls);
      if |errors| > 0 {
        err := Some(SyncIncomplete(updated, |airports|, errors));
      } else {
        err := None;
      }
    }

    /** The weather text the enriched listing shows for a city: no request
        for an empty city, a fixed text when the lookup fails. */
    method WeatherTextFor(city: string, reply: WeatherReply) returns (text: string)
      modifies this`trace
      ensures text == WeatherLabel(weatherApiKey, city, reply)
      ensures trace == old(trace) + (if city != "" then WeatherCalls(weatherApiKey, city) else [])
    {
      if city != "" {
        var w := FetchWeather(city, reply);
        if w.Err? {
          text := "Weather unavailable";
        } else {
          text := w.value;
        }
      } else {
        text := "City not available";
      }
    }

    /** The enrichment loop: fills a fresh array, index by index, with each
        airport carrying the weather text to show for it. */
    method EnrichEach(airports: seq<Airport>, replies: seq<WeatherReply>) returns (enriched: seq<Airport>)
      requires |airports| == |replies|
      modifies this`trace
      ensures |enriched| == |airports|
      ensures forall i :: 0 <= i < |airports| ==> enriched[i] == Enriched(weatherApiKey, airports[i], replies[i])
      ensures trace == old(trace) + EnrichCalls(airports, weatherApiKey, |airports|)
    {
      var slots := new Airport[|airports|];
      ghost var calls: seq<Call> := [];
      for i := 0 to |airports|
        invariant calls == EnrichCalls(airports, weatherApiKey, i)
        invariant trace == old(trace) + calls
        invariant forall j :: 0 <= j < i ==> slots[j] == Enriched(weatherApiKey, airports[j], replies[j])
      {
        ghost var last := if airports[i].city != "" then WeatherCalls(weatherApiKey, airports[i].city) else [];
        AppendRegroup(old(trace), calls, last);

        var weatherText := WeatherTextFor(airports[i].city, replies[i]);
        slots[i] := airports[i].(weather := weatherText);
        calls := calls + last;
      }
      enriched := slots[..];
    }

    /** Lists every stored airport with its current weather in place of the
        stored one. `replies[i]` answers the weather lookup of the i-th airport. */
    method GetAllAirportsWithWeather(listed: bool, replies: seq<WeatherReply>) returns (r: Result<seq<Airport>, ServiceError>)
      requires Valid()
      requires |replies| == |store.order|
      modifies this`trace
      ensures r.Err? <==> !listed
      ensures r.Err? ==> r.error == ListingFailed(StoreUnavailable) && trace == old(trace) + [ListAirports]
      ensures r.Ok? ==>
                var listing := store.Listing();
                && |r.value| == |listing|
                && (forall i :: 0 <= i < |listing| ==> r.value[i] == Enriched(weatherApiKey, listing[i], replies[i]))
                && trace == old(trace) + [ListAirports] + EnrichCalls(listing, weatherApiKey, |listing|)
    {
      trace := trace + [ListAirports];
      var all := store.GetAllAirports(listed);
      if all.Err? {
        return Err(ListingFailed(all.error));
      }
      var airports := all.value;
      if |airports| == 0 {
        return Ok([]);
      }
      var enriched := EnrichEach(airports, replies);
      return Ok(enriched);
    }

    /** Looks `faa` up in the directory, adds the current weather and inserts
        the result into the store. */
    method GetAirportWithWeather(faa: string, aviation: AviationReply, weather: WeatherReply, reachable: bool)
      returns (r: Result<Airport, ServiceError>)
      requires Valid()
      modifies this`trace, store
      ensures Valid()
      ensures var s := AirportWithWeather(faa, aviation, weatherApiKey, weather, reachable, old(store.records));
              && r == s.result && store.records == s.records && trace == old(trace) + s.calls
      ensures store.order == if r.Ok? && Inserts(old(store.records), r.value, reachable)
                             then old(store.order) + [r.value.faa] else old(store.order)
    {
      var fetched := FetchAirportFromAviationApi(faa, aviation);
      if fetched.Err? {
        return Err(AviationFetchFailed(fetched.error));
      }
      if fetched.value.None? {
        return Err(AirportNotFound(faa));
      }
      var airport := fetched.value.value;

      var weatherText := FetchWeather(airport.city, weather);
      if weatherText.Err? {
        return Err(WeatherFetchFailed(airport.city, weatherText.error));
      }
      airport := airport.(weather := weatherText.value);

      ghost var asked := [LookupAirport(faa)] + WeatherCalls(weatherApiKey, airport.city);
      AppendRegroup(old(trace), [LookupAirport(faa)], WeatherCalls(weatherApiKey, airport.city));
      AppendRegroup(old(trace), asked, [CreateRecord(airport.faa)]);
      trace := trace + [CreateRecord(airport.faa)];
      var failure := store.Create(airport, reachable);
      if failure.Some? {
        return Err(PersistFailed(failure.value));
      }
      return Ok(airport);
    }
  }
}
