# aviation-weather: a Dafny model of the airport sync service

The aviation-weather service keeps a table of airports. Each row has fifteen
descriptive fields copied from an aviation directory plus a weather condition
text. The service offers four operations; the first three are modelled:

- `SyncAllAirports` lists every stored airport and refreshes each one. It looks
  the FAA code up in the directory, looks the city's weather up, and writes the
  merged row back. It counts the rows written and collects one error entry per
  problem, without stopping.
- `GetAllAirportsWithWeather` lists every stored airport. Each row comes back
  with the current weather in place of the stored text. The array is filled
  index by index.
- `GetAirportWithWeather` looks one FAA code up in the directory, adds the
  weather and inserts the row. The insert is a silent no-op when a row with
  the same site number already exists.
- `DeleteAirportByFAA` passes an FAA code straight to the store's delete and
  returns its error. It is left out (see below).

There is also the migration tool, which turns the `--up`, `--down` and `--fill`
flags into a rejection or an ordered list of SQL files.

The model keeps the control logic and treats the rest as parameters. Each
directory answer, weather answer and store reachability is a parameter. The
`Service` class appends every external call to a ghost `trace`, so "no lookup
happens" or "each airport is looked up once, in order" can be stated.

Modules:

- `Domain`: the 16-field `Airport` record, `Option` and `Result`.
- `Gateway`: the directory and weather answers, the not-found rule and the
  missing-API-key rule.
- `Store`: the `AirportStore` class, holding a map from FAA code to row plus
  the listing order.
- `ServiceSpec`: pure functions saying what each operation computes.
- `AirportService`: the `Service` class. Its imperative methods are proved equal to
  those functions.
- `ServiceProperties`: what those functions mean, as lemmas.
- `Migration`: the flag decision table and the imperative flag handling.

The code is not concurrent. `SyncAllAirports` is one sequential loop over the
listing, with no chunking, no worker tasks, no job queue and no retry of a
failed lookup. It reports an error whenever any airport had a problem, and the
updated count either way. The single-airport operation fetches the record from
the directory and inserts it; it does not read the stored row first.

## Model

| member | source | states |
|---|---|---|
| Gateway.ToAirport | internal/service/service.go:110-127 | the directory entry's fifteen fields are copied unchanged and the weather starts empty |
| Gateway.ToAirportOfEntry | internal/service/service.go:110-127 | a stored airport's directory fields round-trip through a directory entry; only the weather is reset to empty |
| Gateway.AviationResult | internal/service/service.go:59-128 | a failed request or decode is an error; a decoded answer without the code, or with an empty list for it, is "not found" (nil, nil); otherwise the result is the first listed entry, with empty weather |
| Gateway.WeatherResult | internal/service/service.go:131-160 | without an API key the lookup fails before any request; otherwise it succeeds exactly when the reply decodes, and then yields the condition text |
| Store.UpdateError | internal/mock/repository_mock.go:19-22 | an update succeeds exactly when the store is reachable and has a row with the record's FAA code |
| Store.CreateError | internal/repository/repository.go:59-91 | an insert succeeds when reachable and either the site number is already present (ON CONFLICT DO NOTHING) or the FAA code is new |
| Store.AirportStore.GetAllAirports | internal/mock/repository_mock.go:29-32 | fails exactly when the store is unreachable; otherwise returns every row once, in listing order |
| Store.AirportStore.UpdateAirport | internal/mock/repository_mock.go:19-22 | the row keyed by the FAA code is replaced on success; nothing changes on error; the store invariant is kept |
| Store.AirportStore.Create | internal/repository/repository.go:59-91 | a row is added, and its code appended to the listing, exactly when the insert succeeds and its site number is new; otherwise nothing changes |
| AirportService.Service.FetchAirportFromAviationApi | internal/service/service.go:59-128 | one directory call is logged and the result follows the not-found / first-entry rule |
| AirportService.Service.FetchWeather | internal/service/service.go:131-160 | no request is logged without an API key; otherwise one weather call is logged and the result is the condition text or an error |
| AirportService.Service.SyncAirport | internal/service/service.go:173-207 | one pass of the sync loop equals `SyncStep`: the persisted flag, the error entries, the new rows and the calls made |
| AirportService.Service.SyncEach | internal/service/service.go:171-207 | the loop's counter, error list, rows and call log equal the fold of `SyncStep` over the whole listing, in order |
| AirportService.Service.SyncAllAirports | internal/service/service.go:162-213 | the whole bulk sync equals `SyncRun` over the store's listing: the count, the verdict, the rows and the calls |
| AirportService.Service.WeatherTextFor | internal/service/service.go:229-239 | the weather text shown is "City not available" with no call for an empty city, "Weather unavailable" on failure, else the lookup text |
| AirportService.Service.EnrichEach | internal/service/service.go:226-244 | the pre-sized array ends with entry i equal to airport i with its weather replaced by the text shown for it; the calls are the per-airport weather lookups in order |
| AirportService.Service.GetAllAirportsWithWeather | internal/service/service.go:217-247 | fails exactly when the listing fails; otherwise the result has the listing's length and order, each entry being the listed row with only its weather replaced |
| AirportService.Service.GetAirportWithWeather | internal/service/service.go:33-56 | equals `AirportWithWeather`: lookup, then weather, then insert, stopping at the first error; the listing grows by the code only when a row is inserted |
| ServiceProperties.SyncStepFacts | internal/service/service.go:173-202 | one airport is written exactly when the directory knows it and the store takes the update; it adds no error exactly when also the weather lookup succeeds, otherwise one or two entries; a skip always adds one; keys never change |
| ServiceProperties.SkippedAirport | internal/service/service.go:175-183 | a failed or empty directory lookup adds exactly one error entry, writes nothing and makes no weather or update call |
| ServiceProperties.WeatherFailureStillPersists | internal/service/service.go:186-202 | a failed weather lookup still issues the update, with empty weather; the error is recorded first; the old stored weather never survives |
| ServiceProperties.SyncStepUsesOnlyFaa | internal/service/service.go:173-195 | a pass depends on the listed row only through its FAA code: its stored weather is overwritten whatever happens |
| ServiceProperties.SyncPrefixKeepsKeys | internal/service/service.go:171-207 | the sync rewrites rows but never adds or removes an airport |
| ServiceProperties.SyncPrefixCounts | internal/service/service.go:171-202 | the updated counter equals the number of airports written, is at most the number visited, and every airport not written left at least one error |
| ServiceProperties.SyncPrefixErrors | internal/service/service.go:171-202 | the error list is empty exactly when every visited airport was written with a successful weather lookup |
| ServiceProperties.SyncStepLooksUpOnce | internal/service/service.go:175-198 | one pass makes exactly one directory lookup, for the listed FAA code |
| ServiceProperties.SyncPrefixVisitsInOrder | internal/service/service.go:173-175 | the loop looks every listed airport up exactly once, in listing order |
| ServiceProperties.SyncPrefixUsesOnlyFaa | internal/service/service.go:173-186 | listings with the same FAA codes in the same order sync identically |
| ServiceProperties.SyncRunEarlyExit | internal/service/service.go:163-169 | a failed listing or an empty store returns 0 with its error after only the listing call, and writes nothing |
| ServiceProperties.SyncRunVerdict | internal/service/service.go:162-213 | the count of written airports is returned either way; the error is absent exactly when the listing succeeded, was non-empty and every airport was clean; then the count is the listing's length |
| ServiceProperties.SyncRunVisitsInOrder | internal/service/service.go:162-207 | after a successful listing the directory is asked for each listed code once, in order |
| ServiceProperties.EnrichedRow | internal/service/service.go:241-243 | an enriched row equals its stored row in every field but the weather |
| ServiceProperties.EnrichCallsAreWeather | internal/service/service.go:227-239 | the enrichment makes only weather lookups, and only for airports with a city |
| ServiceProperties.EnrichCallsBound | internal/service/service.go:227-239 | at most one weather lookup per airport, and none at all without an API key |
| ServiceProperties.SingleNotFound | internal/service/service.go:35-41 | a directory answer without the code, or with an empty list, is reported as not found after one lookup; nothing is inserted |
| ServiceProperties.SingleErrorKeepsStore | internal/service/service.go:33-56 | every error path leaves the store unchanged |
| ServiceProperties.SingleSuccess | internal/service/service.go:33-56 | on success the result is the directory's first entry with the weather text; the calls are lookup, weather, create; the store holds it unless its site number was taken |
| ServiceProperties.SingleSucceedsIff | internal/service/service.go:33-56 | the pipeline succeeds exactly when the directory knows the code, the weather lookup succeeds and the insert is accepted |
| Migration.Plan | cmd/migration/main.go:25-79 | the flag decision table: fill with down rejected first, then up with down; no flags mean up; fill implies up; down runs only the drop; create runs before fill; an accepted run is never empty and never drops and creates |
| Migration.Migrate | cmd/migration/main.go:25-79 | the in-place flag handling with its early exit after --down computes `Plan` |

## Left out

- HTTP requests, status checks, body reading and JSON decoding are left out. Each remote call is a reply parameter that is failed or decoded.
- Request URLs and query escaping are left out.
- The HTTP client's timeout is left out.
- Logging (`log.Printf`) and the rate-limiting `time.Sleep` in the sync loop are left out. They have no effect on results.
- Error messages are modelled as error kinds with their data (FAA code, city, counts, entries). The formatted strings and `%w` wrapping are left out.
- The text "Weather API key not configured" is left out. `fetchWeather` returns it together with an error, and no caller uses it.
- The SQL in the repository, the database connection and the SQL files themselves are left out. The migration tool's reading and executing of the files is also left out; only its flag logic is modelled.
- The store's `GetAllAirports` and `UpdateAirport` have no implementation in the repository; only the mock's signatures exist. They are modelled abstractly:
  - unreachable means an error;
  - an update of an unknown FAA code is an error;
  - otherwise the row is replaced.
- Store.CreateError: the model rejects an insert that reuses an FAA code under a new site number, so the store keeps one row per FAA code. The schema is not part of this model, so this rule is a modelling choice, not a copy of a constraint.
- `DeleteAirportByFAA` (internal/service/service.go:249-251) is left out. It is a one-line delegation to the store's `DeleteByFAA`, which has no implementation in the repository, and it is not part of the sync or enrichment logic.
- The store's read of one row (`GetByFAA` in the repository, `GetAirportByFAA` in the mock) is left out. None of the modelled service operations calls it.
- Store.UpdateError: the model does not keep site numbers unique. An update may give a row the site number of another row, which a table with a unique `site_number` (the insert's ON CONFLICT clause relies on one) would refuse; the update has no implementation in the repository to say what error it would then return.
- The HTTP handlers, JSON response helpers, server and scheduler entry points, configuration loading and the test program are not part of this model.
- Go's `int` width is not modelled. The updated counter and lengths are unbounded naturals, which is harmless at any real store size.
- Concurrency, chunking, retries and job queues are not modelled, because the code has none.
