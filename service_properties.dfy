/** What the service's operations guarantee, proved about the functions of
    module ServiceSpec that its methods are proved to implement. */
module ServiceProperties {
  import opened Domain
  import opened Gateway
  import opened Store
  import opened ServiceSpec

  // ---------------------------------------------------------------------------
  // One airport of the bulk sync

  /** One airport's pass: it writes a record exactly when `Persists` holds,
      records no error exactly when `Clean` holds, and otherwise one or two
      entries; a skipped airport records exactly one. The store's keys never change. */
  lemma SyncStepFacts(airport: Airport, r: Replies, apiKey: string, records: map<string, Airport>)
    ensures var s := SyncStep(airport, r, apiKey, records);
            && s.persisted == Persists(airport, r, records.Keys)
            && (|s.entries| == 0 <==> Clean(airport, r, apiKey, records.Keys))
            && (!s.persisted ==> 1 <= |s.entries|)
            && |s.entries| <= 2
            && s.records.Keys == records.Keys
  {
  }

  /** An airport the directory lookup fails for, or does not know, is skipped:
      one error entry, no weather lookup, no update, nothing written. */
  lemma SkippedAirport(airport: Airport, r: Replies, apiKey: string, records: map<string, Airport>)
    requires !AviationResult(airport.faa, r.aviation).Ok? || AviationResult(airport.faa, r.aviation).value.None?
    ensures var s := SyncStep(airport, r, apiKey, records);
            && !s.persisted && |s.entries| == 1
            && s.records == records
            && s.calls == [LookupAirport(airport.faa)]
  {
  }

  /** A failed weather lookup does not skip the update: the record is written
      with an empty weather when the store accepts it, and an error entry is
      recorded either way. */
  lemma WeatherFailureStillPersists(airport: Airport, r: Replies, apiKey: string, records: map<string, Airport>)
    requires AviationResult(airport.faa, r.aviation).Ok? && AviationResult(airport.faa, r.aviation).value.Some?
    requires WeatherResult(apiKey, r.weather).Err?
    ensures var fetched := AviationResult(airport.faa, r.aviation).value.value;
            var s := SyncStep(airport, r, apiKey, records);
            && UpdateRecord(fetched.faa) in s.calls
            && s.entries[0] == WeatherLookupFailed(fetched.faa, WeatherResult(apiKey, r.weather).error)
            && (s.persisted <==> r.storeReachable && fetched.faa in records)
            && (s.persisted ==> s.records == records[fetched.faa := fetched.(weather := "")])
  {
  }

  /** The stored row's own fields, its weather included, never reach the
      record the sync writes: only its FAA code is used. */
  lemma SyncStepUsesOnlyFaa(a: Airport, b: Airport, r: Replies, apiKey: string, records: map<string, Airport>)
    requires a.faa == b.faa
    ensures SyncStep(a, r, apiKey, records) == SyncStep(b, r, apiKey, records)
  {
  }

  // ---------------------------------------------------------------------------
  // The bulk-sync loop

  /** The sync rewrites records but never adds or removes an airport. */
  lemma {:induction false} SyncPrefixKeepsKeys(listing: seq<Airport>, replies: seq<Replies>, apiKey: string,
                                               records: map<string, Airport>, n: nat)
    requires n <= |listing| == |replies|
    ensures SyncPrefix(listing, replies, apiKey, records, n).records.Keys == records.Keys
  {
    if n > 0 {
      SyncPrefixKeepsKeys(listing, replies, apiKey, records, n - 1);
      SyncStepFacts(listing[n - 1], replies[n - 1], apiKey, SyncPrefix(listing, replies, apiKey, records, n - 1).records);
    }
  }

  /** After the first `n` airports: the updated counter is the number of
      airports written (at most `n`), and every airport not written left at
      least one error. */
  lemma {:induction false} SyncPrefixCounts(listing: seq<Airport>, replies: seq<Replies>, apiKey: string,
                                            records: map<string, Airport>, n: nat)
    requires n <= |listing| == |replies|
    ensures var t := SyncPrefix(listing, replies, apiKey, records, n);
            && t.updated == CountPersisted(listing, replies, records.Keys, n)
            && t.updated <= n
            && |t.errors| >= n - t.updated
  {
    if n > 0 {
      SyncPrefixCounts(listing, replies, apiKey, records, n - 1);
      SyncPrefixKeepsKeys(listing, replies, apiKey, records, n - 1);
      var t := SyncPrefix(listing, replies, apiKey, records, n - 1);
      SyncStepFacts(listing[n - 1], replies[n - 1], apiKey, t.records);
    }
  }

  /** Every one of the first `n` airports is clean. */
  predicate AllClean(listing: seq<Airport>, replies: seq<Replies>, apiKey: string, keys: set<string>, n: nat)
    requires n <= |listing| == |replies|
  {
    n == 0 || (AllClean(listing, replies, apiKey, keys, n - 1) && Clean(listing[n - 1], replies[n - 1], apiKey, keys))
  }

  lemma {:induction false} AllCleanMeans(listing: seq<Airport>, replies: seq<Replies>, apiKey: string,
                                         keys: set<string>, n: nat)
    requires n <= |listing| == |replies|
    ensures AllClean(listing, replies, apiKey, keys, n)
            <==> forall i :: 0 <= i < n ==> Clean(listing[i], replies[i], apiKey, keys)
  {
    if n > 0 {
      AllCleanMeans(listing, replies, apiKey, keys, n - 1);
    }
  }

  /** One visit adds no error exactly when the airport is clean. */
  lemma VisitErrors(t: Tally, airport: Airport, r: Replies, apiKey: string, keys: set<string>)
    requires t.records.Keys == keys
    ensures |Visit(t, airport, r, apiKey).errors| == 0 <==> |t.errors| == 0 && Clean(airport, r, apiKey, keys)
  {
    SyncStepFacts(airport, r, apiKey, t.records);
  }

  /** After the first `n` airports the error list is empty exactly when every
      one of them was clean. */
  lemma {:induction false} SyncPrefixErrors(listing: seq<Airport>, replies: seq<Replies>, apiKey: string,
                                            records: map<string, Airport>, n: nat)
    requires n <= |listing| == |replies|
    ensures |SyncPrefix(listing, replies, apiKey, records, n).errors| == 0
            <==> AllClean(listing, replies, apiKey, records.Keys, n)
  {
    if n > 0 {
      SyncPrefixErrors(listing, replies, apiKey, records, n - 1);
      SyncPrefixKeepsKeys(listing, replies, apiKey, records, n - 1);
      var t := SyncPrefix(listing, replies, apiKey, records, n - 1);
      assert SyncPrefix(listing, replies, apiKey, records, n) == Visit(t, listing[n - 1], replies[n - 1], apiKey);
      VisitErrors(t, listing[n - 1], replies[n - 1], apiKey, records.Keys);
    }
  }

  /** When every airport is written, the count reaches the number of airports. */
  lemma {:induction false} CountAllPersisted(listing: seq<Airport>, replies: seq<Replies>, keys: set<string>, n: nat)
    requires n <= |listing| == |replies|
    requires forall i :: 0 <= i < n ==> Persists(listing[i], replies[i], keys)
    ensures CountPersisted(listing, replies, keys, n) == n
  {
    if n > 0 {
      CountAllPersisted(listing, replies, keys, n - 1);
    }
  }

  /** Directory lookups regroup over concatenated call logs. */
  lemma {:induction false} AirportLookupsAppend(a: seq<Call>, b: seq<Call>)
    ensures AirportLookups(a + b) == AirportLookups(a) + AirportLookups(b)
    decreases |b|
  {
    if b == [] {
      assert a + b == a;
    } else {
      var b' := b[..|b| - 1];
      assert (a + b)[..|a + b| - 1] == a + b';
      AirportLookupsAppend(a, b');
    }
  }

  /** The loop looks every airport up in the directory exactly once, in
      listing order, and looks nothing else up. */
  lemma {:induction false} SyncPrefixVisitsInOrder(listing: seq<Airport>, replies: seq<Replies>, apiKey: string,
                                                   records: map<string, Airport>, n: nat)
    requires n <= |listing| == |replies|
    ensures AirportLookups(SyncPrefix(listing, replies, apiKey, records, n).calls) == FaaCodes(listing, n)
  {
    if n > 0 {
      SyncPrefixVisitsInOrder(listing, replies, apiKey, records, n - 1);
      VisitLooksUpOnce(SyncPrefix(listing, replies, apiKey, records, n - 1), listing[n - 1], replies[n - 1], apiKey);
    }
  }

  /** One visit adds exactly the visited airport to the directory lookups. */
  lemma VisitLooksUpOnce(t: Tally, airport: Airport, r: Replies, apiKey: string)
    ensures AirportLookups(Visit(t, airport, r, apiKey).calls) == AirportLookups(t.calls) + [airport.faa]
  {
    var s := SyncStep(airport, r, apiKey, t.records);
    SyncStepLooksUpOnce(airport, r, apiKey, t.records);
    AirportLookupsAppend(t.calls, s.calls);
  }

  /** One airport's pass looks exactly that airport up in the directory. */
  lemma SyncStepLooksUpOnce(airport: Airport, r: Replies, apiKey: string, records: map<string, Airport>)
    ensures AirportLookups(SyncStep(airport, r, apiKey, records).calls) == [airport.faa]
  {
    var calls := SyncStep(airport, r, apiKey, records).calls;
    var head := [LookupAirport(airport.faa)];
    assert AirportLookups(head) == [airport.faa] by {
      assert head[..0] == [];
    }
    var found := AviationResult(airport.faa, r.aviation);
    if found.Ok? && found.value.Some? {
      var fetched := Merged(found.value.value, WeatherResult(apiKey, r.weather));
      var tail := WeatherCalls(apiKey, fetched.city) + [UpdateRecord(fetched.faa)];
      assert calls == head + tail;
      NoAirportLookups(tail);
      AirportLookupsAppend(head, tail);
    } else {
      assert calls == head;
    }
  }

  /** A log without directory lookups contributes none. */
  lemma {:induction false} NoAirportLookups(calls: seq<Call>)
    requires forall c :: c in calls ==> !c.LookupAirport?
    ensures AirportLookups(calls) == []
    decreases |calls|
  {
    if calls != [] {
      NoAirportLookups(calls[..|calls| - 1]);
    }
  }

  /** Two listings with the same FAA codes in the same order sync identically:
      nothing of a stored row but its FAA code survives a sync. */
  lemma {:induction false} SyncPrefixUsesOnlyFaa(l1: seq<Airport>, l2: seq<Airport>, replies: seq<Replies>, apiKey: string,
                                                 records: map<string, Airport>, n: nat)
    requires n <= |l1| == |l2| == |replies|
    requires forall i :: 0 <= i < |l1| ==> l1[i].faa == l2[i].faa
    ensures SyncPrefix(l1, replies, apiKey, records, n) == SyncPrefix(l2, replies, apiKey, records, n)
  {
    if n > 0 {
      SyncPrefixUsesOnlyFaa(l1, l2, replies, apiKey, records, n - 1);
      var t := SyncPrefix(l1, replies, apiKey, records, n - 1);
      SyncStepUsesOnlyFaa(l1[n - 1], l2[n - 1], replies[n - 1], apiKey, t.records);
    }
  }

  // ---------------------------------------------------------------------------
  // The verdict of a bulk sync

  /** A failed listing or an empty store ends the sync at once: zero updated,
      an error, nothing written, no lookup and no update. */
  lemma SyncRunEarlyExit(listed: bool, listing: seq<Airport>, replies: seq<Replies>, apiKey: string,
                         records: map<string, Airport>)
    requires |listing| == |replies|
    requires !listed || listing == []
    ensures var run := SyncRun(listed, listing, replies, apiKey, records);
            && run.updated == 0
            && run.error == (if listed then Some(NothingToSync) else Some(ListingFailed(StoreUnavailable)))
            && run.records == records
            && run.calls == [ListAirports]
  {
  }

  /** The verdict: the count of written airports is returned whatever the
      outcome; an error is returned exactly when the listing failed, the store
      was empty or some airport recorded an error; when every lookup and update
      succeeds the result is (number of airports, no error). */
  lemma SyncRunVerdict(listed: bool, listing: seq<Airport>, replies: seq<Replies>, apiKey: string,
                       records: map<string, Airport>)
    requires |listing| == |replies|
    ensures var run := SyncRun(listed, listing, replies, apiKey, records);
            && run.updated == (if listed then CountPersisted(listing, replies, records.Keys, |listing|) else 0)
            && run.updated <= |listing|
            && (run.error.None? <==>
                  listed && |listing| > 0
                  && forall i :: 0 <= i < |listing| ==> Clean(listing[i], replies[i], apiKey, records.Keys))
            && (run.error.None? ==> run.updated == |listing|)
            && run.records.Keys == records.Keys
  {
    if listed && |listing| > 0 {
      SyncPrefixCounts(listing, replies, apiKey, records, |listing|);
      SyncPrefixKeepsKeys(listing, replies, apiKey, records, |listing|);
      SyncPrefixErrors(listing, replies, apiKey, records, |listing|);
      AllCleanMeans(listing, replies, apiKey, records.Keys, |listing|);
      if forall i :: 0 <= i < |listing| ==> Clean(listing[i], replies[i], apiKey, records.Keys) {
        CountAllPersisted(listing, replies, records.Keys, |listing|);
      }
    } else if listed {
      assert CountPersisted(listing, replies, records.Keys, |listing|) == 0;
    }
  }

  /** A sync that gets past the listing looks each listed airport up in the
      directory once, in listing order. */
  lemma SyncRunVisitsInOrder(listing: seq<Airport>, replies: seq<Replies>, apiKey: string,
                             records: map<string, Airport>)
    requires |listing| == |replies|
    ensures AirportLookups(SyncRun(true, listing, replies, apiKey, records).calls) == FaaCodes(listing, |listing|)
  {
    var run := SyncRun(true, listing, replies, apiKey, records);
    if listing == [] {
      assert run.calls == [ListAirports];
      assert AirportLookups(run.calls) == AirportLookups([]) + [];
    } else {
      var t := SyncPrefix(listing, replies, apiKey, records, |listing|);
      SyncPrefixVisitsInOrder(listing, replies, apiKey, records, |listing|);
      AirportLookupsAppend([ListAirports], t.calls);
      assert AirportLookups([ListAirports]) == AirportLookups([]) + [];
    }
  }

  // ---------------------------------------------------------------------------
  // The enriched listing

  /** An enriched row equals the stored row except for its weather, which is
      the label for its city. */
  lemma EnrichedRow(apiKey: string, a: Airport, reply: WeatherReply)
    ensures Enriched(apiKey, a, reply).(weather := a.weather) == a
    ensures Enriched(apiKey, a, reply).weather == WeatherLabel(apiKey, a.city, reply)
  {
  }

  /** The enrichment asks for the weather only, and only for airports with a city. */
  lemma {:induction false} EnrichCallsAreWeather(listing: seq<Airport>, apiKey: string, n: nat)
    requires n <= |listing|
    ensures forall i :: 0 <= i < |EnrichCalls(listing, apiKey, n)| ==>
              EnrichCalls(listing, apiKey, n)[i].LookupWeather? && EnrichCalls(listing, apiKey, n)[i].city != ""
  {
    if n > 0 {
      EnrichCallsAreWeather(listing, apiKey, n - 1);
      var a := listing[n - 1];
      var prev := EnrichCalls(listing, apiKey, n - 1);
      var last := if a.city != "" then WeatherCalls(apiKey, a.city) else [];
      var calls := EnrichCalls(listing, apiKey, n);
      assert calls == prev + last;
      forall i | 0 <= i < |calls|
        ensures calls[i].LookupWeather? && calls[i].city != ""
      {
        if i < |prev| {
          assert calls[i] == prev[i];
        } else {
          assert calls[i] == last[i - |prev|] == LookupWeather(a.city);
        }
      }
    }
  }

  /** The enrichment asks for the weather at most once per airport, and not at
      all without an API key. */
  lemma {:induction false} EnrichCallsBound(listing: seq<Airport>, apiKey: string, n: nat)
    requires n <= |listing|
    ensures |EnrichCalls(listing, apiKey, n)| <= n
    ensures apiKey == "" ==> EnrichCalls(listing, apiKey, n) == []
  {
    if n > 0 {
      EnrichCallsBound(listing, apiKey, n - 1);
      var a := listing[n - 1];
      var last := if a.city != "" then WeatherCalls(apiKey, a.city) else [];
      assert EnrichCalls(listing, apiKey, n) == EnrichCalls(listing, apiKey, n - 1) + last;
      assert |last| <= 1 && (apiKey == "" ==> last == []);
    }
  }

  // ---------------------------------------------------------------------------
  // The single-airport pipeline

  /** A directory answer without the code, or with an empty list for it, is
      reported as not found; nothing else is called and nothing is written. */
  lemma SingleNotFound(faa: string, aviation: AviationReply, apiKey: string, weather: WeatherReply,
                       reachable: bool, records: map<string, Airport>)
    requires aviation.AviationDecoded?
    requires faa !in aviation.body || aviation.body[faa] == []
    ensures AirportWithWeather(faa, aviation, apiKey, weather, reachable, records)
            == SingleReport(Err(AirportNotFound(faa)), records, [LookupAirport(faa)])
  {
  }

  /** Any error leaves the store as it was. */
  lemma SingleErrorKeepsStore(faa: string, aviation: AviationReply, apiKey: string, weather: WeatherReply,
                              reachable: bool, records: map<string, Airport>)
    ensures var s := AirportWithWeather(faa, aviation, apiKey, weather, reachable, records);
            s.result.Err? ==> s.records == records
  {
  }

  /** On success the returned airport is the directory's first entry for the
      code with the looked-up weather, the insert was asked for, and the store
      holds the airport unless a row with its site number already existed
      (the insert then leaves that row and its weather untouched). */
  lemma SingleSuccess(faa: string, aviation: AviationReply, apiKey: string, weather: WeatherReply,
                      reachable: bool, records: map<string, Airport>)
    ensures var s := AirportWithWeather(faa, aviation, apiKey, weather, reachable, records);
            s.result.Ok? ==>
              var a := s.result.value;
              && aviation.AviationDecoded? && faa in aviation.body && |aviation.body[faa]| > 0
              && EntryOf(a) == aviation.body[faa][0]
              && apiKey != "" && weather.WeatherDecoded? && a.weather == weather.conditionText
              && s.calls == [LookupAirport(faa), LookupWeather(a.city), CreateRecord(a.faa)]
              && s.records == (if SiteTaken(records, a.siteNumber) then records else records[a.faa := a])
  {
  }

  /** The pipeline succeeds exactly when the directory knows the code, the
      weather lookup succeeds and the store accepts the insert. */
  lemma SingleSucceedsIff(faa: string, aviation: AviationReply, apiKey: string, weather: WeatherReply,
                          reachable: bool, records: map<string, Airport>)
    ensures var s := AirportWithWeather(faa, aviation, apiKey, weather, reachable, records);
            var found := AviationResult(faa, aviation);
            s.result.Ok? <==>
              && found.Ok? && found.value.Some?
              && WeatherResult(apiKey, weather).Ok?
              && CreateError(records, found.value.value.(weather := weather.conditionText), reachable).None?
  {
  }
}
