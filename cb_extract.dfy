/**
 * City Bike extraction (api/cb_extract.py): the seed request for the network
 * URLs, turning one network response into Site rows, routing failures to the
 * dead-letter queue, and processing the URLs one chunk at a time.
 *
 * HTTP is replaced by oracles: `fetch(url)` is what the GET of `url` ends in
 * (a transport failure or a response), `toIso3` is the country-code
 * conversion and `commits(site)` says whether merging and committing that row
 * succeeds.
 */
module CbExtract {
  import opened Wrappers
  import Dlq
  import EtlUtils
  import SiteModel

  /** One element of `network["stations"]`; `StationMissingKey` when a key the row needs is absent. */
  datatype StationDoc =
    | Station(id: string, latitude: real, longitude: real, name: Option<string>,
              timestamp: string, emptySlots: int, freeBikes: int)
    | StationMissingKey

  /** The network document; `NetworkMissingKey` when "network", "id", "location", "city", "country" or "stations" is absent. */
  datatype NetworkDoc =
    | Network(id: string, city: string, country: string, stations: seq<StationDoc>)
    | NetworkMissingKey

  /** A completed HTTP response; `url` is the response's own (final) URL. */
  datatype Response = Response(url: string, status: int, body: NetworkDoc)
  {
    /**
     * `requests.Response.ok`: `raise_for_status` raises only for a client
     * error (400 to 499) or a server error (500 to 599).
     */
    predicate Ok()
    {
      !(400 <= status < 600)
    }
  }

  /** How one GET ends: it raised (timeout, connection error), or it got a response. */
  datatype Fetch = TransportFail | Completed(response: Response)

  /** The collaborators of the extractor. */
  datatype ExtractEnv = ExtractEnv(
    fetch: string -> Fetch,
    toIso3: string -> string,
    commits: SiteModel.Site -> bool)

  /** How `make_sites` ends: normally, with a KeyError, or with MakeSiteError. */
  datatype MakeOutcome = Made | MissingKey | MakeSiteError

  /** How the seed request fails: it raised, its status was not ok, or "networks" was absent. */
  datatype SeedError = SeedRaised | SeedBadStatus(status: int) | SeedMissingKey

  /** The seed response: its status and the `href` of every network, if "networks" is present. */
  datatype SeedFetch = SeedTransportFail | SeedResponse(status: int, hrefs: Option<seq<string>>)

  /** `load_master_site_urls`: one detail URL per network, `uri + href`, in order. */
  function LoadMasterSiteUrls(uri: string, seed: SeedFetch): (r: Result<seq<string>, SeedError>)
    ensures seed.SeedTransportFail? ==> r == Err(SeedRaised)
    ensures seed.SeedResponse? && 400 <= seed.status < 600 ==> r == Err(SeedBadStatus(seed.status))
    ensures r.Ok? <==> seed.SeedResponse? && !(400 <= seed.status < 600) && seed.hrefs.Some?
    ensures r.Ok? ==> |r.value| == |seed.hrefs.value|
    ensures r.Ok? ==> forall i :: 0 <= i < |r.value| ==>
      |uri| <= |r.value[i]| && r.value[i][..|uri|] == uri && r.value[i][|uri|..] == seed.hrefs.value[i]
  {
    match seed
    case SeedTransportFail => Err(SeedRaised)
    case SeedResponse(status, hrefs) =>
      if 400 <= status < 600 then Err(SeedBadStatus(status))
      else if hrefs.None? then Err(SeedMissingKey)
      else Ok(Prefixed(uri, hrefs.value))
  }

  /** `uri + href` for every href, in order. */
  function Prefixed(uri: string, hrefs: seq<string>): (urls: seq<string>)
    ensures |urls| == |hrefs|
    ensures forall i :: 0 <= i < |urls| ==>
      |uri| <= |urls[i]| && urls[i][..|uri|] == uri && urls[i][|uri|..] == hrefs[i]
  {
    if hrefs == [] then [] else [uri + hrefs[0]] + Prefixed(uri, hrefs[1..])
  }

  /** The row `make_sites` builds for one station of a network. */
  function SiteOf(network: NetworkDoc, station: StationDoc, country: string): SiteModel.Site
    requires network.Network? && station.Station?
  {
    SiteModel.Site(
      network.id + "-" + station.id, network.city, country, station.latitude, station.longitude,
      station.name, Some(station.timestamp), station.emptySlots, station.freeBikes, None)
  }

  /** The station's row can be built and its commit succeeds. */
  predicate Commits(station: StationDoc, network: NetworkDoc, env: ExtractEnv)
    requires network.Network?
  {
    station.Station? && env.commits(SiteOf(network, station, env.toIso3(network.country)))
  }

  /** Index of the station at which `make_sites` stops; `|stations|` when none fails. */
  function FirstFailing(stations: seq<StationDoc>, network: NetworkDoc, env: ExtractEnv): (k: nat)
    requires network.Network?
    ensures k <= |stations|
    ensures forall j :: 0 <= j < k ==> Commits(stations[j], network, env)
    ensures k < |stations| ==> !Commits(stations[k], network, env)
    decreases |stations|
  {
    if stations == [] then 0
    else if !Commits(stations[0], network, env) then 0
    else 1 + FirstFailing(stations[1..], network, env)
  }

  /**
   * The rows committed, one per station, in station order, up to the first
   * station that fails: each keyed "{network_id}-{station_id}" with the
   * network's city and converted country.
   */
  function UpsertsFrom(stations: seq<StationDoc>, network: NetworkDoc, env: ExtractEnv): (ups: seq<SiteModel.Site>)
    requires network.Network?
    ensures |ups| == FirstFailing(stations, network, env)
    ensures forall i :: 0 <= i < |ups| ==>
      stations[i].Station? && ups[i] == SiteOf(network, stations[i], env.toIso3(network.country))
    decreases |stations|
  {
    if stations == [] || !Commits(stations[0], network, env) then []
    else [SiteOf(network, stations[0], env.toIso3(network.country))] + UpsertsFrom(stations[1..], network, env)
  }

  /** The rows `make_sites` commits for a response body. */
  function Upserts(body: NetworkDoc, env: ExtractEnv): seq<SiteModel.Site>
  {
    if body.NetworkMissingKey? then [] else UpsertsFrom(body.stations, body, env)
  }

  /** How `make_sites` ends for a response body. */
  function MakeOutcomeOf(body: NetworkDoc, env: ExtractEnv): MakeOutcome
  {
    if body.NetworkMissingKey? then MissingKey else OutcomeFrom(body.stations, body, env)
  }

  /** How the station loop of `make_sites` ends, station by station. */
  function OutcomeFrom(stations: seq<StationDoc>, network: NetworkDoc, env: ExtractEnv): MakeOutcome
    requires network.Network?
    decreases |stations|
  {
    if stations == [] then Made
    else if stations[0].StationMissingKey? then MissingKey
    else if !Commits(stations[0], network, env) then MakeSiteError
    else OutcomeFrom(stations[1..], network, env)
  }

  /**
   * The station loop ends normally exactly when no station fails; otherwise
   * the first failing station decides: KeyError for a missing key,
   * MakeSiteError for a failed commit.
   */
  lemma {:induction false} OutcomeAtFirstFailing(stations: seq<StationDoc>, network: NetworkDoc, env: ExtractEnv)
    requires network.Network?
    ensures var k := FirstFailing(stations, network, env);
      OutcomeFrom(stations, network, env)
        == if k == |stations| then Made
           else if stations[k].StationMissingKey? then MissingKey
           else MakeSiteError
    decreases |stations|
  {
    if stations != [] && Commits(stations[0], network, env) {
      OutcomeAtFirstFailing(stations[1..], network, env);
    }
  }

  /**
   * A station that fails stops the run, but the stations before it stay
   * committed; the run succeeds exactly when every station committed.
   */
  lemma MakeSitesPrefix(body: NetworkDoc, env: ExtractEnv)
    requires body.Network?
    ensures var ups := Upserts(body, env);
      && (MakeOutcomeOf(body, env) == Made <==> |ups| == |body.stations|)
      && (forall i :: 0 <= i < |ups| ==>
            && ups[i].id == body.id + "-" + body.stations[i].id
            && ups[i].city == body.city
            && ups[i].country == env.toIso3(body.country)
            && ups[i].adminArea.None?)
  {
    OutcomeAtFirstFailing(body.stations, body, env);
  }

  /**
   * `make_sites`: merge and commit one row per station, in order. A station
   * without a needed key raises KeyError; a storage error rolls that row back
   * and raises MakeSiteError. Either way the rows already committed stay.
   */
  method MakeSites(response: Response, store: SiteModel.SiteStore, env: ExtractEnv) returns (outcome: MakeOutcome)
    requires store.Valid()
    modifies store
    ensures store.Valid()
    ensures outcome == MakeOutcomeOf(response.body, env)
    ensures SiteModel.Upserted(old(store.sites), store.sites, Upserts(response.body, env))
  {
    var network := response.body;
    SiteModel.UpsertedNothing(store.sites);
    if network.NetworkMissingKey? {
      return MissingKey;
    }
    var country := env.toIso3(network.country);
    ghost var ups := Upserts(network, env);
    OutcomeAtFirstFailing(network.stations, network, env);
    for i := 0 to |network.stations|
      invariant forall j :: 0 <= j < i ==> Commits(network.stations[j], network, env)
      invariant i <= |ups|
      invariant store.Valid()
      invariant SiteModel.Upserted(old(store.sites), store.sites, ups[..i])
    {
      var station := network.stations[i];
      if station.StationMissingKey? {
        assert ups[..i] == ups;
        return MissingKey;
      }
      var site := SiteOf(network, station, country);
      if !env.commits(site) {
        assert ups[..i] == ups;
        return MakeSiteError;
      }
      assert ups[i] == site;
      ghost var mid := store.sites;
      store.Merge(site);
      SiteModel.UpsertedPrefixStep(old(store.sites), mid, store.sites, ups, i);
    }
    assert ups[..|network.stations|] == ups;
    return Made;
  }

  /** The dead-letter entries `process` makes for a response. */
  function ProcessEntries(response: Option<Response>, env: ExtractEnv): seq<string>
  {
    match response
    case None => []
    case Some(r) =>
      if !r.Ok() then [r.url]
      else if MakeOutcomeOf(r.body, env) != Made then [r.url]
      else []
  }

  /**
   * `process` queues a response's URL at most once: exactly when its status
   * is not ok, or when making its sites raised.
   */
  lemma ProcessEntriesCases(response: Option<Response>, env: ExtractEnv)
    ensures |ProcessEntries(response, env)| <= 1
    ensures response.None? ==> ProcessEntries(response, env) == []
    ensures response.Some? ==>
      (ProcessEntries(response, env) == [response.value.url] <==>
         !response.value.Ok() || MakeOutcomeOf(response.value.body, env) != Made)
    ensures response.Some? ==>
      (ProcessEntries(response, env) == [] <==>
         response.value.Ok() && MakeOutcomeOf(response.value.body, env) == Made)
  {
  }

  /** The rows `process` commits for a response: none unless its status is ok. */
  function ProcessUpserts(response: Option<Response>, env: ExtractEnv): seq<SiteModel.Site>
  {
    match response
    case None => []
    case Some(r) => if r.Ok() then Upserts(r.body, env) else []
  }

  /**
   * `process`: ignore a missing response; queue the URL of a response whose
   * status is not ok; otherwise make its sites, queueing its URL when that
   * ends in KeyError or MakeSiteError.
   */
  method Process(response: Option<Response>, store: SiteModel.SiteStore, dlq: Dlq.DeadLetterStore, env: ExtractEnv)
    requires store.Valid() && dlq.Valid()
    modifies store, dlq.urls
    ensures store.Valid()
    ensures dlq.urls.items == old(dlq.urls.items) + ProcessEntries(response, env)
    ensures dlq.noAdmin.items == old(dlq.noAdmin.items)
    ensures SiteModel.Upserted(old(store.sites), store.sites, ProcessUpserts(response, env))
  {
    SiteModel.UpsertedNothing(store.sites);
    if response.None? {
      return;
    }
    var r := response.value;
    if !r.Ok() {
      dlq.AddToDlq(r.url);
      return;
    }
    var outcome := MakeSites(r, store, env);
    if outcome == MissingKey || outcome == MakeSiteError {
      dlq.AddToDlq(r.url);
    }
  }

  /** The dead-letter entries for one requested URL: `on_fail` for a raised request, else `process`. */
  function DlqEntry(url: string, env: ExtractEnv): seq<string>
  {
    match env.fetch(url)
    case TransportFail => [url]
    case Completed(r) => ProcessEntries(Some(r), env)
  }

  function UrlUpserts(url: string, env: ExtractEnv): seq<SiteModel.Site>
  {
    match env.fetch(url)
    case TransportFail => []
    case Completed(r) => ProcessUpserts(Some(r), env)
  }

  /** The dead-letter entries for URLs handled in the given order. */
  function DlqEntries(urls: seq<string>, env: ExtractEnv): seq<string>
    decreases |urls|
  {
    if urls == [] then [] else DlqEntry(urls[0], env) + DlqEntries(urls[1..], env)
  }

  /** The rows committed for URLs handled in the given order. */
  function AllUpserts(urls: seq<string>, env: ExtractEnv): seq<SiteModel.Site>
    decreases |urls|
  {
    if urls == [] then [] else AllUpserts(urls[..|urls| - 1], env) + UrlUpserts(urls[|urls| - 1], env)
  }

  lemma {:induction false} DlqEntriesAppend(a: seq<string>, b: seq<string>, env: ExtractEnv)
    ensures DlqEntries(a + b, env) == DlqEntries(a, env) + DlqEntries(b, env)
    decreases |a|
  {
    if a == [] {
      assert a + b == b;
    } else {
      assert (a + b)[1..] == a[1..] + b;
      DlqEntriesAppend(a[1..], b, env);
    }
  }

  /** The rows committed for two runs of URLs, one after the other. */
  lemma {:induction false} AllUpsertsAppend(a: seq<string>, b: seq<string>, env: ExtractEnv)
    ensures AllUpserts(a + b, env) == AllUpserts(a, env) + AllUpserts(b, env)
    decreases |b|
  {
    if b == [] {
      assert a + b == a;
    } else {
      var n := |b| - 1;
      var init, last := b[..n], b[n];
      assert b == init + [last];
      assert a + b == (a + init) + [last];
      AllUpsertsSnoc(a + init, last, env);
      AllUpsertsSnoc(init, last, env);
      AllUpsertsAppend(a, init, env);
      AppendAssoc(AllUpserts(a, env), AllUpserts(init, env), UrlUpserts(last, env));
    }
  }

  /** The rows committed for a run of URLs and then one more. */
  lemma AllUpsertsSnoc(urls: seq<string>, url: string, env: ExtractEnv)
    ensures AllUpserts(urls + [url], env) == AllUpserts(urls, env) + UrlUpserts(url, env)
  {
    assert (urls + [url])[..|urls|] == urls;
  }

  /** Sequence concatenation regroups; a named step keeps the callers' proofs small. */
  lemma AppendAssoc<T>(x: seq<T>, y: seq<T>, z: seq<T>)
    ensures (x + y) + z == x + (y + z)
  {
  }

  /** The rows committed for the URLs handled so far, then for one more URL. */
  lemma AllUpsertsStep(sites0: map<string, SiteModel.Site>, mid: map<string, SiteModel.Site>,
                       now: map<string, SiteModel.Site>, done: seq<string>, url: string, env: ExtractEnv)
    requires SiteModel.Upserted(sites0, mid, AllUpserts(done, env))
    requires SiteModel.Upserted(mid, now, UrlUpserts(url, env))
    ensures SiteModel.Upserted(sites0, now, AllUpserts(done + [url], env))
  {
    assert (done + [url])[..|done|] == done;
    SiteModel.UpsertedTrans(sites0, mid, now, AllUpserts(done, env), UrlUpserts(url, env));
  }

  lemma DlqEntriesSnoc(a: seq<string>, x: string, env: ExtractEnv)
    ensures DlqEntries(a + [x], env) == DlqEntries(a, env) + DlqEntry(x, env)
  {
    DlqEntriesAppend(a, [x], env);
    assert [x][1..] == [];
  }

  /** The queue after the URLs handled so far, then after one more URL. */
  lemma DlqEntriesStep(items: seq<string>, queued0: seq<string>, done: seq<string>, url: string, env: ExtractEnv)
    requires items == queued0 + DlqEntries(done, env) + DlqEntry(url, env)
    ensures items == queued0 + DlqEntries(done + [url], env)
  {
    DlqEntriesSnoc(done, url, env);
  }

  /** Finds, in `urls`, the URL handled first in `arrival`; the rest are again a reordering. */
  lemma MatchFirst(urls: seq<string>, arrival: seq<string>) returns (k: nat)
    requires arrival != [] && multiset(arrival) == multiset(urls)
    ensures k < |urls| && urls[k] == arrival[0]
    ensures multiset(arrival[1..]) == multiset(urls[..k] + urls[k + 1..])
  {
    var x := arrival[0];
    assert arrival == [x] + arrival[1..];
    assert x in multiset(urls);
    k :| 0 <= k < |urls| && urls[k] == x;
    var rest := urls[..k] + urls[k + 1..];
    assert urls == urls[..k] + [x] + urls[k + 1..];
    assert multiset(urls) == multiset(rest) + multiset{x};
    assert multiset(arrival) == multiset(arrival[1..]) + multiset{x};
    calc {
      multiset(arrival[1..]);
      multiset(arrival) - multiset{x};
      multiset(urls) - multiset{x};
      multiset(rest);
    }
  }

  /** The entries of a URL list split around any one of its URLs. */
  lemma DlqEntriesSplit(urls: seq<string>, k: nat, env: ExtractEnv)
    requires k < |urls|
    ensures DlqEntries(urls, env)
         == DlqEntries(urls[..k], env) + DlqEntry(urls[k], env) + DlqEntries(urls[k + 1..], env)
  {
    assert urls == urls[..k] + [urls[k]] + urls[k + 1..];
    DlqEntriesAppend(urls[..k] + [urls[k]], urls[k + 1..], env);
    DlqEntriesAppend(urls[..k], [urls[k]], env);
    assert DlqEntries([urls[k]], env) == DlqEntry(urls[k], env) by {
      assert [urls[k]][1..] == [];
    }
  }

  /**
   * Responses arrive in any order, but the URLs that reach the dead-letter
   * queue are the same, counted with multiplicity, whatever the order.
   */
  lemma {:induction false} DlqEntriesAnyOrder(urls: seq<string>, arrival: seq<string>, env: ExtractEnv)
    requires multiset(arrival) == multiset(urls)
    ensures multiset(DlqEntries(arrival, env)) == multiset(DlqEntries(urls, env))
    decreases |arrival|
  {
    if arrival != [] {
      var k := MatchFirst(urls, arrival);
      var rest := urls[..k] + urls[k + 1..];
      DlqEntriesAnyOrder(rest, arrival[1..], env);
      DlqEntriesAppend(urls[..k], urls[k + 1..], env);
      DlqEntriesSplit(urls, k, env);
    }
  }

  /**
   * One completed request of `extract_sites`: `on_fail` when it raised,
   * `process` otherwise. It extends the queue and the committed rows of the
   * URLs handled so far (`done`) to those of `done + [url]`.
   */
  method HandleNext(url: string, store: SiteModel.SiteStore, dlq: Dlq.DeadLetterStore, env: ExtractEnv,
                    ghost done: seq<string>, ghost queued0: seq<string>, ghost sites0: map<string, SiteModel.Site>)
    requires store.Valid() && dlq.Valid()
    requires dlq.urls.items == queued0 + DlqEntries(done, env)
    requires SiteModel.Upserted(sites0, store.sites, AllUpserts(done, env))
    modifies store, dlq.urls
    ensures store.Valid()
    ensures dlq.urls.items == queued0 + DlqEntries(done + [url], env)
    ensures dlq.noAdmin.items == old(dlq.noAdmin.items)
    ensures SiteModel.Upserted(sites0, store.sites, AllUpserts(done + [url], env))
  {
    ghost var mid := store.sites;
    match env.fetch(url) {
      case TransportFail =>
        EtlUtils.OnFail(dlq, url);
        SiteModel.UpsertedNothing(store.sites);
      case Completed(r) =>
        Process(Some(r), store, dlq, env);
    }
    DlqEntriesStep(dlq.urls.items, queued0, done, url, env);
    AllUpsertsStep(sites0, mid, store.sites, done, url, env);
  }

  /**
   * `extract_sites`: request every URL; each raised request goes through
   * `on_fail`, each response through `process`, in `arrival` order, the order
   * in which the concurrent requests complete.
   */
  method ExtractSites(urls: seq<string>, arrival: seq<string>, store: SiteModel.SiteStore, dlq: Dlq.DeadLetterStore, env: ExtractEnv)
    requires multiset(arrival) == multiset(urls)
    requires store.Valid() && dlq.Valid()
    modifies store, dlq.urls
    ensures store.Valid()
    ensures dlq.urls.items == old(dlq.urls.items) + DlqEntries(arrival, env)
    ensures dlq.noAdmin.items == old(dlq.noAdmin.items)
    ensures SiteModel.Upserted(old(store.sites), store.sites, AllUpserts(arrival, env))
  {
    SiteModel.UpsertedNothing(store.sites);
    assert arrival[..0] == [] && old(dlq.urls.items) + [] == old(dlq.urls.items);
    for i := 0 to |arrival|
      invariant store.Valid()
      invariant dlq.urls.items == old(dlq.urls.items) + DlqEntries(arrival[..i], env)
      invariant dlq.noAdmin.items == old(dlq.noAdmin.items)
      invariant SiteModel.Upserted(old(store.sites), store.sites, AllUpserts(arrival[..i], env))
    {
      HandleNext(arrival[i], store, dlq, env, arrival[..i], old(dlq.urls.items), old(store.sites));
      PrefixStep(arrival, i);
    }
    assert arrival[..|arrival|] == arrival;
  }

  /**
   * The next prefix is the current one plus one element. Stated apart, in
   * the shape the loop invariant needs, so that the loop's own proof stays
   * small.
   */
  lemma PrefixStep<T>(s: seq<T>, i: nat)
    requires i < |s|
    ensures s[..i] + [s[i]] == s[..i + 1]
  {
  }

  /**
   * `process_chunk`: take the next chunk of URLs; false, with nothing done,
   * when the URLs are exhausted; otherwise extract that chunk (responses
   * handled in request order) and answer true.
   */
  method ProcessChunk(g: EtlUtils.Cursor<string>, chunkSize: int, store: SiteModel.SiteStore, dlq: Dlq.DeadLetterStore, env: ExtractEnv)
    returns (more: bool)
    requires chunkSize >= 1
    requires store.Valid() && dlq.Valid()
    modifies g, store, dlq.urls
    ensures store.Valid()
    ensures more == (old(g.rest) != [])
    ensures !more ==> g.rest == [] && store.sites == old(store.sites) && dlq.urls.items == old(dlq.urls.items)
    ensures more ==>
      var c := EtlUtils.FirstChunk(old(g.rest), chunkSize);
      && g.rest == old(g.rest)[|c|..]
      && dlq.urls.items == old(dlq.urls.items) + DlqEntries(c, env)
      && SiteModel.Upserted(old(store.sites), store.sites, AllUpserts(c, env))
    ensures dlq.noAdmin.items == old(dlq.noAdmin.items)
  {
    var c := EtlUtils.Chunk(g, chunkSize);
    if c.Exhausted? {
      return false;
    }
    ExtractSites(c.items, c.items, store, dlq, env);
    return true;
  }

  /** Every URL whose request raises goes to the dead-letter queue as it is. */
  lemma {:induction false} AllFailingQueued(urls: seq<string>, env: ExtractEnv)
    requires forall u :: env.fetch(u) == TransportFail
    ensures DlqEntries(urls, env) == urls
    decreases |urls|
  {
    if urls != [] {
      AllFailingQueued(urls[1..], env);
      assert [urls[0]] + urls[1..] == urls;
    }
  }

  /** One chunk of URLs that all fail: the whole chunk goes to the dead-letter queue. */
  method FailingChunk(g: EtlUtils.Cursor<string>, store: SiteModel.SiteStore, dlq: Dlq.DeadLetterStore, env: ExtractEnv)
    returns (more: bool)
    requires forall u :: env.fetch(u) == TransportFail
    requires store.Valid() && dlq.Valid()
    modifies g, store, dlq.urls
    ensures store.Valid()
    ensures more == (old(g.rest) != [])
    ensures var c := if old(g.rest) == [] then [] else EtlUtils.FirstChunk(old(g.rest), 5);
      g.rest == old(g.rest)[|c|..] && dlq.urls.items == old(dlq.urls.items) + c
  {
    more := ProcessChunk(g, 5, store, dlq, env);
    if more {
      AllFailingQueued(EtlUtils.FirstChunk(old(g.rest), 5), env);
    }
  }

  /** Fourteen URLs that all fail, in chunks of five: true three times, then false; all fourteen queued in order. */
  method FourteenFailingUrls(urls: seq<string>) returns (results: seq<bool>, queued: seq<string>)
    requires |urls| == 14
    ensures results == [true, true, true, false]
    ensures queued == urls
  {
    var g := new EtlUtils.Cursor(urls);
    var store := new SiteModel.SiteStore(map[]);
    var dlq := new Dlq.DeadLetterStore();
    var env := ExtractEnv(_ => TransportFail, c => c, _ => true);
    var r1 := FailingChunk(g, store, dlq, env);
    assert |EtlUtils.FirstChunk(urls, 5)| == 5;
    var r2 := FailingChunk(g, store, dlq, env);
    assert |EtlUtils.FirstChunk(urls[5..], 5)| == 5;
    assert urls[5..][5..] == urls[10..];
    var r3 := FailingChunk(g, store, dlq, env);
    assert EtlUtils.FirstChunk(urls[10..], 5) == urls[10..];
    var r4 := FailingChunk(g, store, dlq, env);
    results := [r1, r2, r3, r4];
    queued := dlq.urls.items;
    assert urls[..5] + urls[5..][..5] + urls[10..] == urls;
  }
}
