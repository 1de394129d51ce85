# Bike-share site loader: extract/transform core in Dafny

This project models the extract/transform pipeline of the bike-share site loader,
with network, geometry and database effects replaced by inputs. The pipeline has
these parts:

- The seed request lists every bike network (`load_master_site_urls`).
- The network detail URLs are consumed from one shared generator, a chunk at a
  time (`chunk`, `process_chunk`).
- Each network response becomes `Site` rows: an upsert per station, each one
  committed on its own (`make_sites`, `process`).
- After every chunk, every site without an admin area gets the shape id of the
  first boundary feature containing it, or the `NO-ADMIN` sentinel
  (`process_admin_areas`, `identify_admin_area`).
- The boundary resource for a country is found by downgrading the admin level
  until the metadata lookup answers (`fetch_geoboundary_url`). It is read
  through a file cache keyed by resource name (`get_geoboundary_features`).
- Failed URLs and unresolved site ids go to two dead-letter queues (`dlq.py`).
- The `load_sites` command retries the failed URLs and reports both queues.

Modules, one per source file:

| module | file | form |
|---|---|---|
| `Wrappers` | `wrappers.dfy` | `Option` and `Result` |
| `EtlUtils` | `etl_utils.dfy` | the generator is class `Cursor` (it is advanced in place). `Chunk` is a method over it. `GetResourceName` is a function. `OnFail` is a method on the queues |
| `Dlq` | `dlq.dfy` | class `Queue`, with `put` and `get_nowait`. `UnloadDlq` is a draining loop. Class `DeadLetterStore` owns the two module-level queues |
| `GbExtract` | `gb_extract.dfy` | `DecrementAdm` is a partial map. `FetchGeoboundaryUrl` is the `while True` downgrade loop, proved against `QueriedLevels`/`GeoboundaryUrl`. Class `BoundaryFiles` is the `data/` cache |
| `SiteModel` | `site_model.dfy` | the `Site` record. Class `SiteStore` is the table as a map from primary key to row. `Upserted` states the effect of a series of merges |
| `CbTransform` | `cb_transform.dfy` | the first-match feature scan and the admin-area sweep |
| `CbExtract` | `cb_extract.dfy` | the seed request, `make_sites`, `process`, `extract_sites`, `process_chunk` |
| `Manage` | `manage.dfy` | `load_sites` as written, and a corrected retry loop |

The outside world becomes function-valued inputs:

- `ExtractEnv.fetch(url)` says how the GET of a URL ends: it raised, or it got a
  response with a status and a body.
- `toIso3` is the country-code conversion.
- `commits(site)` says whether the merge and commit of a row succeed.
- A response carries its own URL. `process` queues that URL, which after a redirect
  can differ from the one requested. `on_fail` queues the requested URL.
- `BoundarySource.lookup(country, level)` is the metadata answer, and `download(url)`
  is the resource document.
- `within(point, geometry)` is shapely's `Point.within`.
- In `load_sites`, pass `k` sees `attempt(k)`: pass 0 is the main pass and pass 1
  the first retry.

Each turn of the chunk loop (`process_chunk`, then `process_admin_areas`) is
recorded as a ghost `Manage.Turn`. The record holds the chunk, the table after
the merge, the table after the sweep, the visits with their answers, the
boundary caches and the ids queued. `Manage.TurnFrom` states what one turn does
from a given table and cache. `Manage.Turns` states that each turn starts where
the one before it left off. The passes and `load_sites` return their turns.

Three facts about the code that the model follows:

- The only boundary cache is the file cache under `data/`, keyed by resource
  name (`api/gb_extract.py:45-52`). It has no size bound and no eviction.
- The retry phase of `load_sites` runs at most one pass (`api/manage.py:81-92`,
  see Findings).
- The no-admin report header is the one `api/dlq.py:48` prints, "Admin area
  could not be identified these sites:". `tests/test_dlq.py:30` expects "… identified
  for these sites:"; the model uses the header `api/dlq.py` prints.

## Model

| member | source | states |
|---|---|---|
| EtlUtils.Cursor.Next | api/etl_utils.py:25-26 | pulling from the shared generator yields its next item and advances it by exactly one; an exhausted generator yields nothing (StopIteration) and stays exhausted |
| EtlUtils.FirstChunk | api/etl_utils.py:25-27 | a chunk holds between 1 and `chunk_size` items, is the front of what remains, in order, and is short only when the source runs out |
| EtlUtils.Chunk | api/etl_utils.py:17-27 | exhausted source: StopIteration and no chunk, never an empty one; `chunk_size < 1`: the first item is consumed and `islice` raises; otherwise the chunk is the next `FirstChunk` and the cursor advances by exactly its length |
| EtlUtils.ChunksFlatten | api/etl_utils.py:25-27 | concatenating the successive chunks gives back the source, nothing skipped or repeated |
| EtlUtils.ChunksSizes | api/etl_utils.py:25-27 | every chunk has 1 to `chunk_size` items and only the last may be short |
| EtlUtils.FourteenInFives | tests/test_etl_utils.py:6-14 | fourteen items in chunks of five give exactly three chunks, of sizes 5, 5 and 4 |
| EtlUtils.ChunkFourteen | tests/test_etl_utils.py:6-14 | pulling from a fourteen-item generator with size 5 gives chunks of 5, 5, 4 and then StopIteration |
| EtlUtils.NameStart | api/etl_utils.py:35 | the position after the last '/' (0 without one): no '/' follows it and a '/' precedes it |
| EtlUtils.GetResourceName | api/etl_utils.py:30-35 | the resource name contains no '/' |
| EtlUtils.ResourceNameIsLastSegment | api/etl_utils.py:35 | the name is a suffix of the URL, preceded by a '/' whenever it is not the whole URL |
| EtlUtils.NoSlashIsUnchanged | api/etl_utils.py:35 | a URL without '/' is its own resource name |
| EtlUtils.ResourceNameExample | api/etl_utils.py:33 | `https://foo.com/bar.json` gives `bar.json` |
| EtlUtils.OnFail | api/etl_utils.py:11-14 | a raised request appends its URL at the tail of the URL queue; the no-admin queue is unchanged |
| Dlq.Queue.Put | api/dlq.py:19 | `put` appends at the tail |
| Dlq.Queue.GetNowait | api/dlq.py:33-35 | `get_nowait` removes and returns the head; on an empty queue it reports Empty and changes nothing |
| Dlq.UnloadDlq | api/dlq.py:28-36 | draining returns every queued item in FIFO order, an empty sequence for an empty queue, and leaves the queue empty |
| Dlq.SplitJoinLines | api/dlq.py:39-48 | for a non-empty list, a report body, the items joined by newlines, splits back into exactly the drained items, in order, when no item holds a newline |
| Dlq.DeadLetterStore.constructor | api/dlq.py:12-13 | the two module-level queues start empty and are distinct objects |
| Dlq.DeadLetterStore.AddToDlq | api/dlq.py:16-19 | the URL goes to the tail of the URL queue; the no-admin queue is unchanged |
| Dlq.DeadLetterStore.AddToNoAdminDlq | api/dlq.py:22-25 | the site id goes to the tail of the no-admin queue; the URL queue is unchanged |
| Dlq.DeadLetterStore.LogUnprocessedDlq | api/dlq.py:39-42 | the echoed text is the header followed by the queued URLs joined by newlines; the URL queue ends empty and the other is unchanged |
| Dlq.DeadLetterStore.LogNoAdminDlq | api/dlq.py:45-48 | the echoed text is the header followed by the queued site ids joined by newlines; the no-admin queue ends empty and the other is unchanged |
| GbExtract.DecrementAdm | api/gb_extract.py:12-22 | defined (no KeyError) exactly for ADM3, ADM2 and ADM1, and then one level coarser |
| GbExtract.DecrementAdmTable | tests/test_gb_extract.py:6-13 | ADM3→ADM2, ADM2→ADM1, ADM1→ADM0; ADM0 and ADM4 raise KeyError |
| GbExtract.DowngradePath | api/gb_extract.py:12-22 | the chain of levels from a level down to the coarsest, one longer than the level's granularity |
| GbExtract.DowngradeFromAdm3 | api/gb_extract.py:65-76 | from ADM3 the chain is ADM3, ADM2, ADM1, ADM0: at most four queries |
| GbExtract.QueriedLevels | api/gb_extract.py:65-76 | the queried levels start at the configured level and are no more than the path allows |
| GbExtract.QueriedLevelsFollowPath | api/gb_extract.py:65-76 | levels are queried in strictly coarsening order along the downgrade path; every answer but the last was empty, and the last is empty only when the whole path down to ADM0 was tried |
| GbExtract.GeoboundaryUrlOutcome | api/gb_extract.py:65-77 | the lookup fails for want of a level exactly when every level down to ADM0 answered empty; otherwise the result is `gjDownloadURL` of the first element of the first non-empty answer, or KeyError without that key |
| GbExtract.FetchGeoboundaryUrl | api/gb_extract.py:56-77 | the downgrade loop queries exactly `QueriedLevels`, in order, and returns `GeoboundaryUrl` |
| GbExtract.CacheStable | api/gb_extract.py:45-53 | after a read the resource name is cached; a second read, by that URL or any with the same resource name, sees the same document and leaves the cache as it is |
| GbExtract.NoDataNoFeatures | api/gb_extract.py:82-88 | a country without data at any level yields no features and leaves the cache alone |
| GbExtract.BoundaryFiles.GetGeoboundaryFeatures | api/gb_extract.py:38-53 | a hit exactly when the resource name is cached; a miss downloads and stores the document under that name; the features are the document's, in source order, or KeyError |
| GbExtract.BoundaryFiles.LoadGeoboundaryData | api/gb_extract.py:80-88 | the features are `LoadedFeatures`: every KeyError on the way gives an empty list; the cache becomes `FilesAfterLoad` |
| SiteModel.SiteStore.Merge | api/cb_extract.py:73-74 | merging a row adds its key, sets every column but admin_area to the new row's, and leaves every other row untouched |
| SiteModel.SiteStore.PendingSites | api/cb_transform.py:16 | the query returns each site whose admin area is None exactly once, and no other |
| SiteModel.UpsertedTrans | api/cb_extract.py:73-74 | two series of merges, one after the other, have the effect of their concatenation |
| SiteModel.UpsertedThenAdmin | api/cb_transform.py:23-27 | writing admin areas after a series of merges keeps every merged column: the table is still those merges, up to admin areas |
| SiteModel.UpsertedUpToAdminTrans | api/manage.py:75-78 | two series of merges, each followed by admin-area writes, have the effect of their concatenation, up to admin areas |
| CbTransform.FirstContaining | api/cb_transform.py:30-52 | the scan stops at the first feature, in source order, containing the point built as (longitude, latitude); no earlier feature contains it |
| CbTransform.ThreeIdenticalFeatures | tests/test_cb_transform.py:16-25 | a site inside three identical features matches the first; outside all of them it matches none |
| CbTransform.UpdateSiteAdminArea | api/cb_transform.py:23-27 | the row keyed by `site.id` becomes `site` with the new admin area; the other rows stay |
| CbTransform.IdentifyAdminArea | api/cb_transform.py:36-55 | true exactly when some feature contains the site; the row gets the first such feature's shape id, else the sentinel (also when there are no features); the cache is updated as loading does |
| CbTransform.UnidentifiedMembers | api/cb_transform.py:18-20 | a site id goes to the no-admin queue exactly when its identification failed |
| CbTransform.UnidentifiedWitness | api/cb_transform.py:18-20 | every queued id comes from a visit of that id whose identification failed |
| CbTransform.UnidentifiedHas | api/cb_transform.py:18-20 | every visit whose identification failed queued its id |
| CbTransform.VisitSite | api/cb_transform.py:18-20 | one visit answers whether a feature loaded for the site's country contains it; the row gets the first such feature's shape id, else the sentinel; the cache changes as loading does; the id is queued exactly when the answer is false |
| CbTransform.ProcessAdminAreas | api/cb_transform.py:13-20 | visits each site whose admin area was None once, and no other; changes no other row; visit j loads features through the cache left by visit j-1, answers whether one contains the site and stores the resolved area; ids are queued exactly for the false answers, in visit order; afterwards no site has admin area None |
| CbTransform.SweptAdminOnly | api/cb_transform.py:13-27 | a sweep keeps the same keys and changes no column but admin_area |
| CbTransform.UnidentifiedHoldSentinel | api/cb_transform.py:18-54 | every id a sweep queues as unidentified is a stored site holding the sentinel |
| CbExtract.LoadMasterSiteUrls | api/cb_extract.py:21-40 | a raised seed request or a status from 400 to 599 (`requests`' not ok) is an error; otherwise one URL per network, `uri + href`, in order (KeyError without "networks") |
| CbExtract.Prefixed | api/cb_extract.py:37-39 | the i-th URL is the base URI followed by the i-th href |
| CbExtract.FirstFailing | api/cb_extract.py:60-77 | the station at which `make_sites` stops: every earlier station builds and commits, and that one does not |
| CbExtract.UpsertsFrom | api/cb_extract.py:60-74 | one row per station before the first failure, in station order, each the row `make_sites` builds for that station |
| CbExtract.OutcomeAtFirstFailing | api/cb_extract.py:60-77 | the station loop ends normally exactly when no station fails; otherwise the first failing station decides: KeyError for a missing key, MakeSiteError for a failed commit |
| CbExtract.MakeSitesPrefix | api/cb_extract.py:60-77 | `make_sites` succeeds exactly when every station was committed; each committed row is keyed `{network_id}-{station_id}` with the network's city and converted country and no admin area |
| CbExtract.MakeSites | api/cb_extract.py:43-77 | the outcome is `MakeOutcomeOf`; the store is the old store with the committed rows merged in order, rows committed before a failure remaining |
| CbExtract.ProcessEntriesCases | api/cb_extract.py:80-96 | `process` queues a URL at most once: nothing for a missing response, the URL exactly when the status is not ok or making sites raised |
| CbExtract.Process | api/cb_extract.py:80-96 | the URL queue grows by `ProcessEntries`; rows are merged only for an ok response; the no-admin queue is unchanged |
| CbExtract.DlqEntriesAnyOrder | api/cb_extract.py:101-104 | whatever the order in which responses complete, the same URLs, with multiplicity, reach the URL queue |
| CbExtract.HandleNext | api/cb_extract.py:102-104 | one completed request, through `on_fail` or `process`, extends the queue and the merged rows by that URL's entries |
| CbExtract.ExtractSites | api/cb_extract.py:99-104 | after the requests of a chunk complete, in any arrival order, the URL queue is extended by their entries in that order and the rows are their merges in that order |
| CbExtract.AllUpsertsAppend | api/cb_extract.py:99-104 | the rows merged for two runs of URLs, one after the other, are the rows of the first run followed by those of the second |
| CbExtract.ProcessChunk | api/cb_extract.py:107-122 | false, with nothing changed, exactly when the URLs are exhausted; otherwise the cursor advances past the next chunk, whose URLs are extracted |
| CbExtract.AllFailingQueued | api/etl_utils.py:11-14 | when every request raises, every URL reaches the queue as it is, in order |
| CbExtract.FailingChunk | tests/test_cb_extract.py:5-12 | a chunk of failing URLs goes to the queue whole |
| CbExtract.FourteenFailingUrls | tests/test_cb_extract.py:5-14 | with fourteen failing URLs and chunk size 5, `process_chunk` answers true three times, then false, and all fourteen are queued in order |
| Manage.ChunkAndResolve | api/manage.py:75-78 | one turn of the main loop: false exactly when the URLs are exhausted, with nothing changed; otherwise the turn record it returns satisfies `TurnFrom` from the table and cache it started with: the chunk's rows merged in order, the sweep visiting exactly the rows then lacking an admin area, once each, writing the identified area or the sentinel, and queueing exactly its failures; its table and cache are the new state; every id queued is a stored site holding the sentinel; no site lacks an admin area afterwards |
| Manage.SweepTurn | api/cb_transform.py:13-20 | the sweep after a chunk whose rows took the table from `sites` to the current one: the turn it records satisfies `TurnFrom` from `sites` and the cache it found, ends at the new table and cache, and queues exactly the sweep's failures, each a stored site holding the sentinel; the URL queue is untouched and no site lacks an admin area afterwards |
| Manage.TurnsSnoc | api/manage.py:75-78 | a turn that did what `TurnFrom` says, from where the earlier turns left the table and the cache, extends the series; the table and cache are then the ones it left, and its queued ids follow the earlier ones |
| Manage.TurnsAppend | api/manage.py:75-78 | two series of turns, the second from where the first left off, form one series ending where the second ends, queueing the first's ids then the second's |
| Manage.QueuedOfAppend | api/manage.py:75-78 | the ids queued by two series of turns are those of the first followed by those of the second |
| Manage.QueuedFailedInItsTurn | api/cb_transform.py:13-20 | every id queued by a series of turns was visited by one of them, lacking an admin area when that turn's chunk was merged, failed identification there, and held the sentinel when that sweep ended |
| Manage.FailedVisitQueued | api/cb_transform.py:18-20 | every visit that failed, in any turn of a series, queued its site id |
| Manage.RunPass | api/manage.py:75-78 | the loop consumes every URL and makes one turn per chunk of `chunk`, in order, each in the same world; each turn satisfies `TurnFrom` from where the one before left the table and the cache, and the final table and cache are the last turn's; the ids queued as unidentified are exactly those the turns queued, in order; the URL queue grows by the entries of all URLs, in order; the table holds every URL's rows, merged in order, up to admin areas; every id queued as unidentified is a stored site |
| Manage.PassOver | api/manage.py:69-78 | a pass over a sequence of URLs: one turn per chunk, linked as for `RunPass`, whose queued ids are the ones returned; the URL queue is extended by their entries, their rows merged in order (up to admin areas), and only stored sites are queued as unidentified |
| Manage.RetryAsWritten | api/manage.py:81-92 | the `for … else` around `while … else` runs at most one retry pass, exactly when the retry count is at least one, with turns one per chunk of the drained URLs, linked as for `RunPass`; then "DLQ cleared!" breaks the loop with no report; with no retry the outer `else` writes a report holding only the header, and nothing else changes |
| Manage.LoadSites | api/manage.py:68-93 | a failed seed changes nothing; otherwise the main pass makes one linked turn per chunk of the seed URLs and the retry pass, if any, one per chunk of the drained URLs, continuing from where the main pass left off; the final table and cache are where the last turn left them; the unidentified ids reported are exactly those the main turns and then the retry turns queued; what happens to the URL queue is as stated for `RetryAsWritten`; the table holds the main pass's rows and then the retry pass's, up to admin areas; the no-admin report always lists every unresolved id, each a stored site, and empties that queue |
| Manage.LeftoverAfterCleanPass | api/manage.py:59-61 | a retry pass in which every URL succeeds leaves nothing over |
| Manage.AlwaysFailingLeftOver | api/manage.py:59-66 | a URL failing in every pass is left over however many retries |
| Manage.AsWrittenKeepsLeftover | api/manage.py:83-90 | what `load_sites` as written leaves in the queue, unreported, is exactly what one retry leaves over |
| Manage.RetryOnce | api/manage.py:82-87 | one corrected retry round: stop on an empty queue, adding no turn; otherwise a pass over the drained URLs, whose turns, one per chunk, extend the series from where it stood and queue the round's unidentified ids; `Leftover` and the rows still to be merged (`RetryUpserts`) move one attempt on |
| Manage.RetryAll | api/manage.py:59-61 | after the corrected retries the queue holds exactly `Leftover`, and the table holds the rows of every retry pass (`RetryUpserts`), up to admin areas; the turns of all rounds form one linked series ending at the final table and cache, whose queued ids are the ones returned; the queue is empty when the loop stopped on an empty queue |
| Manage.LoadSitesWithRetries | api/manage.py:59-66 | the corrected command reports exactly the URLs left over after up to the retry count of passes; the main turns, one per chunk of the seed URLs, and then the retry turns form linked series ending at the final table and cache, and the unidentified ids reported are exactly those they queued; the table holds the rows of the main pass and of every retry pass; both queues end empty |
| Manage.AsWrittenDropsFailure | api/manage.py:83-92 | one always-failing network with three retries: "DLQ cleared!", no unprocessed report, and the URL still queued |
| Manage.CorrectedReportsFailure | api/manage.py:59-66 | the same run with the corrected loop reports that URL and empties the queue |

## Left out

- HTTP through grequests is left out: connection handling, per-request timeouts and
  the concurrency of `imap`. A request's end is the oracle `fetch`. Responses
  of one chunk complete in an arrival order that is an input of
  `CbExtract.ExtractSites`. Its order-independence is `DlqEntriesAnyOrder`.
  `CbExtract.ProcessChunk` and everything above it handle responses in request
  order.
- `imap` never yields `None`, so `process(None)` appears only in
  `CbExtract.Process`/`ProcessEntriesCases` and never in a pass.
- shapely's geometry and the floating-point point-in-polygon test are the oracle
  `within`. Only the (longitude, latitude) order of the point is modelled.
- SQLAlchemy merge, commit and rollback are the map update `SiteStore.Merge` and
  the oracle `commits`. `SiteModel.SiteStore.Merge` leaves open what merge does to an
  existing row's admin_area. The source does not set it, and the model does not
  promise either value.
- `country_converter.convert` is the oracle `toIso3`. `dateutil.parser.parse`
  is not modelled: the timestamp is kept as text, and its own exceptions are outside
  the absorbed set.
- Reading and writing files under `data/`, and JSON parsing, are left out. The cache is
  the map `BoundaryFiles.files`, and a parsed document is a `GeoJson` value.
  Metadata fields other than `gjDownloadURL` are not modelled.
- `click.echo` output is not modelled, except the two report texts and the "DLQ
  cleared!" echo, which is the `cleared` flag of the report.
- Thread safety of `queue.Queue` is left out.
- `EtlUtils.Chunk` covers `chunk_size < 1`, where `islice` raises ValueError.
  `CbExtract.ProcessChunk`, `Manage.RunPass`, `Manage.LoadSites` and the other
  passes require a chunk size of at least 1. That ValueError would end the
  command, and it is not modelled past `Chunk`.
- A boundary feature without `properties.shapeID` or `geometry` raises KeyError
  in `identify_admin_area` (`api/cb_transform.py:46-47`). Nothing catches it, so
  it ends `load_sites` mid-sweep. In the model every `Feature` carries both.
- A network without `href` raises KeyError lazily, from the seed generator, when
  `process_chunk` pulls that URL (`api/cb_extract.py:38`). That ends `load_sites`
  mid-pass. In the model `SeedResponse.hrefs` holds one href per network.
- A failed commit in `update_site_admin_area` raises SQLAlchemyError
  (`api/cb_transform.py:26-27`). Nothing catches it, so it ends the sweep and the
  command. `CbTransform.UpdateSiteAdminArea` always succeeds.
- A resource URL ending in '/' gives an empty resource name, and `open("data/")`
  raises IsADirectoryError, which the `FileNotFoundError` handler does not catch
  (`api/gb_extract.py:45-50`). It ends the command. The model treats the empty
  name as an ordinary cache key.
- Manage.RunPass, Manage.PassOver, Manage.LoadSites: each queued id failed in
  its own turn and held the sentinel when that turn's sweep ended
  (`Manage.QueuedFailedInItsTurn`). The final table is not stated to still hold
  the sentinel for it: a later chunk may merge the same id again, and what merge
  does to its admin_area is left open.
- Manage.RetryAll, Manage.LoadSitesWithRetries: the retry turns form one linked
  series, and `Manage.RetryOnce` ties each round's turns to the chunks of the URLs
  it drained. The series as a whole is not split back into its rounds.
- The `init` command, the REST resource, migrations and configuration loading are not part of this model.
  Configuration values are fields of `PipelineConfig` and `TransformConfig`.

## Findings

| source | as written | input that shows it | evidently intended | confidence | as-written member | corrected member |
|---|---|---|---|---|---|---|
| api/manage.py:81-92 | the `while … else` inside `for retry in range(dlq_retries)` always runs its `else` and `break`s, so at most one retry pass runs and `log_unprocessed_dlq` runs only when the retry count is 0, by which time the queue was already drained into `retry_urls`: the unprocessed-URL report never lists a URL, and URLs that fail again stay queued unreported | `PROCESSING_RETRY_COUNT` = 3 (the default) and one network whose detail request always fails: "DLQ cleared!" is echoed, no report is written, and the URL is still queued at exit | reprocess the queue up to the retry count, stopping when it is empty, then report every URL still unprocessed | not executed | Manage.LoadSites, Manage.AsWrittenDropsFailure | Manage.LoadSitesWithRetries, Manage.CorrectedReportsFailure |
