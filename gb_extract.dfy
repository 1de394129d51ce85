/**
 * GeoBoundaries extraction (api/gb_extract.py): the admin-level downgrade, the
 * lookup of the boundary resource URL for a country, and the resource-name
 * keyed file cache of boundary feature collections.
 *
 * The boundary metadata endpoint and the resource download are oracles:
 * `lookup(country, level)` is the JSON array the metadata request returns and
 * `download(url)` the parsed document at a resource URL.
 */
module GbExtract {
  import opened Wrappers
  import EtlUtils

  /** The `KeyError`s that `load_geoboundary_data` absorbs, by the key that was missing. */
  datatype KeyError =
    | LevelKey(level: string)   // decrement_adm has no coarser level
    | DownloadUrlKey            // metadata element without "gjDownloadURL"
    | FeaturesKey               // resource document without "features"

  /** One element of the metadata array; `None` when it has no "gjDownloadURL". */
  datatype BoundaryMeta = BoundaryMeta(gjDownloadUrl: Option<string>)

  /** A feature's geometry, as the GeoJSON coordinates of its polygons. */
  datatype Geometry = Geometry(polygons: seq<seq<seq<(real, real)>>>)

  /** A boundary feature: its `properties.shapeID` and its geometry. */
  datatype Feature = Feature(shapeId: string, geometry: Geometry)

  /** A parsed resource document; `None` when it has no "features" key. */
  datatype GeoJson = GeoJson(features: Option<seq<Feature>>)

  /** The two remote collaborators of the resolver. */
  datatype BoundarySource = BoundarySource(
    lookup: (string, string) -> seq<BoundaryMeta>,
    download: string -> GeoJson)

  /** How fine an admin level is: ADM3 is finest, ADM0 (and anything unknown) coarsest. */
  function Granularity(level: string): nat
  {
    if level == "ADM3" then 3
    else if level == "ADM2" then 2
    else if level == "ADM1" then 1
    else 0
  }

  /**
   * `decrement_adm`: the next coarser level. `None` stands for the KeyError
   * raised for ADM0 and for every level the table does not know.
   */
  function DecrementAdm(adm: string): (r: Option<string>)
    ensures r.Some? <==> Granularity(adm) > 0
    ensures r.Some? ==> Granularity(r.value) + 1 == Granularity(adm)
    ensures r.Some? ==> r.value in {"ADM2", "ADM1", "ADM0"}
  {
    match adm
    case "ADM3" => Some("ADM2")
    case "ADM2" => Some("ADM1")
    case "ADM1" => Some("ADM0")
    case _ => None
  }

  /** The table of decrement_adm, including its two failing cases. */
  lemma DecrementAdmTable()
    ensures DecrementAdm("ADM3") == Some("ADM2")
    ensures DecrementAdm("ADM2") == Some("ADM1")
    ensures DecrementAdm("ADM1") == Some("ADM0")
    ensures DecrementAdm("ADM0") == None
    ensures DecrementAdm("ADM4") == None
  {
  }

  /** The levels from `level` down to the last one decrement_adm accepts. */
  function DowngradePath(level: string): (p: seq<string>)
    ensures |p| == Granularity(level) + 1
    ensures p[0] == level
    decreases Granularity(level)
  {
    match DecrementAdm(level)
    case None => [level]
    case Some(next) => [level] + DowngradePath(next)
  }

  /** From ADM3 the path is ADM3, ADM2, ADM1, ADM0: at most four queries. */
  lemma DowngradeFromAdm3()
    ensures DowngradePath("ADM3") == ["ADM3", "ADM2", "ADM1", "ADM0"]
  {
    assert DowngradePath("ADM0") == ["ADM0"];
  }

  /**
   * The levels `fetch_geoboundary_url` queries: from `level`, in coarsening
   * order, up to the first non-empty answer or the last level of the path.
   */
  function QueriedLevels(lookup: (string, string) -> seq<BoundaryMeta>, country: string, level: string): (q: seq<string>)
    ensures q != [] && q[0] == level
    ensures |q| <= Granularity(level) + 1
    decreases Granularity(level)
  {
    if lookup(country, level) != [] then [level]
    else match DecrementAdm(level)
      case None => [level]
      case Some(next) => [level] + QueriedLevels(lookup, country, next)
  }

  /**
   * The queried levels follow the downgrade path in order, every answer but
   * the last was empty, and the last answer is empty only when the whole
   * path, down to the coarsest level, has been tried.
   */
  lemma {:induction false} QueriedLevelsFollowPath(lookup: (string, string) -> seq<BoundaryMeta>, country: string, level: string)
    ensures var q := QueriedLevels(lookup, country, level);
      && q <= DowngradePath(level)
      && (forall i :: 0 <= i < |q| - 1 ==> lookup(country, q[i]) == [])
      && (lookup(country, q[|q| - 1]) == [] ==> q == DowngradePath(level))
    decreases Granularity(level)
  {
    var q := QueriedLevels(lookup, country, level);
    if lookup(country, level) == [] {
      match DecrementAdm(level)
      case None =>
      case Some(next) =>
        QueriedLevelsFollowPath(lookup, country, next);
        var q' := QueriedLevels(lookup, country, next);
        assert q == [level] + q';
        assert DowngradePath(level) == [level] + DowngradePath(next);
        forall i | 0 <= i < |q| - 1 ensures lookup(country, q[i]) == [] {
          if i > 0 {
            assert q[i] == q'[i - 1];
          }
        }
    }
  }

  /** What `fetch_geoboundary_url` returns or raises for `country` from `level`. */
  function GeoboundaryUrl(lookup: (string, string) -> seq<BoundaryMeta>, country: string, level: string): Result<string, KeyError>
  {
    var q := QueriedLevels(lookup, country, level);
    var last := q[|q| - 1];
    var answer := lookup(country, last);
    if answer == [] then Err(LevelKey(last))
    else if answer[0].gjDownloadUrl.None? then Err(DownloadUrlKey)
    else Ok(answer[0].gjDownloadUrl.value)
  }

  /**
   * The lookup fails for want of a level exactly when every level on the
   * downgrade path, down to the coarsest, came back empty; otherwise it uses
   * the first element of the first non-empty answer.
   */
  lemma {:induction false} GeoboundaryUrlOutcome(lookup: (string, string) -> seq<BoundaryMeta>, country: string, level: string)
    ensures GeoboundaryUrl(lookup, country, level).Err? && GeoboundaryUrl(lookup, country, level).error.LevelKey?
      <==> forall i :: 0 <= i < |DowngradePath(level)| ==> lookup(country, DowngradePath(level)[i]) == []
    ensures var q := QueriedLevels(lookup, country, level);
      lookup(country, q[|q| - 1]) != [] ==>
        GeoboundaryUrl(lookup, country, level) ==
          (match lookup(country, q[|q| - 1])[0].gjDownloadUrl
           case None => Err(DownloadUrlKey)
           case Some(u) => Ok(u))
  {
    var q := QueriedLevels(lookup, country, level);
    var p := DowngradePath(level);
    var last := q[|q| - 1];
    QueriedLevelsFollowPath(lookup, country, level);
    assert |q| <= |p| && q == p[..|q|];
    assert last == p[|q| - 1];
    if lookup(country, last) == [] {
      assert q == p;
      forall i | 0 <= i < |p| ensures lookup(country, p[i]) == [] {
        assert p[i] == q[i];
      }
    }
  }

  /**
   * `fetch_geoboundary_url`: query the configured level; while the answer is
   * empty, downgrade with decrement_adm (whose KeyError ends the search).
   * `queried` lists the levels in the order they were requested.
   */
  method FetchGeoboundaryUrl(lookup: (string, string) -> seq<BoundaryMeta>, country: string, startLevel: string)
    returns (r: Result<string, KeyError>, queried: seq<string>)
    ensures queried == QueriedLevels(lookup, country, startLevel)
    ensures r == GeoboundaryUrl(lookup, country, startLevel)
  {
    var level := startLevel;
    queried := [];
    while true
      invariant queried + QueriedLevels(lookup, country, level) == QueriedLevels(lookup, country, startLevel)
      decreases Granularity(level)
    {
      queried := queried + [level];
      var answer := lookup(country, level);
      if |answer| > 0 {
        assert QueriedLevels(lookup, country, level) == [level];
        r := if answer[0].gjDownloadUrl.None? then Err(DownloadUrlKey) else Ok(answer[0].gjDownloadUrl.value);
        return;
      }
      var next := DecrementAdm(level);
      if next.None? {
        r := Err(LevelKey(level));
        return;
      }
      assert QueriedLevels(lookup, country, level) == [level] + QueriedLevels(lookup, country, next.value);
      level := next.value;
    }
  }

  /** The document `get_geoboundary_features` reads: the cached file, or the download. */
  function CachedDocument(files: map<string, GeoJson>, url: string, download: string -> GeoJson): GeoJson
  {
    var name := EtlUtils.GetResourceName(url);
    if name in files then files[name] else download(url)
  }

  /** The file cache after `get_geoboundary_features`: a miss stores the download. */
  function CacheAfter(files: map<string, GeoJson>, url: string, download: string -> GeoJson): map<string, GeoJson>
  {
    var name := EtlUtils.GetResourceName(url);
    if name in files then files else files[name := download(url)]
  }

  /** `data["features"]`, whose KeyError is absorbed by the caller. */
  function FeaturesOf(doc: GeoJson): Result<seq<Feature>, KeyError>
  {
    match doc.features
    case None => Err(FeaturesKey)
    case Some(fs) => Ok(fs)
  }

  /**
   * A second read of a URL hits the cache and sees the same document as the
   * first, and so does any URL with the same resource name: the cache is
   * keyed by name, not by URL.
   */
  lemma {:induction false} CacheStable(files: map<string, GeoJson>, url: string, other: string, download: string -> GeoJson)
    requires EtlUtils.GetResourceName(other) == EtlUtils.GetResourceName(url)
    ensures EtlUtils.GetResourceName(other) in CacheAfter(files, url, download)
    ensures CachedDocument(CacheAfter(files, url, download), other, download) == CachedDocument(files, url, download)
    ensures CacheAfter(CacheAfter(files, url, download), other, download) == CacheAfter(files, url, download)
  {
  }

  /** The features `load_geoboundary_data` yields; every absorbed KeyError gives none. */
  function LoadedFeatures(files: map<string, GeoJson>, country: string, startLevel: string, source: BoundarySource): seq<Feature>
  {
    match GeoboundaryUrl(source.lookup, country, startLevel)
    case Err(_) => []
    case Ok(url) =>
      match FeaturesOf(CachedDocument(files, url, source.download))
      case Err(_) => []
      case Ok(fs) => fs
  }

  /** The file cache after `load_geoboundary_data`. */
  function FilesAfterLoad(files: map<string, GeoJson>, country: string, startLevel: string, source: BoundarySource): map<string, GeoJson>
  {
    match GeoboundaryUrl(source.lookup, country, startLevel)
    case Err(_) => files
    case Ok(url) => CacheAfter(files, url, source.download)
  }

  /** A country with no data at any level has no features and leaves the cache alone. */
  lemma NoDataNoFeatures(files: map<string, GeoJson>, country: string, startLevel: string, source: BoundarySource)
    requires forall i :: 0 <= i < |DowngradePath(startLevel)| ==> source.lookup(country, DowngradePath(startLevel)[i]) == []
    ensures LoadedFeatures(files, country, startLevel, source) == []
    ensures FilesAfterLoad(files, country, startLevel, source) == files
  {
    GeoboundaryUrlOutcome(source.lookup, country, startLevel);
  }

  /** The local `data/` directory of cached resource documents, by resource name. */
  class BoundaryFiles {
    var files: map<string, GeoJson>

    constructor (initial: map<string, GeoJson>)
      ensures files == initial
    {
      files := initial;
    }

    /**
     * `get_geoboundary_features` (with `fetch_geoboundary_resource` on a
     * miss): a cached file means no download; a miss downloads the resource
     * and stores it under its resource name.
     */
    method GetGeoboundaryFeatures(url: string, download: string -> GeoJson)
      returns (r: Result<seq<Feature>, KeyError>, hit: bool)
      modifies this
      ensures hit == (EtlUtils.GetResourceName(url) in old(files))
      ensures files == CacheAfter(old(files), url, download)
      ensures r == FeaturesOf(CachedDocument(old(files), url, download))
    {
      var name := EtlUtils.GetResourceName(url);
      var doc: GeoJson;
      if name in files {
        hit := true;
        doc := files[name];
      } else {
        hit := false;
        doc := download(url);
        files := files[name := doc];
      }
      r := FeaturesOf(doc);
    }

    /** `load_geoboundary_data`: every KeyError on the way becomes "no features". */
    method LoadGeoboundaryData(country: string, startLevel: string, source: BoundarySource)
      returns (features: seq<Feature>)
      modifies this
      ensures features == LoadedFeatures(old(files), country, startLevel, source)
      ensures files == FilesAfterLoad(old(files), country, startLevel, source)
    {
      var url, _ := FetchGeoboundaryUrl(source.lookup, country, startLevel);
      if url.Err? {
        return [];
      }
      var r, _ := GetGeoboundaryFeatures(url.value, source.download);
      features := if r.Err? then [] else r.value;
    }
  }
}
