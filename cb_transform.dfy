/**
 * City Bike transformation (api/cb_transform.py): give every site without an
 * admin area the shape id of the first boundary feature that contains it, or
 * the no-admin sentinel, and record the sites left without one.
 *
 * Point-in-polygon containment (shapely's `Point.within`) is the oracle
 * `within`; only the order in which the point is built is modelled.
 */
module CbTransform {
  import opened Wrappers
  import Dlq
  import GbExtract
  import SiteModel

  /** A shapely point: x is the longitude, y the latitude. */
  datatype Point = Point(x: real, y: real)

  /** The configuration and collaborators the transformer uses. */
  datatype TransformConfig = TransformConfig(
    startLevel: string,                              // ADMIN_AREA_LEVEL
    noAdminArea: string,                             // NO_ADMIN_AREA
    boundaries: GbExtract.BoundarySource,
    within: (Point, GbExtract.Geometry) -> bool)     // Point.within

  /** Default of NO_ADMIN_AREA (api/config.py:21). */
  const DefaultNoAdminArea: string := "NO-ADMIN"

  /** `poly_check`: the point is built as (longitude, latitude). */
  function PolyCheck(latitude: real, longitude: real, area: GbExtract.Geometry, within: (Point, GbExtract.Geometry) -> bool): bool
  {
    within(Point(longitude, latitude), area)
  }

  /**
   * Index of the first feature, in source order, whose area contains the
   * point (longitude, latitude); `|features|` when none does.
   */
  function FirstContaining(features: seq<GbExtract.Feature>, latitude: real, longitude: real, within: (Point, GbExtract.Geometry) -> bool): (k: nat)
    ensures k <= |features|
    ensures forall j :: 0 <= j < k ==> !within(Point(longitude, latitude), features[j].geometry)
    ensures k < |features| ==> within(Point(longitude, latitude), features[k].geometry)
    decreases |features|
  {
    if features == [] then 0
    else if PolyCheck(latitude, longitude, features[0].geometry, within) then 0
    else 1 + FirstContaining(features[1..], latitude, longitude, within)
  }

  /** The admin area identify_admin_area writes: the first match's shape id, else the sentinel. */
  function ResolvedArea(features: seq<GbExtract.Feature>, site: SiteModel.Site, cfg: TransformConfig): string
  {
    var k := FirstContaining(features, site.latitude, site.longitude, cfg.within);
    if k < |features| then features[k].shapeId else cfg.noAdminArea
  }

  /** A site inside three identical features matches the first; outside all, none. */
  lemma ThreeIdenticalFeatures(f: GbExtract.Feature, latitude: real, longitude: real, within: (Point, GbExtract.Geometry) -> bool)
    ensures within(Point(longitude, latitude), f.geometry) ==> FirstContaining([f, f, f], latitude, longitude, within) == 0
    ensures !within(Point(longitude, latitude), f.geometry) ==> FirstContaining([f, f, f], latitude, longitude, within) == 3
  {
  }

  /** `update_site_admin_area`: store the site with the given admin area. */
  method UpdateSiteAdminArea(store: SiteModel.SiteStore, site: SiteModel.Site, shapeId: string)
    requires store.Valid()
    modifies store
    ensures store.Valid()
    ensures store.sites == old(store.sites)[site.id := site.(adminArea := Some(shapeId))]
  {
    store.sites := store.sites[site.id := site.(adminArea := Some(shapeId))];
  }

  /**
   * `identify_admin_area`: scan the country's features in order; the first
   * that contains the site gives its admin area and the answer true; with no
   * match (or no features at all) the site gets the sentinel and the answer
   * is false.
   */
  method IdentifyAdminArea(site: SiteModel.Site, store: SiteModel.SiteStore, files: GbExtract.BoundaryFiles, cfg: TransformConfig)
    returns (identified: bool)
    requires store.Valid()
    modifies store, files
    ensures store.Valid()
    ensures var features := GbExtract.LoadedFeatures(old(files.files), site.country, cfg.startLevel, cfg.boundaries);
      && identified == (FirstContaining(features, site.latitude, site.longitude, cfg.within) < |features|)
      && store.sites == old(store.sites)[site.id := site.(adminArea := Some(ResolvedArea(features, site, cfg)))]
    ensures files.files == GbExtract.FilesAfterLoad(old(files.files), site.country, cfg.startLevel, cfg.boundaries)
  {
    var features := files.LoadGeoboundaryData(site.country, cfg.startLevel, cfg.boundaries);
    for i := 0 to |features|
      invariant forall j :: 0 <= j < i ==> !PolyCheck(site.latitude, site.longitude, features[j].geometry, cfg.within)
      invariant store.sites == old(store.sites)
    {
      var shapeId := features[i].shapeId;
      if !PolyCheck(site.latitude, site.longitude, features[i].geometry, cfg.within) {
        continue;
      }
      UpdateSiteAdminArea(store, site, shapeId);
      return true;
    }
    UpdateSiteAdminArea(store, site, cfg.noAdminArea);
    return false;
  }

  /** The visited ids whose identification failed, in visit order. */
  function Unidentified(ids: seq<string>, identified: seq<bool>): (r: seq<string>)
    requires |ids| == |identified|
    ensures |r| <= |ids|
    decreases |ids|
  {
    if ids == [] then []
    else
      var n := |ids| - 1;
      Unidentified(ids[..n], identified[..n]) + (if identified[n] then [] else [ids[n]])
  }

  /** An id goes to the no-admin queue exactly when its identification failed. */
  lemma UnidentifiedMembers(ids: seq<string>, identified: seq<bool>, id: string)
    requires |ids| == |identified|
    ensures id in Unidentified(ids, identified) <==> exists i :: 0 <= i < |ids| && ids[i] == id && !identified[i]
  {
    if id in Unidentified(ids, identified) {
      var i := UnidentifiedWitness(ids, identified, id);
    }
    forall i | 0 <= i < |ids| && ids[i] == id && !identified[i] ensures id in Unidentified(ids, identified) {
      UnidentifiedHas(ids, identified, i);
    }
  }

  /** Every queued id was visited and failed: the visit that queued it. */
  lemma {:induction false} UnidentifiedWitness(ids: seq<string>, identified: seq<bool>, id: string) returns (i: nat)
    requires |ids| == |identified|
    requires id in Unidentified(ids, identified)
    ensures i < |ids| && ids[i] == id && !identified[i]
    decreases |ids|
  {
    var n := |ids| - 1;
    if !identified[n] && ids[n] == id {
      i := n;
    } else {
      i := UnidentifiedWitness(ids[..n], identified[..n], id);
      assert ids[..n][i] == ids[i] && identified[..n][i] == identified[i];
    }
  }

  /** Every visit that failed queued its id. */
  lemma {:induction false} UnidentifiedHas(ids: seq<string>, identified: seq<bool>, i: nat)
    requires |ids| == |identified| && i < |ids| && !identified[i]
    ensures ids[i] in Unidentified(ids, identified)
    decreases |ids|
  {
    var n := |ids| - 1;
    if i < n {
      assert ids[..n][i] == ids[i] && identified[..n][i] == identified[i];
      UnidentifiedHas(ids[..n], identified[..n], i);
    }
  }

  /**
   * After visiting `ids` (with results `identified`) starting from the rows
   * in `snapshot`: the keys are the same, unvisited rows are untouched, and
   * each visited row differs only in holding an admin area, the sentinel
   * when identification failed.
   */
  ghost predicate Swept(snapshot: map<string, SiteModel.Site>, sites: map<string, SiteModel.Site>,
                        ids: seq<string>, identified: seq<bool>, sentinel: string)
  {
    && |ids| == |identified|
    && sites.Keys == snapshot.Keys
    && (forall id :: id in snapshot && id !in ids ==> sites[id] == snapshot[id])
    && (forall j :: 0 <= j < |ids| ==>
          (ids[j] in sites && ids[j] in snapshot &&
           SiteModel.SameExceptAdmin(sites[ids[j]], snapshot[ids[j]]) && sites[ids[j]].adminArea.Some?))
    && (forall j :: 0 <= j < |ids| && !identified[j] ==> sites[ids[j]].adminArea == Some(sentinel))
  }

  /** Visiting the next site of `ids` extends the sweep by one. */
  lemma SweptStep(snapshot: map<string, SiteModel.Site>, sites: map<string, SiteModel.Site>,
                  ids: seq<string>, i: nat, identified: seq<bool>, sentinel: string,
                  ok: bool, area: string)
    requires i < |ids|
    requires Swept(snapshot, sites, ids[..i], identified, sentinel)
    requires ids[i] in snapshot && ids[i] !in ids[..i] && snapshot[ids[i]].id == ids[i]
    requires !ok ==> area == sentinel
    ensures Swept(snapshot, sites[ids[i] := snapshot[ids[i]].(adminArea := Some(area))], ids[..i + 1], identified + [ok], sentinel)
  {
    var id := ids[i];
    var sites' := sites[id := snapshot[id].(adminArea := Some(area))];
    var ids', identified' := ids[..i + 1], identified + [ok];
    assert ids' == ids[..i] + [id];
    forall j | 0 <= j < |ids'| && !identified'[j] ensures sites'[ids'[j]].adminArea == Some(sentinel) {
      if j < i {
        assert ids'[j] == ids[..i][j] && identified'[j] == identified[j];
      }
    }
  }

  /** Queuing the next visited id when it failed extends the no-admin entries by one. */
  lemma UnidentifiedStep(queued0: seq<string>, before: seq<string>, now: seq<string>,
                         ids: seq<string>, i: nat, identified: seq<bool>, ok: bool)
    requires i < |ids| && |identified| == i
    requires before == queued0 + Unidentified(ids[..i], identified)
    requires now == before + (if ok then [] else [ids[i]])
    ensures now == queued0 + Unidentified(ids[..i + 1], identified + [ok])
  {
    var ids', identified' := ids[..i + 1], identified + [ok];
    assert ids'[..i] == ids[..i] && identified'[..i] == identified;
    var tail := if ok then [] else [ids[i]];
    assert Unidentified(ids', identified') == Unidentified(ids[..i], identified) + tail;
    assert (queued0 + Unidentified(ids[..i], identified)) + tail == queued0 + (Unidentified(ids[..i], identified) + tail);
  }

  /**
   * How the sweep answered for each visited id: visiting `ids[j]` read the
   * boundary data through the cache `caches[j]` and left `caches[j + 1]`;
   * its answer is whether one of the country's features contains the site,
   * and its row holds the area identify_admin_area resolved from them.
   */
  ghost predicate Identified(snapshot: map<string, SiteModel.Site>, sites: map<string, SiteModel.Site>,
                             ids: seq<string>, identified: seq<bool>,
                             caches: seq<map<string, GbExtract.GeoJson>>, cfg: TransformConfig)
  {
    && |identified| == |ids|
    && |caches| == |ids| + 1
    && forall j :: 0 <= j < |ids| ==>
         ids[j] in snapshot && ids[j] in sites &&
         VisitedAs(snapshot[ids[j]], sites[ids[j]], identified[j], caches[j], caches[j + 1], cfg)
  }

  /** Visiting `site` with the cache `before` answered `ok`, left `after`, and stored `row`. */
  ghost predicate VisitedAs(site: SiteModel.Site, row: SiteModel.Site, ok: bool,
                            before: map<string, GbExtract.GeoJson>, after: map<string, GbExtract.GeoJson>,
                            cfg: TransformConfig)
  {
    var features := GbExtract.LoadedFeatures(before, site.country, cfg.startLevel, cfg.boundaries);
    && after == GbExtract.FilesAfterLoad(before, site.country, cfg.startLevel, cfg.boundaries)
    && ok == (FirstContaining(features, site.latitude, site.longitude, cfg.within) < |features|)
    && row.adminArea == Some(ResolvedArea(features, site, cfg))
  }

  /** Visiting the next site of `ids` extends the record of answers by one. */
  lemma IdentifiedStep(snapshot: map<string, SiteModel.Site>, sites: map<string, SiteModel.Site>,
                       ids: seq<string>, i: nat, identified: seq<bool>,
                       caches: seq<map<string, GbExtract.GeoJson>>, cfg: TransformConfig,
                       ok: bool, area: string, files: map<string, GbExtract.GeoJson>)
    requires i < |ids| && |caches| == i + 1
    requires Identified(snapshot, sites, ids[..i], identified, caches, cfg)
    requires ids[i] in snapshot && ids[i] !in ids[..i]
    requires var site := snapshot[ids[i]];
      var features := GbExtract.LoadedFeatures(caches[i], site.country, cfg.startLevel, cfg.boundaries);
      && ok == (FirstContaining(features, site.latitude, site.longitude, cfg.within) < |features|)
      && area == ResolvedArea(features, site, cfg)
      && files == GbExtract.FilesAfterLoad(caches[i], site.country, cfg.startLevel, cfg.boundaries)
    ensures Identified(snapshot, sites[ids[i] := snapshot[ids[i]].(adminArea := Some(area))],
                       ids[..i + 1], identified + [ok], caches + [files], cfg)
  {
    var id := ids[i];
    var sites' := sites[id := snapshot[id].(adminArea := Some(area))];
    var ids', identified', caches' := ids[..i + 1], identified + [ok], caches + [files];
    forall j | 0 <= j < |ids'|
      ensures ids'[j] in snapshot && ids'[j] in sites' &&
              VisitedAs(snapshot[ids'[j]], sites'[ids'[j]], identified'[j], caches'[j], caches'[j + 1], cfg)
    {
      if j < i {
        assert ids'[j] == ids[..i][j] && ids'[j] != id;
        assert identified'[j] == identified[j] && caches'[j] == caches[j] && caches'[j + 1] == caches[j + 1];
      }
    }
  }

  /** A sweep changes admin areas only. */
  lemma SweptAdminOnly(snapshot: map<string, SiteModel.Site>, sites: map<string, SiteModel.Site>,
                       ids: seq<string>, identified: seq<bool>, sentinel: string)
    requires Swept(snapshot, sites, ids, identified, sentinel)
    ensures sites.Keys == snapshot.Keys
    ensures forall id :: id in snapshot ==> SiteModel.SameExceptAdmin(sites[id], snapshot[id])
  {
    forall id | id in snapshot && id in ids ensures SiteModel.SameExceptAdmin(sites[id], snapshot[id]) {
      var j :| 0 <= j < |ids| && ids[j] == id;
    }
  }

  /** Every id a sweep queues as unidentified holds the sentinel afterwards. */
  lemma UnidentifiedHoldSentinel(snapshot: map<string, SiteModel.Site>, sites: map<string, SiteModel.Site>,
                                 ids: seq<string>, identified: seq<bool>, sentinel: string)
    requires Swept(snapshot, sites, ids, identified, sentinel)
    ensures forall id :: id in Unidentified(ids, identified) ==> id in sites && sites[id].adminArea == Some(sentinel)
  {
    forall id | id in Unidentified(ids, identified) ensures id in sites && sites[id].adminArea == Some(sentinel) {
      UnidentifiedMembers(ids, identified, id);
      var j :| 0 <= j < |ids| && ids[j] == id && !identified[j];
    }
  }

  /** One step of the sweep: identify the site, and queue its id if that failed. */
  method VisitSite(site: SiteModel.Site, store: SiteModel.SiteStore, files: GbExtract.BoundaryFiles, dlq: Dlq.DeadLetterStore, cfg: TransformConfig)
    returns (ok: bool, ghost area: string)
    requires store.Valid() && dlq.Valid()
    modifies store, files, dlq.noAdmin
    ensures store.Valid()
    ensures store.sites == old(store.sites)[site.id := site.(adminArea := Some(area))]
    ensures var features := GbExtract.LoadedFeatures(old(files.files), site.country, cfg.startLevel, cfg.boundaries);
      && ok == (FirstContaining(features, site.latitude, site.longitude, cfg.within) < |features|)
      && area == ResolvedArea(features, site, cfg)
    ensures files.files == GbExtract.FilesAfterLoad(old(files.files), site.country, cfg.startLevel, cfg.boundaries)
    ensures !ok ==> area == cfg.noAdminArea
    ensures dlq.noAdmin.items == old(dlq.noAdmin.items) + (if ok then [] else [site.id])
    ensures dlq.urls.items == old(dlq.urls.items)
  {
    area := ResolvedArea(GbExtract.LoadedFeatures(files.files, site.country, cfg.startLevel, cfg.boundaries), site, cfg);
    ok := IdentifyAdminArea(site, store, files, cfg);
    if !ok {
      dlq.AddToNoAdminDlq(site.id);
    }
  }

  /**
   * `process_admin_areas`: visit every site whose admin area is None, once,
   * in the order the query returns them; send each one that could not be
   * identified to the no-admin queue. Sites that already hold an admin area
   * or the sentinel are not visited.
   */
  method ProcessAdminAreas(store: SiteModel.SiteStore, files: GbExtract.BoundaryFiles, dlq: Dlq.DeadLetterStore, cfg: TransformConfig)
    returns (visited: seq<string>, identified: seq<bool>, ghost caches: seq<map<string, GbExtract.GeoJson>>)
    requires store.Valid() && dlq.Valid()
    modifies store, files, dlq.noAdmin
    ensures store.Valid()
    ensures forall i, j :: 0 <= i < j < |visited| ==> visited[i] != visited[j]
    ensures forall id :: id in visited <==> id in old(store.sites) && old(store.sites)[id].adminArea.None?
    ensures |identified| == |visited|
    ensures dlq.noAdmin.items == old(dlq.noAdmin.items) + Unidentified(visited, identified)
    ensures dlq.urls.items == old(dlq.urls.items)
    ensures Swept(old(store.sites), store.sites, visited, identified, cfg.noAdminArea)
    ensures |caches| == |visited| + 1 && caches[0] == old(files.files) && files.files == caches[|visited|]
    ensures Identified(old(store.sites), store.sites, visited, identified, caches, cfg)
    ensures SiteModel.AllResolved(store.sites)
  {
    var snapshot := store.sites;
    visited := store.PendingSites();
    identified := [];
    caches := [files.files];
    for i := 0 to |visited|
      invariant forall id :: id in snapshot ==> snapshot[id].id == id
      invariant store.Valid()
      invariant Swept(snapshot, store.sites, visited[..i], identified, cfg.noAdminArea)
      invariant |caches| == i + 1 && caches[0] == old(files.files) && files.files == caches[i]
      invariant Identified(snapshot, store.sites, visited[..i], identified, caches, cfg)
      invariant dlq.noAdmin.items == old(dlq.noAdmin.items) + Unidentified(visited[..i], identified)
      invariant dlq.urls.items == old(dlq.urls.items)
    {
      var site := snapshot[visited[i]];
      assert visited[i] !in visited[..i];
      ghost var sites := store.sites;
      ghost var before := dlq.noAdmin.items;
      var ok, area := VisitSite(site, store, files, dlq, cfg);
      SweptStep(snapshot, sites, visited, i, identified, cfg.noAdminArea, ok, area);
      IdentifiedStep(snapshot, sites, visited, i, identified, caches, cfg, ok, area, files.files);
      UnidentifiedStep(old(dlq.noAdmin.items), before, dlq.noAdmin.items, visited, i, identified, ok);
      identified := identified + [ok];
      caches := caches + [files.files];
    }
    assert visited[..|visited|] == visited;
  }
}
