/**
 * The Site record (api/models/site.py) and the database table that holds it,
 * modelled as a map from primary key to record.
 */
module SiteModel {
  import opened Wrappers

  /**
   * One bike station. `id` is "{network_id}-{station_id}"; `adminArea` is
   * `None` until the transformer sets a shape id or the no-admin sentinel.
   * Coordinates are WGS84 degrees; the timestamp is kept as the source text.
   */
  datatype Site = Site(
    id: string,
    city: string,
    country: string,
    latitude: real,
    longitude: real,
    name: Option<string>,
    timestamp: Option<string>,
    used: int,
    available: int,
    adminArea: Option<string>)

  /** Two records agree on every column but admin_area. */
  predicate SameExceptAdmin(a: Site, b: Site)
  {
    a.(adminArea := None) == b.(adminArea := None)
  }

  /** The ids of a sequence of records. */
  function IdsOf(ups: seq<Site>): (ids: set<string>)
    ensures forall i :: 0 <= i < |ups| ==> ups[i].id in ids
    decreases |ups|
  {
    if ups == [] then {} else IdsOf(ups[..|ups| - 1]) + {ups[|ups| - 1].id}
  }

  /** The last record of `ups` with key `id`: the one a series of upserts leaves. */
  function LastWithId(ups: seq<Site>, id: string): (s: Site)
    requires id in IdsOf(ups)
    ensures s.id == id
    decreases |ups|
  {
    var n := |ups| - 1;
    if ups[n].id == id then ups[n] else LastWithId(ups[..n], id)
  }

  /**
   * `after` is `before` with the records of `ups` merged in order: the keys
   * of `ups` are added, every other row is untouched, and each upserted row
   * holds the columns of the last record merged under its key. Its
   * admin_area column is left open.
   */
  ghost predicate Upserted(before: map<string, Site>, after: map<string, Site>, ups: seq<Site>)
  {
    && after.Keys == before.Keys + IdsOf(ups)
    && (forall id :: id in before && id !in IdsOf(ups) ==> after[id] == before[id])
    && (forall id :: id in IdsOf(ups) ==> SameExceptAdmin(after[id], LastWithId(ups, id)))
  }

  lemma UpsertedNothing(m: map<string, Site>)
    ensures Upserted(m, m, [])
  {
  }

  /** One more merge extends a series of upserts. */
  lemma UpsertedSnoc(before: map<string, Site>, mid: map<string, Site>, after: map<string, Site>, ups: seq<Site>, s: Site)
    requires Upserted(before, mid, ups)
    requires after.Keys == mid.Keys + {s.id}
    requires forall id :: id in mid && id != s.id ==> after[id] == mid[id]
    requires SameExceptAdmin(after[s.id], s)
    ensures Upserted(before, after, ups + [s])
  {
    var ups' := ups + [s];
    assert ups'[..|ups|] == ups;
    assert IdsOf(ups') == IdsOf(ups) + {s.id};
    forall id | id in IdsOf(ups') ensures SameExceptAdmin(after[id], LastWithId(ups', id)) {
      if id != s.id {
        assert LastWithId(ups', id) == LastWithId(ups, id);
      }
    }
  }

  /** One more merge, of the next row of a series, extends the upserts of a prefix. */
  lemma UpsertedPrefixStep(before: map<string, Site>, mid: map<string, Site>, after: map<string, Site>, ups: seq<Site>, i: nat)
    requires i < |ups|
    requires Upserted(before, mid, ups[..i])
    requires after.Keys == mid.Keys + {ups[i].id}
    requires forall id :: id in mid && id != ups[i].id ==> after[id] == mid[id]
    requires SameExceptAdmin(after[ups[i].id], ups[i])
    ensures Upserted(before, after, ups[..i + 1])
  {
    assert ups[..i + 1] == ups[..i] + [ups[i]];
    UpsertedSnoc(before, mid, after, ups[..i], ups[i]);
  }

  lemma {:induction false} IdsOfAppend(u1: seq<Site>, u2: seq<Site>)
    ensures IdsOf(u1 + u2) == IdsOf(u1) + IdsOf(u2)
    decreases |u2|
  {
    if u2 == [] {
      assert u1 + u2 == u1;
    } else {
      var n := |u2| - 1;
      assert (u1 + u2)[..|u1 + u2| - 1] == u1 + u2[..n];
      IdsOfAppend(u1, u2[..n]);
    }
  }

  /** The last record under a key comes from the later series when it has one. */
  lemma {:induction false} LastWithIdAppend(u1: seq<Site>, u2: seq<Site>, id: string)
    requires id in IdsOf(u1 + u2)
    ensures id in IdsOf(u2) ==> LastWithId(u1 + u2, id) == LastWithId(u2, id)
    ensures id !in IdsOf(u2) ==> id in IdsOf(u1) && LastWithId(u1 + u2, id) == LastWithId(u1, id)
    decreases |u2|
  {
    IdsOfAppend(u1, u2);
    if u2 == [] {
      assert u1 + u2 == u1;
    } else {
      var n := |u2| - 1;
      var w := u1 + u2;
      assert w[|w| - 1] == u2[n];
      assert w[..|w| - 1] == u1 + u2[..n];
      if u2[n].id != id {
        IdsOfAppend(u1, u2[..n]);
        LastWithIdAppend(u1, u2[..n], id);
      }
    }
  }

  /** Two series of upserts, one after the other, are one series. */
  lemma UpsertedTrans(a: map<string, Site>, b: map<string, Site>, c: map<string, Site>, u1: seq<Site>, u2: seq<Site>)
    requires Upserted(a, b, u1)
    requires Upserted(b, c, u2)
    ensures Upserted(a, c, u1 + u2)
  {
    IdsOfAppend(u1, u2);
    forall id | id in IdsOf(u1 + u2) ensures SameExceptAdmin(c[id], LastWithId(u1 + u2, id)) {
      LastWithIdAppend(u1, u2, id);
    }
  }

  /**
   * `after` is `before` with the records of `ups` merged in order, and any
   * admin areas written since: as Upserted, but rows outside `ups` may also
   * differ in their admin_area column.
   */
  ghost predicate UpsertedUpToAdmin(before: map<string, Site>, after: map<string, Site>, ups: seq<Site>)
  {
    && after.Keys == before.Keys + IdsOf(ups)
    && (forall id :: id in before && id !in IdsOf(ups) ==> SameExceptAdmin(after[id], before[id]))
    && (forall id :: id in IdsOf(ups) ==> SameExceptAdmin(after[id], LastWithId(ups, id)))
  }

  lemma UpsertedNothingUpToAdmin(m: map<string, Site>)
    ensures UpsertedUpToAdmin(m, m, [])
  {
  }

  /** Writing admin areas only, after a series of upserts, keeps it a series of upserts up to admin areas. */
  lemma UpsertedThenAdmin(before: map<string, Site>, mid: map<string, Site>, after: map<string, Site>, ups: seq<Site>)
    requires Upserted(before, mid, ups)
    requires after.Keys == mid.Keys
    requires forall id :: id in mid ==> SameExceptAdmin(after[id], mid[id])
    ensures UpsertedUpToAdmin(before, after, ups)
  {
  }

  /** Two series of upserts up to admin areas, one after the other, are one series. */
  lemma UpsertedUpToAdminTrans(a: map<string, Site>, b: map<string, Site>, c: map<string, Site>, u1: seq<Site>, u2: seq<Site>)
    requires UpsertedUpToAdmin(a, b, u1)
    requires UpsertedUpToAdmin(b, c, u2)
    ensures UpsertedUpToAdmin(a, c, u1 + u2)
  {
    IdsOfAppend(u1, u2);
    forall id | id in IdsOf(u1 + u2) ensures SameExceptAdmin(c[id], LastWithId(u1 + u2, id)) {
      LastWithIdAppend(u1, u2, id);
    }
  }

  /** The table: rows by primary key. */
  class SiteStore {
    var sites: map<string, Site>

    /** Every row is stored under its own primary key. */
    ghost predicate Valid()
      reads this
    {
      forall id :: id in sites ==> sites[id].id == id
    }

    constructor (initial: map<string, Site>)
      requires forall id :: id in initial ==> initial[id].id == id
      ensures Valid() && sites == initial
    {
      sites := initial;
    }

    /**
     * `db.session.merge(site)` followed by a successful commit: insert the row,
     * or overwrite the row with the same key. The columns the new object sets
     * are written; what becomes of an existing admin_area, which the new
     * object never sets, is not specified.
     */
    method Merge(site: Site)
      requires Valid()
      modifies this
      ensures Valid()
      ensures sites.Keys == old(sites).Keys + {site.id}
      ensures SameExceptAdmin(sites[site.id], site)
      ensures forall id :: id in old(sites) && id != site.id ==> sites[id] == old(sites)[id]
    {
      var kept := if site.id in sites then sites[site.id].adminArea else site.adminArea;
      sites := sites[site.id := site.(adminArea := kept)];
    }

    /**
     * `Site.query.filter_by(admin_area=None).all()`: each site without an
     * admin area once, in an order the database chooses.
     */
    method PendingSites() returns (ids: seq<string>)
      ensures forall i, j :: 0 <= i < j < |ids| ==> ids[i] != ids[j]
      ensures forall id :: id in ids <==> id in sites && sites[id].adminArea.None?
    {
      var todo := set id | id in sites && sites[id].adminArea.None?;
      ids := [];
      while todo != {}
        invariant forall i, j :: 0 <= i < j < |ids| ==> ids[i] != ids[j]
        invariant forall id :: id in ids ==> id !in todo
        invariant forall id :: id in ids || id in todo <==> id in sites && sites[id].adminArea.None?
        decreases todo
      {
        var id :| id in todo;
        ids := ids + [id];
        todo := todo - {id};
      }
    }
  }

  /** Every row has an admin area, a shape id or the sentinel. */
  ghost predicate AllResolved(sites: map<string, Site>)
  {
    forall id :: id in sites ==> sites[id].adminArea.Some?
  }
}
