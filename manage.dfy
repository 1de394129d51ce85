/**
 * The `load_sites` command (api/manage.py): seed the network URLs, extract
 * them chunk by chunk with an admin-area pass after every chunk, retry the
 * dead-letter queue, and log what is left in both queues.
 *
 * Configuration values are fields of `PipelineConfig`; console output other
 * than the two queue reports is not modelled. `attempt(k)` is how the world
 * answers during pass `k`: pass 0 is the main pass, pass 1 the first retry.
 */
module Manage {
  import opened Wrappers
  import Dlq
  import EtlUtils
  import GbExtract
  import SiteModel
  import CbTransform
  import CbExtract

  /** CITY_BIKE_URI, SITE_CHUNK_SIZE, PROCESSING_RETRY_COUNT and the transformer's settings. */
  datatype PipelineConfig = PipelineConfig(
    cityBikeUri: string,
    chunkSize: int,
    retryCount: int,
    transform: CbTransform.TransformConfig)

  /**
   * What one run reports: the URLs drained from the dead-letter queue after
   * the main pass, whether "DLQ cleared!" was echoed, the unprocessed-URL
   * report if it was written, the site ids queued as unidentified, and the
   * no-admin report.
   */
  datatype LoadReport = LoadReport(
    retried: seq<string>,
    cleared: bool,
    unprocessedLog: Option<string>,
    unidentified: seq<string>,
    noAdminLog: string)

  /**
   * What one turn of the chunk loop did: the chunk of URLs and the world it
   * was fetched from, the table after the chunk's upserts (`merged`) and
   * after the admin-area sweep (`swept`), the sites the sweep visited with
   * their answers, the ids it queued as unidentified, and the boundary
   * caches it went through, one per visit and the last after them.
   */
  datatype Turn = Turn(
    chunk: seq<string>,
    env: CbExtract.ExtractEnv,
    merged: map<string, SiteModel.Site>,
    swept: map<string, SiteModel.Site>,
    visited: seq<string>,
    identified: seq<bool>,
    queued: seq<string>,
    caches: seq<map<string, GbExtract.GeoJson>>)

  /**
   * `t` started from the table `sites` and the cache `files`: the chunk's
   * rows were merged in order, the sweep visited each site then lacking an
   * admin area once, identified each through the boundary data and the
   * containment test of `tcfg`, wrote the resulting area or the sentinel,
   * and queued exactly the sites it failed on.
   */
  ghost predicate TurnFrom(t: Turn, sites: map<string, SiteModel.Site>, files: map<string, GbExtract.GeoJson>,
                           tcfg: CbTransform.TransformConfig)
  {
    && SiteModel.Upserted(sites, t.merged, CbExtract.AllUpserts(t.chunk, t.env))
    && (forall i, j :: 0 <= i < j < |t.visited| ==> t.visited[i] != t.visited[j])
    && (forall id :: id in t.visited <==> id in t.merged && t.merged[id].adminArea.None?)
    && CbTransform.Swept(t.merged, t.swept, t.visited, t.identified, tcfg.noAdminArea)
    && CbTransform.Identified(t.merged, t.swept, t.visited, t.identified, t.caches, tcfg)
    && t.caches[0] == files
    && t.queued == CbTransform.Unidentified(t.visited, t.identified)
  }

  /** The boundary cache a turn left. */
  ghost function CacheAfter(t: Turn): map<string, GbExtract.GeoJson>
  {
    if |t.caches| == 0 then map[] else t.caches[|t.caches| - 1]
  }

  /** The table before turn `i`, or after the last turn when `i == |turns|`. */
  ghost function TableAt(turns: seq<Turn>, i: nat, sites0: map<string, SiteModel.Site>): map<string, SiteModel.Site>
    requires i <= |turns|
  {
    if i == 0 then sites0 else turns[i - 1].swept
  }

  /** The boundary cache before turn `i`, or after the last turn when `i == |turns|`. */
  ghost function CacheAt(turns: seq<Turn>, i: nat, files0: map<string, GbExtract.GeoJson>): map<string, GbExtract.GeoJson>
    requires i <= |turns|
  {
    if i == 0 then files0 else CacheAfter(turns[i - 1])
  }

  /** A test of one turn against the table and the cache it started from. */
  type TurnTest = (Turn, map<string, SiteModel.Site>, map<string, GbExtract.GeoJson>) -> bool

  /** Each turn of `turns` passes `test` from the table and the cache the turn before it left. */
  ghost predicate Linked(turns: seq<Turn>, sites0: map<string, SiteModel.Site>, files0: map<string, GbExtract.GeoJson>,
                         test: TurnTest)
  {
    forall i {:trigger test(turns[i], TableAt(turns, i, sites0), CacheAt(turns, i, files0))} ::
      0 <= i < |turns| ==> test(turns[i], TableAt(turns, i, sites0), CacheAt(turns, i, files0))
  }

  /** `TurnFrom` under the transformer settings `tcfg`. */
  ghost function TurnUnder(tcfg: CbTransform.TransformConfig): TurnTest
  {
    (t, sites, files) => TurnFrom(t, sites, files, tcfg)
  }

  /**
   * Each turn started from the table and the cache the turn before it left,
   * and did what `TurnFrom` says.
   */
  ghost predicate Turns(turns: seq<Turn>, sites0: map<string, SiteModel.Site>, files0: map<string, GbExtract.GeoJson>,
                        tcfg: CbTransform.TransformConfig)
  {
    Linked(turns, sites0, files0, TurnUnder(tcfg))
  }

  /** The chunks of a series of turns. */
  ghost function ChunksOf(turns: seq<Turn>): (cs: seq<seq<string>>)
    ensures |cs| == |turns|
    decreases |turns|
  {
    if |turns| == 0 then [] else ChunksOf(turns[..|turns| - 1]) + [turns[|turns| - 1].chunk]
  }

  /** The ids a series of turns queued as unidentified, in order. */
  ghost function QueuedOf(turns: seq<Turn>): seq<string>
    decreases |turns|
  {
    if |turns| == 0 then [] else QueuedOf(turns[..|turns| - 1]) + turns[|turns| - 1].queued
  }

  /** The turns of one pass over `urls`: one per chunk, in order, all in the world `env`. */
  ghost predicate PassTurns(turns: seq<Turn>, urls: seq<string>, chunkSize: int, env: CbExtract.ExtractEnv)
  {
    && chunkSize >= 1
    && ChunksOf(turns) == EtlUtils.Chunks(urls, chunkSize)
    && (forall i :: 0 <= i < |turns| ==> turns[i].env == env)
  }

  /**
   * `turns` is a linked series from `sites0` and `files0` that left the
   * table `sites` and the cache `files`, and queued `queued`.
   */
  ghost predicate Traced(turns: seq<Turn>, sites0: map<string, SiteModel.Site>, files0: map<string, GbExtract.GeoJson>,
                         tcfg: CbTransform.TransformConfig, sites: map<string, SiteModel.Site>,
                         files: map<string, GbExtract.GeoJson>, queued: seq<string>)
  {
    && Turns(turns, sites0, files0, tcfg)
    && sites == TableAt(turns, |turns|, sites0)
    && files == CacheAt(turns, |turns|, files0)
    && queued == QueuedOf(turns)
  }

  /** One more turn, from where the others left off, extends the series. */
  lemma LinkedSnoc(turns: seq<Turn>, t: Turn, sites0: map<string, SiteModel.Site>,
                   files0: map<string, GbExtract.GeoJson>, test: TurnTest)
    requires Linked(turns, sites0, files0, test)
    requires test(t, TableAt(turns, |turns|, sites0), CacheAt(turns, |turns|, files0))
    ensures Linked(turns + [t], sites0, files0, test)
  {
    var all := turns + [t];
    forall i {:trigger test(all[i], TableAt(all, i, sites0), CacheAt(all, i, files0))} | 0 <= i < |all|
      ensures test(all[i], TableAt(all, i, sites0), CacheAt(all, i, files0))
    {
      if i < |turns| {
        assert all[i] == turns[i];
        assert TableAt(all, i, sites0) == TableAt(turns, i, sites0);
        assert CacheAt(all, i, files0) == CacheAt(turns, i, files0);
        assert test(turns[i], TableAt(turns, i, sites0), CacheAt(turns, i, files0));
      } else {
        assert i == |turns| && all[i] == t;
        assert TableAt(all, i, sites0) == TableAt(turns, |turns|, sites0);
        assert CacheAt(all, i, files0) == CacheAt(turns, |turns|, files0);
      }
    }
  }

  /** One more turn that did what `TurnFrom` says, from where the others left off, extends the series. */
  lemma TurnsSnoc(turns: seq<Turn>, t: Turn, sites0: map<string, SiteModel.Site>,
                  files0: map<string, GbExtract.GeoJson>, tcfg: CbTransform.TransformConfig)
    requires Turns(turns, sites0, files0, tcfg)
    requires TurnFrom(t, TableAt(turns, |turns|, sites0), CacheAt(turns, |turns|, files0), tcfg)
    ensures Turns(turns + [t], sites0, files0, tcfg)
    ensures TableAt(turns + [t], |turns + [t]|, sites0) == t.swept
    ensures CacheAt(turns + [t], |turns + [t]|, files0) == CacheAfter(t)
    ensures QueuedOf(turns + [t]) == QueuedOf(turns) + t.queued
    ensures ChunksOf(turns + [t]) == ChunksOf(turns) + [t.chunk]
  {
    LinkedSnoc(turns, t, sites0, files0, TurnUnder(tcfg));
    SnocAt(turns, t, sites0, files0);
  }

  /** After one more turn, the table, the cache, the queued ids and the chunks are the ones it left or added. */
  lemma SnocAt(turns: seq<Turn>, t: Turn, sites0: map<string, SiteModel.Site>, files0: map<string, GbExtract.GeoJson>)
    ensures TableAt(turns + [t], |turns + [t]|, sites0) == t.swept
    ensures CacheAt(turns + [t], |turns + [t]|, files0) == CacheAfter(t)
    ensures QueuedOf(turns + [t]) == QueuedOf(turns) + t.queued
    ensures ChunksOf(turns + [t]) == ChunksOf(turns) + [t.chunk]
  {
    assert (turns + [t])[..|turns|] == turns;
  }

  /** Two series of turns, the second from where the first left off, are one series. */
  lemma LinkedAppend(t1: seq<Turn>, t2: seq<Turn>, sites0: map<string, SiteModel.Site>,
                     files0: map<string, GbExtract.GeoJson>, test: TurnTest)
    requires Linked(t1, sites0, files0, test)
    requires Linked(t2, TableAt(t1, |t1|, sites0), CacheAt(t1, |t1|, files0), test)
    ensures Linked(t1 + t2, sites0, files0, test)
    ensures TableAt(t1 + t2, |t1 + t2|, sites0) == TableAt(t2, |t2|, TableAt(t1, |t1|, sites0))
    ensures CacheAt(t1 + t2, |t1 + t2|, files0) == CacheAt(t2, |t2|, CacheAt(t1, |t1|, files0))
  {
    var all := t1 + t2;
    var sites1, files1 := TableAt(t1, |t1|, sites0), CacheAt(t1, |t1|, files0);
    forall i {:trigger test(all[i], TableAt(all, i, sites0), CacheAt(all, i, files0))} | 0 <= i < |all|
      ensures test(all[i], TableAt(all, i, sites0), CacheAt(all, i, files0))
    {
      if i < |t1| {
        assert all[i] == t1[i];
        assert TableAt(all, i, sites0) == TableAt(t1, i, sites0);
        assert CacheAt(all, i, files0) == CacheAt(t1, i, files0);
        assert test(t1[i], TableAt(t1, i, sites0), CacheAt(t1, i, files0));
      } else {
        var k := i - |t1|;
        assert all[i] == t2[k];
        assert TableAt(all, i, sites0) == TableAt(t2, k, sites1);
        assert CacheAt(all, i, files0) == CacheAt(t2, k, files1);
        assert test(t2[k], TableAt(t2, k, sites1), CacheAt(t2, k, files1));
      }
    }
  }

  /** Two series of turns, the second from where the first left off, are one series. */
  lemma TurnsAppend(t1: seq<Turn>, t2: seq<Turn>, sites0: map<string, SiteModel.Site>,
                    files0: map<string, GbExtract.GeoJson>, tcfg: CbTransform.TransformConfig)
    requires Turns(t1, sites0, files0, tcfg)
    requires Turns(t2, TableAt(t1, |t1|, sites0), CacheAt(t1, |t1|, files0), tcfg)
    ensures Turns(t1 + t2, sites0, files0, tcfg)
    ensures TableAt(t1 + t2, |t1 + t2|, sites0) == TableAt(t2, |t2|, TableAt(t1, |t1|, sites0))
    ensures CacheAt(t1 + t2, |t1 + t2|, files0) == CacheAt(t2, |t2|, CacheAt(t1, |t1|, files0))
    ensures QueuedOf(t1 + t2) == QueuedOf(t1) + QueuedOf(t2)
  {
    LinkedAppend(t1, t2, sites0, files0, TurnUnder(tcfg));
    QueuedOfAppend(t1, t2);
  }

  lemma {:induction false} QueuedOfAppend(t1: seq<Turn>, t2: seq<Turn>)
    ensures QueuedOf(t1 + t2) == QueuedOf(t1) + QueuedOf(t2)
    decreases |t2|
  {
    if |t2| == 0 {
      assert t1 + t2 == t1;
    } else {
      var n := |t2| - 1;
      assert (t1 + t2)[..|t1 + t2| - 1] == t1 + t2[..n];
      QueuedOfAppend(t1, t2[..n]);
    }
  }

  /** Every id a series of turns queued was queued by one of them. */
  lemma {:induction false} QueuedOfWitness(turns: seq<Turn>, id: string) returns (i: nat)
    requires id in QueuedOf(turns)
    ensures i < |turns| && id in turns[i].queued
    decreases |turns|
  {
    var n := |turns| - 1;
    if id in turns[n].queued {
      i := n;
    } else {
      i := QueuedOfWitness(turns[..n], id);
    }
  }

  /** Every id a turn queued is among those of the series. */
  lemma {:induction false} QueuedOfHas(turns: seq<Turn>, i: nat, id: string)
    requires i < |turns| && id in turns[i].queued
    ensures id in QueuedOf(turns)
    decreases |turns|
  {
    var n := |turns| - 1;
    if i < n {
      assert turns[..n][i] == turns[i];
      QueuedOfHas(turns[..n], i, id);
    }
  }

  /** Every id a series of turns queued failed its visit in one of them, where it held the sentinel afterwards. */
  lemma QueuedFailedInItsTurn(turns: seq<Turn>, sites0: map<string, SiteModel.Site>,
                              files0: map<string, GbExtract.GeoJson>,
                              tcfg: CbTransform.TransformConfig, id: string)
    returns (i: nat, j: nat)
    requires Turns(turns, sites0, files0, tcfg)
    requires id in QueuedOf(turns)
    ensures i < |turns| && j < |turns[i].visited| == |turns[i].identified|
    ensures turns[i].visited[j] == id && !turns[i].identified[j]
    ensures id in turns[i].merged && turns[i].merged[id].adminArea.None?
    ensures id in turns[i].swept && turns[i].swept[id].adminArea == Some(tcfg.noAdminArea)
  {
    i := QueuedOfWitness(turns, id);
    var t := turns[i];
    assert TurnUnder(tcfg)(t, TableAt(turns, i, sites0), CacheAt(turns, i, files0));
    j := CbTransform.UnidentifiedWitness(t.visited, t.identified, id);
  }

  /** Every visit that failed, in any turn, queued its site. */
  lemma FailedVisitQueued(turns: seq<Turn>, sites0: map<string, SiteModel.Site>,
                          files0: map<string, GbExtract.GeoJson>,
                          tcfg: CbTransform.TransformConfig, i: nat, j: nat)
    requires Turns(turns, sites0, files0, tcfg)
    requires i < |turns| && j < |turns[i].visited| && j < |turns[i].identified| && !turns[i].identified[j]
    ensures turns[i].visited[j] in QueuedOf(turns)
  {
    var t := turns[i];
    assert TurnUnder(tcfg)(t, TableAt(turns, i, sites0), CacheAt(turns, i, files0));
    CbTransform.UnidentifiedHas(t.visited, t.identified, j);
    QueuedOfHas(turns, i, t.visited[j]);
  }

  /**
   * One turn of the chunk loop: `process_chunk`, and `process_admin_areas`
   * when it answered true; `turn` records what the turn did.
   */
  method ChunkAndResolve(g: EtlUtils.Cursor<string>, chunkSize: int, store: SiteModel.SiteStore,
                         files: GbExtract.BoundaryFiles, dlq: Dlq.DeadLetterStore,
                         env: CbExtract.ExtractEnv, tcfg: CbTransform.TransformConfig)
    returns (more: bool, unidentified: seq<string>, ghost turn: Turn)
    requires chunkSize >= 1 && store.Valid() && dlq.Valid()
    modifies g, store, files, dlq.urls, dlq.noAdmin
    ensures store.Valid()
    ensures more == (old(g.rest) != [])
    ensures !more ==>
      && g.rest == [] && store.sites == old(store.sites) && files.files == old(files.files)
      && dlq.urls.items == old(dlq.urls.items) && unidentified == []
    ensures more ==>
      var c := EtlUtils.FirstChunk(old(g.rest), chunkSize);
      && g.rest == old(g.rest)[|c|..] && old(g.rest) == c + g.rest
      && dlq.urls.items == old(dlq.urls.items) + CbExtract.DlqEntries(c, env)
      && TurnFrom(turn, old(store.sites), old(files.files), tcfg)
      && turn.chunk == c && turn.env == env
      && turn.swept == store.sites && CacheAfter(turn) == files.files
      && unidentified == turn.queued
      && SiteModel.UpsertedUpToAdmin(old(store.sites), store.sites, CbExtract.AllUpserts(c, env))
      && SiteModel.AllResolved(store.sites)
    ensures forall id :: id in unidentified ==> id in store.sites && store.sites[id].adminArea == Some(tcfg.noAdminArea)
    ensures dlq.noAdmin.items == old(dlq.noAdmin.items) + unidentified
  {
    turn := Turn([], env, store.sites, store.sites, [], [], [], [files.files]);
    ghost var sites := store.sites;
    more := CbExtract.ProcessChunk(g, chunkSize, store, dlq, env);
    if !more {
      return more, [], turn;
    }
    ghost var c := EtlUtils.FirstChunk(old(g.rest), chunkSize);
    assert old(g.rest) == c + g.rest;
    unidentified, turn := SweepTurn(store, files, dlq, tcfg, sites, c, env);
  }

  /**
   * The second half of a turn: `process_admin_areas` after a chunk `c`
   * whose rows, merged in the world `env`, took the table from `sites` to
   * the current one. `turn` records the whole turn.
   */
  method SweepTurn(store: SiteModel.SiteStore, files: GbExtract.BoundaryFiles, dlq: Dlq.DeadLetterStore,
                   tcfg: CbTransform.TransformConfig, ghost sites: map<string, SiteModel.Site>,
                   ghost c: seq<string>, ghost env: CbExtract.ExtractEnv)
    returns (unidentified: seq<string>, ghost turn: Turn)
    requires store.Valid() && dlq.Valid()
    requires SiteModel.Upserted(sites, store.sites, CbExtract.AllUpserts(c, env))
    modifies store, files, dlq.noAdmin
    ensures store.Valid()
    ensures dlq.urls.items == old(dlq.urls.items)
    ensures TurnFrom(turn, sites, old(files.files), tcfg)
    ensures turn.chunk == c && turn.env == env
    ensures turn.swept == store.sites && CacheAfter(turn) == files.files
    ensures unidentified == turn.queued
    ensures SiteModel.UpsertedUpToAdmin(sites, store.sites, CbExtract.AllUpserts(c, env))
    ensures SiteModel.AllResolved(store.sites)
    ensures forall id :: id in unidentified ==> id in store.sites && store.sites[id].adminArea == Some(tcfg.noAdminArea)
    ensures dlq.noAdmin.items == old(dlq.noAdmin.items) + unidentified
  {
    ghost var merged := store.sites;
    var visited: seq<string>, identified: seq<bool>;
    ghost var caches: seq<map<string, GbExtract.GeoJson>>;
    visited, identified, caches := CbTransform.ProcessAdminAreas(store, files, dlq, tcfg);
    unidentified := CbTransform.Unidentified(visited, identified);
    CbTransform.SweptAdminOnly(merged, store.sites, visited, identified, tcfg.noAdminArea);
    SiteModel.UpsertedThenAdmin(sites, merged, store.sites, CbExtract.AllUpserts(c, env));
    CbTransform.UnidentifiedHoldSentinel(merged, store.sites, visited, identified, tcfg.noAdminArea);
    turn := Turn(c, env, merged, store.sites, visited, identified, unidentified, caches);
  }

  /**
   * `while process_chunk(g, ...): process_admin_areas()`: run chunks until
   * the URLs are exhausted, resolving admin areas after each chunk. There is
   * one turn, and so one admin-area sweep, per chunk, each from where the
   * one before left the table and the boundary cache; the ids queued as
   * unidentified are those the sweeps failed on, in order. The URL queue
   * grows by every URL's entries and the table ends holding every URL's
   * rows, merged in order.
   */
  method RunPass(g: EtlUtils.Cursor<string>, chunkSize: int, store: SiteModel.SiteStore,
                 files: GbExtract.BoundaryFiles, dlq: Dlq.DeadLetterStore,
                 env: CbExtract.ExtractEnv, tcfg: CbTransform.TransformConfig)
    returns (chunks: nat, unidentified: seq<string>, ghost turns: seq<Turn>)
    requires chunkSize >= 1 && store.Valid() && dlq.Valid()
    modifies g, store, files, dlq.urls, dlq.noAdmin
    ensures store.Valid()
    ensures g.rest == []
    ensures chunks == |turns| == |EtlUtils.Chunks(old(g.rest), chunkSize)|
    ensures PassTurns(turns, old(g.rest), chunkSize, env)
    ensures Turns(turns, old(store.sites), old(files.files), tcfg)
    ensures store.sites == TableAt(turns, |turns|, old(store.sites))
    ensures files.files == CacheAt(turns, |turns|, old(files.files))
    ensures unidentified == QueuedOf(turns)
    ensures dlq.urls.items == old(dlq.urls.items) + CbExtract.DlqEntries(old(g.rest), env)
    ensures SiteModel.UpsertedUpToAdmin(old(store.sites), store.sites, CbExtract.AllUpserts(old(g.rest), env))
    ensures forall id :: id in unidentified ==> id in store.sites
    ensures dlq.noAdmin.items == old(dlq.noAdmin.items) + unidentified
    ensures chunks > 0 ==> SiteModel.AllResolved(store.sites)
  {
    chunks := 0;
    unidentified := [];
    turns := [];
    ghost var consumed: seq<string> := [];
    assert consumed + g.rest == old(g.rest);
    while true
      invariant store.Valid()
      invariant chunks == |turns|
      invariant ChunksOf(turns) + EtlUtils.Chunks(g.rest, chunkSize) == EtlUtils.Chunks(old(g.rest), chunkSize)
      invariant forall i :: 0 <= i < |turns| ==> turns[i].env == env
      invariant Turns(turns, old(store.sites), old(files.files), tcfg)
      invariant store.sites == TableAt(turns, |turns|, old(store.sites))
      invariant files.files == CacheAt(turns, |turns|, old(files.files))
      invariant unidentified == QueuedOf(turns)
      invariant dlq.urls.items + CbExtract.DlqEntries(g.rest, env)
             == old(dlq.urls.items) + CbExtract.DlqEntries(old(g.rest), env)
      invariant consumed + g.rest == old(g.rest)
      invariant SiteModel.UpsertedUpToAdmin(old(store.sites), store.sites, CbExtract.AllUpserts(consumed, env))
      invariant forall id :: id in unidentified ==> id in store.sites
      invariant dlq.noAdmin.items == old(dlq.noAdmin.items) + unidentified
      invariant chunks > 0 ==> SiteModel.AllResolved(store.sites)
      decreases |g.rest|
    {
      ghost var before := g.rest;
      ghost var queued := dlq.urls.items;
      ghost var sites := store.sites;
      var more, found, turn := ChunkAndResolve(g, chunkSize, store, files, dlq, env, tcfg);
      if !more {
        assert consumed == old(g.rest);
        ChunksDone(ChunksOf(turns), g.rest, chunkSize, EtlUtils.Chunks(old(g.rest), chunkSize));
        break;
      }
      ghost var c := EtlUtils.FirstChunk(before, chunkSize);
      TurnsSnoc(turns, turn, old(store.sites), old(files.files), tcfg);
      EnvSnoc(turns, turn, env);
      ChunksStep(ChunksOf(turns), before, g.rest, chunkSize, EtlUtils.Chunks(old(g.rest), chunkSize));
      PassStep(dlq.urls.items, queued, c, g.rest, before, env);
      RowsStep(old(store.sites), sites, store.sites, consumed, c, env);
      AppendedAfter(consumed, c, g.rest, consumed + c + g.rest);
      AppendedAfter(old(dlq.noAdmin.items), unidentified, found, dlq.noAdmin.items);
      consumed := consumed + c;
      unidentified := unidentified + found;
      turns := turns + [turn];
      chunks := chunks + 1;
    }
  }

  /** One more turn in the same world keeps the turns in that world (a step of RunPass's invariant). */
  lemma EnvSnoc(turns: seq<Turn>, t: Turn, env: CbExtract.ExtractEnv)
    requires forall i :: 0 <= i < |turns| ==> turns[i].env == env
    requires t.env == env
    ensures forall i :: 0 <= i < |turns + [t]| ==> (turns + [t])[i].env == env
  {
  }

  /** Pulling one chunk moves it from the chunks still to come to those taken (a step of RunPass's invariant). */
  lemma ChunksStep(taken: seq<seq<string>>, before: seq<string>, rest: seq<string>, n: nat, all: seq<seq<string>>)
    requires n >= 1 && before != []
    requires rest == before[|EtlUtils.FirstChunk(before, n)|..]
    requires taken + EtlUtils.Chunks(before, n) == all
    ensures (taken + [EtlUtils.FirstChunk(before, n)]) + EtlUtils.Chunks(rest, n) == all
  {
    assert EtlUtils.Chunks(before, n) == [EtlUtils.FirstChunk(before, n)] + EtlUtils.Chunks(rest, n);
  }

  /** With nothing left to pull, the chunks taken are all the chunks. */
  lemma ChunksDone(taken: seq<seq<string>>, rest: seq<string>, n: nat, all: seq<seq<string>>)
    requires n >= 1 && rest == []
    requires taken + EtlUtils.Chunks(rest, n) == all
    ensures taken == all
  {
    assert taken + [] == taken;
  }

  /** Handling one chunk adds its rows to those of the URLs handled before it (a step of RunPass's invariant). */
  lemma RowsStep(sites0: map<string, SiteModel.Site>, mid: map<string, SiteModel.Site>, now: map<string, SiteModel.Site>,
                 consumed: seq<string>, c: seq<string>, env: CbExtract.ExtractEnv)
    requires SiteModel.UpsertedUpToAdmin(sites0, mid, CbExtract.AllUpserts(consumed, env))
    requires SiteModel.UpsertedUpToAdmin(mid, now, CbExtract.AllUpserts(c, env))
    ensures SiteModel.UpsertedUpToAdmin(sites0, now, CbExtract.AllUpserts(consumed + c, env))
  {
    CbExtract.AllUpsertsAppend(consumed, c, env);
    SiteModel.UpsertedUpToAdminTrans(sites0, mid, now, CbExtract.AllUpserts(consumed, env), CbExtract.AllUpserts(c, env));
  }

  /** Handling one chunk moves its dead-letter entries from the remaining work to the queue (a step of RunPass's invariant). */
  lemma PassStep(now: seq<string>, queued: seq<string>, c: seq<string>, rest: seq<string>,
                 before: seq<string>, env: CbExtract.ExtractEnv)
    requires now == queued + CbExtract.DlqEntries(c, env)
    requires before == c + rest
    ensures now + CbExtract.DlqEntries(rest, env) == queued + CbExtract.DlqEntries(before, env)
  {
    CbExtract.DlqEntriesAppend(c, rest, env);
    AppendedAfter(queued, CbExtract.DlqEntries(c, env), CbExtract.DlqEntries(rest, env),
                  now + CbExtract.DlqEntries(rest, env));
  }

  /**
   * `load_sites` as written. A failed seed request stops the command before
   * anything changes. Otherwise: the main pass, then the dead-letter queue is
   * drained into `retried`. With a retry count of 1 or more the first retry
   * runs over `retried`, its `while ... else` always echoes "DLQ cleared!"
   * and breaks out of the retry loop, so the unprocessed-URL report is never
   * written and whatever failed again stays queued. With a retry count of 0
   * the report is written, but from the queue already drained: it lists no
   * URL at all.
   */
  method LoadSites(cfg: PipelineConfig, seed: CbExtract.SeedFetch, store: SiteModel.SiteStore,
                   files: GbExtract.BoundaryFiles, dlq: Dlq.DeadLetterStore,
                   attempt: nat -> CbExtract.ExtractEnv)
    returns (r: Result<LoadReport, CbExtract.SeedError>, ghost main: seq<Turn>, ghost retry: seq<Turn>)
    requires cfg.chunkSize >= 1 && store.Valid() && dlq.Valid()
    modifies store, files, dlq.urls, dlq.noAdmin
    ensures store.Valid()
    ensures r.Ok? <==> CbExtract.LoadMasterSiteUrls(cfg.cityBikeUri, seed).Ok?
    ensures r.Err? ==>
      && r.error == CbExtract.LoadMasterSiteUrls(cfg.cityBikeUri, seed).error
      && store.sites == old(store.sites) && files.files == old(files.files)
      && dlq.urls.items == old(dlq.urls.items) && dlq.noAdmin.items == old(dlq.noAdmin.items)
    ensures r.Ok? ==>
      var urls := CbExtract.LoadMasterSiteUrls(cfg.cityBikeUri, seed).value;
      && PassTurns(main, urls, cfg.chunkSize, attempt(0))
      && Turns(main, old(store.sites), old(files.files), cfg.transform)
      && (cfg.retryCount >= 1 ==> PassTurns(retry, r.value.retried, cfg.chunkSize, attempt(1)))
      && (cfg.retryCount <= 0 ==> |retry| == 0)
      && Turns(retry, TableAt(main, |main|, old(store.sites)), CacheAt(main, |main|, old(files.files)), cfg.transform)
      && store.sites == TableAt(retry, |retry|, TableAt(main, |main|, old(store.sites)))
      && files.files == CacheAt(retry, |retry|, CacheAt(main, |main|, old(files.files)))
      && r.value.unidentified == QueuedOf(main) + QueuedOf(retry)
    ensures r.Ok? ==>
      var urls := CbExtract.LoadMasterSiteUrls(cfg.cityBikeUri, seed).value;
      && r.value.retried == old(dlq.urls.items) + CbExtract.DlqEntries(urls, attempt(0))
      && (cfg.retryCount <= 0 ==>
            && !r.value.cleared
            && r.value.unprocessedLog == Some(Dlq.UnprocessedHeader)
            && dlq.urls.items == [])
      && (cfg.retryCount >= 1 ==>
            && r.value.cleared
            && r.value.unprocessedLog == None
            && dlq.urls.items == CbExtract.DlqEntries(r.value.retried, attempt(1)))
      && SiteModel.UpsertedUpToAdmin(old(store.sites), store.sites,
           CbExtract.AllUpserts(urls, attempt(0))
           + (if cfg.retryCount >= 1 then CbExtract.AllUpserts(r.value.retried, attempt(1)) else []))
      && (forall id :: id in r.value.unidentified ==> id in store.sites)
      && r.value.noAdminLog == Dlq.NoAdminHeader + Dlq.JoinLines(old(dlq.noAdmin.items) + r.value.unidentified)
      && dlq.noAdmin.items == []
  {
    main, retry := [], [];
    var seeded := CbExtract.LoadMasterSiteUrls(cfg.cityBikeUri, seed);
    if seeded.Err? {
      return Err(seeded.error), main, retry;
    }
    var unidentified;
    unidentified, main := PassOver(seeded.value, cfg, store, files, dlq, attempt(0));
    ghost var mid := store.sites;
    var retryUrls := Dlq.UnloadDlq(dlq.urls);
    var cleared, unprocessed, more;
    ghost var passes;
    cleared, unprocessed, more, passes, retry := RetryAsWritten(retryUrls, cfg, store, files, dlq, attempt);
    if cleared {
      SiteModel.UpsertedUpToAdminTrans(old(store.sites), mid, store.sites,
        CbExtract.AllUpserts(seeded.value, attempt(0)), CbExtract.AllUpserts(retryUrls, attempt(1)));
    } else {
      assert CbExtract.AllUpserts(seeded.value, attempt(0)) + [] == CbExtract.AllUpserts(seeded.value, attempt(0));
    }
    AppendedAfter(old(dlq.noAdmin.items), unidentified, more, dlq.noAdmin.items);
    unidentified := unidentified + more;
    var noAdminLog := dlq.LogNoAdminDlq();
    return Ok(LoadReport(retryUrls, cleared, unprocessed, unidentified, noAdminLog)), main, retry;
  }

  /** One pass of `load_sites`: a generator over `urls`, processed chunk by chunk until it is exhausted. */
  method PassOver(urls: seq<string>, cfg: PipelineConfig, store: SiteModel.SiteStore,
                  files: GbExtract.BoundaryFiles, dlq: Dlq.DeadLetterStore, env: CbExtract.ExtractEnv)
    returns (unidentified: seq<string>, ghost turns: seq<Turn>)
    requires cfg.chunkSize >= 1 && store.Valid() && dlq.Valid()
    modifies store, files, dlq.urls, dlq.noAdmin
    ensures store.Valid()
    ensures PassTurns(turns, urls, cfg.chunkSize, env)
    ensures Turns(turns, old(store.sites), old(files.files), cfg.transform)
    ensures store.sites == TableAt(turns, |turns|, old(store.sites))
    ensures files.files == CacheAt(turns, |turns|, old(files.files))
    ensures unidentified == QueuedOf(turns)
    ensures dlq.urls.items == old(dlq.urls.items) + CbExtract.DlqEntries(urls, env)
    ensures SiteModel.UpsertedUpToAdmin(old(store.sites), store.sites, CbExtract.AllUpserts(urls, env))
    ensures forall id :: id in unidentified ==> id in store.sites
    ensures dlq.noAdmin.items == old(dlq.noAdmin.items) + unidentified
  {
    var master := new EtlUtils.Cursor(urls);
    var chunks;
    chunks, unidentified, turns := RunPass(master, cfg.chunkSize, store, files, dlq, env, cfg.transform);
  }

  /**
   * The retry loop of `load_sites` as written: `for ... else` around
   * `while ... else`, over one generator of the URLs drained from the
   * dead-letter queue. The inner loop has no `break`, so its `else` always
   * runs, echoes "DLQ cleared!" and breaks the outer loop: there is at most
   * one pass, and the outer `else`, which writes the unprocessed-URL report,
   * runs only when there is no retry at all; `passes` counts the retry
   * passes.
   */
  method RetryAsWritten(retryUrls: seq<string>, cfg: PipelineConfig, store: SiteModel.SiteStore,
                        files: GbExtract.BoundaryFiles, dlq: Dlq.DeadLetterStore,
                        attempt: nat -> CbExtract.ExtractEnv)
    returns (cleared: bool, unprocessed: Option<string>, unidentified: seq<string>, ghost passes: nat,
             ghost turns: seq<Turn>)
    requires cfg.chunkSize >= 1 && store.Valid() && dlq.Valid()
    requires dlq.urls.items == []
    modifies store, files, dlq.urls, dlq.noAdmin
    ensures store.Valid()
    ensures passes <= 1
    ensures passes == 1 <==> cfg.retryCount >= 1
    ensures cleared <==> passes == 1
    ensures cleared ==>
      && unprocessed == None
      && dlq.urls.items == CbExtract.DlqEntries(retryUrls, attempt(1))
      && SiteModel.UpsertedUpToAdmin(old(store.sites), store.sites, CbExtract.AllUpserts(retryUrls, attempt(1)))
    ensures !cleared ==>
      && unprocessed == Some(Dlq.UnprocessedHeader)
      && dlq.urls.items == [] && store.sites == old(store.sites)
    ensures cleared ==> PassTurns(turns, retryUrls, cfg.chunkSize, attempt(1))
    ensures !cleared ==> |turns| == 0
    ensures Turns(turns, old(store.sites), old(files.files), cfg.transform)
    ensures store.sites == TableAt(turns, |turns|, old(store.sites))
    ensures files.files == CacheAt(turns, |turns|, old(files.files))
    ensures unidentified == QueuedOf(turns)
    ensures forall id :: id in unidentified ==> id in store.sites
    ensures dlq.noAdmin.items == old(dlq.noAdmin.items) + unidentified
  {
    var pending := new EtlUtils.Cursor(retryUrls);
    cleared, unidentified, passes, turns := false, [], 0, [];
    for retry := 0 to if cfg.retryCount < 0 then 0 else cfg.retryCount
      invariant !cleared && passes == 0 && unidentified == [] && |turns| == 0
      invariant store.Valid() && pending.rest == retryUrls && dlq.urls.items == []
      invariant store.sites == old(store.sites) && files.files == old(files.files)
      invariant dlq.noAdmin.items == old(dlq.noAdmin.items)
    {
      // while process_chunk(retry_urls, ...): process_admin_areas()
      var chunks;
      chunks, unidentified, turns := RunPass(pending, cfg.chunkSize, store, files, dlq, attempt(retry + 1), cfg.transform);
      passes := passes + 1;
      // else: "DLQ cleared!", then break; the for loop's step is never reached
      cleared := true;
      break;
    }
    unprocessed := None;
    if !cleared {
      // for ... else: log_unprocessed_dlq()
      var report := dlq.LogUnprocessedDlq();
      assert report == Dlq.UnprocessedHeader + "";
      assert Dlq.UnprocessedHeader + "" == Dlq.UnprocessedHeader;
      unprocessed := Some(report);
    }
  }

  /**
   * The URLs still failing after up to `retries` further passes, pass `k`
   * first; a pass that finds the queue empty ends the retries.
   */
  function Leftover(pending: seq<string>, retries: int, attempt: nat -> CbExtract.ExtractEnv, k: nat): seq<string>
    decreases retries
  {
    if retries <= 0 || pending == [] then pending
    else Leftover(CbExtract.DlqEntries(pending, attempt(k)), retries - 1, attempt, k + 1)
  }

  /**
   * With no retry left, or nothing queued, what is queued is left over.
   * Stated apart, in the shape the retry loop needs, to keep that proof small.
   */
  lemma LeftoverDone(pending: seq<string>, retries: int, attempt: nat -> CbExtract.ExtractEnv, k: nat)
    requires retries <= 0 || pending == []
    ensures Leftover(pending, retries, attempt, k) == pending
  {
  }

  /** The rows the retry passes commit, pass `k` first, under the same stopping rule as `Leftover`. */
  function RetryUpserts(pending: seq<string>, retries: int, attempt: nat -> CbExtract.ExtractEnv, k: nat): seq<SiteModel.Site>
    decreases retries
  {
    if retries <= 0 || pending == [] then []
    else CbExtract.AllUpserts(pending, attempt(k)) + RetryUpserts(CbExtract.DlqEntries(pending, attempt(k)), retries - 1, attempt, k + 1)
  }

  /**
   * With `retries` retries left, attempt `k` next and `items` queued, the
   * retries leave `leftover` queued, and `done` followed by the rows they
   * commit is `total`.
   */
  ghost predicate RetryPending(items: seq<string>, retries: int, attempt: nat -> CbExtract.ExtractEnv, k: nat,
                               leftover: seq<string>, done: seq<SiteModel.Site>, total: seq<SiteModel.Site>)
  {
    && Leftover(items, retries, attempt, k) == leftover
    && done + RetryUpserts(items, retries, attempt, k) == total
  }

  /** With no retry left, or nothing queued, no retry pass commits anything. */
  lemma RetryUpsertsDone(done: seq<SiteModel.Site>, pending: seq<string>, retries: int,
                         attempt: nat -> CbExtract.ExtractEnv, k: nat, total: seq<SiteModel.Site>)
    requires retries <= 0 || pending == []
    requires done + RetryUpserts(pending, retries, attempt, k) == total
    ensures done == total
  {
    assert done + [] == done;
  }

  /** One retry pass over a non-empty queue moves its rows from the remaining work to those committed. */
  lemma RetryUpsertsStep(done: seq<SiteModel.Site>, pending: seq<string>, requeued: seq<string>, retries: int,
                         attempt: nat -> CbExtract.ExtractEnv, k: nat, total: seq<SiteModel.Site>)
    requires pending != [] && retries >= 1
    requires requeued == CbExtract.DlqEntries(pending, attempt(k))
    requires done + RetryUpserts(pending, retries, attempt, k) == total
    ensures (done + CbExtract.AllUpserts(pending, attempt(k))) + RetryUpserts(requeued, retries - 1, attempt, k + 1) == total
  {
    CbExtract.AppendAssoc(done, CbExtract.AllUpserts(pending, attempt(k)), RetryUpserts(requeued, retries - 1, attempt, k + 1));
  }

  /**
   * Appending two batches one after the other appends their concatenation.
   * A named regrouping step: it keeps the callers' proofs small.
   */
  lemma AppendedAfter(queued: seq<string>, first: seq<string>, second: seq<string>, now: seq<string>)
    requires now == queued + first + second
    ensures now == queued + (first + second)
  {
  }

  /** One retry pass over a non-empty queue moves `Leftover` one attempt on. */
  lemma LeftoverStep(pending: seq<string>, requeued: seq<string>, retries: int,
                     attempt: nat -> CbExtract.ExtractEnv, k: nat)
    requires pending != [] && retries >= 1
    requires requeued == [] + CbExtract.DlqEntries(pending, attempt(k))
    ensures Leftover(pending, retries, attempt, k) == Leftover(requeued, retries - 1, attempt, k + 1)
  {
    assert requeued == CbExtract.DlqEntries(pending, attempt(k));
  }

  /** A pass in which every URL succeeds leaves nothing over, whatever the retries left. */
  lemma {:induction false} LeftoverAfterCleanPass(pending: seq<string>, retries: int, attempt: nat -> CbExtract.ExtractEnv, k: nat)
    requires retries >= 1
    requires CbExtract.DlqEntries(pending, attempt(k)) == []
    ensures Leftover(pending, retries, attempt, k) == []
  {
    if pending != [] {
      assert Leftover(pending, retries, attempt, k) == Leftover([], retries - 1, attempt, k + 1);
    }
  }

  /**
   * A URL whose request fails in every pass is left over however many
   * retries there are.
   */
  lemma {:induction false} AlwaysFailingLeftOver(url: string, retries: int, attempt: nat -> CbExtract.ExtractEnv, k: nat)
    requires forall j: nat :: (attempt(j).fetch)(url) == CbExtract.TransportFail
    ensures Leftover([url], retries, attempt, k) == [url]
    decreases retries
  {
    if retries > 0 {
      assert [url][1..] == [];
      assert CbExtract.DlqEntries([url], attempt(k)) == [url];
      AlwaysFailingLeftOver(url, retries - 1, attempt, k + 1);
    }
  }

  /**
   * With one retry, what `load_sites` as written leaves queued and never
   * reports is exactly what one retry leaves over.
   */
  lemma AsWrittenKeepsLeftover(retried: seq<string>, attempt: nat -> CbExtract.ExtractEnv)
    ensures CbExtract.DlqEntries(retried, attempt(1)) == Leftover(retried, 1, attempt, 1)
  {
  }

  /**
   * `load_sites` as its documentation describes it: the dead-letter queue is
   * reprocessed up to the retry count, stopping early when it is empty, and
   * on exit what is still queued is reported. Every URL left over appears in
   * the report and the queue ends empty.
   */
  method LoadSitesWithRetries(cfg: PipelineConfig, seed: CbExtract.SeedFetch, store: SiteModel.SiteStore,
                              files: GbExtract.BoundaryFiles, dlq: Dlq.DeadLetterStore,
                              attempt: nat -> CbExtract.ExtractEnv)
    returns (r: Result<LoadReport, CbExtract.SeedError>, ghost main: seq<Turn>, ghost retries: seq<Turn>)
    requires cfg.chunkSize >= 1 && store.Valid() && dlq.Valid()
    modifies store, files, dlq.urls, dlq.noAdmin
    ensures store.Valid()
    ensures r.Ok? <==> CbExtract.LoadMasterSiteUrls(cfg.cityBikeUri, seed).Ok?
    ensures r.Err? ==>
      && r.error == CbExtract.LoadMasterSiteUrls(cfg.cityBikeUri, seed).error
      && store.sites == old(store.sites) && files.files == old(files.files)
      && dlq.urls.items == old(dlq.urls.items) && dlq.noAdmin.items == old(dlq.noAdmin.items)
    ensures r.Ok? ==>
      var urls := CbExtract.LoadMasterSiteUrls(cfg.cityBikeUri, seed).value;
      && PassTurns(main, urls, cfg.chunkSize, attempt(0))
      && Turns(main, old(store.sites), old(files.files), cfg.transform)
      && Turns(retries, TableAt(main, |main|, old(store.sites)), CacheAt(main, |main|, old(files.files)), cfg.transform)
      && store.sites == TableAt(retries, |retries|, TableAt(main, |main|, old(store.sites)))
      && files.files == CacheAt(retries, |retries|, CacheAt(main, |main|, old(files.files)))
      && r.value.unidentified == QueuedOf(main) + QueuedOf(retries)
    ensures r.Ok? ==>
      var urls := CbExtract.LoadMasterSiteUrls(cfg.cityBikeUri, seed).value;
      && r.value.retried == old(dlq.urls.items) + CbExtract.DlqEntries(urls, attempt(0))
      && r.value.unprocessedLog
           == Some(Dlq.UnprocessedHeader + Dlq.JoinLines(Leftover(r.value.retried, cfg.retryCount, attempt, 1)))
      && (r.value.cleared ==> Leftover(r.value.retried, cfg.retryCount, attempt, 1) == [])
      && dlq.urls.items == []
      && SiteModel.UpsertedUpToAdmin(old(store.sites), store.sites,
           CbExtract.AllUpserts(urls, attempt(0)) + RetryUpserts(r.value.retried, cfg.retryCount, attempt, 1))
      && (forall id :: id in r.value.unidentified ==> id in store.sites)
      && r.value.noAdminLog == Dlq.NoAdminHeader + Dlq.JoinLines(old(dlq.noAdmin.items) + r.value.unidentified)
      && dlq.noAdmin.items == []
  {
    main, retries := [], [];
    var seeded := CbExtract.LoadMasterSiteUrls(cfg.cityBikeUri, seed);
    if seeded.Err? {
      return Err(seeded.error), main, retries;
    }
    var unidentified;
    unidentified, main := PassOver(seeded.value, cfg, store, files, dlq, attempt(0));
    var retried := dlq.urls.items;
    ghost var mid := store.sites;
    var cleared, more;
    cleared, more, retries := RetryAll(cfg, store, files, dlq, attempt);
    SiteModel.UpsertedUpToAdminTrans(old(store.sites), mid, store.sites,
      CbExtract.AllUpserts(seeded.value, attempt(0)), RetryUpserts(retried, cfg.retryCount, attempt, 1));
    AppendedAfter(old(dlq.noAdmin.items), unidentified, more, dlq.noAdmin.items);
    unidentified := unidentified + more;
    var report := dlq.LogUnprocessedDlq();
    var noAdminLog := dlq.LogNoAdminDlq();
    return Ok(LoadReport(retried, cleared, Some(report), unidentified, noAdminLog)), main, retries;
  }

  /**
   * The corrected retry loop: each retry drains the dead-letter queue and
   * runs a pass over what it drained, until the retries are used up or the
   * queue is found empty. What stays queued is what `Leftover` says.
   */
  method RetryAll(cfg: PipelineConfig, store: SiteModel.SiteStore,
                  files: GbExtract.BoundaryFiles, dlq: Dlq.DeadLetterStore,
                  attempt: nat -> CbExtract.ExtractEnv)
    returns (cleared: bool, unidentified: seq<string>, ghost turns: seq<Turn>)
    requires cfg.chunkSize >= 1 && store.Valid() && dlq.Valid()
    modifies store, files, dlq.urls, dlq.noAdmin
    ensures store.Valid()
    ensures Traced(turns, old(store.sites), old(files.files), cfg.transform, store.sites, files.files, unidentified)
    ensures dlq.urls.items == Leftover(old(dlq.urls.items), cfg.retryCount, attempt, 1)
    ensures cleared ==> dlq.urls.items == []
    ensures SiteModel.UpsertedUpToAdmin(old(store.sites), store.sites,
              RetryUpserts(old(dlq.urls.items), cfg.retryCount, attempt, 1))
    ensures forall id :: id in unidentified ==> id in store.sites
    ensures dlq.noAdmin.items == old(dlq.noAdmin.items) + unidentified
  {
    cleared := false;
    unidentified, turns := [], [];
    var retry: nat := 0;
    var left, k := cfg.retryCount, 1;  // retries left, and the attempt of the next one
    ghost var leftover := Leftover(dlq.urls.items, left, attempt, k);
    ghost var done: seq<SiteModel.Site> := [];
    ghost var total := RetryUpserts(dlq.urls.items, left, attempt, k);
    SiteModel.UpsertedNothingUpToAdmin(store.sites);
    while retry < cfg.retryCount
      invariant left == cfg.retryCount - retry && k == retry + 1
      invariant store.Valid()
      invariant RetryPending(dlq.urls.items, left, attempt, k, leftover, done, total)
      invariant SiteModel.UpsertedUpToAdmin(old(store.sites), store.sites, done)
      invariant !cleared
      invariant Traced(turns, old(store.sites), old(files.files), cfg.transform, store.sites, files.files, unidentified)
      invariant forall id :: id in unidentified ==> id in store.sites
      invariant dlq.noAdmin.items == old(dlq.noAdmin.items) + unidentified
      decreases cfg.retryCount - retry
    {
      var empty, found;
      ghost var done', turns';
      empty, found, done', turns' :=
        RetryOnce(left, k, cfg, store, files, dlq, attempt, old(store.sites), old(files.files), leftover, done, total,
                  turns, unidentified);
      AppendedAfter(old(dlq.noAdmin.items), unidentified, found, dlq.noAdmin.items);
      unidentified := unidentified + found;
      done, turns := done', turns';
      if empty {
        cleared := true;
        break;
      }
      retry, left, k := retry + 1, left - 1, k + 1;
    }
    if !cleared {
      LeftoverDone(dlq.urls.items, left, attempt, k);
      RetryUpsertsDone(done, dlq.urls.items, left, attempt, k, total);
    }
  }

  /**
   * One round of the corrected retry loop, attempt `k` with `retries` retries
   * left: drain the queue; if it was empty, stop, otherwise run a pass over
   * what was drained. `done` holds the rows the earlier rounds committed
   * since `sites0`, and `total` those all rounds will commit; `done'` adds
   * this round's.
   */
  method RetryOnce(retries: int, k: nat, cfg: PipelineConfig, store: SiteModel.SiteStore,
                   files: GbExtract.BoundaryFiles, dlq: Dlq.DeadLetterStore,
                   attempt: nat -> CbExtract.ExtractEnv, ghost sites0: map<string, SiteModel.Site>,
                   ghost files0: map<string, GbExtract.GeoJson>, ghost leftover: seq<string>,
                   ghost done: seq<SiteModel.Site>, ghost total: seq<SiteModel.Site>,
                   ghost turns: seq<Turn>, ghost queued: seq<string>)
    returns (empty: bool, unidentified: seq<string>, ghost done': seq<SiteModel.Site>, ghost turns': seq<Turn>)
    requires retries >= 1
    requires cfg.chunkSize >= 1 && store.Valid() && dlq.Valid()
    requires Traced(turns, sites0, files0, cfg.transform, store.sites, files.files, queued)
    requires SiteModel.UpsertedUpToAdmin(sites0, store.sites, done)
    requires RetryPending(dlq.urls.items, retries, attempt, k, leftover, done, total)
    modifies store, files, dlq.urls, dlq.noAdmin
    ensures store.Valid()
    ensures empty <==> old(dlq.urls.items) == []
    ensures empty ==> dlq.urls.items == [] && leftover == [] && done' == total
    ensures !empty ==> RetryPending(dlq.urls.items, retries - 1, attempt, k + 1, leftover, done', total)
    ensures SiteModel.UpsertedUpToAdmin(sites0, store.sites, done')
    ensures empty ==> |turns'| == |turns|
    ensures !empty ==> |turns| <= |turns'| && PassTurns(turns'[|turns|..], old(dlq.urls.items), cfg.chunkSize, attempt(k))
    ensures Traced(turns', sites0, files0, cfg.transform, store.sites, files.files, queued + unidentified)
    ensures old(store.sites).Keys <= store.sites.Keys
    ensures forall id :: id in unidentified ==> id in store.sites
    ensures dlq.noAdmin.items == old(dlq.noAdmin.items) + unidentified
  {
    var retryUrls := Dlq.UnloadDlq(dlq.urls);
    if retryUrls == [] {
      LeftoverDone(retryUrls, retries, attempt, k);
      RetryUpsertsDone(done, retryUrls, retries, attempt, k, total);
      assert queued + [] == queued;
      return true, [], done, turns;
    }
    ghost var sites := store.sites;
    ghost var pass;
    unidentified, pass := PassOver(retryUrls, cfg, store, files, dlq, attempt(k));
    TurnsAppend(turns, pass, sites0, files0, cfg.transform);
    turns' := turns + pass;
    assert turns'[|turns|..] == pass;
    LeftoverStep(retryUrls, dlq.urls.items, retries, attempt, k);
    RetryUpsertsStep(done, retryUrls, dlq.urls.items, retries, attempt, k, total);
    SiteModel.UpsertedUpToAdminTrans(sites0, sites, store.sites, done, CbExtract.AllUpserts(retryUrls, attempt(k)));
    done' := done + CbExtract.AllUpserts(retryUrls, attempt(k));
    empty := false;
  }

  /** A configuration whose boundary lookups find nothing. */
  function QuietConfig(retryCount: int): (cfg: PipelineConfig)
    ensures cfg.chunkSize == 10 && cfg.retryCount == retryCount
  {
    PipelineConfig("https://api.citybik.es", 10, retryCount,
      CbTransform.TransformConfig("ADM3", CbTransform.DefaultNoAdminArea,
        GbExtract.BoundarySource((_, _) => [], _ => GbExtract.GeoJson(None)),
        (_, _) => false))
  }

  /**
   * One network whose detail request fails every time, with the default
   * three retries: `load_sites` as written ends with its URL still queued
   * and no unprocessed-URL report.
   */
  method AsWrittenDropsFailure(href: string) returns (r: Result<LoadReport, CbExtract.SeedError>, queued: seq<string>)
    ensures r.Ok? && r.value.cleared && r.value.unprocessedLog == None
    ensures queued == ["https://api.citybik.es" + href]
  {
    var cfg := QuietConfig(3);
    var url := cfg.cityBikeUri + href;
    var store := new SiteModel.SiteStore(map[]);
    var files := new GbExtract.BoundaryFiles(map[]);
    var dlq := new Dlq.DeadLetterStore();
    var env := CbExtract.ExtractEnv(_ => CbExtract.TransportFail, c => c, _ => true);
    var seed := CbExtract.SeedResponse(200, Some([href]));
    assert CbExtract.Prefixed(cfg.cityBikeUri, [href]) == [url] by {
      assert [href][1..] == [];
    }
    assert CbExtract.LoadMasterSiteUrls(cfg.cityBikeUri, seed) == Ok([url]);
    CbExtract.AllFailingQueued([url], env);
    ghost var main, retry;
    r, main, retry := LoadSites(cfg, seed, store, files, dlq, _ => env);
    queued := dlq.urls.items;
  }

  /** The same run with the corrected retry loop reports the URL. */
  method CorrectedReportsFailure(href: string) returns (r: Result<LoadReport, CbExtract.SeedError>, queued: seq<string>)
    ensures r.Ok? && r.value.unprocessedLog == Some(Dlq.UnprocessedHeader + "https://api.citybik.es" + href)
    ensures queued == []
  {
    var cfg := QuietConfig(3);
    var url := cfg.cityBikeUri + href;
    var store := new SiteModel.SiteStore(map[]);
    var files := new GbExtract.BoundaryFiles(map[]);
    var dlq := new Dlq.DeadLetterStore();
    var env := CbExtract.ExtractEnv(_ => CbExtract.TransportFail, c => c, _ => true);
    var attempt: nat -> CbExtract.ExtractEnv := _ => env;
    var seed := CbExtract.SeedResponse(200, Some([href]));
    assert CbExtract.Prefixed(cfg.cityBikeUri, [href]) == [url] by {
      assert [href][1..] == [];
    }
    assert CbExtract.LoadMasterSiteUrls(cfg.cityBikeUri, seed) == Ok([url]);
    CbExtract.AllFailingQueued([url], env);
    AlwaysFailingLeftOver(url, 3, attempt, 1);
    assert Dlq.JoinLines([url]) == url;
    assert Dlq.UnprocessedHeader + url == Dlq.UnprocessedHeader + cfg.cityBikeUri + href;
    ghost var main, retries;
    r, main, retries := LoadSitesWithRetries(cfg, seed, store, files, dlq, attempt);
    assert r.value.retried == [url];
    queued := dlq.urls.items;
  }
}
