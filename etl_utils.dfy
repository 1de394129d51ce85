/**
 * Extract-transform-load helpers (api/etl_utils.py): the chunker over a shared
 * generator, the resource name of a URL, and the request-failure callback.
 */
module EtlUtils {
  import opened Wrappers
  import Dlq

  /**
   * A Python generator that several callers advance in turn. `rest` holds the
   * items it has not produced yet.
   */
  class Cursor<T> {
    var rest: seq<T>

    constructor (items: seq<T>)
      ensures rest == items
    {
      rest := items;
    }

    /** `next(g)`: the next item, or `None` for StopIteration. */
    method Next() returns (x: Option<T>)
      modifies this
      ensures old(rest) == [] ==> x == None && rest == []
      ensures old(rest) != [] ==> x == Some(old(rest)[0]) && rest == old(rest)[1..]
    {
      if rest == [] {
        x := None;
      } else {
        x := Some(rest[0]);
        rest := rest[1..];
      }
    }
  }

  /**
   * What `next(chunk(g, chunk_size))` gives: a batch; StopIteration when `g`
   * is exhausted; or the ValueError that `islice` raises for a stop below 0.
   */
  datatype ChunkResult<T> = Batch(items: seq<T>) | Exhausted | StopOutOfRange

  function Min(a: nat, b: nat): nat
  {
    if a <= b then a else b
  }

  /** The batch `chunk` takes from `s`: its first item and up to `n - 1` more. */
  function FirstChunk<T>(s: seq<T>, n: nat): (c: seq<T>)
    requires s != [] && n >= 1
    ensures 1 <= |c| <= n && |c| <= |s|
    ensures c == s[..|c|]
    ensures |c| == n || c == s
  {
    s[..Min(n, |s|)]
  }

  /** The batches that successive `next(chunk(g, n))` calls produce from `s`. */
  function Chunks<T>(s: seq<T>, n: nat): seq<seq<T>>
    requires n >= 1
    decreases |s|
  {
    if s == [] then [] else [FirstChunk(s, n)] + Chunks(s[|FirstChunk(s, n)|..], n)
  }

  function Flatten<T>(ss: seq<seq<T>>): seq<T>
  {
    if ss == [] then [] else ss[0] + Flatten(ss[1..])
  }

  /** Concatenating the batches gives back the source: nothing skipped, nothing repeated. */
  lemma {:induction false} ChunksFlatten<T>(s: seq<T>, n: nat)
    requires n >= 1
    ensures Flatten(Chunks(s, n)) == s
    decreases |s|
  {
    if s != [] {
      var c := FirstChunk(s, n);
      ChunksFlatten(s[|c|..], n);
      assert Chunks(s, n)[1..] == Chunks(s[|c|..], n);
      assert c + s[|c|..] == s;
    }
  }

  /** No batch is empty, none is larger than `n`, and only the last may be short. */
  lemma {:induction false} ChunksSizes<T>(s: seq<T>, n: nat)
    requires n >= 1
    ensures forall i :: 0 <= i < |Chunks(s, n)| ==> 1 <= |Chunks(s, n)[i]| <= n
    ensures forall i :: 0 <= i < |Chunks(s, n)| - 1 ==> |Chunks(s, n)[i]| == n
    decreases |s|
  {
    if s != [] {
      var c := FirstChunk(s, n);
      var tail := Chunks(s[|c|..], n);
      ChunksSizes(s[|c|..], n);
      assert Chunks(s, n) == [c] + tail;
      if |c| < n {
        assert s[|c|..] == [];
      }
    }
  }

  /** Fourteen items in batches of five: sizes 5, 5 and 4, then exhaustion. */
  lemma FourteenInFives<T>(s: seq<T>)
    requires |s| == 14
    ensures |Chunks(s, 5)| == 3
    ensures |Chunks(s, 5)[0]| == 5 && |Chunks(s, 5)[1]| == 5 && |Chunks(s, 5)[2]| == 4
  {
    var s1, s2, s3 := s[5..], s[5..][5..], s[5..][5..][4..];
    assert s3 == [];
    assert Chunks(s3, 5) == [];
    assert Chunks(s2, 5) == [s2] + Chunks(s3, 5);
    assert Chunks(s1, 5) == [s1[..5]] + Chunks(s2, 5);
    assert Chunks(s, 5) == [s[..5]] + Chunks(s1, 5);
  }

  /**
   * `next(chunk(g, chunk_size))`. The first item is pulled before `islice` is
   * built, so an exhausted `g` gives StopIteration and never an empty batch;
   * a `chunk_size` below 1 makes `islice` raise after that first pull.
   * Callers list the batch at once, so it is pulled eagerly here.
   */
  method Chunk<T>(g: Cursor<T>, chunkSize: int) returns (c: ChunkResult<T>)
    modifies g
    ensures old(g.rest) == [] ==> c == Exhausted && g.rest == []
    ensures old(g.rest) != [] && chunkSize < 1 ==>
      c == StopOutOfRange && g.rest == old(g.rest)[1..]
    ensures old(g.rest) != [] && chunkSize >= 1 ==>
      c == Batch(FirstChunk(old(g.rest), chunkSize)) && g.rest == old(g.rest)[|c.items|..]
  {
    var first := g.Next();
    if first.None? {
      return Exhausted;
    }
    if chunkSize < 1 {
      return StopOutOfRange;
    }
    var items := [first.value];
    while |items| < chunkSize
      invariant 1 <= |items| <= chunkSize
      invariant items + g.rest == old(g.rest)
      decreases chunkSize - |items|
    {
      var x := g.Next();
      if x.None? {
        break;
      }
      items := items + [x.value];
    }
    assert old(g.rest)[..|items|] == items;
    c := Batch(items);
  }

  /** Pulling batch after batch from fourteen items with size 5. */
  method ChunkFourteen() returns (sizes: seq<int>, last: ChunkResult<int>)
    ensures sizes == [5, 5, 4]
    ensures last == Exhausted
  {
    var g := new Cursor<int>([0, 1, 2, 3, 4, 5, 6, 7, 8, 9, 10, 11, 12, 13]);
    var c1 := Chunk(g, 5);
    var c2 := Chunk(g, 5);
    var c3 := Chunk(g, 5);
    last := Chunk(g, 5);
    sizes := [|c1.items|, |c2.items|, |c3.items|];
  }

  /** Where the text after the last '/' of `url` begins (0 when there is no '/'). */
  function NameStart(url: string): (k: nat)
    ensures k <= |url|
    ensures forall j :: k <= j < |url| ==> url[j] != '/'
    ensures k > 0 ==> url[k - 1] == '/'
    decreases |url|
  {
    if url == [] then 0
    else if url[|url| - 1] == '/' then |url|
    else NameStart(url[..|url| - 1])
  }

  /** `resource_url.rsplit("/", 1)[-1]`: the text after the last '/'. */
  function GetResourceName(url: string): (name: string)
    ensures '/' !in name
  {
    url[NameStart(url)..]
  }

  /** The resource name is the whole tail of `url` after a '/' (or all of it). */
  lemma ResourceNameIsLastSegment(url: string)
    ensures var name := GetResourceName(url);
      |name| <= |url| && name == url[|url| - |name|..] &&
      (|name| < |url| ==> url[|url| - |name| - 1] == '/')
  {
  }

  /** A URL without '/' is its own resource name. */
  lemma NoSlashIsUnchanged(url: string)
    requires '/' !in url
    ensures GetResourceName(url) == url
  {
    ResourceNameIsLastSegment(url);
  }

  /** The documented example: https://foo.com/bar.json gives bar.json. */
  lemma ResourceNameExample()
    ensures GetResourceName("https://foo.com/bar.json") == "bar.json"
  {
    var url := "https://foo.com/bar.json";
    ResourceNameIsLastSegment(url);
    assert url[15] == '/';
  }

  /** `on_fail`: a request that raised sends its URL to the dead-letter queue. */
  method OnFail(dlq: Dlq.DeadLetterStore, url: string)
    requires dlq.Valid()
    modifies dlq.urls
    ensures dlq.urls.items == old(dlq.urls.items) + [url]
    ensures dlq.noAdmin.items == old(dlq.noAdmin.items)
  {
    dlq.AddToDlq(url);
  }
}
