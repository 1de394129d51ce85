/**
 * Dead-letter queues (api/dlq.py).
 *
 * The source keeps two module-level `queue.Queue` objects: DEAD_LETTER_QUEUE for
 * URLs whose extraction failed and NO_ADMIN_DEAD_LETTER_QUEUE for ids of sites
 * whose admin area could not be identified. Here a `DeadLetterStore` object owns
 * the two queues and is passed to every operation that uses them.
 */
module Dlq {
  import opened Wrappers

  /** A FIFO queue of strings; `items[0]` is the head. */
  class Queue {
    var items: seq<string>

    constructor ()
      ensures items == []
    {
      items := [];
    }

    /** `Queue.put`: append at the tail. */
    method Put(x: string)
      modifies this
      ensures items == old(items) + [x]
    {
      items := items + [x];
    }

    /** `Queue.get_nowait`: remove and return the head, or `None` for `queue.Empty`. */
    method GetNowait() returns (x: Option<string>)
      modifies this
      ensures old(items) == [] ==> x == None && items == []
      ensures old(items) != [] ==> x == Some(old(items)[0]) && items == old(items)[1..]
    {
      if items == [] {
        x := None;
      } else {
        x := Some(items[0]);
        items := items[1..];
      }
    }
  }

  /**
   * `unload_dlq`: take items off the queue until it reports empty and return
   * them in the order they were queued. An empty queue gives an empty sequence.
   */
  method UnloadDlq(q: Queue) returns (drained: seq<string>)
    modifies q
    ensures drained == old(q.items)
    ensures q.items == []
  {
    drained := [];
    while true
      invariant drained + q.items == old(q.items)
      decreases |q.items|
    {
      var x := q.GetNowait();
      if x.None? {
        break;
      }
      drained := drained + [x.value];
    }
  }

  /** "\n".join(lines) */
  function JoinLines(lines: seq<string>): string
  {
    if lines == [] then ""
    else if |lines| == 1 then lines[0]
    else lines[0] + "\n" + JoinLines(lines[1..])
  }

  /** Index of the first newline in `s`, or `|s|` when there is none. */
  function NewlineIndex(s: string): (i: nat)
    ensures i <= |s|
    ensures forall j :: 0 <= j < i ==> s[j] != '\n'
    ensures i < |s| ==> s[i] == '\n'
  {
    if s == [] then 0
    else if s[0] == '\n' then 0
    else 1 + NewlineIndex(s[1..])
  }

  /** `s.split("\n")`, the reading a log consumer applies to a report body. */
  function SplitLines(s: string): seq<string>
    decreases |s|
  {
    var i := NewlineIndex(s);
    if i == |s| then [s] else [s[..i]] + SplitLines(s[i + 1..])
  }

  predicate NoNewlines(lines: seq<string>)
  {
    forall k :: 0 <= k < |lines| ==> '\n' !in lines[k]
  }

  lemma NewlineIndexAfter(a: string, b: string)
    requires '\n' !in a
    ensures NewlineIndex(a + "\n" + b) == |a|
  {
    var s := a + "\n" + b;
    assert s[|a|] == '\n';
    assert forall j :: 0 <= j < |a| ==> s[j] == a[j];
  }

  /**
   * Every line of a report can be read back: splitting the joined body at its
   * newlines gives back exactly the queued items, in queue order.
   */
  lemma {:induction false} SplitJoinLines(lines: seq<string>)
    requires lines != []
    requires NoNewlines(lines)
    ensures SplitLines(JoinLines(lines)) == lines
  {
    if |lines| == 1 {
      var s := lines[0];
      assert '\n' !in s by { assert '\n' !in lines[0]; }
    } else {
      var a, rest := lines[0], JoinLines(lines[1..]);
      assert '\n' !in a by { assert '\n' !in lines[0]; }
      assert NoNewlines(lines[1..]) by {
        forall k | 0 <= k < |lines[1..]| ensures '\n' !in lines[1..][k] {
          assert lines[1..][k] == lines[k + 1];
        }
      }
      var s := a + "\n" + rest;
      NewlineIndexAfter(a, rest);
      assert s[..|a|] == a;
      assert s[|a| + 1..] == rest;
      SplitJoinLines(lines[1..]);
      assert SplitLines(s) == [a] + lines[1..];
    }
  }

  /** Header of the unprocessed-URL report (api/dlq.py:42). */
  const UnprocessedHeader: string := "The following urls were not processed:\n"

  /** Header of the no-admin report, worded as api/dlq.py:48 has it. */
  const NoAdminHeader: string := "Admin area could not be identified these sites:\n"

  /** The two module-level queues of api/dlq.py. */
  class DeadLetterStore {
    /** DEAD_LETTER_QUEUE: URLs that could not be processed. */
    const urls: Queue
    /** NO_ADMIN_DEAD_LETTER_QUEUE: ids of sites with no admin area. */
    const noAdmin: Queue

    ghost predicate Valid()
    {
      urls != noAdmin
    }

    constructor ()
      ensures Valid() && fresh(urls) && fresh(noAdmin)
      ensures urls.items == [] && noAdmin.items == []
    {
      urls := new Queue();
      noAdmin := new Queue();
    }

    /** `add_to_dlq`: queue a URL at the tail of DEAD_LETTER_QUEUE only. */
    method AddToDlq(url: string)
      requires Valid()
      modifies urls
      ensures urls.items == old(urls.items) + [url]
      ensures noAdmin.items == old(noAdmin.items)
    {
      urls.Put(url);
    }

    /** `add_to_no_admin_dlq`: queue a site id at the tail of NO_ADMIN_DEAD_LETTER_QUEUE only. */
    method AddToNoAdminDlq(siteId: string)
      requires Valid()
      modifies noAdmin
      ensures noAdmin.items == old(noAdmin.items) + [siteId]
      ensures urls.items == old(urls.items)
    {
      noAdmin.Put(siteId);
    }

    /** `log_unprocessed_dlq`: drain DEAD_LETTER_QUEUE; the result is the echoed text. */
    method LogUnprocessedDlq() returns (message: string)
      requires Valid()
      modifies urls
      ensures message == UnprocessedHeader + JoinLines(old(urls.items))
      ensures urls.items == []
      ensures noAdmin.items == old(noAdmin.items)
    {
      var items := UnloadDlq(urls);
      message := UnprocessedHeader + JoinLines(items);
    }

    /** `log_no_admin_dlq`: drain NO_ADMIN_DEAD_LETTER_QUEUE; the result is the echoed text. */
    method LogNoAdminDlq() returns (message: string)
      requires Valid()
      modifies noAdmin
      ensures message == NoAdminHeader + JoinLines(old(noAdmin.items))
      ensures noAdmin.items == []
      ensures urls.items == old(urls.items)
    {
      var items := UnloadDlq(noAdmin);
      message := NoAdminHeader + JoinLines(items);
    }
  }
}
