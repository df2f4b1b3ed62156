/**
 * `MemoryFrontier`: the crawler's in-memory work list. Each of its methods
 * runs without interruption (the mutating ones hold the frontier's lock and
 * none of them awaits inside), so it is modelled as a sequential object.
 */
module Frontier {
  import opened Wrappers
  import opened Urls

  /** The record `mark_seen` stores for a URL. */
  datatype VisitRecord = VisitRecord(statusCode: Option<int>, lastModified: Option<string>, crawledAt: string)

  /** One tuple of `fetch_all_seen`: (url, last_modified, crawled_at). */
  datatype Row = Row(url: Url, lastModified: Option<string>, crawledAt: string)

  predicate NoDuplicates<T(==)>(s: seq<T>) {
    forall i, j :: 0 <= i < j < |s| ==> s[i] != s[j]
  }

  function Elements<T>(s: seq<T>): set<T> {
    set x | x in s
  }

  /** A list without repetitions has as many distinct elements as it has entries. */
  lemma {:induction false} DistinctCount<T>(s: seq<T>)
    requires NoDuplicates(s)
    ensures |Elements(s)| == |s|
    decreases |s|
  {
    if s != [] {
      var init := s[..|s| - 1];
      var last := s[|s| - 1];
      assert s == init + [last];
      assert NoDuplicates(init);
      DistinctCount(init);
      assert last !in init;
      assert Elements(s) == Elements(init) + {last};
    }
  }

  /** A suffix of a list without repetitions has none either. */
  lemma SuffixNoDuplicates<T>(s: seq<T>, k: nat)
    requires NoDuplicates(s) && k <= |s|
    ensures NoDuplicates(s[k..])
  {
    forall i, j | 0 <= i < j < |s| - k ensures s[k..][i] != s[k..][j] {
      assert s[k..][i] == s[k + i] && s[k..][j] == s[k + j];
    }
  }

  class MemoryFrontier {
    /** `_queue`, head first. */
    var queue: seq<Url>
    /** `_enqueued`: every URL ever accepted by `enqueue_if_new`; never shrinks. */
    var enqueued: set<Url>
    /** `_seen`: URL to its latest visit record. */
    var seen: map<Url, VisitRecord>
    /** `_seen_order`: the order in which URLs first became seen. */
    var seenOrder: seq<Url>
    /** Every URL ever appended to the queue, in append order. */
    ghost var appended: seq<Url>

    /**
     * A URL is appended at most once, exactly the enqueued ones are, and the
     * queue is what is left of that log after taking from its front; the
     * seen order lists each seen URL once.
     */
    ghost predicate Valid()
      reads this
    {
      && NoDuplicates(appended)
      && Elements(appended) == enqueued
      && |queue| <= |appended|
      && queue == appended[|appended| - |queue|..]
      && NoDuplicates(seenOrder)
      && Elements(seenOrder) == seen.Keys
    }

    /** The queue never holds a URL twice. */
    lemma QueueNoDuplicates()
      requires Valid()
      ensures NoDuplicates(queue)
      ensures forall u :: u in queue ==> u in enqueued
    {
      SuffixNoDuplicates(appended, |appended| - |queue|);
    }

    /** `fetch_all_seen` has one row per seen URL: the log and the map have the same size. */
    lemma SeenOrderCount()
      requires Valid()
      ensures |seenOrder| == |seen|
    {
      DistinctCount(seenOrder);
      assert Elements(seenOrder) == seen.Keys;
    }

    constructor ()
      ensures Valid()
      ensures queue == [] && enqueued == {} && seen == map[] && seenOrder == [] && appended == []
    {
      queue := [];
      enqueued := {};
      seen := map[];
      seenOrder := [];
      appended := [];
      new;
      assert Elements(appended) == {};
      assert Elements(seenOrder) == {};
    }

    /** `enqueue_if_new`: a URL already enqueued or seen is ignored; any other joins the tail. */
    method EnqueueIfNew(url: Url)
      requires Valid()
      modifies this
      ensures Valid()
      ensures seen == old(seen) && seenOrder == old(seenOrder)
      ensures if url in old(enqueued) || url in old(seen)
              then queue == old(queue) && enqueued == old(enqueued) && appended == old(appended)
              else queue == old(queue) + [url] && enqueued == old(enqueued) + {url}
                   && appended == old(appended) + [url]
    {
      if url in enqueued || url in seen {
        return;
      }
      assert url !in appended;
      enqueued := enqueued + {url};
      queue := queue + [url];
      appended := appended + [url];
      assert queue == appended[|appended| - |queue|..];
    }

    /**
     * `dequeue`: the head of the queue, which is the earliest-appended URL
     * still waiting, or nothing when the queue is empty. Only the queue changes.
     */
    method Dequeue() returns (r: Option<Url>)
      requires Valid()
      modifies this
      ensures Valid()
      ensures enqueued == old(enqueued) && seen == old(seen) && seenOrder == old(seenOrder)
      ensures appended == old(appended)
      ensures old(queue) == [] ==> r == None && queue == []
      ensures old(queue) != [] ==>
                && r == Some(old(queue)[0])
                && r == Some(appended[|appended| - |old(queue)|])
                && queue == old(queue)[1..]
    {
      if queue == [] {
        return None;
      }
      r := Some(queue[0]);
      queue := queue[1..];
    }

    /**
     * `mark_seen`: the record is always overwritten (the last call wins); the
     * URL joins the seen order only the first time.
     */
    method MarkSeen(url: Url, statusCode: Option<int>, lastModified: Option<string>, crawledAt: string)
      requires Valid()
      modifies this
      ensures Valid()
      ensures seen == old(seen)[url := VisitRecord(statusCode, lastModified, crawledAt)]
      ensures seenOrder == if url in old(seen) then old(seenOrder) else old(seenOrder) + [url]
      ensures queue == old(queue) && enqueued == old(enqueued) && appended == old(appended)
    {
      if url !in seen {
        assert url !in seenOrder;
        seenOrder := seenOrder + [url];
      }
      seen := seen[url := VisitRecord(statusCode, lastModified, crawledAt)];
    }

    /** `is_seen`. */
    method IsSeen(url: Url) returns (b: bool)
      ensures b <==> url in seen
    {
      b := url in seen;
    }

    /** `seen_count`. */
    method SeenCount() returns (n: nat)
      ensures n == |seen|
    {
      n := |seen|;
    }

    /** `queue_count`. */
    method QueueCount() returns (n: nat)
      ensures n == |queue|
    {
      n := |queue|;
    }

    /**
     * `fetch_all_seen`: one row per seen URL, in first-seen order, carrying
     * the URL's current record.
     */
    method FetchAllSeen() returns (rows: seq<Row>)
      requires Valid()
      ensures |rows| == |seenOrder| == |seen|
      ensures forall i :: 0 <= i < |rows| ==>
                && rows[i].url == seenOrder[i]
                && rows[i].url in seen
                && rows[i].lastModified == seen[seenOrder[i]].lastModified
                && rows[i].crawledAt == seen[seenOrder[i]].crawledAt
    {
      SeenOrderCount();
      rows := [];
      for i := 0 to |seenOrder|
        invariant |rows| == i
        invariant forall k :: 0 <= k < i ==>
                    && rows[k].url == seenOrder[k]
                    && rows[k].url in seen
                    && rows[k].lastModified == seen[seenOrder[k]].lastModified
                    && rows[k].crawledAt == seen[seenOrder[k]].crawledAt
      {
        var url := seenOrder[i];
        assert url in Elements(seenOrder);
        var meta := seen[url];
        rows := rows + [Row(url, meta.lastModified, meta.crawledAt)];
      }
    }
  }
}
