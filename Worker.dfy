/**
 * The `worker` loop for a single worker: stop at the page cap or when the
 * queue is empty, skip URLs already seen, otherwise visit the URL, record
 * the visit and enqueue what the page yields. The browser is a parameter:
 * `render(u)` is what loading `u` produces.
 */
module Worker {
  import opened Wrappers
  import opened Urls
  import opened Frontier
  import opened Discovery

  /** `MAX_PAGES`: stop once this many URLs are seen. */
  const MaxPages: nat := 300000

  /** How one pass of the loop body ends. */
  datatype Step = CapReached | QueueDrained | AlreadySeen(url: Url) | Visited(url: Url)

  /** `links(u)` is what visiting `u` discovers when the browser renders `u` as `render(u)`. */
  ghost predicate Renders(render: Url -> Page, links: Url -> set<Url>) {
    forall u {:trigger Extracted(render(u))} :: links(u) == Extracted(render(u))
  }

  /** For each URL, the URLs visiting it discovers: a `links` that `Renders` holds for always exists. */
  function LinksOf(render: Url -> Page): (links: Url -> set<Url>)
    ensures Renders(render, links)
  {
    u => Extracted(render(u))
  }

  /** `status_code`: the response's status, or None without a response. */
  function StatusOf(r: Option<Response>): Option<int> {
    match r
    case Some(resp) => Some(resp.status)
    case None => None
  }

  /** `last_modified`: the response's header, or None without a response. */
  function LastModifiedOf(r: Option<Response>): Option<string> {
    match r
    case Some(resp) => resp.lastModified
    case None => None
  }

  /** The record a visit of `u` leaves, stamped `crawledAt`. */
  function VisitOf(render: Url -> Page, u: Url, crawledAt: string): VisitRecord {
    var r := ResponseOf(render(u).nav);
    VisitRecord(StatusOf(r), LastModifiedOf(r), crawledAt)
  }

  /**
   * The enqueue loop at the end of a visit: each discovered URL that is not
   * seen is offered to `enqueue_if_new`. The queue keeps its old contents
   * and gains, in some order, exactly the URLs newly enqueued.
   */
  method EnqueueDiscovered(f: MemoryFrontier, discovered: set<Url>)
    requires f.Valid()
    modifies f
    ensures f.Valid()
    ensures f.seen == old(f.seen) && f.seenOrder == old(f.seenOrder)
    ensures f.enqueued == old(f.enqueued) + (discovered - f.seen.Keys)
    ensures |old(f.queue)| <= |f.queue| && f.queue[..|old(f.queue)|] == old(f.queue)
    ensures Elements(f.queue[|old(f.queue)|..]) == f.enqueued - old(f.enqueued)
  {
    var rest := discovered;
    ghost var added: seq<Url> := [];
    while rest != {}
      invariant f.Valid()
      invariant rest <= discovered
      invariant f.seen == old(f.seen) && f.seenOrder == old(f.seenOrder)
      invariant f.enqueued == old(f.enqueued) + ((discovered - rest) - f.seen.Keys)
      invariant f.queue == old(f.queue) + added
      invariant Elements(added) == f.enqueued - old(f.enqueued)
      decreases |rest|
    {
      var u :| u in rest;
      added := OfferNext(f, u, old(f.queue), old(f.enqueued), discovered, rest, added);
      rest := rest - {u};
    }
    assert f.queue[..|old(f.queue)|] == old(f.queue) && f.queue[|old(f.queue)|..] == added;
  }

  /**
   * One pass of the enqueue loop, stated against the loop's progress: the
   * URLs offered so far are `discovered - rest`, and the queue has grown
   * from `queue0` by `added`. It is the body of `EnqueueDiscovered`'s loop,
   * and its contract is that loop's invariant.
   */
  method OfferNext(f: MemoryFrontier, u: Url, ghost queue0: seq<Url>, ghost enqueued0: set<Url>,
                   ghost discovered: set<Url>, ghost rest: set<Url>, ghost added: seq<Url>)
    returns (ghost added': seq<Url>)
    requires f.Valid() && u in rest && rest <= discovered
    requires f.enqueued == enqueued0 + ((discovered - rest) - f.seen.Keys)
    requires f.queue == queue0 + added
    requires Elements(added) == f.enqueued - enqueued0
    modifies f
    ensures f.Valid()
    ensures f.seen == old(f.seen) && f.seenOrder == old(f.seenOrder)
    ensures f.enqueued == enqueued0 + ((discovered - (rest - {u})) - f.seen.Keys)
    ensures f.queue == queue0 + added'
    ensures Elements(added') == f.enqueued - enqueued0
  {
    ghost var before, enqueuedBefore := f.queue, f.enqueued;
    Offer(f, u);
    added' := added;
    if f.queue != before {
      assert Elements(added + [u]) == f.enqueued - enqueued0 by {
        ElementsAppend(added, u);
        NewlyEnqueued(enqueued0, enqueuedBefore, u);
      }
      assert f.queue == queue0 + (added + [u]) by {
        assert queue0 + (added + [u]) == (queue0 + added) + [u];
      }
      added' := added + [u];
    }
    assert f.enqueued == enqueued0 + ((discovered - (rest - {u})) - f.seen.Keys) by {
      TakeOne(enqueued0, discovered, rest, f.seen.Keys, u);
    }
  }

  /** The body of the enqueue loop: `u` is offered to `enqueue_if_new` unless it is seen. */
  method Offer(f: MemoryFrontier, u: Url)
    requires f.Valid()
    modifies f
    ensures f.Valid()
    ensures f.seen == old(f.seen) && f.seenOrder == old(f.seenOrder)
    ensures f.enqueued == old(f.enqueued) + ({u} - f.seen.Keys)
    ensures f.queue == old(f.queue) ==> f.enqueued == old(f.enqueued)
    ensures f.queue != old(f.queue) ==>
              f.queue == old(f.queue) + [u] && u !in old(f.enqueued) && f.enqueued == old(f.enqueued) + {u}
  {
    var seen := f.IsSeen(u);
    if !seen {
      f.EnqueueIfNew(u);
    }
  }

  /** A URL not enqueued before joins what was newly enqueued. */
  lemma NewlyEnqueued(e: set<Url>, prev: set<Url>, u: Url)
    requires e <= prev && u !in prev
    ensures (prev + {u}) - e == (prev - e) + {u}
  {
  }

  /** Moving `u` from `rest` to the processed part adds it, unless seen. */
  lemma TakeOne(e: set<Url>, d: set<Url>, rest: set<Url>, seen: set<Url>, u: Url)
    requires u in rest && rest <= d
    ensures e + ((d - (rest - {u})) - seen) == (e + ((d - rest) - seen)) + ({u} - seen)
  {
  }

  lemma ElementsAppend(s: seq<Url>, u: Url)
    ensures Elements(s + [u]) == Elements(s) + {u}
  {
  }

  /**
   * One pass of the `while True` body. At the cap, or with an empty queue,
   * nothing changes. A seen head is dropped. Any other head is visited: it
   * is recorded as seen with what its response says, and the URLs it
   * yields that are neither seen nor enqueued join the queue.
   */
  method Iterate(f: MemoryFrontier, render: Url -> Page, ghost links: Url -> set<Url>, crawledAt: string)
    returns (step: Step)
    requires f.Valid() && Renders(render, links)
    modifies f
    ensures f.Valid()
    ensures |old(f.seen)| >= MaxPages ==>
              step == CapReached && f.queue == old(f.queue) && f.seen == old(f.seen)
              && f.enqueued == old(f.enqueued) && f.seenOrder == old(f.seenOrder)
    ensures |old(f.seen)| < MaxPages && old(f.queue) == [] ==>
              step == QueueDrained && f.queue == [] && f.seen == old(f.seen)
              && f.enqueued == old(f.enqueued) && f.seenOrder == old(f.seenOrder)
    ensures |old(f.seen)| < MaxPages && old(f.queue) != [] && old(f.queue)[0] in old(f.seen) ==>
              step == AlreadySeen(old(f.queue)[0]) && f.queue == old(f.queue)[1..] && f.seen == old(f.seen)
              && f.enqueued == old(f.enqueued) && f.seenOrder == old(f.seenOrder)
    ensures |old(f.seen)| < MaxPages && old(f.queue) != [] && old(f.queue)[0] !in old(f.seen) ==>
              var url := old(f.queue)[0];
              && step == Visited(url)
              && f.seen == old(f.seen)[url := VisitOf(render, url, crawledAt)]
              && f.seenOrder == old(f.seenOrder) + [url]
              && f.enqueued == old(f.enqueued) + (links(url) - f.seen.Keys)
              && |old(f.queue)| - 1 <= |f.queue|
              && f.queue[..|old(f.queue)| - 1] == old(f.queue)[1..]
              && Elements(f.queue[|old(f.queue)| - 1..]) == f.enqueued - old(f.enqueued)
  {
    var seenCount := f.SeenCount();
    if seenCount >= MaxPages {
      return CapReached;
    }
    var next := f.Dequeue();
    if next.None? {
      var queued := f.QueueCount();
      assert queued == 0;
      return QueueDrained;
    }
    var url := next.value;
    var seen := f.IsSeen(url);
    if seen {
      return AlreadySeen(url);
    }
    var discovered, response := RenderAndExtract(render(url));
    f.MarkSeen(url, StatusOf(response), LastModifiedOf(response), crawledAt);
    EnqueueDiscovered(f, discovered);
    step := Visited(url);
  }

  /**
   * Nothing is lost between passes: every enqueued URL is seen or still
   * queued, no queued URL is seen, and every link of a seen URL is seen or
   * enqueued.
   */
  ghost predicate SettledState(queue: seq<Url>, seen: map<Url, VisitRecord>, enqueued: set<Url>, links: Url -> set<Url>) {
    && (forall u :: u in enqueued ==> u in seen || u in queue)
    && (forall u :: u in queue ==> u !in seen)
    && (forall u, v :: u in seen && v in links(u) ==> v in seen || v in enqueued)
  }

  ghost predicate Settled(f: MemoryFrontier, links: Url -> set<Url>)
    reads f
  {
    SettledState(f.queue, f.seen, f.enqueued, links)
  }

  /** Seeding an empty frontier through `enqueue_if_new` leaves it settled. */
  lemma SeededIsSettled(f: MemoryFrontier, links: Url -> set<Url>)
    requires f.Valid() && f.seen == map[] && f.queue == f.appended
    ensures Settled(f, links)
  {
  }

  /** A URL in the tail of a list without repetitions is not its head. */
  lemma TailNotHead(q: seq<Url>, u: Url)
    requires q != [] && NoDuplicates(q) && u in q[1..]
    ensures u != q[0]
  {
    var i :| 0 <= i < |q[1..]| && q[1..][i] == u;
    assert q[i + 1] == u;
  }

  /** In a settled state with an empty queue, every link of a seen URL is seen. */
  lemma DrainedIsClosed(queue: seq<Url>, seen: map<Url, VisitRecord>, enqueued: set<Url>, links: Url -> set<Url>)
    requires SettledState(queue, seen, enqueued, links) && queue == []
    ensures forall u, v :: u in seen && v in links(u) ==> v in seen
  {
  }

  /** In a settled state the head of the queue is never seen: one worker never skips a URL. */
  lemma HeadNeverSeen(f: MemoryFrontier, links: Url -> set<Url>)
    requires Settled(f, links) && f.queue != []
    ensures f.queue[0] !in f.seen
  {
    assert f.queue[0] in f.queue;
  }

  /** A visit keeps the state settled. */
  lemma VisitKeepsSettled(queue0: seq<Url>, seen0: map<Url, VisitRecord>, enqueued0: set<Url>,
                          queue1: seq<Url>, seen1: map<Url, VisitRecord>, enqueued1: set<Url>,
                          links: Url -> set<Url>)
    requires SettledState(queue0, seen0, enqueued0, links)
    requires NoDuplicates(queue0) && queue0 != [] && queue0[0] !in seen0
    requires seen1.Keys == seen0.Keys + {queue0[0]}
    requires enqueued1 == enqueued0 + (links(queue0[0]) - seen1.Keys)
    requires |queue0| - 1 <= |queue1| && queue1[..|queue0| - 1] == queue0[1..]
    requires Elements(queue1[|queue0| - 1..]) == enqueued1 - enqueued0
    ensures SettledState(queue1, seen1, enqueued1, links)
  {
    var url := queue0[0];
    var k := |queue0| - 1;
    assert queue1 == queue0[1..] + queue1[k..];
    forall u | u in enqueued1 && u !in seen1 ensures u in queue1 {
      if u in enqueued0 {
        assert u in queue0 && u != queue0[0];
        var i :| 0 <= i < |queue0| && queue0[i] == u;
        assert queue0[1..][i - 1] == u;
      } else {
        assert u in Elements(queue1[k..]);
      }
    }
    forall u | u in queue1 ensures u !in seen1 {
      if u in queue0[1..] {
        TailNotHead(queue0, u);
      } else {
        assert u in Elements(queue1[k..]);
      }
    }
  }

  /**
   * What a run keeps from state A to state B: earlier records are never
   * touched, the seen order only grows at its end, only enqueued URLs
   * become seen, nothing leaves the enqueued set, and every URL enqueued
   * since A is a link of a seen URL.
   */
  ghost predicate Grown(seenA: map<Url, VisitRecord>, orderA: seq<Url>, enqueuedA: set<Url>,
                        seenB: map<Url, VisitRecord>, orderB: seq<Url>, enqueuedB: set<Url>,
                        links: Url -> set<Url>)
  {
    && (forall u :: u in seenA ==> u in seenB && seenB[u] == seenA[u])
    && |orderA| <= |orderB| && orderB[..|orderA|] == orderA
    && seenB.Keys <= seenA.Keys + enqueuedB
    && enqueuedA <= enqueuedB
    && (forall u :: u in enqueuedB - enqueuedA ==> exists v :: v in seenB && u in links(v))
  }

  /** A visit of an enqueued, unseen URL extends what a run keeps. */
  lemma VisitGrows(seenA: map<Url, VisitRecord>, orderA: seq<Url>, enqueuedA: set<Url>,
                   seenB: map<Url, VisitRecord>, orderB: seq<Url>, enqueuedB: set<Url>,
                   seenC: map<Url, VisitRecord>, orderC: seq<Url>, enqueuedC: set<Url>,
                   url: Url, r: VisitRecord, links: Url -> set<Url>)
    requires Grown(seenA, orderA, enqueuedA, seenB, orderB, enqueuedB, links)
    requires url !in seenB && url in enqueuedB
    requires seenC == seenB[url := r] && orderC == orderB + [url]
    requires enqueuedC == enqueuedB + (links(url) - seenC.Keys)
    ensures Grown(seenA, orderA, enqueuedA, seenC, orderC, enqueuedC, links)
  {
    assert orderC[..|orderA|] == orderB[..|orderA|];
    forall u | u in enqueuedC - enqueuedA ensures exists v :: v in seenC && u in links(v) {
      if u !in enqueuedB {
        assert url in seenC && u in links(url);
      } else {
        assert u in enqueuedB - enqueuedA;
        var v :| v in seenB && u in links(v);
        assert v in seenC;
      }
    }
  }

  /** One visit keeps a settled state settled and extends what the run keeps since state A. */
  lemma VisitStep(seenA: map<Url, VisitRecord>, orderA: seq<Url>, enqueuedA: set<Url>,
                  queue0: seq<Url>, seen0: map<Url, VisitRecord>, enqueued0: set<Url>, order0: seq<Url>,
                  queue1: seq<Url>, seen1: map<Url, VisitRecord>, enqueued1: set<Url>, order1: seq<Url>,
                  r: VisitRecord, links: Url -> set<Url>)
    requires Grown(seenA, orderA, enqueuedA, seen0, order0, enqueued0, links)
    requires NoDuplicates(queue0) && queue0 != [] && queue0[0] !in seen0 && queue0[0] in enqueued0
    requires seen1 == seen0[queue0[0] := r] && order1 == order0 + [queue0[0]]
    requires enqueued1 == enqueued0 + (links(queue0[0]) - seen1.Keys)
    requires |queue0| - 1 <= |queue1| && queue1[..|queue0| - 1] == queue0[1..]
    requires Elements(queue1[|queue0| - 1..]) == enqueued1 - enqueued0
    ensures SettledState(queue0, seen0, enqueued0, links) ==> SettledState(queue1, seen1, enqueued1, links)
    ensures Grown(seenA, orderA, enqueuedA, seen1, order1, enqueued1, links)
  {
    if SettledState(queue0, seen0, enqueued0, links) {
      VisitKeepsSettled(queue0, seen0, enqueued0, queue1, seen1, enqueued1, links);
    }
    VisitGrows(seenA, orderA, enqueuedA, seen0, order0, enqueued0, seen1, order1, enqueued1, queue0[0], r, links);
  }

  /**
   * The `while True` loop of one worker. It stops at the page cap or with
   * an empty queue, after skipping the seen URLs it dequeues and visiting
   * the others. Each visit adds one seen URL, earlier records are never
   * touched, at most `MaxPages` URLs are seen unless more were seen at the
   * start, only enqueued URLs are visited, and every URL enqueued along the
   * way is a link of a seen URL. From a settled frontier (such as a freshly
   * seeded one) the frontier stays settled, and an empty queue at the end
   * means every link of every seen URL is seen. `links(u)` stands for what
   * visiting `u` discovers, and `clock(i)` is the timestamp of the i-th visit.
   */
  method Worker(f: MemoryFrontier, render: Url -> Page, ghost links: Url -> set<Url>, clock: nat -> string)
    returns (visits: nat)
    requires f.Valid() && Renders(render, links)
    modifies f
    ensures f.Valid()
    ensures |f.seen| >= MaxPages || f.queue == []
    ensures old(Settled(f, links)) ==>
              && Settled(f, links)
              && (f.queue == [] ==> forall u, v :: u in f.seen && v in links(u) ==> v in f.seen)
    ensures |f.seen| == |old(f.seen)| + visits
    ensures |f.seen| <= if |old(f.seen)| <= MaxPages then MaxPages else |old(f.seen)|
    ensures forall u :: u in old(f.seen) ==> u in f.seen && f.seen[u] == old(f.seen)[u]
    ensures |old(f.seenOrder)| <= |f.seenOrder| && f.seenOrder[..|old(f.seenOrder)|] == old(f.seenOrder)
    ensures f.seen.Keys <= old(f.seen).Keys + f.enqueued
    ensures old(f.enqueued) <= f.enqueued
    ensures forall u :: u in f.enqueued - old(f.enqueued) ==> exists v :: v in f.seen && u in links(v)
  {
    ghost var settled := Settled(f, links);
    ghost var seenA, orderA, enqueuedA := f.seen, f.seenOrder, f.enqueued;
    visits := 0;
    var done := false;
    while !done
      invariant f.Valid()
      invariant settled ==> Settled(f, links)
      invariant |f.seen| == |seenA| + visits
      invariant |f.seen| <= if |seenA| <= MaxPages then MaxPages else |seenA|
      invariant Grown(seenA, orderA, enqueuedA, f.seen, f.seenOrder, f.enqueued, links)
      invariant done ==> |f.seen| >= MaxPages || f.queue == []
      decreases !done, if |f.seen| <= MaxPages then MaxPages - |f.seen| else 0, |f.queue|
    {
      var visited;
      done, visited := Round(f, render, links, clock(visits), settled, seenA, orderA, enqueuedA);
      if visited {
        visits := visits + 1;
      }
    }
    if settled && f.queue == [] {
      DrainedIsClosed(f.queue, f.seen, f.enqueued, links);
    }
  }

  /**
   * One pass of the loop stated against the run so far: a settled frontier
   * stays settled, what the run keeps since state A is kept, and the pass
   * either stops the loop, visits one URL below the cap, or drops a seen
   * head without changing anything else. It is the body of `Worker`'s loop,
   * and its contract is that loop's invariant; the ghost parameters are the
   * loop's progress (whether the run started settled, and state A).
   */
  method Round(f: MemoryFrontier, render: Url -> Page, ghost links: Url -> set<Url>, crawledAt: string,
               ghost settled: bool, ghost seenA: map<Url, VisitRecord>, ghost orderA: seq<Url>,
               ghost enqueuedA: set<Url>)
    returns (done: bool, visited: bool)
    requires f.Valid() && Renders(render, links)
    requires settled ==> Settled(f, links)
    requires Grown(seenA, orderA, enqueuedA, f.seen, f.seenOrder, f.enqueued, links)
    modifies f
    ensures f.Valid()
    ensures settled ==> Settled(f, links)
    ensures Grown(seenA, orderA, enqueuedA, f.seen, f.seenOrder, f.enqueued, links)
    ensures done ==> !visited && (|f.seen| >= MaxPages || f.queue == [])
    ensures visited ==> |old(f.seen)| < MaxPages && |f.seen| == |old(f.seen)| + 1
    ensures !visited ==> |f.seen| == |old(f.seen)|
    ensures !done && !visited ==> |f.queue| < |old(f.queue)|
  {
    ghost var queue0, seen0, enqueued0, order0 := f.queue, f.seen, f.enqueued, f.seenOrder;
    f.QueueNoDuplicates();
    var step := Iterate(f, render, links, crawledAt);
    done := step.CapReached? || step.QueueDrained?;
    visited := step.Visited?;
    RoundStep(seenA, orderA, enqueuedA, settled, queue0, seen0, enqueued0, order0,
              f.queue, f.seen, f.enqueued, f.seenOrder, step, links);
  }

  /**
   * The effect of one pass on what the run keeps. Its requires are
   * `Iterate`'s ensures over plain values (state 0 before the pass, state 1
   * after it), with the visit record left open, so the reasoning about the
   * run happens apart from the frontier object.
   */
  lemma RoundStep(seenA: map<Url, VisitRecord>, orderA: seq<Url>, enqueuedA: set<Url>, settled: bool,
                  queue0: seq<Url>, seen0: map<Url, VisitRecord>, enqueued0: set<Url>, order0: seq<Url>,
                  queue1: seq<Url>, seen1: map<Url, VisitRecord>, enqueued1: set<Url>, order1: seq<Url>,
                  step: Step, links: Url -> set<Url>)
    requires settled ==> SettledState(queue0, seen0, enqueued0, links)
    requires Grown(seenA, orderA, enqueuedA, seen0, order0, enqueued0, links)
    requires NoDuplicates(queue0) && forall u :: u in queue0 ==> u in enqueued0
    requires |seen0| >= MaxPages ==>
               step == CapReached && queue1 == queue0 && seen1 == seen0 && enqueued1 == enqueued0 && order1 == order0
    requires |seen0| < MaxPages && queue0 == [] ==>
               step == QueueDrained && queue1 == [] && seen1 == seen0 && enqueued1 == enqueued0 && order1 == order0
    requires |seen0| < MaxPages && queue0 != [] && queue0[0] in seen0 ==>
               step == AlreadySeen(queue0[0]) && queue1 == queue0[1..] && seen1 == seen0
               && enqueued1 == enqueued0 && order1 == order0
    requires |seen0| < MaxPages && queue0 != [] && queue0[0] !in seen0 ==>
               var url := queue0[0];
               && step == Visited(url)
               && url in seen1 && seen1 == seen0[url := seen1[url]]
               && order1 == order0 + [url]
               && enqueued1 == enqueued0 + (links(url) - seen1.Keys)
               && |queue0| - 1 <= |queue1|
               && queue1[..|queue0| - 1] == queue0[1..]
               && Elements(queue1[|queue0| - 1..]) == enqueued1 - enqueued0
    ensures settled ==> SettledState(queue1, seen1, enqueued1, links)
    ensures Grown(seenA, orderA, enqueuedA, seen1, order1, enqueued1, links)
    ensures step.CapReached? || step.QueueDrained? ==> |seen1| >= MaxPages || queue1 == []
    ensures step.Visited? ==> |seen0| < MaxPages && |seen1| == |seen0| + 1
    ensures !step.Visited? ==> |seen1| == |seen0|
    ensures step.AlreadySeen? ==> |queue1| < |queue0|
  {
    if |seen0| < MaxPages && queue0 != [] {
      var url := queue0[0];
      assert url in queue0;
      if url in seen0 {
        if settled {
          assert false;
        }
      } else {
        VisitStep(seenA, orderA, enqueuedA, queue0, seen0, enqueued0, order0,
                  queue1, seen1, enqueued1, order1, seen1[url], links);
      }
    }
  }
}
