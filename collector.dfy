/**
 The pagination loop of `SteamReviewFetcher.collect_reviews`: a cursor walked
 for `total // 100` iterations over a file cache, with every request, cache
 write and delay recorded as an event.
 */
module Collector {
  import opened Reviews

  const ReviewsPerPage: nat := 100
  const InitialCursor: string := "*"

  /** What the fetcher does to the outside world, in order. */
  datatype Event = Fetch(cursor: string) | Write(path: Path) | Sleep(seconds: real)

  datatype Result<T> = Success(value: T) | Failure(error: string)

  /** How a call of `collect_reviews` ends: normally, or with the probe's RuntimeError. */
  datatype Outcome = Completed | Raised(error: string)

  /** The count probe's reading of its response: a total on `ok`, an error otherwise. */
  function TotalNrOfReviews(response: Response): (r: Result<int>)
    ensures r.Success? <==> response.ok
    ensures r.Success? ==> r.value == response.json.querySummary.totalReviews
  {
    if response.ok then Success(response.json.querySummary.totalReviews)
    else Failure("Got a response instead of 200 OK")
  }

  /** Python's `len(range(n // 100))`: the whole pages in `n`; the remainder is dropped. */
  function PageCount(n: int): (k: nat)
    ensures n >= 0 ==> k * ReviewsPerPage <= n < (k + 1) * ReviewsPerPage
    ensures n < ReviewsPerPage ==> k == 0
  {
    if n < 0 then 0 else n / ReviewsPerPage
  }

  lemma PageCountOf250()
    ensures PageCount(250) == 2
  {
  }

  /** The cursor recovered from the cached page of `cursor`, escaped for reuse. */
  function GetCursorFromFile(settings: Settings, files: map<Path, Page>, cursor: string): string
    requires GetFilepath(settings, cursor) in files
  {
    settings.libs.quote(files[GetFilepath(settings, cursor)].cursor)
  }

  /** The loop's state between two iterations. `requests` counts the requests issued so far. */
  datatype Progress = Progress(cursor: string, files: map<Path, Page>, trace: seq<Event>, requests: nat)

  predicate CacheHit(settings: Settings, s: Progress)
  {
    GetFilepath(settings, s.cursor) in s.files
  }

  /** Whether the iteration from `s` writes a file: a miss answered `ok` with `success == 1`. */
  predicate Stores(settings: Settings, network: Network, s: Progress)
  {
    !CacheHit(settings, s) && network(s.requests).ok && network(s.requests).json.success == 1
  }

  /**
   The cursor after one iteration: read back from the cache on a hit, taken
   from any `ok` response (whatever its `success`), kept on a failed request.
   */
  function NextCursor(settings: Settings, network: Network, s: Progress): string
  {
    if CacheHit(settings, s) then GetCursorFromFile(settings, s.files, s.cursor)
    else if network(s.requests).ok then settings.libs.quote(network(s.requests).json.cursor)
    else s.cursor
  }

  /** The files after one iteration: the page is stored, under the path of the old cursor, only when it `Stores`. */
  function NextFiles(settings: Settings, network: Network, s: Progress): map<Path, Page>
  {
    if Stores(settings, network, s) then s.files[GetFilepath(settings, s.cursor) := network(s.requests).json]
    else s.files
  }

  /** The events one iteration appends to the trace: nothing on a hit, else fetch, maybe write, then sleep. */
  function StepEvents(settings: Settings, network: Network, s: Progress): seq<Event>
  {
    if CacheHit(settings, s) then []
    else if Stores(settings, network, s)
    then [Fetch(s.cursor), Write(GetFilepath(settings, s.cursor)), Sleep(settings.delayS)]
    else [Fetch(s.cursor), Sleep(settings.delayS)]
  }

  /** The requests one iteration issues: none on a hit. */
  function StepRequests(settings: Settings, s: Progress): nat
  {
    if CacheHit(settings, s) then 0 else 1
  }

  /** One pass through the body of the `for` loop of `collect_reviews`, field by field. */
  function Iteration(settings: Settings, network: Network, s: Progress): Progress
  {
    Progress(
      NextCursor(settings, network, s),
      NextFiles(settings, network, s),
      s.trace + StepEvents(settings, network, s),
      s.requests + StepRequests(settings, s))
  }

  /** The state after `k` iterations from `start`. */
  function Loop(settings: Settings, network: Network, start: Progress, k: nat): Progress
  {
    if k == 0 then start else Iteration(settings, network, Loop(settings, network, start, k - 1))
  }

  // ---------------------------------------------------------------------
  // One iteration, case by case

  /** A hit reads the stored page's cursor and does nothing else: no fetch, no write, no sleep. */
  lemma HitIteration(settings: Settings, network: Network, s: Progress)
    requires CacheHit(settings, s)
    ensures var t := Iteration(settings, network, s);
      t.cursor == settings.libs.quote(s.files[GetFilepath(settings, s.cursor)].cursor) &&
      t.files == s.files && t.trace == s.trace && t.requests == s.requests
  {
  }

  /** A transport failure keeps the cursor, writes nothing and sleeps once. */
  lemma NotOkIteration(settings: Settings, network: Network, s: Progress)
    requires !CacheHit(settings, s) && !network(s.requests).ok
    ensures var t := Iteration(settings, network, s);
      t.cursor == s.cursor && t.files == s.files && t.requests == s.requests + 1 &&
      t.trace == s.trace + [Fetch(s.cursor), Sleep(settings.delayS)]
  {
  }

  /** After a transport failure, the next iteration requests the same cursor again. */
  lemma NotOkRetriesSameCursor(settings: Settings, network: Network, s: Progress)
    requires !CacheHit(settings, s) && !network(s.requests).ok
    ensures var u := Iteration(settings, network, Iteration(settings, network, s));
      |u.trace| > |s.trace| + 2 && u.trace[|s.trace| + 2] == Fetch(s.cursor)
  {
    NotOkIteration(settings, network, s);
  }

  /**
   An `ok` response whose `success` is not 1 writes nothing and sleeps once, but
   the cursor still moves on to the response's cursor.
   */
  lemma UnsuccessfulIteration(settings: Settings, network: Network, s: Progress)
    requires !CacheHit(settings, s) && network(s.requests).ok && network(s.requests).json.success != 1
    ensures var t := Iteration(settings, network, s);
      t.cursor == settings.libs.quote(network(s.requests).json.cursor) &&
      t.files == s.files && t.requests == s.requests + 1 &&
      t.trace == s.trace + [Fetch(s.cursor), Sleep(settings.delayS)]
  {
  }

  /**
   A successful page is stored, whole, under the path of the cursor it was
   fetched with; the cursor then moves on to the page's cursor.
   */
  lemma SuccessfulIteration(settings: Settings, network: Network, s: Progress)
    requires !CacheHit(settings, s) && network(s.requests).ok && network(s.requests).json.success == 1
    ensures var t := Iteration(settings, network, s);
      var path := GetFilepath(settings, s.cursor);
      path !in s.files &&
      t.files == s.files[path := network(s.requests).json] &&
      t.cursor == settings.libs.quote(network(s.requests).json.cursor) &&
      t.requests == s.requests + 1 &&
      t.trace == s.trace + [Fetch(s.cursor), Write(path), Sleep(settings.delayS)]
  {
  }

  // ---------------------------------------------------------------------
  // Whole runs

  /** The loop unfolds from the front as well as from the back. */
  lemma {:induction false} LoopFront(settings: Settings, network: Network, s: Progress, k: nat)
    ensures Loop(settings, network, s, k + 1) == Loop(settings, network, Iteration(settings, network, s), k)
  {
    if k > 0 {
      LoopFront(settings, network, s, k - 1);
    }
  }

  // Single facts about one iteration, each kept apart so that a proof sees only the one it needs.

  lemma StepTrace(settings: Settings, network: Network, s: Progress)
    ensures Iteration(settings, network, s).trace == s.trace + StepEvents(settings, network, s)
  {
  }

  /** Iteration `k` keeps every file there was, and never lowers the request count. */
  lemma StepKeepsFiles(settings: Settings, network: Network, s: Progress, k: nat)
    requires k > 0
    ensures var prev, t := Loop(settings, network, s, k - 1), Loop(settings, network, s, k);
      prev.requests <= t.requests && forall p :: p in prev.files ==> p in t.files && t.files[p] == prev.files[p]
  {
  }

  /** The file iteration `k` adds, if any, is the path of its `Write` event. */
  lemma StepWrites(settings: Settings, network: Network, s: Progress, k: nat)
    requires k > 0
    ensures var prev, t := Loop(settings, network, s, k - 1), Loop(settings, network, s, k);
      forall p :: (p in t.files && p !in prev.files) <==> Write(p) in StepEvents(settings, network, prev)
  {
  }

  /** The file iteration `k` adds holds the successful response to its one request. */
  lemma StepStoresResponse(settings: Settings, network: Network, s: Progress, k: nat)
    requires k > 0
    ensures var prev, t := Loop(settings, network, s, k - 1), Loop(settings, network, s, k);
      forall p :: p in t.files && p !in prev.files ==>
        t.requests == prev.requests + 1 && network(prev.requests).ok &&
        t.files[p] == network(prev.requests).json && t.files[p].success == 1
  {
  }

  /** One iteration appends as many fetches as sleeps, and as many as it issues requests. */
  lemma StepCounts(settings: Settings, network: Network, s: Progress)
    ensures var delta := StepEvents(settings, network, s);
      Fetches(delta) == Sleeps(delta) == Iteration(settings, network, s).requests - s.requests
  {
    var delta := StepEvents(settings, network, s);
    if !CacheHit(settings, s) {
      var f := Fetch(s.cursor);
      var z := Sleep(settings.delayS);
      assert [f][..0] == [];
      assert Fetches([f]) == 1 && Sleeps([f]) == 0;
      if Stores(settings, network, s) {
        var w := Write(GetFilepath(settings, s.cursor));
        assert [f, w][..1] == [f];
        assert Fetches([f, w]) == 1 && Sleeps([f, w]) == 0;
        assert delta == [f, w, z] && delta[..2] == [f, w];
      } else {
        assert delta == [f, z] && delta[..1] == [f];
      }
    }
  }

  /** An iteration is a hit or a fetch, never both. */
  lemma StepHitOrFetch(settings: Settings, network: Network, s: Progress)
    ensures CacheHit(settings, s) ==> Fetches(StepEvents(settings, network, s)) == 0
    ensures !CacheHit(settings, s) ==> Fetches(StepEvents(settings, network, s)) == 1
  {
    StepCounts(settings, network, s);
  }

  /** The events the first `k` iterations append, in order. */
  function RunEvents(settings: Settings, network: Network, s: Progress, k: nat): seq<Event>
  {
    if k == 0 then []
    else RunEvents(settings, network, s, k - 1) + StepEvents(settings, network, Loop(settings, network, s, k - 1))
  }

  /** A run only appends to the trace: what it appends is `RunEvents`. */
  lemma {:induction false} TraceIsRunEvents(settings: Settings, network: Network, s: Progress, k: nat)
    ensures Loop(settings, network, s, k).trace == s.trace + RunEvents(settings, network, s, k)
  {
    if k > 0 {
      TraceIsRunEvents(settings, network, s, k - 1);
      StepTrace(settings, network, Loop(settings, network, s, k - 1));
      var rest := RunEvents(settings, network, s, k - 1);
      var step := StepEvents(settings, network, Loop(settings, network, s, k - 1));
      assert (s.trace + rest) + step == s.trace + (rest + step);
    } else {
      assert s.trace + [] == s.trace;
    }
  }

  /** A run never issues fewer requests, and never overwrites or deletes a file. */
  lemma {:induction false} FilesKept(settings: Settings, network: Network, s: Progress, k: nat)
    ensures var t := Loop(settings, network, s, k);
      s.requests <= t.requests &&
      forall p :: p in s.files ==> p in t.files && t.files[p] == s.files[p]
  {
    if k > 0 {
      FilesKept(settings, network, s, k - 1);
      StepKeepsFiles(settings, network, s, k);
    }
  }

  /** A run keeps every file unchanged, only appends to the trace, and never lowers the request count. */
  lemma FilesNeverOverwritten(settings: Settings, network: Network, s: Progress, k: nat)
    ensures var t := Loop(settings, network, s, k);
      s.requests <= t.requests && s.trace <= t.trace &&
      forall p :: p in s.files ==> p in t.files && t.files[p] == s.files[p]
  {
    TraceIsRunEvents(settings, network, s, k);
    FilesKept(settings, network, s, k);
  }

  /** The files a run adds are exactly the paths of the `Write` events it appends. */
  lemma {:induction false} WritesAreNewFiles(settings: Settings, network: Network, s: Progress, k: nat)
    ensures var t := Loop(settings, network, s, k);
      forall p :: (p in t.files && p !in s.files) <==> Write(p) in RunEvents(settings, network, s, k)
  {
    if k > 0 {
      var prev := Loop(settings, network, s, k - 1);
      var t := Loop(settings, network, s, k);
      WritesAreNewFiles(settings, network, s, k - 1);
      FilesKept(settings, network, s, k - 1);
      StepKeepsFiles(settings, network, s, k);
      StepWrites(settings, network, s, k);
      WritesCompose(s.files, prev.files, t.files,
        RunEvents(settings, network, s, k - 1), StepEvents(settings, network, prev));
    }
  }

  /** Two growing steps whose new paths are the writes of each compose into one. */
  lemma WritesCompose<V>(a: map<Path, V>, b: map<Path, V>, c: map<Path, V>, first: seq<Event>, second: seq<Event>)
    requires forall p :: p in a ==> p in b
    requires forall p :: p in b ==> p in c
    requires forall p :: (p in b && p !in a) <==> Write(p) in first
    requires forall p :: (p in c && p !in b) <==> Write(p) in second
    ensures forall p :: (p in c && p !in a) <==> Write(p) in first + second
  {
    forall p ensures (p in c && p !in a) <==> Write(p) in first + second {
      assert Write(p) in first + second <==> Write(p) in first || Write(p) in second;
    }
  }

  /** There is such a response: one of requests `lo` to `hi - 1` was answered `ok` with `page`. */
  ghost predicate StoredFrom(network: Network, lo: nat, hi: nat, page: Page)
  {
    exists j :: lo <= j < hi && network(j).ok && network(j).json == page
  }

  /** Every file a run adds holds, whole, a successful response the run received. */
  lemma {:induction false} NewFilesAreResponses(settings: Settings, network: Network, s: Progress, k: nat)
    ensures var t := Loop(settings, network, s, k);
      forall p :: p in t.files && p !in s.files ==>
        t.files[p].success == 1 && StoredFrom(network, s.requests, t.requests, t.files[p])
  {
    if k > 0 {
      var prev := Loop(settings, network, s, k - 1);
      var t := Loop(settings, network, s, k);
      NewFilesAreResponses(settings, network, s, k - 1);
      FilesKept(settings, network, s, k - 1);
      StepKeepsFiles(settings, network, s, k);
      StepStoresResponse(settings, network, s, k);
      ResponsesCompose(network, s.files, prev.files, t.files, s.requests, prev.requests, t.requests);
    }
  }

  /** Two growing steps, each adding only stored responses to its own requests, compose into one. */
  lemma ResponsesCompose(network: Network, a: map<Path, Page>, b: map<Path, Page>, c: map<Path, Page>,
                         lo: nat, mid: nat, hi: nat)
    requires lo <= mid && mid <= hi
    requires forall p :: p in a ==> p in b && b[p] == a[p]
    requires forall p :: p in b ==> p in c && c[p] == b[p]
    requires forall p :: p in b && p !in a ==> b[p].success == 1 && StoredFrom(network, lo, mid, b[p])
    requires forall p :: p in c && p !in b ==>
      hi == mid + 1 && network(mid).ok && c[p] == network(mid).json && c[p].success == 1
    ensures forall p :: p in c && p !in a ==> c[p].success == 1 && StoredFrom(network, lo, hi, c[p])
  {
    forall p | p in c && p !in a ensures c[p].success == 1 && StoredFrom(network, lo, hi, c[p]) {
      if p in b {
        var j :| lo <= j < mid && network(j).ok && network(j).json == b[p];
      } else {
        assert network(mid).json == c[p];
      }
    }
  }

  /** Number of events of each kind. */
  function Fetches(events: seq<Event>): nat
  {
    if events == [] then 0 else Fetches(events[..|events| - 1]) + (if events[|events| - 1].Fetch? then 1 else 0)
  }

  function Sleeps(events: seq<Event>): nat
  {
    if events == [] then 0 else Sleeps(events[..|events| - 1]) + (if events[|events| - 1].Sleep? then 1 else 0)
  }

  lemma {:induction false} CountsAppend(a: seq<Event>, b: seq<Event>)
    ensures Fetches(a + b) == Fetches(a) + Fetches(b)
    ensures Sleeps(a + b) == Sleeps(a) + Sleeps(b)
  {
    if b == [] {
      assert a + b == a;
    } else {
      CountsAppend(a, b[..|b| - 1]);
      assert (a + b)[..|a + b| - 1] == a + b[..|b| - 1];
      assert (a + b)[|a + b| - 1] == b[|b| - 1];
    }
  }

  /** The counts over `k` iterations are those over `k - 1` plus those of the last one. */
  lemma RunCountsStep(settings: Settings, network: Network, s: Progress, k: nat)
    requires k > 0
    ensures var rest := RunEvents(settings, network, s, k - 1);
      var step := StepEvents(settings, network, Loop(settings, network, s, k - 1));
      Fetches(RunEvents(settings, network, s, k)) == Fetches(rest) + Fetches(step) &&
      Sleeps(RunEvents(settings, network, s, k)) == Sleeps(rest) + Sleeps(step)
  {
    CountsAppend(RunEvents(settings, network, s, k - 1), StepEvents(settings, network, Loop(settings, network, s, k - 1)));
  }

  /** Iterations of the first `k` that were cache hits. */
  ghost function Hits(settings: Settings, network: Network, s: Progress, k: nat): nat
  {
    if k == 0 then 0
    else Hits(settings, network, s, k - 1) + (if CacheHit(settings, Loop(settings, network, s, k - 1)) then 1 else 0)
  }

  lemma {:induction false} FetchesAreRequests(settings: Settings, network: Network, s: Progress, k: nat)
    ensures var events := RunEvents(settings, network, s, k);
      Fetches(events) == Sleeps(events) == Loop(settings, network, s, k).requests - s.requests
  {
    if k > 0 {
      FetchesAreRequests(settings, network, s, k - 1);
      RunCountsStep(settings, network, s, k);
      StepCounts(settings, network, Loop(settings, network, s, k - 1));
    }
  }

  lemma {:induction false} HitsAndFetches(settings: Settings, network: Network, s: Progress, k: nat)
    ensures Hits(settings, network, s, k) + Fetches(RunEvents(settings, network, s, k)) == k
  {
    if k > 0 {
      HitsAndFetches(settings, network, s, k - 1);
      RunCountsStep(settings, network, s, k);
      StepHitOrFetch(settings, network, Loop(settings, network, s, k - 1));
    }
  }

  /**
   Every iteration is either a cache hit, with no event at all, or exactly one
   request followed by exactly one sleep: hits plus fetches make `k`, and there
   are as many sleeps as fetches.
   */
  lemma IterationAccounting(settings: Settings, network: Network, s: Progress, k: nat)
    ensures var t := Loop(settings, network, s, k);
      var events := RunEvents(settings, network, s, k);
      Fetches(events) == Sleeps(events) == t.requests - s.requests &&
      Hits(settings, network, s, k) + Fetches(events) == k
  {
    FetchesAreRequests(settings, network, s, k);
    HitsAndFetches(settings, network, s, k);
  }

  /** Every cursor the first `k` iterations reach is already cached. */
  ghost predicate AllHits(settings: Settings, network: Network, s: Progress, k: nat)
  {
    forall j :: 0 <= j < k ==> CacheHit(settings, Loop(settings, network, s, j))
  }

  /** When every cursor reached is cached, a run issues no request and writes and sleeps not at all. */
  lemma {:induction false} AllHitsNoEffect(settings: Settings, network: Network, s: Progress, k: nat)
    requires AllHits(settings, network, s, k)
    ensures var t := Loop(settings, network, s, k);
      t.files == s.files && t.trace == s.trace && t.requests == s.requests
  {
    if k > 0 {
      assert AllHits(settings, network, s, k - 1);
      AllHitsNoEffect(settings, network, s, k - 1);
      assert CacheHit(settings, Loop(settings, network, s, k - 1));
    }
  }

  /** No iteration of the first `k` met a failed or unsuccessful response. */
  ghost predicate NoFailures(settings: Settings, network: Network, s: Progress, k: nat)
  {
    forall j :: 0 <= j < k ==> CacheHit(settings, Loop(settings, network, s, j)) || Stores(settings, network, Loop(settings, network, s, j))
  }

  lemma NoFailuresTail(settings: Settings, network: Network, s: Progress, k: nat)
    requires k > 0 && NoFailures(settings, network, s, k)
    ensures CacheHit(settings, s) || Stores(settings, network, s)
    ensures NoFailures(settings, network, Iteration(settings, network, s), k - 1)
  {
    assert Loop(settings, network, s, 0) == s;
    forall j | 0 <= j < k - 1
      ensures var u := Loop(settings, network, Iteration(settings, network, s), j);
        CacheHit(settings, u) || Stores(settings, network, u)
    {
      LoopFront(settings, network, s, j);
    }
  }

  lemma AllHitsCons(settings: Settings, network: Network, r: Progress, k: nat)
    requires k > 0 && CacheHit(settings, r) && AllHits(settings, network, Iteration(settings, network, r), k - 1)
    ensures AllHits(settings, network, r, k)
  {
    forall j | 0 <= j < k ensures CacheHit(settings, Loop(settings, network, r, j)) {
      if j > 0 {
        LoopFront(settings, network, r, j - 1);
      }
    }
  }

  /** After a hit or a stored page, the new cursor is the one the file of the old cursor holds. */
  lemma NextCursorIsStored(settings: Settings, network: Network, s: Progress)
    requires CacheHit(settings, s) || Stores(settings, network, s)
    ensures var t := Iteration(settings, network, s);
      var path := GetFilepath(settings, s.cursor);
      path in t.files && t.cursor == settings.libs.quote(t.files[path].cursor)
  {
  }

  /** `files` holds every entry of `m`, unchanged. */
  ghost predicate Covers(files: map<Path, Page>, m: map<Path, Page>)
  {
    forall p :: p in m ==> p in files && files[p] == m[p]
  }

  /** One step of the rerun keeps pace with the first run. */
  lemma RerunStep(settings: Settings, network: Network, s: Progress, k: nat, again: Network, r: Progress)
    requires k > 0 && NoFailures(settings, network, s, k)
    requires r.cursor == s.cursor && Covers(r.files, Loop(settings, network, s, k).files)
    ensures NoFailures(settings, network, Iteration(settings, network, s), k - 1)
    ensures CacheHit(settings, r)
    ensures Iteration(settings, again, r) == r.(cursor := Iteration(settings, network, s).cursor)
    ensures Covers(r.files, Loop(settings, network, Iteration(settings, network, s), k - 1).files)
  {
    var s1 := Iteration(settings, network, s);
    var path := GetFilepath(settings, s.cursor);
    NoFailuresTail(settings, network, s, k);
    NextCursorIsStored(settings, network, s);
    LoopFront(settings, network, s, k - 1);
    FilesKept(settings, network, s1, k - 1);
    assert path in r.files && r.files[path] == s1.files[path];
  }

  /**
   Re-running over the files a failure-free run left behind, from the same
   cursor, meets a cached page at every one of the first `k` iterations,
   whatever the server answers this time.
   */
  lemma {:induction false} RerunAllHits(settings: Settings, network: Network, s: Progress, k: nat,
                                        again: Network, r: Progress)
    requires NoFailures(settings, network, s, k)
    requires r.cursor == s.cursor && Covers(r.files, Loop(settings, network, s, k).files)
    ensures AllHits(settings, again, r, k)
    decreases k
  {
    if k > 0 {
      RerunStep(settings, network, s, k, again, r);
      RerunAllHits(settings, network, Iteration(settings, network, s), k - 1, again, Iteration(settings, again, r));
      AllHitsCons(settings, again, r, k);
    }
  }

  /**
   Idempotence: after a failure-free run, a second run from the initial cursor
   over the files the first one left behind, for no more iterations, neither
   requests, writes nor sleeps.
   */
  lemma RerunChangesNothing(settings: Settings, network: Network, s: Progress, k: nat,
                            again: Network, r: Progress, k2: nat)
    requires NoFailures(settings, network, s, k)
    requires r.cursor == s.cursor && r.files == Loop(settings, network, s, k).files
    requires k2 <= k
    ensures var t := Loop(settings, again, r, k2);
      t.files == r.files && t.trace == r.trace && t.requests == r.requests
  {
    RerunAllHits(settings, network, s, k, again, r);
    AllHitsNoEffect(settings, again, r, k2);
  }

  // ---------------------------------------------------------------------
  // The fetcher object

  /**
   `SteamReviewFetcher`. `files` is the content of the output directory,
   `trace` what the object has done to the outside world so far, and
   `requests` how many requests it has issued (which response it gets next).
   */
  class SteamReviewFetcher {
    const settings: Settings
    var files: map<Path, Page>
    var trace: seq<Event>
    var requests: nat

    /** `existing` is what the output directory already holds. */
    constructor (gameId: int, outputDir: Path, libs: Libs, existing: map<Path, Page>,
                 language: string := "english", delayS: real := 1.0)
      ensures settings == Settings(gameId, outputDir, language, delayS, libs)
      ensures files == existing && trace == [] && requests == 0
    {
      settings := Settings(gameId, outputDir, language, delayS, libs);
      files := existing;
      trace := [];
      requests := 0;
    }

    /** Issues the probe request with the initial cursor; nothing is written. */
    method GetTotalNrOfReviews(network: Network) returns (r: Result<int>)
      modifies this`trace, this`requests
      ensures r == TotalNrOfReviews(network(old(requests)))
      ensures trace == old(trace) + [Fetch(InitialCursor)] && requests == old(requests) + 1
      ensures files == old(files)
    {
      var response := network(requests);
      trace := trace + [Fetch(InitialCursor)];
      requests := requests + 1;
      r := TotalNrOfReviews(response);
    }

    /**
     One pass through the body of the `for` loop of `collect_reviews`: the
     cursor it returns is the one the next pass starts from.
     */
    method RunIteration(network: Network, cursor: string) returns (next: string)
      modifies this`files, this`trace, this`requests
      ensures var t := Iteration(settings, network, Progress(cursor, old(files), old(trace), old(requests)));
        next == t.cursor && files == t.files && trace == t.trace && requests == t.requests
    {
      ghost var before := Progress(cursor, files, trace, requests);
      var destinationFilePath := GetFilepath(settings, cursor);
      if destinationFilePath in files {
        HitIteration(settings, network, before);
        return GetCursorFromFile(settings, files, cursor);
      }
      next := cursor;
      var response := network(requests);
      trace := trace + [Fetch(cursor)];
      requests := requests + 1;
      if response.ok {
        var v := response.json;
        next := settings.libs.quote(v.cursor);
        if v.success == 1 {
          files := files[destinationFilePath := v];
          trace := trace + [Write(destinationFilePath)];
        }
      }
      trace := trace + [Sleep(settings.delayS)];
      if !response.ok {
        NotOkIteration(settings, network, before);
        assert trace == before.trace + [Fetch(before.cursor), Sleep(settings.delayS)];
      } else if response.json.success != 1 {
        UnsuccessfulIteration(settings, network, before);
        assert trace == before.trace + [Fetch(before.cursor), Sleep(settings.delayS)];
      } else {
        SuccessfulIteration(settings, network, before);
        assert trace == before.trace + [Fetch(before.cursor), Write(destinationFilePath), Sleep(settings.delayS)];
      }
    }

    /**
     Probes the total, then runs `PageCount(total)` iterations of the loop from
     the initial cursor; a failed probe raises before any iteration.
     */
    method CollectReviews(network: Network) returns (outcome: Outcome)
      modifies this`files, this`trace, this`requests
      ensures var probe := TotalNrOfReviews(network(old(requests)));
        var start := Progress(InitialCursor, old(files), old(trace) + [Fetch(InitialCursor)], old(requests) + 1);
        if probe.Failure? then
          outcome == Raised(probe.error) &&
          files == start.files && trace == start.trace && requests == start.requests
        else
          var final := Loop(settings, network, start, PageCount(probe.value));
          outcome == Completed &&
          files == final.files && trace == final.trace && requests == final.requests
    {
      var cursor := InitialCursor;
      var n := GetTotalNrOfReviews(network);
      if n.Failure? {
        return Raised(n.error);
      }
      ghost var start := Progress(cursor, files, trace, requests);
      for i := 0 to PageCount(n.value)
        invariant Progress(cursor, files, trace, requests) == Loop(settings, network, start, i)
      {
        cursor := RunIteration(network, cursor);
      }
      outcome := Completed;
    }
  }
}
