/** The link-discovery worker (fetcher.py).

    The worker owns one batch of search URLs (`queries`), mirrors it into a
    cache file after every change, and loops: take the URLs to visit from the
    cache or from the coordinator, let the crawler visit them (each visit ends
    in `request_handler`), push the batch back and clear it.

    The model has two layers. The functions over `World` say what each
    operation does to the whole state (batch, cache file, request counters and
    the ghost logs of sleeps and POST bodies); the lemmas state the properties
    of those functions. The class `Worker` holds the same state in fields and
    implements each operation as the source does, with its loops; every method
    is proved to have exactly the effect its function describes.

    The coordinator, the crawler and the clock are not part of the model: the
    replies to the n-th GET and the n-th POST, and the handler invocations of
    the n-th crawler run, are given by the `Env` oracles. */
module Fetcher {
  import opened Wrappers
  import opened Enums
  import opened Errors
  import opened Strings
  import opened Wire

  type Url = string

  /** One work item: a search URL, its status and, once the handler saved
      them, the place links found on the page (`None`: no `results` key). */
  datatype Query = Query(url: Url, status: Status, results: Option<seq<Url>>)

  /** The `queries` dictionary; the cache file holds a copy of it. */
  datatype Batch = Batch(country: string, machineId: Option<string>, queries: seq<Query>)

  /** What the crawler's page work produced for one visit: the place links
      found by scrolling the result feed, or an exception. */
  datatype Page = Scrolled(links: seq<Url>) | Broken

  /** One invocation of `request_handler`, with the URL the page ended on. */
  datatype Visit = Visit(pageUrl: Url, page: Page)

  /** The process configuration and the oracles for everything outside the worker. */
  datatype Env = Env(
    country: string,
    machineId: Option<string>,
    getReply: nat -> GetReply<seq<Query>>,
    postReply: nat -> PostReply,
    crawl: (nat, seq<Url>) -> seq<Visit>)

  /** The whole state of the worker: the batch items, the cache file, how
      many GETs, POSTs and crawler runs were made, every sleep in seconds and
      the body of every POST. */
  datatype World = World(
    items: seq<Query>,
    cache: CacheFile<Batch>,
    gets: nat,
    posts: nat,
    runs: nat,
    sleeps: seq<nat>,
    posted: seq<Batch>)

  /** The state after an operation, and what the operation returned. */
  datatype Step<T> = Step(w: World, r: T)

  // ---------------------------------------------------------------------
  // The batch and its cache file

  function Current(env: Env, w: World): Batch
  {
    Batch(env.country, env.machineId, w.items)
  }

  /** `cache_queries`: the file is overwritten with the batch. */
  function Cached(env: Env, w: World): (v: World)
    ensures v.cache == Saved(Current(env, v)) && v.(cache := w.cache) == w
  {
    w.(cache := Saved(Current(env, w)))
  }

  /** `clear_queries`: the item list is emptied and the empty batch is written. */
  function Cleared(env: Env, w: World): (v: World)
    ensures v.items == [] && v.cache == Saved(Batch(env.country, env.machineId, []))
    ensures v.(items := w.items, cache := w.cache) == w
  {
    Cached(env, w.(items := []))
  }

  function Urls(qs: seq<Query>): seq<Url>
  {
    seq(|qs|, i requires 0 <= i < |qs| => qs[i].url)
  }

  /** Batches whose items have the same URLs, position by position, have the same URL list. */
  lemma SameUrls(a: seq<Query>, b: seq<Query>)
    requires |a| == |b| && forall i :: 0 <= i < |a| ==> a[i].url == b[i].url
    ensures Urls(a) == Urls(b)
  {
  }

  /** The items with status `pending`, in batch order. */
  function PendingItems(qs: seq<Query>): (r: seq<Query>)
    ensures |r| <= |qs|
    ensures forall q :: q in r <==> q in qs && q.status == Pending
  {
    if qs == [] then []
    else (if qs[0].status == Pending then [qs[0]] else []) + PendingItems(qs[1..])
  }

  /** The filter keeps the batch order: filtering two parts one after the
      other is filtering their concatenation. */
  lemma {:induction false} PendingItemsConcat(a: seq<Query>, b: seq<Query>)
    decreases |a|
    ensures PendingItems(a + b) == PendingItems(a) + PendingItems(b)
  {
    if a == [] {
      assert a + b == b;
    } else {
      assert (a + b)[1..] == a[1..] + b;
      PendingItemsConcat(a[1..], b);
    }
  }

  /** One item is kept exactly when it is pending. */
  lemma PendingItemsOne(q: Query)
    ensures PendingItems([q]) == if q.status == Pending then [q] else []
  {
    assert [q][1..] == [];
  }

  // ---------------------------------------------------------------------
  // get_query_from_queries, update_query_status, save_query_results

  /** The item URL as the handler's page URL spells it: `?hl=en` removed and
      `&` escaped. */
  function Normalize(u: Url): Url
  {
    ReplaceAll(ReplaceAll(u, "?hl=en", ""), "&", "%26")
  }

  predicate Matches(q: Query, pageUrl: Url)
  {
    StartsWith(pageUrl, Normalize(q.url))
  }

  /** The index of the first item whose normalised URL starts the page URL. */
  function Lookup(items: seq<Query>, pageUrl: Url): (r: Option<nat>)
    ensures r.Some? ==> r.value < |items| && Matches(items[r.value], pageUrl)
    ensures r.Some? ==> forall j :: 0 <= j < r.value ==> !Matches(items[j], pageUrl)
    ensures r.None? <==> forall j :: 0 <= j < |items| ==> !Matches(items[j], pageUrl)
  {
    if items == [] then None
    else if Matches(items[0], pageUrl) then Some(0)
    else match Lookup(items[1..], pageUrl)
      case None => None
      case Some(k) => Some(k + 1)
  }

  /** The lookup reads nothing but the item URLs. */
  lemma LookupOnUrls(a: seq<Query>, b: seq<Query>, pageUrl: Url)
    requires Urls(a) == Urls(b)
    ensures Lookup(a, pageUrl) == Lookup(b, pageUrl)
  {
    assert forall j :: 0 <= j < |a| ==> a[j].url == Urls(a)[j] == Urls(b)[j] == b[j].url;
    assert forall j :: 0 <= j < |a| ==> (Matches(a[j], pageUrl) <==> Matches(b[j], pageUrl));
  }

  /** `update_query_status`: the found item gets the status, then the cache is rewritten. */
  function SetStatus(env: Env, w: World, pageUrl: Url, s: Status): (u: Step<Outcome<Error>>)
    ensures u.r.Fail? <==> Lookup(w.items, pageUrl).None?
    ensures u.r.Fail? ==> u.w == w && u.r.error == NotFound(pageUrl)
    ensures u.r.Pass? ==>
      var k := Lookup(w.items, pageUrl).value;
      |u.w.items| == |w.items|
      && u.w.items[k] == w.items[k].(status := s)
      && (forall j :: 0 <= j < |w.items| && j != k ==> u.w.items[j] == w.items[j])
      && u.w.cache == Saved(Current(env, u.w))
      && u.w.(items := w.items, cache := w.cache) == w
  {
    match Lookup(w.items, pageUrl)
    case None => Step(w, Fail(NotFound(pageUrl)))
    case Some(k) => Step(Cached(env, w.(items := w.items[k := w.items[k].(status := s)])), Pass)
  }

  /** `save_query_results`: the found item gets the links, then the cache is rewritten. */
  function SetResults(env: Env, w: World, pageUrl: Url, links: seq<Url>): (u: Step<Outcome<Error>>)
    ensures u.r.Fail? <==> Lookup(w.items, pageUrl).None?
    ensures u.r.Fail? ==> u.w == w && u.r.error == NotFound(pageUrl)
    ensures u.r.Pass? ==>
      var k := Lookup(w.items, pageUrl).value;
      |u.w.items| == |w.items|
      && u.w.items[k] == w.items[k].(results := Some(links))
      && (forall j :: 0 <= j < |w.items| && j != k ==> u.w.items[j] == w.items[j])
      && u.w.cache == Saved(Current(env, u.w))
      && u.w.(items := w.items, cache := w.cache) == w
  {
    match Lookup(w.items, pageUrl)
    case None => Step(w, Fail(NotFound(pageUrl)))
    case Some(k) => Step(Cached(env, w.(items := w.items[k := w.items[k].(results := Some(links))])), Pass)
  }

  /** Setting the same status twice leaves the state of setting it once. */
  lemma SetStatusIdempotent(env: Env, w: World, pageUrl: Url, s: Status)
    ensures SetStatus(env, SetStatus(env, w, pageUrl, s).w, pageUrl, s) == SetStatus(env, w, pageUrl, s)
  {
    var u := SetStatus(env, w, pageUrl, s);
    if u.r.Pass? {
      assert Urls(u.w.items) == Urls(w.items);
      LookupOnUrls(u.w.items, w.items, pageUrl);
      var k := Lookup(w.items, pageUrl).value;
      assert u.w.items[k := u.w.items[k].(status := s)] == u.w.items;
    }
  }

  // ---------------------------------------------------------------------
  // count_queries_results

  /** The number of links over the processed items; `None` when a processed
      item has no `results` key (the loop raises KeyError). */
  function ResultCount(items: seq<Query>): Option<nat>
  {
    if items == [] then Some(0)
    else
      var last := items[|items| - 1];
      match ResultCount(items[..|items| - 1])
      case None => None
      case Some(n) =>
        if last.status != Processed then Some(n)
        else if last.results.None? then None
        else Some(n + |last.results.value|)
  }

  predicate ProcessedHaveResults(items: seq<Query>)
  {
    forall i :: 0 <= i < |items| && items[i].status == Processed ==> items[i].results.Some?
  }

  /** The count is defined exactly when every processed item carries results. */
  lemma {:induction false} ResultCountDefined(items: seq<Query>)
    ensures ResultCount(items).Some? <==> ProcessedHaveResults(items)
  {
    if items != [] {
      var init := items[..|items| - 1];
      ResultCountDefined(init);
      assert forall i :: 0 <= i < |init| ==> init[i] == items[i];
    }
  }

  // ---------------------------------------------------------------------
  // push_results_to_db

  function Copies(b: Batch, n: nat): (r: seq<Batch>)
    ensures |r| == n && forall i :: 0 <= i < n ==> r[i] == b
  {
    seq(n, _ => b)
  }

  /** Whether attempt `i` of the POST loop, answered with `reply`, is
      followed by another: only a connection error before the last attempt is. */
  predicate PostRetried(reply: PostReply, i: nat)
  {
    reply == ConnectionFault && i < |Retries| - 1
  }

  /** The state in which the POST loop makes its last attempt, and that
      attempt's number. Every attempt posts the whole batch. */
  function PostRetries(env: Env, w: World, i: nat): (r: (World, nat))
    requires i < |Retries|
    decreases |Retries| - i
    ensures r.1 < |Retries|
  {
    if PostRetried(env.postReply(w.posts), i) then
      PostRetries(env, w.(posts := w.posts + 1, posted := w.posted + [Current(env, w)], sleeps := w.sleeps + [Retries[i]]), i + 1)
    else (w, i)
  }

  /** The attempt that ends the POST loop: a 200 clears the batch, any other
      status raises, and so does a connection error and any other exception. */
  function PostFinal(env: Env, w: World): Step<Outcome<Error>>
  {
    var w1 := w.(posts := w.posts + 1, posted := w.posted + [Current(env, w)]);
    match env.postReply(w.posts)
    case Answered(code) =>
      if code != Ok200 then Step(w1, Fail(PushRejected))
      else Step(Cleared(env, w1), Pass)
    case ConnectionFault => Step(w1, Fail(ConnectionError))
    case OtherFault(m) => Step(w1, Fail(Foreign(m)))
  }

  /** Attempt `i` of the POST loop and the attempts after it. */
  function PostLoop(env: Env, w: World, i: nat): Step<Outcome<Error>>
    requires i < |Retries|
  {
    PostFinal(env, PostRetries(env, w, i).0)
  }

  /** `push_results_to_db`: count the links, then POST the whole batch. */
  function Push(env: Env, w: World): Step<Outcome<Error>>
  {
    if ResultCount(w.items).None? then Step(w, Fail(MissingKey("results")))
    else PostLoop(env, w, 0)
  }

  /** Each retried attempt made one POST and slept the schedule's delay;
      the batch, the cache and the other counters stay. */
  lemma {:induction false} PostRetriesFacts(env: Env, w: World, i: nat)
    requires i < |Retries|
    decreases |Retries| - i
    ensures
      var (v, k) := PostRetries(env, w, i);
      i <= k && v.posts == w.posts + (k - i)
      && v.items == w.items && v.cache == w.cache && v.gets == w.gets && v.runs == w.runs
      && v.sleeps == w.sleeps + Retries[i..k]
  {
    if PostRetried(env.postReply(w.posts), i) {
      var w2 := w.(posts := w.posts + 1, posted := w.posted + [Current(env, w)], sleeps := w.sleeps + [Retries[i]]);
      assert PostRetries(env, w, i) == PostRetries(env, w2, i + 1);
      PostRetriesFacts(env, w2, i + 1);
      var k := PostRetries(env, w2, i + 1).1;
      assert Retries[i..k] == [Retries[i]] + Retries[i + 1..k];
    }
  }

  /** Every retried attempt got a connection error, and the attempt that
      ends the loop got one only when it is the last of the schedule. */
  lemma {:induction false} PostRetriesReplies(env: Env, w: World, i: nat)
    requires i < |Retries|
    decreases |Retries| - i
    ensures
      var (v, k) := PostRetries(env, w, i);
      v.posts == w.posts + (k - i)
      && (forall m :: w.posts <= m < v.posts ==> env.postReply(m) == ConnectionFault)
      && (env.postReply(v.posts) == ConnectionFault ==> k == |Retries| - 1)
  {
    if PostRetried(env.postReply(w.posts), i) {
      var w2 := w.(posts := w.posts + 1, posted := w.posted + [Current(env, w)], sleeps := w.sleeps + [Retries[i]]);
      assert PostRetries(env, w, i) == PostRetries(env, w2, i + 1);
      PostRetriesReplies(env, w2, i + 1);
    }
  }

  /** Each retried attempt posted the whole batch. */
  lemma {:induction false} PostRetriesPosted(env: Env, w: World, i: nat)
    requires i < |Retries|
    decreases |Retries| - i
    ensures
      var (v, k) := PostRetries(env, w, i);
      i <= k && v.items == w.items && v.posted == w.posted + Copies(Current(env, w), k - i)
  {
    if PostRetried(env.postReply(w.posts), i) {
      var w2 := w.(posts := w.posts + 1, posted := w.posted + [Current(env, w)], sleeps := w.sleeps + [Retries[i]]);
      PostRetriesPosted(env, w2, i + 1);
      var k := PostRetries(env, w2, i + 1).1;
      assert [Current(env, w)] + Copies(Current(env, w2), k - (i + 1)) == Copies(Current(env, w), k - i);
    } else {
      assert Copies(Current(env, w), 0) == [];
    }
  }

  /** The POST loop from attempt `i` on makes between one and the remaining
      number of POSTs, each with the whole batch as its body, and sleeps the
      schedule's delays between them. */
  lemma PostLoopCounts(env: Env, w: World, i: nat)
    requires i < |Retries|
    ensures
      var p := PostLoop(env, w, i);
      var n := p.w.posts - w.posts;
      1 <= n <= |Retries| - i
      && p.w.gets == w.gets && p.w.runs == w.runs
      && p.w.sleeps == w.sleeps + Retries[i..i + n - 1]
      && p.w.posted == w.posted + Copies(Current(env, w), n)
  {
    PostRetriesFacts(env, w, i);
    PostRetriesPosted(env, w, i);
    var k := PostRetries(env, w, i).1;
    assert Copies(Current(env, w), k - i) + [Current(env, w)] == Copies(Current(env, w), k - i + 1);
  }

  /** Only connection errors are retried, and not after the last attempt; a
      200 clears the batch and the cache; every failure leaves both, and which
      one it is depends on the reply to the last POST. */
  lemma PostLoopOutcome(env: Env, w: World, i: nat)
    requires i < |Retries|
    ensures
      var p := PostLoop(env, w, i);
      var n := p.w.posts - w.posts;
      n >= 1
      && var last := env.postReply(w.posts + n - 1);
      (forall m :: w.posts <= m < w.posts + n - 1 ==> env.postReply(m) == ConnectionFault)
      && (p.r.Pass? <==> last == Answered(Ok200))
      && (p.r == Fail(PushRejected) <==> last.Answered? && last.code != Ok200)
      && (p.r == Fail(ConnectionError) <==> last == ConnectionFault)
      && (last == ConnectionFault ==> i + n == |Retries|)
      && (last.OtherFault? ==> p.r == Fail(Foreign(last.message)))
      && (p.r.Pass? ==> p.w.items == [] && p.w.cache == Saved(Batch(env.country, env.machineId, [])))
      && (p.r.Fail? ==> p.w.items == w.items && p.w.cache == w.cache)
  {
    PostRetriesFacts(env, w, i);
    PostRetriesReplies(env, w, i);
  }

  /** The three outcomes of a push, from a batch whose links can be counted. */
  lemma PushOutcomes(env: Env, w: World)
    requires ProcessedHaveResults(w.items)
    ensures
      var p := Push(env, w);
      var n := p.w.posts - w.posts;
      1 <= n <= 3
      && p.w.sleeps == w.sleeps + [10, 20][..n - 1]
      && p.w.posted == w.posted + Copies(Current(env, w), n)
      && (env.postReply(w.posts) == Answered(Ok200) ==> n == 1 && p.r.Pass? && p.w.items == [])
      && (env.postReply(w.posts).Answered? && env.postReply(w.posts).code != Ok200 ==>
            n == 1 && p.r == Fail(PushRejected) && p.w.items == w.items && p.w.cache == w.cache)
      && (p.r == Fail(ConnectionError) <==>
            n == 3 && forall m :: w.posts <= m < w.posts + 3 ==> env.postReply(m) == ConnectionFault)
  {
    ResultCountDefined(w.items);
    PostLoopCounts(env, w, 0);
    PostLoopOutcome(env, w, 0);
    assert Retries[0..2] == [10, 20];
  }

  // ---------------------------------------------------------------------
  // get_queries_to_process_from_db

  /** Whether attempt `i` of the GET loop, answered with `g`, is followed
      by another. */
  predicate FetchRetried<T>(g: GetReply<T>, i: nat)
  {
    Transient(g) && i < |Retries| - 1
  }

  /** The state in which the GET loop makes its last attempt, and that
      attempt's number. */
  function FetchRetries(env: Env, w: World, i: nat): (World, nat)
    requires i < |Retries|
    decreases |Retries| - i
  {
    if FetchRetried(env.getReply(w.gets), i) then
      FetchRetries(env, w.(gets := w.gets + 1, sleeps := w.sleeps + [Retries[i]]), i + 1)
    else (w, i)
  }

  /** The attempt that ends the GET loop. */
  function FetchFinal(env: Env, w: World): Step<Result<seq<Url>, Error>>
  {
    var w1 := w.(gets := w.gets + 1);
    var reply := env.getReply(w.gets);
    if reply.Received? then Step(Cached(env, w1.(items := reply.body)), Ok(Urls(reply.body)))
    else if reply.NoQueriesKey? then Step(w1, Err(MissingKey("queries")))
    else Step(w1, Err(Exhaustion(reply)))
  }

  /** Attempt `i` of the GET loop and the attempts after it: the ones it
      retries, then the one that ends it. */
  function FetchLoop(env: Env, w: World, i: nat): Step<Result<seq<Url>, Error>>
    requires i < |Retries|
  {
    FetchFinal(env, FetchRetries(env, w, i).0)
  }

  function FetchFromDb(env: Env, w: World): Step<Result<seq<Url>, Error>>
  {
    FetchLoop(env, w, 0)
  }

  /** The retried attempts each got a transient failure, were followed by
      the schedule's delay and changed nothing else; the last attempt gets
      a transient failure only when it is the third. */
  lemma {:induction false} FetchRetriesFacts(env: Env, w: World, i: nat)
    requires i < |Retries|
    decreases |Retries| - i
    ensures
      var (v, k) := FetchRetries(env, w, i);
      i <= k < |Retries|
      && v == w.(gets := w.gets + (k - i), sleeps := w.sleeps + Retries[i..k])
      && (forall m :: w.gets <= m < v.gets ==> Transient(env.getReply(m)))
      && (Transient(env.getReply(v.gets)) ==> k == |Retries| - 1)
  {
    if FetchRetried(env.getReply(w.gets), i) {
      var w2 := w.(gets := w.gets + 1, sleeps := w.sleeps + [Retries[i]]);
      FetchRetriesFacts(env, w2, i + 1);
      var k := FetchRetries(env, w2, i + 1).1;
      assert Retries[i..k] == [Retries[i]] + Retries[i + 1..k];
    }
  }

  /** The GET loop from attempt `i` on makes between one and the remaining
      number of GETs and sleeps the schedule's delays between them. */
  lemma FetchLoopCounts(env: Env, w: World, i: nat)
    requires i < |Retries|
    ensures
      var f := FetchLoop(env, w, i);
      var n := f.w.gets - w.gets;
      1 <= n <= |Retries| - i
      && f.w.posts == w.posts && f.w.posted == w.posted && f.w.runs == w.runs
      && f.w.sleeps == w.sleeps + Retries[i..i + n - 1]
  {
    FetchRetriesFacts(env, w, i);
  }

  /** Every failure but the last is transient; a received batch replaces the
      items, is cached, and its URLs are returned in server order; an
      exhausted loop raises the error that matches its last failure; every
      error leaves the batch and the cache. */
  lemma FetchLoopOutcome(env: Env, w: World, i: nat)
    requires i < |Retries|
    ensures
      var f := FetchLoop(env, w, i);
      var n := f.w.gets - w.gets;
      n >= 1
      && var last := env.getReply(w.gets + n - 1);
      (forall m :: w.gets <= m < w.gets + n - 1 ==> Transient(env.getReply(m)))
      && (f.r.Ok? <==> last.Received?)
      && (f.r.Ok? ==> f.w.items == last.body && f.w.cache == Saved(Current(env, f.w))
                      && f.r.value == Urls(f.w.items))
      && (last.NoQueriesKey? ==> f.r == Err(MissingKey("queries")))
      && (Transient(last) ==> i + n == |Retries| && f.r == Err(Exhaustion(last)))
      && (f.r.Err? ==> f.w.items == w.items && f.w.cache == w.cache)
  {
    FetchRetriesFacts(env, w, i);
  }

  /** At most three GETs, separated by sleeps of 10 and then 20 seconds, and
      none after the last. */
  lemma FetchAtMostThree(env: Env, w: World)
    ensures
      var f := FetchFromDb(env, w);
      var n := f.w.gets - w.gets;
      1 <= n <= 3 && f.w.sleeps == w.sleeps + [10, 20][..n - 1]
  {
    FetchLoopCounts(env, w, 0);
    assert Retries[0..2] == [10, 20];
  }

  /** A coordinator that always times out is asked three times before the
      worker gives up with `READ_TIMEOUT`. */
  lemma FetchAlwaysTimingOut(env: Env, w: World)
    requires forall m :: env.getReply(m) == ReadTimedOut
    ensures var f := FetchFromDb(env, w);
      f.r == Err(ReadTimeout) && f.w.gets == w.gets + 3 && f.w.sleeps == w.sleeps + [10, 20]
      && f.w.items == w.items && f.w.cache == w.cache
  {
    FetchLoopCounts(env, w, 0);
    FetchLoopOutcome(env, w, 0);
    assert Retries[0..2] == [10, 20];
  }

  // ---------------------------------------------------------------------
  // get_queries_to_process_from_cache, get_queries_to_process

  /** Resuming from the cache file: `Ok(None)` when it holds no batch or an
      empty one; a finished batch is pushed; otherwise the cached items become
      the batch and the pending URLs are returned. Text that is not JSON raises. */
  function ResumeFromCache(env: Env, w: World): Step<Result<Option<seq<Url>>, Error>>
  {
    match w.cache
    case NoFile => Step(w, Ok(None))
    case Blank => Step(w, Ok(None))
    case Garbled(reason) => Step(w, Err(Foreign(reason)))
    case Saved(b) =>
      if |b.queries| == 0 then Step(w, Ok(None))
      else
        var w1 := w.(items := b.queries);
        var pending := PendingItems(b.queries);
        if |pending| == 0 then
          var p := Push(env, w1);
          Step(p.w, if p.r.Fail? then Err(p.r.error) else Ok(None))
        else Step(w1, Ok(Some(Urls(pending))))
  }

  /** The cases of the resume: nothing to resume gives `None` and changes
      nothing; a finished batch becomes the items and is pushed, giving
      `None` when the push succeeds and its error otherwise; a batch with
      pending items becomes the items, non-pending ones included, and
      exactly the pending URLs are returned, with neither a GET nor a POST. */
  lemma ResumeCases(env: Env, w: World)
    ensures
      var c := ResumeFromCache(env, w);
      ((w.cache.NoFile? || w.cache.Blank? || (w.cache.Saved? && w.cache.batch.queries == []))
        ==> c == Step(w, Ok(None)))
      && (w.cache.Garbled? ==> c == Step(w, Err(Foreign(w.cache.reason))))
      && (w.cache.Saved? && w.cache.batch.queries != [] && PendingItems(w.cache.batch.queries) == [] ==>
            var p := Push(env, w.(items := w.cache.batch.queries));
            c.w == p.w && (c.r == Ok(None) <==> p.r.Pass?))
      && (w.cache.Saved? && PendingItems(w.cache.batch.queries) != [] ==>
            c.w == w.(items := w.cache.batch.queries)
            && c.r == Ok(Some(Urls(PendingItems(w.cache.batch.queries))))
            && forall u :: u in c.r.value.value <==>
                 exists q :: q in w.cache.batch.queries && q.status == Pending && q.url == u)
  {
    if w.cache.Saved? && PendingItems(w.cache.batch.queries) != [] {
      var pending := PendingItems(w.cache.batch.queries);
      forall u ensures u in Urls(pending) <==> exists q :: q in w.cache.batch.queries && q.status == Pending && q.url == u {
        if u in Urls(pending) {
          var i :| 0 <= i < |pending| && Urls(pending)[i] == u;
          assert pending[i] in pending;
        }
        if exists q :: q in w.cache.batch.queries && q.status == Pending && q.url == u {
          var q :| q in w.cache.batch.queries && q.status == Pending && q.url == u;
          var i :| 0 <= i < |pending| && pending[i] == q;
          assert Urls(pending)[i] == u;
        }
      }
    }
  }

  /** A URL list Python treats as false: `None` or empty. */
  predicate Falsy(found: Option<seq<Url>>)
  {
    found.None? || found.value == []
  }

  function GetQueries(env: Env, w: World): Step<Result<seq<Url>, Error>>
  {
    var c := ResumeFromCache(env, w);
    match c.r
    case Err(e) => Step(c.w, Err(e))
    case Ok(found) => if Falsy(found) then FetchFromDb(env, c.w) else Step(c.w, Ok(found.value))
  }

  /** The coordinator is asked only when the cache yields no URL; otherwise
      the cached pending URLs are the result. */
  lemma DbOnlyWhenCacheFalsy(env: Env, w: World)
    ensures
      var c := ResumeFromCache(env, w);
      var g := GetQueries(env, w);
      (g.w.gets != c.w.gets <==> c.r.Ok? && Falsy(c.r.value))
      && (c.r.Ok? && !Falsy(c.r.value) ==> g == Step(c.w, Ok(c.r.value.value)))
  {
    var c := ResumeFromCache(env, w);
    if c.r.Ok? && Falsy(c.r.value) {
      FetchLoopCounts(env, c.w, 0);
    }
  }

  /** A worker restarted on a snapshot the previous one wrote gets the same
      items back, and exactly the pending ones are handed to the crawler, in
      batch order. */
  lemma RestartResumes(env: Env, w: World)
    requires w.cache == Saved(Current(env, w))
    requires PendingItems(w.items) != []
    ensures
      var restarted := w.(items := []);
      var c := ResumeFromCache(env, restarted);
      c.w == w && c.r == Ok(Some(Urls(PendingItems(w.items))))
  {
  }

  // ---------------------------------------------------------------------
  // request_handler and the crawler run

  /** `request_handler`: the status is written in `finally`, so it is
      `failed` unless the page was scrolled; the links are saved after the
      status, and only when it is `processed`. A failed lookup raises. */
  function Handle(env: Env, w: World, v: Visit): Step<Outcome<Error>>
  {
    var status := if v.page.Scrolled? then Processed else Failed;
    var u := SetStatus(env, w, v.pageUrl, status);
    if u.r.Fail? || status != Processed then u
    else SetResults(env, u.w, v.pageUrl, v.page.links)
  }

  /** The effect of one handler call on the item its page URL finds. */
  lemma HandleEffect(env: Env, w: World, v: Visit)
    ensures
      var h := Handle(env, w, v);
      var k := Lookup(w.items, v.pageUrl);
      (k.None? ==> h == Step(w, Fail(NotFound(v.pageUrl))))
      && (k.Some? ==>
            h.r.Pass? && |h.w.items| == |w.items|
            && h.w.items[k.value].url == w.items[k.value].url
            && (h.w.items[k.value].status == Processed <==> v.page.Scrolled?)
            && (v.page.Scrolled? ==> h.w.items[k.value].results == Some(v.page.links))
            && (v.page.Broken? ==> h.w.items[k.value] == w.items[k.value].(status := Failed))
            && (forall j :: 0 <= j < |w.items| && j != k.value ==> h.w.items[j] == w.items[j])
            && h.w.cache == Saved(Current(env, h.w)))
  {
    var u := SetStatus(env, w, v.pageUrl, if v.page.Scrolled? then Processed else Failed);
    if u.r.Pass? && v.page.Scrolled? {
      assert Urls(u.w.items) == Urls(w.items);
      LookupOnUrls(u.w.items, w.items, v.pageUrl);
    }
  }

  /** The status is written to the cache before the links: between the two
      writes the file holds a `processed` item without `results`, and a
      worker restarted from that snapshot cannot count its links. */
  lemma StatusWrittenBeforeResults(env: Env, w: World, v: Visit)
    requires v.page.Scrolled?
    requires Lookup(w.items, v.pageUrl).Some?
    requires w.items[Lookup(w.items, v.pageUrl).value].results.None?
    ensures
      var u := SetStatus(env, w, v.pageUrl, Processed);
      u.w.cache.Saved? && !ProcessedHaveResults(u.w.cache.batch.queries)
      && ResultCount(u.w.cache.batch.queries).None?
      && Handle(env, w, v) == SetResults(env, u.w, v.pageUrl, v.page.links)
  {
    var u := SetStatus(env, w, v.pageUrl, Processed);
    var k := Lookup(w.items, v.pageUrl).value;
    assert u.w.cache.batch.queries[k].status == Processed;
    ResultCountDefined(u.w.cache.batch.queries);
  }

  /** The handler calls of one crawler run, in order; the crawler logs and
      drops what a handler raises. */
  function CrawlVisits(env: Env, w: World, visits: seq<Visit>): World
    decreases |visits|
  {
    if visits == [] then w else CrawlVisits(env, Handle(env, w, visits[0]).w, visits[1..])
  }

  function Crawl(env: Env, w: World, urls: seq<Url>): World
  {
    CrawlVisits(env, w.(runs := w.runs + 1), env.crawl(w.runs, urls))
  }

  /** A crawler run keeps the item URLs and the network counters, and leaves
      the cache either as it was or equal to the batch. */
  lemma {:induction false} CrawlVisitsKeeps(env: Env, w: World, visits: seq<Visit>)
    decreases |visits|
    ensures
      var c := CrawlVisits(env, w, visits);
      Urls(c.items) == Urls(w.items)
      && c.gets == w.gets && c.posts == w.posts && c.runs == w.runs
      && c.sleeps == w.sleeps && c.posted == w.posted
      && (c.cache == w.cache || c.cache == Saved(Current(env, c)))
      && (c.items != w.items ==> c.cache == Saved(Current(env, c)))
  {
    if visits != [] {
      var h := Handle(env, w, visits[0]);
      HandleEffect(env, w, visits[0]);
      CrawlVisitsKeeps(env, h.w, visits[1..]);
      SameUrls(h.w.items, w.items);
    }
  }

  // ---------------------------------------------------------------------
  // main

  /** One pass of the `while True` loop of `main`. */
  function Round(env: Env, w: World): Step<Outcome<Error>>
  {
    var g := GetQueries(env, w);
    match g.r
    case Err(e) => Step(g.w, Fail(e))
    case Ok(urls) => if urls == [] then Step(g.w, Pass) else Push(env, Crawl(env, g.w, urls))
  }

  /** How the model of `main` ends: still looping when it stops looking, or
      ended by the error of a round. */
  datatype Exit = Running | Ended(error: Error)

  /** The messages `main` reports and swallows; any other error it re-raises. */
  predicate Announced(msg: string)
  {
    msg == "READ_TIMEOUT" || msg == "CONNECT_TIMEOUT" || StartsWith(msg, "REQUEST_FAILED")
    || msg == "CONNECTION_ERROR"
  }

  /** A `while True` loop over `round`, cut off after `fuel` passes: it
      ends with the first error a pass raises. */
  function Loop(round: World -> Step<Outcome<Error>>, w: World, fuel: nat): Step<Exit>
    decreases fuel
  {
    if fuel == 0 then Step(w, Running)
    else
      var s := round(w);
      if s.r.Fail? then Step(s.w, Ended(s.r.error)) else Loop(round, s.w, fuel - 1)
  }

  function RoundOf(env: Env): World -> Step<Outcome<Error>>
  {
    w => Round(env, w)
  }

  /** `main`, cut off after `fuel` passes. */
  function Run(env: Env, w: World, fuel: nat): Step<Exit>
  {
    Loop(RoundOf(env), w, fuel)
  }

  /** One pass of the loop, unfolded. */
  lemma LoopStep(round: World -> Step<Outcome<Error>>, w: World, n: nat)
    requires n > 0
    ensures Loop(round, w, n) == if round(w).r.Fail? then Step(round(w).w, Ended(round(w).r.error)) else Loop(round, round(w).w, n - 1)
  {
  }

  /** The loop depends on nothing but what its pass computes. */
  lemma {:induction false} LoopAgrees(f: World -> Step<Outcome<Error>>, g: World -> Step<Outcome<Error>>, w: World, fuel: nat)
    requires forall v :: f(v) == g(v)
    decreases fuel
    ensures Loop(f, w, fuel) == Loop(g, w, fuel)
  {
    if fuel > 0 {
      LoopAgrees(f, g, f(w).w, fuel - 1);
    }
  }

  /** A loop over any function that agrees with `Round` is `main`. */
  lemma RunIsLoop(env: Env, round: World -> Step<Outcome<Error>>, w: World, fuel: nat)
    requires forall v {:trigger Round(env, v)} :: round(v) == Round(env, v)
    ensures Loop(round, w, fuel) == Run(env, w, fuel)
  {
    forall v ensures round(v) == RoundOf(env)(v) {
      assert RoundOf(env)(v) == Round(env, v);
    }
    LoopAgrees(round, RoundOf(env), w, fuel);
  }

  /** Looking at `a + b` passes is looking at `a` passes and, if the loop is
      still running, at `b` more from where they left off. */
  lemma {:induction false} LoopSplits(round: World -> Step<Outcome<Error>>, w: World, a: nat, b: nat)
    decreases a
    ensures var s := Loop(round, w, a);
      Loop(round, w, a + b) == if s.r.Running? then Loop(round, s.w, b) else s
  {
    if a > 0 {
      var s := round(w);
      if s.r.Pass? {
        assert Loop(round, w, a + b) == Loop(round, s.w, a - 1 + b);
        LoopSplits(round, s.w, a - 1, b);
      }
    }
  }

  /** Every announced message starts with `R` or `C`. */
  lemma AnnouncedInitial(msg: string)
    requires Announced(msg)
    ensures |msg| > 0 && (msg[0] == 'R' || msg[0] == 'C')
  {
    if StartsWith(msg, "REQUEST_FAILED") {
      assert msg[0] == "REQUEST_FAILED"[0];
    }
  }

  /** The four retry-exhaustion errors end the loop quietly; every other
      error the worker raises is re-raised. */
  lemma AnnouncedErrors(e: Error)
    ensures e.ReadTimeout? || e.ConnectTimeout? || e.RequestFailed? || e.ConnectionError? ==> Announced(Message(e))
    ensures e.PushRejected? || e.PushExhausted? || e.NotFound? || e.MissingKey? ==> !Announced(Message(e))
  {
    var m := Message(e);
    match e
    case RequestFailed(d) =>
      assert m[..14] == "REQUEST_FAILED";
    case PushRejected =>
      assert m[0] == PushFailure[0] == 'F';
      if Announced(m) { AnnouncedInitial(m); }
    case PushExhausted =>
      assert m[0] == PushFailure[0] == 'F';
      if Announced(m) { AnnouncedInitial(m); }
    case NotFound(u) =>
      assert m[0] == 'Q';
      if Announced(m) { AnnouncedInitial(m); }
    case MissingKey(k) =>
      assert m[0] == '\'';
      if Announced(m) { AnnouncedInitial(m); }
    case _ =>
  }

  // ---------------------------------------------------------------------
  // The worker process

  class Worker {
    const env: Env
    var items: seq<Query>
    var cache: CacheFile<Batch>
    var gets: nat
    var posts: nat
    var runs: nat
    ghost var sleeps: seq<nat>
    ghost var posted: seq<Batch>
    /** The pass of `main`'s loop, as a value. */
    ghost const round: World -> Step<Outcome<Error>>

    ghost predicate RoundIsRound()
    {
      forall v {:trigger Round(env, v)} :: round(v) == Round(env, v)
    }

    ghost function W(): World
      reads this
    {
      World(items, cache, gets, posts, runs, sleeps, posted)
    }

    /** A process starts with an empty batch and whatever file it finds. */
    constructor (env: Env, file: CacheFile<Batch>)
      ensures this.env == env && W() == World([], file, 0, 0, 0, [], [])
      ensures RoundIsRound()
    {
      this.env := env;
      round := RoundOf(env);
      items, cache := [], file;
      gets, posts, runs := 0, 0, 0;
      sleeps, posted := [], [];
    }

    method CacheQueries()
      modifies this
      ensures W() == Cached(env, old(W()))
    {
      cache := Saved(Batch(env.country, env.machineId, items));
    }

    method ClearQueries()
      modifies this
      ensures W() == Cleared(env, old(W()))
    {
      items := [];
      CacheQueries();
    }

    method GetQueryFromQueries(pageUrl: Url) returns (r: Result<nat, Error>)
      ensures r.Ok? <==> Lookup(items, pageUrl).Some?
      ensures r.Ok? ==> r.value == Lookup(items, pageUrl).value
      ensures r.Err? ==> r.error == NotFound(pageUrl)
    {
      var i := 0;
      while i < |items|
        invariant i <= |items|
        invariant forall j :: 0 <= j < i ==> !Matches(items[j], pageUrl)
      {
        var u := ReplaceAll(items[i].url, "?hl=en", "");
        u := ReplaceAll(u, "&", "%26");
        if StartsWith(pageUrl, u) {
          return Ok(i);
        }
        i := i + 1;
      }
      return Err(NotFound(pageUrl));
    }

    method UpdateQueryStatus(pageUrl: Url, status: Status) returns (r: Outcome<Error>)
      modifies this
      ensures var s := SetStatus(env, old(W()), pageUrl, status); W() == s.w && r == s.r
    {
      var k := GetQueryFromQueries(pageUrl);
      if k.Err? {
        return Fail(k.error);
      }
      items := items[k.value := items[k.value].(status := status)];
      CacheQueries();
      r := Pass;
    }

    method SaveQueryResults(pageUrl: Url, links: seq<Url>) returns (r: Outcome<Error>)
      modifies this
      ensures var s := SetResults(env, old(W()), pageUrl, links); W() == s.w && r == s.r
    {
      var k := GetQueryFromQueries(pageUrl);
      if k.Err? {
        return Fail(k.error);
      }
      items := items[k.value := items[k.value].(results := Some(links))];
      CacheQueries();
      r := Pass;
    }

    method CountQueriesResults() returns (r: Result<nat, Error>)
      ensures r.Ok? <==> ProcessedHaveResults(items)
      ensures r.Ok? ==> ResultCount(items) == Some(r.value)
      ensures r.Err? ==> r.error == MissingKey("results")
    {
      ResultCountDefined(items);
      var total := 0;
      for i := 0 to |items|
        invariant ResultCount(items[..i]) == Some(total)
      {
        assert items[..i + 1][..i] == items[..i];
        if items[i].status == Processed {
          if items[i].results.None? {
            assert ResultCount(items[..i + 1]).None?;
            ResultCountDefined(items[..i + 1]);
            return Err(MissingKey("results"));
          }
          total := total + |items[i].results.value|;
        }
      }
      assert items[..|items|] == items;
      return Ok(total);
    }

    method PushResultsToDb() returns (r: Outcome<Error>)
      modifies this
      ensures var s := Push(env, old(W())); W() == s.w && r == s.r
    {
      var n := CountQueriesResults();
      if n.Err? {
        ResultCountDefined(items);
        return Fail(n.error);
      }
      ResultCountDefined(items);
      var i := 0;
      while true
        invariant i < |Retries|
        invariant PostRetries(env, old(W()), 0) == PostRetries(env, W(), i)
        decreases |Retries| - i
      {
        ghost var before := W();
        var outcome := PostAttempt(i);
        if outcome.Some? {
          assert PostRetries(env, before, i) == (before, i);
          return outcome.value;
        }
        i := i + 1;
      }
    }

    /** Attempt `i` of the POST loop: the outcome of the push when the
        attempt ends the loop, `None` when it is retried. */
    method PostAttempt(i: nat) returns (r: Option<Outcome<Error>>)
      requires i < |Retries|
      modifies this
      ensures r.None? <==> PostRetried(env.postReply(old(posts)), i)
      ensures r.Some? ==> var s := PostFinal(env, old(W())); W() == s.w && r.value == s.r
      ensures r.None? ==> PostRetries(env, old(W()), i) == PostRetries(env, W(), i + 1)
    {
      var reply := env.postReply(posts);
      posted := posted + [Batch(env.country, env.machineId, items)];
      posts := posts + 1;
      match reply {
      case Answered(code) =>
        if code != Ok200 {
          return Some(Fail(PushRejected));
        }
        ClearQueries();
        return Some(Pass);
      case ConnectionFault =>
        if i == |Retries| - 1 {
          return Some(Fail(ConnectionError));
        }
        sleeps := sleeps + [Retries[i]];
        return None;
      case OtherFault(m) =>
        return Some(Fail(Foreign(m)));
      }
    }

    method GetQueriesToProcessFromDb() returns (r: Result<seq<Url>, Error>)
      modifies this
      ensures var s := FetchFromDb(env, old(W())); W() == s.w && r == s.r
    {
      var i := 0;
      while true
        invariant i < |Retries|
        invariant FetchRetries(env, old(W()), 0) == FetchRetries(env, W(), i)
        decreases |Retries| - i
      {
        ghost var before := W();
        var outcome := FetchAttempt(i);
        if outcome.Some? {
          assert FetchRetries(env, before, i) == (before, i);
          return outcome.value;
        }
        i := i + 1;
      }
    }

    /** Attempt `i` of the GET loop: the result of the fetch when the
        attempt ends the loop, `None` when it is retried. */
    method FetchAttempt(i: nat) returns (r: Option<Result<seq<Url>, Error>>)
      requires i < |Retries|
      modifies this
      ensures r.None? <==> FetchRetried(env.getReply(old(gets)), i)
      ensures r.Some? ==> var s := FetchFinal(env, old(W())); W() == s.w && r.value == s.r
      ensures r.None? ==> FetchRetries(env, old(W()), i) == FetchRetries(env, W(), i + 1)
    {
      var reply := env.getReply(gets);
      gets := gets + 1;
      if reply.Received? {
        items := reply.body;
        CacheQueries();
        return Some(Ok(Urls(reply.body)));
      }
      if reply.NoQueriesKey? {
        return Some(Err(MissingKey("queries")));
      }
      // a read timeout, a connect timeout or another request error
      if i == |Retries| - 1 {
        return Some(Err(Exhaustion(reply)));
      }
      sleeps := sleeps + [Retries[i]];
      return None;
    }

    method GetQueriesToProcessFromCache() returns (r: Result<Option<seq<Url>>, Error>)
      modifies this
      ensures var s := ResumeFromCache(env, old(W())); W() == s.w && r == s.r
    {
      match cache
      case NoFile =>
        return Ok(None);
      case Blank =>
        return Ok(None);
      case Garbled(reason) =>
        return Err(Foreign(reason));
      case Saved(b) =>
        if |b.queries| == 0 {
          return Ok(None);
        }
        var pending := PendingItems(b.queries);
        items := b.queries;
        if |pending| == 0 {
          var p := PushResultsToDb();
          if p.Fail? {
            return Err(p.error);
          }
          return Ok(None);
        }
        return Ok(Some(Urls(pending)));
    }

    method GetQueriesToProcess() returns (r: Result<seq<Url>, Error>)
      modifies this
      ensures var s := GetQueries(env, old(W())); W() == s.w && r == s.r
    {
      var found := GetQueriesToProcessFromCache();
      if found.Err? {
        return Err(found.error);
      }
      if Falsy(found.value) {
        r := GetQueriesToProcessFromDb();
      } else {
        r := Ok(found.value.value);
      }
    }

    method RequestHandler(v: Visit) returns (r: Outcome<Error>)
      modifies this
      ensures var s := Handle(env, old(W()), v); W() == s.w && r == s.r
    {
      var status := Failed;
      if v.page.Scrolled? {
        status := Processed;
      }
      r := UpdateQueryStatus(v.pageUrl, status);
      if r.Fail? {
        return;
      }
      if status == Processed {
        r := SaveQueryResults(v.pageUrl, v.page.links);
      }
    }

    /** `crawler.run(urls)`: the handler calls of the run, one after the other. */
    method RunCrawler(urls: seq<Url>)
      modifies this
      ensures W() == Crawl(env, old(W()), urls)
    {
      var visits := env.crawl(runs, urls);
      runs := runs + 1;
      var i := 0;
      while i < |visits|
        invariant i <= |visits|
        invariant Crawl(env, old(W()), urls) == CrawlVisits(env, W(), visits[i..])
      {
        assert visits[i..][1..] == visits[i + 1..];
        var _ := RequestHandler(visits[i]);
        i := i + 1;
      }
    }

    /** The body of the `while True` loop of `main`. */
    method RunRound() returns (r: Outcome<Error>)
      modifies this
      requires RoundIsRound()
      ensures round(old(W())) == Step(W(), r)
    {
      assert round(W()) == Round(env, W());
      var urls := GetQueriesToProcess();
      if urls.Err? {
        return Fail(urls.error);
      }
      if urls.value == [] {
        return Pass;
      }
      RunCrawler(urls.value);
      r := PushResultsToDb();
    }

    /** `main`, cut off after `fuel` passes of its `while True` loop. */
    method RunMain(fuel: nat) returns (exit: Exit)
      requires RoundIsRound()
      modifies this
      ensures Step(W(), exit) == Loop(round, old(W()), fuel)
    {
      var n: nat := fuel;
      while n > 0
        invariant Loop(round, old(W()), fuel) == Loop(round, W(), n)
        decreases n
      {
        ghost var before := W();
        var r := RunRound();
        LoopStep(round, before, n);
        if r.Fail? {
          return Ended(r.error);
        }
        n := n - 1;
      }
      return Running;
    }
  }
}
