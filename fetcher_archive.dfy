/** The place-scraping worker (fetcher_archive.py).

    Same loop as the link-discovery worker, with different items: each
    batch item is a place URL with an id and metadata; the handler scrapes
    one place per page and stores it when it carries a title, an address or
    a website; the push sends one flat record per stored place, and only
    when there is at least one.

    As in `Fetcher`, the functions over `World` describe each operation on
    the whole state, the lemmas state their properties, and the class
    `Worker` implements each operation as the source does, proved to have
    exactly the effect its function describes. */
module FetcherArchive {
  import opened Wrappers
  import opened Enums
  import opened Errors
  import opened Strings
  import opened Wire

  type Url = string

  /** A JSON value the worker only copies from one place to another (an id,
      a coordinate, an industry name), kept as its text. */
  type Opaque = string

  datatype Metadata = Metadata(
    industry: Option<Opaque>,
    latitude: Option<Opaque>,
    longitude: Option<Opaque>,
    zoomLevel: Option<Opaque>)

  /** The part of `process_business`'s result dictionary that reaches the
      database. */
  datatype Place = Place(
    title: Option<string>,
    category: Option<string>,
    address: Option<string>,
    phone: Option<string>,
    website: Option<string>,
    email: Option<string>,
    socialLinks: seq<string>,
    sourceUrl: Url,
    scrapedAt: string)

  /** One work item: a place URL, the coordinator's id and metadata, the
      status and, once saved, the scraped places (`None`: no `results` key). */
  datatype Query = Query(url: Url, id: Opaque, metadata: Metadata, status: Status, results: Option<seq<Place>>)

  /** The `queries` dictionary; the cache file holds a copy of it. */
  datatype Batch = Batch(country: Option<string>, machineId: Option<string>, queries: seq<Query>)

  /** One element of the coordinator's `queries` list; every key may be absent. */
  datatype RawRecord = RawRecord(
    queryUrl: Option<Url>,
    id: Option<Opaque>,
    industry: Option<Opaque>,
    latitude: Option<Opaque>,
    longitude: Option<Opaque>,
    zoomLevel: Option<Opaque>)

  /** A reply body with a `queries` list: its `country` key and the list. */
  datatype Body = Body(country: Option<string>, records: seq<RawRecord>)

  /** What the page work of one visit came to: an exception while loading
      the page or answering the consent banner, a redirect to the consent
      page, or the scraped place. */
  datatype Page = Crashed | Redirected | Scraped(place: Place)

  /** One invocation of `request_handler`, with the request URL. */
  datatype Visit = Visit(url: Url, page: Page)

  /** One record of the results payload. */
  datatype Insert = Insert(
    id: Opaque,
    title: Option<string>,
    category: Option<string>,
    address: Option<string>,
    phone: Option<string>,
    website: Option<string>,
    email: Option<string>,
    socialLinks: seq<string>,
    sourceUrl: Url,
    scrapedAt: string)

  datatype Payload = Payload(country: string, machineId: Option<string>, inserts: seq<Insert>)

  /** The process configuration and the oracles for everything outside the worker. */
  datatype Env = Env(
    country: string,
    machineId: Option<string>,
    getReply: nat -> GetReply<Body>,
    postReply: nat -> PostReply,
    crawl: (nat, seq<Url>) -> seq<Visit>)

  /** The whole state of the worker: the batch's `country` entry and items,
      the cache file, how many GETs, POSTs and crawler runs were made, every
      sleep in seconds and the body of every POST. */
  datatype World = World(
    country: Option<string>,
    items: seq<Query>,
    cache: CacheFile<Batch>,
    gets: nat,
    posts: nat,
    runs: nat,
    sleeps: seq<nat>,
    posted: seq<Payload>)

  datatype Step<T> = Step(w: World, r: T)

  /** The number of POST attempts. */
  const Attempts: nat := 3

  /** The pause of `main` when there is nothing to do. */
  const Idle: nat := 60

  // ---------------------------------------------------------------------
  // The batch and its cache file

  function Current(env: Env, w: World): Batch
  {
    Batch(w.country, env.machineId, w.items)
  }

  /** `cache_queries`: the file is overwritten with the batch. */
  function Cached(env: Env, w: World): World
  {
    w.(cache := Saved(Current(env, w)))
  }

  /** `clear_queries`: the item list is emptied and the empty batch is written. */
  function Cleared(env: Env, w: World): World
  {
    Cached(env, w.(items := []))
  }

  function Urls(qs: seq<Query>): seq<Url>
  {
    seq(|qs|, i requires 0 <= i < |qs| => qs[i].url)
  }

  /** The URL list of a batch is that of all but its last item, then the last URL. */
  lemma UrlsSnoc(qs: seq<Query>)
    requires qs != []
    ensures Urls(qs) == Urls(qs[..|qs| - 1]) + [qs[|qs| - 1].url]
  {
  }

  /** The items with status `pending`, in batch order. */
  function PendingItems(qs: seq<Query>): (r: seq<Query>)
    ensures |r| <= |qs|
    ensures forall q :: q in r <==> q in qs && q.status == Pending
  {
    if qs == [] then []
    else (if qs[0].status == Pending then [qs[0]] else []) + PendingItems(qs[1..])
  }

  /** The filter keeps the batch order: filtering two parts one after the
      other is filtering their concatenation. */
  lemma {:induction false} PendingItemsConcat(a: seq<Query>, b: seq<Query>)
    decreases |a|
    ensures PendingItems(a + b) == PendingItems(a) + PendingItems(b)
  {
    if a == [] {
      assert a + b == b;
    } else {
      assert (a + b)[1..] == a[1..] + b;
      PendingItemsConcat(a[1..], b);
    }
  }

  /** One item is kept exactly when it is pending. */
  lemma PendingItemsOne(q: Query)
    ensures PendingItems([q]) == if q.status == Pending then [q] else []
  {
    assert [q][1..] == [];
  }

  predicate ProcessedHaveResults(items: seq<Query>)
  {
    forall i :: 0 <= i < |items| && items[i].status == Processed ==> items[i].results.Some?
  }

  /** The batch invariant: every processed item, in memory and in the cache
      file, carries its results. */
  predicate Consistent(w: World)
  {
    ProcessedHaveResults(w.items)
    && (w.cache.Saved? ==> ProcessedHaveResults(w.cache.batch.queries))
  }

  // ---------------------------------------------------------------------
  // get_queries_to_process_from_db

  /** One element of the comprehension: `url` is read before `id`. */
  function ToQuery(r: RawRecord): (q: Result<Query, Error>)
    ensures q.Err? <==> r.queryUrl.None? || r.id.None?
    ensures q.Err? ==> q.error == (if r.queryUrl.None? then MissingKey("query_url") else MissingKey("id"))
    ensures q.Ok? ==> q.value.url == r.queryUrl.value && q.value.id == r.id.value
                      && q.value.metadata == Metadata(r.industry, r.latitude, r.longitude, r.zoomLevel)
                      && q.value.status == Pending && q.value.results.None?
  {
    if r.queryUrl.None? then Err(MissingKey("query_url"))
    else if r.id.None? then Err(MissingKey("id"))
    else Ok(Query(r.queryUrl.value, r.id.value,
                  Metadata(r.industry, r.latitude, r.longitude, r.zoomLevel), Pending, None))
  }

  /** The comprehension over the coordinator's list: it maps every record,
      or fails with the KeyError of a record that lacks a key. */
  function ToQueries(recs: seq<RawRecord>): (r: Result<seq<Query>, Error>)
    ensures r.Ok? <==> forall i :: 0 <= i < |recs| ==> ToQuery(recs[i]).Ok?
    ensures r.Ok? ==> |r.value| == |recs| && forall i :: 0 <= i < |recs| ==> r.value[i] == ToQuery(recs[i]).value
    ensures r.Err? ==> r.error == MissingKey("query_url") || r.error == MissingKey("id")
  {
    if recs == [] then Ok([])
    else match ToQuery(recs[0])
      case Err(e) => Err(e)
      case Ok(q) =>
        match ToQueries(recs[1..])
        case Err(e) => Err(e)
        case Ok(qs) => Ok([q] + qs)
  }

  /** The error is the one of the first record that lacks a key. */
  lemma {:induction false} ToQueriesFirstError(recs: seq<RawRecord>)
    requires ToQueries(recs).Err?
    ensures exists i :: 0 <= i < |recs| && ToQuery(recs[i]) == Err(ToQueries(recs).error)
                        && forall j :: 0 <= j < i ==> ToQuery(recs[j]).Ok?
  {
    if ToQuery(recs[0]).Ok? {
      ToQueriesFirstError(recs[1..]);
      var i :| 0 <= i < |recs| - 1 && ToQuery(recs[1..][i]) == Err(ToQueries(recs[1..]).error)
               && forall j :: 0 <= j < i ==> ToQuery(recs[1..][j]).Ok?;
      assert ToQuery(recs[i + 1]) == Err(ToQueries(recs).error);
      forall j | 0 <= j < i + 1 ensures ToQuery(recs[j]).Ok? {
        if j > 0 { assert recs[j] == recs[1..][j - 1]; }
      }
    } else {
      assert ToQuery(recs[0]) == Err(ToQueries(recs).error);
    }
  }

  /** A fresh batch is all pending and has no results yet. */
  lemma FreshBatchIsPending(recs: seq<RawRecord>)
    requires ToQueries(recs).Ok?
    ensures forall q :: q in ToQueries(recs).value ==> q.status == Pending && q.results.None?
    ensures ProcessedHaveResults(ToQueries(recs).value)
    ensures PendingItems(ToQueries(recs).value) == ToQueries(recs).value
  {
    var qs := ToQueries(recs).value;
    assert forall i :: 0 <= i < |qs| ==> qs[i].status == Pending;
    AllPending(qs);
  }

  lemma {:induction false} AllPending(qs: seq<Query>)
    requires forall i :: 0 <= i < |qs| ==> qs[i].status == Pending
    ensures PendingItems(qs) == qs
  {
    if qs != [] {
      AllPending(qs[1..]);
    }
  }

  function FetchFromDb(env: Env, w: World): Step<Result<seq<Url>, Error>>
  {
    FetchLoop(env, w, 0)
  }

  /** Whether attempt `i` of the GET loop, answered with `g`, is followed
      by another. */
  predicate FetchRetried<T>(g: GetReply<T>, i: nat)
  {
    Transient(g) && i < |Retries| - 1
  }

  /** The state in which the GET loop makes its last attempt, and that
      attempt's number. */
  function FetchRetries(env: Env, w: World, i: nat): (World, nat)
    requires i < |Retries|
    decreases |Retries| - i
  {
    if FetchRetried(env.getReply(w.gets), i) then
      FetchRetries(env, w.(gets := w.gets + 1, sleeps := w.sleeps + [Retries[i]]), i + 1)
    else (w, i)
  }

  /** The attempt that ends the GET loop. The batch's `country` entry is
      taken from the body before the items are built. */
  function FetchFinal(env: Env, w: World): (s: Step<Result<seq<Url>, Error>>)
    ensures s.w.gets == w.gets + 1 && s.w.sleeps == w.sleeps
    ensures s.w.posts == w.posts && s.w.posted == w.posted && s.w.runs == w.runs
  {
    var w1 := w.(gets := w.gets + 1);
    var reply := env.getReply(w.gets);
    if reply.Received? then
      var w2 := w1.(country := reply.body.country);
      match ToQueries(reply.body.records)
      case Err(e) => Step(w2, Err(e))
      case Ok(qs) => Step(Cached(env, w2.(items := qs)), Ok(Urls(qs)))
    else if reply.NoQueriesKey? then Step(w1, Err(MissingKey("queries")))
    else Step(w1, Err(Exhaustion(reply)))
  }

  /** Attempt `i` of the GET loop and the attempts after it: the ones it
      retries, then the one that ends it. */
  function FetchLoop(env: Env, w: World, i: nat): Step<Result<seq<Url>, Error>>
    requires i < |Retries|
  {
    FetchFinal(env, FetchRetries(env, w, i).0)
  }

  /** The retried attempts each got a transient failure, were followed by
      the schedule's delay and changed nothing else; the last attempt gets
      a transient failure only when it is the third. */
  lemma {:induction false} FetchRetriesFacts(env: Env, w: World, i: nat)
    requires i < |Retries|
    decreases |Retries| - i
    ensures
      var (v, k) := FetchRetries(env, w, i);
      i <= k < |Retries|
      && v == w.(gets := w.gets + (k - i), sleeps := w.sleeps + Retries[i..k])
      && (forall m :: w.gets <= m < v.gets ==> Transient(env.getReply(m)))
      && (Transient(env.getReply(v.gets)) ==> k == |Retries| - 1)
  {
    if FetchRetried(env.getReply(w.gets), i) {
      var w2 := w.(gets := w.gets + 1, sleeps := w.sleeps + [Retries[i]]);
      FetchRetriesFacts(env, w2, i + 1);
      var k := FetchRetries(env, w2, i + 1).1;
      assert Retries[i..k] == [Retries[i]] + Retries[i + 1..k];
    }
  }

  /** The GET loop from attempt `i` on makes between one and the remaining
      number of GETs, sleeps the schedule's delays between them, and neither
      posts nor crawls. */
  lemma FetchLoopCounts(env: Env, w: World, i: nat)
    requires i < |Retries|
    ensures
      var f := FetchLoop(env, w, i);
      var n := f.w.gets - w.gets;
      1 <= n <= |Retries| - i
      && f.w.posts == w.posts && f.w.posted == w.posted && f.w.runs == w.runs
      && f.w.sleeps == w.sleeps + Retries[i..i + n - 1]
  {
    FetchRetriesFacts(env, w, i);
  }

  /** Only transient failures are retried; the loop succeeds exactly when
      the last reply is a body whose every record has a URL and an id; an
      exhausted loop raises the error of its last failure; a body without a
      `queries` key and a record without a key raise their KeyError. */
  lemma FetchLoopOutcome(env: Env, w: World, i: nat)
    requires i < |Retries|
    ensures
      var f := FetchLoop(env, w, i);
      var n := f.w.gets - w.gets;
      n >= 1
      && var last := env.getReply(w.gets + n - 1);
      (forall m :: w.gets <= m < w.gets + n - 1 ==> Transient(env.getReply(m)))
      && (f.r.Ok? <==> last.Received? && ToQueries(last.body.records).Ok?)
      && (Transient(last) ==> i + n == |Retries| && f.r == Err(Exhaustion(last)))
      && (last.NoQueriesKey? ==> f.r == Err(MissingKey("queries")))
      && (last.Received? && ToQueries(last.body.records).Err? ==> f.r == Err(ToQueries(last.body.records).error))
  {
    FetchRetriesFacts(env, w, i);
  }

  /** A good body installs a fresh batch, records its `country` entry,
      caches the batch and returns its URLs in server order; every error
      leaves the items and the cache as they were, and only a received body
      (one whose records then failed included) changes the `country` entry. */
  lemma FetchLoopState(env: Env, w: World, i: nat)
    requires i < |Retries|
    ensures
      var f := FetchLoop(env, w, i);
      var n := f.w.gets - w.gets;
      n >= 1
      && var last := env.getReply(w.gets + n - 1);
      (f.r.Ok? ==> last.Received? && f.w.items == ToQueries(last.body.records).value
                   && f.w.country == last.body.country
                   && f.w.cache == Saved(Current(env, f.w)) && f.r.value == Urls(f.w.items))
      && (f.r.Err? ==> f.w.items == w.items && f.w.cache == w.cache)
      && (f.w.country != w.country ==> last.Received?)
  {
    FetchRetriesFacts(env, w, i);
  }

  /** At most three GETs, separated by sleeps of 10 and then 20 seconds. */
  lemma FetchAtMostThree(env: Env, w: World)
    ensures
      var f := FetchFromDb(env, w);
      var n := f.w.gets - w.gets;
      1 <= n <= 3 && f.w.sleeps == w.sleeps + [10, 20][..n - 1]
  {
    FetchLoopCounts(env, w, 0);
    assert Retries[0..2] == [10, 20];
  }

  // ---------------------------------------------------------------------
  // get_query_from_queries, update_query_status, save_query_results

  /** The index of the first item with exactly this URL. */
  function Lookup(items: seq<Query>, url: Url): (r: Option<nat>)
    ensures r.Some? ==> r.value < |items| && items[r.value].url == url
    ensures r.Some? ==> forall j :: 0 <= j < r.value ==> items[j].url != url
    ensures r.None? <==> forall j :: 0 <= j < |items| ==> items[j].url != url
  {
    if items == [] then None
    else if items[0].url == url then Some(0)
    else match Lookup(items[1..], url)
      case None => None
      case Some(k) => Some(k + 1)
  }

  lemma LookupOnUrls(a: seq<Query>, b: seq<Query>, url: Url)
    requires Urls(a) == Urls(b)
    ensures Lookup(a, url) == Lookup(b, url)
  {
    assert forall j :: 0 <= j < |a| ==> a[j].url == Urls(a)[j] == Urls(b)[j] == b[j].url;
  }

  /** `update_query_status`: a URL that is not in the batch is only
      reported; otherwise the item gets the status and the cache is rewritten. */
  function SetStatus(env: Env, w: World, url: Url, s: Status): (v: World)
    ensures Lookup(w.items, url).None? ==> v == w
    ensures Lookup(w.items, url).Some? ==>
      var k := Lookup(w.items, url).value;
      |v.items| == |w.items|
      && v.items[k] == w.items[k].(status := s)
      && (forall j :: 0 <= j < |w.items| && j != k ==> v.items[j] == w.items[j])
      && v.cache == Saved(Current(env, v))
      && v.(items := w.items, cache := w.cache) == w
  {
    match Lookup(w.items, url)
    case None => w
    case Some(k) => Cached(env, w.(items := w.items[k := w.items[k].(status := s)]))
  }

  /** `save_query_results`: a URL that is not in the batch raises;
      otherwise the item gets the places and the cache is rewritten. */
  function SetResults(env: Env, w: World, url: Url, places: seq<Place>): (u: Step<Outcome<Error>>)
    ensures u.r.Fail? <==> Lookup(w.items, url).None?
    ensures u.r.Fail? ==> u.w == w && u.r.error == NotFound(url)
    ensures u.r.Pass? ==>
      var k := Lookup(w.items, url).value;
      |u.w.items| == |w.items|
      && u.w.items[k] == w.items[k].(results := Some(places))
      && (forall j :: 0 <= j < |w.items| && j != k ==> u.w.items[j] == w.items[j])
      && u.w.cache == Saved(Current(env, u.w))
      && u.w.(items := w.items, cache := w.cache) == w
  {
    match Lookup(w.items, url)
    case None => Step(w, Fail(NotFound(url)))
    case Some(k) => Step(Cached(env, w.(items := w.items[k := w.items[k].(results := Some(places))])), Pass)
  }

  // ---------------------------------------------------------------------
  // validate_result and request_handler

  /** Python truthiness of an optional string. */
  predicate Truthy(o: Option<string>)
  {
    o.Some? && o.value != ""
  }

  /** `validate_result`, and the filter of the push loop: a place is kept
      when it has a title, an address or a website. */
  predicate ValidateResult(p: Place)
  {
    Truthy(p.title) || Truthy(p.address) || Truthy(p.website)
  }

  /** `request_handler` for one visit. The status starts as `failed` and is
      written in `finally`; a valid place is saved first and only then is the
      status `processed`; a failed save is caught and leaves it `failed`. */
  function Handle(env: Env, w: World, v: Visit): World
  {
    match v.page
    case Scraped(p) =>
      if ValidateResult(p) then
        var saved := SetResults(env, w, v.url, [p]);
        SetStatus(env, saved.w, v.url, if saved.r.Pass? then Processed else Failed)
      else SetStatus(env, w, v.url, Failed)
    case _ => SetStatus(env, w, v.url, Failed)
  }

  /** The effect of one handler call on the item its URL finds: it is
      `processed` with the one place exactly when the page gave a valid place,
      otherwise `failed` with its results untouched; nothing else changes,
      and an unknown URL changes nothing at all. */
  lemma HandleEffect(env: Env, w: World, v: Visit)
    ensures
      var h := Handle(env, w, v);
      var k := Lookup(w.items, v.url);
      var valid := v.page.Scraped? && ValidateResult(v.page.place);
      h.country == w.country && h.gets == w.gets && h.posts == w.posts && h.runs == w.runs
      && h.sleeps == w.sleeps && h.posted == w.posted
      && (k.None? ==> h == w)
      && (k.Some? ==>
            |h.items| == |w.items|
            && (valid ==> h.items[k.value] == w.items[k.value].(status := Processed, results := Some([v.page.place])))
            && (!valid ==> h.items[k.value] == w.items[k.value].(status := Failed))
            && (forall j :: 0 <= j < |w.items| && j != k.value ==> h.items[j] == w.items[j])
            && h.cache == Saved(Current(env, h)))
  {
    if v.page.Scraped? && ValidateResult(v.page.place) {
      var saved := SetResults(env, w, v.url, [v.page.place]);
      if saved.r.Pass? {
        assert Urls(saved.w.items) == Urls(w.items);
        LookupOnUrls(saved.w.items, w.items, v.url);
      }
    }
  }

  /** The handler keeps the batch invariant: a place is saved before its
      item becomes `processed`. */
  lemma HandleKeepsConsistent(env: Env, w: World, v: Visit)
    requires Consistent(w)
    ensures Consistent(Handle(env, w, v))
  {
    HandleEffect(env, w, v);
    var h := Handle(env, w, v);
    var k := Lookup(w.items, v.url);
    if k.Some? {
      forall i | 0 <= i < |h.items| && h.items[i].status == Processed
        ensures h.items[i].results.Some?
      {
        if i != k.value {
          assert h.items[i] == w.items[i];
        }
      }
    }
  }

  /** The identity part of an item: what the handler never changes. */
  predicate SameIdentity(a: seq<Query>, b: seq<Query>)
  {
    |a| == |b|
    && forall i :: 0 <= i < |a| ==> a[i].url == b[i].url && a[i].id == b[i].id && a[i].metadata == b[i].metadata
  }

  /** The handler calls of one crawler run, in order. */
  function CrawlVisits(env: Env, w: World, visits: seq<Visit>): World
    decreases |visits|
  {
    if visits == [] then w else CrawlVisits(env, Handle(env, w, visits[0]), visits[1..])
  }

  function Crawl(env: Env, w: World, urls: seq<Url>): World
  {
    CrawlVisits(env, w.(runs := w.runs + 1), env.crawl(w.runs, urls))
  }

  /** A crawler run keeps every item's URL, id and metadata, the network
      counters and the batch invariant. */
  lemma {:induction false} CrawlVisitsKeeps(env: Env, w: World, visits: seq<Visit>)
    decreases |visits|
    ensures
      var c := CrawlVisits(env, w, visits);
      SameIdentity(c.items, w.items) && c.country == w.country
      && c.gets == w.gets && c.posts == w.posts && c.runs == w.runs
      && c.sleeps == w.sleeps && c.posted == w.posted
      && (Consistent(w) ==> Consistent(c))
  {
    if visits != [] {
      var h := Handle(env, w, visits[0]);
      HandleEffect(env, w, visits[0]);
      if Consistent(w) {
        HandleKeepsConsistent(env, w, visits[0]);
      }
      CrawlVisitsKeeps(env, h, visits[1..]);
      var c := CrawlVisits(env, h, visits[1..]);
      assert SameIdentity(c.items, w.items) by {
        assert SameIdentity(h.items, w.items);
      }
    }
  }

  // ---------------------------------------------------------------------
  // The merge of `main`

  /** `{q['url']: q for q in queries}`: a later item with the same URL wins. */
  function ByUrl(items: seq<Query>): map<Url, Query>
    decreases |items|
  {
    if items == [] then map[]
    else ByUrl(items[..|items| - 1])[items[|items| - 1].url := items[|items| - 1]]
  }

  /** The keys are the URLs of the batch, and each maps to the last item
      that has it. */
  lemma {:induction false} ByUrlLastWins(items: seq<Query>)
    ensures forall u :: u in ByUrl(items) <==> u in Urls(items)
    ensures forall i :: 0 <= i < |items| && (forall j :: i < j < |items| ==> items[j].url != items[i].url)
                        ==> items[i].url in ByUrl(items) && ByUrl(items)[items[i].url] == items[i]
  {
    if items != [] {
      var init := items[..|items| - 1];
      ByUrlLastWins(init);
      assert forall i :: 0 <= i < |init| ==> init[i] == items[i];
      UrlsSnoc(items);
    }
  }

  /** The update of one item from the map. */
  function MergeOne(q: Query, original: map<Url, Query>): Query
  {
    if q.url in original then q.(id := original[q.url].id, metadata := original[q.url].metadata)
    else q
  }

  function Merge(items: seq<Query>, original: map<Url, Query>): (r: seq<Query>)
    ensures |r| == |items|
    ensures forall i :: 0 <= i < |items| ==>
      r[i].url == items[i].url && r[i].status == items[i].status && r[i].results == items[i].results
    ensures forall i :: 0 <= i < |items| && items[i].url in original ==>
      r[i].id == original[items[i].url].id && r[i].metadata == original[items[i].url].metadata
    ensures forall i :: 0 <= i < |items| && items[i].url !in original ==> r[i] == items[i]
  {
    seq(|items|, i requires 0 <= i < |items| => MergeOne(items[i], original))
  }

  predicate DistinctUrls(items: seq<Query>)
  {
    forall i, j :: 0 <= i < j < |items| ==> items[i].url != items[j].url
  }

  /** With distinct URLs, merging the map taken before the crawl back into
      the crawled batch changes nothing. */
  lemma MergeAfterCrawlIsIdentity(before: seq<Query>, after: seq<Query>)
    requires DistinctUrls(before)
    requires SameIdentity(after, before)
    ensures Merge(after, ByUrl(before)) == after
  {
    ByUrlLastWins(before);
    forall i | 0 <= i < |after|
      ensures Merge(after, ByUrl(before))[i] == after[i]
    {
      assert Urls(before)[i] == before[i].url;
    }
  }

  /** With duplicate URLs, every item with a URL takes the id and metadata of
      the last item that has it. */
  lemma MergeTakesLastDuplicate(items: seq<Query>, i: nat, k: nat)
    requires i < |items| && k < |items| && items[i].url == items[k].url
    requires forall j :: k < j < |items| ==> items[j].url != items[k].url
    ensures Merge(items, ByUrl(items))[i].id == items[k].id
    ensures Merge(items, ByUrl(items))[i].metadata == items[k].metadata
  {
    ByUrlLastWins(items);
    assert items[k].url in Urls(items);
  }

  /** Two batches with the same identities index to the same ids and
      metadata. */
  lemma {:induction false} ByUrlSameIdentity(a: seq<Query>, b: seq<Query>)
    requires SameIdentity(a, b)
    decreases |a|
    ensures ByUrl(a).Keys == ByUrl(b).Keys
    ensures forall u :: u in ByUrl(a) ==> ByUrl(a)[u].id == ByUrl(b)[u].id && ByUrl(a)[u].metadata == ByUrl(b)[u].metadata
  {
    if a != [] {
      ByUrlSameIdentity(a[..|a| - 1], b[..|b| - 1]);
    }
  }

  /** The dictionary of `main` holds the item objects themselves, which the
      handlers update in place; since they never touch a URL, an id or
      metadata, merging from the map as it was before the crawl is the same
      as merging from the items as they are after it. */
  lemma MergeSnapshotIsLive(before: seq<Query>, after: seq<Query>)
    requires SameIdentity(after, before)
    ensures Merge(after, ByUrl(before)) == Merge(after, ByUrl(after))
  {
    ByUrlSameIdentity(after, before);
  }

  /** The merge touches neither the URLs, the statuses nor the results. */
  lemma MergeKeepsConsistent(w: World, original: map<Url, Query>)
    requires Consistent(w)
    ensures Consistent(w.(items := Merge(w.items, original)))
    ensures Urls(Merge(w.items, original)) == Urls(w.items)
  {
  }

  // ---------------------------------------------------------------------
  // count_queries_results and push_results_to_db

  /** The number of places over the processed items; `None` when a processed
      item has no `results` key (the sum raises KeyError). */
  function ResultCount(items: seq<Query>): Option<nat>
  {
    if items == [] then Some(0)
    else
      var last := items[|items| - 1];
      match ResultCount(items[..|items| - 1])
      case None => None
      case Some(n) =>
        if last.status != Processed then Some(n)
        else if last.results.None? then None
        else Some(n + |last.results.value|)
  }

  lemma {:induction false} ResultCountDefined(items: seq<Query>)
    ensures ResultCount(items).Some? <==> ProcessedHaveResults(items)
  {
    if items != [] {
      var init := items[..|items| - 1];
      ResultCountDefined(init);
      assert forall i :: 0 <= i < |init| ==> init[i] == items[i];
    }
  }

  function ToInsert(id: Opaque, p: Place): Insert
  {
    Insert(id, p.title, p.category, p.address, p.phone, p.website, p.email,
           p.socialLinks, p.sourceUrl, p.scrapedAt)
  }

  /** The inner loop of the push: the valid places of one item, in order. */
  function PlaceInserts(id: Opaque, places: seq<Place>): seq<Insert>
    decreases |places|
  {
    if places == [] then []
    else
      var last := places[|places| - 1];
      PlaceInserts(id, places[..|places| - 1]) + (if ValidateResult(last) then [ToInsert(id, last)] else [])
  }

  /** What one item contributes: nothing unless it is processed;
      `query.get('results', [])`. */
  function ItemInserts(q: Query): seq<Insert>
  {
    if q.status != Processed then []
    else PlaceInserts(q.id, if q.results.Some? then q.results.value else [])
  }

  /** The outer loop of the push. */
  function Inserts(items: seq<Query>): seq<Insert>
    decreases |items|
  {
    if items == [] then []
    else Inserts(items[..|items| - 1]) + ItemInserts(items[|items| - 1])
  }

  /** The inner loop keeps the order of the places: the records of two runs
      of places, one after the other. */
  lemma {:induction false} PlaceInsertsConcat(id: Opaque, a: seq<Place>, b: seq<Place>)
    decreases |b|
    ensures PlaceInserts(id, a + b) == PlaceInserts(id, a) + PlaceInserts(id, b)
  {
    if b == [] {
      assert a + b == a;
    } else {
      assert (a + b)[..|a + b| - 1] == a + b[..|b| - 1];
      assert (a + b)[|a + b| - 1] == b[|b| - 1];
      PlaceInsertsConcat(id, a, b[..|b| - 1]);
    }
  }

  /** One place gives one record when it is valid, and none otherwise. */
  lemma PlaceInsertsOne(id: Opaque, p: Place)
    ensures PlaceInserts(id, [p]) == if ValidateResult(p) then [ToInsert(id, p)] else []
  {
    assert [p][..0] == [];
  }

  /** The outer loop keeps the order of the items: the records of two runs
      of items, one after the other. */
  lemma {:induction false} InsertsConcat(a: seq<Query>, b: seq<Query>)
    decreases |b|
    ensures Inserts(a + b) == Inserts(a) + Inserts(b)
  {
    if b == [] {
      assert a + b == a;
    } else {
      assert (a + b)[..|a + b| - 1] == a + b[..|b| - 1];
      assert (a + b)[|a + b| - 1] == b[|b| - 1];
      InsertsConcat(a, b[..|b| - 1]);
    }
  }

  /** One item contributes its own records. */
  lemma InsertsOne(q: Query)
    ensures Inserts([q]) == ItemInserts(q)
  {
    assert [q][..0] == [];
  }

  /** The number of places that pass `validate_result`. */
  function ValidCount(places: seq<Place>): nat
  {
    if places == [] then 0 else (if ValidateResult(places[0]) then 1 else 0) + ValidCount(places[1..])
  }

  /** The number of valid places of the processed items. */
  function PayloadSize(items: seq<Query>): nat
  {
    if items == [] then 0
    else
      (if items[0].status == Processed && items[0].results.Some? then ValidCount(items[0].results.value) else 0)
      + PayloadSize(items[1..])
  }

  /** An item sends one record per valid place. */
  lemma {:induction false} PlaceInsertsSize(id: Opaque, places: seq<Place>)
    decreases |places|
    ensures |PlaceInserts(id, places)| == ValidCount(places)
  {
    if places != [] {
      assert places == [places[0]] + places[1..];
      PlaceInsertsConcat(id, [places[0]], places[1..]);
      PlaceInsertsOne(id, places[0]);
      PlaceInsertsSize(id, places[1..]);
    }
  }

  /** The payload holds exactly one record per valid place of a processed item. */
  lemma {:induction false} InsertsSize(items: seq<Query>)
    decreases |items|
    ensures |Inserts(items)| == PayloadSize(items)
  {
    if items != [] {
      var q := items[0];
      assert items == [q] + items[1..];
      InsertsConcat([q], items[1..]);
      InsertsOne(q);
      if q.status == Processed {
        PlaceInsertsSize(q.id, if q.results.Some? then q.results.value else []);
      }
      InsertsSize(items[1..]);
    }
  }

  /** A record is sent for exactly the valid places of an item, with the
      item's id. */
  lemma {:induction false} PlaceInsertsMembership(id: Opaque, places: seq<Place>, x: Insert)
    decreases |places|
    ensures x in PlaceInserts(id, places) <==> exists p :: p in places && ValidateResult(p) && x == ToInsert(id, p)
  {
    if places != [] {
      var init := places[..|places| - 1];
      var last := places[|places| - 1];
      PlaceInsertsMembership(id, init, x);
      assert places == init + [last];
      if x in PlaceInserts(id, places) && x !in PlaceInserts(id, init) {
        assert last in places;
      }
      if exists p :: p in places && ValidateResult(p) && x == ToInsert(id, p) {
        var p :| p in places && ValidateResult(p) && x == ToInsert(id, p);
        if p != last {
          assert p in init;
        }
      }
    }
  }

  /** The payload holds a record exactly when some processed item holds a
      valid place it was built from. */
  lemma InsertsMembership(items: seq<Query>, x: Insert)
    ensures x in Inserts(items) <==> exists i :: 0 <= i < |items| && x in ItemInserts(items[i])
  {
    if x in Inserts(items) {
      InsertsFrom(items, x);
    }
    if exists i :: 0 <= i < |items| && x in ItemInserts(items[i]) {
      var i :| 0 <= i < |items| && x in ItemInserts(items[i]);
      InsertsOf(items, i, x);
    }
  }

  lemma {:induction false} InsertsFrom(items: seq<Query>, x: Insert)
    requires x in Inserts(items)
    decreases |items|
    ensures exists i :: 0 <= i < |items| && x in ItemInserts(items[i])
  {
    var init, last := items[..|items| - 1], items[|items| - 1];
    if x in Inserts(init) {
      InsertsFrom(init, x);
      var i :| 0 <= i < |init| && x in ItemInserts(init[i]);
      assert items[i] == init[i];
    } else {
      assert x in ItemInserts(items[|items| - 1]);
    }
  }

  lemma {:induction false} InsertsOf(items: seq<Query>, i: nat, x: Insert)
    requires i < |items| && x in ItemInserts(items[i])
    decreases |items|
    ensures x in Inserts(items)
  {
    var init := items[..|items| - 1];
    if i < |init| {
      assert items[i] == init[i];
      InsertsOf(init, i, x);
    }
  }

  lemma {:induction false} PlaceInsertsBound(id: Opaque, places: seq<Place>)
    decreases |places|
    ensures |PlaceInserts(id, places)| <= |places|
  {
    if places != [] {
      PlaceInsertsBound(id, places[..|places| - 1]);
    }
  }

  /** The payload never holds more records than `count_queries_results`
      counted places. */
  lemma {:induction false} InsertsBound(items: seq<Query>)
    decreases |items|
    requires ResultCount(items).Some?
    ensures |Inserts(items)| <= ResultCount(items).value
  {
    if items != [] {
      var last := items[|items| - 1];
      InsertsBound(items[..|items| - 1]);
      if last.status == Processed {
        PlaceInsertsBound(last.id, last.results.value);
      }
    }
  }

  /** Whether a POST answered with `reply` is retried (when attempts are
      left): any status other than 200 and a connection error are. */
  predicate PostRetried(reply: PostReply)
  {
    reply != Answered(Ok200) && !reply.OtherFault?
  }

  /** The state in which the POST loop makes its last attempt, or finds none
      left, and that attempt's number. A retried status is retried at once,
      a connection error after `10 * (i + 1)` seconds. */
  function PostRetries(env: Env, w: World, payload: Payload, i: nat): (r: (World, nat))
    requires i <= Attempts
    decreases Attempts - i
    ensures r.1 <= Attempts && (r.1 < Attempts ==> !PostRetried(env.postReply(r.0.posts)))
  {
    if i < Attempts && PostRetried(env.postReply(w.posts)) then
      var w1 := w.(posts := w.posts + 1, posted := w.posted + [payload]);
      var w2 := if env.postReply(w.posts).ConnectionFault? then w1.(sleeps := w1.sleeps + [10 * (i + 1)]) else w1;
      PostRetries(env, w2, payload, i + 1)
    else (w, i)
  }

  /** The attempt that ends the POST loop: a 200 clears the batch, an
      unexpected exception is raised as it is, and with no attempt left the
      push raises. */
  function PostFinal(env: Env, w: World, payload: Payload, i: nat): Step<Outcome<Error>>
    requires i <= Attempts && (i < Attempts ==> !PostRetried(env.postReply(w.posts)))
  {
    if i == Attempts then Step(w, Fail(PushExhausted))
    else
      var w1 := w.(posts := w.posts + 1, posted := w.posted + [payload]);
      match env.postReply(w.posts)
      case OtherFault(m) => Step(w1, Fail(Foreign(m)))
      case _ => Step(Cleared(env, w1), Pass)
  }

  /** Attempt `i` of the POST loop and the attempts after it. */
  function PostLoop(env: Env, w: World, payload: Payload, i: nat): Step<Outcome<Error>>
    requires i <= Attempts
  {
    var r := PostRetries(env, w, payload, i);
    PostFinal(env, r.0, payload, r.1)
  }

  /** `push_results_to_db`: count, build the records, and send them unless
      there are none. The payload names the configured country, not the
      batch's `country` entry. */
  function Push(env: Env, w: World): Step<Outcome<Error>>
  {
    if ResultCount(w.items).None? then Step(w, Fail(MissingKey("results")))
    else
      var inserts := Inserts(w.items);
      if inserts == [] then Step(w, Pass)
      else PostLoop(env, w, Payload(env.country, env.machineId, inserts), 0)
  }

  /** Each retried attempt made one POST and changed nothing but the POSTs
      and the sleeps. */
  lemma {:induction false} PostRetriesFacts(env: Env, w: World, payload: Payload, i: nat)
    requires i <= Attempts
    decreases Attempts - i
    ensures
      var (v, k) := PostRetries(env, w, payload, i);
      i <= k && v.posts == w.posts + (k - i)
      && v.country == w.country && v.items == w.items && v.cache == w.cache
      && v.gets == w.gets && v.runs == w.runs
  {
    if i < Attempts && PostRetried(env.postReply(w.posts)) {
      var w1 := w.(posts := w.posts + 1, posted := w.posted + [payload]);
      var w2 := if env.postReply(w.posts).ConnectionFault? then w1.(sleeps := w1.sleeps + [10 * (i + 1)]) else w1;
      assert PostRetries(env, w, payload, i) == PostRetries(env, w2, payload, i + 1);
      PostRetriesFacts(env, w2, payload, i + 1);
    }
  }

  /** Each retried attempt got a status other than 200 or a connection error. */
  lemma PostRetriesReplies(env: Env, w: World, payload: Payload, i: nat)
    requires i <= Attempts
    ensures
      var (v, k) := PostRetries(env, w, payload, i);
      v.posts == w.posts + (k - i)
      && (forall m :: w.posts <= m < v.posts ==> PostRetried(env.postReply(m)))
  {
    PostRetriesFacts(env, w, payload, i);
    forall m | w.posts <= m < PostRetries(env, w, payload, i).0.posts
      ensures PostRetried(env.postReply(m))
    {
      PostRetriedAt(env, w, payload, i, m);
    }
  }

  /** The reply to one retried attempt was retried. */
  lemma {:induction false} PostRetriedAt(env: Env, w: World, payload: Payload, i: nat, m: nat)
    requires i <= Attempts
    requires w.posts <= m < PostRetries(env, w, payload, i).0.posts
    decreases Attempts - i
    ensures PostRetried(env.postReply(m))
  {
    if i < Attempts && PostRetried(env.postReply(w.posts)) && m > w.posts {
      var w1 := w.(posts := w.posts + 1, posted := w.posted + [payload]);
      var w2 := if env.postReply(w.posts).ConnectionFault? then w1.(sleeps := w1.sleeps + [10 * (i + 1)]) else w1;
      assert PostRetries(env, w, payload, i) == PostRetries(env, w2, payload, i + 1);
      PostRetriedAt(env, w2, payload, i + 1, m);
    }
  }

  /** Each retried attempt sent the payload. */
  lemma {:induction false} PostRetriesPosted(env: Env, w: World, payload: Payload, i: nat)
    requires i <= Attempts
    decreases Attempts - i
    ensures
      var (v, k) := PostRetries(env, w, payload, i);
      i <= k && v.posted == w.posted + seq(k - i, _ => payload)
  {
    if i < Attempts && PostRetried(env.postReply(w.posts)) {
      var w1 := w.(posts := w.posts + 1, posted := w.posted + [payload]);
      var w2 := if env.postReply(w.posts).ConnectionFault? then w1.(sleeps := w1.sleeps + [10 * (i + 1)]) else w1;
      PostRetriesPosted(env, w2, payload, i + 1);
      var k := PostRetries(env, w2, payload, i + 1).1;
      assert [payload] + seq(k - (i + 1), _ => payload) == seq(k - i, _ => payload);
    } else {
      assert seq(0, _ => payload) == [];
    }
  }

  /** Each retried attempt slept at most once, after the sleeps before it. */
  lemma {:induction false} PostRetriesSleeps(env: Env, w: World, payload: Payload, i: nat)
    requires i <= Attempts
    decreases Attempts - i
    ensures
      var (v, k) := PostRetries(env, w, payload, i);
      i <= k && |w.sleeps| <= |v.sleeps| <= |w.sleeps| + (k - i) && v.sleeps[..|w.sleeps|] == w.sleeps
  {
    if i < Attempts && PostRetried(env.postReply(w.posts)) {
      var w1 := w.(posts := w.posts + 1, posted := w.posted + [payload]);
      var w2 := if env.postReply(w.posts).ConnectionFault? then w1.(sleeps := w1.sleeps + [10 * (i + 1)]) else w1;
      PostRetriesSleeps(env, w2, payload, i + 1);
      var v := PostRetries(env, w2, payload, i + 1).0;
      assert v.sleeps[..|w.sleeps|] == v.sleeps[..|w2.sleeps|][..|w.sleeps|];
    }
  }

  /** The POST loop from attempt `i` on sends the same payload once per
      attempt, at most the remaining number of times, sleeps at most once per
      attempt, and neither fetches nor crawls. */
  lemma PostLoopCounts(env: Env, w: World, payload: Payload, i: nat)
    requires i < Attempts
    ensures
      var p := PostLoop(env, w, payload, i);
      var n := p.w.posts - w.posts;
      1 <= n <= Attempts - i
      && p.w.gets == w.gets && p.w.runs == w.runs && p.w.country == w.country
      && p.w.posted == w.posted + seq(n, _ => payload)
      && |w.sleeps| <= |p.w.sleeps| <= |w.sleeps| + n
      && p.w.sleeps[..|w.sleeps|] == w.sleeps
  {
    PostRetriesFacts(env, w, payload, i);
    PostRetriesPosted(env, w, payload, i);
    PostRetriesSleeps(env, w, payload, i);
    var (v, k) := PostRetries(env, w, payload, i);
    if k < Attempts {
      assert seq(k - i, _ => payload) + [payload] == seq(k - i + 1, _ => payload);
    }
  }

  /** Every attempt but the last got neither a 200 nor an unexpected
      exception; the push succeeds exactly when the last attempt got a 200;
      an unexpected exception is raised as it is. */
  lemma PostLoopOutcome(env: Env, w: World, payload: Payload, i: nat)
    requires i < Attempts
    ensures
      var p := PostLoop(env, w, payload, i);
      var n := p.w.posts - w.posts;
      n >= 1
      && var last := env.postReply(w.posts + n - 1);
      (forall m :: w.posts <= m < w.posts + n - 1 ==> env.postReply(m) != Answered(Ok200) && !env.postReply(m).OtherFault?)
      && (p.r.Pass? <==> last == Answered(Ok200))
      && (last.OtherFault? ==> p.r == Fail(Foreign(last.message)))
  {
    PostRetriesFacts(env, w, payload, i);
    PostRetriesReplies(env, w, payload, i);
  }

  /** The push raises `PushExhausted` exactly when all remaining attempts
      were made and the last got neither a 200 nor an unexpected exception. */
  lemma PostLoopExhausted(env: Env, w: World, payload: Payload, i: nat)
    requires i < Attempts
    ensures
      var p := PostLoop(env, w, payload, i);
      var n := p.w.posts - w.posts;
      n >= 1
      && var last := env.postReply(w.posts + n - 1);
      (p.r == Fail(PushExhausted) <==> i + n == Attempts && last != Answered(Ok200) && !last.OtherFault?)
  {
    PostRetriesFacts(env, w, payload, i);
    PostRetriesReplies(env, w, payload, i);
  }

  /** A successful push clears the batch and caches the empty one; a failed
      push leaves the batch and the cache as they were. */
  lemma PostLoopState(env: Env, w: World, payload: Payload, i: nat)
    requires i <= Attempts
    ensures
      var p := PostLoop(env, w, payload, i);
      (p.r.Pass? ==> p.w.items == [] && p.w.cache == Saved(Batch(w.country, env.machineId, [])))
      && (p.r.Fail? ==> p.w.items == w.items && p.w.cache == w.cache)
  {
    PostRetriesFacts(env, w, payload, i);
  }

  /** A coordinator that cannot be reached makes three connection attempts
      with sleeps of 10, 20 and 30 seconds, then the push raises. */
  lemma PushNeverConnecting(env: Env, w: World, payload: Payload)
    requires forall m :: env.postReply(m) == ConnectionFault
    ensures var p := PostLoop(env, w, payload, 0);
      p.r == Fail(PushExhausted) && p.w.posts == w.posts + 3 && p.w.sleeps == w.sleeps + [10, 20, 30]
  {
  }

  /** A coordinator that always answers with an error status is asked three
      times without a pause, then the push raises. */
  lemma PushAlwaysRejected(env: Env, w: World, payload: Payload)
    requires forall m :: env.postReply(m).Answered? && env.postReply(m).code != Ok200
    ensures var p := PostLoop(env, w, payload, 0);
      p.r == Fail(PushExhausted) && p.w.posts == w.posts + 3 && p.w.sleeps == w.sleeps
  {
  }

  /** In a consistent world the push never fails to count; with no valid
      place it sends nothing and changes nothing; otherwise it posts the
      records of exactly the valid places of the processed items. */
  lemma PushOutcomes(env: Env, w: World)
    requires Consistent(w)
    ensures var p := Push(env, w);
      p.r != Fail(MissingKey("results"))
      && (Inserts(w.items) == [] ==> p == Step(w, Pass))
      && (Inserts(w.items) != [] ==>
            p.w.posts > w.posts
            && p.w.posted[|w.posted|] == Payload(env.country, env.machineId, Inserts(w.items)))
  {
    ResultCountDefined(w.items);
    if Inserts(w.items) != [] {
      PostLoopCounts(env, w, Payload(env.country, env.machineId, Inserts(w.items)), 0);
    }
  }

  /** The push keeps the batch invariant. */
  lemma PushKeepsConsistent(env: Env, w: World)
    requires Consistent(w)
    ensures Consistent(Push(env, w).w)
  {
    ResultCountDefined(w.items);
    var inserts := Inserts(w.items);
    if inserts != [] {
      PostLoopState(env, w, Payload(env.country, env.machineId, inserts), 0);
    }
  }

  // ---------------------------------------------------------------------
  // get_queries_to_process_from_cache, get_queries_to_process

  /** Resuming from the cache file: no file, only whitespace or text that is
      not JSON give `None`; a batch without pending items is pushed, an empty
      one included; otherwise the cached items become the batch (the
      `country` entry stays as it is) and the pending URLs are returned. */
  function ResumeFromCache(env: Env, w: World): Step<Result<Option<seq<Url>>, Error>>
  {
    match w.cache
    case Saved(b) =>
      var w1 := w.(items := b.queries);
      var pending := PendingItems(b.queries);
      if |pending| == 0 then
        var p := Push(env, w1);
        Step(p.w, if p.r.Fail? then Err(p.r.error) else Ok(None))
      else Step(w1, Ok(Some(Urls(pending))))
    case _ => Step(w, Ok(None))
  }

  /** The cases of the resume: nothing readable gives `None` and changes
      nothing; a batch without pending items, an empty one included, becomes
      the items and is pushed, giving `None` exactly when the push does not
      raise; a batch with pending items becomes the items and exactly the
      pending URLs are returned. */
  lemma ResumeCases(env: Env, w: World)
    ensures
      var c := ResumeFromCache(env, w);
      (!w.cache.Saved? ==> c == Step(w, Ok(None)))
      && (w.cache.Saved? && PendingItems(w.cache.batch.queries) == [] ==>
            var p := Push(env, w.(items := w.cache.batch.queries));
            c.w == p.w && (c.r == Ok(None) <==> p.r.Pass?))
      && (w.cache.Saved? && PendingItems(w.cache.batch.queries) != [] ==>
            c.w == w.(items := w.cache.batch.queries)
            && c.r == Ok(Some(Urls(PendingItems(w.cache.batch.queries))))
            && forall u :: u in c.r.value.value <==>
                 exists q :: q in w.cache.batch.queries && q.status == Pending && q.url == u)
  {
    if w.cache.Saved? && PendingItems(w.cache.batch.queries) != [] {
      var pending := PendingItems(w.cache.batch.queries);
      forall u ensures u in Urls(pending) <==> exists q :: q in w.cache.batch.queries && q.status == Pending && q.url == u {
        if u in Urls(pending) {
          var i :| 0 <= i < |pending| && Urls(pending)[i] == u;
          assert pending[i] in pending;
        }
        if exists q :: q in w.cache.batch.queries && q.status == Pending && q.url == u {
          var q :| q in w.cache.batch.queries && q.status == Pending && q.url == u;
          var i :| 0 <= i < |pending| && pending[i] == q;
          assert Urls(pending)[i] == u;
        }
      }
    }
  }

  predicate Falsy(found: Option<seq<Url>>)
  {
    found.None? || found.value == []
  }

  function GetQueries(env: Env, w: World): Step<Result<seq<Url>, Error>>
  {
    var c := ResumeFromCache(env, w);
    match c.r
    case Err(e) => Step(c.w, Err(e))
    case Ok(found) => if Falsy(found) then FetchFromDb(env, c.w) else Step(c.w, Ok(found.value))
  }

  /** An unreadable cache file is the same as none. */
  lemma UnreadableCacheIsIgnored(env: Env, w: World)
    requires !w.cache.Saved?
    ensures ResumeFromCache(env, w) == Step(w, Ok(None))
    ensures GetQueries(env, w) == FetchFromDb(env, w)
  {
  }

  /** A worker restarted on a snapshot the previous one wrote gets the same
      items back and hands exactly the pending ones to the crawler. */
  lemma RestartResumes(env: Env, w: World)
    requires w.cache == Saved(Current(env, w))
    requires PendingItems(w.items) != []
    ensures
      var restarted := w.(items := []);
      var c := ResumeFromCache(env, restarted);
      c.w == w && c.r == Ok(Some(Urls(PendingItems(w.items))))
  {
  }

  /** Resuming from the cache keeps the batch invariant. */
  lemma ResumeKeepsConsistent(env: Env, w: World)
    requires Consistent(w)
    ensures Consistent(ResumeFromCache(env, w).w)
  {
    if w.cache.Saved? {
      var w1 := w.(items := w.cache.batch.queries);
      assert Consistent(w1);
      if |PendingItems(w.cache.batch.queries)| == 0 {
        PushKeepsConsistent(env, w1);
      }
    }
  }

  /** A fetched batch has nothing processed, so the fetch keeps the batch
      invariant. */
  lemma FetchKeepsConsistent(env: Env, w: World)
    requires Consistent(w)
    ensures Consistent(FetchFromDb(env, w).w)
  {
    FetchLoopState(env, w, 0);
    var f := FetchFromDb(env, w);
    if f.r.Ok? {
      var n := f.w.gets - w.gets;
      FreshBatchIsPending(env.getReply(w.gets + n - 1).body.records);
    }
  }

  /** Taking the URLs keeps the batch invariant. */
  lemma GetQueriesKeepsConsistent(env: Env, w: World)
    requires Consistent(w)
    ensures Consistent(GetQueries(env, w).w)
  {
    ResumeKeepsConsistent(env, w);
    var c := ResumeFromCache(env, w);
    if c.r.Ok? && Falsy(c.r.value) {
      FetchKeepsConsistent(env, c.w);
    }
  }

  // ---------------------------------------------------------------------
  // main

  /** One pass of the `while True` loop of `main`. */
  function Round(env: Env, w: World): Step<Outcome<Error>>
  {
    var g := GetQueries(env, w);
    match g.r
    case Err(e) => Step(g.w, Fail(e))
    case Ok(urls) =>
      if urls == [] then Step(g.w.(sleeps := g.w.sleeps + [Idle]), Pass)
      else
        var original := ByUrl(g.w.items);
        var c := Crawl(env, g.w, urls);
        Push(env, c.(items := Merge(c.items, original)))
  }

  /** A pass with no URL to visit neither crawls nor pushes: it idles for
      a minute after the lookup and carries on. */
  lemma RoundIdles(env: Env, w: World)
    requires GetQueries(env, w).r == Ok([])
    ensures
      var g := GetQueries(env, w);
      var d := Round(env, w);
      d.r.Pass? && d.w.posts == g.w.posts && d.w.runs == g.w.runs
      && d.w.items == g.w.items && d.w.cache == g.w.cache
      && d.w.sleeps == g.w.sleeps + [60]
  {
  }

  /** Getting queries never fails for want of a `results` key. */
  lemma GetQueriesNeverMissesResults(env: Env, w: World)
    requires Consistent(w)
    ensures GetQueries(env, w).r != Err(MissingKey("results"))
  {
    var c := ResumeFromCache(env, w);
    if w.cache.Saved? && |PendingItems(w.cache.batch.queries)| == 0 {
      PushOutcomes(env, w.(items := w.cache.batch.queries));
    }
    if c.r.Ok? && Falsy(c.r.value) {
      FetchLoopOutcome(env, c.w, 0);
    }
  }

  /** Every pass keeps the batch invariant, so the count inside a push never
      raises in a worker that starts consistent. */
  lemma RoundKeepsConsistent(env: Env, w: World)
    requires Consistent(w)
    ensures Consistent(Round(env, w).w)
    ensures Round(env, w).r != Fail(MissingKey("results"))
  {
    GetQueriesKeepsConsistent(env, w);
    GetQueriesNeverMissesResults(env, w);
    var g := GetQueries(env, w);
    if g.r.Ok? && g.r.value != [] {
      CrawlMergePushKeepsConsistent(env, g.w, g.r.value);
    }
  }

  /** The crawl, merge and push of a non-empty pass. */
  lemma CrawlMergePushKeepsConsistent(env: Env, w: World, urls: seq<Url>)
    requires Consistent(w)
    ensures var m := Crawl(env, w, urls); Consistent(Push(env, m.(items := Merge(m.items, ByUrl(w.items)))).w)
    ensures var m := Crawl(env, w, urls); Push(env, m.(items := Merge(m.items, ByUrl(w.items)))).r != Fail(MissingKey("results"))
  {
    var c := Crawl(env, w, urls);
    CrawlVisitsKeeps(env, w.(runs := w.runs + 1), env.crawl(w.runs, urls));
    var m := c.(items := Merge(c.items, ByUrl(w.items)));
    MergeKeepsConsistent(c, ByUrl(w.items));
    PushKeepsConsistent(env, m);
    PushOutcomes(env, m);
  }

  /** How the model of `main` ends: still looping when it stops looking, or
      ended by the error of a pass, which `main` reports and re-raises. */
  datatype Exit = Running | Ended(error: Error)

  /** A `while True` loop over `round`, cut off after `fuel` passes. */
  function Loop(round: World -> Step<Outcome<Error>>, w: World, fuel: nat): Step<Exit>
    decreases fuel
  {
    if fuel == 0 then Step(w, Running)
    else
      var s := round(w);
      if s.r.Fail? then Step(s.w, Ended(s.r.error)) else Loop(round, s.w, fuel - 1)
  }

  function RoundOf(env: Env): World -> Step<Outcome<Error>>
  {
    w => Round(env, w)
  }

  /** `main`, cut off after `fuel` passes. */
  function Run(env: Env, w: World, fuel: nat): Step<Exit>
  {
    Loop(RoundOf(env), w, fuel)
  }

  /** One pass of the loop, unfolded. */
  lemma LoopStep(round: World -> Step<Outcome<Error>>, w: World, n: nat)
    requires n > 0
    ensures Loop(round, w, n) == if round(w).r.Fail? then Step(round(w).w, Ended(round(w).r.error)) else Loop(round, round(w).w, n - 1)
  {
  }

  lemma {:induction false} LoopAgrees(f: World -> Step<Outcome<Error>>, g: World -> Step<Outcome<Error>>, w: World, fuel: nat)
    requires forall v :: f(v) == g(v)
    decreases fuel
    ensures Loop(f, w, fuel) == Loop(g, w, fuel)
  {
    if fuel > 0 {
      LoopAgrees(f, g, f(w).w, fuel - 1);
    }
  }

  /** A loop over any function that agrees with `Round` is `main`. */
  lemma RunIsLoop(env: Env, round: World -> Step<Outcome<Error>>, w: World, fuel: nat)
    requires forall v {:trigger Round(env, v)} :: round(v) == Round(env, v)
    ensures Loop(round, w, fuel) == Run(env, w, fuel)
  {
    forall v ensures round(v) == RoundOf(env)(v) {
      assert RoundOf(env)(v) == Round(env, v);
    }
    LoopAgrees(round, RoundOf(env), w, fuel);
  }

  /** A pass that keeps the batch invariant and never fails on the count. */
  ghost predicate KeepsConsistent(round: World -> Step<Outcome<Error>>)
  {
    forall v :: Consistent(v) ==> Consistent(round(v).w) && round(v).r != Fail(MissingKey("results"))
  }

  lemma {:induction false} LoopKeepsConsistent(round: World -> Step<Outcome<Error>>, w: World, fuel: nat)
    requires KeepsConsistent(round) && Consistent(w)
    decreases fuel
    ensures Consistent(Loop(round, w, fuel).w)
    ensures Loop(round, w, fuel).r != Ended(MissingKey("results"))
  {
    if fuel > 0 && round(w).r.Pass? {
      LoopKeepsConsistent(round, round(w).w, fuel - 1);
    }
  }

  /** `main` keeps the batch invariant however long it runs, and never ends
      on a failed count. */
  lemma RunKeepsConsistent(env: Env, w: World, fuel: nat)
    requires Consistent(w)
    ensures Consistent(Run(env, w, fuel).w)
    ensures Run(env, w, fuel).r != Ended(MissingKey("results"))
  {
    forall v | Consistent(v)
      ensures Consistent(RoundOf(env)(v).w) && RoundOf(env)(v).r != Fail(MissingKey("results"))
    {
      RoundKeepsConsistent(env, v);
    }
    LoopKeepsConsistent(RoundOf(env), w, fuel);
  }

  /** The line `main` prints before it re-raises. */
  datatype Report = StoppedOnReadTimeout | StoppedOnConnectTimeout | StoppedOnRequestFailure | Unexpected

  function ReportOf(msg: string): Report
  {
    if msg == "READ_TIMEOUT" then StoppedOnReadTimeout
    else if msg == "CONNECT_TIMEOUT" then StoppedOnConnectTimeout
    else if StartsWith(msg, "REQUEST_FAILED") then StoppedOnRequestFailure
    else Unexpected
  }

  /** The three GET exhaustion errors get their own line; the push and
      key errors are reported as unexpected. */
  lemma ReportOfErrors(e: Error)
    ensures e == ReadTimeout ==> ReportOf(Message(e)) == StoppedOnReadTimeout
    ensures e == ConnectTimeout ==> ReportOf(Message(e)) == StoppedOnConnectTimeout
    ensures e.RequestFailed? ==> ReportOf(Message(e)) == StoppedOnRequestFailure
    ensures e.PushExhausted? || e.MissingKey? ==> ReportOf(Message(e)) == Unexpected
  {
    var m := Message(e);
    match e
    case RequestFailed(d) =>
      assert m[..14] == "REQUEST_FAILED";
    case PushExhausted =>
      assert m[0] == PushFailure[0];
    case MissingKey(k) =>
      assert m[0] == '\'';
    case _ =>
  }

  // ---------------------------------------------------------------------
  // The worker process

  class Worker {
    const env: Env
    var country: Option<string>
    var items: seq<Query>
    var cache: CacheFile<Batch>
    var gets: nat
    var posts: nat
    var runs: nat
    ghost var sleeps: seq<nat>
    ghost var posted: seq<Payload>
    /** The pass of `main`'s loop, as a value. */
    ghost const round: World -> Step<Outcome<Error>>

    ghost function W(): World
      reads this
    {
      World(country, items, cache, gets, posts, runs, sleeps, posted)
    }

    ghost predicate RoundIsRound()
    {
      forall v {:trigger Round(env, v)} :: round(v) == Round(env, v)
    }

    /** A process starts with the configured country, an empty batch and
        whatever file it finds. */
    constructor (env: Env, file: CacheFile<Batch>)
      ensures this.env == env && W() == World(Some(env.country), [], file, 0, 0, 0, [], [])
      ensures RoundIsRound()
    {
      this.env := env;
      round := RoundOf(env);
      country, items, cache := Some(env.country), [], file;
      gets, posts, runs := 0, 0, 0;
      sleeps, posted := [], [];
    }

    method CacheQueries()
      modifies this
      ensures W() == Cached(env, old(W()))
    {
      cache := Saved(Batch(country, env.machineId, items));
    }

    method ClearQueries()
      modifies this
      ensures W() == Cleared(env, old(W()))
    {
      items := [];
      CacheQueries();
    }

    method GetQueryFromQueries(url: Url) returns (r: Result<nat, Error>)
      ensures r.Ok? <==> Lookup(items, url).Some?
      ensures r.Ok? ==> r.value == Lookup(items, url).value
      ensures r.Err? ==> r.error == NotFound(url)
    {
      var i := 0;
      while i < |items|
        invariant i <= |items|
        invariant forall j :: 0 <= j < i ==> items[j].url != url
      {
        if items[i].url == url {
          return Ok(i);
        }
        i := i + 1;
      }
      return Err(NotFound(url));
    }

    method UpdateQueryStatus(url: Url, status: Status)
      modifies this
      ensures W() == SetStatus(env, old(W()), url, status)
    {
      var k := GetQueryFromQueries(url);
      if k.Err? {
        return;  // reported and swallowed
      }
      items := items[k.value := items[k.value].(status := status)];
      CacheQueries();
    }

    method SaveQueryResults(url: Url, places: seq<Place>) returns (r: Outcome<Error>)
      modifies this
      ensures var s := SetResults(env, old(W()), url, places); W() == s.w && r == s.r
    {
      var k := GetQueryFromQueries(url);
      if k.Err? {
        return Fail(k.error);
      }
      items := items[k.value := items[k.value].(results := Some(places))];
      CacheQueries();
      r := Pass;
    }

    /** The two nested loops at the head of `push_results_to_db`. */
    method CollectInserts() returns (inserts: seq<Insert>)
      ensures inserts == Inserts(items)
    {
      inserts := [];
      for i := 0 to |items|
        invariant inserts == Inserts(items[..i])
      {
        assert items[..i + 1][..i] == items[..i];
        var q := items[i];
        if q.status == Processed {
          var places := if q.results.Some? then q.results.value else [];
          ghost var before := inserts;
          for j := 0 to |places|
            invariant inserts == before + PlaceInserts(q.id, places[..j])
          {
            assert places[..j + 1][..j] == places[..j];
            if ValidateResult(places[j]) {
              inserts := inserts + [ToInsert(q.id, places[j])];
            }
          }
          assert places[..|places|] == places;
        }
      }
      assert items[..|items|] == items;
    }

    method PushResultsToDb() returns (r: Outcome<Error>)
      modifies this
      ensures var s := Push(env, old(W())); W() == s.w && r == s.r
    {
      if ResultCount(items).None? {
        return Fail(MissingKey("results"));
      }
      var inserts := CollectInserts();
      if inserts == [] {
        return Pass;
      }
      var payload := Payload(env.country, env.machineId, inserts);
      r := PostPayload(payload);
    }

    /** The retry loop of `push_results_to_db`. */
    method PostPayload(payload: Payload) returns (r: Outcome<Error>)
      modifies this
      ensures var s := PostLoop(env, old(W()), payload, 0); W() == s.w && r == s.r
    {
      for i := 0 to Attempts
        invariant PostRetries(env, old(W()), payload, 0) == PostRetries(env, W(), payload, i)
      {
        ghost var before := W();
        var outcome := PostAttempt(payload, i);
        if outcome.Some? {
          assert PostRetries(env, before, payload, i) == (before, i);
          return outcome.value;
        }
      }
      assert PostRetries(env, W(), payload, Attempts) == (W(), Attempts);
      return Fail(PushExhausted);
    }

    /** Attempt `i` of the retry loop: the outcome of the push when the
        attempt ends the loop, `None` when it is retried. */
    method PostAttempt(payload: Payload, i: nat) returns (r: Option<Outcome<Error>>)
      requires i < Attempts
      modifies this
      ensures r.None? <==> PostRetried(env.postReply(old(posts)))
      ensures r.Some? ==> var s := PostFinal(env, old(W()), payload, i); W() == s.w && r.value == s.r
      ensures r.None? ==> PostRetries(env, old(W()), payload, i) == PostRetries(env, W(), payload, i + 1)
    {
      var reply := env.postReply(posts);
      posts := posts + 1;
      posted := posted + [payload];
      r := None;
      match reply {
        case Answered(code) =>
          if code == Ok200 {
            ClearQueries();
            r := Some(Pass);
          }
        case ConnectionFault =>
          sleeps := sleeps + [10 * (i + 1)];
        case OtherFault(m) =>
          r := Some(Fail(Foreign(m)));
      }
    }

    method GetQueriesToProcessFromDb() returns (r: Result<seq<Url>, Error>)
      modifies this
      ensures var s := FetchFromDb(env, old(W())); W() == s.w && r == s.r
    {
      var i := 0;
      while true
        invariant i < |Retries|
        invariant FetchRetries(env, old(W()), 0) == FetchRetries(env, W(), i)
        decreases |Retries| - i
      {
        ghost var before := W();
        var outcome := FetchAttempt(i);
        if outcome.Some? {
          assert FetchRetries(env, before, i) == (before, i);
          return outcome.value;
        }
        i := i + 1;
      }
    }

    /** Attempt `i` of the retry loop: the result of the fetch when the
        attempt ends the loop, `None` when it is retried. */
    method FetchAttempt(i: nat) returns (r: Option<Result<seq<Url>, Error>>)
      requires i < |Retries|
      modifies this
      ensures r.None? <==> FetchRetried(env.getReply(old(gets)), i)
      ensures r.Some? ==> var s := FetchFinal(env, old(W())); W() == s.w && r.value == s.r
      ensures r.None? ==> FetchRetries(env, old(W()), i) == FetchRetries(env, W(), i + 1)
    {
      var reply := env.getReply(gets);
      gets := gets + 1;
      if reply.Received? {
        country := reply.body.country;
        var built := ToQueries(reply.body.records);
        if built.Err? {
          return Some(Err(built.error));
        }
        items := built.value;
        CacheQueries();
        return Some(Ok(Urls(built.value)));
      }
      if reply.NoQueriesKey? {
        return Some(Err(MissingKey("queries")));
      }
      // a read timeout, a connect timeout or another request error
      if i == |Retries| - 1 {
        return Some(Err(Exhaustion(reply)));
      }
      sleeps := sleeps + [Retries[i]];
      return None;
    }

    method GetQueriesToProcessFromCache() returns (r: Result<Option<seq<Url>>, Error>)
      modifies this
      ensures var s := ResumeFromCache(env, old(W())); W() == s.w && r == s.r
    {
      if !cache.Saved? {
        return Ok(None);  // no file, only whitespace, or invalid JSON
      }
      var cached := cache.batch.queries;
      var pending := PendingItems(cached);
      items := cached;
      if |pending| == 0 {
        var p := PushResultsToDb();
        if p.Fail? {
          return Err(p.error);
        }
        return Ok(None);
      }
      return Ok(Some(Urls(pending)));
    }

    method GetQueriesToProcess() returns (r: Result<seq<Url>, Error>)
      modifies this
      ensures var s := GetQueries(env, old(W())); W() == s.w && r == s.r
    {
      var found := GetQueriesToProcessFromCache();
      if found.Err? {
        return Err(found.error);
      }
      if Falsy(found.value) {
        r := GetQueriesToProcessFromDb();
      } else {
        r := Ok(found.value.value);
      }
    }

    method RequestHandler(v: Visit)
      modifies this
      ensures W() == Handle(env, old(W()), v)
    {
      var status := Failed;
      match v.page {
        case Scraped(p) =>
          if ValidateResult(p) {
            status := Processed;
            var saved := SaveQueryResults(v.url, [p]);
            if saved.Fail? {
              status := Failed;
            }
          }
        case _ =>
      }
      UpdateQueryStatus(v.url, status);
    }

    /** `crawler.run(urls)`: the handler calls of the run, one after the other. */
    method RunCrawler(urls: seq<Url>)
      modifies this
      ensures W() == Crawl(env, old(W()), urls)
    {
      var visits := env.crawl(runs, urls);
      runs := runs + 1;
      var i := 0;
      while i < |visits|
        invariant i <= |visits|
        invariant Crawl(env, old(W()), urls) == CrawlVisits(env, W(), visits[i..])
      {
        assert visits[i..][1..] == visits[i + 1..];
        RequestHandler(visits[i]);
        i := i + 1;
      }
    }

    /** The loop of `main` that copies id and metadata back from the map. */
    method MergeMetadata(original: map<Url, Query>)
      modifies this
      ensures W() == old(W()).(items := Merge(old(items), original))
    {
      ghost var start := items;
      var i := 0;
      while i < |items|
        invariant |items| == |start| && i <= |items|
        invariant forall j :: 0 <= j < i ==> items[j] == MergeOne(start[j], original)
        invariant forall j :: i <= j < |items| ==> items[j] == start[j]
        invariant W() == old(W()).(items := items)
      {
        var q := items[i];
        if q.url in original {
          items := items[i := q.(id := original[q.url].id, metadata := original[q.url].metadata)];
        }
        i := i + 1;
      }
      assert items == Merge(start, original);
    }

    /** The body of the `while True` loop of `main`. */
    method RunRound() returns (r: Outcome<Error>)
      requires RoundIsRound()
      modifies this
      ensures round(old(W())) == Step(W(), r)
    {
      assert round(W()) == Round(env, W());
      var urls := GetQueriesToProcess();
      if urls.Err? {
        return Fail(urls.error);
      }
      if urls.value == [] {
        sleeps := sleeps + [Idle];
        return Pass;
      }
      var original := ByUrl(items);
      RunCrawler(urls.value);
      MergeMetadata(original);
      r := PushResultsToDb();
    }

    /** `main`, cut off after `fuel` passes of its `while True` loop. */
    method RunMain(fuel: nat) returns (exit: Exit)
      requires RoundIsRound()
      modifies this
      ensures Step(W(), exit) == Loop(round, old(W()), fuel)
    {
      var n: nat := fuel;
      while n > 0
        invariant Loop(round, old(W()), fuel) == Loop(round, W(), n)
        decreases n
      {
        ghost var before := W();
        var r := RunRound();
        LoopStep(round, before, n);
        if r.Fail? {
          return Ended(r.error);
        }
        n := n - 1;
      }
      return Running;
    }
  }
}
