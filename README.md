# Batch work-queue workers of a Google Maps crawler, in Dafny

The crawler repository has two worker processes of the same shape. Each
holds one batch of work items in a global `queries` dictionary (country,
machine id, and a list of items with a URL, a status and, later, results).
It mirrors the batch into `queries_cache.json` after every change, and
loops:

- resume from the cache file, or fetch a fresh batch from the coordinator
  with GET retries after 10 and 20 seconds;
- let the browser crawler visit the URLs (each visit ends in
  `request_handler`, which updates one item in place);
- push the batch back with bounded POST retries and clear it.

`fetcher.py` is the link-discovery worker: its items are search URLs and
their results are place links. `fetcher_archive.py` is the place-scraping
worker: its items carry a coordinator id and metadata, and its push sends
one flat record per valid scraped place. `crawler.py` adds three pieces of
text parsing:
- `parse_text_duration` ("3 weeks ago" in seconds);
- the opening-hours label;
- the review-count token.

The model:

- `Wrappers`, `Enums`, `Errors`, `Wire`, `Strings` hold the shared vocabulary:
  - `Option`/`Result`/`Outcome`;
  - the `Status` enumeration;
  - the exceptions with their exact messages;
  - the replies a GET or POST can get and the states of the cache file;
  - the retry schedule `[10, 20, 30]`;
  - the Python string operations the code uses (`strip`, `split`,
    `replace`, `find`, `startswith`, `lower`, `int`).
- `Fetcher` (fetcher.py) and `FetcherArchive` (fetcher_archive.py) have two
  layers each. A `World` datatype is the whole state:
  - the items and the cache file;
  - how many GETs, POSTs and crawler runs were made;
  - the log of sleeps and the log of POST bodies.

  Pure functions over `World` say what each operation does. Lemmas prove its
  properties: retry counts and delays, which error ends a loop, what the
  cache holds afterwards, what goes into a payload, and the invariant that
  processed items carry results. The class `Worker` holds the same state in
  fields. It implements every operation as the source does: the linear
  lookup, the counting loop, the two retry loops, the nested insert loops,
  the metadata merge, the crawler run and `main`'s `while True`. Every
  method is proved to leave exactly the state, and return exactly the
  value, its function describes.
- The coordinator, the browser and the clock are oracles in `Env`:
  - the reply to the n-th GET;
  - the reply to the n-th POST;
  - the handler invocations of the n-th crawler run.

  Sleeps are recorded, not slept.
- `Crawler` (crawler.py) models `parse_text_duration` as a greedy scan of
  the regular expression and proves it against a reference grammar
  (`Phrase`, `Render`), in both directions. The open-hours loop is a `for`
  loop proved against a fold of per-line assignments. The review-count
  token is a chain of string functions.

Where the code and its written description differ, the model follows the
code:
- fetcher.py does not catch a malformed cache file. `json.loads` raises,
  so `ResumeFromCache` returns that error, while fetcher_archive.py ignores
  such a file.
- fetcher.py does not pause on a pass with nothing to do; fetcher_archive.py
  sleeps 60 seconds.
- The review count is read from `parts[1]` of `split('(')`. That is the text
  between the first and the second `(`, not everything after the first.

## Model

| member | source | states |
|---|---|---|
| `Enums.FromValue` | utils/enums.py:4-8 | `Status(v)`, the enumeration's own lookup by value (the workers only read `.value`): it finds the member whose value is `v`, and fails exactly when no member has that value |
| `Enums.ValueRoundTrip` | utils/enums.py:4-8 | every status is found again from its value, so the strings written to the cache name the statuses unambiguously |
| `Wire.Exhaustion` | fetcher.py:138-152 | the message raised after the last GET failure is `READ_TIMEOUT`, `CONNECT_TIMEOUT` or `REQUEST_FAILED: <detail>`, matching the failure kind |
| `Fetcher.Cached` | fetcher.py:244-247 | after `cache_queries` the file holds the current batch and nothing else changed |
| `Fetcher.Cleared` | fetcher.py:249-252 | `clear_queries` empties the item list, writes the empty batch under the same country and machine id, and changes nothing else |
| `Fetcher.PendingItems` | fetcher.py:172-175 | the filtered list holds exactly the pending items and is no longer than the batch |
| `Fetcher.PendingItemsConcat` | fetcher.py:172-175 | the filter keeps batch order and multiplicity: filtering a concatenation is filtering each part, in the same order |
| `Fetcher.PendingItemsOne` | fetcher.py:172-175 | a single item is kept exactly when its status is pending |
| `Fetcher.Lookup` | fetcher.py:187-197 | the found index is the first item whose URL, with `?hl=en` removed and `&` escaped, is a prefix of the page URL; nothing is found exactly when no item matches |
| `Fetcher.LookupOnUrls` | fetcher.py:187-197 | the lookup depends on nothing but the item URLs |
| `Fetcher.SetStatus` | fetcher.py:199-203 | an unknown URL raises "not found" and changes nothing; otherwise only the found item's status changes, and afterwards the cache equals the batch |
| `Fetcher.SetResults` | fetcher.py:205-208 | an unknown URL raises "not found" and changes nothing; otherwise only the found item's results change, and afterwards the cache equals the batch |
| `Fetcher.SetStatusIdempotent` | fetcher.py:199-203 | repeating the same status update leaves the state of doing it once |
| `Fetcher.ResultCountDefined` | fetcher.py:210-217 | the count raises KeyError exactly when a processed item has no results |
| `Fetcher.PostRetries` | fetcher.py:228-242 | the attempt that ends the POST loop is one of the three |
| `Fetcher.PostRetriesFacts` | fetcher.py:228-242 | every retried POST is counted and followed by its delay of the schedule; batch, cache and the other counters stay |
| `Fetcher.PostRetriesReplies` | fetcher.py:228-242 | every retried POST met a connection error, and a connection error on the ending attempt happens only on the third |
| `Fetcher.PostRetriesPosted` | fetcher.py:228-230 | every retried attempt posted the whole batch |
| `Fetcher.PostLoopCounts` | fetcher.py:225-242 | the POST loop makes one to three POSTs, each with the whole batch, sleeping the schedule's delays between them and none after the last |
| `Fetcher.PostLoopOutcome` | fetcher.py:228-242 | only connection errors are retried; a 200 clears batch and cache; any other status raises at once; `CONNECTION_ERROR` only after the third connection error; other exceptions pass through; every failure leaves batch and cache |
| `Fetcher.PushOutcomes` | fetcher.py:219-242 | with countable results: at most 3 POSTs with sleeps of 10 then 20; a first 200 clears after one POST; a first non-200 raises after one POST without clearing; `CONNECTION_ERROR` exactly when all three POSTs met connection errors |
| `Fetcher.FetchRetriesFacts` | fetcher.py:129-154 | every retried GET met a transient failure and was followed by its delay; nothing else changes; a transient failure on the ending attempt happens only on the third |
| `Fetcher.FetchLoopCounts` | fetcher.py:126-154 | the GET loop makes one to three GETs and sleeps the schedule's delays between them, none after the last; it neither posts nor crawls |
| `Fetcher.FetchLoopOutcome` | fetcher.py:129-154 | a received batch replaces the items, is cached, and its URLs are returned in server order; a body without `queries` raises its KeyError; an exhausted loop raises the error of its last failure; every error leaves batch and cache |
| `Fetcher.FetchAtMostThree` | fetcher.py:126-154 | at most three GETs, with sleeps of 10 then 20 seconds |
| `Fetcher.FetchAlwaysTimingOut` | fetcher.py:138-142 | a coordinator that always times out is asked three times, with sleeps of 10 and 20, before `READ_TIMEOUT` is raised |
| `Fetcher.ResumeCases` | fetcher.py:156-185 | no file, blank content or an empty list gives `None` and changes nothing; malformed JSON raises; a batch without pending items is installed and pushed, giving `None` exactly when the push succeeds; otherwise the whole cached list is installed and the result is the list of the pending items' URLs in batch order, which holds exactly the pending URLs |
| `Fetcher.DbOnlyWhenCacheFalsy` | fetcher.py:114-121 | the coordinator is asked exactly when the cache yields no URLs; otherwise the cached pending URLs are the result |
| `Fetcher.RestartResumes` | fetcher.py:156-185 | a process restarted on a snapshot the worker wrote gets the same items back, and the pending URLs in batch order |
| `Fetcher.HandleEffect` | fetcher.py:67-84 | the found item ends "processed" exactly when the page was scrolled, and then holds the links; a failed page only changes the status to "failed"; other items stay; the cache holds the batch; an unknown URL raises and changes nothing |
| `Fetcher.StatusWrittenBeforeResults` | fetcher.py:80-84 | the status is written before the links, so between the two writes the cache holds a processed item without results, and counting that snapshot raises |
| `Fetcher.CrawlVisitsKeeps` | fetcher.py:46 | a crawler run keeps the item URLs and the network counters; the cache is either untouched or equal to the batch |
| `Fetcher.LoopStep` | fetcher.py:42-47 | one pass of the `while True` loop: an error ends it, otherwise it goes on from the new state |
| `Fetcher.LoopAgrees` | fetcher.py:42-47 | the loop depends only on what its pass computes |
| `Fetcher.RunIsLoop` | fetcher.py:42-47 | a loop over any pass that agrees with `Round` is `main` |
| `Fetcher.LoopSplits` | fetcher.py:42-47 | looking at `a + b` passes is looking at `a` passes and then, if still running, at `b` more |
| `Fetcher.AnnouncedInitial` | fetcher.py:51-60 | every message `main` swallows starts with `R` or `C` |
| `Fetcher.AnnouncedErrors` | fetcher.py:48-65 | the three GET exhaustion errors and `CONNECTION_ERROR` are reported and swallowed; a rejected push, a not-found URL and a KeyError are re-raised |
| `Fetcher.Worker.constructor` | fetcher.py:28 | a process starts with an empty batch, the file it finds and no requests made |
| `Fetcher.Worker.CacheQueries` | fetcher.py:244-247 | the state after the write is `Cached` |
| `Fetcher.Worker.ClearQueries` | fetcher.py:249-252 | the state after clearing is `Cleared` |
| `Fetcher.Worker.GetQueryFromQueries` | fetcher.py:187-197 | the linear search returns the index `Lookup` finds, or raises "not found" exactly when there is none |
| `Fetcher.Worker.UpdateQueryStatus` | fetcher.py:199-203 | the in-place update has exactly the effect and outcome of `SetStatus` |
| `Fetcher.Worker.SaveQueryResults` | fetcher.py:205-208 | the in-place update has exactly the effect and outcome of `SetResults` |
| `Fetcher.Worker.CountQueriesResults` | fetcher.py:210-217 | the accumulating loop returns the link count, or raises KeyError exactly when a processed item has no results |
| `Fetcher.Worker.PushResultsToDb` | fetcher.py:219-242 | the count and the retry loop have exactly the effect and outcome of `Push` |
| `Fetcher.Worker.PostAttempt` | fetcher.py:229-242 | one POST attempt: it is retried exactly when it met a connection error before the third attempt; otherwise it ends the loop as `PostFinal` says |
| `Fetcher.Worker.GetQueriesToProcessFromDb` | fetcher.py:123-154 | the retry loop has exactly the effect and result of `FetchFromDb` |
| `Fetcher.Worker.FetchAttempt` | fetcher.py:130-154 | one GET attempt: it is retried exactly when it met a transient failure before the third attempt; otherwise it ends the loop as `FetchFinal` says |
| `Fetcher.Worker.GetQueriesToProcessFromCache` | fetcher.py:156-185 | the resume has exactly the effect and result of `ResumeFromCache` |
| `Fetcher.Worker.GetQueriesToProcess` | fetcher.py:114-121 | exactly the effect and result of `GetQueries` |
| `Fetcher.Worker.RequestHandler` | fetcher.py:67-84 | exactly the effect and outcome of `Handle` |
| `Fetcher.Worker.RunCrawler` | fetcher.py:46 | the handler calls of the run, in order, give the state `Crawl` describes |
| `Fetcher.Worker.RunRound` | fetcher.py:43-47 | one pass of the loop computes what `Round` does |
| `Fetcher.Worker.RunMain` | fetcher.py:38-65 | `main`, cut off after `fuel` passes, ends as the loop over `Round` does |
| `FetcherArchive.PendingItems` | fetcher_archive.py:275 | the filtered list holds exactly the pending items |
| `FetcherArchive.PendingItemsConcat` | fetcher_archive.py:275 | the comprehension keeps batch order and multiplicity: filtering a concatenation is filtering each part, in the same order |
| `FetcherArchive.PendingItemsOne` | fetcher_archive.py:275 | a single item is kept exactly when its status is pending |
| `FetcherArchive.ToQuery` | fetcher_archive.py:232-242 | a record becomes a pending item without results, with its `query_url` as URL, its id, and metadata holding its `industry`, `latitude`, `longitude` and `zoom_level` (each possibly absent); it fails exactly when the URL or the id is missing, with the KeyError of `query_url` (read first) or `id` |
| `FetcherArchive.ToQueries` | fetcher_archive.py:232-242 | the comprehension maps every record in order, or fails exactly when some record lacks a key |
| `FetcherArchive.ToQueriesFirstError` | fetcher_archive.py:232-242 | the KeyError raised is the one of the first record that lacks a key |
| `FetcherArchive.FreshBatchIsPending` | fetcher_archive.py:241 | a fresh batch is all pending, has no results, and is all returned as pending |
| `FetcherArchive.FetchFinal` | fetcher_archive.py:228-245 | the attempt that ends the GET loop makes one GET, sleeps nothing, and neither posts nor crawls |
| `FetcherArchive.FetchRetriesFacts` | fetcher_archive.py:226-260 | every retried GET met a transient failure and was followed by its delay; nothing else changes; a transient failure on the ending attempt happens only on the third |
| `FetcherArchive.FetchLoopCounts` | fetcher_archive.py:224-260 | one to three GETs, with the schedule's delays between them and none after the last; no POST and no crawl |
| `FetcherArchive.FetchLoopOutcome` | fetcher_archive.py:226-260 | only transient failures are retried; success exactly when the last reply is a body whose every record has a URL and an id; exhaustion raises the error of the last failure; missing keys raise their KeyError |
| `FetcherArchive.FetchLoopState` | fetcher_archive.py:229-245 | a good body installs the mapped batch, takes the batch's country from the body, caches the batch and returns its URLs; every error leaves items and cache; only a received body changes the country |
| `FetcherArchive.FetchAtMostThree` | fetcher_archive.py:224-260 | at most three GETs, with sleeps of 10 then 20 seconds |
| `FetcherArchive.Lookup` | fetcher_archive.py:287-292 | the found index is the first item with exactly that URL; nothing is found exactly when no item has it |
| `FetcherArchive.LookupOnUrls` | fetcher_archive.py:287-292 | the lookup depends on nothing but the item URLs |
| `FetcherArchive.SetStatus` | fetcher_archive.py:295-302 | an unknown URL is swallowed and leaves batch and cache; otherwise only the found item's status changes, and the cache equals the batch |
| `FetcherArchive.SetResults` | fetcher_archive.py:305-308 | an unknown URL raises "not found" and changes nothing; otherwise only the found item's results change, and the cache equals the batch |
| `FetcherArchive.HandleEffect` | fetcher_archive.py:71-97 | the found item ends "processed" with the one place exactly when the page gave a valid place; otherwise (crash, consent redirect, invalid place) it ends "failed" with its results untouched; other items and counters stay; an unknown URL changes nothing |
| `FetcherArchive.HandleKeepsConsistent` | fetcher_archive.py:86-97 | the place is saved before the item becomes processed, so every processed item keeps carrying results |
| `FetcherArchive.CrawlVisitsKeeps` | fetcher_archive.py:46 | a crawler run keeps every item's URL, id and metadata, the country, the counters and the batch invariant |
| `FetcherArchive.ByUrlLastWins` | fetcher_archive.py:42 | the dictionary's keys are the batch URLs, and each maps to the last item with that URL |
| `FetcherArchive.Merge` | fetcher_archive.py:49-54 | the merge keeps the length and every item's URL, status and results; an item whose URL is in the dictionary takes the id and metadata stored there, and any other item is unchanged |
| `FetcherArchive.MergeAfterCrawlIsIdentity` | fetcher_archive.py:42-54 | with distinct URLs, merging the pre-crawl dictionary back leaves every item's id and metadata as they were |
| `FetcherArchive.MergeTakesLastDuplicate` | fetcher_archive.py:42-54 | with duplicate URLs, every item takes the id and metadata of the last item with its URL |
| `FetcherArchive.ByUrlSameIdentity` | fetcher_archive.py:42 | batches with the same identities index to the same ids and metadata |
| `FetcherArchive.MergeSnapshotIsLive` | fetcher_archive.py:42-54 | merging from the dictionary taken before the crawl equals merging from the crawled items themselves, which the dictionary aliases |
| `FetcherArchive.MergeKeepsConsistent` | fetcher_archive.py:49-54 | the merge keeps URLs, statuses and results, hence the batch invariant |
| `FetcherArchive.ResultCountDefined` | fetcher_archive.py:311-312 | the sum raises KeyError exactly when a processed item has no results |
| `FetcherArchive.PlaceInsertsMembership` | fetcher_archive.py:323-343 | an item contributes a record exactly for each of its places with a title, an address or a website, carrying the item's id |
| `FetcherArchive.InsertsMembership` | fetcher_archive.py:320-343 | the payload holds a record exactly when some item contributes it |
| `FetcherArchive.InsertsFrom` | fetcher_archive.py:320-343 | every record in the payload comes from some item |
| `FetcherArchive.InsertsOf` | fetcher_archive.py:320-343 | every record an item contributes is in the payload |
| `FetcherArchive.PlaceInsertsBound` | fetcher_archive.py:323-326 | an item contributes at most one record per place |
| `FetcherArchive.PlaceInsertsConcat` | fetcher_archive.py:323-343 | the inner loop keeps the order of the places: two runs of places give their records one after the other |
| `FetcherArchive.PlaceInsertsOne` | fetcher_archive.py:325-343 | one place gives exactly one record, carrying the item's id, when it has a title, an address or a website, and none otherwise |
| `FetcherArchive.InsertsConcat` | fetcher_archive.py:321-343 | the outer loop keeps the order of the items: two runs of items give their records one after the other |
| `FetcherArchive.InsertsOne` | fetcher_archive.py:321-343 | a single item contributes its own records and nothing else |
| `FetcherArchive.PlaceInsertsSize` | fetcher_archive.py:323-343 | an item sends exactly one record per valid place |
| `FetcherArchive.InsertsSize` | fetcher_archive.py:320-343 | the payload holds exactly as many records as the processed items have valid places |
| `FetcherArchive.InsertsBound` | fetcher_archive.py:311-343 | the payload never holds more records than the count counted places |
| `FetcherArchive.PostRetries` | fetcher_archive.py:352-368 | the loop ends within three attempts, and an attempt that ends it early got a 200 or an unexpected exception |
| `FetcherArchive.PostRetriesFacts` | fetcher_archive.py:352-368 | every retried POST is counted, and changes nothing but the POST count and the sleeps |
| `FetcherArchive.PostRetriesReplies` | fetcher_archive.py:352-368 | every retried POST got a non-200 or a connection error |
| `FetcherArchive.PostRetriedAt` | fetcher_archive.py:352-368 | the reply to any one retried attempt was a non-200 or a connection error |
| `FetcherArchive.PostRetriesPosted` | fetcher_archive.py:354-359 | every retried attempt sent the same payload |
| `FetcherArchive.PostRetriesSleeps` | fetcher_archive.py:366-368 | every retried attempt slept at most once, after the earlier sleeps |
| `FetcherArchive.PostLoopCounts` | fetcher_archive.py:352-369 | one to three POSTs of the same payload, at most one sleep each, no GET and no crawl |
| `FetcherArchive.PostLoopOutcome` | fetcher_archive.py:352-369 | every attempt but the last got a non-200 or a connection error; the push succeeds exactly when the last got a 200; unexpected exceptions pass through |
| `FetcherArchive.PostLoopExhausted` | fetcher_archive.py:352-369 | the push raises "after multiple attempts" exactly when all three attempts got a non-200 or a connection error |
| `FetcherArchive.PostLoopState` | fetcher_archive.py:360-365 | success clears the batch and caches the empty one; failure leaves batch and cache |
| `FetcherArchive.PushNeverConnecting` | fetcher_archive.py:352-369 | an unreachable coordinator gets three attempts with sleeps of 10, 20 and 30, then the push raises |
| `FetcherArchive.PushAlwaysRejected` | fetcher_archive.py:360-362 | a coordinator that always answers an error status is asked three times with no sleep, then the push raises |
| `FetcherArchive.PushOutcomes` | fetcher_archive.py:315-369 | a consistent batch is always counted; with no valid place nothing is posted and nothing changes; otherwise the first POST carries the configured country, the machine id and exactly the built records |
| `FetcherArchive.PushKeepsConsistent` | fetcher_archive.py:315-369 | the push keeps the batch invariant |
| `FetcherArchive.ResumeCases` | fetcher_archive.py:263-284 | no file, blank content or malformed JSON gives `None` and changes nothing; a batch without pending items is installed and pushed, giving `None` exactly when the push does not raise; otherwise the cached list is installed and the result is the list of the pending items' URLs in batch order, which holds exactly the pending URLs |
| `FetcherArchive.UnreadableCacheIsIgnored` | fetcher_archive.py:263-284 | an unreadable cache never raises, and the URLs then come from the coordinator |
| `FetcherArchive.RestartResumes` | fetcher_archive.py:263-284 | a process restarted on a snapshot the worker wrote gets the same items back, and the pending URLs |
| `FetcherArchive.ResumeKeepsConsistent` | fetcher_archive.py:263-284 | the resume keeps the batch invariant |
| `FetcherArchive.FetchKeepsConsistent` | fetcher_archive.py:222-260 | a fetched batch has nothing processed, so the fetch keeps the invariant |
| `FetcherArchive.GetQueriesKeepsConsistent` | fetcher_archive.py:214-219 | taking the URLs keeps the batch invariant |
| `FetcherArchive.GetQueriesNeverMissesResults` | fetcher_archive.py:214-219 | on a consistent batch, getting URLs never raises the KeyError of a missing `results` |
| `FetcherArchive.RoundIdles` | fetcher_archive.py:56-58 | a pass with no URL neither crawls nor pushes, and idles for 60 seconds |
| `FetcherArchive.RoundKeepsConsistent` | fetcher_archive.py:39-58 | every pass keeps the batch invariant and never fails on the count |
| `FetcherArchive.CrawlMergePushKeepsConsistent` | fetcher_archive.py:41-55 | the crawl, merge and push of a pass keep the invariant and never fail on the count |
| `FetcherArchive.LoopStep` | fetcher_archive.py:39-58 | one pass of the `while True` loop: an error ends it, otherwise it goes on |
| `FetcherArchive.LoopAgrees` | fetcher_archive.py:39-58 | the loop depends only on what its pass computes |
| `FetcherArchive.RunIsLoop` | fetcher_archive.py:39-58 | a loop over any pass that agrees with `Round` is `main` |
| `FetcherArchive.LoopKeepsConsistent` | fetcher_archive.py:39-58 | a loop over passes that keep the invariant keeps it, and never ends on a failed count |
| `FetcherArchive.RunKeepsConsistent` | fetcher_archive.py:35-69 | `main` keeps the batch invariant however long it runs, and never ends on a failed count |
| `FetcherArchive.ReportOfErrors` | fetcher_archive.py:59-69 | the three GET exhaustion errors get their own line, and push and key errors are reported as unexpected |
| `FetcherArchive.Worker.constructor` | fetcher_archive.py:24 | a process starts with the configured country, an empty batch and the file it finds |
| `FetcherArchive.Worker.CacheQueries` | fetcher_archive.py:372-375 | the state after the write is `Cached` |
| `FetcherArchive.Worker.ClearQueries` | fetcher_archive.py:378-381 | the state after clearing is `Cleared` |
| `FetcherArchive.Worker.GetQueryFromQueries` | fetcher_archive.py:287-292 | the linear search returns the index `Lookup` finds, or raises "not found" exactly when there is none |
| `FetcherArchive.Worker.UpdateQueryStatus` | fetcher_archive.py:295-302 | the in-place update, with its failure swallowed, has exactly the effect of `SetStatus` |
| `FetcherArchive.Worker.SaveQueryResults` | fetcher_archive.py:305-308 | the in-place update has exactly the effect and outcome of `SetResults` |
| `FetcherArchive.Worker.CollectInserts` | fetcher_archive.py:320-343 | the two nested append loops build exactly `Inserts` of the items |
| `FetcherArchive.Worker.PushResultsToDb` | fetcher_archive.py:315-369 | exactly the effect and outcome of `Push` |
| `FetcherArchive.Worker.PostPayload` | fetcher_archive.py:352-369 | the `for` retry loop has exactly the effect and outcome of `PostLoop` |
| `FetcherArchive.Worker.PostAttempt` | fetcher_archive.py:353-368 | one POST attempt: retried exactly when it got a non-200 or a connection error; otherwise it ends the loop as `PostFinal` says |
| `FetcherArchive.Worker.GetQueriesToProcessFromDb` | fetcher_archive.py:222-260 | the retry loop has exactly the effect and result of `FetchFromDb` |
| `FetcherArchive.Worker.FetchAttempt` | fetcher_archive.py:227-260 | one GET attempt: retried exactly when it met a transient failure before the third; otherwise it ends the loop as `FetchFinal` says |
| `FetcherArchive.Worker.GetQueriesToProcessFromCache` | fetcher_archive.py:263-284 | exactly the effect and result of `ResumeFromCache` |
| `FetcherArchive.Worker.GetQueriesToProcess` | fetcher_archive.py:214-219 | exactly the effect and result of `GetQueries` |
| `FetcherArchive.Worker.RequestHandler` | fetcher_archive.py:71-97 | exactly the effect of `Handle` |
| `FetcherArchive.Worker.RunCrawler` | fetcher_archive.py:46 | the handler calls of the run, in order, give the state `Crawl` describes |
| `FetcherArchive.Worker.MergeMetadata` | fetcher_archive.py:49-54 | the in-place merge loop leaves exactly `Merge` of the items and changes nothing else |
| `FetcherArchive.Worker.RunRound` | fetcher_archive.py:40-58 | one pass of the loop computes what `Round` does |
| `FetcherArchive.Worker.RunMain` | fetcher_archive.py:35-69 | `main`, cut off after `fuel` passes, ends as the loop over `Round` does |
| `Crawler.MultipliersAreCalendar` | crawler.py:374-382 | the multipliers are 1 second, 60 of them, 60 minutes, 24 hours, 7 days, 30 days and 365 days |
| `Crawler.UnitAt` | crawler.py:370 | a found unit's name starts the text, and none is found only when no unit name does |
| `Crawler.UnitAtIsUnique` | crawler.py:370 | the alternation finds the one unit whose name starts the text |
| `Crawler.UnitPartSound` | crawler.py:370 | what the unit part accepts is spaces, the unit's name and an `s?\s*ago` suffix |
| `Crawler.UnitPartComplete` | crawler.py:370 | spaces, a unit name and such a suffix are accepted with that unit |
| `Crawler.MatchParts` | crawler.py:370 | a match splits into a non-empty run of digits and what the unit part accepts |
| `Crawler.MatchOfParts` | crawler.py:370 | digits followed by an accepted unit part match with the digits' value |
| `Crawler.MatchSound` | crawler.py:370 | every match is a rendering of the grammar "digits, spaces, unit, optional `s`, spaces, `ago`, anything", with the count its digits denote |
| `Crawler.MatchComplete` | crawler.py:370 | every rendering of the grammar matches with its count and unit |
| `Crawler.ParseTextDurationOf` | crawler.py:373-383 | on a match the result is the count times the unit's seconds |
| `Crawler.ParseTextDurationOtherwise` | crawler.py:370-372 | a text whose lower-cased form renders no phrase gives 0 |
| `Crawler.ParseTextDurationIgnoresCase` | crawler.py:370 | the result is blind to letter case |
| `Crawler.ParseTextDurationPlural` | crawler.py:370 | singular and plural match alike |
| `Crawler.MatchIgnoresTail` | crawler.py:370 | text after a match is ignored, since the match is anchored only at the start |
| `Crawler.ParseTextDurationMonotone` | crawler.py:373-383 | for a fixed unit a larger count gives a longer duration |
| `Crawler.ParseTextDurationNonNegative` | crawler.py:371-383 | the result is never negative, and 0 without a match |
| `Crawler.HoursOfStep` | crawler.py:112-115 | one more line adds its assignment, and a line without `:` adds none |
| `Crawler.OpenHours` | crawler.py:106-115 | the dictionary loop leaves exactly the fold of the lines' assignments (`OpenHoursOf`) |
| `Crawler.EntryOf` | crawler.py:113-115 | a line is split at its first `:` into a stripped day and a stripped time, the time keeping later `:` |
| `Crawler.HoursIgnoreLineWithoutColon` | crawler.py:113 | a line without `:` contributes nothing, wherever it stands |
| `Crawler.HoursOfDays` | crawler.py:112-115 | the days are exactly the stripped day parts of the lines with a `:` |
| `Crawler.HoursOfLastWins` | crawler.py:112-115 | a day has the time of the last line that names it |
| `Crawler.HoursOfDaysAreClean` | crawler.py:114-115 | a day holds no `:` and no surrounding whitespace |
| `Crawler.ReviewCountNeedsParen` | crawler.py:59-69 | without a `(` there is no count |
| `Crawler.ReviewCountAfterParen` | crawler.py:59-67 | with a single `(`, the count is read from the text after it, with `)` and `,` removed, stripped and cut at the first space |
| `Crawler.CleanCount` | crawler.py:67 | removing `)` and `,` from a `1,234)` display leaves its digits |
| `Crawler.ReadDigits` | crawler.py:67 | a run of digits is its own first word and `int()` reads its value |
| `Crawler.ReviewCountOfDisplay` | crawler.py:59-69 | a count displayed as `(1,234)` after the rating reads as the number its digits denote |

## Left out

- The browser is an oracle. All page work, `process_business`, the consent
  check, the scrolling and the JavaScript snippets become `Env.crawl`: the
  handler invocations of each crawler run. crawlee's own retries, redirects,
  ordering and concurrency are whatever that oracle says.
- The network and the clock are oracles. `requests` becomes the replies to
  the n-th GET and POST, there is no timeout value, and every `time.sleep`
  and `asyncio.sleep` is recorded in a ghost log instead of slept.
- JSON is not parsed. The cache file is `NoFile`, `Blank`, `Garbled(reason)`
  or a saved batch. A saved batch without a `queries` key, and any non-dict
  JSON, are not modelled. `json.dump` is assumed never to fail.
- The printed progress and log lines are left out.
- Floating point is left out: `parse_coordinate_from_map_url`, the star
  rating and the `float`/`int` conversions of the push records. The
  scraper never sets the star rating, review count, price level or current
  status, so they stay `None`, and they are not part of the modelled place
  or record. The coordinates are float data: the scraper sets them from
  the `!3d…!4d…` part of the page URL, and they are saved to the cache,
  but they are left out of the modelled place.
- Items are records with fixed keys, so `query.get('status')` and
  `query['status']` never fail. Only `results` may be absent.
- `FetcherArchive.Worker.PushResultsToDb` performs the count as a single
  check of the `ResultCount` function, not as a loop, since the source computes
  it with a `sum` comprehension.
- `while True` in `main` is modelled as a loop cut off after `fuel` passes
  (`Run`, `RunMain`). A run longer than the fuel is reported as `Running`.
- The `print` that precedes each re-raise in `main` is stated as a
  classification of the message (`Announced`, `ReportOf`), not as output.
- `Strings.Lower` lower-cases only ASCII letters, and `Strings.IsDigit` and
  `DecimalValue` know only ASCII digits. Python's `str.lower`, `\d` and
  `int` also accept other Unicode letters and digits.
- `Crawler.ParseTextDuration` returns an unbounded integer. Python's `int`
  is unbounded too, so nothing is lost.
- `FetcherArchive.PostLoopCounts` bounds the sleeps (at most one per attempt,
  after the earlier ones) without naming each delay: a connection error on
  attempt `i` sleeps `10 * (i + 1)` seconds and a non-200 sleeps nothing.
  `FetcherArchive.PushNeverConnecting` and
  `FetcherArchive.PushAlwaysRejected` state the two extreme schedules exactly.
- The `request_handler` of crawler.py is not modelled: it calls
  `update_local_query_status` and `save_results_local`, which are not
  defined in the repository.
- The rest of crawler.py's page extraction (selectors, photos, reviews)
  is part of the browser oracle. The files check.py, test.py,
  extract_place_links.py, utils/db.py, utils/all_tables.py and
  utils/google_maps_utils.py are not part of this model; the page helpers
  of the last are part of the browser oracle.
- The semaphore and `MAX_CONCURRENCY` of fetcher_archive.py are not
  modelled.
