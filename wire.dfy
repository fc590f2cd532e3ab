/** What crosses the boundary of a worker process: the replies of the
    coordinator's HTTP endpoints and the contents of the cache file. Both
    workers share these shapes and the retry schedule. */
module Wire {
  import opened Errors

  /** The outcome of one `requests.get` of the batch endpoint followed by
      `response.json()`; `T` is what a body with a `queries` key carries. */
  datatype GetReply<+T> =
    | Received(body: T)
    | NoQueriesKey                    // a JSON body without `queries`: KeyError
    | ReadTimedOut
    | ConnectTimedOut
    | RequestFault(detail: string)    // any other RequestException, a non-JSON body included

  /** The outcome of one `requests.post` of the results endpoint. */
  datatype PostReply =
    | Answered(code: int)
    | ConnectionFault                 // requests.ConnectionError, a connect timeout included
    | OtherFault(message: string)     // any other exception, a read timeout for one

  /** What reading `queries_cache.json` finds: no file, only whitespace,
      text that is not JSON, or a batch. */
  datatype CacheFile<+B> = NoFile | Blank | Garbled(reason: string) | Saved(batch: B)

  /** The delays of both GET retry loops and of fetcher.py's POST retry
      loop; the last one is never slept. */
  const Retries: seq<nat> := [10, 20, 30]

  const Ok200: int := 200

  /** The failures the GET loop retries. */
  predicate Transient<T>(g: GetReply<T>)
  {
    g.ReadTimedOut? || g.ConnectTimedOut? || g.RequestFault?
  }

  /** The exception raised when the last GET failed with `g`. */
  function Exhaustion<T>(g: GetReply<T>): (e: Error)
    requires Transient(g)
    ensures Message(e) == (match g
      case ReadTimedOut => "READ_TIMEOUT"
      case ConnectTimedOut => "CONNECT_TIMEOUT"
      case RequestFault(d) => "REQUEST_FAILED: " + d)
  {
    match g
    case ReadTimedOut => ReadTimeout
    case ConnectTimedOut => ConnectTimeout
    case RequestFault(d) => RequestFailed(d)
  }
}
