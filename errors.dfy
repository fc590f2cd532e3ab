/** The exceptions the two work-queue workers raise, with the exact message
    `str(e)` that their `main` loops inspect. */
module Errors {

  datatype Error =
    | ReadTimeout               // GET retries exhausted on a read timeout
    | ConnectTimeout            // GET retries exhausted on a connect timeout
    | RequestFailed(detail: string)  // GET retries exhausted on another request error
    | ConnectionError           // fetcher.py: POST retries exhausted on connection errors
    | PushRejected              // fetcher.py: the POST answered with a status other than 200
    | PushExhausted             // fetcher_archive.py: three POSTs without a 200
    | NotFound(url: string)     // no batch item for a URL
    | MissingKey(key: string)   // a dictionary lookup `d[key]` on an absent key (KeyError)
    | Foreign(message: string)  // an exception of a library the workers do not catch

  const PushFailure: string := "Failed to push results to database"

  /** The message `str(e)` of the raised exception. */
  function Message(e: Error): string
  {
    match e
    case ReadTimeout => "READ_TIMEOUT"
    case ConnectTimeout => "CONNECT_TIMEOUT"
    case RequestFailed(d) => "REQUEST_FAILED: " + d
    case ConnectionError => "CONNECTION_ERROR"
    case PushRejected => PushFailure + "."
    case PushExhausted => PushFailure + " after multiple attempts."
    case NotFound(u) => "Query " + u + " not found in queries"
    case MissingKey(k) => "'" + k + "'"
    case Foreign(m) => m
  }
}
