/** The item status enumeration of utils/enums.py. */
module Enums {
  import opened Wrappers

  /** `IN_PROGRESS` is declared by the source but no code path assigns it. */
  datatype Status = Pending | InProgress | Processed | Failed

  /** The string stored in the batch and in the cache file. */
  function Value(s: Status): string
  {
    match s
    case Pending => "pending"
    case InProgress => "in_progress"
    case Processed => "processed"
    case Failed => "failed"
  }

  /** `Status(v)`: the member whose value is `v`, if any. */
  function FromValue(v: string): (r: Option<Status>)
    ensures r.Some? ==> Value(r.value) == v
    ensures r.None? ==> forall s: Status :: Value(s) != v
  {
    if v == "pending" then Some(Pending)
    else if v == "in_progress" then Some(InProgress)
    else if v == "processed" then Some(Processed)
    else if v == "failed" then Some(Failed)
    else None
  }

  lemma ValueRoundTrip(s: Status)
    ensures FromValue(Value(s)) == Some(s)
  {
  }
}
