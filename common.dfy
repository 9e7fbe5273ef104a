/** `Option`, used for values that may be absent (`null`, a missing query parameter). */
module Optional {
  datatype Option<+T> = None | Some(value: T)
}

/** The inclusive numeric ranges both API routes apply. A missing lower bound
    parses as 0 and a missing upper bound as `Infinity`. */
module Bounds {

  datatype UpperBound = Finite(limit: real) | Infinite

  predicate AtMost(v: real, max: UpperBound)
  {
    match max
    case Finite(limit) => v <= limit
    case Infinite => true
  }

  /** The route check `if (v < min || v > max) return false`, negated. */
  predicate InRange(v: real, min: real, max: UpperBound)
  {
    !(v < min || !AtMost(v, max))
  }

  /** The default range `[0, Infinity]` excludes exactly the negative values. */
  lemma DefaultRange(v: real)
    ensures InRange(v, 0.0, Infinite) <==> v >= 0.0
  {
  }
}

/** What the datastore and the HTTP envelope contribute to the model: a query
    either returns rows (possibly `null`), reports an error, or throws; a route
    answers with a success envelope carrying a count and the data, or with a
    failure message. */
module Store {
  import opened Optional

  datatype QueryResult<+T> = Rows(data: Option<seq<T>>) | QueryError | Threw

  /** `data || []`. */
  function RowsOrEmpty<T>(data: Option<seq<T>>): seq<T>
  {
    match data
    case Some(rows) => rows
    case None => []
  }

  datatype Response<+T> = Success(count: nat, data: seq<T>) | Failure(message: string)

  /** `{ success: true, count: data.length, data }`. */
  function Succeed<T>(data: seq<T>): (r: Response<T>)
    ensures r.Success? && r.data == data && r.count == |r.data|
  {
    Success(|data|, data)
  }
}

/** What the client side shares: the `[min, max]` pairs of the range
    sliders, and how a fetch ends and what the client then holds. */
module ClientState {
  import opened Store

  /** A `[number, number]` slider pair. */
  datatype Range = Range(lo: real, hi: real)

  /** How `fetch(...)` and `response.json()` end: with the route's envelope,
      or by throwing (the network or the decoding failed). */
  datatype FetchOutcome<+T> = Answered(response: Response<T>) | FetchFailed

  /** `if (data.success) setData(data.data)`: the held data are replaced by the
      answer's data when the envelope reports success and kept otherwise. */
  function AfterFetch<T>(held: seq<T>, outcome: FetchOutcome<T>): (r: seq<T>)
    ensures outcome.Answered? && outcome.response.Success? ==> r == outcome.response.data
    ensures outcome.FetchFailed? || outcome.response.Failure? ==> r == held
  {
    match outcome
    case Answered(Success(_, data)) => data
    case _ => held
  }
}
