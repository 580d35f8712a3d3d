/** Values, errors and the answer types shared by every part of the model. */
module Outcomes {

  datatype Option<+T> = None | Some(value: T)

  datatype Result<+T, +E> = Ok(value: T) | Err(error: E)

  /** What one `poll_buf` of a request body answers; a body that has run out of
      answers reports its end. */
  datatype Buf = Wait | Chunk(data: seq<bv8>) | Broken(error: Error)

  type Body = seq<Buf>

  /** An element of an output tuple. `Left` and `Right` are the two sides of the
      `Either` an `Or` produces; they keep the (one-element) tuple they wrap. */
  datatype Value =
    | Atom(id: int)
    | Text(text: string)
    | Bytes(bytes: seq<bv8>)
    | Stream(body: Body)
    | Left(items: Output)
    | Right(items: Output)

  /** Output tuples; `Combine::combine` is concatenation. */
  type Output = seq<Value>

  datatype Error =
    | NotFound
    | NotMatched(left: Error, right: Error)
    | BodyStolen
    | Cause(id: int)

  /** The answer `r` is the value alone, or the error. */
  ghost predicate Gives(v: Result<Value, Error>, r: Result<Output, Error>) {
    && (v.Ok? ==> r == Ok([v.value]))
    && (v.Err? ==> r == Err(v.error))
  }

  datatype Async<+T> = Ready(value: T) | NotReady

  datatype Preflight<+T> = Completed(value: T) | Incomplete

  /** The answer of a call that may also reach a `panic!`, an `unreachable!`, or
      an `unwrap`/`expect` of an empty option. */
  datatype Call<+T> = Returned(value: T) | Panicked

  type PreflightCall<+T> = Call<Result<Preflight<T>, Error>>

  type PollCall<+T> = Call<Result<Async<T>, Error>>

  /** A future that will answer `NotReady` `pending` times before its result. */
  datatype Promise<+T> = Promise(pending: nat, result: Result<T, Error>)

  /** A future being polled. Like `FutureResult`, it must not be polled again
      after it has answered. */
  datatype Future<+T> = Running(promise: Promise<T>) | Spent

  function PollFuture<T>(f: Future<T>): (r: (Future<T>, PollCall<T>))
  {
    match f
    case Spent => (Spent, Panicked)
    case Running(Promise(0, Ok(v))) => (Spent, Returned(Ok(Ready(v))))
    case Running(Promise(0, Err(e))) => (Spent, Returned(Err(e)))
    case Running(Promise(n, res)) => (Running(Promise(n - 1, res)), Returned(Ok(NotReady)))
  }
}
