/** Endpoints, and what applying one to a request means: a routing phase that
    reads the path, then a run phase that reads the body. Nothing here mentions
    an action, a state or a poll. */
module Endpoints {
  import opened Outcomes
  import opened PathCursor
  import opened Extraction
  import opened RequestBody

  datatype Endpoint =
    | Oneshot(x: Extractor)
    | Task(promise: Promise<Output>)
    | Raw
    | Collect(gate: Option<Error>, parse: seq<bv8> -> Result<Value, Error>)
    | And(e1: Endpoint, e2: Endpoint)
    | Or(e1: Endpoint, e2: Endpoint)
    | OrStrict(e1: Endpoint, e2: Endpoint)
    | Map(e: Endpoint, f: Output -> Value)
    | MapErr(e: Endpoint, g: Error -> Error)
    | AndThen(e: Endpoint, next: Output -> Promise<Value>)
    | Recover(e: Endpoint, rescue: Error -> Promise<Value>)

  /** `unit()`. */
  const UNIT := Oneshot(Literal([]))

  type Verdict = Result<Preflight<Output>, Error>

  /** The outcome of routing: the verdict and where the cursor is left. */
  datatype Routed = Routed(verdict: Verdict, cursor: Cursor)

  function MapVerdict(v: Verdict, f: Output -> Output): Verdict {
    match v
    case Ok(Completed(out)) => Ok(Completed(f(out)))
    case _ => v
  }

  /** Of two successful routes, does the left one win? */
  predicate LeftWins(l: Routed, r: Routed) {
    l.verdict.Ok? && (r.verdict.Ok? ==> l.cursor.popped >= r.cursor.popped)
  }

  function Tag(left: bool, out: Output): Output {
    if left then [Left(out)] else [Right(out)]
  }

  /** Both in a row: the first rejection counts, and a success is left to the
      run. */
  function Join(r1: Routed, r2: Routed): Routed {
    if r1.verdict.Err? then r1
    else if r2.verdict.Err? then r2
    else Routed(Ok(Incomplete), r2.cursor)
  }

  /** The better of two routes, tagged with its side. */
  function Better(l: Routed, r: Routed): Routed {
    if LeftWins(l, r) then Routed(MapVerdict(l.verdict, out => Tag(true, out)), l.cursor)
    else if r.verdict.Ok? then Routed(MapVerdict(r.verdict, out => Tag(false, out)), r.cursor)
    else Routed(Err(NotMatched(l.verdict.error, r.verdict.error)), r.cursor)
  }

  function Route(e: Endpoint, path: string, c: Cursor): (r: Routed)
    requires c.pos <= |path|
    ensures r.cursor.pos <= |path|
  {
    match e
    case Oneshot(x) =>
      var r := Extract(x, path, c);
      Routed(match r.result case Ok(out) => Ok(Completed(out)) case Err(err) => Err(err), r.cursor)
    case Task(_) => Routed(Ok(Incomplete), c)
    case Raw => Routed(Ok(Incomplete), c)
    case Collect(None, _) => Routed(Ok(Incomplete), c)
    case Collect(Some(err), _) => Routed(Err(err), c)
    case And(e1, e2) =>
      var r1 := Route(e1, path, c);
      Join(r1, Route(e2, path, r1.cursor))
    case Or(e1, e2) =>
      Better(Route(e1, path, c), Route(e2, path, c))
    case OrStrict(e1, e2) =>
      var l := Route(e1, path, c);
      if l.verdict.Ok? then l else
      var r := Route(e2, path, c);
      if r.verdict.Ok? then r
      else Routed(Err(NotMatched(l.verdict.error, r.verdict.error)), r.cursor)
    case Map(e1, f) =>
      var r := Route(e1, path, c);
      Routed(MapVerdict(r.verdict, out => [f(out)]), r.cursor)
    case MapErr(e1, g) =>
      var r := Route(e1, path, c);
      Routed(if r.verdict.Err? then Err(g(r.verdict.error)) else r.verdict, r.cursor)
    case AndThen(e1, _) =>
      var r := Route(e1, path, c);
      Routed(if r.verdict.Ok? then Ok(Incomplete) else r.verdict, r.cursor)
    case Recover(e1, _) =>
      var r := Route(e1, path, c);
      Routed(if r.verdict.Ok? then r.verdict else Ok(Incomplete), r.cursor)
  }

  /** A leaf that routing tries, and the cursor it is tried at. */
  datatype Attempt = Attempt(leaf: Endpoint, cursor: Cursor)

  /** The leaves of an endpoint that routing tries, in order. */
  function Attempts(e: Endpoint, path: string, c: Cursor): seq<Attempt>
    requires c.pos <= |path|
  {
    match e
    case And(e1, e2) =>
      var r1 := Route(e1, path, c);
      Attempts(e1, path, c) + if r1.verdict.Ok? then Attempts(e2, path, r1.cursor) else []
    case Or(e1, e2) => Attempts(e1, path, c) + Attempts(e2, path, c)
    case OrStrict(e1, e2) =>
      Attempts(e1, path, c) + if Route(e1, path, c).verdict.Ok? then [] else Attempts(e2, path, c)
    case Map(e1, _) => Attempts(e1, path, c)
    case MapErr(e1, _) => Attempts(e1, path, c)
    case AndThen(e1, _) => Attempts(e1, path, c)
    case Recover(e1, _) => Attempts(e1, path, c)
    case _ => [Attempt(e, c)]
  }

  /** The outcome of a run: the result, what became of the body, and how many
      `NotReady` answers the leaves and closure futures that ran gave in all. */
  datatype Outcome = Outcome(result: Result<Output, Error>, slot: Slot, waits: nat)

  function Await(p: Promise<Value>, o: Outcome): Outcome {
    Outcome(One(p.result), o.slot, o.waits + p.pending)
  }

  function MapOutcome(o: Outcome, f: Output -> Output): Outcome {
    match o.result
    case Ok(out) => o.(result := Ok(f(out)))
    case Err(_) => o
  }

  function Chain(o1: Outcome, o2: Outcome): Outcome {
    if o1.result.Err? then o1
    else MapOutcome(o2, out => o1.result.value + out).(waits := o1.waits + o2.waits)
  }

  function MapError(o: Outcome, g: Error -> Error): Outcome {
    match o.result
    case Ok(_) => o
    case Err(err) => o.(result := Err(g(err)))
  }

  function Then(o: Outcome, next: Output -> Promise<Value>): Outcome {
    match o.result
    case Ok(out) => Await(next(out), o)
    case Err(_) => o
  }

  function Rescue(o: Outcome, rescue: Error -> Promise<Value>): Outcome {
    match o.result
    case Ok(_) => o
    case Err(err) => Await(rescue(err), o)
  }

  function ParsePayload(parse: seq<bv8> -> Result<Value, Error>, payload: Result<seq<bv8>, Error>)
    : Result<Output, Error>
  {
    match payload
    case Ok(bytes) => One(parse(bytes))
    case Err(err) => Err(err)
  }

  /** Runs an endpoint that has been routed successfully from cursor `c`. */
  function Run(e: Endpoint, path: string, c: Cursor, s: Slot): Outcome
    requires c.pos <= |path|
    requires Route(e, path, c).verdict.Ok?
  {
    match e
    case Oneshot(x) => Outcome(Extract(x, path, c).result, s, 0)
    case Task(p) => Outcome(p.result, s, p.pending)
    case Raw =>
      var t := TakeBody(s);
      Outcome(match t.result case Ok(b) => Ok([Stream(b)]) case Err(err) => Err(err), t.slot, 0)
    case Collect(_, parse) =>
      var t := TakeBody(s);
      (match t.result
       case Ok(b) => Outcome(ParsePayload(parse, Payload(b)), t.slot, Stalls(b))
       case Err(err) => Outcome(Err(err), t.slot, 0))
    case And(e1, e2) =>
      var o1 := Run(e1, path, c, s);
      Chain(o1, Run(e2, path, Route(e1, path, c).cursor, o1.slot))
    case Or(e1, e2) =>
      if LeftWins(Route(e1, path, c), Route(e2, path, c))
      then MapOutcome(Run(e1, path, c, s), out => Tag(true, out))
      else MapOutcome(Run(e2, path, c, s), out => Tag(false, out))
    case OrStrict(e1, e2) =>
      if Route(e1, path, c).verdict.Ok? then Run(e1, path, c, s) else Run(e2, path, c, s)
    case Map(e1, f) => MapOutcome(Run(e1, path, c, s), out => [f(out)])
    case MapErr(e1, g) => MapError(Run(e1, path, c, s), g)
    case AndThen(e1, next) => Then(Run(e1, path, c, s), next)
    case Recover(e1, rescue) =>
      match Route(e1, path, c).verdict
      case Ok(_) => Rescue(Run(e1, path, c, s), rescue)
      case Err(err) => Await(rescue(err), Outcome(Err(err), s, 0))
  }

  /** Applying an endpoint at a cursor: route it, and run it if it matched. */
  function Apply(e: Endpoint, path: string, c: Cursor, s: Slot): Outcome
    requires c.pos <= |path|
  {
    match Route(e, path, c).verdict
    case Ok(_) => Run(e, path, c, s)
    case Err(err) => Outcome(Err(err), s, 0)
  }

  /** Applying an endpoint to a whole request. */
  function Serve(e: Endpoint, path: string, body: Option<Body>): Outcome
    requires IsPath(path)
  {
    Apply(e, path, START, Slot(body, 0))
  }
}
