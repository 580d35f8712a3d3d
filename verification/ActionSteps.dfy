/** The combinators' state machines: the states of an action tree and what one
    call of `preflight` or `poll_action` does to it, panics included. */
module ActionSteps {
  import opened Outcomes
  import opened PathCursor
  import opened Extraction
  import opened RequestBody
  import opened Endpoints

  datatype MaybeDone<A> = Init(action: Option<A>) | InFlight(running: A) | Finished(output: Output) | Gone

  datatype Choice<A> = Both(left: A, right: A) | First(chosen: A) | Second(chosen: A) | Done

  /** The state of one action over its sub-actions of type `A`. */
  datatype Node<A> =
    | OneshotNode(x: Option<Extractor>)
    | TaskNode(task: Future<Output>)
    | RawNode
    | CollectNode(gate: Option<Error>, parse: seq<bv8> -> Result<Value, Error>, receiver: Receiver)
    | AndNode(f1: MaybeDone<A>, f2: MaybeDone<A>)
    | OrNode(state: Choice<A>)
    | OrStrictNode(state: Choice<A>)
    | MapNode(action: A, f: Output -> Value)
    | MapErrNode(action: A, g: Error -> Error)
    | AndThenNode(action: A, next: Output -> Promise<Value>, inFlight: Option<Future<Value>>)
    | RecoverNode(action: A, rescue: Error -> Promise<Value>, inFlight: Option<Future<Value>>)

  /** An action tree as a value. */
  datatype Act = Act(node: Node<Act>)

  /** `Endpoint::action`. */
  function Spawn(e: Endpoint): Act {
    match e
    case Oneshot(x) => Act(OneshotNode(Some(x)))
    case Task(p) => Act(TaskNode(Running(p)))
    case Raw => Act(RawNode)
    case Collect(gate, parse) => Act(CollectNode(gate, parse, Start))
    case And(e1, e2) => Act(AndNode(Init(Some(Spawn(e1))), Init(Some(Spawn(e2)))))
    case Or(e1, e2) => Act(OrNode(Both(Spawn(e1), Spawn(e2))))
    case OrStrict(e1, e2) => Act(OrStrictNode(Both(Spawn(e1), Spawn(e2))))
    case Map(e1, f) => Act(MapNode(Spawn(e1), f))
    case MapErr(e1, g) => Act(MapErrNode(Spawn(e1), g))
    case AndThen(e1, next) => Act(AndThenNode(Spawn(e1), next, None))
    case Recover(e1, rescue) => Act(RecoverNode(Spawn(e1), rescue, None))
  }

  /** A combinator's answer that repeats its child's failure or panic. */
  function MapCall(call: PreflightCall<Output>, f: Output -> Output): PreflightCall<Output> {
    match call
    case Returned(v) => Returned(MapVerdict(v, f))
    case Panicked => Panicked
  }

  function TakeItem<A>(m: MaybeDone<A>): (r: (MaybeDone<A>, Option<Output>))
    ensures r.0 == Gone
  {
    (Gone, if m.Finished? then Some(m.output) else None)
  }

  function TakeBoth<A>(f1: MaybeDone<A>, f2: MaybeDone<A>): (Node<A>, Option<Output>) {
    var (g1, v1) := TakeItem(f1);
    if v1.None? then (AndNode(g1, f2), None) else
    var (g2, v2) := TakeItem(f2);
    (AndNode(g1, g2), if v2.None? then None else Some(v1.value + v2.value))
  }

  // ---- preflight ----

  datatype Flown = Flown(act: Act, cursor: Cursor, call: PreflightCall<Output>)

  datatype SlotFlown = SlotFlown(m: MaybeDone<Act>, cursor: Cursor, call: PreflightCall<()>)

  /** The end of `OrAction::preflight`, once both sides have answered `lv` and
      `rv` and left the cursor at `c1` and `c2`: the side that popped more segments is
      kept, and a tie goes to the left. */
  function Judge(left: Act, c1: Cursor, lv: Verdict, right: Act, c2: Cursor, rv: Verdict): (j: Flown)
    ensures j.cursor == c1 || j.cursor == c2
  {
    match (lv, rv)
    case (Ok(lp), Ok(rp)) => if c1.popped >= c2.popped then KeepLeft(left, c1, lp) else KeepRight(right, c2, rp)
    case (Ok(lp), Err(_)) => KeepLeft(left, c1, lp)
    case (Err(_), Ok(rp)) => KeepRight(right, c2, rp)
    case (Err(e1), Err(e2)) => Flown(Act(OrNode(Done)), c2, Returned(Err(NotMatched(e1, e2))))
  }

  /** `OrAction::preflight` once the left side has answered `lv`. */
  function OrRight(left: Act, c1: Cursor, lv: Verdict, r: Flown): (j: Flown)
    ensures j.cursor == c1 || j.cursor == r.cursor
  {
    match r.call
    case Panicked => Flown(Act(OrNode(Done)), r.cursor, Panicked)
    case Returned(rv) => Judge(left, c1, lv, r.act, r.cursor, rv)
  }

  function KeepLeft(left: Act, c: Cursor, p: Preflight<Output>): Flown {
    match p
    case Completed(out) => Flown(Act(OrNode(Done)), c, Returned(Ok(Completed([Left(out)]))))
    case Incomplete => Flown(Act(OrNode(First(left))), c, Returned(Ok(Incomplete)))
  }

  function KeepRight(right: Act, c: Cursor, p: Preflight<Output>): Flown {
    match p
    case Completed(out) => Flown(Act(OrNode(Done)), c, Returned(Ok(Completed([Right(out)]))))
    case Incomplete => Flown(Act(OrNode(Second(right))), c, Returned(Ok(Incomplete)))
  }

  /** `OrStrictAction::preflight` once the left side has answered. */
  function StrictLeft(l: Flown): Flown {
    Flown(Act(OrStrictNode(if l.call == Returned(Ok(Incomplete)) then First(l.act) else Done)), l.cursor, l.call)
  }

  /** The end of `OrStrictAction::preflight`, once the left side has been rejected
      with `e1` and the right side has answered. */
  function StrictRight(e1: Error, r: Flown): Flown {
    match r.call
    case Panicked => Flown(Act(OrStrictNode(Done)), r.cursor, Panicked)
    case Returned(Ok(Incomplete)) => Flown(Act(OrStrictNode(Second(r.act))), r.cursor, r.call)
    case Returned(Ok(Completed(_))) => Flown(Act(OrStrictNode(Done)), r.cursor, r.call)
    case Returned(Err(e2)) => Flown(Act(OrStrictNode(Done)), r.cursor, Returned(Err(NotMatched(e1, e2))))
  }

  function PreflightSlot(m: MaybeDone<Act>, path: string, c: Cursor): (r: SlotFlown)
    requires c.pos <= |path|
    ensures r.cursor.pos <= |path|
    decreases m, 0
  {
    match m
    case Init(Some(action)) =>
      var s := PreflightAct(action, path, c);
      (match s.call
       case Returned(Ok(Completed(out))) => SlotFlown(Finished(out), s.cursor, Returned(Ok(Incomplete)))
       case Returned(Ok(Incomplete)) => SlotFlown(InFlight(s.act), s.cursor, Returned(Ok(Incomplete)))
       case Returned(Err(err)) => SlotFlown(Init(None), s.cursor, Returned(Err(err)))
       case Panicked => SlotFlown(Init(None), s.cursor, Panicked))
    case _ => SlotFlown(m, c, Panicked)
  }

  /** `AndAction::preflight` once its first half has answered `x1`. */
  function PreflightSecond(m1: MaybeDone<Act>, x1: Preflight<()>, f2: MaybeDone<Act>, path: string, c: Cursor)
    : (r: Flown)
    requires c.pos <= |path|
    ensures r.cursor.pos <= |path|
    decreases f2, 1
  {
    var s2 := PreflightSlot(f2, path, c);
    match s2.call
    case Panicked => Flown(Act(AndNode(m1, s2.m)), s2.cursor, Panicked)
    case Returned(Err(err)) => Flown(Act(AndNode(m1, s2.m)), s2.cursor, Returned(Err(err)))
    case Returned(Ok(x2)) =>
      if x1.Completed? && x2.Completed? then
        var (node, out) := TakeBoth(m1, s2.m);
        Flown(Act(node), s2.cursor, if out.Some? then Returned(Ok(Completed(out.value))) else Panicked)
      else Flown(Act(AndNode(m1, s2.m)), s2.cursor, Returned(Ok(Incomplete)))
  }

  /** `OrAction::preflight`: both sides run from the same cursor. */
  function PreflightOr(state: Choice<Act>, path: string, c: Cursor): (r: Flown)
    requires c.pos <= |path|
    ensures r.cursor.pos <= |path|
    decreases state, 0
  {
    match state
    case Both(left, right) =>
      var l := PreflightAct(left, path, c);
      (match l.call
       case Panicked => Flown(Act(OrNode(Done)), l.cursor, Panicked)
       case Returned(lv) => OrRight(l.act, l.cursor, lv, PreflightAct(right, path, c)))
    case _ => Flown(Act(OrNode(Done)), c, Panicked)
  }

  /** `OrStrictAction::preflight`: the right side runs, from the original cursor,
      only if the left side is rejected. */
  function PreflightOrStrict(state: Choice<Act>, path: string, c: Cursor): (r: Flown)
    requires c.pos <= |path|
    ensures r.cursor.pos <= |path|
    decreases state, 0
  {
    match state
    case Both(left, right) =>
      var l := PreflightAct(left, path, c);
      if l.call.Returned? && l.call.value.Err?
      then StrictRight(l.call.value.error, PreflightAct(right, path, c))
      else StrictLeft(l)
    case _ => Flown(Act(OrStrictNode(Done)), c, Panicked)
  }

  function PreflightAct(a: Act, path: string, c: Cursor): (r: Flown)
    requires c.pos <= |path|
    ensures r.cursor.pos <= |path|
    decreases a, 0
  {
    match a.node
    case OneshotNode(None) => Flown(a, c, Panicked)
    case OneshotNode(Some(x)) =>
      var r := Extract(x, path, c);
      Flown(Act(OneshotNode(None)), r.cursor,
            Returned(match r.result case Ok(out) => Ok(Completed(out)) case Err(err) => Err(err)))
    case TaskNode(_) => Flown(a, c, Returned(Ok(Incomplete)))
    case RawNode => Flown(a, c, Returned(Ok(Incomplete)))
    case CollectNode(gate, _, _) =>
      Flown(a, c, Returned(if gate.Some? then Err(gate.value) else Ok(Incomplete)))
    case AndNode(f1, f2) =>
      var s1 := PreflightSlot(f1, path, c);
      (match s1.call
       case Panicked => Flown(Act(AndNode(s1.m, f2)), s1.cursor, Panicked)
       case Returned(Err(err)) => Flown(Act(AndNode(s1.m, f2)), s1.cursor, Returned(Err(err)))
       case Returned(Ok(x1)) => PreflightSecond(s1.m, x1, f2, path, s1.cursor))
    case OrNode(state) => PreflightOr(state, path, c)
    case OrStrictNode(state) => PreflightOrStrict(state, path, c)
    case MapNode(action, f) =>
      var s := PreflightAct(action, path, c);
      Flown(Act(MapNode(s.act, f)), s.cursor, MapCall(s.call, out => [f(out)]))
    case MapErrNode(action, g) =>
      var s := PreflightAct(action, path, c);
      Flown(Act(MapErrNode(s.act, g)), s.cursor,
            match s.call case Returned(Err(err)) => Returned(Err(g(err))) case _ => s.call)
    case AndThenNode(action, next, inFlight) =>
      if inFlight.Some? then Flown(a, c, Panicked) else
      var s := PreflightAct(action, path, c);
      (match s.call
       case Returned(Ok(Completed(out))) =>
         Flown(Act(AndThenNode(s.act, next, Some(Running(next(out))))), s.cursor, Returned(Ok(Incomplete)))
       case _ => Flown(Act(AndThenNode(s.act, next, None)), s.cursor, s.call))
    case RecoverNode(action, rescue, inFlight) =>
      if inFlight.Some? then Flown(a, c, Panicked) else
      var s := PreflightAct(action, path, c);
      match s.call
      case Returned(Err(err)) =>
        Flown(Act(RecoverNode(s.act, rescue, Some(Running(rescue(err))))), s.cursor, Returned(Ok(Incomplete)))
      case _ => Flown(Act(RecoverNode(s.act, rescue, None)), s.cursor, s.call)
  }

  /** A leaf action that is preflighted, and where it finds the cursor. */
  datatype PreflightEvent = LeafPreflighted(leaf: Act, cursor: Cursor)

  /** The leaves one `preflight` preflights, in order. */
  function Probes(a: Act, path: string, c: Cursor): seq<PreflightEvent>
    requires c.pos <= |path|
    decreases a, 0
  {
    match a.node
    case OneshotNode(None) => []
    case AndNode(f1, f2) =>
      var s1 := PreflightSlot(f1, path, c);
      SlotProbes(f1, path, c)
      + if s1.call.Returned? && s1.call.value.Ok? then SlotProbes(f2, path, s1.cursor) else []
    case OrNode(state) => OrProbes(state, path, c)
    case OrStrictNode(state) => StrictProbes(state, path, c)
    case MapNode(action, _) => Probes(action, path, c)
    case MapErrNode(action, _) => Probes(action, path, c)
    case AndThenNode(action, _, inFlight) => if inFlight.Some? then [] else Probes(action, path, c)
    case RecoverNode(action, _, inFlight) => if inFlight.Some? then [] else Probes(action, path, c)
    case _ => [LeafPreflighted(a, c)]
  }

  function OrProbes(state: Choice<Act>, path: string, c: Cursor): seq<PreflightEvent>
    requires c.pos <= |path|
    decreases state, 0
  {
    match state
    case Both(left, right) =>
      Probes(left, path, c) + if PreflightAct(left, path, c).call.Panicked? then [] else Probes(right, path, c)
    case _ => []
  }

  function StrictProbes(state: Choice<Act>, path: string, c: Cursor): seq<PreflightEvent>
    requires c.pos <= |path|
    decreases state, 0
  {
    match state
    case Both(left, right) =>
      var l := PreflightAct(left, path, c);
      Probes(left, path, c) + if l.call.Returned? && l.call.value.Err? then Probes(right, path, c) else []
    case _ => []
  }

  function SlotProbes(m: MaybeDone<Act>, path: string, c: Cursor): seq<PreflightEvent>
    requires c.pos <= |path|
    decreases m, 0
  {
    match m
    case Init(Some(action)) => Probes(action, path, c)
    case _ => []
  }

  // ---- poll_action ----

  datatype Polled = Polled(act: Act, slot: Slot, call: PollCall<Output>)

  datatype SlotPolled = SlotPolled(m: MaybeDone<Act>, slot: Slot, call: PollCall<()>)

  function MapPoll(call: PollCall<Output>, f: Output -> Output): PollCall<Output> {
    match call
    case Returned(Ok(Ready(out))) => Returned(Ok(Ready(f(out))))
    case _ => call
  }

  function Wrap(call: PollCall<Value>): PollCall<Output> {
    match call
    case Returned(Ok(Ready(v))) => Returned(Ok(Ready([v])))
    case Returned(Ok(NotReady)) => Returned(Ok(NotReady))
    case Returned(Err(err)) => Returned(Err(err))
    case Panicked => Panicked
  }

  function ParseCall(call: Result<Async<seq<bv8>>, Error>, parse: seq<bv8> -> Result<Value, Error>): PollCall<Output> {
    match call
    case Err(err) => Returned(Err(err))
    case Ok(NotReady) => Returned(Ok(NotReady))
    case Ok(Ready(bytes)) =>
      match parse(bytes)
      case Ok(v) => Returned(Ok(Ready([v])))
      case Err(err) => Returned(Err(err))
  }

  function PollSlot(m: MaybeDone<Act>, s: Slot): SlotPolled
    decreases m, 0
  {
    match m
    case Init(_) => SlotPolled(m, s, Panicked)
    case Gone => SlotPolled(m, s, Panicked)
    case Finished(_) => SlotPolled(m, s, Returned(Ok(Ready(()))))
    case InFlight(action) =>
      var p := PollAct(action, s);
      match p.call
      case Returned(Ok(Ready(out))) => SlotPolled(Finished(out), p.slot, Returned(Ok(Ready(()))))
      case Returned(Ok(NotReady)) => SlotPolled(InFlight(p.act), p.slot, Returned(Ok(NotReady)))
      case Returned(Err(err)) => SlotPolled(InFlight(p.act), p.slot, Returned(Err(err)))
      case Panicked => SlotPolled(InFlight(p.act), p.slot, Panicked)
  }

  /** `AndAction::poll_action` once its first half is ready. */
  function PollSecond(m1: MaybeDone<Act>, f2: MaybeDone<Act>, s: Slot): Polled
    decreases f2, 1
  {
    var s2 := PollSlot(f2, s);
    match s2.call
    case Panicked => Polled(Act(AndNode(m1, s2.m)), s2.slot, Panicked)
    case Returned(Err(err)) => Polled(Act(AndNode(m1, s2.m)), s2.slot, Returned(Err(err)))
    case Returned(Ok(NotReady)) => Polled(Act(AndNode(m1, s2.m)), s2.slot, Returned(Ok(NotReady)))
    case Returned(Ok(Ready(_))) =>
      var (node, out) := TakeBoth(m1, s2.m);
      Polled(Act(node), s2.slot, if out.Some? then Returned(Ok(Ready(out.value))) else Panicked)
  }

  function PollAct(a: Act, s: Slot): Polled
    decreases a, 0
  {
    match a.node
    case OneshotNode(_) => Polled(a, s, Panicked)
    case TaskNode(task) =>
      var (task', call) := PollFuture(task);
      Polled(Act(TaskNode(task')), s, call)
    case RawNode =>
      var t := TakeBody(s);
      Polled(a, t.slot, Returned(match t.result case Ok(b) => Ok(Ready([Stream(b)])) case Err(err) => Err(err)))
    case CollectNode(gate, parse, receiver) =>
      var r := PollReceiver(receiver, s);
      Polled(Act(CollectNode(gate, parse, r.receiver)), r.slot, ParseCall(r.call, parse))
    case AndNode(f1, f2) =>
      var s1 := PollSlot(f1, s);
      (match s1.call
       case Panicked => Polled(Act(AndNode(s1.m, f2)), s1.slot, Panicked)
       case Returned(Err(err)) => Polled(Act(AndNode(s1.m, f2)), s1.slot, Returned(Err(err)))
       case Returned(Ok(NotReady)) => Polled(Act(AndNode(s1.m, f2)), s1.slot, Returned(Ok(NotReady)))
       case Returned(Ok(Ready(_))) => PollSecond(s1.m, f2, s1.slot))
    case OrNode(First(action)) =>
      var p := PollAct(action, s);
      Polled(Act(OrNode(First(p.act))), p.slot, MapPoll(p.call, out => [Left(out)]))
    case OrNode(Second(action)) =>
      var p := PollAct(action, s);
      Polled(Act(OrNode(Second(p.act))), p.slot, MapPoll(p.call, out => [Right(out)]))
    case OrNode(_) => Polled(a, s, Panicked)
    case OrStrictNode(First(action)) =>
      var p := PollAct(action, s);
      Polled(Act(OrStrictNode(First(p.act))), p.slot, p.call)
    case OrStrictNode(Second(action)) =>
      var p := PollAct(action, s);
      Polled(Act(OrStrictNode(Second(p.act))), p.slot, p.call)
    case OrStrictNode(_) => Polled(a, s, Panicked)
    case MapNode(action, f) =>
      var p := PollAct(action, s);
      Polled(Act(MapNode(p.act, f)), p.slot, MapPoll(p.call, out => [f(out)]))
    case MapErrNode(action, g) =>
      var p := PollAct(action, s);
      Polled(Act(MapErrNode(p.act, g)), p.slot,
             match p.call case Returned(Err(err)) => Returned(Err(g(err))) case _ => p.call)
    case AndThenNode(action, next, Some(fut)) =>
      var (fut', call) := PollFuture(fut);
      Polled(Act(AndThenNode(action, next, Some(fut'))), s, Wrap(call))
    case AndThenNode(action, next, None) =>
      var p := PollAct(action, s);
      (match p.call
       case Returned(Ok(Ready(out))) =>
         var (fut', call) := PollFuture(Running(next(out)));
         Polled(Act(AndThenNode(p.act, next, Some(fut'))), p.slot, Wrap(call))
       case _ => Polled(Act(AndThenNode(p.act, next, None)), p.slot, p.call))
    case RecoverNode(action, rescue, Some(fut)) =>
      var (fut', call) := PollFuture(fut);
      Polled(Act(RecoverNode(action, rescue, Some(fut'))), s, Wrap(call))
    case RecoverNode(action, rescue, None) =>
      var p := PollAct(action, s);
      match p.call
      case Returned(Err(err)) =>
        var (fut', call) := PollFuture(Running(rescue(err)));
        Polled(Act(RecoverNode(p.act, rescue, Some(fut'))), p.slot, Wrap(call))
      case _ => Polled(Act(RecoverNode(p.act, rescue, None)), p.slot, p.call)
  }

  /** A leaf action or a closure's future that is polled, and the body slot it
      finds. */
  datatype PollEvent = LeafPolled(leaf: Act, slot: Slot) | FuturePolled(future: Future<Value>, slot: Slot)

  /** What one `poll_action` polls, in order. */
  function Polls(a: Act, s: Slot): seq<PollEvent>
    decreases a, 0
  {
    match a.node
    case AndNode(f1, f2) =>
      var s1 := PollSlot(f1, s);
      SlotPolls(f1, s) + if s1.call == Returned(Ok(Ready(()))) then SlotPolls(f2, s1.slot) else []
    case OrNode(state) => if state.First? || state.Second? then Polls(state.chosen, s) else []
    case OrStrictNode(state) => if state.First? || state.Second? then Polls(state.chosen, s) else []
    case MapNode(action, _) => Polls(action, s)
    case MapErrNode(action, _) => Polls(action, s)
    case AndThenNode(_, _, Some(fut)) => [FuturePolled(fut, s)]
    case AndThenNode(action, next, None) =>
      var p := PollAct(action, s);
      Polls(action, s)
      + (match p.call case Returned(Ok(Ready(out))) => [FuturePolled(Running(next(out)), p.slot)] case _ => [])
    case RecoverNode(_, _, Some(fut)) => [FuturePolled(fut, s)]
    case RecoverNode(action, rescue, None) =>
      var p := PollAct(action, s);
      Polls(action, s)
      + (match p.call case Returned(Err(err)) => [FuturePolled(Running(rescue(err)), p.slot)] case _ => [])
    case _ => [LeafPolled(a, s)]
  }

  function SlotPolls(m: MaybeDone<Act>, s: Slot): seq<PollEvent>
    decreases m, 0
  {
    if m.InFlight? then Polls(m.running, s) else []
  }

  // ---- poll_apply ----

  /** `AppFutureState`. */
  datatype Phase<A> = Starting(action: Option<A>) | Polling(running: A)

  datatype Applied = Applied(phase: Phase<Act>, slot: Slot, call: PollCall<Output>)

  function PollPolling(a: Act, s: Slot): Applied {
    var p := PollAct(a, s);
    Applied(Polling(p.act), p.slot, p.call)
  }

  /** One `poll_apply`: the first call routes the request and, unless that
      settles it, goes on to the first poll. */
  function PollApply(phase: Phase<Act>, path: string, s: Slot): Applied
    requires IsPath(path)
  {
    match phase
    case Polling(a) => PollPolling(a, s)
    case Starting(None) => Applied(phase, s, Panicked)
    case Starting(Some(a)) =>
      var r := PreflightAct(a, path, START);
      match r.call
      case Panicked => Applied(Starting(None), s, Panicked)
      case Returned(Err(err)) => Applied(Starting(None), s, Returned(Err(err)))
      case Returned(Ok(Completed(out))) => Applied(Starting(None), s, Returned(Ok(Ready(out))))
      case Returned(Ok(Incomplete)) => PollPolling(r.act, s)
  }

  /** What one `poll_apply` polls. */
  function ApplyPolls(phase: Phase<Act>, path: string, s: Slot): seq<PollEvent>
    requires IsPath(path)
  {
    match phase
    case Polling(a) => Polls(a, s)
    case Starting(None) => []
    case Starting(Some(a)) =>
      var r := PreflightAct(a, path, START);
      if r.call == Returned(Ok(Incomplete)) then Polls(r.act, s) else []
  }
}
