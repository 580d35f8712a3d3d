/** What each leaf and combinator does with the answers of its parts: what it
    changes, and that it changes nothing else. */
module CombinatorLaws {
  import opened Outcomes
  import opened PathCursor
  import opened Extraction
  import opened RequestBody
  import opened Endpoints
  import opened ActionSteps
  import opened ActionsMeetEndpoints
  import opened Service
  import opened SequencingLaws

  // ---- `map` and `map_err`, call by call ----

  function Applying(e: Endpoint): Phase<Act> {
    Starting(Some(Spawn(e)))
  }

  /** Both calls poll the same leaves and leave the same body, and the answers are
      the same but for an output, which is passed through `f`. */
  ghost predicate MapsOutput(p: Phase<Act>, q: Phase<Act>, f: Output -> Value, path: string, s: Slot, n: nat)
    requires IsPath(path)
  {
    var x, y := NthPoll(p, path, s, n), NthPoll(q, path, s, n);
    && y.slot == x.slot && NthPolls(q, path, s, n) == NthPolls(p, path, s, n)
    && y.call == if IsReady(x.call) then Returned(Ok(Ready([f(x.call.value.value.value)]))) else x.call
  }

  /** Both calls poll the same leaves and leave the same body, and the answers are
      the same but for an error, which is passed through `g`. */
  ghost predicate MapsError(p: Phase<Act>, q: Phase<Act>, g: Error -> Error, path: string, s: Slot, n: nat)
    requires IsPath(path)
  {
    var x, y := NthPoll(p, path, s, n), NthPoll(q, path, s, n);
    && y.slot == x.slot && NthPolls(q, path, s, n) == NthPolls(p, path, s, n)
    && y.call == if x.call.Returned? && x.call.value.Err? then Returned(Err(g(x.call.value.error))) else x.call
  }

  /** Every call of `poll_apply`, the one that routes included, answers for
      `e.map(f)` what it answers for `e`, with `f` applied to an output and every
      rejection, error, wait and panic as it is. */
  lemma MapServes(e: Endpoint, f: Output -> Value, path: string, s: Slot, n: nat)
    requires IsPath(path)
    ensures MapsOutput(Applying(e), Applying(Map(e, f)), f, path, s, n)
  {
    MappedPhases(Applying(e), Applying(Map(e, f)), f, path, s, n);
  }

  ghost predicate MapPhases(p: Phase<Act>, q: Phase<Act>, f: Output -> Value) {
    match p
    case Starting(None) => q == p
    case Starting(Some(a)) => q == Starting(Some(Act(MapNode(a, f))))
    case Polling(a) => q == Polling(Act(MapNode(a, f)))
  }

  lemma {:induction false} MappedPhases(p: Phase<Act>, q: Phase<Act>, f: Output -> Value, path: string, s: Slot, n: nat)
    requires IsPath(path) && MapPhases(p, q, f)
    ensures MapsOutput(p, q, f, path, s, n)
    decreases n
  {
    var x, y := PollApply(p, path, s), PollApply(q, path, s);
    if n > 0 {
      MappedPhases(x.phase, y.phase, f, path, x.slot, n - 1);
    }
  }

  /** The same for `e.map_err(g)`, with `g` applied to an error and every output as
      it is. */
  lemma MapErrServes(e: Endpoint, g: Error -> Error, path: string, s: Slot, n: nat)
    requires IsPath(path)
    ensures MapsError(Applying(e), Applying(MapErr(e, g)), g, path, s, n)
  {
    MappedErrPhases(Applying(e), Applying(MapErr(e, g)), g, path, s, n);
  }

  ghost predicate MapErrPhases(p: Phase<Act>, q: Phase<Act>, g: Error -> Error) {
    match p
    case Starting(None) => q == p
    case Starting(Some(a)) => q == Starting(Some(Act(MapErrNode(a, g))))
    case Polling(a) => q == Polling(Act(MapErrNode(a, g)))
  }

  lemma {:induction false} MappedErrPhases(p: Phase<Act>, q: Phase<Act>, g: Error -> Error, path: string, s: Slot,
                                           n: nat)
    requires IsPath(path) && MapErrPhases(p, q, g)
    ensures MapsError(p, q, g, path, s, n)
    decreases n
  {
    var x, y := PollApply(p, path, s), PollApply(q, path, s);
    if n > 0 {
      MappedErrPhases(x.phase, y.phase, g, path, x.slot, n - 1);
    }
  }

  // ---- Anywhere in an endpoint ----

  /** `map` at any cursor: whatever `e` answers in routing other than a completion,
      and whatever error it fails with, comes out as it is. */
  lemma MapChangesOutputOnly(e: Endpoint, f: Output -> Value, path: string, c: Cursor, s: Slot)
    requires c.pos <= |path|
    ensures var r, m := Route(e, path, c), Route(Map(e, f), path, c);
            && (r.verdict.Err? || r.verdict == Ok(Incomplete) ==> m == r)
            && (r.verdict.Ok? && r.verdict.value.Completed? ==>
                  m == Routed(Ok(Completed([f(r.verdict.value.value)])), r.cursor))
    ensures var o, m := Apply(e, path, c, s), Apply(Map(e, f), path, c, s);
            && (o.result.Err? ==> m == o)
            && (o.result.Ok? ==> m == Outcome(Ok([f(o.result.value)]), o.slot, o.waits))
  {}

  /** `map_err` at any cursor: errors of routing and of the run are mapped, everything
      else is as it is. */
  lemma MapErrChangesErrorOnly(e: Endpoint, g: Error -> Error, path: string, c: Cursor, s: Slot)
    requires c.pos <= |path|
    ensures var r, m := Route(e, path, c), Route(MapErr(e, g), path, c);
            && (r.verdict.Ok? ==> m == r)
            && (r.verdict.Err? ==> m == Routed(Err(g(r.verdict.error)), r.cursor))
    ensures var o, m := Apply(e, path, c, s), Apply(MapErr(e, g), path, c, s);
            && (o.result.Ok? ==> m == o)
            && (o.result.Err? ==> m == Outcome(Err(g(o.result.error)), o.slot, o.waits))
  {}

  /** What a closure's future adds to an outcome. */
  ghost predicate Continues(o: Outcome, p: Promise<Value>, o': Outcome) {
    && o'.slot == o.slot && o'.waits == o.waits + p.pending
    && (p.result.Ok? ==> o'.result == Ok([p.result.value]))
    && (p.result.Err? ==> o'.result == Err(p.result.error))
  }

  /** `and_then`: matches where `e` does, and leaves its cursor; a failure of `e` is
      the failure, and from an output the closure's future goes on. */
  lemma AndThenContinuesOutput(e: Endpoint, next: Output -> Promise<Value>, path: string, c: Cursor, s: Slot)
    requires c.pos <= |path|
    ensures var r, a := Route(e, path, c), Route(AndThen(e, next), path, c);
            && (r.verdict.Err? ==> a == r)
            && (r.verdict.Ok? ==> a == Routed(Ok(Incomplete), r.cursor))
    ensures var o, a := Apply(e, path, c, s), Apply(AndThen(e, next), path, c, s);
            && (o.result.Err? ==> a == o)
            && (o.result.Ok? ==> Continues(o, next(o.result.value), a))
  {}

  /** `recover`: always matches, where `e` left the cursor; an output of `e` is the
      output, and from an error, of routing or of the run, the closure's future goes
      on. */
  lemma RecoverContinuesError(e: Endpoint, rescue: Error -> Promise<Value>, path: string, c: Cursor, s: Slot)
    requires c.pos <= |path|
    ensures var r, a := Route(e, path, c), Route(Recover(e, rescue), path, c);
            && (r.verdict.Ok? ==> a == r)
            && (r.verdict.Err? ==> a == Routed(Ok(Incomplete), r.cursor))
    ensures var o, a := Apply(e, path, c, s), Apply(Recover(e, rescue), path, c, s);
            && (o.result.Ok? ==> a == o)
            && (o.result.Err? ==> Continues(o, rescue(o.result.error), a))
  {}

  /** What is left of a choice when neither side matches: the errors of both sides,
      the cursor where the right side left it, and an untouched body. */
  ghost predicate NeitherMatched(r1: Routed, r2: Routed, r: Routed, s: Slot, o: Outcome)
    requires r1.verdict.Err? && r2.verdict.Err?
  {
    var err := NotMatched(r1.verdict.error, r2.verdict.error);
    r == Routed(Err(err), r2.cursor) && o == Outcome(Err(err), s, 0)
  }

  /** `or`: the outcome is that of one side, an output of the left one as `Left` and
      an output of the right one as `Right`. */
  lemma OrTagsOutput(e1: Endpoint, e2: Endpoint, path: string, c: Cursor, s: Slot)
    requires c.pos <= |path|
    ensures var r1, r2, r := Route(e1, path, c), Route(e2, path, c), Route(Or(e1, e2), path, c);
            var o1, o2, o := Apply(e1, path, c, s), Apply(e2, path, c, s), Apply(Or(e1, e2), path, c, s);
            if r1.verdict.Err? && r2.verdict.Err? then NeitherMatched(r1, r2, r, s, o)
            else if r1.verdict.Ok? && (r2.verdict.Err? || r1.cursor.popped >= r2.cursor.popped)
            then
              && r.cursor == r1.cursor && o.slot == o1.slot && o.waits == o1.waits
              && o.result == if o1.result.Ok? then Ok([Left(o1.result.value)]) else o1.result
            else
              && r.cursor == r2.cursor && o.slot == o2.slot && o.waits == o2.waits
              && o.result == if o2.result.Ok? then Ok([Right(o2.result.value)]) else o2.result
  {}

  /** `or_strict`: the outcome is that of the left side if it matches, and else that
      of the right side from the same cursor. */
  lemma OrStrictFallsBack(e1: Endpoint, e2: Endpoint, path: string, c: Cursor, s: Slot)
    requires c.pos <= |path|
    ensures var r1, r2, r := Route(e1, path, c), Route(e2, path, c), Route(OrStrict(e1, e2), path, c);
            var o := Apply(OrStrict(e1, e2), path, c, s);
            if r1.verdict.Err? && r2.verdict.Err? then NeitherMatched(r1, r2, r, s, o)
            else if r1.verdict.Ok? then r == r1 && o == Apply(e1, path, c, s)
            else r == r2 && o == Apply(e2, path, c, s)
  {}

  /** `and`: nothing runs unless both halves match, the second from where the first
      left the cursor; then the second runs with the body the first has left, and only
      after an output of the first. */
  lemma AndRunsInOrder(e1: Endpoint, e2: Endpoint, path: string, c: Cursor, s: Slot)
    requires c.pos <= |path|
    ensures var r1, r := Route(e1, path, c), Route(And(e1, e2), path, c);
            var r2, o1, o := Route(e2, path, r1.cursor), Apply(e1, path, c, s), Apply(And(e1, e2), path, c, s);
            var o2 := Apply(e2, path, r1.cursor, o1.slot);
            if r1.verdict.Err? then r == r1 && o == Outcome(Err(r1.verdict.error), s, 0)
            else if r2.verdict.Err? then r == r2 && o == Outcome(Err(r2.verdict.error), s, 0)
            else
              && r == Routed(Ok(Incomplete), r2.cursor)
              && (if o1.result.Err? then o == o1
                  else
                    && o.slot == o2.slot && o.waits == o1.waits + o2.waits
                    && (o2.result.Err? ==> o.result == o2.result)
                    && (o2.result.Ok? ==> o.result == Ok(o1.result.value + o2.result.value)))
  {
    AndJoins(e1, e2, path, c);
    AndApplies(e1, e2, path, c, s);
  }

  // ---- Leaves ----

  /** The leaves: a task matches anywhere and gives its own result, a raw body reader
      gives the very stream it found, and a body collector is rejected by its gate
      before it touches the body, and else parses all the bytes or passes on the error
      that broke the body off. */
  lemma LeavesServe(p: Promise<Output>, parse: seq<bv8> -> Result<Value, Error>, err: Error, path: string, c: Cursor,
                    body: Body, h: nat)
    requires c.pos <= |path|
    ensures var full, taken := Slot(Some(body), h), Slot(None, h + 1);
            && Apply(Task(p), path, c, full) == Outcome(p.result, full, p.pending)
            && Apply(Raw, path, c, full) == Outcome(Ok([Stream(body)]), taken, 0)
            && Apply(Collect(Some(err), parse), path, c, full) == Outcome(Err(err), full, 0)
            && var o := Apply(Collect(None, parse), path, c, full);
               && o.slot == taken && o.waits == Stalls(body)
               && (Payload(body).Err? ==> o.result == Err(Payload(body).error))
               && (Payload(body).Ok? ==> Gives(parse(Payload(body).value), o.result))
    ensures forall e | e in {Task(p), Raw, Collect(None, parse)} :: Route(e, path, c) == Routed(Ok(Incomplete), c)
    ensures forall e | e in {Task(p), Raw, Collect(None, parse), Collect(Some(err), parse)} ::
              Attempts(e, path, c) == [Attempt(e, c)]
  {}

  /** A one-shot leaf is settled by routing: it touches no body and never waits. */
  lemma OneshotServes(x: Extractor, path: string, c: Cursor, s: Slot)
    requires c.pos <= |path|
    ensures var m, r := Extract(x, path, c), Route(Oneshot(x), path, c);
            && r.cursor == m.cursor
            && (m.result.Ok? ==> r.verdict == Ok(Completed(m.result.value)))
            && (m.result.Err? ==> r.verdict == Err(m.result.error))
            && Apply(Oneshot(x), path, c, s) == Outcome(m.result, s, 0)
            && Attempts(Oneshot(x), path, c) == [Attempt(Oneshot(x), c)]
  {}

  // ---- Calls out of order ----

  /** Endpoints whose actions notice a second `preflight` or a missing one: those
      with a one-shot leaf, an `and` or a choice on top, wrapped or not. */
  predicate NeedsOneRouting(e: Endpoint) {
    match e
    case Oneshot(_) => true
    case And(_, _) => true
    case Or(_, _) => true
    case OrStrict(_, _) => true
    case Map(e1, _) => NeedsOneRouting(e1)
    case MapErr(e1, _) => NeedsOneRouting(e1)
    case AndThen(e1, _) => NeedsOneRouting(e1)
    case Recover(e1, _) => NeedsOneRouting(e1)
    case _ => false
  }

  /** Polling their actions before `preflight` panics, and so does a second
      `preflight`, whatever the first answered. */
  lemma {:induction false} RoutingTwicePanics(e: Endpoint, path: string, c: Cursor, d: Cursor, s: Slot)
    requires c.pos <= |path| && d.pos <= |path| && NeedsOneRouting(e)
    ensures PollAct(Spawn(e), s).call == Panicked
    ensures PreflightAct(PreflightAct(Spawn(e), path, c).act, path, d).call == Panicked
  {
    match e {
      case And(e1, e2) => AndTwicePanics(Init(Some(Spawn(e1))), Init(Some(Spawn(e2))), path, c, d);
      case Map(e1, _) => RoutingTwicePanics(e1, path, c, d, s);
      case MapErr(e1, _) => RoutingTwicePanics(e1, path, c, d, s);
      case AndThen(e1, _) => RoutingTwicePanics(e1, path, c, d, s);
      case Recover(e1, _) => RoutingTwicePanics(e1, path, c, d, s);
      case _ =>
    }
  }

  lemma AndTwicePanics(f1: MaybeDone<Act>, f2: MaybeDone<Act>, path: string, c: Cursor, d: Cursor)
    requires c.pos <= |path| && d.pos <= |path|
    ensures PreflightAct(PreflightAct(Act(AndNode(f1, f2)), path, c).act, path, d).call == Panicked
  {
    AndPreflights(f1, f2, path, c);
    HalfIsUsedUp(f1, path, c);
    var (s1, s2) := Halves(f1, f2, path, c);
    UsedUpPanics(s1.m, s2.m, path, d);
  }

  lemma HalfIsUsedUp(m: MaybeDone<Act>, path: string, c: Cursor)
    requires c.pos <= |path|
    ensures var r := PreflightSlot(m, path, c).m; r.Init? ==> r.action.None?
  {}

  lemma UsedUpPanics(m1: MaybeDone<Act>, m2: MaybeDone<Act>, path: string, d: Cursor)
    requires d.pos <= |path| && (m1.Init? ==> m1.action.None?)
    ensures PreflightAct(Act(AndNode(m1, m2)), path, d).call == Panicked
  {}

  /** A future that routing has settled panics when it is polled again. */
  lemma SettledFuturePanics(e: Endpoint, path: string, s: Slot, n: nat)
    requires IsPath(path) && Route(e, path, START).verdict != Ok(Incomplete)
    ensures NthPoll(Applying(e), path, s, n + 1).call == Panicked
  {
    PreflightRoutes(e, path, START);
    var r := PollApply(Applying(e), path, s);
    assert r.phase == Starting(None);
    StaysSettled(path, r.slot, n);
  }

  lemma {:induction false} StaysSettled(path: string, s: Slot, n: nat)
    requires IsPath(path)
    ensures NthPoll(Starting(None), path, s, n).call == Panicked
  {
    if n > 0 {
      StaysSettled(path, s, n - 1);
    }
  }

  // ---- Composition ----

  /** Two endpoints with the same cursor and the same outcome. */
  ghost predicate SameOutcome(e: Endpoint, d: Endpoint, path: string, c: Cursor)
    requires c.pos <= |path|
  {
    && Route(e, path, c).cursor == Route(d, path, c).cursor
    && (Route(e, path, c).verdict.Ok? <==> Route(d, path, c).verdict.Ok?)
    && forall s :: Apply(e, path, c, s) == Apply(d, path, c, s)
  }

  /** Mapping twice is mapping once by the composition, and mapping is `and_then` with
      a closure that answers at once. */
  lemma MapComposes(e: Endpoint, f: Output -> Value, h: Output -> Value, hf: Output -> Value,
                    now: Output -> Promise<Value>, path: string, c: Cursor)
    requires c.pos <= |path|
    requires forall out :: hf(out) == h([f(out)]) && now(out) == Promise(0, Ok(f(out)))
    ensures SameOutcome(Map(Map(e, f), h), Map(e, hf), path, c)
    ensures SameOutcome(Map(e, f), AndThen(e, now), path, c)
  {
    forall s
      ensures Apply(Map(Map(e, f), h), path, c, s) == Apply(Map(e, hf), path, c, s)
      ensures Apply(Map(e, f), path, c, s) == Apply(AndThen(e, now), path, c, s)
    {
      MapChangesOutputOnly(e, f, path, c, s);
      MapChangesOutputOnly(Map(e, f), h, path, c, s);
      MapChangesOutputOnly(e, hf, path, c, s);
      AndThenContinuesOutput(e, now, path, c, s);
    }
  }

  /** Recovering with the error itself changes no outcome, but makes the endpoint
      match. */
  lemma RecoverWithErrorIsNeutral(e: Endpoint, path: string, c: Cursor, s: Slot)
    requires c.pos <= |path|
    ensures var rescued := Recover(e, err => Promise(0, Err(err)));
            && Route(rescued, path, c).verdict.Ok?
            && Apply(rescued, path, c, s) == Apply(e, path, c, s)
  {}
}
