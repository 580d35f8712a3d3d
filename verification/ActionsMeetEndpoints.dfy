/** The state machines compute the endpoints' meaning, on every schedule and
    without ever panicking. */
module ActionsMeetEndpoints {
  import opened Outcomes
  import opened PathCursor
  import opened Extraction
  import opened RequestBody
  import opened Endpoints
  import opened ActionSteps

  /** The states `poll_action` may be called in: routed, and not yet settled. */
  predicate Live(a: Act)
    decreases a
  {
    match a.node
    case OneshotNode(_) => false
    case TaskNode(task) => task.Running?
    case RawNode => true
    case CollectNode(_, _, _) => true
    case AndNode(f1, f2) => LiveSlot(f1) && LiveSlot(f2)
    case OrNode(state) => (state.First? || state.Second?) && Live(state.chosen)
    case OrStrictNode(state) => (state.First? || state.Second?) && Live(state.chosen)
    case MapNode(action, _) => Live(action)
    case MapErrNode(action, _) => Live(action)
    case AndThenNode(action, _, inFlight) => if inFlight.Some? then inFlight.value.Running? else Live(action)
    case RecoverNode(action, _, inFlight) => if inFlight.Some? then inFlight.value.Running? else Live(action)
  }

  predicate LiveSlot(m: MaybeDone<Act>)
    decreases m
  {
    m.Finished? || (m.InFlight? && Live(m.running))
  }

  /** What a live state still has to compute. */
  function Rest(a: Act, s: Slot): Outcome
    requires Live(a)
    decreases a
  {
    match a.node
    case TaskNode(task) => Outcome(task.promise.result, s, task.promise.pending)
    case RawNode =>
      var t := TakeBody(s);
      Outcome(match t.result case Ok(b) => Ok([Stream(b)]) case Err(err) => Err(err), t.slot, 0)
    case CollectNode(_, parse, Receiving(body, buf)) =>
      Outcome(ParsePayload(parse, Prefixed(buf, Payload(body))), s, Stalls(body))
    case CollectNode(_, parse, Start) =>
      var t := TakeBody(s);
      (match t.result
       case Ok(b) => Outcome(ParsePayload(parse, Payload(b)), t.slot, Stalls(b))
       case Err(err) => Outcome(Err(err), t.slot, 0))
    case AndNode(f1, f2) =>
      var o1 := RestSlot(f1, s);
      Chain(o1, RestSlot(f2, o1.slot))
    case OrNode(First(action)) => MapOutcome(Rest(action, s), out => Tag(true, out))
    case OrNode(Second(action)) => MapOutcome(Rest(action, s), out => Tag(false, out))
    case OrStrictNode(state) => Rest(state.chosen, s)
    case MapNode(action, f) => MapOutcome(Rest(action, s), out => [f(out)])
    case MapErrNode(action, g) => MapError(Rest(action, s), g)
    case AndThenNode(action, next, Some(fut)) => Outcome(One(fut.promise.result), s, fut.promise.pending)
    case AndThenNode(action, next, None) => Then(Rest(action, s), next)
    case RecoverNode(action, rescue, Some(fut)) => Outcome(One(fut.promise.result), s, fut.promise.pending)
    case RecoverNode(action, rescue, None) => Rescue(Rest(action, s), rescue)
  }

  function RestSlot(m: MaybeDone<Act>, s: Slot): Outcome
    requires LiveSlot(m)
    decreases m
  {
    match m
    case Finished(out) => Outcome(Ok(out), s, 0)
    case InFlight(action) => Rest(action, s)
  }

  /** Preflighting the fresh action tree of `e` answers exactly what `Route` says
      and leaves the cursor there; if it answers `Incomplete`, the tree is live and
      what it still owes is the run of `e`; if it completes, so does the run, with
      no wait and no touch of the body. */
  ghost predicate Routes(e: Endpoint, path: string, c: Cursor)
    requires c.pos <= |path|
  {
    var r, want := PreflightAct(Spawn(e), path, c), Route(e, path, c);
    && r.call == Returned(want.verdict)
    && r.cursor == want.cursor
    && (want.verdict == Ok(Incomplete) ==> Live(r.act) && forall s :: Rest(r.act, s) == Run(e, path, c, s))
    && (want.verdict.Ok? && want.verdict.value.Completed? ==>
          forall s :: Run(e, path, c, s) == Outcome(Ok(want.verdict.value.value), s, 0))
  }

  lemma {:induction false} PreflightRoutes(e: Endpoint, path: string, c: Cursor)
    requires c.pos <= |path|
    ensures Routes(e, path, c)
  {
    match e {
      case Oneshot(_) =>
      case Task(_) =>
      case Raw =>
      case Collect(_, _) =>
      case And(e1, e2) =>
        PreflightRoutes(e1, path, c);
        PreflightRoutes(e2, path, Route(e1, path, c).cursor);
        AndRoutes(e, path, c);
      case Or(e1, e2) =>
        PreflightRoutes(e1, path, c);
        PreflightRoutes(e2, path, c);
        OrRoutes(e, path, c);
      case OrStrict(e1, e2) =>
        PreflightRoutes(e1, path, c);
        PreflightRoutes(e2, path, c);
        OrStrictRoutes(e, path, c);
      case Map(e1, _) =>
        PreflightRoutes(e1, path, c);
        MapRoutes(e, path, c);
      case MapErr(e1, _) =>
        PreflightRoutes(e1, path, c);
        MapErrRoutes(e, path, c);
      case AndThen(e1, _) =>
        PreflightRoutes(e1, path, c);
        AndThenRoutes(e, path, c);
      case Recover(e1, _) =>
        PreflightRoutes(e1, path, c);
        RecoverRoutes(e, path, c);
    }
  }

  lemma AndRoutes(e: Endpoint, path: string, c: Cursor)
    requires c.pos <= |path| && e.And?
    requires Routes(e.e1, path, c) && Routes(e.e2, path, Route(e.e1, path, c).cursor)
    ensures Routes(e, path, c)
  {
    HalfRoutes(e.e1, path, c);
    HalfRoutes(e.e2, path, Route(e.e1, path, c).cursor);
    var r1 := PreflightSlot(Init(Some(Spawn(e.e1))), path, c);
    var r2 := PreflightSlot(Init(Some(Spawn(e.e2))), path, r1.cursor);
    assert Spawn(e) == Act(AndNode(Init(Some(Spawn(e.e1))), Init(Some(Spawn(e.e2)))));
    if Route(e, path, c).verdict.Ok? {
      assert PreflightAct(Spawn(e), path, c).act == Act(AndNode(r1.m, r2.m));
    }
  }

  /** What `Routes` says of an endpoint, for its action as one half of an `And`. */
  lemma HalfRoutes(e: Endpoint, path: string, c: Cursor)
    requires c.pos <= |path| && Routes(e, path, c)
    ensures var r, want := PreflightSlot(Init(Some(Spawn(e))), path, c), Route(e, path, c);
            && r.cursor == want.cursor
            && (want.verdict.Err? ==> r.call == Returned(Err(want.verdict.error)))
            && (want.verdict.Ok? ==>
                  && r.call == Returned(Ok(Incomplete))
                  && LiveSlot(r.m) && forall s :: RestSlot(r.m, s) == Run(e, path, c, s))
  {
    var act, verdict := PreflightAct(Spawn(e), path, c).act, Route(e, path, c).verdict;
    var m := PreflightSlot(Init(Some(Spawn(e))), path, c).m;
    if verdict.Ok? {
      assert m == if verdict.value.Completed? then Finished(verdict.value.value) else InFlight(act);
      forall s ensures LiveSlot(m) && RestSlot(m, s) == Run(e, path, c, s) {}
    }
  }

  lemma OrRoutes(e: Endpoint, path: string, c: Cursor)
    requires c.pos <= |path| && e.Or?
    requires Routes(e.e1, path, c) && Routes(e.e2, path, c)
    ensures Routes(e, path, c)
  {
    var l, r := PreflightAct(Spawn(e.e1), path, c), PreflightAct(Spawn(e.e2), path, c);
    assert PreflightAct(Spawn(e), path, c) == Judge(l.act, l.cursor, l.call.value, r.act, r.cursor, r.call.value);
  }

  lemma OrStrictRoutes(e: Endpoint, path: string, c: Cursor)
    requires c.pos <= |path| && e.OrStrict?
    requires Routes(e.e1, path, c) && Routes(e.e2, path, c)
    ensures Routes(e, path, c)
  {}

  lemma MapRoutes(e: Endpoint, path: string, c: Cursor)
    requires c.pos <= |path| && e.Map? && Routes(e.e, path, c)
    ensures Routes(e, path, c)
  {}

  lemma MapErrRoutes(e: Endpoint, path: string, c: Cursor)
    requires c.pos <= |path| && e.MapErr? && Routes(e.e, path, c)
    ensures Routes(e, path, c)
  {}

  lemma AndThenRoutes(e: Endpoint, path: string, c: Cursor)
    requires c.pos <= |path| && e.AndThen? && Routes(e.e, path, c)
    ensures Routes(e, path, c)
  {}

  lemma RecoverRoutes(e: Endpoint, path: string, c: Cursor)
    requires c.pos <= |path| && e.Recover? && Routes(e.e, path, c)
    ensures Routes(e, path, c)
  {}

  /** The preflights of fresh leaf actions that some attempts of routing stand for. */
  function Spawned(attempts: seq<Attempt>): seq<PreflightEvent> {
    seq(|attempts|, i requires 0 <= i < |attempts| => LeafPreflighted(Spawn(attempts[i].leaf), attempts[i].cursor))
  }

  lemma SpawnedJoins(xs: seq<Attempt>, ys: seq<Attempt>)
    ensures Spawned(xs + ys) == Spawned(xs) + Spawned(ys)
  {}

  /** The machine preflights the leaves the routing of `e` tries, at the cursors it
      tries them at, in that order, and no others. */
  lemma {:induction false} ProbesAreAttempts(e: Endpoint, path: string, c: Cursor)
    requires c.pos <= |path|
    ensures Probes(Spawn(e), path, c) == Spawned(Attempts(e, path, c))
  {
    match e {
      case And(e1, e2) =>
        PreflightRoutes(e1, path, c);
        ProbesAreAttempts(e1, path, c);
        ProbesAreAttempts(e2, path, Route(e1, path, c).cursor);
        AndProbes(e1, e2, path, c);
      case Or(e1, e2) =>
        PreflightRoutes(e1, path, c);
        ProbesAreAttempts(e1, path, c);
        ProbesAreAttempts(e2, path, c);
        SpawnedJoins(Attempts(e1, path, c), Attempts(e2, path, c));
      case OrStrict(e1, e2) =>
        PreflightRoutes(e1, path, c);
        ProbesAreAttempts(e1, path, c);
        ProbesAreAttempts(e2, path, c);
        SpawnedJoins(Attempts(e1, path, c), Attempts(e2, path, c));
      case Map(e1, _) => ProbesAreAttempts(e1, path, c);
      case MapErr(e1, _) => ProbesAreAttempts(e1, path, c);
      case AndThen(e1, _) => ProbesAreAttempts(e1, path, c);
      case Recover(e1, _) => ProbesAreAttempts(e1, path, c);
      case _ =>
    }
  }

  lemma AndProbes(e1: Endpoint, e2: Endpoint, path: string, c: Cursor)
    requires c.pos <= |path| && Routes(e1, path, c)
    requires Probes(Spawn(e1), path, c) == Spawned(Attempts(e1, path, c))
    requires var c1 := Route(e1, path, c).cursor; Probes(Spawn(e2), path, c1) == Spawned(Attempts(e2, path, c1))
    ensures Probes(Spawn(And(e1, e2)), path, c) == Spawned(Attempts(And(e1, e2), path, c))
  {
    var f1, f2 := Init(Some(Spawn(e1))), Init(Some(Spawn(e2)));
    var r1 := Route(e1, path, c);
    assert PreflightSlot(f1, path, c).cursor == r1.cursor;
    assert SlotProbes(f1, path, c) == Probes(Spawn(e1), path, c);
    assert SlotProbes(f2, path, r1.cursor) == Probes(Spawn(e2), path, r1.cursor);
    SpawnedJoins(Attempts(e1, path, c), if r1.verdict.Ok? then Attempts(e2, path, r1.cursor) else []);
  }

  /** A poll of a live state settles it with its result, or gives one of the
      `NotReady` answers it owes and leaves a live state owing the rest. */
  ghost predicate Progresses(a: Act, s: Slot)
    requires Live(a)
  {
    var p, o := PollAct(a, s), Rest(a, s);
    match p.call
    case Panicked => false
    case Returned(Ok(NotReady)) =>
      Live(p.act) && o.waits > 0 && Rest(p.act, p.slot) == o.(waits := o.waits - 1)
    case Returned(Ok(Ready(out))) => o == Outcome(Ok(out), p.slot, 0)
    case Returned(Err(err)) => o == Outcome(Err(err), p.slot, 0)
  }

  lemma {:induction false} PollProgresses(a: Act, s: Slot)
    requires Live(a)
    ensures Progresses(a, s)
    decreases a
  {
    match a.node {
      case TaskNode(_) =>
      case RawNode =>
      case CollectNode(_, _, _) => CollectProgresses(a, s);
      case AndNode(f1, f2) =>
        SlotProgresses(f1, s);
        var s1 := PollSlot(f1, s);
        if s1.m.Finished? {
          SlotProgresses(f2, s1.slot);
        }
        AndProgresses(a, s);
      case OrNode(state) =>
        PollProgresses(state.chosen, s);
        ChoiceProgresses(a, s);
      case OrStrictNode(state) =>
        PollProgresses(state.chosen, s);
        ChoiceProgresses(a, s);
      case MapNode(action, _) =>
        PollProgresses(action, s);
      case MapErrNode(action, _) =>
        PollProgresses(action, s);
      case AndThenNode(action, _, inFlight) =>
        if inFlight.None? {
          PollProgresses(action, s);
        }
        AndThenProgresses(a, s);
      case RecoverNode(action, _, inFlight) =>
        if inFlight.None? {
          PollProgresses(action, s);
        }
        RecoverProgresses(a, s);
    }
  }

  /** The leaf or future polled here was not ready. */
  predicate Stalled(event: PollEvent) {
    match event
    case LeafPolled(leaf, slot) => PollAct(leaf, slot).call == Returned(Ok(NotReady))
    case FuturePolled(future, _) => PollFuture(future).1 == Returned(Ok(NotReady))
  }

  /** Nothing is polled after something that was not ready, and something was not
      ready exactly when `waiting`. */
  ghost predicate StopsAtStall(events: seq<PollEvent>, waiting: bool) {
    && (forall i | 0 <= i < |events| - 1 :: !Stalled(events[i]))
    && (waiting <==> events != [] && Stalled(events[|events| - 1]))
  }

  lemma StopsLater(xs: seq<PollEvent>, ys: seq<PollEvent>, waiting: bool)
    requires StopsAtStall(xs, false) && StopsAtStall(ys, waiting)
    ensures StopsAtStall(xs + ys, waiting)
  {}

  /** No poll is wasted: from any state, a poll answers `NotReady` exactly when the
      last leaf or future it polled did, and none before that did. */
  lemma {:induction false} PollStopsAtStall(a: Act, s: Slot)
    ensures StopsAtStall(Polls(a, s), PollAct(a, s).call == Returned(Ok(NotReady)))
    decreases a
  {
    match a.node {
      case AndNode(f1, f2) =>
        var s1 := PollSlot(f1, s);
        if f1.InFlight? { PollStopsAtStall(f1.running, s); }
        if f2.InFlight? { PollStopsAtStall(f2.running, s1.slot); }
        AndStopsAtStall(f1, f2, s);
      case OrNode(state) =>
        if state.First? || state.Second? { PollStopsAtStall(state.chosen, s); }
      case OrStrictNode(state) =>
        if state.First? || state.Second? { PollStopsAtStall(state.chosen, s); }
      case MapNode(action, _) => PollStopsAtStall(action, s);
      case MapErrNode(action, _) => PollStopsAtStall(action, s);
      case AndThenNode(action, _, inFlight) =>
        if inFlight.None? { PollStopsAtStall(action, s); }
        AndThenStopsAtStall(a, s);
      case RecoverNode(action, _, inFlight) =>
        if inFlight.None? { PollStopsAtStall(action, s); }
        RecoverStopsAtStall(a, s);
      case _ =>
    }
  }

  lemma AndThenStopsAtStall(a: Act, s: Slot)
    requires a.node.AndThenNode?
    requires var action := a.node.action;
             a.node.inFlight.None? ==>
               StopsAtStall(Polls(action, s), PollAct(action, s).call == Returned(Ok(NotReady)))
    ensures StopsAtStall(Polls(a, s), PollAct(a, s).call == Returned(Ok(NotReady)))
  {}

  lemma RecoverStopsAtStall(a: Act, s: Slot)
    requires a.node.RecoverNode?
    requires var action := a.node.action;
             a.node.inFlight.None? ==>
               StopsAtStall(Polls(action, s), PollAct(action, s).call == Returned(Ok(NotReady)))
    ensures StopsAtStall(Polls(a, s), PollAct(a, s).call == Returned(Ok(NotReady)))
  {}

  lemma AndStopsAtStall(f1: MaybeDone<Act>, f2: MaybeDone<Act>, s: Slot)
    requires StopsAtStall(SlotPolls(f1, s), PollSlot(f1, s).call == Returned(Ok(NotReady)))
    requires var s1 := PollSlot(f1, s).slot;
             StopsAtStall(SlotPolls(f2, s1), PollSlot(f2, s1).call == Returned(Ok(NotReady)))
    ensures var a := Act(AndNode(f1, f2)); StopsAtStall(Polls(a, s), PollAct(a, s).call == Returned(Ok(NotReady)))
  {
    var s1 := PollSlot(f1, s);
    if s1.call == Returned(Ok(Ready(()))) {
      StopsLater(SlotPolls(f1, s), SlotPolls(f2, s1.slot), PollSlot(f2, s1.slot).call == Returned(Ok(NotReady)));
    }
  }

  ghost predicate SlotProgress(m: MaybeDone<Act>, s: Slot)
    requires LiveSlot(m)
  {
    var p, o := PollSlot(m, s), RestSlot(m, s);
    match p.call
    case Panicked => false
    case Returned(Ok(NotReady)) =>
      LiveSlot(p.m) && o.waits > 0 && RestSlot(p.m, p.slot) == o.(waits := o.waits - 1)
    case Returned(Ok(Ready(_))) => p.m.Finished? && o == Outcome(Ok(p.m.output), p.slot, 0)
    case Returned(Err(err)) => o == Outcome(Err(err), p.slot, 0)
  }

  lemma {:induction false} SlotProgresses(m: MaybeDone<Act>, s: Slot)
    requires LiveSlot(m)
    ensures SlotProgress(m, s)
    decreases m
  {
    if m.InFlight? {
      PollProgresses(m.running, s);
    }
  }

  lemma CollectProgresses(a: Act, s: Slot)
    requires a.node.CollectNode?
    ensures Progresses(a, s)
  {
    match a.node.receiver {
      case Receiving(body, buf) => DrainKeepsPayload(body, buf);
      case Start =>
        if s.body.Some? {
          DrainKeepsPayload(s.body.value, []);
          var p := Payload(s.body.value);
          assert p.Ok? ==> [] + p.value == p.value;
        }
    }
  }

  lemma AndProgresses(a: Act, s: Slot)
    requires Live(a) && a.node.AndNode? && SlotProgress(a.node.f1, s)
    requires var s1 := PollSlot(a.node.f1, s); s1.m.Finished? ==> SlotProgress(a.node.f2, s1.slot)
    ensures Progresses(a, s)
  {
  }

  lemma ChoiceProgresses(a: Act, s: Slot)
    requires Live(a) && (a.node.OrNode? || a.node.OrStrictNode?) && Progresses(a.node.state.chosen, s)
    ensures Progresses(a, s)
  {}

  lemma AndThenProgresses(a: Act, s: Slot)
    requires Live(a) && a.node.AndThenNode? && (a.node.inFlight.None? ==> Progresses(a.node.action, s))
    ensures Progresses(a, s)
  {}

  lemma RecoverProgresses(a: Act, s: Slot)
    requires Live(a) && a.node.RecoverNode? && (a.node.inFlight.None? ==> Progresses(a.node.action, s))
    ensures Progresses(a, s)
  {}
}
