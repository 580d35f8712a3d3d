/** What every run keeps: the body is handed out at most once, and the readiness
    schedule changes nothing but the number of waits. */
module RunLaws {
  import opened Outcomes
  import opened PathCursor
  import opened RequestBody
  import opened Endpoints
  import opened ActionSteps
  import opened Service
  import opened SequencingLaws

  // ---- The body ----

  /** Nothing was taken, or the body that was there was handed out once. */
  ghost predicate TakesOnce(before: Slot, after: Slot) {
    || after == before
    || (before.body.Some? && after == Slot(None, before.handed + 1))
  }

  /** No poll, from any state whatever, hands out the body twice. */
  lemma {:induction false} PollTakesOnce(a: Act, s: Slot)
    ensures TakesOnce(s, PollAct(a, s).slot)
    decreases a
  {
    match a.node {
      case AndNode(f1, f2) =>
        var s1 := PollSlot(f1, s);
        if f1.InFlight? { PollTakesOnce(f1.running, s); }
        if f2.InFlight? { PollTakesOnce(f2.running, s1.slot); }
        AndPolls(f1, f2, s);
        TakesOnceChains(s, s1.slot, PollSlot(f2, s1.slot).slot);
      case OrNode(state) =>
        if state.First? || state.Second? { PollTakesOnce(state.chosen, s); }
      case OrStrictNode(state) =>
        if state.First? || state.Second? { PollTakesOnce(state.chosen, s); }
      case MapNode(action, _) => PollTakesOnce(action, s);
      case MapErrNode(action, _) => PollTakesOnce(action, s);
      case AndThenNode(action, _, _) => PollTakesOnce(action, s);
      case RecoverNode(action, _, _) => PollTakesOnce(action, s);
      case _ =>
    }
  }

  lemma TakesOnceChains(s0: Slot, s1: Slot, s2: Slot)
    requires TakesOnce(s0, s1) && TakesOnce(s1, s2)
    ensures TakesOnce(s0, s2)
  {}

  /** However often a future is polled, settled or not, the body of its request is
      handed to at most one leaf, and to none while the slot still holds it. */
  lemma {:induction false} BodyIsHandedOnce(phase: Phase<Act>, path: string, s: Slot, n: nat)
    requires IsPath(path)
    ensures TakesOnce(s, NthPoll(phase, path, s, n).slot)
    decreases n
  {
    var r := PollApply(phase, path, s);
    match phase {
      case Polling(a) => PollTakesOnce(a, s);
      case Starting(Some(a)) => PollTakesOnce(PreflightAct(a, path, START).act, s);
      case Starting(None) =>
    }
    if n > 0 {
      BodyIsHandedOnce(r.phase, path, r.slot, n - 1);
      TakesOnceChains(s, r.slot, NthPoll(r.phase, path, r.slot, n - 1).slot);
    }
  }

  lemma {:induction false} RunTakesOnce(e: Endpoint, path: string, c: Cursor, s: Slot)
    requires c.pos <= |path| && Route(e, path, c).verdict.Ok?
    ensures TakesOnce(s, Run(e, path, c, s).slot)
  {
    match e {
      case And(e1, e2) =>
        RunTakesOnce(e1, path, c, s);
        RunTakesOnce(e2, path, Route(e1, path, c).cursor, Run(e1, path, c, s).slot);
      case Or(e1, e2) =>
        RunTakesOnce(if LeftWins(Route(e1, path, c), Route(e2, path, c)) then e1 else e2, path, c, s);
      case OrStrict(e1, e2) =>
        RunTakesOnce(if Route(e1, path, c).verdict.Ok? then e1 else e2, path, c, s);
      case Map(e1, _) => RunTakesOnce(e1, path, c, s);
      case MapErr(e1, _) => RunTakesOnce(e1, path, c, s);
      case AndThen(e1, _) => RunTakesOnce(e1, path, c, s);
      case Recover(e1, _) =>
        if Route(e1, path, c).verdict.Ok? { RunTakesOnce(e1, path, c, s); }
      case _ =>
    }
  }

  /** A leaf that takes the body when it is polled. */
  predicate Reads(event: PollEvent) {
    && event.LeafPolled?
    && (event.leaf.node.RawNode? || (event.leaf.node.CollectNode? && event.leaf.node.receiver.Start?))
  }

  /** The first `k` polls found the slot `before`, the others found `after`, and if
      these differ, the last of the first `k` polled a body reader. */
  ghost predicate TracksBody(events: seq<PollEvent>, k: nat, before: Slot, after: Slot) {
    && k <= |events|
    && (forall i | 0 <= i < k :: events[i].slot == before)
    && (forall i | k <= i < |events| :: events[i].slot == after)
    && (before != after ==> k > 0 && Reads(events[k - 1]))
  }

  lemma TracksLater(xs: seq<PollEvent>, k: nat, ys: seq<PollEvent>, l: nat, s0: Slot, s1: Slot, s2: Slot)
    returns (m: nat)
    requires TracksBody(xs, k, s0, s1) && TracksBody(ys, l, s1, s2) && TakesOnce(s0, s1) && TakesOnce(s1, s2)
    ensures TracksBody(xs + ys, m, s0, s2)
  {
    m := if s0 == s1 then |xs| + l else k;
  }

  /** From any state, what a poll does to the body shows in what it polled: the leaf
      that took it is a body reader, everything polled before found the body, and
      everything polled later found it gone. */
  lemma {:induction false} PollTracksBody(a: Act, s: Slot) returns (k: nat)
    ensures TracksBody(Polls(a, s), k, s, PollAct(a, s).slot)
    decreases a
  {
    k := 0;
    match a.node {
      case AndNode(f1, f2) =>
        var s1 := PollSlot(f1, s).slot;
        var k1, k2 := 0, 0;
        if f1.InFlight? { k1 := PollTracksBody(f1.running, s); }
        if f2.InFlight? { k2 := PollTracksBody(f2.running, s1); }
        k := AndTracksBody(f1, f2, s, k1, k2);
      case OrNode(state) =>
        if state.First? || state.Second? { k := PollTracksBody(state.chosen, s); }
      case OrStrictNode(state) =>
        if state.First? || state.Second? { k := PollTracksBody(state.chosen, s); }
      case MapNode(action, _) => k := PollTracksBody(action, s);
      case MapErrNode(action, _) => k := PollTracksBody(action, s);
      case AndThenNode(action, _, inFlight) =>
        if inFlight.None? { k := PollTracksBody(action, s); }
        FutureTracksBody(a, s, k);
      case RecoverNode(action, _, inFlight) =>
        if inFlight.None? { k := PollTracksBody(action, s); }
        FutureTracksBody(a, s, k);
      case _ => k := LeafTracksBody(a, s);
    }
  }

  lemma LeafTracksBody(a: Act, s: Slot) returns (k: nat)
    requires a.node.OneshotNode? || a.node.TaskNode? || a.node.RawNode? || a.node.CollectNode?
    ensures TracksBody(Polls(a, s), k, s, PollAct(a, s).slot)
  {
    k := 1;
  }

  lemma AndTracksBody(f1: MaybeDone<Act>, f2: MaybeDone<Act>, s: Slot, k1: nat, k2: nat) returns (k: nat)
    requires TracksBody(SlotPolls(f1, s), k1, s, PollSlot(f1, s).slot)
    requires var s1 := PollSlot(f1, s).slot; TracksBody(SlotPolls(f2, s1), k2, s1, PollSlot(f2, s1).slot)
    ensures var a := Act(AndNode(f1, f2)); TracksBody(Polls(a, s), k, s, PollAct(a, s).slot)
  {
    var s1 := PollSlot(f1, s);
    AndPolls(f1, f2, s);
    k := k1;
    if s1.call == Returned(Ok(Ready(()))) {
      if f1.InFlight? { PollTakesOnce(f1.running, s); }
      if f2.InFlight? { PollTakesOnce(f2.running, s1.slot); }
      k := TracksLater(SlotPolls(f1, s), k1, SlotPolls(f2, s1.slot), k2, s, s1.slot, PollSlot(f2, s1.slot).slot);
    }
  }

  lemma FutureTracksBody(a: Act, s: Slot, k: nat)
    requires a.node.AndThenNode? || a.node.RecoverNode?
    requires if a.node.inFlight.None? then TracksBody(Polls(a.node.action, s), k, s, PollAct(a.node.action, s).slot)
             else k == 0
    ensures TracksBody(Polls(a, s), k, s, PollAct(a, s).slot)
  {}

  /** No `recover` inside: a failure of the run is a failure of the endpoint. */
  predicate LetsErrorsOut(e: Endpoint) {
    match e
    case And(e1, e2) => LetsErrorsOut(e1) && LetsErrorsOut(e2)
    case Or(e1, e2) => LetsErrorsOut(e1) && LetsErrorsOut(e2)
    case OrStrict(e1, e2) => LetsErrorsOut(e1) && LetsErrorsOut(e2)
    case Map(e1, _) => LetsErrorsOut(e1)
    case MapErr(e1, _) => LetsErrorsOut(e1)
    case AndThen(e1, _) => LetsErrorsOut(e1)
    case Recover(_, _) => false
    case _ => true
  }

  /** Neither `recover` nor `map_err` inside: errors come out as they are. */
  predicate KeepsErrors(e: Endpoint) {
    match e
    case And(e1, e2) => KeepsErrors(e1) && KeepsErrors(e2)
    case Or(e1, e2) => KeepsErrors(e1) && KeepsErrors(e2)
    case OrStrict(e1, e2) => KeepsErrors(e1) && KeepsErrors(e2)
    case Map(e1, _) => KeepsErrors(e1)
    case MapErr(_, _) => false
    case AndThen(e1, _) => KeepsErrors(e1)
    case Recover(_, _) => false
    case _ => true
  }

  /** How the run `o` from a slot holding `b` and the run `o'` from an empty slot
      compare: the second takes nothing; if the first took nothing either, both are
      the same run; if it took the body, the second fails, with the "already stolen"
      error where errors come out as they are. */
  ghost predicate SpoiledBy(e: Endpoint, b: Body, h: nat, o: Outcome, g: nat, o': Outcome) {
    && o'.slot == Slot(None, g)
    && (o.slot.body.Some? ==> o.slot == Slot(Some(b), h) && o'.result == o.result && o'.waits == o.waits)
    && (o.slot.body.None? && LetsErrorsOut(e) ==> o'.result.Err?)
    && (o.slot.body.None? && KeepsErrors(e) ==> o'.result == Err(BodyStolen))
  }

  /** For every endpoint, wherever in it the body is read: a run that would take the
      body is refused when the body is gone, and any other run does not notice. */
  lemma {:induction false} StolenBodyIsNoticed(e: Endpoint, path: string, c: Cursor, b: Body, h: nat, g: nat)
    requires c.pos <= |path| && Route(e, path, c).verdict.Ok?
    ensures SpoiledBy(e, b, h, Run(e, path, c, Slot(Some(b), h)), g, Run(e, path, c, Slot(None, g)))
  {
    match e {
      case And(e1, e2) =>
        var c1 := Route(e1, path, c).cursor;
        var o1 := Run(e1, path, c, Slot(Some(b), h));
        StolenBodyIsNoticed(e1, path, c, b, h, g);
        StolenBodyIsNoticed(e2, path, c1, b, h, g);
        RunTakesOnce(e2, path, c1, o1.slot);
      case Or(e1, e2) =>
        StolenBodyIsNoticed(if LeftWins(Route(e1, path, c), Route(e2, path, c)) then e1 else e2, path, c, b, h, g);
      case OrStrict(e1, e2) =>
        StolenBodyIsNoticed(if Route(e1, path, c).verdict.Ok? then e1 else e2, path, c, b, h, g);
      case Map(e1, _) => StolenBodyIsNoticed(e1, path, c, b, h, g);
      case MapErr(e1, _) => StolenBodyIsNoticed(e1, path, c, b, h, g);
      case AndThen(e1, _) => StolenBodyIsNoticed(e1, path, c, b, h, g);
      case Recover(e1, _) =>
        if Route(e1, path, c).verdict.Ok? { StolenBodyIsNoticed(e1, path, c, b, h, g); }
      case _ =>
    }
  }

  /** What becomes of an `And` whose first half ran as `o1`, taking the body, and
      whose second half would have run as `o2` had the body still been there. */
  ghost predicate SecondRefused(e2: Endpoint, o1: Outcome, o2: Outcome, o: Outcome) {
    && o.slot == o1.slot
    && (o2.slot.body.None? && LetsErrorsOut(e2) ==> o.result.Err?)
    && (o2.slot.body.None? && KeepsErrors(e2) ==> o.result == Err(BodyStolen))
    && (o2.slot.body.Some? ==> o == Chain(o1, o2.(slot := o1.slot)))
  }

  /** Of two halves of an `And` that are both reached, if the first has taken the
      body and the second would take it as well, the run fails, and with the "already
      stolen" error if the second half lets it out as it is; if the second half would
      not take the body, it runs as it would have. */
  lemma SecondReaderIsRefused(e1: Endpoint, e2: Endpoint, path: string, c: Cursor, b: Body, h: nat)
    requires c.pos <= |path| && Route(e1, path, c).verdict.Ok?
    requires Route(e2, path, Route(e1, path, c).cursor).verdict.Ok?
    requires Run(e1, path, c, Slot(Some(b), h)).result.Ok? && Run(e1, path, c, Slot(Some(b), h)).slot.body.None?
    ensures var s := Slot(Some(b), h);
            SecondRefused(e2, Run(e1, path, c, s), Run(e2, path, Route(e1, path, c).cursor, s),
                          Apply(And(e1, e2), path, c, s))
  {
    var s, c1 := Slot(Some(b), h), Route(e1, path, c).cursor;
    var o1, o2 := Run(e1, path, c, s), Run(e2, path, c1, s);
    RunTakesOnce(e1, path, c, s);
    StolenBodyIsNoticed(e2, path, c1, b, h, h + 1);
    ChainRefused(e2, b, h, o1, o2, Run(e2, path, c1, o1.slot));
    AndApplies(e1, e2, path, c, s);
  }

  lemma ChainRefused(e2: Endpoint, b: Body, h: nat, o1: Outcome, o2: Outcome, o2': Outcome)
    requires o1.result.Ok? && o1.slot == Slot(None, h + 1) && SpoiledBy(e2, b, h, o2, h + 1, o2')
    ensures SecondRefused(e2, o1, o2, Chain(o1, o2'))
  {}

  /** Endpoints that cannot succeed without taking the body: some reader is
      reached on every way through. */
  predicate MustRead(e: Endpoint) {
    match e
    case Raw => true
    case Collect(_, _) => true
    case And(e1, e2) => MustRead(e1) || MustRead(e2)
    case Or(e1, e2) => MustRead(e1) && MustRead(e2)
    case OrStrict(e1, e2) => MustRead(e1) && MustRead(e2)
    case Map(e1, _) => MustRead(e1)
    case MapErr(e1, _) => MustRead(e1)
    case AndThen(e1, _) => MustRead(e1)
    case _ => false
  }

  /** If such an endpoint succeeds, it found the body and has taken it. */
  lemma {:induction false} ReaderTakes(e: Endpoint, path: string, c: Cursor, s: Slot)
    requires c.pos <= |path| && Route(e, path, c).verdict.Ok? && MustRead(e)
    ensures var o := Run(e, path, c, s);
            o.result.Ok? ==> s.body.Some? && o.slot == Slot(None, s.handed + 1)
  {
    match e {
      case And(e1, e2) =>
        var c1, o1 := Route(e1, path, c).cursor, Run(e1, path, c, s);
        RunTakesOnce(e1, path, c, s);
        RunTakesOnce(e2, path, c1, o1.slot);
        if MustRead(e1) {
          ReaderTakes(e1, path, c, s);
        } else {
          ReaderTakes(e2, path, c1, o1.slot);
        }
      case Or(e1, e2) =>
        ReaderTakes(if LeftWins(Route(e1, path, c), Route(e2, path, c)) then e1 else e2, path, c, s);
      case OrStrict(e1, e2) =>
        ReaderTakes(if Route(e1, path, c).verdict.Ok? then e1 else e2, path, c, s);
      case Map(e1, _) => ReaderTakes(e1, path, c, s);
      case MapErr(e1, _) => ReaderTakes(e1, path, c, s);
      case AndThen(e1, _) => ReaderTakes(e1, path, c, s);
      case _ =>
    }
  }

  /** An `And` of two endpoints that both must read the body never succeeds. */
  lemma TwoReadersFail(e1: Endpoint, e2: Endpoint, path: string, c: Cursor, s: Slot)
    requires c.pos <= |path| && MustRead(e1) && MustRead(e2)
    ensures Apply(And(e1, e2), path, c, s).result.Err?
  {
    if Route(And(e1, e2), path, c).verdict.Ok? {
      ReaderTakes(e1, path, c, s);
      ReaderTakes(e2, path, Route(e1, path, c).cursor, Run(e1, path, c, s).slot);
    }
  }

  /** The endpoint `receive_all()`. */
  const RECEIVE_ALL := Collect(None, bytes => Ok(Bytes(bytes)))

  /** `receive_all` on any request: however the body interleaves its chunks with
      `NotReady` answers, the polls up to its last wait are not ready and the next
      yields all chunks of the body in order, or the error that broke it off. */
  lemma ReceiveAllYieldsPayload(path: string, body: Body, n: nat)
    requires IsPath(path) && n <= Stalls(body)
    ensures var r := NthPoll(Starting(Some(Spawn(RECEIVE_ALL))), path, Slot(Some(body), 0), n);
            if n < Stalls(body) then r.call == Returned(Ok(NotReady))
            else
              && r.slot == Slot(None, 1)
              && r.call == match Payload(body)
                           case Ok(bytes) => Returned(Ok(Ready([Bytes(bytes)])))
                           case Err(err) => Returned(Err(err))
  {
    PollingServes(RECEIVE_ALL, path, Some(body), n);
  }

  // ---- The schedule ----

  /** `d` is `e` with other numbers of `NotReady` answers in its tasks and in the
      futures its closures return. */
  ghost predicate Retimed(e: Endpoint, d: Endpoint) {
    match e
    case Task(p) => d.Task? && d.promise.result == p.result
    case And(e1, e2) => d.And? && Retimed(e1, d.e1) && Retimed(e2, d.e2)
    case Or(e1, e2) => d.Or? && Retimed(e1, d.e1) && Retimed(e2, d.e2)
    case OrStrict(e1, e2) => d.OrStrict? && Retimed(e1, d.e1) && Retimed(e2, d.e2)
    case Map(e1, f) => d.Map? && Retimed(e1, d.e) && d.f == f
    case MapErr(e1, g) => d.MapErr? && Retimed(e1, d.e) && d.g == g
    case AndThen(e1, next) => d.AndThen? && Retimed(e1, d.e) && forall out :: next(out).result == d.next(out).result
    case Recover(e1, rescue) =>
      d.Recover? && Retimed(e1, d.e) && forall err :: rescue(err).result == d.rescue(err).result
    case _ => e == d
  }

  /** No leaf inside hands out the body stream itself. */
  predicate NoRaw(e: Endpoint) {
    match e
    case Raw => false
    case And(e1, e2) => NoRaw(e1) && NoRaw(e2)
    case Or(e1, e2) => NoRaw(e1) && NoRaw(e2)
    case OrStrict(e1, e2) => NoRaw(e1) && NoRaw(e2)
    case Map(e1, _) => NoRaw(e1)
    case MapErr(e1, _) => NoRaw(e1)
    case AndThen(e1, _) => NoRaw(e1)
    case Recover(e1, _) => NoRaw(e1)
    case _ => true
  }

  /** Two slots that hold the same body up to its `NotReady` answers, or both none. */
  ghost predicate Rescheduled(s: Slot, t: Slot) {
    && s.handed == t.handed
    && s.body.Some? == t.body.Some?
    && (s.body.Some? ==> WithoutStalls(s.body.value) == WithoutStalls(t.body.value))
  }

  /** Both routed alike, with the same result, and the same body left up to its
      `NotReady` answers. */
  ghost predicate SettlesAlike(e: Endpoint, d: Endpoint, path: string, c: Cursor, s: Slot, t: Slot)
    requires c.pos <= |path|
  {
    var o, p := Apply(e, path, c, s), Apply(d, path, c, t);
    && Route(e, path, c) == Route(d, path, c)
    && o.result == p.result && Rescheduled(o.slot, p.slot) && (s == t ==> o.slot == p.slot)
  }

  /** The readiness schedule decides when an endpoint settles, never how: with
      other numbers of `NotReady` answers from its tasks, from the futures of its
      closures and from the body, the routing, the result and the leftover body are
      the same. Only a leaf that hands out the body stream itself can show the
      body's own schedule, so such an endpoint must be given the same body. */
  lemma {:induction false} RetimingKeepsOutcome(e: Endpoint, d: Endpoint, path: string, c: Cursor, s: Slot, t: Slot)
    requires c.pos <= |path| && Retimed(e, d) && Rescheduled(s, t)
    requires NoRaw(e) || s == t
    ensures SettlesAlike(e, d, path, c, s, t)
  {
    match e {
      case And(e1, e2) =>
        var c1 := Route(e1, path, c).cursor;
        RetimingKeepsOutcome(e1, d.e1, path, c, s, t);
        RetimingKeepsOutcome(e2, d.e2, path, c1, Apply(e1, path, c, s).slot, Apply(d.e1, path, c, t).slot);
        RetimedAnd(e1, e2, d.e1, d.e2, path, c, s, t);
      case Or(e1, e2) =>
        RetimingKeepsOutcome(e1, d.e1, path, c, s, t);
        RetimingKeepsOutcome(e2, d.e2, path, c, s, t);
        RetimedChoice(e, d, path, c, s, t);
      case OrStrict(e1, e2) =>
        RetimingKeepsOutcome(e1, d.e1, path, c, s, t);
        RetimingKeepsOutcome(e2, d.e2, path, c, s, t);
        RetimedChoice(e, d, path, c, s, t);
      case Map(e1, _) =>
        RetimingKeepsOutcome(e1, d.e, path, c, s, t);
        RetimedWrapper(e, d, path, c, s, t);
      case MapErr(e1, _) =>
        RetimingKeepsOutcome(e1, d.e, path, c, s, t);
        RetimedWrapper(e, d, path, c, s, t);
      case AndThen(e1, _) =>
        RetimingKeepsOutcome(e1, d.e, path, c, s, t);
        RetimedWrapper(e, d, path, c, s, t);
      case Recover(e1, _) =>
        RetimingKeepsOutcome(e1, d.e, path, c, s, t);
        RetimedWrapper(e, d, path, c, s, t);
      case _ => RetimedLeaf(e, d, path, c, s, t);
    }
  }

  lemma RetimedLeaf(e: Endpoint, d: Endpoint, path: string, c: Cursor, s: Slot, t: Slot)
    requires c.pos <= |path| && Retimed(e, d) && Rescheduled(s, t) && (NoRaw(e) || s == t)
    requires e.Oneshot? || e.Task? || e.Raw? || e.Collect?
    ensures SettlesAlike(e, d, path, c, s, t)
  {
    if e.Collect? && s.body.Some? {
      PayloadIgnoresStalls(s.body.value);
      PayloadIgnoresStalls(t.body.value);
    }
  }

  lemma RetimedAnd(e1: Endpoint, e2: Endpoint, d1: Endpoint, d2: Endpoint, path: string, c: Cursor, s: Slot, t: Slot)
    requires c.pos <= |path| && Rescheduled(s, t) && SettlesAlike(e1, d1, path, c, s, t)
    requires var c1, s1, t1 := Route(e1, path, c).cursor, Apply(e1, path, c, s).slot, Apply(d1, path, c, t).slot;
             SettlesAlike(e2, d2, path, c1, s1, t1)
    ensures SettlesAlike(And(e1, e2), And(d1, d2), path, c, s, t)
  {
    var c1, o1, p1 := Route(e1, path, c).cursor, Apply(e1, path, c, s), Apply(d1, path, c, t);
    AndJoins(e1, e2, path, c);
    AndJoins(d1, d2, path, c);
    AndApplies(e1, e2, path, c, s);
    AndApplies(d1, d2, path, c, t);
    ChainSettlesAlike(o1, Apply(e2, path, c1, o1.slot), p1, Apply(d2, path, c1, p1.slot));
  }

  lemma ChainSettlesAlike(o1: Outcome, o2: Outcome, p1: Outcome, p2: Outcome)
    requires o1.result == p1.result && o2.result == p2.result
    requires Rescheduled(o1.slot, p1.slot) && Rescheduled(o2.slot, p2.slot)
    ensures Chain(o1, o2).result == Chain(p1, p2).result
    ensures Rescheduled(Chain(o1, o2).slot, Chain(p1, p2).slot)
    ensures o1.slot == p1.slot && o2.slot == p2.slot ==> Chain(o1, o2).slot == Chain(p1, p2).slot
  {}

  lemma RetimedChoice(e: Endpoint, d: Endpoint, path: string, c: Cursor, s: Slot, t: Slot)
    requires c.pos <= |path| && Rescheduled(s, t) && ((e.Or? && d.Or?) || (e.OrStrict? && d.OrStrict?))
    requires SettlesAlike(e.e1, d.e1, path, c, s, t) && SettlesAlike(e.e2, d.e2, path, c, s, t)
    ensures SettlesAlike(e, d, path, c, s, t)
  {}

  lemma RetimedWrapper(e: Endpoint, d: Endpoint, path: string, c: Cursor, s: Slot, t: Slot)
    requires c.pos <= |path| && Retimed(e, d) && Rescheduled(s, t)
    requires e.Map? || e.MapErr? || e.AndThen? || e.Recover?
    requires SettlesAlike(e.e, d.e, path, c, s, t)
    ensures SettlesAlike(e, d, path, c, s, t)
  {}
}
