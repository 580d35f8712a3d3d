/** Algebraic laws of `And`: association, unit, and factoring over `Or`. */
module SequencingLaws {
  import opened Outcomes
  import opened PathCursor
  import opened Extraction
  import opened RequestBody
  import opened Endpoints
  import opened ActionSteps
  import opened ActionsMeetEndpoints
  import opened Service

  /** Two endpoints that no request, cursor or body can tell apart: routing and
      runs agree, waits and failures included. */
  ghost predicate Same(e: Endpoint, d: Endpoint, path: string, c: Cursor)
    requires c.pos <= |path|
  {
    && Route(e, path, c) == Route(d, path, c)
    && (Route(e, path, c).verdict.Ok? ==> forall s :: Run(e, path, c, s) == Run(d, path, c, s))
  }

  lemma ChainAssociates(o1: Outcome, o2: Outcome, o3: Outcome)
    ensures Chain(Chain(o1, o2), o3) == Chain(o1, Chain(o2, o3))
  {
    if o1.result.Ok? && o2.result.Ok? && o3.result.Ok? {
      assert o1.result.value + o2.result.value + o3.result.value
          == o1.result.value + (o2.result.value + o3.result.value);
    }
  }

  /** Both groupings of three endpoints mean the same. */
  lemma AndAssociates(a: Endpoint, b: Endpoint, d: Endpoint, path: string, c: Cursor)
    requires c.pos <= |path|
    ensures Same(And(And(a, b), d), And(a, And(b, d)), path, c)
  {
    var l, r := And(And(a, b), d), And(a, And(b, d));
    var c1 := Route(a, path, c).cursor;
    var c2 := Route(b, path, c1).cursor;
    var rab, rbd := Route(And(a, b), path, c), Route(And(b, d), path, c1);
    if Route(l, path, c).verdict.Ok? {
      forall s ensures Run(l, path, c, s) == Run(r, path, c, s) {
        var o1 := Run(a, path, c, s);
        var o2 := Run(b, path, c1, o1.slot);
        assert Run(And(a, b), path, c, s) == Chain(o1, o2);
        ChainAssociates(o1, o2, Run(d, path, c2, o2.slot));
      }
    }
  }

  /** The same three sub-actions, grouped to the left in `x` and to the right in
      `y`, each in the same state on both sides. Once the inner pair on the left has
      finished, its output is the two outputs the right keeps apart. */
  ghost predicate Twins(x: Act, y: Act) {
    && x.node.AndNode? && y.node.AndNode? && y.node.f2.InFlight? && y.node.f2.running.node.AndNode?
    && var inner := y.node.f2.running.node;
    && x.node.f2 == inner.f2
    && match x.node.f1
       case InFlight(pair) => pair == Act(AndNode(y.node.f1, inner.f1))
       case Finished(out) => y.node.f1.Finished? && inner.f1.Finished? && out == y.node.f1.output + inner.f1.output
       case _ => false
  }

  /** `And` is associative poll for poll: whatever state the three sub-actions
      are in, the two groupings poll the same leaves and futures in the same order,
      each with the same body slot, give the same answer and leave the same body.
      Unless they are ready they leave every sub-action in the same state again,
      failures and panics included; once ready they are the same spent action. */
  lemma TwinsPollAlike(x: Act, y: Act, s: Slot)
    requires Twins(x, y)
    ensures PollAlike(x, y, s)
  {
    var inner := y.node.f2.running.node;
    if x.node.f1.InFlight? {
      assert x == Act(AndNode(InFlight(Act(AndNode(y.node.f1, inner.f1))), inner.f2));
      RunningTwins(y.node.f1, inner.f1, inner.f2, s);
    } else {
      FinishedTwins(y.node.f1.output, inner.f1.output, inner.f2, s);
    }
  }

  ghost predicate PollAlike(x: Act, y: Act, s: Slot) {
    AnswerAlike(x, y, s) && Polls(x, s) == Polls(y, s)
  }

  ghost predicate AnswerAlike(x: Act, y: Act, s: Slot) {
    var p, q := PollAct(x, s), PollAct(y, s);
    && p.call == q.call && p.slot == q.slot
    && (if IsReady(p.call) then p.act == q.act else Twins(p.act, q.act))
  }

  predicate IsReady(call: PollCall<Output>) {
    call.Returned? && call.value.Ok? && call.value.value.Ready?
  }

  /** The left grouping while its inner pair runs, and the right grouping. */
  function LeftGrouped(f1: MaybeDone<Act>, f2: MaybeDone<Act>, f3: MaybeDone<Act>): Act {
    Act(AndNode(InFlight(Act(AndNode(f1, f2))), f3))
  }

  function RightGrouped(f1: MaybeDone<Act>, f2: MaybeDone<Act>, f3: MaybeDone<Act>): Act {
    Act(AndNode(f1, InFlight(Act(AndNode(f2, f3)))))
  }

  lemma RunningTwins(f1: MaybeDone<Act>, f2: MaybeDone<Act>, f3: MaybeDone<Act>, s: Slot)
    ensures PollAlike(LeftGrouped(f1, f2, f3), RightGrouped(f1, f2, f3), s)
  {
    RunningTwinsAnswer(f1, f2, f3, s);
    RunningTwinsPoll(f1, f2, f3, s);
  }

  lemma RunningTwinsAnswer(f1: MaybeDone<Act>, f2: MaybeDone<Act>, f3: MaybeDone<Act>, s: Slot)
    ensures AnswerAlike(LeftGrouped(f1, f2, f3), RightGrouped(f1, f2, f3), s)
  {
    var s1 := PollSlot(f1, s);
    AndPolls(f1, f2, s);
    if s1.call != Returned(Ok(Ready(()))) {
      FirstHoldsUp(f1, f2, f3, s);
    } else if PollSlot(f2, s1.slot).call != Returned(Ok(Ready(()))) {
      SecondHoldsUp(f1, f2, f3, s);
    } else {
      ThirdRemains(f1, f2, f3, s);
    }
  }

  lemma FirstHoldsUp(f1: MaybeDone<Act>, f2: MaybeDone<Act>, f3: MaybeDone<Act>, s: Slot)
    requires PollSlot(f1, s).call != Returned(Ok(Ready(())))
    ensures AnswerAlike(LeftGrouped(f1, f2, f3), RightGrouped(f1, f2, f3), s)
  {
    AndPolls(f1, f2, s);
    AndPolls(InFlight(Act(AndNode(f1, f2))), f3, s);
    AndPolls(f1, InFlight(Act(AndNode(f2, f3))), s);
  }

  lemma SecondHoldsUp(f1: MaybeDone<Act>, f2: MaybeDone<Act>, f3: MaybeDone<Act>, s: Slot)
    requires PollSlot(f1, s).call == Returned(Ok(Ready(())))
    requires PollSlot(f2, PollSlot(f1, s).slot).call != Returned(Ok(Ready(())))
    ensures AnswerAlike(LeftGrouped(f1, f2, f3), RightGrouped(f1, f2, f3), s)
  {
    AndPolls(f1, f2, s);
    AndPolls(InFlight(Act(AndNode(f1, f2))), f3, s);
    AndPolls(f1, InFlight(Act(AndNode(f2, f3))), s);
    AndPolls(f2, f3, PollSlot(f1, s).slot);
  }

  /** Once the first two have finished, the rest of the poll is that of the
      finished twins. */
  lemma ThirdRemains(f1: MaybeDone<Act>, f2: MaybeDone<Act>, f3: MaybeDone<Act>, s: Slot)
    requires PollSlot(f1, s).call == Returned(Ok(Ready(())))
    requires PollSlot(f2, PollSlot(f1, s).slot).call == Returned(Ok(Ready(())))
    ensures AnswerAlike(LeftGrouped(f1, f2, f3), RightGrouped(f1, f2, f3), s)
  {
    var s1 := PollSlot(f1, s);
    var s2 := PollSlot(f2, s1.slot);
    AndPolls(f1, f2, s);
    LeftGoesOn(f1, f2, f3, s);
    RightGoesOn(f1, f2, f3, s);
    FinishedTwins(s1.m.output, s2.m.output, f3, s2.slot);
  }

  lemma LeftGoesOn(f1: MaybeDone<Act>, f2: MaybeDone<Act>, f3: MaybeDone<Act>, s: Slot)
    requires PollSlot(f1, s).call == Returned(Ok(Ready(())))
    requires PollSlot(f2, PollSlot(f1, s).slot).call == Returned(Ok(Ready(())))
    ensures var s1 := PollSlot(f1, s);
            var s2 := PollSlot(f2, s1.slot);
            && s1.m.Finished? && s2.m.Finished?
            && PollAct(LeftGrouped(f1, f2, f3), s)
               == PollAct(Act(AndNode(Finished(s1.m.output + s2.m.output), f3)), s2.slot)
  {
    var s1 := PollSlot(f1, s);
    var s2 := PollSlot(f2, s1.slot);
    AndPolls(f1, f2, s);
    AndPolls(f2, f3, s1.slot);
    AndPolls(InFlight(Act(AndNode(f1, f2))), f3, s);
    AndPolls(Finished(s1.m.output + s2.m.output), f3, s2.slot);
  }

  lemma RightGoesOn(f1: MaybeDone<Act>, f2: MaybeDone<Act>, f3: MaybeDone<Act>, s: Slot)
    requires PollSlot(f1, s).call == Returned(Ok(Ready(())))
    requires PollSlot(f2, PollSlot(f1, s).slot).call == Returned(Ok(Ready(())))
    ensures var s1 := PollSlot(f1, s);
            var s2 := PollSlot(f2, s1.slot);
            && s1.m.Finished? && s2.m.Finished?
            && PollAct(RightGrouped(f1, f2, f3), s)
               == PollAct(RightGrouped(Finished(s1.m.output), Finished(s2.m.output), f3), s2.slot)
  {
    var s1 := PollSlot(f1, s);
    var s2 := PollSlot(f2, s1.slot);
    AndPolls(f1, InFlight(Act(AndNode(f2, f3))), s);
    AndPolls(f2, f3, s1.slot);
    AndPolls(Finished(s2.m.output), f3, s2.slot);
    AndPolls(Finished(s1.m.output), InFlight(Act(AndNode(Finished(s2.m.output), f3))), s2.slot);
  }

  lemma RunningTwinsPoll(f1: MaybeDone<Act>, f2: MaybeDone<Act>, f3: MaybeDone<Act>, s: Slot)
    ensures Polls(LeftGrouped(f1, f2, f3), s) == Polls(RightGrouped(f1, f2, f3), s)
  {
    var ready := Returned(Ok(Ready(())));
    var ab, bd := Act(AndNode(f1, f2)), Act(AndNode(f2, f3));
    var s1 := PollSlot(f1, s);
    var s2 := PollSlot(f2, s1.slot);
    AndPolls(f1, f2, s);
    AndPolls(InFlight(ab), f3, s);
    AndPolls(f1, InFlight(bd), s);
    AndPolls(f2, f3, s1.slot);
    var e1 := SlotPolls(f1, s);
    var e2 := if s1.call == ready then SlotPolls(f2, s1.slot) else [];
    var e3 := if s1.call == ready && s2.call == ready then SlotPolls(f3, s2.slot) else [];
    assert Polls(ab, s) == e1 + e2;
    assert s1.call == ready ==> Polls(bd, s1.slot) == e2 + e3;
    assert e1 + (e2 + e3) == (e1 + e2) + e3;
  }

  lemma FinishedTwins(o1: Output, o2: Output, f3: MaybeDone<Act>, s: Slot)
    ensures PollAlike(Act(AndNode(Finished(o1 + o2), f3)),
                      Act(AndNode(Finished(o1), InFlight(Act(AndNode(Finished(o2), f3))))), s)
  {
    AndPolls(Finished(o1 + o2), f3, s);
    AndPolls(Finished(o1), InFlight(Act(AndNode(Finished(o2), f3))), s);
    AndPolls(Finished(o2), f3, s);
    FlatAppend(o1, o2, PollSlot(f3, s).m);
    assert [] + SlotPolls(f3, s) == SlotPolls(f3, s);
  }

  /** The answer of a half that is not ready, as the answer of the whole. */
  function Unready(call: PollCall<()>): PollCall<Output> {
    match call
    case Panicked => Panicked
    case Returned(Err(err)) => Returned(Err(err))
    case Returned(Ok(_)) => Returned(Ok(NotReady))
  }

  /** An `And` polls its second half only once its first is ready. */
  lemma AndPolls(f1: MaybeDone<Act>, f2: MaybeDone<Act>, s: Slot)
    ensures var s1, p := PollSlot(f1, s), PollAct(Act(AndNode(f1, f2)), s);
            if s1.call == Returned(Ok(Ready(())))
            then s1.m.Finished? && p == PollSecond(s1.m, f2, s1.slot)
            else p == Polled(Act(AndNode(s1.m, f2)), s1.slot, Unready(s1.call))
    ensures var s1 := PollSlot(f1, s);
            Polls(Act(AndNode(f1, f2)), s)
              == SlotPolls(f1, s) + if s1.call == Returned(Ok(Ready(()))) then SlotPolls(f2, s1.slot) else []
  {}

  /** Two futures in the same phase, for the two groupings of three endpoints. */
  ghost predicate TwinPhases(p: Phase<Act>, q: Phase<Act>) {
    p == q || (p.Polling? && q.Polling? && Twins(p.running, q.running))
  }

  /** The `n`th call polls the same leaves and futures in the same order, each with
      the same body slot, answers the same and leaves the same body. */
  ghost predicate ServesAlike(p: Phase<Act>, q: Phase<Act>, path: string, s: Slot, n: nat)
    requires IsPath(path)
  {
    && NthPoll(p, path, s, n).call == NthPoll(q, path, s, n).call
    && NthPoll(p, path, s, n).slot == NthPoll(q, path, s, n).slot
    && NthPolls(p, path, s, n) == NthPolls(q, path, s, n)
  }

  /** Over whole runs: every call of `poll_apply`, the first one that routes, those
      up to settling, and any after it, is the same for both groupings. */
  lemma GroupingsServeAlike(a: Endpoint, b: Endpoint, d: Endpoint, path: string, s: Slot, n: nat)
    requires IsPath(path)
    ensures ServesAlike(Starting(Some(Spawn(And(And(a, b), d)))), Starting(Some(Spawn(And(a, And(b, d))))), path, s, n)
  {
    TwinsPreflightAlike(a, b, d, path, START);
    var l, r := Starting(Some(Spawn(And(And(a, b), d)))), Starting(Some(Spawn(And(a, And(b, d)))));
    var p, q := PreflightAct(l.action.value, path, START), PreflightAct(r.action.value, path, START);
    AndPreflights(Init(Some(Spawn(And(a, b)))), Init(Some(Spawn(d))), path, START);
    if p.call == Returned(Ok(Incomplete)) {
      TwinsPollAlike(p.act, q.act, s);
    }
    var p1, q1 := PollApply(l, path, s), PollApply(r, path, s);
    if n > 0 {
      TwinPhasesServeAlike(p1.phase, q1.phase, path, p1.slot, n - 1);
    }
  }

  lemma {:induction false} TwinPhasesServeAlike(p: Phase<Act>, q: Phase<Act>, path: string, s: Slot, n: nat)
    requires IsPath(path) && TwinPhases(p, q)
    ensures ServesAlike(p, q, path, s, n)
    decreases n
  {
    if p != q {
      TwinsPollAlike(p.running, q.running, s);
      var p1, q1 := PollApply(p, path, s), PollApply(q, path, s);
      if n > 0 {
        TwinPhasesServeAlike(p1.phase, q1.phase, path, p1.slot, n - 1);
      }
    }
  }

  lemma FlatAppend(o1: Output, o2: Output, m: MaybeDone<Act>)
    ensures m.Finished? ==> o1 + o2 + m.output == o1 + (o2 + m.output)
  {}

  /** Preflight of the two groupings answers alike, leaves the cursor alike, and
      starts the polls as twins. */
  lemma TwinsPreflightAlike(a: Endpoint, b: Endpoint, d: Endpoint, path: string, c: Cursor)
    requires c.pos <= |path|
    ensures var p := PreflightAct(Spawn(And(And(a, b), d)), path, c);
            var q := PreflightAct(Spawn(And(a, And(b, d))), path, c);
            && p.call == q.call && p.cursor == q.cursor
            && (p.call == Returned(Ok(Incomplete)) ==> Twins(p.act, q.act))
  {
    PreflightTwins(Init(Some(Spawn(a))), Init(Some(Spawn(b))), Init(Some(Spawn(d))), path, c);
  }

  lemma PreflightTwins(f1: MaybeDone<Act>, f2: MaybeDone<Act>, f3: MaybeDone<Act>, path: string, c: Cursor)
    requires c.pos <= |path|
    ensures var p := PreflightAct(Act(AndNode(Init(Some(Act(AndNode(f1, f2)))), f3)), path, c);
            var q := PreflightAct(Act(AndNode(f1, Init(Some(Act(AndNode(f2, f3)))))), path, c);
            && p.call == q.call && p.cursor == q.cursor
            && (p.call == Returned(Ok(Incomplete)) ==> Twins(p.act, q.act))
  {
    var c1 := PreflightSlot(f1, path, c).cursor;
    AndPreflights(f1, f2, path, c);
    AndPreflights(f2, f3, path, c1);
    PairPreflights(Act(AndNode(f1, f2)), path, c);
    PairPreflights(Act(AndNode(f2, f3)), path, c1);
    AndPreflights(Init(Some(Act(AndNode(f1, f2)))), f3, path, c);
    AndPreflights(f1, Init(Some(Act(AndNode(f2, f3)))), path, c);
    SlotsNeverComplete(f1, path, c);
  }

  /** A half that is itself an `And` stays in flight after its preflight. */
  lemma PairPreflights(a: Act, path: string, c: Cursor)
    requires c.pos <= |path|
    ensures var r, s := PreflightAct(a, path, c), PreflightSlot(Init(Some(a)), path, c);
            && s.cursor == r.cursor
            && (r.call == Returned(Ok(Incomplete)) ==> s.m == InFlight(r.act) && s.call == Returned(Ok(Incomplete)))
            && (r.call.Panicked? ==> s.call == Panicked)
            && (r.call.Returned? && r.call.value.Err? ==> s.call == Returned(Err(r.call.value.error)))
  {}

  /** What preflighting two halves left to right amounts to: never a completion. */
  function Halves(f1: MaybeDone<Act>, f2: MaybeDone<Act>, path: string, c: Cursor): (SlotFlown, SlotFlown)
    requires c.pos <= |path|
  {
    var s1 := PreflightSlot(f1, path, c);
    if s1.call != Returned(Ok(Incomplete)) then (s1, SlotFlown(f2, s1.cursor, s1.call))
    else (s1, PreflightSlot(f2, path, s1.cursor))
  }

  lemma SlotsNeverComplete(m: MaybeDone<Act>, path: string, c: Cursor)
    requires c.pos <= |path|
    ensures var s := PreflightSlot(m, path, c);
            s.call.Returned? && s.call.value.Ok? ==> s.call == Returned(Ok(Incomplete))
  {}

  lemma AndPreflights(f1: MaybeDone<Act>, f2: MaybeDone<Act>, path: string, c: Cursor)
    requires c.pos <= |path|
    ensures PreflightAct(Act(AndNode(f1, f2)), path, c)
         == var (s1, s2) := Halves(f1, f2, path, c);
            Flown(Act(AndNode(s1.m, s2.m)), s2.cursor, Unmatched(s2.call))
  {
    SlotsNeverComplete(f1, path, c);
    SlotsNeverComplete(f2, path, PreflightSlot(f1, path, c).cursor);
  }

  function Unmatched(call: PreflightCall<()>): PreflightCall<Output> {
    match call
    case Panicked => Panicked
    case Returned(Err(err)) => Returned(Err(err))
    case Returned(Ok(_)) => Returned(Ok(Incomplete))
  }

  lemma AndJoins(e1: Endpoint, e2: Endpoint, path: string, c: Cursor)
    requires c.pos <= |path|
    ensures var r1 := Route(e1, path, c);
            Route(And(e1, e2), path, c) == Join(r1, Route(e2, path, r1.cursor))
  {}

  lemma AndApplies(e1: Endpoint, e2: Endpoint, path: string, c: Cursor, s: Slot)
    requires c.pos <= |path|
    ensures var r1, o1 := Route(e1, path, c), Apply(e1, path, c, s);
            var r2, o2 := Route(e2, path, r1.cursor), Apply(e2, path, r1.cursor, o1.slot);
            Apply(And(e1, e2), path, c, s)
              == if r1.verdict.Err? then o1
                 else if r2.verdict.Err? then Outcome(o2.result, s, 0)
                 else Chain(o1, o2)
  {
    AndJoins(e1, e2, path, c);
  }

  /** `unit()` on either side changes nothing a request can observe. */
  lemma UnitIsNeutral(e: Endpoint, path: string, c: Cursor, s: Slot)
    requires c.pos <= |path|
    ensures Apply(And(UNIT, e), path, c, s) == Apply(e, path, c, s)
    ensures Apply(And(e, UNIT), path, c, s) == Apply(e, path, c, s)
    ensures Route(And(UNIT, e), path, c).cursor == Route(e, path, c).cursor
    ensures Route(And(e, UNIT), path, c).cursor == Route(e, path, c).cursor
  {
    var r, o := Route(e, path, c), Apply(e, path, c, s);
    UnitApplies(path, c, s);
    UnitApplies(path, r.cursor, o.slot);
    AndJoins(UNIT, e, path, c);
    AndApplies(UNIT, e, path, c, s);
    AndJoins(e, UNIT, path, c);
    AndApplies(e, UNIT, path, c, s);
    ChainUnit(o);
  }

  lemma UnitApplies(path: string, c: Cursor, s: Slot)
    requires c.pos <= |path|
    ensures Route(UNIT, path, c) == Routed(Ok(Completed([])), c)
    ensures Apply(UNIT, path, c, s) == Outcome(Ok([]), s, 0)
  {}

  lemma ChainUnit(o: Outcome)
    ensures forall s :: Chain(Outcome(Ok([]), s, 0), o) == o
    ensures Chain(o, Outcome(Ok([]), o.slot, 0)) == o
  {
    if o.result.Ok? {
      assert [] + o.result.value == o.result.value == o.result.value + [];
    }
  }

  /** `unit()` with `e` in either order. */
  function WithUnit(left: bool, e: Endpoint): Endpoint {
    if left then And(UNIT, e) else And(e, UNIT)
  }

  /** `y` is `x` beside a finished unit. */
  ghost predicate Padded(left: bool, x: Act, y: Act) {
    y == Act(if left then AndNode(Finished([]), InFlight(x)) else AndNode(InFlight(x), Finished([])))
  }

  /** A unit is neutral poll for poll, up to the answer that settles. */
  lemma UnitServesAlike(left: bool, e: Endpoint, path: string, body: Option<Body>, n: nat)
    requires IsPath(path) && n <= Serve(e, path, body).waits
    ensures ServesAlike(Starting(Some(Spawn(e))), Starting(Some(Spawn(WithUnit(left, e)))), path, Slot(body, 0), n)
  {
    RoutedAction(e, path, Slot(body, 0));
    UnitPreflights(left, e, path);
    PaddedStartServes(left, Spawn(e), Spawn(WithUnit(left, e)), path, Slot(body, 0), Serve(e, path, body), n);
  }

  /** The preflights of `a`, which owes `o`, and of `b`, with the unit. */
  ghost predicate PaddedStart(left: bool, a: Act, b: Act, path: string, s: Slot, o: Outcome)
    requires IsPath(path)
  {
    var x, y := PreflightAct(a, path, START), PreflightAct(b, path, START);
    RoutedTo(x, s, o) && PaddedFlown(left, x, y)
  }

  lemma PaddedStartServes(left: bool, a: Act, b: Act, path: string, s: Slot, o: Outcome, n: nat)
    requires IsPath(path) && PaddedStart(left, a, b, path, s, o) && n <= o.waits
    ensures ServesAlike(Starting(Some(a)), Starting(Some(b)), path, s, n)
  {
    var x, y := PreflightAct(a, path, START), PreflightAct(b, path, START);
    if x.call == Returned(Ok(Incomplete)) {
      PaddedServes(left, x.act, y.act, path, s, n);
      FirstPollGoesOn(a, b, path, s, n);
    } else if x.call.value.Ok? {
      BothFinished(left, x.call.value.value.value, s);
    }
  }

  /** After an incomplete preflight the calls are those of the future that polls. */
  lemma FirstPollGoesOn(a: Act, b: Act, path: string, s: Slot, n: nat)
    requires IsPath(path)
    requires var x, y := PreflightAct(a, path, START), PreflightAct(b, path, START);
             && x.call == y.call == Returned(Ok(Incomplete))
             && ServesAlike(Polling(x.act), Polling(y.act), path, s, n)
    ensures ServesAlike(Starting(Some(a)), Starting(Some(b)), path, s, n)
  {}

  /** With a unit beside it, what completed in preflight completes in the first
      poll. */
  ghost predicate PaddedFlown(left: bool, x: Flown, y: Flown) {
    if x.call == Returned(Ok(Incomplete)) then y.call == x.call && Padded(left, x.act, y.act)
    else if x.call.Returned? && x.call.value.Ok?
    then y.call == Returned(Ok(Incomplete)) && y.act == Units(left, x.call.value.value.value)
    else y.call == x.call
  }

  lemma UnitPreflights(left: bool, e: Endpoint, path: string)
    requires IsPath(path)
    ensures PaddedFlown(left, PreflightAct(Spawn(e), path, START), PreflightAct(Spawn(WithUnit(left, e)), path, START))
  {
    var unit, f := Init(Some(Spawn(UNIT))), Init(Some(Spawn(e)));
    assert Spawn(WithUnit(left, e)) == Act(if left then AndNode(unit, f) else AndNode(f, unit));
    if left {
      UnitBefore(Spawn(e), path);
    } else {
      UnitAfter(Spawn(e), path);
    }
  }

  lemma UnitBefore(a: Act, path: string)
    requires IsPath(path)
    ensures var y := PreflightAct(Act(AndNode(Init(Some(Spawn(UNIT))), Init(Some(a)))), path, START);
            PaddedFlown(true, PreflightAct(a, path, START), y)
  {
    UnitSlotPreflights(path, START);
    AndPreflights(Init(Some(Spawn(UNIT))), Init(Some(a)), path, START);
  }

  lemma UnitAfter(a: Act, path: string)
    requires IsPath(path)
    ensures var y := PreflightAct(Act(AndNode(Init(Some(a)), Init(Some(Spawn(UNIT))))), path, START);
            PaddedFlown(false, PreflightAct(a, path, START), y)
  {
    UnitSlotPreflights(path, PreflightSlot(Init(Some(a)), path, START).cursor);
    AndPreflights(Init(Some(a)), Init(Some(Spawn(UNIT))), path, START);
  }

  lemma UnitSlotPreflights(path: string, c: Cursor)
    requires c.pos <= |path|
    ensures PreflightSlot(Init(Some(Spawn(UNIT))), path, c) == SlotFlown(Finished([]), c, Returned(Ok(Incomplete)))
  {}

  function Units(left: bool, out: Output): Act {
    Act(if left then AndNode(Finished([]), Finished(out)) else AndNode(Finished(out), Finished([])))
  }

  lemma BothFinished(left: bool, out: Output, s: Slot)
    ensures var p := PollAct(Units(left, out), s); p.call == Returned(Ok(Ready(out))) && p.slot == s
    ensures Polls(Units(left, out), s) == []
  {
    if left {
      AndPolls(Finished([]), Finished(out), s);
    } else {
      AndPolls(Finished(out), Finished([]), s);
    }
    assert [] + out == out == out + [];
  }

  lemma {:induction false} PaddedServes(left: bool, x: Act, y: Act, path: string, s: Slot, n: nat)
    requires IsPath(path) && Padded(left, x, y) && Live(x) && n <= Rest(x, s).waits
    ensures ServesAlike(Polling(x), Polling(y), path, s, n)
    decreases n
  {
    PaddedPolls(left, x, y, s);
    if n > 0 {
      PollProgresses(x, s);
      PaddedServes(left, PollAct(x, s).act, PollAct(y, s).act, path, PollAct(x, s).slot, n - 1);
    }
  }

  lemma PaddedPolls(left: bool, x: Act, y: Act, s: Slot)
    requires Padded(left, x, y)
    ensures var p, q := PollAct(x, s), PollAct(y, s);
            && p.call == q.call && p.slot == q.slot
            && (p.call == Returned(Ok(NotReady)) ==> Padded(left, p.act, q.act))
    ensures Polls(x, s) == Polls(y, s)
  {
    AndPolls(y.node.f1, y.node.f2, s);
    var p := PollAct(x, s);
    if IsReady(p.call) {
      var out := p.call.value.value.value;
      assert [] + out == out == out + [];
    }
    assert [] + Polls(x, s) == Polls(x, s) == Polls(x, s) + [];
  }

  // ---- Factoring a common prefix out of an `Or` ----

  /** Every output of `e` has `n` elements, read off its type. */
  ghost predicate HasArity(e: Endpoint, n: nat) {
    match e
    case Oneshot(x) => ExtractorArity(x, n)
    case Task(p) => p.result.Ok? ==> |p.result.value| == n
    case Raw => n == 1
    case Collect(_, _) => n == 1
    case And(e1, e2) => exists m: nat :: m <= n && HasArity(e1, m) && HasArity(e2, n - m)
    case Or(_, _) => n == 1
    case OrStrict(e1, e2) => HasArity(e1, n) && HasArity(e2, n)
    case Map(_, _) => n == 1
    case MapErr(e1, _) => HasArity(e1, n)
    case AndThen(_, _) => n == 1
    case Recover(e1, _) => n == 1 && HasArity(e1, 1)
  }

  ghost predicate ExtractorArity(x: Extractor, n: nat) {
    match x
    case Segment(_) => n == 0
    case Eos => n == 0
    case Param(_, _) => n == 1
    case Remains(_, _) => n == 1
    case Literal(items) => n == |items|
    case Compiled(components, _) => n == Params(components)
    case Custom(probe) => forall p, c :: probe(p, c).result.Ok? ==> |probe(p, c).result.value| == n
  }

  lemma {:induction false} OutputsHaveArity(e: Endpoint, n: nat, path: string, c: Cursor, s: Slot)
    requires c.pos <= |path| && HasArity(e, n) && Route(e, path, c).verdict.Ok?
    ensures var o := Run(e, path, c, s); o.result.Ok? ==> |o.result.value| == n
    decreases e
  {
    match e {
      case And(e1, e2) =>
        var m: nat :| m <= n && HasArity(e1, m) && HasArity(e2, n - m);
        OutputsHaveArity(e1, m, path, c, s);
        OutputsHaveArity(e2, n - m, path, Route(e1, path, c).cursor, Run(e1, path, c, s).slot);
      case OrStrict(e1, e2) =>
        if Route(e1, path, c).verdict.Ok? {
          OutputsHaveArity(e1, n, path, c, s);
        } else {
          OutputsHaveArity(e2, n, path, c, s);
        }
      case MapErr(e1, _) => OutputsHaveArity(e1, n, path, c, s);
      case Recover(e1, _) =>
        if Route(e1, path, c).verdict.Ok? {
          OutputsHaveArity(e1, 1, path, c, s);
        }
      case _ =>
    }
  }

  /** `a.and(b.or(c))` and `a.and(b).or(a.and(c))` accept the same requests and
      leave the same cursor. They are rejected with the same error too, unless it is
      `a` that fails: then the second form reports its error twice. */
  lemma FactoringRoutesAlike(a: Endpoint, b: Endpoint, d: Endpoint, path: string, c: Cursor)
    requires c.pos <= |path|
    ensures var l, r := Route(And(a, Or(b, d)), path, c), Route(Or(And(a, b), And(a, d)), path, c);
            && l.cursor == r.cursor
            && (if Route(a, path, c).verdict.Ok? then l.verdict == r.verdict
                else l.verdict.Err? && r.verdict == Err(NotMatched(l.verdict.error, l.verdict.error)))
  {
    var ra := Route(a, path, c);
    var rb, rd := Route(b, path, ra.cursor), Route(d, path, ra.cursor);
    AndJoins(a, b, path, c);
    AndJoins(a, d, path, c);
    AndJoins(a, Or(b, d), path, c);
    assert Route(Or(b, d), path, ra.cursor) == Better(rb, rd);
    JoinDistributes(ra, rb, rd);
  }

  lemma JoinDistributes(ra: Routed, rb: Routed, rd: Routed)
    ensures var l, r := Join(ra, Better(rb, rd)), Better(Join(ra, rb), Join(ra, rd));
            && l.cursor == r.cursor
            && (if ra.verdict.Ok? then l.verdict == r.verdict
                else l.verdict.Err? && r.verdict == Err(NotMatched(l.verdict.error, l.verdict.error)))
  {}

  /** The side both forms take, and what `a` and then that side compute. */
  lemma FactoringRuns(a: Endpoint, b: Endpoint, d: Endpoint, path: string, c: Cursor, s: Slot)
    requires c.pos <= |path| && Route(a, path, c).verdict.Ok?
    requires Route(Or(b, d), path, Route(a, path, c).cursor).verdict.Ok?
    ensures Route(Or(And(a, b), And(a, d)), path, c).verdict.Ok?
    ensures var c1 := Route(a, path, c).cursor;
            var left := LeftWins(Route(b, path, c1), Route(d, path, c1));
            var o1 := Run(a, path, c, s);
            var o2 := Run(if left then b else d, path, c1, o1.slot);
            && Run(And(a, Or(b, d)), path, c, s) == Chain(o1, MapOutcome(o2, out => Tag(left, out)))
            && Run(Or(And(a, b), And(a, d)), path, c, s) == MapOutcome(Chain(o1, o2), out => Tag(left, out))
  {
    FactoringRoutesAlike(a, b, d, path, c);
    var c1 := Route(a, path, c).cursor;
    var rb, rd := Route(b, path, c1), Route(d, path, c1);
    assert LeftWins(Route(And(a, b), path, c), Route(And(a, d), path, c)) == LeftWins(rb, rd);
  }

  /** Factoring preserves a run exactly when the run fails or the common prefix
      contributed nothing to the output; the body and the waits always agree, and
      the two forms always succeed or fail together. */
  lemma FactoringPreservesRuns(a: Endpoint, b: Endpoint, d: Endpoint, path: string, c: Cursor, s: Slot)
    requires c.pos <= |path| && Route(And(a, Or(b, d)), path, c).verdict.Ok?
    ensures Route(Or(And(a, b), And(a, d)), path, c).verdict.Ok?
    ensures var l, r := Run(And(a, Or(b, d)), path, c, s), Run(Or(And(a, b), And(a, d)), path, c, s);
            && l.slot == r.slot && l.waits == r.waits && l.result.Ok? == r.result.Ok?
            && (l == r <==> l.result.Err? || Run(a, path, c, s).result == Ok([]))
  {
    FactoringRuns(a, b, d, path, c, s);
    var c1 := Route(a, path, c).cursor;
    var left := LeftWins(Route(b, path, c1), Route(d, path, c1));
    var o1 := Run(a, path, c, s);
    var o2 := Run(if left then b else d, path, c1, o1.slot);
    if o1.result.Ok? && o2.result.Ok? {
      var x, y := o1.result.value, o2.result.value;
      if x == [] {
        assert [] + y == y && [] + Tag(left, y) == Tag(left, y);
      } else {
        assert |x + Tag(left, y)| > 1 == |Tag(left, x + y)|;
      }
    }
  }

  /** For a prefix with no outputs, such as static segments, factoring changes
      nothing but the shape of the error when the prefix itself fails. */
  lemma FactoringEmptyPrefix(a: Endpoint, b: Endpoint, d: Endpoint, path: string, c: Cursor)
    requires c.pos <= |path| && HasArity(a, 0) && Route(a, path, c).verdict.Ok?
    ensures Same(And(a, Or(b, d)), Or(And(a, b), And(a, d)), path, c)
  {
    FactoringRoutesAlike(a, b, d, path, c);
    if Route(And(a, Or(b, d)), path, c).verdict.Ok? {
      forall s ensures Run(And(a, Or(b, d)), path, c, s) == Run(Or(And(a, b), And(a, d)), path, c, s) {
        FactoringPreservesRuns(a, b, d, path, c, s);
        OutputsHaveArity(a, 0, path, c, s);
      }
    }
  }
}
