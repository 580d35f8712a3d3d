/** The action tree of one request as mutable objects. Every method is the
    corresponding step of `ActionSteps`, performed in place. */
module Actions {
  import opened Outcomes
  import opened PathCursor
  import opened RequestBody
  import opened Endpoints
  import opened ActionSteps
  import opened PathContext
  import opened PollContext

  /** A boxed action that exclusively owns its sub-actions. */
  class Action {
    var node: Node<Action>
    ghost var state: Act
    ghost var owned: set<object>

    ghost predicate Valid()
      reads this, owned
      decreases owned, 2
    {
      && this in owned
      && match node
         case OneshotNode(x) => state == Act(OneshotNode(x))
         case TaskNode(task) => state == Act(TaskNode(task))
         case RawNode => state == Act(RawNode)
         case CollectNode(gate, parse, receiver) => state == Act(CollectNode(gate, parse, receiver))
         case AndNode(f1, f2) =>
           && OwnsSlot(f1) && OwnsSlot(f2) && SlotOwned(f1) !! SlotOwned(f2)
           && state == Act(AndNode(SlotState(f1), SlotState(f2)))
         case OrNode(choice) => OwnsChoice(choice) && state == Act(OrNode(ChoiceState(choice)))
         case OrStrictNode(choice) => OwnsChoice(choice) && state == Act(OrStrictNode(ChoiceState(choice)))
         case MapNode(action, f) => Owns(action) && state == Act(MapNode(action.state, f))
         case MapErrNode(action, g) => Owns(action) && state == Act(MapErrNode(action.state, g))
         case AndThenNode(action, next, inFlight) =>
           Owns(action) && state == Act(AndThenNode(action.state, next, inFlight))
         case RecoverNode(action, rescue, inFlight) =>
           Owns(action) && state == Act(RecoverNode(action.state, rescue, inFlight))
    }

    ghost predicate Owns(a: Action)
      requires this in owned
      reads this, owned
      ensures Owns(a) ==> a in owned && a in a.owned && this !in a.owned
      decreases owned, 0
    {
      a in owned && a.owned <= owned && this !in a.owned && a.Valid()
    }

    ghost predicate OwnsSlot(m: MaybeDone<Action>)
      requires this in owned
      reads this, owned
      ensures OwnsSlot(m) ==> InSlot(m) <= owned
      decreases owned, 1
    {
      InSlot(m) <= owned && SlotOwned(m) <= owned && this !in SlotOwned(m) && SlotValid(m)
    }

    ghost predicate OwnsChoice(c: Choice<Action>)
      requires this in owned
      reads this, owned
      ensures OwnsChoice(c) ==> InChoice(c) <= owned
      decreases owned, 1
    {
      match c
      case Both(l, r) => Owns(l) && Owns(r) && l.owned !! r.owned
      case First(a) => Owns(a)
      case Second(a) => Owns(a)
      case Done => true
    }

    constructor (node: Node<Action>, ghost state: Act, ghost subs: set<object>)
      ensures this.node == node && this.state == state && owned == {this} + subs
    {
      this.node := node;
      this.state := state;
      owned := {this} + subs;
    }

    method Preflight(cx: PreflightContext) returns (call: PreflightCall<Output>)
      requires Valid() && cx.Valid() && cx !in owned
      modifies owned, cx
      ensures Valid() && cx.Valid() && owned <= old(owned)
      ensures Flown(state, cx.cursor, call) == PreflightAct(old(state), cx.path, old(cx.cursor))
      ensures cx.probes == old(cx.probes) + Probes(old(state), cx.path, old(cx.cursor))
      decreases owned, 2
    {
      match node {
        case OneshotNode(x) => call := PreflightOneshot(cx);
        case TaskNode(_) =>
          cx.probes := cx.probes + [LeafPreflighted(state, cx.cursor)];
          call := Returned(Ok(Incomplete));
        case RawNode =>
          cx.probes := cx.probes + [LeafPreflighted(state, cx.cursor)];
          call := Returned(Ok(Incomplete));
        case CollectNode(gate, _, _) =>
          cx.probes := cx.probes + [LeafPreflighted(state, cx.cursor)];
          call := Returned(if gate.Some? then Err(gate.value) else Ok(Incomplete));
        case AndNode(_, _) => call := PreflightAnd(cx);
        case OrNode(_) => call := PreflightOr(cx);
        case OrStrictNode(_) => call := PreflightOrStrict(cx);
        case MapNode(action, f) => call := PreflightMap(cx);
        case MapErrNode(action, g) => call := PreflightMapErr(cx);
        case AndThenNode(_, _, _) => call := PreflightAndThen(cx);
        case RecoverNode(_, _, _) => call := PreflightRecover(cx);
      }
    }

    method PreflightOneshot(cx: PreflightContext) returns (call: PreflightCall<Output>)
      requires Valid() && cx.Valid() && cx !in owned && node.OneshotNode?
      modifies this, cx
      ensures Valid() && cx.Valid() && owned == old(owned)
      ensures Flown(state, cx.cursor, call) == PreflightAct(old(state), cx.path, old(cx.cursor))
      ensures cx.probes == old(cx.probes) + Probes(old(state), cx.path, old(cx.cursor))
    {
      if node.x.None? {
        return Panicked;
      }
      var x := node.x.value;
      cx.probes := cx.probes + [LeafPreflighted(state, cx.cursor)];
      node := OneshotNode(None);
      state := Act(OneshotNode(None));
      var r := RunExtractor(x, cx);
      match r {
        case Ok(out) => call := Returned(Ok(Completed(out)));
        case Err(err) => call := Returned(Err(err));
      }
    }

    method PreflightAnd(cx: PreflightContext) returns (call: PreflightCall<Output>)
      requires Valid() && cx.Valid() && cx !in owned && node.AndNode?
      modifies owned, cx
      ensures Valid() && cx.Valid() && owned == old(owned)
      ensures Flown(state, cx.cursor, call) == PreflightAct(old(state), cx.path, old(cx.cursor))
      ensures cx.probes == old(cx.probes) + Probes(old(state), cx.path, old(cx.cursor))
      decreases owned, 1
    {
      var x1 := PreflightAndFirst(cx);
      match x1 {
        case Panicked => call := Panicked;
        case Returned(Err(err)) => call := Returned(Err(err));
        case Returned(Ok(x)) => call := PreflightAndSecond(x, cx);
      }
    }

    method PreflightAndFirst(cx: PreflightContext) returns (x1: PreflightCall<()>)
      requires Valid() && cx.Valid() && cx !in owned && node.AndNode?
      modifies owned, cx
      ensures Valid() && cx.Valid() && owned == old(owned) && node.AndNode?
      ensures SlotFlown(state.node.f1, cx.cursor, x1)
           == PreflightSlot(old(state.node.f1), cx.path, old(cx.cursor))
      ensures state.node.f2 == old(state.node.f2)
      ensures cx.probes == old(cx.probes) + SlotProbes(old(state.node.f1), cx.path, old(cx.cursor))
      decreases owned, 0
    {
      var f1, f2 := node.f1, node.f2;
      ghost var s2 := SlotState(f2);
      assert SlotValid(f2) && SlotOwned(f1) !! SlotOwned(f2);
      var m1;
      m1, x1 := SlotPreflight(f1, cx);
      node := AndNode(m1, f2);
      state := Act(AndNode(SlotState(m1), s2));
    }

    method PreflightAndSecond(x1: Preflight<()>, cx: PreflightContext) returns (call: PreflightCall<Output>)
      requires Valid() && cx.Valid() && cx !in owned && node.AndNode?
      modifies owned, cx
      ensures Valid() && cx.Valid() && owned == old(owned)
      ensures Flown(state, cx.cursor, call)
           == PreflightSecond(old(state.node.f1), x1, old(state.node.f2), cx.path, old(cx.cursor))
      ensures cx.probes == old(cx.probes) + SlotProbes(old(state.node.f2), cx.path, old(cx.cursor))
      decreases owned, 0, 1
    {
      var x2 := PreflightAndSlot(cx);
      match x2 {
        case Panicked => return Panicked;
        case Returned(Err(err)) => return Returned(Err(err));
        case Returned(Ok(x)) =>
          if x1.Completed? && x.Completed? {
            // the early completion: unreachable, as `MaybeDone::preflight` never completes
            assert false;
          }
      }
      call := Returned(Ok(Incomplete));
    }

    method PreflightAndSlot(cx: PreflightContext) returns (x2: PreflightCall<()>)
      requires Valid() && cx.Valid() && cx !in owned && node.AndNode?
      modifies owned, cx
      ensures Valid() && cx.Valid() && owned == old(owned) && node.AndNode?
      ensures SlotFlown(state.node.f2, cx.cursor, x2)
           == PreflightSlot(old(state.node.f2), cx.path, old(cx.cursor))
      ensures state.node.f1 == old(state.node.f1)
      ensures cx.probes == old(cx.probes) + SlotProbes(old(state.node.f2), cx.path, old(cx.cursor))
      decreases owned, 0, 0
    {
      var m1, f2 := node.f1, node.f2;
      ghost var s1 := SlotState(m1);
      assert SlotValid(m1) && SlotOwned(m1) !! SlotOwned(f2);
      var m2;
      m2, x2 := SlotPreflight(f2, cx);
      node := AndNode(m1, m2);
      state := Act(AndNode(s1, SlotState(m2)));
    }

    method TakeItem() returns (out: Option<Output>)
      requires Valid() && node.AndNode?
      modifies this
      ensures Valid() && owned == old(owned)
      ensures (state.node, out) == TakeBoth(old(state.node.f1), old(state.node.f2))
    {
      var v1 := if node.f1.Finished? then Some(node.f1.output) else None;
      node := AndNode(Gone, node.f2);
      state := Act(AndNode(Gone, SlotState(node.f2)));
      if v1.None? { return None; }
      var v2 := if node.f2.Finished? then Some(node.f2.output) else None;
      node := AndNode(Gone, Gone);
      state := Act(AndNode(Gone, Gone));
      if v2.None? { return None; }
      out := Some(v1.value + v2.value);
    }

    method PreflightOr(cx: PreflightContext) returns (call: PreflightCall<Output>)
      requires Valid() && cx.Valid() && cx !in owned && node.OrNode?
      modifies owned, cx
      ensures Valid() && cx.Valid() && owned == old(owned)
      ensures Flown(state, cx.cursor, call) == PreflightAct(old(state), cx.path, old(cx.cursor))
      ensures cx.probes == old(cx.probes) + Probes(old(state), cx.path, old(cx.cursor))
      decreases owned, 1
    {
      match node.state {
        case Both(left, right) =>
          assert Owns(left) && Owns(right) && left.owned !! right.owned;
          node := OrNode(Done);
          state := Act(OrNode(Done));
          call := PreflightOrSides(left, right, cx);
        case _ =>
          node := OrNode(Done);
          state := Act(OrNode(Done));
          call := Panicked;
      }
    }

    method PreflightOrSides(left: Action, right: Action, cx: PreflightContext) returns (call: PreflightCall<Output>)
      requires this in owned && Owns(left) && Owns(right) && left.owned !! right.owned && cx !in owned
      requires node == OrNode(Done) && state == Act(OrNode(Done)) && cx.Valid()
      modifies owned, cx
      ensures Valid() && cx.Valid() && owned == old(owned)
      ensures Flown(state, cx.cursor, call)
           == ActionSteps.PreflightOr(Both(old(left.state), old(right.state)), cx.path, old(cx.cursor))
      ensures cx.probes == old(cx.probes) + OrProbes(Both(old(left.state), old(right.state)), cx.path, old(cx.cursor))
      decreases owned, 0, 1
    {
      var orig := cx.cursor;
      var l := left.Preflight(cx);
      match l {
        case Panicked => call := Panicked;
        case Returned(lv) => call := PreflightOrRight(left, lv, orig, right, cx);
      }
    }

    /** The left side has answered `lv`, and `cx` is where it left it. */
    method PreflightOrRight(left: Action, lv: Verdict, orig: Cursor, right: Action, cx: PreflightContext)
      returns (call: PreflightCall<Output>)
      requires this in owned && Owns(left) && Owns(right) && left.owned !! right.owned && cx !in owned
      requires node == OrNode(Done) && state == Act(OrNode(Done))
      requires cx.Valid() && orig.pos <= |cx.path|
      modifies owned, cx
      ensures Valid() && cx.Valid() && owned == old(owned)
      ensures Flown(state, cx.cursor, call)
           == OrRight(old(left.state), old(cx.cursor), lv, PreflightAct(old(right.state), cx.path, orig))
      ensures cx.probes == old(cx.probes) + Probes(old(right.state), cx.path, orig)
      decreases owned, 0, 0
    {
      var cx1 := cx.cursor;
      cx.cursor := orig;
      var r := right.Preflight(cx);
      if r.Panicked? { return Panicked; }
      call := JudgeSides(left, lv, cx1, right, r.value, cx);
    }

    /** Both sides have answered; `cx` is where the right side left it. */
    method JudgeSides(left: Action, lv: Verdict, cx1: Cursor, right: Action, rv: Verdict, cx: PreflightContext)
      returns (call: PreflightCall<Output>)
      requires this in owned && Owns(left) && Owns(right) && cx !in owned
      requires node == OrNode(Done) && state == Act(OrNode(Done))
      requires cx.Valid() && cx1.pos <= |cx.path|
      modifies this, cx`cursor
      ensures Valid() && cx.Valid() && owned == old(owned)
      ensures Flown(state, cx.cursor, call)
           == Judge(old(left.state), cx1, lv, old(right.state), old(cx.cursor), rv)
    {
      match (lv, rv) {
        case (Ok(lp), Ok(rp)) =>
          if cx1.popped >= cx.cursor.popped {
            cx.cursor := cx1;
            call := KeepLeft(left, lp);
          } else {
            call := KeepRight(right, rp);
          }
        case (Ok(lp), Err(_)) =>
          cx.cursor := cx1;
          call := KeepLeft(left, lp);
        case (Err(_), Ok(rp)) =>
          call := KeepRight(right, rp);
        case (Err(e1), Err(e2)) =>
          call := Returned(Err(NotMatched(e1, e2)));
      }
    }

    method KeepLeft(left: Action, p: Preflight<Output>) returns (call: PreflightCall<Output>)
      requires this in owned && Owns(left) && node == OrNode(Done) && state == Act(OrNode(Done))
      modifies this
      ensures Valid() && owned == old(owned)
      ensures forall c :: Flown(state, c, call) == ActionSteps.KeepLeft(left.state, c, p)
    {
      match p {
        case Completed(out) => call := Returned(Ok(Completed([Left(out)])));
        case Incomplete =>
          node := OrNode(First(left));
          state := Act(OrNode(First(left.state)));
          call := Returned(Ok(Incomplete));
      }
    }

    method KeepRight(right: Action, p: Preflight<Output>) returns (call: PreflightCall<Output>)
      requires this in owned && Owns(right) && node == OrNode(Done) && state == Act(OrNode(Done))
      modifies this
      ensures Valid() && owned == old(owned)
      ensures forall c :: Flown(state, c, call) == ActionSteps.KeepRight(right.state, c, p)
    {
      match p {
        case Completed(out) => call := Returned(Ok(Completed([Right(out)])));
        case Incomplete =>
          node := OrNode(Second(right));
          state := Act(OrNode(Second(right.state)));
          call := Returned(Ok(Incomplete));
      }
    }

    method PreflightOrStrict(cx: PreflightContext) returns (call: PreflightCall<Output>)
      requires Valid() && cx.Valid() && cx !in owned && node.OrStrictNode?
      modifies owned, cx
      ensures Valid() && cx.Valid() && owned == old(owned)
      ensures Flown(state, cx.cursor, call) == PreflightAct(old(state), cx.path, old(cx.cursor))
      ensures cx.probes == old(cx.probes) + Probes(old(state), cx.path, old(cx.cursor))
      decreases owned, 1
    {
      match node.state {
        case Both(left, right) =>
          assert Owns(left) && Owns(right) && left.owned !! right.owned;
          node := OrStrictNode(Done);
          state := Act(OrStrictNode(Done));
          call := PreflightStrictSides(left, right, cx);
        case _ =>
          node := OrStrictNode(Done);
          state := Act(OrStrictNode(Done));
          call := Panicked;
      }
    }

    method PreflightStrictSides(left: Action, right: Action, cx: PreflightContext) returns (call: PreflightCall<Output>)
      requires this in owned && Owns(left) && Owns(right) && left.owned !! right.owned && cx !in owned
      requires node == OrStrictNode(Done) && state == Act(OrStrictNode(Done)) && cx.Valid()
      modifies owned, cx
      ensures Valid() && cx.Valid() && owned == old(owned)
      ensures Flown(state, cx.cursor, call)
           == ActionSteps.PreflightOrStrict(Both(old(left.state), old(right.state)), cx.path, old(cx.cursor))
      ensures cx.probes
           == old(cx.probes) + StrictProbes(Both(old(left.state), old(right.state)), cx.path, old(cx.cursor))
      decreases owned, 0, 1
    {
      var orig := cx.cursor;
      call := PreflightStrictLeft(left, right, cx);
      if call.Returned? && call.value.Err? {
        cx.cursor := orig;
        call := PreflightStrictRight(call.value.error, right, cx);
      }
    }

    /** Preflights the left side and keeps it if it is incomplete; the right side
        is not touched. */
    method PreflightStrictLeft(left: Action, right: Action, cx: PreflightContext) returns (call: PreflightCall<Output>)
      requires this in owned && Owns(left) && Owns(right) && left.owned !! right.owned && cx !in owned
      requires node == OrStrictNode(Done) && state == Act(OrStrictNode(Done)) && cx.Valid()
      modifies owned, cx
      ensures Valid() && cx.Valid() && owned == old(owned)
      ensures Owns(right) && right.state == old(right.state)
      ensures call.Returned? && call.value.Err? ==> node == OrStrictNode(Done)
      ensures Flown(state, cx.cursor, call) == StrictLeft(PreflightAct(old(left.state), cx.path, old(cx.cursor)))
      ensures cx.probes == old(cx.probes) + Probes(old(left.state), cx.path, old(cx.cursor))
      decreases owned, 0, 0
    {
      call := left.Preflight(cx);
      if call == Returned(Ok(Incomplete)) {
        node := OrStrictNode(First(left));
        state := Act(OrStrictNode(First(left.state)));
      }
    }

    /** The left side has been rejected with `e1` and the cursor rewound. */
    method PreflightStrictRight(e1: Error, right: Action, cx: PreflightContext) returns (call: PreflightCall<Output>)
      requires this in owned && Owns(right) && cx !in owned
      requires node == OrStrictNode(Done) && state == Act(OrStrictNode(Done)) && cx.Valid()
      modifies owned, cx
      ensures Valid() && cx.Valid() && owned == old(owned)
      ensures Flown(state, cx.cursor, call) == StrictRight(e1, PreflightAct(old(right.state), cx.path, old(cx.cursor)))
      ensures cx.probes == old(cx.probes) + Probes(old(right.state), cx.path, old(cx.cursor))
      decreases owned, 0, 0
    {
      var r := right.Preflight(cx);
      match r {
        case Panicked => call := Panicked;
        case Returned(Ok(Incomplete)) =>
          node := OrStrictNode(Second(right));
          state := Act(OrStrictNode(Second(right.state)));
          call := r;
        case Returned(Ok(Completed(_))) => call := r;
        case Returned(Err(e2)) => call := Returned(Err(NotMatched(e1, e2)));
      }
    }

    method PreflightMap(cx: PreflightContext) returns (call: PreflightCall<Output>)
      requires Valid() && cx.Valid() && cx !in owned && node.MapNode?
      modifies owned, cx
      ensures Valid() && cx.Valid() && owned == old(owned)
      ensures Flown(state, cx.cursor, call) == PreflightAct(old(state), cx.path, old(cx.cursor))
      ensures cx.probes == old(cx.probes) + Probes(old(state), cx.path, old(cx.cursor))
      decreases owned, 1
    {
      var f := node.f;
      var x := node.action.Preflight(cx);
      state := Act(MapNode(node.action.state, f));
      call := MapCall(x, out => [f(out)]);
    }

    method PreflightMapErr(cx: PreflightContext) returns (call: PreflightCall<Output>)
      requires Valid() && cx.Valid() && cx !in owned && node.MapErrNode?
      modifies owned, cx
      ensures Valid() && cx.Valid() && owned == old(owned)
      ensures Flown(state, cx.cursor, call) == PreflightAct(old(state), cx.path, old(cx.cursor))
      ensures cx.probes == old(cx.probes) + Probes(old(state), cx.path, old(cx.cursor))
      decreases owned, 1
    {
      call := node.action.Preflight(cx);
      state := Act(MapErrNode(node.action.state, node.g));
      if call.Returned? && call.value.Err? {
        call := Returned(Err(node.g(call.value.error)));
      }
    }

    method PreflightAndThen(cx: PreflightContext) returns (call: PreflightCall<Output>)
      requires Valid() && cx.Valid() && cx !in owned && node.AndThenNode?
      modifies owned, cx
      ensures Valid() && cx.Valid() && owned == old(owned)
      ensures Flown(state, cx.cursor, call) == PreflightAct(old(state), cx.path, old(cx.cursor))
      ensures cx.probes == old(cx.probes) + Probes(old(state), cx.path, old(cx.cursor))
      decreases owned, 1
    {
      if node.inFlight.Some? { return Panicked; }
      var action, next := node.action, node.next;
      call := action.Preflight(cx);
      state := Act(AndThenNode(action.state, next, None));
      match call {
        case Returned(Ok(Completed(out))) =>
          node := AndThenNode(action, next, Some(Running(next(out))));
          state := Act(AndThenNode(action.state, next, Some(Running(next(out)))));
          call := Returned(Ok(Incomplete));
        case _ =>
      }
    }

    method PreflightRecover(cx: PreflightContext) returns (call: PreflightCall<Output>)
      requires Valid() && cx.Valid() && cx !in owned && node.RecoverNode?
      modifies owned, cx
      ensures Valid() && cx.Valid() && owned == old(owned)
      ensures Flown(state, cx.cursor, call) == PreflightAct(old(state), cx.path, old(cx.cursor))
      ensures cx.probes == old(cx.probes) + Probes(old(state), cx.path, old(cx.cursor))
      decreases owned, 1
    {
      if node.inFlight.Some? { return Panicked; }
      var action, rescue := node.action, node.rescue;
      call := action.Preflight(cx);
      state := Act(RecoverNode(action.state, rescue, None));
      match call {
        case Returned(Err(err)) =>
          node := RecoverNode(action, rescue, Some(Running(rescue(err))));
          state := Act(RecoverNode(action.state, rescue, Some(Running(rescue(err)))));
          call := Returned(Ok(Incomplete));
        case _ =>
      }
    }

    method PollAction(cx: ActionContext) returns (call: PollCall<Output>)
      requires Valid() && cx !in owned
      modifies owned, cx
      ensures Valid() && owned <= old(owned)
      ensures Polled(state, cx.Contents(), call) == PollAct(old(state), old(cx.Contents()))
      ensures cx.polls == old(cx.polls) + Polls(old(state), old(cx.Contents()))
      decreases owned, 2
    {
      match node {
        case OneshotNode(_) =>
          cx.polls := cx.polls + [LeafPolled(state, cx.Contents())];
          call := Panicked;
        case TaskNode(task) =>
          cx.polls := cx.polls + [LeafPolled(state, cx.Contents())];
          var (task', answer) := PollFuture(task);
          node := TaskNode(task');
          state := Act(TaskNode(task'));
          call := answer;
        case RawNode =>
          cx.polls := cx.polls + [LeafPolled(state, cx.Contents())];
          var r := cx.Take();
          call := Returned(match r case Ok(b) => Ok(Ready([Stream(b)])) case Err(err) => Err(err));
        case CollectNode(gate, parse, receiver) =>
          cx.polls := cx.polls + [LeafPolled(state, cx.Contents())];
          var receiver', r := ReceiveAll(receiver, cx);
          node := CollectNode(gate, parse, receiver');
          state := Act(CollectNode(gate, parse, receiver'));
          call := ParseCall(r, parse);
        case AndNode(_, _) => call := PollAnd(cx);
        case OrNode(_) => call := PollOr(cx);
        case OrStrictNode(_) => call := PollOrStrict(cx);
        case MapNode(action, f) =>
          var x := action.PollAction(cx);
          state := Act(MapNode(action.state, f));
          call := MapPoll(x, out => [f(out)]);
        case MapErrNode(action, g) =>
          call := action.PollAction(cx);
          state := Act(MapErrNode(action.state, g));
          if call.Returned? && call.value.Err? {
            call := Returned(Err(g(call.value.error)));
          }
        case AndThenNode(_, _, _) => call := PollAndThen(cx);
        case RecoverNode(_, _, _) => call := PollRecover(cx);
      }
    }

    method PollAnd(cx: ActionContext) returns (call: PollCall<Output>)
      requires Valid() && cx !in owned && node.AndNode?
      modifies owned, cx
      ensures Valid() && owned == old(owned)
      ensures Polled(state, cx.Contents(), call) == PollAct(old(state), old(cx.Contents()))
      ensures cx.polls == old(cx.polls) + Polls(old(state), old(cx.Contents()))
      decreases owned, 1
    {
      var x1 := PollAndFirst(cx);
      match x1 {
        case Panicked => call := Panicked;
        case Returned(Err(err)) => call := Returned(Err(err));
        case Returned(Ok(NotReady)) => call := Returned(Ok(NotReady));
        case Returned(Ok(Ready(_))) => call := PollAndSecond(cx);
      }
    }

    method PollAndFirst(cx: ActionContext) returns (x1: PollCall<()>)
      requires Valid() && cx !in owned && node.AndNode?
      modifies owned, cx
      ensures Valid() && owned == old(owned) && node.AndNode?
      ensures SlotPolled(state.node.f1, cx.Contents(), x1) == PollSlot(old(state.node.f1), old(cx.Contents()))
      ensures cx.polls == old(cx.polls) + SlotPolls(old(state.node.f1), old(cx.Contents()))
      ensures state.node.f2 == old(state.node.f2)
      decreases owned, 0
    {
      var f1, f2 := node.f1, node.f2;
      ghost var s2 := SlotState(f2);
      assert SlotValid(f2) && SlotOwned(f1) !! SlotOwned(f2);
      var m1;
      m1, x1 := SlotPoll(f1, cx);
      node := AndNode(m1, f2);
      state := Act(AndNode(SlotState(m1), s2));
    }

    method PollAndSecond(cx: ActionContext) returns (call: PollCall<Output>)
      requires Valid() && cx !in owned && node.AndNode?
      modifies owned, cx
      ensures Valid() && owned == old(owned)
      ensures Polled(state, cx.Contents(), call)
           == PollSecond(old(state.node.f1), old(state.node.f2), old(cx.Contents()))
      ensures cx.polls == old(cx.polls) + SlotPolls(old(state.node.f2), old(cx.Contents()))
      decreases owned, 0, 1
    {
      var x2 := PollAndSlot(cx);
      match x2 {
        case Panicked => call := Panicked;
        case Returned(Err(err)) => call := Returned(Err(err));
        case Returned(Ok(NotReady)) => call := Returned(Ok(NotReady));
        case Returned(Ok(Ready(_))) =>
          var out := TakeItem();
          call := if out.Some? then Returned(Ok(Ready(out.value))) else Panicked;
      }
    }

    method PollAndSlot(cx: ActionContext) returns (x2: PollCall<()>)
      requires Valid() && cx !in owned && node.AndNode?
      modifies owned, cx
      ensures Valid() && owned == old(owned) && node.AndNode?
      ensures SlotPolled(state.node.f2, cx.Contents(), x2) == PollSlot(old(state.node.f2), old(cx.Contents()))
      ensures cx.polls == old(cx.polls) + SlotPolls(old(state.node.f2), old(cx.Contents()))
      ensures state.node.f1 == old(state.node.f1)
      decreases owned, 0, 0
    {
      var m1, f2 := node.f1, node.f2;
      ghost var s1 := SlotState(m1);
      assert SlotValid(m1) && SlotOwned(m1) !! SlotOwned(f2);
      var m2;
      m2, x2 := SlotPoll(f2, cx);
      node := AndNode(m1, m2);
      state := Act(AndNode(s1, SlotState(m2)));
    }

    method PollOr(cx: ActionContext) returns (call: PollCall<Output>)
      requires Valid() && cx !in owned && node.OrNode?
      modifies owned, cx
      ensures Valid() && owned == old(owned)
      ensures Polled(state, cx.Contents(), call) == PollAct(old(state), old(cx.Contents()))
      ensures cx.polls == old(cx.polls) + Polls(old(state), old(cx.Contents()))
      decreases owned, 1
    {
      match node.state {
        case First(action) =>
          assert Owns(action);
          var x := action.PollAction(cx);
          state := Act(OrNode(First(action.state)));
          call := MapPoll(x, out => [Left(out)]);
        case Second(action) =>
          assert Owns(action);
          var x := action.PollAction(cx);
          state := Act(OrNode(Second(action.state)));
          call := MapPoll(x, out => [Right(out)]);
        case _ => call := Panicked;
      }
    }

    method PollOrStrict(cx: ActionContext) returns (call: PollCall<Output>)
      requires Valid() && cx !in owned && node.OrStrictNode?
      modifies owned, cx
      ensures Valid() && owned == old(owned)
      ensures Polled(state, cx.Contents(), call) == PollAct(old(state), old(cx.Contents()))
      ensures cx.polls == old(cx.polls) + Polls(old(state), old(cx.Contents()))
      decreases owned, 1
    {
      match node.state {
        case Both(_, _) => call := Panicked;
        case First(action) =>
          assert Owns(action);
          call := action.PollAction(cx);
          state := Act(OrStrictNode(First(action.state)));
        case Second(action) =>
          assert Owns(action);
          call := action.PollAction(cx);
          state := Act(OrStrictNode(Second(action.state)));
        case Done => call := Panicked;
      }
    }

    method PollAndThen(cx: ActionContext) returns (call: PollCall<Output>)
      requires Valid() && cx !in owned && node.AndThenNode?
      modifies owned, cx
      ensures Valid() && owned == old(owned)
      ensures Polled(state, cx.Contents(), call) == PollAct(old(state), old(cx.Contents()))
      ensures cx.polls == old(cx.polls) + Polls(old(state), old(cx.Contents()))
      decreases owned, 1
    {
      ghost var want := PollAct(state, cx.Contents());
      ghost var events := Polls(state, cx.Contents());
      while true
        invariant Valid() && owned == old(owned) && node.AndThenNode?
        invariant PollAct(state, cx.Contents()) == want
        invariant cx.polls + Polls(state, cx.Contents()) == old(cx.polls) + events
        decreases if node.inFlight.None? then 1 else 0
      {
        var action, next := node.action, node.next;
        if node.inFlight.Some? {
          cx.polls := cx.polls + [FuturePolled(node.inFlight.value, cx.Contents())];
          var (fut, answer) := PollFuture(node.inFlight.value);
          node := AndThenNode(action, next, Some(fut));
          state := Act(AndThenNode(action.state, next, Some(fut)));
          return Wrap(answer);
        }
        var x := action.PollAction(cx);
        state := Act(AndThenNode(action.state, next, None));
        match x {
          case Returned(Ok(Ready(out))) =>
            node := AndThenNode(action, next, Some(Running(next(out))));
            state := Act(AndThenNode(action.state, next, Some(Running(next(out)))));
          case _ => return x;
        }
      }
    }

    method PollRecover(cx: ActionContext) returns (call: PollCall<Output>)
      requires Valid() && cx !in owned && node.RecoverNode?
      modifies owned, cx
      ensures Valid() && owned == old(owned)
      ensures Polled(state, cx.Contents(), call) == PollAct(old(state), old(cx.Contents()))
      ensures cx.polls == old(cx.polls) + Polls(old(state), old(cx.Contents()))
      decreases owned, 1
    {
      ghost var want := PollAct(state, cx.Contents());
      ghost var events := Polls(state, cx.Contents());
      while true
        invariant Valid() && owned == old(owned) && node.RecoverNode?
        invariant PollAct(state, cx.Contents()) == want
        invariant cx.polls + Polls(state, cx.Contents()) == old(cx.polls) + events
        decreases if node.inFlight.None? then 1 else 0
      {
        var action, rescue := node.action, node.rescue;
        if node.inFlight.Some? {
          cx.polls := cx.polls + [FuturePolled(node.inFlight.value, cx.Contents())];
          var (fut, answer) := PollFuture(node.inFlight.value);
          node := RecoverNode(action, rescue, Some(fut));
          state := Act(RecoverNode(action.state, rescue, Some(fut)));
          return Wrap(answer);
        }
        var x := action.PollAction(cx);
        state := Act(RecoverNode(action.state, rescue, None));
        match x {
          case Returned(Err(err)) =>
            node := RecoverNode(action, rescue, Some(Running(rescue(err))));
            state := Act(RecoverNode(action.state, rescue, Some(Running(rescue(err)))));
          case _ => return x;
        }
      }
    }
  }

  function InSlot(m: MaybeDone<Action>): set<Action> {
    match m
    case Init(Some(a)) => {a}
    case InFlight(a) => {a}
    case _ => {}
  }

  ghost function SlotOwned(m: MaybeDone<Action>): set<object>
    reads InSlot(m)
  {
    match m
    case Init(Some(a)) => a.owned
    case InFlight(a) => a.owned
    case _ => {}
  }

  ghost predicate SlotValid(m: MaybeDone<Action>)
    reads InSlot(m), SlotOwned(m)
    ensures SlotValid(m) ==> InSlot(m) <= SlotOwned(m)
    decreases SlotOwned(m), 3
  {
    match m
    case Init(Some(a)) => a.Valid()
    case InFlight(a) => a.Valid()
    case _ => true
  }

  ghost function SlotState(m: MaybeDone<Action>): MaybeDone<Act>
    reads InSlot(m)
  {
    match m
    case Init(None) => Init(None)
    case Init(Some(a)) => Init(Some(a.state))
    case InFlight(a) => InFlight(a.state)
    case Finished(out) => Finished(out)
    case Gone => Gone
  }

  function InChoice(c: Choice<Action>): set<Action> {
    match c
    case Both(l, r) => {l, r}
    case First(a) => {a}
    case Second(a) => {a}
    case Done => {}
  }

  ghost function ChoiceState(c: Choice<Action>): Choice<Act>
    reads InChoice(c)
  {
    match c
    case Both(l, r) => Both(l.state, r.state)
    case First(a) => First(a.state)
    case Second(a) => Second(a.state)
    case Done => Done
  }

  /** `Endpoint::action`: builds a fresh action tree. */
  method SpawnAction(e: Endpoint) returns (a: Action)
    ensures a.Valid() && fresh(a.owned)
    ensures a.state == Spawn(e)
    decreases e, 2
  {
    match e {
      case Oneshot(x) => a := new Action(OneshotNode(Some(x)), Spawn(e), {});
      case Task(p) => a := new Action(TaskNode(Running(p)), Spawn(e), {});
      case Raw => a := new Action(RawNode, Spawn(e), {});
      case Collect(gate, parse) => a := new Action(CollectNode(gate, parse, Start), Spawn(e), {});
      case And(e1, e2) => a := SpawnAnd(e1, e2);
      case Or(_, _) => a := SpawnChoice(e);
      case OrStrict(_, _) => a := SpawnChoice(e);
      case _ => a := SpawnUnary(e);
    }
  }

  method SpawnAnd(e1: Endpoint, e2: Endpoint) returns (a: Action)
    ensures a.Valid() && fresh(a.owned)
    ensures a.state == Spawn(And(e1, e2))
    decreases And(e1, e2), 1
  {
    var a1, a2 := SpawnBoth(e1, e2);
    a := PairUp(a1, a2);
  }

  method SpawnBoth(e1: Endpoint, e2: Endpoint) returns (a1: Action, a2: Action)
    ensures a1.Valid() && fresh(a1.owned) && a1.state == Spawn(e1)
    ensures a2.Valid() && fresh(a2.owned) && a2.state == Spawn(e2)
    ensures a1.owned !! a2.owned
    decreases And(e1, e2), 0
  {
    a1 := SpawnAction(e1);
    a2 := SpawnAction(e2);
  }

  method PairUp(a1: Action, a2: Action) returns (a: Action)
    requires a1.Valid() && a2.Valid() && a1.owned !! a2.owned
    ensures a.Valid() && fresh(a) && a.owned == {a} + a1.owned + a2.owned
    ensures a.state == Act(AndNode(Init(Some(a1.state)), Init(Some(a2.state))))
  {
    ghost var state := Act(AndNode(Init(Some(a1.state)), Init(Some(a2.state))));
    a := new Action(AndNode(Init(Some(a1)), Init(Some(a2))), state, a1.owned + a2.owned);
    assert a1.Valid() && a2.Valid();
  }

  method SpawnChoice(e: Endpoint) returns (a: Action)
    requires e.Or? || e.OrStrict?
    ensures a.Valid() && fresh(a.owned)
    ensures a.state == Spawn(e)
    decreases e, 0
  {
    var a1 := SpawnAction(e.e1);
    var a2 := SpawnAction(e.e2);
    var node := if e.Or? then OrNode(Both(a1, a2)) else OrStrictNode(Both(a1, a2));
    a := new Action(node, Spawn(e), a1.owned + a2.owned);
    assert a1.Valid() && a2.Valid();
  }

  method SpawnUnary(e: Endpoint) returns (a: Action)
    requires e.Map? || e.MapErr? || e.AndThen? || e.Recover?
    ensures a.Valid() && fresh(a.owned)
    ensures a.state == Spawn(e)
    decreases e, 0
  {
    var a1 := SpawnAction(e.e);
    match e {
      case Map(_, f) => a := new Action(MapNode(a1, f), Spawn(e), a1.owned);
      case MapErr(_, g) => a := new Action(MapErrNode(a1, g), Spawn(e), a1.owned);
      case AndThen(_, next) => a := new Action(AndThenNode(a1, next, None), Spawn(e), a1.owned);
      case Recover(_, rescue) => a := new Action(RecoverNode(a1, rescue, None), Spawn(e), a1.owned);
    }
    assert a1.Valid();
  }

  /** `MaybeDone::preflight`. */
  method SlotPreflight(m: MaybeDone<Action>, cx: PreflightContext)
    returns (m': MaybeDone<Action>, call: PreflightCall<()>)
    requires SlotValid(m) && cx.Valid() && cx !in SlotOwned(m)
    modifies SlotOwned(m), cx
    ensures SlotValid(m') && cx.Valid() && SlotOwned(m') <= old(SlotOwned(m))
    ensures SlotFlown(SlotState(m'), cx.cursor, call)
         == ActionSteps.PreflightSlot(old(SlotState(m)), cx.path, old(cx.cursor))
    ensures cx.probes == old(cx.probes) + SlotProbes(old(SlotState(m)), cx.path, old(cx.cursor))
    decreases SlotOwned(m), 3
  {
    match m {
      case Init(Some(action)) =>
        var x := action.Preflight(cx);
        match x {
          case Panicked => return Init(None), Panicked;
          case Returned(Err(err)) => return Init(None), Returned(Err(err));
          case Returned(Ok(Completed(out))) => m' := Finished(out);
          case Returned(Ok(Incomplete)) => m' := InFlight(action);
        }
      case _ => return m, Panicked;
    }
    call := Returned(Ok(Incomplete));
  }

  /** `MaybeDone::poll_action`. */
  method SlotPoll(m: MaybeDone<Action>, cx: ActionContext)
    returns (m': MaybeDone<Action>, call: PollCall<()>)
    requires SlotValid(m) && cx !in SlotOwned(m)
    modifies SlotOwned(m), cx
    ensures SlotValid(m') && SlotOwned(m') <= old(SlotOwned(m))
    ensures SlotPolled(SlotState(m'), cx.Contents(), call)
         == PollSlot(old(SlotState(m)), old(cx.Contents()))
    ensures cx.polls == old(cx.polls) + SlotPolls(old(SlotState(m)), old(cx.Contents()))
    decreases SlotOwned(m), 3
  {
    m' := m;
    ghost var want := PollSlot(SlotState(m), cx.Contents());
    ghost var events := SlotPolls(SlotState(m), cx.Contents());
    while true
      invariant SlotValid(m') && SlotOwned(m') <= old(SlotOwned(m)) && cx !in SlotOwned(m')
      invariant m' == m || m'.Finished?
      invariant m' == m ==> SlotOwned(m') == old(SlotOwned(m))
      invariant PollSlot(SlotState(m'), cx.Contents()) == want
      invariant cx.polls + SlotPolls(SlotState(m'), cx.Contents()) == old(cx.polls) + events
      decreases if m'.InFlight? then 1 else 0
    {
      match m' {
        case Init(_) => return m', Panicked;
        case Finished(_) => return m', Returned(Ok(Ready(())));
        case Gone => return m', Panicked;
        case InFlight(action) =>
          var x := action.PollAction(cx);
          match x {
            case Panicked => return InFlight(action), Panicked;
            case Returned(Err(err)) => return InFlight(action), Returned(Err(err));
            case Returned(Ok(NotReady)) => return InFlight(action), Returned(Ok(NotReady));
            case Returned(Ok(Ready(out))) => m' := Finished(out);
          }
      }
    }
  }
}
