/** The thread-local slot through which futures reach the request context. */
module ContextSlot {
  import opened Outcomes

  type ContextId = nat

  /** What the code running on the thread does with the slot. `Unwind` is a panic
      in a closure, and `Catch` stops one. */
  datatype Op =
    | Set(cx: ContextId, body: seq<Op>)
    | With(body: seq<Op>)
    | TryWith(body: seq<Op>)
    | Unwind
    | Catch(body: seq<Op>)

  /** The closures active at some moment, outermost first: those of a `set`, and
      those a context is lent to. */
  datatype Frame = Installed(cx: ContextId) | Lent(cx: ContextId)

  /** The slot afterwards, whether the code unwound, and for each time a context
      was lent the frames active at that moment. */
  datatype Ran = Ran(slot: Option<ContextId>, unwound: bool, lends: seq<seq<Frame>>)

  function Exec(ops: seq<Op>, slot: Option<ContextId>, frames: seq<Frame>): Ran
    decreases ops, 0
  {
    if ops == [] then Ran(slot, false, [])
    else
      var first := ExecOp(ops[0], slot, frames);
      if first.unwound then first
      else
        var rest := Exec(ops[1..], first.slot, frames);
        rest.(lends := first.lends + rest.lends)
  }

  function ExecOp(op: Op, slot: Option<ContextId>, frames: seq<Frame>): Ran
    decreases op, 1
  {
    match op
    case Set(cx, body) => Exec(body, Some(cx), frames + [Installed(cx)]).(slot := slot)
    case With(body) => if slot.None? then Ran(slot, true, []) else Lend(body, slot.value, frames)
    case TryWith(body) => if slot.None? then Ran(slot, false, []) else Lend(body, slot.value, frames)
    case Unwind => Ran(slot, true, [])
    case Catch(body) => Exec(body, slot, frames).(unwound := false)
  }

  /** `get_task_cx` with a context installed: the slot is empty while the closure
      runs. */
  function Lend(body: seq<Op>, cx: ContextId, frames: seq<Frame>): Ran
    decreases body, 1
  {
    var r := Exec(body, None, frames + [Lent(cx)]);
    Ran(Some(cx), r.unwound, [frames + [Lent(cx)]] + r.lends)
  }

  /** The thread-local cell. The guards that reset it run on every exit. */
  class TaskContext {
    var cell: Option<ContextId>

    method Run(ops: seq<Op>, ghost frames: seq<Frame>) returns (unwound: bool, ghost lends: seq<seq<Frame>>)
      modifies this
      ensures Ran(cell, unwound, lends) == Exec(ops, old(cell), frames)
      decreases ops, 0
    {
      unwound, lends := false, [];
      for k := 0 to |ops|
        invariant !unwound
        invariant Exec(ops, old(cell), frames)
               == var rest := Exec(ops[k..], cell, frames); rest.(lends := lends + rest.lends)
      {
        ghost var first := ExecOp(ops[k], cell, frames);
        assert ops[k..][0] == ops[k] && ops[k..][1..] == ops[k + 1..];
        ghost var rest := Exec(ops[k + 1..], first.slot, frames);
        assert lends + (first.lends + rest.lends) == (lends + first.lends) + rest.lends;
        ghost var some;
        unwound, some := RunOp(ops[k], frames);
        lends := lends + some;
        if unwound {
          return;
        }
      }
      assert lends + [] == lends;
    }

    method RunOp(op: Op, ghost frames: seq<Frame>) returns (unwound: bool, ghost lends: seq<seq<Frame>>)
      modifies this
      ensures Ran(cell, unwound, lends) == ExecOp(op, old(cell), frames)
      decreases op, 1
    {
      match op {
        case Set(cx, body) =>
          var oldCx := cell;
          cell := Some(cx);
          unwound, lends := Run(body, frames + [Installed(cx)]);
          cell := oldCx;
        case With(body) =>
          var lent;
          lent, unwound, lends := GetTaskCx(body, frames);
          unwound := unwound || !lent;
        case TryWith(body) =>
          var lent;
          lent, unwound, lends := GetTaskCx(body, frames);
        case Unwind =>
          unwound, lends := true, [];
        case Catch(body) =>
          unwound, lends := Run(body, frames);
          unwound := false;
      }
    }

    method GetTaskCx(body: seq<Op>, ghost frames: seq<Frame>)
      returns (lent: bool, unwound: bool, ghost lends: seq<seq<Frame>>)
      modifies this
      ensures lent == old(cell).Some?
      ensures lent ==> Ran(cell, unwound, lends) == Lend(body, old(cell).value, frames)
      ensures !lent ==> cell == None && !unwound && lends == []
      decreases body, 1
    {
      var cxPtr := cell;
      cell := None;
      lent, unwound, lends := cxPtr.Some?, false, [];
      if cxPtr.Some? {
        ghost var inner;
        unwound, inner := Run(body, frames + [Lent(cxPtr.value)]);
        lends := [frames + [Lent(cxPtr.value)]] + inner;
      }
      cell := cxPtr;
    }
  }

  /** Whatever is nested in whatever, and whether or not closures unwind, the slot
      holds afterwards what it held before. */
  lemma {:induction false} SlotIsRestored(ops: seq<Op>, slot: Option<ContextId>, frames: seq<Frame>)
    ensures Exec(ops, slot, frames).slot == slot
    decreases ops, 0
  {
    if ops != [] {
      OpRestoresSlot(ops[0], slot, frames);
      SlotIsRestored(ops[1..], slot, frames);
    }
  }

  lemma OpRestoresSlot(op: Op, slot: Option<ContextId>, frames: seq<Frame>)
    ensures ExecOp(op, slot, frames).slot == slot
    decreases op, 1
  {
    if op.Catch? {
      SlotIsRestored(op.body, slot, frames);
    }
  }

  /** The context a `with` would be given: that of the innermost frame, if it is a
      `set`. */
  function Innermost(frames: seq<Frame>): Option<ContextId> {
    if frames != [] && frames[|frames| - 1].Installed? then Some(frames[|frames| - 1].cx) else None
  }

  /** Every context lent is the one its immediately enclosing frame installed. */
  ghost predicate WellLent(frames: seq<Frame>) {
    forall i | 0 <= i < |frames| && frames[i].Lent? :: i > 0 && frames[i - 1] == Installed(frames[i].cx)
  }

  lemma {:induction false} LendsAreWellNested(ops: seq<Op>, frames: seq<Frame>)
    requires WellLent(frames)
    ensures forall f <- Exec(ops, Innermost(frames), frames).lends :: WellLent(f)
    decreases ops, 0
  {
    if ops != [] {
      OpLendsAreWellNested(ops[0], frames);
      OpRestoresSlot(ops[0], Innermost(frames), frames);
      LendsAreWellNested(ops[1..], frames);
    }
  }

  lemma OpLendsAreWellNested(op: Op, frames: seq<Frame>)
    requires WellLent(frames)
    ensures forall f <- ExecOp(op, Innermost(frames), frames).lends :: WellLent(f)
    decreases op, 1
  {
    var slot := Innermost(frames);
    match op {
      case Set(cx, body) =>
        LendsAreWellNested(body, frames + [Installed(cx)]);
      case Catch(body) =>
        LendsAreWellNested(body, frames);
      case Unwind =>
      case _ =>
        if slot.Some? {
          var inner := frames + [Lent(slot.value)];
          assert WellLent(inner);
          LendsAreWellNested(op.body, inner);
        }
    }
  }

  /** No installed context is lent to two active closures: between any two lent
      frames active together lies a newer `set`, of the context the inner one got. */
  lemma NoContextIsLentTwice(ops: seq<Op>, f: seq<Frame>, i: nat, j: nat)
    requires f in Exec(ops, None, []).lends
    requires i < j < |f| && f[i].Lent? && f[j].Lent?
    ensures exists k | i < k < j :: f[k] == Installed(f[j].cx)
  {
    LendsAreWellNested(ops, []);
    assert f[j - 1] == Installed(f[j].cx);
    assert i < j - 1;
  }

  // ---- The slot is lexical scoping ----

  /** Whether code unwinds, told from its nesting alone; `inSet` says that it stands
      directly in a `set`. */
  ghost predicate Unwinds(ops: seq<Op>, inSet: bool)
    decreases ops, 0
  {
    exists op <- ops :: OpUnwinds(op, inSet)
  }

  ghost predicate OpUnwinds(op: Op, inSet: bool)
    decreases op, 1
  {
    match op
    case Set(_, body) => Unwinds(body, true)
    case With(body) => inSet ==> Unwinds(body, false)
    case TryWith(body) => inSet && Unwinds(body, false)
    case Unwind => true
    case Catch(_) => false
  }

  /** Which contexts are lent and what is active then, told from the nesting
      alone. */
  ghost function Lendings(ops: seq<Op>, frames: seq<Frame>): seq<seq<Frame>>
    decreases ops, 0
  {
    if ops == [] then []
    else
      OpLendings(ops[0], frames)
      + if OpUnwinds(ops[0], Innermost(frames).Some?) then [] else Lendings(ops[1..], frames)
  }

  ghost function OpLendings(op: Op, frames: seq<Frame>): seq<seq<Frame>>
    decreases op, 1
  {
    match op
    case Set(cx, body) => Lendings(body, frames + [Installed(cx)])
    case Unwind => []
    case Catch(body) => Lendings(body, frames)
    case _ =>
      if Innermost(frames).None? then []
      else
        var inner := frames + [Lent(Innermost(frames).value)];
        [inner] + Lendings(op.body, inner)
  }

  /** The slot implements lexical scoping: a context is lent exactly by a `with` or
      `try_with` standing directly in a `set`, namely that `set`'s, and code unwinds
      exactly by its own panics and by a `with` that stands elsewhere. */
  lemma {:induction false} SlotIsLexical(ops: seq<Op>, frames: seq<Frame>)
    ensures Exec(ops, Innermost(frames), frames)
         == Ran(Innermost(frames), Unwinds(ops, Innermost(frames).Some?), Lendings(ops, frames))
    decreases ops, 0
  {
    var slot := Innermost(frames);
    if ops != [] {
      OpIsLexical(ops[0], frames);
      SlotIsLexical(ops[1..], frames);
      assert ops[0] in ops;
      assert Unwinds(ops, slot.Some?) <==> OpUnwinds(ops[0], slot.Some?) || Unwinds(ops[1..], slot.Some?);
    }
  }

  lemma {:induction false} OpIsLexical(op: Op, frames: seq<Frame>)
    ensures ExecOp(op, Innermost(frames), frames)
         == Ran(Innermost(frames), OpUnwinds(op, Innermost(frames).Some?), OpLendings(op, frames))
    decreases op, 1
  {
    match op {
      case Set(cx, body) => SlotIsLexical(body, frames + [Installed(cx)]);
      case Catch(body) => SlotIsLexical(body, frames);
      case Unwind =>
      case _ =>
        if Innermost(frames).Some? {
          SlotIsLexical(op.body, frames + [Lent(Innermost(frames).value)]);
        }
    }
  }

  /** Code without panics of its own in which every `with` stands directly in a
      `set`, through catching only. */
  ghost predicate Guarded(ops: seq<Op>, inSet: bool)
    decreases ops, 0
  {
    forall op <- ops :: OpGuarded(op, inSet)
  }

  ghost predicate OpGuarded(op: Op, inSet: bool)
    decreases op, 1
  {
    match op
    case Set(_, body) => Guarded(body, true)
    case With(body) => inSet && Guarded(body, false)
    case TryWith(body) => Guarded(body, false)
    case Unwind => false
    case Catch(body) => Guarded(body, inSet)
  }

  /** How many `with`s and `try_with`s code contains that stand directly in a `set`,
      not looking into a `try_with` that does not. */
  function Count(ops: seq<Op>, inSet: bool): nat
    decreases ops, 0
  {
    if ops == [] then 0 else OpCount(ops[0], inSet) + Count(ops[1..], inSet)
  }

  function OpCount(op: Op, inSet: bool): nat
    decreases op, 1
  {
    match op
    case Set(_, body) => Count(body, true)
    case Unwind => 0
    case Catch(body) => Count(body, inSet)
    case _ => if inSet then 1 + Count(op.body, false) else 0
  }

  /** Guarded code never unwinds, and every one of its `with`s and `try_with`s that
      stand directly in a `set` is lent a context. */
  lemma {:induction false} GuardedCodeIsServed(ops: seq<Op>, slot: Option<ContextId>, frames: seq<Frame>)
    requires Guarded(ops, slot.Some?)
    ensures var r := Exec(ops, slot, frames); !r.unwound && |r.lends| == Count(ops, slot.Some?)
    decreases ops, 0
  {
    if ops != [] {
      assert ops[0] in ops;
      GuardedOpIsServed(ops[0], slot, frames);
      OpRestoresSlot(ops[0], slot, frames);
      GuardedCodeIsServed(ops[1..], slot, frames);
    }
  }

  lemma {:induction false} GuardedOpIsServed(op: Op, slot: Option<ContextId>, frames: seq<Frame>)
    requires OpGuarded(op, slot.Some?)
    ensures var r := ExecOp(op, slot, frames); !r.unwound && |r.lends| == OpCount(op, slot.Some?)
    decreases op, 1
  {
    match op {
      case Set(cx, body) => GuardedCodeIsServed(body, Some(cx), frames + [Installed(cx)]);
      case With(body) => GuardedCodeIsServed(body, None, frames + [Lent(slot.value)]);
      case TryWith(body) =>
        if slot.Some? {
          GuardedCodeIsServed(body, None, frames + [Lent(slot.value)]);
        }
      case Catch(body) => GuardedCodeIsServed(body, slot, frames);
      case Unwind =>
    }
  }

  /** Without a context `with` panics, and `try_with` does not, and neither runs its
      closure. */
  lemma NothingToLend(body: seq<Op>, frames: seq<Frame>)
    ensures Exec([With(body)], None, frames) == Ran(None, true, [])
    ensures Exec([TryWith(body)], None, frames) == Ran(None, false, [])
  {
    assert [TryWith(body)][1..] == [];
    assert [With(body)][0] == With(body) && [TryWith(body)][0] == TryWith(body);
  }
}
