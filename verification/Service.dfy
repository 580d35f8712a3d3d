/** The future that serves one request, and the runs of its `poll_apply`. */
module Service {
  import opened Outcomes
  import opened PathCursor
  import opened RequestBody
  import opened Endpoints
  import opened ActionSteps
  import opened PathContext
  import opened PollContext
  import opened ActionsMeetEndpoints
  import opened Actions

  /** What `poll_apply` answers when the result is there. */
  function Settled(r: Result<Output, Error>): PollCall<Output> {
    match r
    case Ok(out) => Returned(Ok(Ready(out)))
    case Err(err) => Returned(Err(err))
  }

  /** The calls of `poll_apply` on a fresh future, from the 0th on. */
  function NthPoll(phase: Phase<Act>, path: string, s: Slot, n: nat): Applied
    requires IsPath(path)
    decreases n
  {
    var r := PollApply(phase, path, s);
    if n == 0 then r else NthPoll(r.phase, path, r.slot, n - 1)
  }

  /** What the `n`th call polls. */
  function NthPolls(phase: Phase<Act>, path: string, s: Slot, n: nat): seq<PollEvent>
    requires IsPath(path)
    decreases n
  {
    if n == 0 then ApplyPolls(phase, path, s)
    else var r := PollApply(phase, path, s); NthPolls(r.phase, path, r.slot, n - 1)
  }

  /** A future between two polls owes `o`: it has not been polled yet, or it is
      polling a live action tree. */
  ghost predicate Owes(phase: Phase<Act>, path: string, s: Slot, o: Outcome)
    requires IsPath(path)
  {
    || (exists e :: phase == Starting(Some(Spawn(e))) && Apply(e, path, START, s) == o)
    || (phase.Polling? && Live(phase.running) && Rest(phase.running, s) == o)
  }

  /** `r` uses up one of the waits of `o`, and settles with `o` exactly when no
      wait is left. */
  ghost predicate Pays(r: Applied, path: string, o: Outcome)
    requires IsPath(path)
  {
    if o.waits == 0
    then r.call == Settled(o.result) && r.slot == o.slot
    else r.call == Returned(Ok(NotReady)) && Owes(r.phase, path, r.slot, o.(waits := o.waits - 1))
  }

  /** One `poll_apply` of a future that owes `o` pays; in particular it does not
      panic. */
  lemma PollPays(phase: Phase<Act>, path: string, s: Slot, o: Outcome)
    requires IsPath(path) && Owes(phase, path, s, o)
    ensures Pays(PollApply(phase, path, s), path, o)
  {
    if phase.Polling? {
      LivePollPays(phase.running, path, s);
    } else {
      var e :| phase == Starting(Some(Spawn(e))) && Apply(e, path, START, s) == o;
      FirstPollPays(e, path, s);
    }
  }

  lemma LivePollPays(a: Act, path: string, s: Slot)
    requires IsPath(path) && Live(a)
    ensures Pays(PollPolling(a, s), path, Rest(a, s))
  {
    PollProgresses(a, s);
  }

  lemma FirstPollPays(e: Endpoint, path: string, s: Slot)
    requires IsPath(path)
    ensures Pays(PollApply(Starting(Some(Spawn(e))), path, s), path, Apply(e, path, START, s))
  {
    RoutedAction(e, path, s);
    var r := PreflightAct(Spawn(e), path, START);
    match r.call.value {
      case Err(_) =>
      case Ok(Completed(_)) =>
      case Ok(Incomplete) => LivePollPays(r.act, path, s);
    }
  }

  /** The routing step `r` has settled `o`, or leaves a live tree that owes it. */
  ghost predicate RoutedTo(r: Flown, s: Slot, o: Outcome) {
    match r.call
    case Panicked => false
    case Returned(Err(err)) => o == Outcome(Err(err), s, 0)
    case Returned(Ok(Completed(out))) => o == Outcome(Ok(out), s, 0)
    case Returned(Ok(Incomplete)) => Live(r.act) && Rest(r.act, s) == o
  }

  lemma RoutedAction(e: Endpoint, path: string, s: Slot)
    requires IsPath(path)
    ensures RoutedTo(PreflightAct(Spawn(e), path, START), s, Apply(e, path, START, s))
  {
    PreflightRoutes(e, path, START);
  }

  /** On every schedule of `NotReady` answers the machines compute the meaning of
      the endpoint: the first `waits` polls answer `NotReady`, the next one settles
      with the result and the leftover body of the two-phase evaluation, and no
      poll up to there panics. */
  lemma PollingServes(e: Endpoint, path: string, body: Option<Body>, n: nat)
    requires IsPath(path) && n <= Serve(e, path, body).waits
    ensures var o := Serve(e, path, body);
            var r := NthPoll(Starting(Some(Spawn(e))), path, Slot(body, 0), n);
            if n < o.waits
            then r.call == Returned(Ok(NotReady))
            else r.call == Settled(o.result) && r.slot == o.slot
  {
    var phase := Starting(Some(Spawn(e)));
    assert Owes(phase, path, Slot(body, 0), Serve(e, path, body));
    OwedPolls(phase, path, Slot(body, 0), Serve(e, path, body), n);
  }

  lemma {:induction false} OwedPolls(phase: Phase<Act>, path: string, s: Slot, o: Outcome, n: nat)
    requires IsPath(path) && Owes(phase, path, s, o) && n <= o.waits
    ensures var r := NthPoll(phase, path, s, n);
            if n < o.waits
            then r.call == Returned(Ok(NotReady))
            else r.call == Settled(o.result) && r.slot == o.slot
    decreases n
  {
    PollPays(phase, path, s, o);
    if n > 0 {
      var r := PollApply(phase, path, s);
      OwedPolls(r.phase, path, r.slot, o.(waits := o.waits - 1), n - 1);
    }
  }

  /** The waits are not wasted: each poll up to the last wait ends with the one leaf
      or future that was not ready, and the settling poll meets none. */
  lemma WaitsAreStalls(e: Endpoint, path: string, body: Option<Body>, n: nat)
    requires IsPath(path) && n <= Serve(e, path, body).waits
    ensures StopsAtStall(NthPolls(Starting(Some(Spawn(e))), path, Slot(body, 0), n), n < Serve(e, path, body).waits)
  {
    PollingServes(e, path, body, n);
    NthPollStopsAtStall(Starting(Some(Spawn(e))), path, Slot(body, 0), n);
  }

  lemma {:induction false} NthPollStopsAtStall(phase: Phase<Act>, path: string, s: Slot, n: nat)
    requires IsPath(path)
    ensures StopsAtStall(NthPolls(phase, path, s, n), NthPoll(phase, path, s, n).call == Returned(Ok(NotReady)))
    decreases n
  {
    var r := PollApply(phase, path, s);
    if n > 0 {
      NthPollStopsAtStall(r.phase, path, r.slot, n - 1);
    } else {
      match phase {
        case Polling(a) => PollStopsAtStall(a, s);
        case Starting(Some(a)) => PollStopsAtStall(PreflightAct(a, path, START).act, s);
        case Starting(None) =>
      }
    }
  }

  // ---- The future as an object ----

  function InPhase(phase: Phase<Action>): set<Action> {
    match phase
    case Starting(None) => {}
    case Starting(Some(a)) => {a}
    case Polling(a) => {a}
  }

  ghost function PhaseOwned(phase: Phase<Action>): set<object>
    reads InPhase(phase)
  {
    match phase
    case Starting(None) => {}
    case Starting(Some(a)) => a.owned
    case Polling(a) => a.owned
  }

  ghost predicate PhaseValid(phase: Phase<Action>)
    reads InPhase(phase), PhaseOwned(phase)
  {
    match phase
    case Starting(None) => true
    case Starting(Some(a)) => a.Valid()
    case Polling(a) => a.Valid()
  }

  ghost function PhaseState(phase: Phase<Action>): Phase<Act>
    reads InPhase(phase)
  {
    match phase
    case Starting(None) => Starting(None)
    case Starting(Some(a)) => Starting(Some(a.state))
    case Polling(a) => Polling(a.state)
  }

  class AppFuture {
    const path: string
    const cx: ActionContext
    var phase: Phase<Action>

    ghost predicate Valid()
      reads this, cx, InPhase(phase), PhaseOwned(phase)
    {
      && IsPath(path)
      && PhaseValid(phase)
      && this !in PhaseOwned(phase) && cx !in PhaseOwned(phase)
    }

    /** `AppService::dispatch`. */
    constructor (e: Endpoint, path: string, body: Option<Body>)
      requires IsPath(path)
      ensures Valid() && this.path == path
      ensures fresh(cx) && fresh(PhaseOwned(phase))
      ensures PhaseState(phase) == Starting(Some(ActionSteps.Spawn(e))) && cx.Contents() == Slot(body, 0)
    {
      var action := SpawnAction(e);
      this.path := path;
      phase := Starting(Some(action));
      cx := new ActionContext(body);
    }

    method PollApply() returns (call: PollCall<Output>)
      requires Valid()
      modifies this, cx, PhaseOwned(phase)
      ensures Valid() && PhaseOwned(phase) <= old(PhaseOwned(phase))
      ensures Applied(PhaseState(phase), cx.Contents(), call)
           == ActionSteps.PollApply(old(PhaseState(phase)), path, old(cx.Contents()))
      ensures cx.polls == old(cx.polls) + ApplyPolls(old(PhaseState(phase)), path, old(cx.Contents()))
    {
      ghost var events := ApplyPolls(PhaseState(phase), path, cx.Contents());
      ghost var want := ActionSteps.PollApply(PhaseState(phase), path, cx.Contents());
      while true
        invariant Valid() && PhaseOwned(phase) <= old(PhaseOwned(phase))
        invariant ActionSteps.PollApply(PhaseState(phase), path, cx.Contents()) == want
        invariant cx.polls == old(cx.polls) && ApplyPolls(PhaseState(phase), path, cx.Contents()) == events
        decreases if phase.Starting? then 1 else 0
      {
        match phase {
          case Starting(None) => return Panicked;
          case Starting(Some(action)) =>
            phase := Starting(None);
            var ecx := new PreflightContext(path);
            var x := action.Preflight(ecx);
            match x {
              case Panicked => return Panicked;
              case Returned(Err(err)) => return Returned(Err(err));
              case Returned(Ok(Completed(out))) => return Returned(Ok(Ready(out)));
              case Returned(Ok(Incomplete)) => phase := Polling(action);
            }
          case Polling(action) =>
            call := action.PollAction(cx);
            return;
        }
      }
    }
  }

  /** One `poll_apply` of a future that owes `o`. */
  method PollOwing(app: AppFuture, ghost o: Outcome) returns (call: PollCall<Output>)
    requires app.Valid() && Owes(PhaseState(app.phase), app.path, app.cx.Contents(), o)
    modifies app, app.cx, PhaseOwned(app.phase)
    ensures app.Valid() && PhaseOwned(app.phase) <= old(PhaseOwned(app.phase))
    ensures Pays(Applied(PhaseState(app.phase), app.cx.Contents(), call), app.path, o)
  {
    PollPays(PhaseState(app.phase), app.path, app.cx.Contents(), o);
    call := app.PollApply();
  }

  /** Drives a fresh future for `e` until it settles. */
  method Drive(e: Endpoint, path: string, body: Option<Body>)
    returns (result: Result<Output, Error>, leftover: Option<Body>, waits: nat)
    requires IsPath(path)
    ensures var o := Serve(e, path, body);
            result == o.result && leftover == o.slot.body && waits == o.waits
  {
    var app := new AppFuture(e, path, body);
    ghost var o := Serve(e, path, body);
    waits := 0;
    assert Owes(PhaseState(app.phase), path, app.cx.Contents(), o);
    while true
      invariant app.Valid() && app.path == path && fresh(app) && fresh(app.cx) && fresh(PhaseOwned(app.phase))
      invariant waits <= o.waits
      invariant Owes(PhaseState(app.phase), path, app.cx.Contents(), o.(waits := o.waits - waits))
      decreases o.waits - waits
    {
      var call := PollOwing(app, o.(waits := o.waits - waits));
      match call {
        case Returned(Ok(NotReady)) => waits := waits + 1;
        case Returned(Ok(Ready(out))) => return Ok(out), app.cx.body, waits;
        case Returned(Err(err)) => return Err(err), app.cx.body, waits;
        case Panicked => assert false;
      }
    }
  }
}
