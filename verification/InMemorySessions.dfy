/** The in-memory session backend: one shared map, many clients. */
module InMemorySessions {
  import opened Outcomes
  import opened Sessions

  datatype SessionError = BadRequest | HandlerError(id: int)

  type Storage = map<Uuid, string>

  function Lookup(storage: Storage, id: Uuid): Option<string> {
    if id in storage then Some(storage[id]) else None
  }

  function ReadDraft(storage: Storage, cookie: Option<Cookie>): Result<Draft, SessionError> {
    match cookie
    case None => Ok(Draft(None, None))
    case Some(Garbage(_)) => Err(BadRequest)
    case Some(SessionId(id)) => Ok(Draft(Some(id), Lookup(storage, id)))
  }

  /** The storage and the cookie jar after a session has been written. */
  function WriteDraft(storage: Storage, jar: Option<Cookie>, d: Draft, newId: Uuid): (Storage, Option<Cookie>) {
    match d.value
    case Some(value) =>
      var id := OrNew(d.sessionId, newId);
      (storage[id := value], Some(SessionId(id)))
    case None =>
      match d.sessionId
      case Some(id) => (storage - {id}, None)
      case None => (storage, jar)
  }

  // ---- The backend as objects ----

  class InMemoryBackend {
    var storage: Storage

    constructor ()
      ensures storage == map[]
    {
      storage := map[];
    }

    method ReadValue(input: Input) returns (r: Result<(Option<string>, Option<Uuid>), SessionError>)
      ensures r == match ReadDraft(storage, input.cookie)
                   case Ok(d) => Ok((d.value, d.sessionId))
                   case Err(err) => Err(err)
      ensures r.Err? <==> input.cookie.Some? && input.cookie.value.Garbage?
    {
      match input.cookie {
        case Some(SessionId(id)) =>
          var value := if id in storage then Some(storage[id]) else None;
          r := Ok((value, Some(id)));
        case Some(Garbage(_)) => r := Err(BadRequest);
        case None => r := Ok((None, None));
      }
    }

    method WriteValue(input: Input, id: Uuid, value: string)
      modifies this, input
      ensures storage == old(storage)[id := value] && input.cookie == Some(SessionId(id))
    {
      storage := storage[id := value];
      input.cookie := Some(SessionId(id));
    }

    method RemoveValue(input: Input, id: Uuid)
      modifies this, input
      ensures storage == old(storage) - {id} && input.cookie == None
    {
      storage := storage - {id};
      input.cookie := None;
    }
  }

  class InMemorySession {
    const backend: InMemoryBackend
    var sessionId: Option<Uuid>
    var value: Option<string>

    constructor (backend: InMemoryBackend, d: Draft)
      ensures this.backend == backend && sessionId == d.sessionId && value == d.value
    {
      this.backend := backend;
      sessionId, value := d.sessionId, d.value;
    }

    method Set(v: string)
      modifies this
      ensures value == Some(v) && sessionId == old(sessionId)
    {
      value := Some(v);
    }

    method Remove()
      modifies this
      ensures value == None && sessionId == old(sessionId)
    {
      value := None;
    }

    /** `newId` is what `Uuid::new_v4` would return. */
    method WriteImpl(input: Input, newId: Uuid)
      modifies backend, input
      ensures (backend.storage, input.cookie)
           == WriteDraft(old(backend.storage), old(input.cookie), Draft(sessionId, value), newId)
      ensures sessionId.Some? && value.Some? ==>
                && backend.storage == old(backend.storage)[sessionId.value := value.value]
                && input.cookie == Some(SessionId(sessionId.value))
    {
      match value {
        case Some(v) =>
          var id := OrNew(sessionId, newId);
          backend.WriteValue(input, id, v);
        case None =>
          match sessionId {
            case Some(id) => backend.RemoveValue(input, id);
            case None =>
          }
      }
    }

    /** `Session::with`: runs the handler, and writes only if it succeeds. The
        handler's effect on the value is `edit`, its answer `answer`. */
    method WithHandler<T>(edit: Option<string> -> Option<string>, answer: Result<T, SessionError>, input: Input,
                          newId: Uuid)
      returns (r: Result<T, SessionError>)
      modifies this, backend, input
      ensures r == answer && sessionId == old(sessionId) && value == edit(old(value))
      ensures (backend.storage, input.cookie)
           == if answer.Err? then (old(backend.storage), old(input.cookie))
              else WriteDraft(old(backend.storage), old(input.cookie), Draft(old(sessionId), edit(old(value))), newId)
    {
      match edit(value) {
        case Some(v) => Set(v);
        case None => Remove();
      }
      if answer.Ok? {
        WriteImpl(input, newId);
      }
      r := answer;
    }
  }

  // ---- Many clients ----

  datatype World = World(storage: Storage, clients: map<Who, Client>, issued: set<Uuid>)

  /** Requests of one client are sequential, new ids are fresh, and this store
      forgets nothing by itself. */
  predicate Enabled(w: World, step: Step) {
    && step.who in w.clients
    && !step.Expire?
    && (step.Begin? <==> w.clients[step.who].open.None?)
    && (step.Commit? ==> step.newId !in w.issued)
  }

  function Next(w: World, step: Step): World
    requires Enabled(w, step)
  {
    var cl := w.clients[step.who];
    match step
    case Begin(who) =>
      (match ReadDraft(w.storage, cl.cookie)
       case Ok(d) => w.(clients := w.clients[who := cl.(open := Some(d))])
       case Err(_) => w)
    case SetValue(who, v) =>
      w.(clients := w.clients[who := cl.(open := Some(cl.open.value.(value := Some(v))))])
    case RemoveValue(who) =>
      w.(clients := w.clients[who := cl.(open := Some(cl.open.value.(value := None)))])
    case Fail(who) =>
      w.(clients := w.clients[who := cl.(open := None)])
    case Commit(who, newId) =>
      var (storage, cookie) := WriteDraft(w.storage, cl.cookie, cl.open.value, newId);
      World(storage, w.clients[who := Client(cookie, None)], w.issued + {newId})
  }

  predicate CanRun(w: World, steps: seq<Step>)
    decreases |steps|
  {
    steps == [] || (Enabled(w, steps[0]) && CanRun(Next(w, steps[0]), steps[1..]))
  }

  function Run(w: World, steps: seq<Step>): World
    requires CanRun(w, steps)
    decreases |steps|
  {
    if steps == [] then w else Run(Next(w, steps[0]), steps[1..])
  }

  /** Nobody has been served yet. */
  predicate IsInitial(w: World) {
    w.storage == map[] && w.issued == {} && forall who <- w.clients :: w.clients[who] == Client(None, None)
  }

  // ---- Refinement ----

  /** What a client's register is, in terms of the shared storage. */
  function View(w: World, who: Who): Register
    requires who in w.clients
  {
    var cl := w.clients[who];
    Register(
      match Id(cl) case Some(id) => Lookup(w.storage, id) case None => None,
      match cl.open case Some(d) => Some(d.value) case None => None)
  }

  /** Clients hold only ids the server issued, no two of them the same, and an open
      session carries its client's id. */
  ghost predicate Consistent(w: World) {
    && (forall id <- w.storage :: id in w.issued)
    && (forall who <- w.clients ::
          var cl := w.clients[who];
          && (cl.cookie.Some? ==> cl.cookie.value.SessionId? && cl.cookie.value.id in w.issued)
          && (cl.open.Some? ==> cl.open.value.sessionId == Id(cl)))
    && (forall a <- w.clients, b <- w.clients ::
          a != b && Id(w.clients[a]).Some? ==> Id(w.clients[a]) != Id(w.clients[b]))
  }

  /** Every step keeps the world consistent. */
  lemma StepKeepsConsistent(w: World, step: Step)
    requires Consistent(w) && Enabled(w, step)
    ensures Consistent(Next(w, step))
  {}

  /** Every step moves exactly the register of the client that takes it, by that
      register's own step. */
  lemma StepMovesOwnRegister(w: World, step: Step, who: Who)
    requires Consistent(w) && Enabled(w, step) && who in w.clients
    ensures who in Next(w, step).clients
    ensures View(Next(w, step), who)
         == if who == step.who then RegisterStep(View(w, who), step) else View(w, who)
  {}

  /** For every interleaving of any number of clients' requests, each client sees a
      private register: its view depends only on its own steps. */
  lemma {:induction false} RunRefinesRegisters(w: World, steps: seq<Step>, who: Who)
    requires Consistent(w) && CanRun(w, steps) && who in w.clients
    ensures Consistent(Run(w, steps)) && who in Run(w, steps).clients
    ensures View(Run(w, steps), who) == Replay(View(w, who), steps, who)
    decreases |steps|
  {
    if steps != [] {
      StepKeepsConsistent(w, steps[0]);
      StepMovesOwnRegister(w, steps[0], who);
      RunRefinesRegisters(Next(w, steps[0]), steps[1..], who);
    }
  }

  /** What a client's request reads, after any history from the start, is what
      replaying that client's own steps says was committed last; the request is
      never turned away. */
  lemma ReadsOwnLastCommit(w: World, steps: seq<Step>, who: Who)
    requires IsInitial(w) && CanRun(w, steps) && who in w.clients
    ensures var w' := Run(w, steps);
            && who in w'.clients
            && var d := ReadDraft(w'.storage, w'.clients[who].cookie);
               d.Ok? && d.value.value == Replay(Register(None, None), steps, who).committed
  {
    assert View(w, who) == Register(None, None);
    RunRefinesRegisters(w, steps, who);
  }

  /** Read your last write: whatever came before, if a client's last edit before a
      commit set a value (or removed it), and the client has not committed again
      since, then its next request reads that value (or nothing), with any steps of
      other clients anywhere in between. */
  lemma ReadsLastWrite(w: World, before: seq<Step>, edit: Step, others: seq<Step>, commit: Step, after: seq<Step>)
    requires edit.SetValue? || edit.RemoveValue?
    requires commit.Commit? && commit.who == edit.who
    requires forall s <- others :: s.who != edit.who
    requires forall s <- after :: s.who == edit.who ==> !s.Commit?
    requires IsInitial(w) && edit.who in w.clients
    requires CanRun(w, before + [edit] + others + [commit] + after)
    ensures var w' := Run(w, before + [edit] + others + [commit] + after);
            && edit.who in w'.clients
            && var d := ReadDraft(w'.storage, w'.clients[edit.who].cookie);
               d.Ok? && d.value.value == if edit.SetValue? then Some(edit.value) else None
  {
    ReadsOwnLastCommit(w, before + [edit] + others + [commit] + after, edit.who);
    NothingExpires(w, before + [edit] + others + [commit] + after);
    LastWriteIsCommitted(before, edit, others, commit, after);
  }

  lemma {:induction false} NothingExpires(w: World, steps: seq<Step>)
    requires CanRun(w, steps)
    ensures forall s <- steps :: !s.Expire?
    decreases |steps|
  {
    if steps != [] {
      NothingExpires(Next(w, steps[0]), steps[1..]);
      assert steps == [steps[0]] + steps[1..];
    }
  }

  // ---- Session ids ----

  /** How a step of its client moves a session id, told from the client's register:
      a commit gives an id to a session that has none yet, keeps the id of one that
      has, and takes it away with the value. */
  function IdStep(id: Option<Uuid>, r: Register, step: Step): Option<Uuid> {
    if !step.Commit? || r.draft.None? then id
    else if r.draft.value.None? then None
    else if id.Some? then id
    else Some(step.newId)
  }

  /** The session id after a history, computed from the client's own steps alone. */
  function ReplayId(id: Option<Uuid>, r: Register, steps: seq<Step>, who: Who): Option<Uuid>
    decreases |steps|
  {
    if steps == [] then id
    else if steps[0].who != who then ReplayId(id, r, steps[1..], who)
    else ReplayId(IdStep(id, r, steps[0]), RegisterStep(r, steps[0]), steps[1..], who)
  }

  lemma StepMovesOwnId(w: World, step: Step, who: Who)
    requires Consistent(w) && Enabled(w, step) && who in w.clients
    ensures who in Next(w, step).clients
    ensures Id(Next(w, step).clients[who])
         == if who == step.who then IdStep(Id(w.clients[who]), View(w, who), step) else Id(w.clients[who])
  {}

  /** For every interleaving, the id in a client's cookie is what replaying the
      client's own steps gives it. */
  lemma {:induction false} RunRefinesIds(w: World, steps: seq<Step>, who: Who)
    requires Consistent(w) && CanRun(w, steps) && who in w.clients
    ensures who in Run(w, steps).clients
    ensures Id(Run(w, steps).clients[who]) == ReplayId(Id(w.clients[who]), View(w, who), steps, who)
    decreases |steps|
  {
    if steps != [] {
      StepKeepsConsistent(w, steps[0]);
      StepMovesOwnId(w, steps[0], who);
      StepMovesOwnRegister(w, steps[0], who);
      RunRefinesIds(Next(w, steps[0]), steps[1..], who);
    }
  }

  /** A client keeps its session id as long as it does not remove its session. */
  lemma {:induction false} SessionKeepsId(w: World, steps: seq<Step>, who: Who)
    requires Consistent(w) && CanRun(w, steps) && who in w.clients && Id(w.clients[who]).Some?
    requires View(w, who).committed.Some? && View(w, who).draft != Some(None)
    requires forall s <- steps :: !(s.RemoveValue? && s.who == who)
    ensures who in Run(w, steps).clients && Id(Run(w, steps).clients[who]) == Id(w.clients[who])
    decreases |steps|
  {
    if steps != [] {
      assert steps[0] in steps;
      StepKeepsConsistent(w, steps[0]);
      StepMovesOwnId(w, steps[0], who);
      StepMovesOwnRegister(w, steps[0], who);
      SessionKeepsId(Next(w, steps[0]), steps[1..], who);
    }
  }

  /** The client's cookie names the id. */
  ghost predicate Holds(w: World, who: Who, id: Uuid) {
    who in w.clients && Id(w.clients[who]) == Some(id)
  }

  /** The stored ids are exactly the ids in the clients' cookies. */
  ghost predicate Tidy(w: World) {
    && (forall who, id :: Holds(w, who, id) ==> id in w.storage)
    && (forall id <- w.storage :: exists who :: Holds(w, who, id))
  }

  lemma StepKeepsTidy(w: World, step: Step)
    requires Consistent(w) && Tidy(w) && Enabled(w, step)
    ensures Tidy(Next(w, step))
  {
    var w' := Next(w, step);
    assert w'.clients.Keys == w.clients.Keys;
    forall who, id | Holds(w', who, id) ensures id in w'.storage {
      StepMovesOwnId(w, step, who);
      if who != step.who {
        assert Holds(w, who, id);
        OthersEntriesStay(w, step, id);
      } else {
        OwnEntryFollows(w, step);
      }
    }
    forall id <- w'.storage ensures exists who :: Holds(w', who, id) {
      OwnEntryFollows(w, step);
      if !Holds(w', step.who, id) {
        var who :| Holds(w, who, id);
        StepMovesOwnId(w, step, who);
        assert Holds(w', who, id);
      }
    }
  }

  /** A step takes away no entry but that of its client. */
  lemma OthersEntriesStay(w: World, step: Step, id: Uuid)
    requires Enabled(w, step) && Consistent(w) && !Holds(w, step.who, id) && id in w.storage
    ensures id in Next(w, step).storage
  {}

  /** After a step the entry under its client's new id is there, one under an id it
      has lost is gone, and no other entry has come. */
  lemma OwnEntryFollows(w: World, step: Step)
    requires Enabled(w, step) && Consistent(w) && Tidy(w)
    ensures var w' := Next(w, step);
            && (forall id | Holds(w', step.who, id) :: id in w'.storage)
            && (forall id <- w'.storage | !Holds(w', step.who, id) :: id in w.storage && !Holds(w, step.who, id))
  {
    var cl := w.clients[step.who];
    if Id(cl).Some? {
      assert Holds(w, step.who, Id(cl).value);
    }
  }

  /** After any history from the start the storage holds exactly the sessions whose
      ids the clients' cookies name: nothing is left behind, and no cookie points
      nowhere. */
  lemma StoredIdsAreCookies(w: World, steps: seq<Step>)
    requires IsInitial(w) && CanRun(w, steps)
    ensures Tidy(Run(w, steps))
  {
    RunKeepsTidy(w, steps);
  }

  lemma {:induction false} RunKeepsTidy(w: World, steps: seq<Step>)
    requires Consistent(w) && Tidy(w) && CanRun(w, steps)
    ensures Tidy(Run(w, steps))
    decreases |steps|
  {
    if steps != [] {
      StepKeepsConsistent(w, steps[0]);
      StepKeepsTidy(w, steps[0]);
      RunKeepsTidy(Next(w, steps[0]), steps[1..]);
    }
  }

  /** Committing a removal leaves neither an entry nor a cookie. */
  lemma RemovalLeavesNothing(w: World, step: Step)
    requires Consistent(w) && Enabled(w, step) && step.Commit? && View(w, step.who).draft == Some(None)
    ensures var w' := Next(w, step);
            && w'.clients[step.who].cookie == None
            && (Id(w.clients[step.who]).Some? ==> w'.storage == w.storage - {Id(w.clients[step.who]).value})
            && (Id(w.clients[step.who]).None? ==> w'.storage == w.storage)
  {}

  /** A request with a malformed cookie is turned away and changes nothing. */
  lemma GarbageIsTurnedAway(w: World, who: Who, text: string)
    requires Enabled(w, Begin(who)) && w.clients[who].cookie == Some(Garbage(text))
    ensures ReadDraft(w.storage, w.clients[who].cookie) == Err(BadRequest) && Next(w, Begin(who)) == w
  {}
}
