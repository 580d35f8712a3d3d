/** What the session backends share: cookies, drafts, the steps of many clients'
    requests, and the private register each client should see. */
module Sessions {
  import opened Outcomes

  type Uuid = nat

  /** The value of a session cookie. */
  datatype Cookie = SessionId(id: Uuid) | Garbage(text: string)

  /** A session as the handler sees it. */
  datatype Draft = Draft(sessionId: Option<Uuid>, value: Option<string>)

  /** The session's id, or the given new one if it has none yet. */
  function OrNew(sessionId: Option<Uuid>, newId: Uuid): Uuid {
    match sessionId
    case Some(id) => id
    case None => newId
  }

  /** The part of a request's input the backend uses: its "session-id" cookie. */
  class Input {
    var cookie: Option<Cookie>

    constructor (cookie: Option<Cookie>)
      ensures this.cookie == cookie
    {
      this.cookie := cookie;
    }
  }

  // ---- Many clients ----

  type Who = nat

  /** A client between or within its requests. The cookie is what it will send
      next; `open` is the session of the request it has in flight. */
  datatype Client = Client(cookie: Option<Cookie>, open: Option<Draft>)

  function Id(cl: Client): Option<Uuid> {
    match cl.cookie
    case Some(SessionId(id)) => Some(id)
    case _ => None
  }

  /** One step of one client's request, or the store forgetting the client's
      session. Steps of different clients interleave freely. */
  datatype Step =
    | Begin(who: Who)
    | SetValue(who: Who, value: string)
    | RemoveValue(who: Who)
    | Commit(who: Who, newId: Uuid)
    | Fail(who: Who)
    | Expire(who: Who)

  // ---- The private registers ----

  /** One client's register: its committed value, and its draft while a request
      is in flight. */
  datatype Register = Register(committed: Option<string>, draft: Option<Option<string>>)

  function RegisterStep(r: Register, step: Step): Register {
    match step
    case Begin(_) => r.(draft := Some(r.committed))
    case SetValue(_, v) => r.(draft := Some(Some(v)))
    case RemoveValue(_) => r.(draft := Some(None))
    case Fail(_) => r.(draft := None)
    case Expire(_) => r.(committed := None)
    case Commit(_, _) => if r.draft.Some? then Register(r.draft.value, None) else r
  }

  /** The register after a history, computed from the client's own steps alone. */
  function Replay(r: Register, steps: seq<Step>, who: Who): Register
    decreases |steps|
  {
    if steps == [] then r
    else Replay(if steps[0].who == who then RegisterStep(r, steps[0]) else r, steps[1..], who)
  }

  /** Between two commits of a client its committed value stays what it is,
      whatever it drafts and however its handlers fail, unless it expires. */
  lemma {:induction false} OnlyCommitsChangeRegister(r: Register, steps: seq<Step>, who: Who)
    requires forall s <- steps :: s.who == who ==> !s.Commit? && !s.Expire?
    ensures Replay(r, steps, who).committed == r.committed
    decreases |steps|
  {
    if steps != [] {
      assert steps[0] in steps;
      var r' := if steps[0].who == who then RegisterStep(r, steps[0]) else r;
      OnlyCommitsChangeRegister(r', steps[1..], who);
    }
  }

  lemma {:induction false} OthersDoNotMatter(r: Register, steps: seq<Step>, who: Who)
    requires forall s <- steps :: s.who != who
    ensures Replay(r, steps, who) == r
    decreases |steps|
  {
    if steps != [] {
      assert steps[0] in steps;
      OthersDoNotMatter(r, steps[1..], who);
    }
  }

  lemma {:induction false} ReplayAppends(r: Register, first: seq<Step>, second: seq<Step>, who: Who)
    ensures Replay(r, first + second, who) == Replay(Replay(r, first, who), second, who)
    decreases |first|
  {
    if first == [] {
      assert first + second == second;
    } else {
      assert (first + second)[1..] == first[1..] + second;
      ReplayAppends(if first[0].who == who then RegisterStep(r, first[0]) else r, first[1..], second, who);
    }
  }

  lemma ReplayOne(r: Register, step: Step, who: Who)
    ensures Replay(r, [step], who) == if step.who == who then RegisterStep(r, step) else r
  {
    assert [step][1..] == [];
  }

  /** A request that fails leaves no trace: whatever it edited, with any steps of
      others in between, the register is as it was before, ready for a new request. */
  lemma FailedRequestIsUndone(r: Register, steps: seq<Step>, who: Who)
    requires forall s <- steps :: s.who == who ==> s.SetValue? || s.RemoveValue?
    ensures Replay(r, [Begin(who)] + steps + [Fail(who)], who) == Register(r.committed, None)
  {
    ReplayAppends(r, [Begin(who)] + steps, [Fail(who)], who);
    ReplayAppends(r, [Begin(who)], steps, who);
    ReplayOne(r, Begin(who), who);
    var open := RegisterStep(r, Begin(who));
    OnlyCommitsChangeRegister(open, steps, who);
    ReplayOne(Replay(open, steps, who), Fail(who), who);
  }

  /** What a history commits: if a client's last edit before a commit set a value (or
      removed it), and since then the client has not committed again and its session
      has not expired, that value is committed. */
  lemma LastWriteIsCommitted(before: seq<Step>, edit: Step, others: seq<Step>, commit: Step, after: seq<Step>)
    requires edit.SetValue? || edit.RemoveValue?
    requires commit.Commit? && commit.who == edit.who
    requires forall s <- others :: s.who != edit.who
    requires forall s <- after :: s.who == edit.who ==> !s.Commit? && !s.Expire?
    ensures Replay(Register(None, None), before + [edit] + others + [commit] + after, edit.who).committed
         == if edit.SetValue? then Some(edit.value) else None
  {
    var who, r0 := edit.who, Register(None, None);
    ReplayAppends(r0, before + [edit] + others + [commit], after, who);
    ReplayAppends(r0, before + [edit] + others, [commit], who);
    ReplayAppends(r0, before + [edit], others, who);
    ReplayAppends(r0, before, [edit], who);
    var r1 := Replay(r0, before, who);
    ReplayOne(r1, edit, who);
    var r2 := RegisterStep(r1, edit);
    OthersDoNotMatter(r2, others, who);
    ReplayOne(r2, commit, who);
    OnlyCommitsChangeRegister(RegisterStep(r2, commit), after, who);
  }
}
