/** Many clients of one Redis server, whose sessions may expire at any time. */
module RedisClients {
  import opened Outcomes
  import opened Sessions
  import opened RedisSessions

  datatype World = World(data: Data, clients: map<Who, Client>, issued: set<Uuid>)

  /** Requests of one client are sequential, and new ids are fresh. */
  predicate Enabled(w: World, step: Step) {
    && step.who in w.clients
    && (step.Begin? ==> w.clients[step.who].open.None?)
    && (!step.Begin? && !step.Expire? ==> w.clients[step.who].open.Some?)
    && (step.Commit? ==> step.newId !in w.issued)
  }

  /** The server forgets the session the client's cookie names. */
  function Forgotten(data: Data, cl: Client, config: Config): Data {
    if Id(cl).None? then data else data - {KeyName(config, Id(cl).value)}
  }

  function Next(w: World, step: Step, config: Config): World
    requires Enabled(w, step)
  {
    var cl := w.clients[step.who];
    match step
    case Begin(who) =>
      (match ReadFrom(w.data, cl.cookie, config, NotFound)
       case Ok(d) => w.(clients := w.clients[who := cl.(open := Some(d))])
       case Err(_) => w)
    case SetValue(who, v) =>
      w.(clients := w.clients[who := cl.(open := Some(cl.open.value.(value := Some(v))))])
    case RemoveValue(who) =>
      w.(clients := w.clients[who := cl.(open := Some(cl.open.value.(value := None)))])
    case Fail(who) =>
      w.(clients := w.clients[who := cl.(open := None)])
    case Expire(_) =>
      w.(data := Forgotten(w.data, cl, config))
    case Commit(who, newId) =>
      var written := Write(cl.open.value, config, cl.cookie, newId);
      World(Execute(written.command, w.data), w.clients[who := Client(written.jar, None)], w.issued + {newId})
  }

  predicate CanRun(w: World, steps: seq<Step>, config: Config)
    decreases |steps|
  {
    steps == [] || (Enabled(w, steps[0]) && CanRun(Next(w, steps[0], config), steps[1..], config))
  }

  function Run(w: World, steps: seq<Step>, config: Config): World
    requires CanRun(w, steps, config)
    decreases |steps|
  {
    if steps == [] then w else Run(Next(w, steps[0], config), steps[1..], config)
  }

  /** Nobody has been served yet. */
  predicate IsInitial(w: World) {
    w.data == map[] && w.issued == {} && forall who <- w.clients :: w.clients[who] == Client(None, None)
  }

  /** What a client's register is, in terms of the server's data. */
  function View(w: World, who: Who, config: Config): Register
    requires who in w.clients
  {
    var cl := w.clients[who];
    Register(
      match Id(cl) case Some(id) => Lookup(w.data, KeyName(config, id)) case None => None,
      match cl.open case Some(d) => Some(d.value) case None => None)
  }

  /** Ids print differently. */
  ghost predicate ShowsApart(config: Config) {
    forall a, b :: config.show(a) == config.show(b) ==> a == b
  }

  /** The client holds no malformed cookie and no id the server has not issued; its
      open session carries its id, unless nothing is stored for it. */
  ghost predicate SoundClient(w: World, cl: Client, config: Config) {
    && (cl.cookie.Some? ==> cl.cookie.value.SessionId? && cl.cookie.value.id in w.issued)
    && (cl.open.Some? && cl.open.value.sessionId != Id(cl) ==>
          && cl.open.value.sessionId.None?
          && KeyName(config, Id(cl).value) !in w.data)
  }

  ghost predicate Consistent(w: World, config: Config) {
    && (forall who <- w.clients :: SoundClient(w, w.clients[who], config))
    && (forall a <- w.clients, b <- w.clients ::
          a != b && Id(w.clients[a]).Some? ==> Id(w.clients[a]) != Id(w.clients[b]))
  }

  /** A step leaves the entries of other ids alone, except that a commit may write
      under its new id. */
  lemma OtherKeysStay(w: World, step: Step, config: Config, id: Uuid)
    requires Enabled(w, step) && ShowsApart(config) && SoundClient(w, w.clients[step.who], config)
    requires id in w.issued && Id(w.clients[step.who]) != Some(id)
    ensures var key, data' := KeyName(config, id), Next(w, step, config).data;
            && (key in data' <==> key in w.data)
            && (key in w.data ==> data'[key] == w.data[key])
  {
    var cl := w.clients[step.who];
    if Id(cl).Some? {
      KeyNamesDiffer(config, id, Id(cl).value);
    }
    if step.Commit? {
      KeyNamesDiffer(config, id, OrNew(cl.open.value.sessionId, step.newId));
      WrittenIsStored(cl.open.value, config, cl.cookie, step.newId, w.data);
    }
  }

  lemma StepKeepsOwnSound(w: World, step: Step, config: Config)
    requires Consistent(w, config) && Enabled(w, step) && ShowsApart(config)
    ensures var w' := Next(w, step, config); SoundClient(w', w'.clients[step.who], config)
  {}

  /** Every step keeps the world consistent. */
  lemma StepKeepsConsistent(w: World, step: Step, config: Config)
    requires Consistent(w, config) && Enabled(w, step) && ShowsApart(config)
    ensures Consistent(Next(w, step, config), config)
  {
    var w' := Next(w, step, config);
    assert w.issued <= w'.issued;
    StepKeepsOwnSound(w, step, config);
    forall who <- w'.clients | who != step.who ensures SoundClient(w', w'.clients[who], config) {
      assert w'.clients[who] == w.clients[who];
      if Id(w.clients[who]).Some? {
        OtherKeysStay(w, step, config, Id(w.clients[who]).value);
      }
    }
    StepMovesOwnId(w, step, config);
  }

  /** How a step moves the id in its client's cookie: a commit gives a live session's
      own id or the new one to a value, and takes a live session's id away with its
      value; nothing else moves it. */
  lemma StepMovesOwnId(w: World, step: Step, config: Config)
    requires Enabled(w, step)
    ensures var cl, cl' := w.clients[step.who], Next(w, step, config).clients[step.who];
            if !step.Commit? then cl'.cookie == cl.cookie
            else
              var d := cl.open.value;
              cl'.cookie == if d.value.Some? then Some(SessionId(OrNew(d.sessionId, step.newId)))
                            else if d.sessionId.Some? then None
                            else cl.cookie
    ensures forall who <- w.clients :: who != step.who ==>
              who in Next(w, step, config).clients && Next(w, step, config).clients[who] == w.clients[who]
  {}

  /** Every step moves exactly the register of the client that takes it, by that
      register's own step; an expiry empties it. */
  lemma StepMovesOwnRegister(w: World, step: Step, config: Config, who: Who)
    requires Consistent(w, config) && Enabled(w, step) && ShowsApart(config) && who in w.clients
    ensures who in Next(w, step, config).clients
    ensures View(Next(w, step, config), who, config)
         == if who == step.who then RegisterStep(View(w, who, config), step) else View(w, who, config)
  {
    var cl := w.clients[who];
    if who != step.who {
      if Id(cl).Some? {
        OtherKeysStay(w, step, config, Id(cl).value);
      }
    } else if step.Commit? {
      WrittenIsStored(cl.open.value, config, cl.cookie, step.newId, w.data);
    }
  }

  /** For every interleaving of any number of clients' requests, with sessions
      expiring at any time, each client sees a private register: its view depends only
      on its own steps and on when its own session expired. */
  lemma {:induction false} RunRefinesRegisters(w: World, steps: seq<Step>, config: Config, who: Who)
    requires Consistent(w, config) && CanRun(w, steps, config) && ShowsApart(config) && who in w.clients
    ensures Consistent(Run(w, steps, config), config) && who in Run(w, steps, config).clients
    ensures View(Run(w, steps, config), who, config) == Replay(View(w, who, config), steps, who)
    decreases |steps|
  {
    if steps != [] {
      StepKeepsConsistent(w, steps[0], config);
      StepMovesOwnRegister(w, steps[0], config, who);
      RunRefinesRegisters(Next(w, steps[0], config), steps[1..], config, who);
    }
  }

  /** The future for the cookie answers, when connection and server have, with a
      session of the given value. */
  ghost predicate Reads(cookie: Option<Cookie>, connect: Promise<Connection>, malformed: Error, config: Config,
                        server: Server, value: Option<string>)
  {
    var n := WaitsToRead(cookie, connect, config, server);
    var call := NthPoll(Start(cookie, connect, malformed), config, server, n);
    call.Returned? && call.value.Ok? && call.value.value.Ready? && call.value.value.value.value == value
  }

  /** What a client's next request reads from the server, after any history from the
      start, is what replaying the client's own steps says was committed last and has
      not expired: the future that reads the session answers with it. */
  lemma ReadsOwnLastCommit(w: World, steps: seq<Step>, config: Config, who: Who, connect: Promise<Connection>,
                           malformed: Error, server: Server)
    requires IsInitial(w) && CanRun(w, steps, config) && ShowsApart(config) && who in w.clients
    requires connect.result.Ok? && Serves(server, Run(w, steps, config).data)
    ensures who in Run(w, steps, config).clients
    ensures Reads(Run(w, steps, config).clients[who].cookie, connect, malformed, config, server,
                  Replay(Register(None, None), steps, who).committed)
  {
    assert View(w, who, config) == Register(None, None);
    RunRefinesRegisters(w, steps, config, who);
    var w' := Run(w, steps, config);
    FutureReads(w'.clients[who].cookie, connect, malformed, config, server, w'.data);
  }

  /** Read your last write, while it has not expired. */
  lemma ReadsLastWrite(w: World, before: seq<Step>, edit: Step, others: seq<Step>, commit: Step, after: seq<Step>,
                       config: Config, connect: Promise<Connection>, malformed: Error, server: Server)
    requires edit.SetValue? || edit.RemoveValue?
    requires commit.Commit? && commit.who == edit.who
    requires forall s <- others :: s.who != edit.who
    requires forall s <- after :: s.who == edit.who ==> !s.Commit? && !s.Expire?
    requires IsInitial(w) && edit.who in w.clients && ShowsApart(config)
    requires CanRun(w, before + [edit] + others + [commit] + after, config)
    requires connect.result.Ok? && Serves(server, Run(w, before + [edit] + others + [commit] + after, config).data)
    ensures var w' := Run(w, before + [edit] + others + [commit] + after, config);
            && edit.who in w'.clients
            && Reads(w'.clients[edit.who].cookie, connect, malformed, config, server,
                     if edit.SetValue? then Some(edit.value) else None)
  {
    var steps := before + [edit] + others + [commit] + after;
    ReadsOwnLastCommit(w, steps, config, edit.who, connect, malformed, server);
    LastWriteIsCommitted(before, edit, others, commit, after);
  }

  // ---- What the server holds ----

  /** The client's cookie names the session under the key. */
  ghost predicate Holds(w: World, who: Who, key: string, config: Config) {
    who in w.clients && Id(w.clients[who]).Some? && KeyName(config, Id(w.clients[who]).value) == key
  }

  /** Every entry is that of some client's cookie, and is kept for the configured
      time. */
  ghost predicate Tidy(w: World, config: Config) {
    forall key <- w.data :: w.data[key].lifetime == config.timeout && exists who :: Holds(w, who, key, config)
  }

  lemma StepKeepsTidy(w: World, step: Step, config: Config)
    requires Consistent(w, config) && Tidy(w, config) && Enabled(w, step) && ShowsApart(config)
    ensures Tidy(Next(w, step, config), config)
  {
    var w' := Next(w, step, config);
    StepMovesOwnId(w, step, config);
    forall key <- w'.data
      ensures w'.data[key].lifetime == config.timeout && exists who :: Holds(w', who, key, config)
    {
      OwnEntryFollows(w, step, config, key);
      if !Holds(w', step.who, key, config) {
        var who :| Holds(w, who, key, config);
        assert Holds(w', who, key, config);
      }
    }
  }

  /** After a step, an entry not under its client's key was there before, and not
      under its client's key. */
  lemma OwnEntryFollows(w: World, step: Step, config: Config, key: string)
    requires Enabled(w, step) && Consistent(w, config) && Tidy(w, config) && key in Next(w, step, config).data
    ensures var w' := Next(w, step, config);
            && w'.data[key].lifetime == config.timeout
            && (!Holds(w', step.who, key, config) ==> key in w.data && !Holds(w, step.who, key, config))
  {
    var cl := w.clients[step.who];
    if step.Commit? {
      WrittenIsStored(cl.open.value, config, cl.cookie, step.newId, w.data);
    }
  }

  /** After any history from the start the server holds nothing but sessions that
      clients' cookies name, each for the configured time. */
  lemma EntriesAreCookies(w: World, steps: seq<Step>, config: Config)
    requires IsInitial(w) && CanRun(w, steps, config) && ShowsApart(config)
    ensures Tidy(Run(w, steps, config), config)
  {
    RunKeepsTidy(w, steps, config);
  }

  lemma {:induction false} RunKeepsTidy(w: World, steps: seq<Step>, config: Config)
    requires Consistent(w, config) && Tidy(w, config) && CanRun(w, steps, config) && ShowsApart(config)
    ensures Tidy(Run(w, steps, config), config)
    decreases |steps|
  {
    if steps != [] {
      StepKeepsConsistent(w, steps[0], config);
      StepKeepsTidy(w, steps[0], config);
      RunKeepsTidy(Next(w, steps[0], config), steps[1..], config);
    }
  }
}
