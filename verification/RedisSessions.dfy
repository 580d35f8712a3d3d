/** The Redis session backend: the future that fetches a session, and the command
    that writes it back. */
module RedisSessions {
  import opened Outcomes
  import opened Sessions

  datatype Connection = Connection

  /** The backend's configuration; `show` prints a session id. */
  datatype Config = Config(keyPrefix: string, timeout: Option<nat>, show: Uuid -> string)

  function KeyName(config: Config, id: Uuid): string {
    config.keyPrefix + ":" + config.show(id)
  }

  /** The key of a session is the prefix, a colon and the printed id. */
  lemma KeyNameText(config: Config, id: Uuid)
    ensures var key, n := KeyName(config, id), |config.keyPrefix|;
            |key| > n && key[..n] == config.keyPrefix && key[n] == ':' && key[n + 1..] == config.show(id)
  {}

  /** Different sessions have different keys. */
  lemma KeyNamesDiffer(config: Config, a: Uuid, b: Uuid)
    ensures KeyName(config, a) == KeyName(config, b) <==> config.show(a) == config.show(b)
  {
    KeyNameText(config, a);
    KeyNameText(config, b);
  }

  datatype ReadState =
    | Failed(error: Option<Error>)
    | Connecting(connect: Future<Connection>, sessionId: Option<Uuid>)
    | Fetch(fetch: Future<Option<string>>, id: Uuid)
    | Done

  /** What the server will answer to a `GET` of a key. */
  type Server = string -> Promise<Option<string>>

  /** How `RedisBackend::apply` starts: it fails on a malformed cookie. */
  function Start(cookie: Option<Cookie>, connect: Promise<Connection>, malformed: Error): ReadState {
    match cookie
    case None => Connecting(Running(connect), None)
    case Some(SessionId(id)) => Connecting(Running(connect), Some(id))
    case Some(Garbage(_)) => Failed(Some(malformed))
  }

  type ReadCall = Call<Result<Async<Draft>, Error>>

  function Recall<T, U>(call: Call<Result<Async<T>, Error>>): Call<Result<Async<U>, Error>>
    requires call.Returned? && call.value.Ok? ==> call.value.value.NotReady?
  {
    match call
    case Panicked => Panicked
    case Returned(Err(err)) => Returned(Err(err))
    case Returned(Ok(NotReady)) => Returned(Ok(NotReady))
  }

  function PollFetch(fetch: Future<Option<string>>, id: Uuid): (ReadState, ReadCall) {
    var (fetch', x) := PollFuture(fetch);
    var call: PollCall<Option<string>> := x;
    match call
    case Returned(Ok(Ready(Some(value)))) => (Done, Returned(Ok(Ready(Draft(Some(id), Some(value))))))
    case Returned(Ok(Ready(None))) => (Done, Returned(Ok(Ready(Draft(None, None)))))
    case _ => (Fetch(fetch', id), Recall(call))
  }

  /** One poll of the future that reads a session. */
  function PollRead(state: ReadState, config: Config, server: Server): (ReadState, ReadCall) {
    match state
    case Failed(None) => (state, Panicked)
    case Failed(Some(err)) => (Failed(None), Returned(Err(err)))
    case Done => (state, Panicked)
    case Fetch(fetch, id) => PollFetch(fetch, id)
    case Connecting(connect, sessionId) =>
      var (connect', call) := PollFuture(connect);
      match call
      case Returned(Ok(Ready(_))) =>
        if sessionId.None? then (Done, Returned(Ok(Ready(Draft(None, None)))))
        else PollFetch(Running(server(KeyName(config, sessionId.value))), sessionId.value)
      case _ => (Connecting(connect', sessionId), Recall(call))
  }

  class ReadFuture {
    const config: Config
    const server: Server
    var state: ReadState

    constructor (config: Config, server: Server, cookie: Option<Cookie>, connect: Promise<Connection>, malformed: Error)
      ensures this.config == config && this.server == server && state == Start(cookie, connect, malformed)
    {
      this.config := config;
      this.server := server;
      state := match cookie
               case None => Connecting(Running(connect), None)
               case Some(SessionId(id)) => Connecting(Running(connect), Some(id))
               case Some(Garbage(_)) => Failed(Some(malformed));
    }

    method Poll() returns (call: ReadCall)
      modifies this
      ensures (state, call) == PollRead(old(state), config, server)
    {
      while true
        invariant PollRead(state, config, server) == PollRead(old(state), config, server)
        decreases if state.Connecting? then 1 else 0
      {
        var conn: Option<Connection>, value: Option<string> := None, None;
        match state {
          case Failed(error) =>
            state := Failed(None);
            return if error.Some? then Returned(Err(error.value)) else Panicked;
          case Connecting(connect, sessionId) =>
            var (connect', x) := PollFuture(connect);
            match x {
              case Returned(Ok(Ready(c))) => conn, value := Some(c), None;
              case _ =>
                state := Connecting(connect', sessionId);
                return Recall(x);
            }
          case Fetch(fetch, id) =>
            var (fetch', x) := PollFuture(fetch);
            match x {
              case Returned(Ok(Ready(v))) => conn, value := Some(Connection), v;
              case _ =>
                state := Fetch(fetch', id);
                return Recall(x);
            }
          case Done =>
            return Panicked;
        }

        var was := state;
        state := Done;
        match (was, conn, value) {
          case (Connecting(_, Some(id)), Some(_), None) =>
            state := Fetch(Running(server(KeyName(config, id))), id);
          case (Fetch(_, id), Some(_), Some(v)) =>
            return Returned(Ok(Ready(Draft(Some(id), Some(v)))));
          case (Connecting(_, None), Some(_), None) =>
            return Returned(Ok(Ready(Draft(None, None))));
          case (Fetch(_, _), Some(_), None) =>
            return Returned(Ok(Ready(Draft(None, None))));
          case _ =>
            assert false;
        }
      }
    }
  }

  // ---- What a read amounts to ----

  datatype ReadOutcome = ReadOutcome(result: Result<Draft, Error>, waits: nat)

  /** A session fetched by id, or none if the server has no value for it. */
  function Fetched(id: Uuid, value: Option<string>): Draft {
    if value.Some? then Draft(Some(id), value) else Draft(None, None)
  }

  function FetchOutcome(p: Promise<Option<string>>, id: Uuid): ReadOutcome {
    match p.result
    case Ok(value) => ReadOutcome(Ok(Fetched(id, value)), p.pending)
    case Err(err) => ReadOutcome(Err(err), p.pending)
  }

  /** The states a poll may find before the future has answered. */
  predicate Live(state: ReadState) {
    match state
    case Failed(error) => error.Some?
    case Connecting(connect, _) => connect.Running?
    case Fetch(fetch, _) => fetch.Running?
    case Done => false
  }

  /** What a live state still has to answer: connect, then fetch the session of
      the client's id if it sent one. */
  function Pending(state: ReadState, config: Config, server: Server): ReadOutcome
    requires Live(state)
  {
    match state
    case Failed(error) => ReadOutcome(Err(error.value), 0)
    case Fetch(fetch, id) => FetchOutcome(fetch.promise, id)
    case Connecting(connect, sessionId) =>
      match connect.promise.result
      case Err(err) => ReadOutcome(Err(err), connect.promise.pending)
      case Ok(_) =>
        if sessionId.None? then ReadOutcome(Ok(Draft(None, None)), connect.promise.pending)
        else
          var o := FetchOutcome(server(KeyName(config, sessionId.value)), sessionId.value);
          o.(waits := connect.promise.pending + o.waits)
  }

  function NthPoll(state: ReadState, config: Config, server: Server, n: nat): ReadCall
    decreases n
  {
    var (state', call) := PollRead(state, config, server);
    if n == 0 then call else NthPoll(state', config, server, n - 1)
  }

  /** On every readiness schedule of the connection and the server, the future is
      not ready exactly as often as they are, then answers what they answer, and from
      then on panics; no poll up to its answer reaches an unexpected state. */
  lemma {:induction false} ReadAnswers(state: ReadState, config: Config, server: Server, n: nat)
    requires Live(state)
    ensures var o := Pending(state, config, server);
            NthPoll(state, config, server, n)
              == if n < o.waits then Returned(Ok(NotReady))
                 else if n > o.waits then Panicked
                 else match o.result
                      case Ok(d) => Returned(Ok(Ready(d)))
                      case Err(err) => Returned(Err(err))
    decreases n
  {
    var (state', call) := PollRead(state, config, server);
    var o := Pending(state, config, server);
    if o.waits > 0 {
      assert Live(state') && Pending(state', config, server) == o.(waits := o.waits - 1);
      if n > 0 {
        ReadAnswers(state', config, server, n - 1);
      }
    } else if n > 0 {
      AnsweredPanics(state', config, server, n - 1);
    }
  }

  /** The states after an answer. */
  ghost predicate Answered(state: ReadState) {
    match state
    case Failed(error) => error.None?
    case Connecting(connect, _) => connect.Spent?
    case Fetch(fetch, _) => fetch.Spent?
    case Done => true
  }

  lemma {:induction false} AnsweredPanics(state: ReadState, config: Config, server: Server, n: nat)
    requires Answered(state)
    ensures NthPoll(state, config, server, n) == Panicked
    decreases n
  {
    if n > 0 {
      AnsweredPanics(PollRead(state, config, server).0, config, server, n - 1);
    }
  }

  /** A session has an id exactly when it has a value, and then it is the id of the
      client's cookie and the value the server holds under it. */
  ghost predicate IsWhole(d: Draft, cookie: Option<Cookie>, config: Config, server: Server) {
    && (d.sessionId.Some? <==> d.value.Some?)
    && (d.sessionId.Some? ==>
          && cookie == Some(SessionId(d.sessionId.value))
          && server(KeyName(config, d.sessionId.value)).result == Ok(d.value))
  }

  /** The states a future for the client's cookie goes through. */
  ghost predicate ReadsFor(state: ReadState, cookie: Option<Cookie>, config: Config, server: Server) {
    match state
    case Connecting(_, sessionId) => sessionId.Some? ==> cookie == Some(SessionId(sessionId.value))
    case Fetch(fetch, id) =>
      && cookie == Some(SessionId(id))
      && (fetch.Running? ==> fetch.promise.result == server(KeyName(config, id)).result)
    case _ => true
  }

  /** Whichever poll of the future answers with a session, the session is whole. */
  lemma ReadSessionsAreWhole(cookie: Option<Cookie>, connect: Promise<Connection>, malformed: Error, config: Config,
                             server: Server, n: nat, d: Draft)
    requires NthPoll(Start(cookie, connect, malformed), config, server, n) == Returned(Ok(Ready(d)))
    ensures IsWhole(d, cookie, config, server)
  {
    WholeFrom(Start(cookie, connect, malformed), cookie, config, server, n, d);
  }

  lemma {:induction false} WholeFrom(state: ReadState, cookie: Option<Cookie>, config: Config, server: Server, n: nat,
                                     d: Draft)
    requires ReadsFor(state, cookie, config, server)
    requires NthPoll(state, config, server, n) == Returned(Ok(Ready(d)))
    ensures IsWhole(d, cookie, config, server)
    decreases n
  {
    var (state', call) := PollRead(state, config, server);
    if n > 0 {
      assert ReadsFor(state', cookie, config, server);
      WholeFrom(state', cookie, config, server, n - 1, d);
    }
  }

  // ---- Writing back ----

  datatype Command =
    | Del(key: string)
    | Put(key: string, value: string)
    | PutFor(key: string, seconds: nat, value: string)

  datatype Written = Written(command: Option<Command>, jar: Option<Cookie>)

  /** `RedisSession::write`; `newId` is what `Uuid::new_v4` would return. */
  function Write(d: Draft, config: Config, jar: Option<Cookie>, newId: Uuid): Written {
    match (d.sessionId, d.value)
    case (Some(id), None) => Written(Some(Del(KeyName(config, id))), None)
    case (None, None) => Written(None, jar)
    case (_, Some(value)) =>
      var id := OrNew(d.sessionId, newId);
      var key := KeyName(config, id);
      Written(Some(if config.timeout.Some? then PutFor(key, config.timeout.value, value) else Put(key, value)),
              Some(SessionId(id)))
  }

  class RedisSession {
    const config: Config
    const sessionId: Option<Uuid>
    var value: Option<string>

    constructor (config: Config, d: Draft)
      ensures this.config == config && sessionId == d.sessionId && value == d.value
    {
      this.config := config;
      sessionId, value := d.sessionId, d.value;
    }

    method Set(v: string)
      modifies this
      ensures value == Some(v)
    {
      value := Some(v);
    }

    method Remove()
      modifies this
      ensures value == None
    {
      value := None;
    }

    method WriteBack(input: Input, newId: Uuid) returns (command: Option<Command>)
      modifies input
      ensures Written(command, input.cookie) == Write(Draft(sessionId, value), config, old(input.cookie), newId)
      ensures value.None? && sessionId.Some? ==> input.cookie == None
      ensures value.Some? ==> input.cookie == Some(SessionId(if sessionId.Some? then sessionId.value else newId))
    {
      match value {
        case Some(v) =>
          var id := OrNew(sessionId, newId);
          input.cookie := Some(SessionId(id));
          var key := KeyName(config, id);
          match config.timeout {
            case Some(seconds) => command := Some(PutFor(key, seconds, v));
            case None => command := Some(Put(key, v));
          }
        case None =>
          match sessionId {
            case Some(id) =>
              input.cookie := None;
              command := Some(Del(KeyName(config, id)));
            case None =>
              command := None;
          }
      }
    }
  }

  /** What the server stores under a key, and for how long unless that is forever. */
  datatype Entry = Entry(value: string, lifetime: Option<nat>)

  type Data = map<string, Entry>

  function Lookup(data: Data, key: string): Option<string> {
    if key in data then Some(data[key].value) else None
  }

  function Values(data: Data): map<string, string> {
    map key <- data :: data[key].value
  }

  /** The server's data after a command. */
  function Execute(command: Option<Command>, data: Data): Data {
    match command
    case None => data
    case Some(Del(key)) => data - {key}
    case Some(Put(key, value)) => data[key := Entry(value, None)]
    case Some(PutFor(key, seconds, value)) => data[key := Entry(value, Some(seconds))]
  }

  /** The server answers `GET` from its data, on whatever schedule. */
  ghost predicate Serves(server: Server, data: Data) {
    forall key :: server(key).result == Ok(Lookup(data, key))
  }

  /** What reading a session amounts to when the connection and the server answer. */
  function ReadFrom(data: Data, cookie: Option<Cookie>, config: Config, malformed: Error): Result<Draft, Error> {
    match cookie
    case None => Ok(Draft(None, None))
    case Some(Garbage(_)) => Err(malformed)
    case Some(SessionId(id)) =>
      var value := Lookup(data, KeyName(config, id));
      Ok(Draft(if value.Some? then Some(id) else None, value))
  }

  /** On every schedule the future for a cookie answers once, with the session the
      data holds for it, after as many waits as the connection and then the server
      take; a malformed cookie is an error at once. */
  lemma FutureReads(cookie: Option<Cookie>, connect: Promise<Connection>, malformed: Error, config: Config,
                    server: Server, data: Data)
    requires connect.result.Ok? && Serves(server, data)
    ensures var n := WaitsToRead(cookie, connect, config, server);
            NthPoll(Start(cookie, connect, malformed), config, server, n)
            == Finish(ReadFrom(data, cookie, config, malformed))
  {
    var n := WaitsToRead(cookie, connect, config, server);
    ReadAnswers(Start(cookie, connect, malformed), config, server, n);
    if cookie.Some? && cookie.value.SessionId? {
      var key := KeyName(config, cookie.value.id);
      assert server(key).result == Ok(Lookup(data, key));
    }
  }

  function WaitsToRead(cookie: Option<Cookie>, connect: Promise<Connection>, config: Config, server: Server): nat {
    match cookie
    case None => connect.pending
    case Some(Garbage(_)) => 0
    case Some(SessionId(id)) => connect.pending + server(KeyName(config, id)).pending
  }

  /** A failure to connect, and a failure to fetch, are the future's failures. */
  lemma FutureFails(cookie: Option<Cookie>, connect: Promise<Connection>, malformed: Error, config: Config,
                    server: Server)
    requires cookie.Some? ==> cookie.value.SessionId?
    ensures connect.result.Err? ==>
              NthPoll(Start(cookie, connect, malformed), config, server, connect.pending)
              == Returned(Err(connect.result.error))
    ensures connect.result.Ok? && cookie.Some? && server(KeyName(config, cookie.value.id)).result.Err? ==>
              NthPoll(Start(cookie, connect, malformed), config, server, WaitsToRead(cookie, connect, config, server))
              == Returned(Err(server(KeyName(config, cookie.value.id)).result.error))
  {
    var state := Start(cookie, connect, malformed);
    ReadAnswers(state, config, server, connect.pending);
    ReadAnswers(state, config, server, WaitsToRead(cookie, connect, config, server));
  }

  function Finish(r: Result<Draft, Error>): ReadCall {
    match r
    case Ok(d) => Returned(Ok(Ready(d)))
    case Err(err) => Returned(Err(err))
  }

  /** What is stored after a session has been written: its value, under its own id
      or the new one if it has none, for the configured time, and the cookie names
      that id; a removed session is gone, with its cookie. */
  lemma WrittenIsStored(d: Draft, config: Config, jar: Option<Cookie>, newId: Uuid, data: Data)
    ensures var id, w := if d.sessionId.Some? then d.sessionId.value else newId, Write(d, config, jar, newId);
            var key := config.keyPrefix + ":" + config.show(id);
            if d.value.Some?
            then
              && Execute(w.command, data) == data[key := Entry(d.value.value, config.timeout)]
              && w.jar == Some(SessionId(id))
            else if d.sessionId.Some? then Execute(w.command, data) == data - {key} && w.jar == None
            else w.command == None && w.jar == jar
  {}

  /** Writing one session does not touch another: what a client with another id
      reads is the same before and after. */
  lemma OthersReadTheSame(d: Draft, config: Config, jar: Option<Cookie>, newId: Uuid, data: Data, other: Uuid,
                          malformed: Error)
    requires config.show(OrNew(d.sessionId, newId)) != config.show(other)
    ensures var data' := Execute(Write(d, config, jar, newId).command, data);
            ReadFrom(data', Some(SessionId(other)), config, malformed)
            == ReadFrom(data, Some(SessionId(other)), config, malformed)
  {
    KeyNamesDiffer(config, OrNew(d.sessionId, newId), other);
  }

  /** The command that stores what is stored for the client's session once more. */
  function Rewrite(cookie: Option<Cookie>, config: Config, data: Data): Option<Command> {
    match cookie
    case Some(SessionId(id)) =>
      var key := KeyName(config, id);
      if key !in data then None
      else if config.timeout.Some? then Some(PutFor(key, config.timeout.value, data[key].value))
      else Some(Put(key, data[key].value))
    case _ => None
  }

  /** A request that neither sets nor removes its session leaves the server's values
      as they are: no command for an absent session, and for a live one the same value
      under the same key again, with the client's cookie unchanged. */
  lemma UntouchedSessionIsKept(cookie: Option<Cookie>, connect: Promise<Connection>, malformed: Error, config: Config,
                               server: Server, data: Data, newId: Uuid)
    requires Serves(server, data)
    requires Pending(Start(cookie, connect, malformed), config, server).result.Ok?
    ensures var d := Pending(Start(cookie, connect, malformed), config, server).result.value;
            var w := Write(d, config, cookie, newId);
            && Values(Execute(w.command, data)) == Values(data)
            && w.jar == cookie
            && w.command == Rewrite(cookie, config, data)
            && (w.command.None? <==> d.sessionId.None?)
  {
    var state := Start(cookie, connect, malformed);
    var o := Pending(state, config, server);
    var d := o.result.value;
    ReadAnswers(state, config, server, o.waits);
    ReadSessionsAreWhole(cookie, connect, malformed, config, server, o.waits, d);
    if d.sessionId.Some? {
      var key := KeyName(config, d.sessionId.value);
      assert server(key).result == Ok(Lookup(data, key));
      assert Values(data)[key := data[key].value] == Values(data);
    }
  }

  /** What a request leaves in its session the client's next request finds: the
      value it set, or nothing once it has removed it. The request has read `d0` from
      the server, which may have forgotten the session the client's cookie names,
      and leaves `d`, with the id of `d0` and any value. */
  lemma NextReadFindsWrite(cookie: Option<Cookie>, server0: Server, data: Data, d0: Draft, d: Draft,
                           config: Config, newId: Uuid, connect: Promise<Connection>, malformed: Error, server: Server)
    requires connect.result.Ok?
    requires Serves(server0, data)
    requires Pending(Start(cookie, connect, malformed), config, server0).result == Ok(d0) && d.sessionId == d0.sessionId
    requires Serves(server, Execute(Write(d, config, cookie, newId).command, data))
    ensures var o := Pending(Start(Write(d, config, cookie, newId).jar, connect, malformed), config, server);
            o.result.Ok? && o.result.value.value == d.value
  {
    var w := Write(d, config, cookie, newId);
    if w.jar.Some? {
      var key := KeyName(config, w.jar.value.id);
      assert server(key).result.Ok? && server0(key).result.Ok?;
    }
  }
}
