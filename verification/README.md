# A verified model of finchers' endpoints, path literals and sessions

finchers builds HTTP services from *endpoints*. An endpoint is a tree of combinators
(`and`, `or`, `or_strict`, `map`, `map_err`, `and_then`, `recover`) over leaves that look at the
request path or read the request body. For each request the tree spawns a tree of mutable
*actions*. `AppFuture::poll_apply` first calls `preflight` on it, once, to route the request
along a cursor over the path, and then `poll_action` again and again until a result is there.
Every combinator is a small state machine full of `panic!`, `unreachable!`, `unwrap` and
`expect`.

The model has three layers for this machine, each proved against the next:

1. `Actions`, `Service`, `PathContext`, `PollContext`, `Extraction`: classes and methods that update
   fields in place with the source's branches and loops. `Actions.Action` is a heap tree whose
   nodes own their sub-actions; `Service.AppFuture` drives it. Ghost fields record which leaves were
   preflighted at which cursor, which leaves and futures were polled with which body slot, and how
   often the body was handed out.
2. `ActionSteps`: the same steps as functions on action trees as values, with panics as an
   explicit answer (`PathCursor` and `RequestBody` do the same for the cursor and for bodies).
3. `Endpoints`: what an endpoint means, without actions, states or polls. `Route` is the routing
   phase, `Run` the run phase with its result, what became of the body, and how many
   `NotReady` answers were given in all.

Leaves and closure futures answer `NotReady` an arbitrary number of times before their result,
so a statement about all endpoints is a statement about all readiness schedules. Closures are
arbitrary pure functions. Output tuples are sequences. An arbitrary one-shot leaf (`Custom`)
may pop any number of segments and answer anything.

On top of the meaning come the laws: what each leaf and combinator does with the answers of its
parts, `map` and `map_err` call by call (`CombinatorLaws`), which route a tree of `or`s or
`or_strict`s takes (`RoutingLaws`), `and` being associative poll for poll over whole runs, factoring
a common prefix out of an `or`, with the exact condition under which it changes nothing
(`SequencingLaws`), the body being handed out once and every reader of a stolen body noticing, and
results not depending on the schedule (`RunLaws`).

The remaining modules treat path literals (`PathLiteral` for the parser, its errors and its printer,
`Extraction` and `ExtractorLaws` for the code the derive macro emits, with the exact condition under
which it means the same as the chain of leaf endpoints), the thread-local context slot
(`ContextSlot`, shown to be lexical scoping) and the two session backends: `Sessions` has the steps of
many clients' requests and the private register each client should see, `InMemorySessions` and
`RedisClients` show that either backend implements these registers under every interleaving, and
`RedisSessions` models the Redis backend's future and commands.

Where the code and its documentation differ, the model follows the code. The documented default key
prefix of the Redis backend (`finchers-session/src/redis.rs:116`) is not the one in the code
(line 102); the prefix is a parameter here.

Paths are sequences of characters and positions are indices into them. This agrees with the source's byte
offsets on ASCII paths, and a slash is a single byte in any case. As in the source, a request path is taken to be non-empty
and to start with `/`.

## Model

| member | source | states |
|---|---|---|
| PathCursor.PopTakesFirst | src/action.rs:206-224 | a pop takes the first of the remaining segments, moves position and count together, and answers nothing exactly at the end of the path |
| PathCursor.WalkYieldsSegments | src/action.rs:150-158 | repeated popping yields, in order, the pieces after the first slash without one empty last piece, then nothing |
| PathCursor.AdvanceDrops | src/action.rs:206-224 | n pops drop n segments, or all, and count those actually popped |
| PathCursor.AdvanceStaysOnTrack | src/action.rs:192-196 | further pops from a reachable cursor reach only cursors of the same walk |
| PathCursor.CountOrdersPositions | src/action.rs:192-202 | on reachable cursors, positions stay in bounds, and count and position order cursors alike and determine each other |
| PathContext.PreflightContext.Next | src/action.rs:206-224 | the in-place pop is the specified one |
| PathContext.PreflightContext.Count | src/endpoint/syntax.rs:383-386 | counting exhausts the cursor, counts exactly the remaining segments and leaves it at the end |
| PollContext.ActionContext.Take | src/action.rs:282-288 | the very body the slot held is given out if it is still there, and is then gone; otherwise the "already stolen" error |
| RequestBody.DrainKeepsPayload | src/endpoints/body.rs:135-144 | whenever the receiving loop stops, what is buffered followed by what is to come is still the payload, and it owes one `NotReady` less; at the end nothing stays buffered, and after an error what came before it |
| RequestBody.PayloadIgnoresStalls | src/endpoints/body.rs:136-141 | removing the `NotReady` answers of a body changes none of its bytes |
| RequestBody.PayloadConcatenates | src/endpoints/body.rs:136-141 | the payload of a body in two parts is that of the parts in order, and there is one exactly when no chunk is broken |
| RequestBody.PayloadOfOne | src/endpoints/body.rs:136-141 | a chunk contributes its bytes, a `NotReady` one wait and no byte, an error itself |
| RequestBody.StallsAdd | src/endpoints/body.rs:136-141 | the waits of a body in two parts are those of both, or of the first if it is broken off |
| PollContext.ReceiveAll | src/endpoints/body.rs:128-147 | the nested loops of one poll make the specified transition of state, slot and answer |
| Extraction.Compile | finchers-macros/src/lib.rs:100-151 | every identifier in the emitted output tuple has an emitted binding |
| Extraction.EmitAllBinds | finchers-macros/src/lib.rs:113-135 | the emitted bindings carry exactly the identifiers numbered from the given one on |
| Extraction.ExtractPath | finchers-macros/src/lib.rs:100-137 | the loop over the components emits the specified program |
| PathContext.RunProgram | finchers-macros/src/lib.rs:145-148 | executing the emitted statements in place, with early return, has the specified result and cursor |
| PathContext.RunExtractor | src/endpoint/syntax.rs:186-388 | each path leaf, run on the context, answers and moves the cursor as specified |
| ActionsMeetEndpoints.PreflightRoutes | src/endpoint/ext/and.rs:73-133 | for every endpoint tree: preflighting its fresh actions answers what routing says and leaves that cursor, without panic, and what is left to poll owes exactly the run |
| ActionsMeetEndpoints.ProbesAreAttempts | src/endpoint/ext/or_strict.rs:64-90 | the machine preflights exactly the leaves that routing tries, at the cursors it tries them at, in that order |
| ActionsMeetEndpoints.PollProgresses | src/endpoint/ext/and.rs:87-147 | for every live action tree: a poll does not panic; it settles with what the tree owes, or spends one of the owed `NotReady` answers and leaves a live tree owing the rest |
| ActionsMeetEndpoints.SlotProgresses | src/endpoint/ext/and.rs:135-147 | the same for one half of an `And`, which is finished exactly when ready |
| ActionsMeetEndpoints.CollectProgresses | src/endpoints/body.rs:128-147 | the same for body collection, in whichever state it is |
| ActionsMeetEndpoints.PollStopsAtStall | src/endpoint/ext/and.rs:87-147 | from any state, a poll answers `NotReady` exactly when the last leaf or future it polled did, and none it polled before was not ready |
| Actions.Action.Preflight | src/action.rs:74-79 | in place: new state, cursor and answer are those of the specified step; the action stays well formed and owns nothing new |
| Actions.Action.PreflightAnd | src/endpoint/ext/and.rs:73-85 | `AndAction::preflight` in place, with early exit on the first half's failure |
| Actions.Action.PreflightOr | src/endpoint/ext/or.rs:61-121 | `OrAction::preflight` in place, with the cursor saved, replaced and restored |
| Actions.Action.PreflightOrStrict | src/endpoint/ext/or_strict.rs:60-93 | `OrStrictAction::preflight` in place, rewinding only when the left side fails |
| Actions.Action.PreflightMap | src/endpoint/ext/map.rs:54-61 | `MapAction::preflight` maps a completed output and passes everything else on |
| Actions.Action.PreflightMapErr | src/endpoint/ext/map_err.rs:55-62 | `MapErrAction::preflight` maps a rejection and passes everything else on |
| Actions.Action.PreflightAndThen | src/endpoint/ext/and_then.rs:60-69 | the closure runs during preflight when its argument is complete; the answer is then still incomplete |
| Actions.Action.PreflightRecover | src/endpoint/ext/recover.rs:59-68 | a rejection starts the recovery future and leaves the cursor where the failed child left it |
| Actions.Action.PollAction | src/action.rs:81-82 | in place: new state, body slot, answer and the leaves polled, in order, are those of the specified step |
| Actions.Action.PollAnd | src/endpoint/ext/and.rs:87-92 | the second half is polled only once the first is ready |
| Actions.Action.PollOr | src/endpoint/ext/or.rs:124-136 | only the kept side is polled, and its output tagged |
| Actions.Action.PollOrStrict | src/endpoint/ext/or_strict.rs:96-103 | only the kept side is polled |
| Actions.Action.PollAndThen | src/endpoint/ext/and_then.rs:71-83 | the loop polls the child until it is ready and from then on the closure's future; it terminates |
| Actions.Action.PollRecover | src/endpoint/ext/recover.rs:70-83 | the loop polls the child until it fails and from then on the recovery future; it terminates |
| Actions.Action.TakeItem | src/endpoint/ext/and.rs:58-62 | both outputs are taken, leaving both halves gone, or nothing is answered |
| Actions.SlotPreflight | src/endpoint/ext/and.rs:116-133 | `MaybeDone::preflight`: a completion is kept for later and answered as incomplete; a second call panics |
| Actions.SlotPoll | src/endpoint/ext/and.rs:135-147 | `MaybeDone::poll_action`: the loop turns a ready action into its output and terminates |
| Actions.SpawnAction | src/endpoint.rs:65-83 | a fresh, well-formed action tree in the initial state of the endpoint |
| Service.AppFuture.PollApply | src/service.rs:138-157 | one `poll_apply` in place: route first, then poll, in the same call, polling exactly the leaves the specified step polls; the loop terminates |
| Service.PollPays | src/service.rs:138-157 | a future that owes an outcome, polled once, spends one of its waits, or settles with the outcome when no wait is left; it never panics |
| Service.PollingServes | src/service.rs:138-157 | for every endpoint, path, body and schedule: the polls up to the last wait answer `NotReady`, the next yields the result and leftover body of the two-phase evaluation, and none panics |
| Service.WaitsAreStalls | src/service.rs:138-157 | no `poll_apply` is wasted: each one up to the last wait ends with the one leaf or future that was not ready, and the settling one meets none |
| Service.Drive | src/service.rs:92-157 | driving a fresh future to completion ends, with the result, leftover body and number of `NotReady` answers of the two-phase evaluation |
| CombinatorLaws.MapServes | src/endpoint/ext/map.rs:54-68 | every `poll_apply` of `e.map(f)` answers what it answers for `e`, with `f` applied to an output and every rejection, error, wait and panic as it is, polls the same leaves and leaves the same body |
| CombinatorLaws.MapErrServes | src/endpoint/ext/map_err.rs:55-66 | the same for `e.map_err(g)`, with `g` applied to an error |
| CombinatorLaws.MapChangesOutputOnly | src/endpoint/ext/map.rs:54-61 | at any cursor: a rejection or failure of `e` is that of `e.map(f)`, with cursor, body and waits |
| CombinatorLaws.MapErrChangesErrorOnly | src/endpoint/ext/map_err.rs:55-62 | at any cursor: an output of `e` is that of `e.map_err(g)`, and errors of routing and of the run are mapped once |
| CombinatorLaws.AndThenContinuesOutput | src/endpoint/ext/and_then.rs:60-83 | matches where `e` does; a failure of `e` passes through, and from an output the closure's future goes on with body and waits of `e` |
| CombinatorLaws.RecoverContinuesError | src/endpoint/ext/recover.rs:59-83 | always matches, where `e` left the cursor; an output of `e` passes through, and from an error of routing or of the run the closure's future goes on |
| CombinatorLaws.OrTagsOutput | src/endpoint/ext/or.rs:61-136 | the outcome is that of the side that popped more, the left one on a tie, tagged `Left` or `Right`; if neither matches, both errors, the right side's cursor and an untouched body |
| CombinatorLaws.OrStrictFallsBack | src/endpoint/ext/or_strict.rs:60-103 | the outcome is that of the left side if it matches, else that of the right side from the same cursor, else both errors |
| CombinatorLaws.AndRunsInOrder | src/endpoint/ext/and.rs:73-92 | nothing runs unless both halves match; then the second runs after an output of the first, with the body that one left, and the outputs are joined in order |
| CombinatorLaws.LeavesServe | src/endpoints/body.rs:72-147 | a raw reader gives the very stream of the request, a collector all its bytes parsed or the error that broke it off, a closed gate its error with the body untouched, a task its own result |
| CombinatorLaws.RoutingTwicePanics | src/endpoint/ext/and.rs:116-147 | actions with a one-shot leaf, an `and` or a choice on top panic when polled before `preflight` and when preflighted twice |
| CombinatorLaws.SettledFuturePanics | src/service.rs:138-157 | a future that routing has settled panics whenever it is polled again |
| CombinatorLaws.MapComposes | src/endpoint/ext/map.rs:54-68 | mapping twice is mapping once by the composition, and mapping is `and_then` with an instant answer |
| RoutingLaws.OrTakesBestRoute | src/endpoint/ext/or.rs:65-136 | a tree of `Or`s of any shape takes the leftmost of the matching routes that pop most segments; routing, result, cursor and body are that route's alone, tagged by its position |
| RoutingLaws.OrWinner | src/endpoint/ext/or.rs:72-115 | such a best route exists whenever the tree matches |
| RoutingLaws.OrFailsWhenAllFail | src/endpoint/ext/or.rs:107-114 | a tree of `Or`s is rejected exactly when all its routes are |
| RoutingLaws.OrStrictTakesFirstRoute | src/endpoint/ext/or_strict.rs:64-103 | a tree of `OrStrict`s of any shape takes the first matching route, started from the original cursor, whatever the later routes are |
| RoutingLaws.OrTriesAllRoutes | src/endpoint/ext/or.rs:66-70 | a tree of `Or`s tries the leaves of every route, from left to right, each route from the cursor the choice began with |
| RoutingLaws.OrStrictStopsAtFirstMatch | src/endpoint/ext/or_strict.rs:64-90 | a tree of `OrStrict`s tries the leaves of its routes in order, each route from the cursor the choice began with, and no leaf of a route after the first match |
| RoutingLaws.OrStrictMatches | src/endpoint/ext/or_strict.rs:77-84 | a tree of `OrStrict`s is rejected exactly when all its routes are |
| RoutingLaws.ChoiceFails | src/endpoint/ext.rs:95-103 | on total failure the nested `NotMatched` errors hold each route's own error at the route's position |
| RoutingLaws.RouteStaysOnTrack | src/action.rs:150-174 | no endpoint can move the cursor off the walk of the path |
| RoutingLaws.OrComparesPositions | src/endpoint/ext/or.rs:74-86 | comparing counts compares positions, and a tie means identical cursors |
| SequencingLaws.AndAssociates | src/endpoint/ext/and.rs:58-92 | both groupings route and run alike: flattened output, first error, cursor, body, waits |
| SequencingLaws.TwinsPreflightAlike | src/endpoint/ext/and.rs:73-133 | the machines of both groupings answer preflight alike and start polling in corresponding states |
| SequencingLaws.TwinsPollAlike | src/endpoint/ext/and.rs:87-147 | from corresponding states, failed and panicked ones included, a poll of either grouping polls the same leaves in the same order with the same body slot, gives the same answer and body, and, after every answer but ready, leaves corresponding states again (once ready, the same spent action) |
| SequencingLaws.GroupingsServeAlike | src/service.rs:138-157 | over whole runs: the n-th `poll_apply`, for every n, polls the same leaves in the same order for both groupings of three endpoints, gives the same answer and leaves the same body |
| SequencingLaws.UnitIsNeutral | src/endpoint.rs:165-188 | `unit()` on either side of `and` changes neither outcome nor cursor |
| SequencingLaws.UnitServesAlike | src/service.rs:138-157 | with `unit()` on either side, every `poll_apply` up to the one that settles polls the same leaves, answers the same and leaves the same body |
| SequencingLaws.OutputsHaveArity | src/common/combine.rs:9-48 | every output has the length its endpoint's type gives it |
| SequencingLaws.FactoringRoutesAlike | src/endpoint/ext/or.rs:66-115 | `a.and(b.or(c))` and `a.and(b).or(a.and(c))` accept the same requests and leave the same cursor; errors agree unless `a` itself fails |
| SequencingLaws.FactoringPreservesRuns | src/endpoint/ext/or.rs:66-136 | both forms succeed or fail together with the same body and waits, and are equal if and only if they fail or `a` contributed no output. The type system lets `or` join one-element outputs only (lines 27-31), so both forms are programs only when `a` has no output, where they are equal; the other direction shows that this bound is needed and speaks about no program |
| SequencingLaws.FactoringEmptyPrefix | src/lib.rs:25-26 | for a prefix without outputs that matches, factoring changes nothing at all |
| RunLaws.PollTakesOnce | src/action.rs:282-288 | no poll, from any state, hands out the body twice |
| RunLaws.PollTracksBody | src/action.rs:282-288 | from any state: if a poll takes the body, a body reader among the leaves it polled took it, everything polled before found it, and everything polled later found it gone |
| RunLaws.BodyIsHandedOnce | src/service.rs:138-157 | however often a future is polled, its body is handed to at most one leaf |
| RunLaws.StolenBodyIsNoticed | src/action.rs:282-288 | for every endpoint, wherever in it the body is read: with the body gone, a run that would have taken it fails (with "already stolen" where nothing inside maps or recovers errors), and every other run is unchanged |
| RunLaws.SecondReaderIsRefused | src/endpoints/body.rs:72-74 | in an `And` whose first half got through having taken the body, a second half that would have taken it fails, with the "already stolen" error unless a `map_err` or `recover` inside it changes that, and one that would not have taken it runs as ever |
| RunLaws.ReaderTakes | src/endpoints/body.rs:68-147 | an endpoint with a reader on every way through succeeds only if it found the body, and has then taken it |
| RunLaws.TwoReadersFail | src/endpoints/body.rs:72-74 | an `And` of two such endpoints never succeeds, behind whatever path or verb prefixes and error mappings the readers stand |
| RunLaws.ReceiveAllYieldsPayload | src/endpoints/body.rs:128-147 | `receive_all` yields all chunks in order, or the body's error, after exactly the body's `NotReady` answers, however these are interleaved |
| RunLaws.RetimingKeepsOutcome | src/service.rs:138-157 | other readiness schedules of tasks, closure futures and the body itself give the same routing, result and leftover body; an endpoint that hands out the raw stream must be given the same body, as it can show the body's own schedule |
| ExtractorLaws.CompilationPreservesMeaning | finchers-macros/src/lib.rs:102-147 | the emitted extractor and the chain of `segment`, `param` and `remains` agree from every cursor of every path in success, outputs, error and cursor, if encoding leaves the literals alone |
| ExtractorLaws.AgreeIffFixesReached | finchers-macros/src/lib.rs:102-147 | the exact condition, for every component list, every encoder and every set of characters that stand in request paths: the two agree on all paths that can be received if and only if encoding leaves alone every literal that some such path reaches and that can stand in one as it is or encoded; a literal is out of reach behind a parameter whose type no such segment has, or behind a catch-all |
| ExtractorLaws.AcceptedLiteralAgrees | src/endpoint/syntax.rs:152-158 | for every accepted path literal whose literals can be sent encoded and whose single parameters' types have a segment that can be sent: the two agree on all paths that can be received if and only if encoding leaves all its literals alone |
| ExtractorLaws.ExecCollects | finchers-macros/src/lib.rs:102-147 | the emitted statements bind the matched values to consecutive identifiers and disturb no earlier binding |
| ExtractorLaws.EncodedLiteralDiverges | src/endpoint/syntax.rs:152-158 | for a literal that percent-encoding changes: on the path a client sends, with the literal encoded, only the chain accepts; on the path with the literal unencoded only the emitted extractor does |
| ExtractorLaws.ExtractorAccepts | finchers-macros/src/lib.rs:102-123 | without catch-all: success exactly when the next segments fit the components one for one; then their values, and as many segments popped |
| ExtractorLaws.CatchAllExtractorAccepts | finchers-macros/src/lib.rs:125-135 | with a catch-all last: success exactly when also the rest of the path parses; the cursor is then at the end |
| ExtractorLaws.MatchersAccept | src/endpoint/syntax.rs:186-242 | `eos` accepts exactly at the end of the path and `segment` exactly its encoded text, both without output and with "not found" otherwise; both pop a segment even when they reject |
| ExtractorLaws.ParamsAccept | src/endpoint/syntax.rs:300-388 | `param` gives the decoded next segment or the decoder's error, "not found" at the end of the path, and pops the segment in any case; `remains` decodes all that is left and exhausts the path |
| ExtractorLaws.OthersAccept | src/endpoint.rs:165-240 | `value` gives its items and leaves the cursor; any other one-shot leaf gives its own answer and pops what it asks for |
| PathLiteral.ParsePath | finchers-macros/src/lib.rs:160-232 | the loop over the segments computes the specified parse, error for error |
| PathLiteral.TrimIff | finchers-macros/src/lib.rs:161 | the trimmed literal is the one text with no white space at its ends that gives the literal when padded with white space |
| PathLiteral.WhiteIsListed | finchers-macros/src/lib.rs:161 | white space is the 25 characters with that Unicode property |
| PathLiteral.ParseIgnoresPadding | finchers-macros/src/lib.rs:161 | white space around a literal changes neither its components nor its error |
| PathLiteral.RejectedWith | finchers-macros/src/lib.rs:160-232 | which error a rejected literal gets: empty, no leading slash, or that of the first segment with something wrong |
| PathLiteral.ParseIffDenotes | finchers-macros/src/lib.rs:160-232 | a literal parses to a component list if and only if, trimmed, it is that list printed, perhaps with a trailing slash where one is allowed |
| PathLiteral.RejectsOutsideGrammar | finchers-macros/src/lib.rs:160-232 | exactly the literals outside this grammar are rejected |
| PathLiteral.PrintAfterParse | finchers-macros/src/lib.rs:160-232 | printing the parse of an accepted literal gives it back trimmed and without one trailing slash |
| PathLiteral.ParseAfterPrint | finchers-macros/src/lib.rs:160-232 | parsing a printed list gives it back if and only if it is well formed and its last segment does not end in white space |
| ContextSlot.TaskContext.Run | src/service.rs:236-246 | replacing and restoring the cell in place, with unwinding, is the specified execution |
| ContextSlot.SlotIsRestored | src/service.rs:217-246 | after any nesting of `set`, `with` and `try_with`, unwinding or not, the slot holds what it held before |
| ContextSlot.LendsAreWellNested | src/service.rs:242-246 | every context lent is the one installed by the immediately enclosing `set` |
| ContextSlot.NoContextIsLentTwice | src/service.rs:265-278 | between two active closures that were lent a context lies a newer `set` |
| ContextSlot.SlotIsLexical | src/service.rs:217-278 | the slot is lexical scoping: a context is lent exactly by a `with` or `try_with` standing directly in a `set`, namely that `set`'s, and code unwinds exactly by its own panics and by a `with` standing elsewhere |
| ContextSlot.GuardedCodeIsServed | src/service.rs:265-273 | code without panics whose `with`s all stand directly in a `set` never unwinds, and each of its `with`s and `try_with`s standing so is lent a context |
| ContextSlot.NothingToLend | src/service.rs:265-273 | without a context `with` panics and `try_with` does not, and neither runs its closure |
| InMemorySessions.InMemoryBackend.ReadValue | finchers-session/src/in_memory.rs:84-96 | the stored value for the cookie's id, with the id; nothing without a cookie; an error for a malformed one |
| InMemorySessions.InMemorySession.WriteImpl | finchers-session/src/in_memory.rs:139-150 | storage and cookie after a write, for each of the four cases of id and value; a session that has an id is stored under that id and keeps its cookie |
| InMemorySessions.InMemorySession.WithHandler | finchers-session/src/session.rs:50-61 | the handler runs first; a failing handler writes nothing |
| Sessions.FailedRequestIsUndone | finchers-session/src/session.rs:50-61 | in the register a request that fails leaves no trace of its edits |
| Sessions.LastWriteIsCommitted | finchers-session/src/session.rs:50-61 | in the register the last edit before a commit is what stays until the next commit or expiry |
| InMemorySessions.StepMovesOwnRegister | finchers-session/src/in_memory.rs:53-111 | a step of one client moves that client's register and no other |
| InMemorySessions.RunRefinesRegisters | finchers-session/src/in_memory.rs:53-150 | under every interleaving, the shared storage gives each client a private register determined by its own steps |
| InMemorySessions.ReadsOwnLastCommit | finchers-session/src/in_memory.rs:84-96 | what a request reads is what its client's own history committed last, and it is never turned away |
| InMemorySessions.ReadsLastWrite | finchers-session/src/in_memory.rs:138-151 | after a committed edit a client reads the value it set, or nothing if it removed it, whatever the others do meanwhile |
| InMemorySessions.RunRefinesIds | finchers-session/src/in_memory.rs:138-151 | under every interleaving, the id in a client's cookie is determined by its own steps: a commit gives one to a new session, keeps that of an old one, and takes it away with the value |
| InMemorySessions.SessionKeepsId | finchers-session/src/in_memory.rs:141-144 | a client keeps its session id as long as it does not remove its session |
| InMemorySessions.StoredIdsAreCookies | finchers-session/src/in_memory.rs:98-111 | after any history the storage holds exactly the sessions the clients' cookies name |
| InMemorySessions.RemovalLeavesNothing | finchers-session/src/in_memory.rs:145-148 | committing a removal leaves neither an entry nor a cookie, and touches nothing else |
| InMemorySessions.GarbageIsTurnedAway | finchers-session/src/in_memory.rs:86-90 | a request with a malformed cookie is refused and changes nothing |
| RedisSessions.ReadFuture.Poll | finchers-session/src/redis.rs:201-274 | the loop with its replaced states is the specified poll; its unexpected-condition arm is dead |
| RedisSessions.ReadAnswers | finchers-session/src/redis.rs:201-274 | on every schedule the future is not ready as often as connection and server are, then answers, and panics from then on; up to its answer it reaches no unexpected state |
| RedisSessions.ReadSessionsAreWhole | finchers-session/src/redis.rs:238-269 | whichever poll answers with a session, it has an id exactly when it has a value, and they are the cookie's id and the server's value for it |
| RedisSessions.RedisSession.WriteBack | finchers-session/src/redis.rs:312-354 | command and cookie of a write, for each case of id, value and timeout; a written session keeps its id, a removed one loses its cookie |
| RedisSessions.UntouchedSessionIsKept | finchers-session/src/redis.rs:312-354 | without set or remove, no command if the server holds nothing for the client, and else the command that stores the stored value under the same key again; the stored values and the cookie stay as they were |
| RedisSessions.NextReadFindsWrite | finchers-session/src/redis.rs:201-354 | the next request reads what this one left in its session, also when the cookie it came with named a session the server had forgotten |
| RedisSessions.KeyNameText | finchers-session/src/redis.rs:73-75 | a key is the prefix, a colon and the printed id |
| RedisSessions.KeyNamesDiffer | finchers-session/src/redis.rs:73-75 | keys are equal exactly when the printed ids are |
| RedisSessions.FutureReads | finchers-session/src/redis.rs:201-274 | on every schedule the future answers with the session the server's data holds for the cookie's id, after the waits of the connection and then of the server, and at once with an error for a malformed cookie |
| RedisSessions.FutureFails | finchers-session/src/redis.rs:208-218 | a failure to connect or to fetch is the future's failure |
| RedisSessions.WrittenIsStored | finchers-session/src/redis.rs:312-354 | what the server holds and the cookie names after a write: the value under the session's own id, or the new one, for the configured time; a removed session is gone with its cookie |
| RedisSessions.OthersReadTheSame | finchers-session/src/redis.rs:312-354 | writing or deleting one session leaves what a client with another id reads |
| RedisClients.StepMovesOwnRegister | finchers-session/src/redis.rs:201-354 | a step of one client, or the expiry of its session, moves that client's register and no other |
| RedisClients.RunRefinesRegisters | finchers-session/src/redis.rs:201-354 | under every interleaving, with sessions expiring at any time, the server gives each client a private register determined by its own steps and expiries |
| RedisClients.ReadsOwnLastCommit | finchers-session/src/redis.rs:201-274 | the future of a client's next request answers with what the client's own history committed last and has not expired |
| RedisClients.ReadsLastWrite | finchers-session/src/redis.rs:201-354 | after a committed edit the client's next request reads the value it set, or nothing if it removed it, until it expires, whatever the others do |
| RedisClients.StepMovesOwnId | finchers-session/src/redis.rs:312-354 | a cookie changes only by its client's commits: a value keeps a live session's id or gets the new one, a removal takes the cookie of a live session away |
| RedisClients.EntriesAreCookies | finchers-session/src/redis.rs:312-354 | after any history the server holds nothing but sessions that clients' cookies name, each stored for the configured time |

## Left out

- The output types: an `Or` tags the whole tuple of its chosen side rather than the single element the type system guarantees, and closures take and return untyped values.
- Mutation of the request context by futures and closures (`Context::with` on headers or cookies); a closure or future depends on its arguments only.
- The `Context` argument of leaves that look at headers, the method or the query; on one request such a leaf is a `Custom` or `Literal` one-shot leaf, or the gate of a body reader.
- What the parsers for text, JSON and urlencoded bodies do; they are an arbitrary function of the received bytes.
- Percent-encoding and decoding; both are arbitrary functions.
- `syn`'s parsing of types; it is an arbitrary predicate on strings, and a type is its text.
- Response building, cookies and supplemental headers in `AppFuture::poll`, and everything in `src/output`, `src/error.rs`, `src/server`, `src/test.rs`.
- Type-erased endpoints (`src/endpoint/boxed.rs`), which forward every call.
- The verbs of `src/endpoint/syntax/verb.rs`, file system endpoints, the WebSocket handshake, the GraphQL and template crates, the cookie session backend: small finite domains, thin wrappers over other libraries, or foreign engines.
- A poisoned lock, a cookie header that cannot be parsed, and a failing jar in the session backends; the input is its one session cookie.
- The Redis wire protocol, when keys expire (they may at any time), and the future that awaits a write command, which only forwards the command's answer. In `RedisClients` a read and a write command are one step each.
- InMemorySessions.ReadsOwnLastCommit: starts from clients without a cookie; a client that forges another's id is outside it.
- RedisClients.ReadsOwnLastCommit: likewise.
