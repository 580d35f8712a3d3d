/** The statements the `ExtractPath` derive macro emits for a path literal, and
    the leaf actions that look at the request path. */
module Extraction {
  import opened Outcomes
  import opened PathCursor

  datatype Component =
    | Static(text: string)
    | SingleParam(ty: string)
    | CatchAllParam(ty: string)

  /** `from_encoded_str` of the type with the given name. */
  type Decoder = (string, string) -> Result<Value, Error>

  /** A statement of the emitted body. The identifier `__x_n` is the number n. */
  datatype Stmt =
    | Expect(text: string)
    | Bind(ident: nat, ty: string)
    | BindRest(ident: nat, ty: string)

  datatype Program = Program(extracts: seq<Stmt>, outputIdents: seq<nat>)

  function Binds(stmts: seq<Stmt>): set<nat> {
    set s | s in stmts && !s.Expect? :: s.ident
  }

  /** Every identifier in the final tuple has a binding (otherwise the emitted
      code would not compile). */
  ghost predicate WellScoped(p: Program) {
    forall x <- p.outputIdents :: x in Binds(p.extracts)
  }

  function Emit(component: Component, ident: nat): Stmt {
    match component
    case Static(text) => Expect(text)
    case SingleParam(ty) => Bind(ident, ty)
    case CatchAllParam(ty) => BindRest(ident, ty)
  }

  function Params(components: seq<Component>): nat {
    if components == [] then 0
    else (if components[0].Static? then 0 else 1) + Params(components[1..])
  }

  function EmitAll(components: seq<Component>, ident: nat): seq<Stmt> {
    if components == [] then []
    else
      [Emit(components[0], ident)]
      + EmitAll(components[1..], if components[0].Static? then ident else ident + 1)
  }

  lemma BindsCons(s: Stmt, stmts: seq<Stmt>)
    ensures Binds([s] + stmts) == (if s.Expect? then {} else {s.ident}) + Binds(stmts)
  {
    assert s in [s] + stmts;
    assert forall t <- stmts :: t in [s] + stmts;
  }

  /** The emitted bindings are numbered consecutively. */
  lemma {:induction false} EmitAllBinds(components: seq<Component>, ident: nat)
    ensures forall x :: x in Binds(EmitAll(components, ident)) <==> ident <= x < ident + Params(components)
  {
    if components != [] {
      var s := Emit(components[0], ident);
      var next := if components[0].Static? then ident else ident + 1;
      EmitAllBinds(components[1..], next);
      BindsCons(s, EmitAll(components[1..], next));
    }
  }

  function Compile(components: seq<Component>): (p: Program)
    ensures WellScoped(p)
  {
    EmitAllBinds(components, 0);
    Program(EmitAll(components, 0), seq(Params(components), i => i))
  }

  lemma EmitAllAppend(cs: seq<Component>, c: Component, ident: nat)
    ensures Params(cs + [c]) == Params(cs) + if c.Static? then 0 else 1
    ensures EmitAll(cs + [c], ident) == EmitAll(cs, ident) + [Emit(c, ident + Params(cs))]
  {
    if cs == [] {
      assert cs + [c] == [c];
      assert [c][1..] == [];
    } else {
      assert (cs + [c])[1..] == cs[1..] + [c];
      EmitAllAppend(cs[1..], c, if cs[0].Static? then ident else ident + 1);
    }
  }

  /** The macro's loop over the components. */
  method ExtractPath(components: seq<Component>) returns (p: Program)
    ensures p == Compile(components)
  {
    var outputIdents: seq<nat> := [];
    var extracts := [];
    for k := 0 to |components|
      invariant extracts == EmitAll(components[..k], 0)
      invariant outputIdents == seq(Params(components[..k]), i => i)
    {
      assert components[..k + 1] == components[..k] + [components[k]];
      EmitAllAppend(components[..k], components[k], 0);
      match components[k] {
        case Static(text) =>
          extracts := extracts + [Expect(text)];
        case SingleParam(ty) =>
          var ident := |outputIdents|;
          extracts := extracts + [Bind(ident, ty)];
          outputIdents := outputIdents + [ident];
        case CatchAllParam(ty) =>
          var ident := |outputIdents|;
          extracts := extracts + [BindRest(ident, ty)];
          outputIdents := outputIdents + [ident];
      }
    }
    assert components[..|components|] == components;
    p := Program(extracts, outputIdents);
  }

  // ---- Meaning of the emitted code ----

  type Env = map<nat, Value>

  datatype Extracted<+T> = Extracted(result: Result<T, Error>, cursor: Cursor)

  function ExecStmt(s: Stmt, env: Env, path: string, c: Cursor, decode: Decoder): (r: Extracted<Env>)
    requires c.pos <= |path|
    ensures r.cursor.pos <= |path|
    ensures r.result.Ok? ==> r.result.value.Keys == env.Keys + Binds([s])
  {
    assert s in [s];
    match s
    case Expect(text) =>
      var p := NextSegment(path, c);
      Extracted(if p.segment == Some(text) then Ok(env) else Err(NotFound), p.cursor)
    case Bind(ident, ty) =>
      var p := NextSegment(path, c);
      (match p.segment
       case None => Extracted(Err(NotFound), p.cursor)
       case Some(text) => Extracted(Assign(env, ident, decode(ty, text)), p.cursor))
    case BindRest(ident, ty) =>
      var end := Advance(path, c, |Segments(path, c)|);
      Extracted(Assign(env, ident, decode(ty, path[c.pos..])), end)
  }

  function Assign(env: Env, ident: nat, v: Result<Value, Error>): (r: Result<Env, Error>)
    ensures r.Ok? ==> r.value.Keys == env.Keys + {ident}
  {
    match v
    case Ok(x) => Ok(env[ident := x])
    case Err(e) => Err(e)
  }

  function ExecStmts(stmts: seq<Stmt>, env: Env, path: string, c: Cursor, decode: Decoder): (r: Extracted<Env>)
    requires c.pos <= |path|
    ensures r.cursor.pos <= |path|
    ensures r.result.Ok? ==> r.result.value.Keys == env.Keys + Binds(stmts)
    decreases |stmts|
  {
    if stmts == [] then Extracted(Ok(env), c)
    else
      assert stmts == [stmts[0]] + stmts[1..];
      assert Binds(stmts) == Binds([stmts[0]]) + Binds(stmts[1..]);
      var first := ExecStmt(stmts[0], env, path, c, decode);
      match first.result
      case Err(e) => Extracted(Err(e), first.cursor)
      case Ok(env') => ExecStmts(stmts[1..], env', path, first.cursor, decode)
  }

  /** The output tuple: the values bound to the given identifiers. */
  function OutputOf(idents: seq<nat>, env: Env): Output
    requires forall x <- idents :: x in env
  {
    seq(|idents|, i requires 0 <= i < |idents| => env[idents[i]])
  }

  function ExecProgram(p: Program, path: string, c: Cursor, decode: Decoder): (r: Extracted<Output>)
    requires c.pos <= |path| && WellScoped(p)
    ensures r.cursor.pos <= |path|
  {
    var r := ExecStmts(p.extracts, map[], path, c, decode);
    match r.result
    case Err(e) => Extracted(Err(e), r.cursor)
    case Ok(env) =>
      Extracted(Ok(OutputOf(p.outputIdents, env)), r.cursor)
  }

  // ---- Leaf actions on the path ----

  /** What any other one-shot action does with the cursor: it pops some segments
      and answers. */
  datatype Probe = Probe(pops: nat, result: Result<Output, Error>)

  datatype Extractor =
    | Segment(encoded: string)
    | Eos
    | Param(ty: string, decode: Decoder)
    | Remains(ty: string, decode: Decoder)
    | Literal(items: Output)
    | Compiled(components: seq<Component>, decode: Decoder)
    | Custom(probe: (string, Cursor) -> Probe)

  function One(v: Result<Value, Error>): Result<Output, Error> {
    match v
    case Ok(x) => Ok([x])
    case Err(e) => Err(e)
  }

  function Extract(x: Extractor, path: string, c: Cursor): (r: Extracted<Output>)
    requires c.pos <= |path|
    ensures r.cursor.pos <= |path|
  {
    match x
    case Segment(encoded) =>
      var p := NextSegment(path, c);
      Extracted(if p.segment == Some(encoded) then Ok([]) else Err(NotFound), p.cursor)
    case Eos =>
      var p := NextSegment(path, c);
      Extracted(if p.segment == None then Ok([]) else Err(NotFound), p.cursor)
    case Param(ty, decode) =>
      var p := NextSegment(path, c);
      Extracted(if p.segment == None then Err(NotFound) else One(decode(ty, p.segment.value)), p.cursor)
    case Remains(ty, decode) =>
      Extracted(One(decode(ty, path[c.pos..])), Advance(path, c, |Segments(path, c)|))
    case Literal(items) =>
      Extracted(Ok(items), c)
    case Compiled(components, decode) =>
      ExecProgram(Compile(components), path, c, decode)
    case Custom(probe) =>
      var p := probe(path, c);
      Extracted(p.result, Advance(path, c, p.pops))
  }
}
