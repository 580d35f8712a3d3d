/** The context handed to `preflight`, and the path leaves that use it. */
module PathContext {
  import opened Outcomes
  import opened PathCursor
  import opened Extraction
  import opened ActionSteps

  /** After `n` pops that found a segment: the next finds one if any is left. */
  lemma CountsOn(path: string, c: Cursor, n: nat)
    requires c.pos <= |path| && n <= |Segments(path, c)|
    ensures var d := Advance(path, c, n);
            var p := NextSegment(path, d);
            && p.cursor == Advance(path, c, n + 1)
            && (if n < |Segments(path, c)| then p.segment.Some? && p.cursor.pos > d.pos
                else p.segment.None? && p.cursor == d && d.pos == |path|)
  {
    AdvanceDrops(path, c, n);
    PopTakesFirst(path, Advance(path, c, n));
    AdvanceAdds(path, c, n, 1);
    assert Advance(path, Advance(path, c, n), 1) == NextSegment(path, Advance(path, c, n)).cursor;
  }

  /** The context handed to `preflight`: an immutable request path and a cursor
      that combinators may save, overwrite and restore. */
  class PreflightContext {
    const path: string
    var cursor: Cursor
    // the leaf actions preflighted so far
    ghost var probes: seq<PreflightEvent>

    ghost predicate Valid()
      reads this
    {
      cursor.pos <= |path|
    }

    constructor (path: string)
      requires IsPath(path)
      ensures Valid() && this.path == path && cursor == START && probes == []
    {
      this.path := path;
      cursor := START;
      probes := [];
    }

    method Next() returns (segment: Option<string>)
      requires Valid()
      modifies this`cursor
      ensures Valid()
      ensures Popped(segment, cursor) == NextSegment(path, old(cursor))
    {
      if cursor.pos == |path| {
        return None;
      }
      var offset := SlashAt(path[cursor.pos..]);
      if cursor.pos + offset < |path| {
        segment := Some(path[cursor.pos..cursor.pos + offset]);
        cursor := cursor.(pos := cursor.pos + offset + 1);
        cursor := cursor.(popped := cursor.popped + 1);
      } else {
        segment := Some(path[cursor.pos..]);
        cursor := cursor.(pos := |path|);
        cursor := cursor.(popped := cursor.popped + 1);
      }
    }

    function RemainingPath(): (s: string)
      requires Valid()
      reads this
      ensures path[..cursor.pos] + s == path
    {
      path[cursor.pos..]
    }

    /** `Iterator::count`: pops whatever is left. */
    method Count() returns (n: nat)
      requires Valid()
      modifies this`cursor
      ensures Valid()
      ensures n == |Segments(path, old(cursor))|
      ensures cursor == Advance(path, old(cursor), n)
      ensures cursor.pos == |path|
    {
      n := 0;
      ghost var start := cursor;
      PopTakesFirst(path, cursor);
      var segment := Next();
      while segment.Some?
        invariant Valid()
        invariant segment.None? ==> n == |Segments(path, start)|
        invariant segment.None? ==> cursor == Advance(path, start, n) && cursor.pos == |path|
        invariant segment.Some? ==> n < |Segments(path, start)|
        invariant segment.Some? ==> cursor == Advance(path, start, n + 1)
        decreases segment.Some?, |path| - cursor.pos
      {
        n := n + 1;
        CountsOn(path, start, n);
        segment := Next();
      }
    }
  }

  // ---- The leaves as methods on the context ----

  method RunStmt(s: Stmt, env: Env, decode: Decoder, cx: PreflightContext) returns (r: Result<Env, Error>)
    requires cx.Valid()
    modifies cx`cursor
    ensures cx.Valid()
    ensures Extracted(r, cx.cursor) == ExecStmt(s, env, cx.path, old(cx.cursor), decode)
  {
    match s {
      case Expect(text) =>
        var segment := cx.Next();
        r := if segment == Some(text) then Ok(env) else Err(NotFound);
      case Bind(ident, ty) =>
        var segment := cx.Next();
        match segment {
          case Some(text) => r := Assign(env, ident, decode(ty, text));
          case None => r := Err(NotFound);
        }
      case BindRest(ident, ty) =>
        var result := decode(ty, cx.RemainingPath());
        var _ := cx.Count();
        r := Assign(env, ident, result);
    }
  }

  method RunProgram(p: Program, decode: Decoder, cx: PreflightContext) returns (r: Result<Output, Error>)
    requires cx.Valid() && WellScoped(p)
    modifies cx`cursor
    ensures cx.Valid()
    ensures Extracted(r, cx.cursor) == ExecProgram(p, cx.path, old(cx.cursor), decode)
  {
    var env: Env := map[];
    ghost var start := cx.cursor;
    for k := 0 to |p.extracts|
      invariant cx.Valid()
      invariant ExecStmts(p.extracts, map[], cx.path, start, decode)
             == ExecStmts(p.extracts[k..], env, cx.path, cx.cursor, decode)
      invariant env.Keys == Binds(p.extracts[..k])
    {
      assert p.extracts[k..][0] == p.extracts[k] && p.extracts[k..][1..] == p.extracts[k + 1..];
      assert p.extracts[..k + 1] == p.extracts[..k] + [p.extracts[k]];
      var step := RunStmt(p.extracts[k], env, decode, cx);
      if step.Err? {
        return Err(step.error);
      }
      env := step.value;
    }
    assert p.extracts[..|p.extracts|] == p.extracts;
    r := Ok(OutputOf(p.outputIdents, env));
  }

  method RunExtractor(x: Extractor, cx: PreflightContext) returns (r: Result<Output, Error>)
    requires cx.Valid()
    modifies cx`cursor
    ensures cx.Valid()
    ensures Extracted(r, cx.cursor) == Extract(x, cx.path, old(cx.cursor))
  {
    match x {
      case Segment(encoded) =>
        var segment := cx.Next();
        r := if segment == Some(encoded) then Ok([]) else Err(NotFound);
      case Eos =>
        var segment := cx.Next();
        r := if segment == None then Ok([]) else Err(NotFound);
      case Param(ty, decode) =>
        var segment := cx.Next();
        match segment {
          case Some(text) => r := One(decode(ty, text));
          case None => r := Err(NotFound);
        }
      case Remains(ty, decode) =>
        var result := decode(ty, cx.RemainingPath());
        var _ := cx.Count();
        r := One(result);
      case Literal(items) =>
        r := Ok(items);
      case Compiled(components, decode) =>
        var p := ExtractPath(components);
        r := RunProgram(p, decode, cx);
      case Custom(probe) =>
        var p := probe(cx.path, cx.cursor);
        ghost var start := cx.cursor;
        for k := 0 to p.pops
          invariant cx.Valid()
          invariant Advance(cx.path, start, p.pops) == Advance(cx.path, cx.cursor, p.pops - k)
        {
          var _ := cx.Next();
        }
        r := p.result;
    }
  }
}
