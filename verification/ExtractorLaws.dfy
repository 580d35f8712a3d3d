/** The code emitted for a path literal does what the chain of leaf endpoints for
    the same components does, and accepts exactly the paths it should. */
module ExtractorLaws {
  import opened Outcomes
  import opened PathCursor
  import opened Extraction
  import opened RequestBody
  import opened Endpoints
  import opened PathLiteral

  /** The leaf endpoint for a component: `segment`, `param` or `remains`.
      `segment` percent-encodes its text with `encode`. */
  function Leaf(component: Component, decode: Decoder, encode: string -> string): Extractor {
    match component
    case Static(text) => Segment(encode(text))
    case SingleParam(ty) => Param(ty, decode)
    case CatchAllParam(ty) => Remains(ty, decode)
  }

  /** The chain of leaf endpoints for a component list. */
  function LeafChain(components: seq<Component>, decode: Decoder, encode: string -> string): Endpoint {
    if components == [] then UNIT
    else And(Oneshot(Leaf(components[0], decode, encode)), LeafChain(components[1..], decode, encode))
  }

  predicate EncodingFixes(components: seq<Component>, encode: string -> string) {
    forall c <- components :: c.Static? ==> encode(c.text) == c.text
  }

  function Verbatim(text: string): string {
    text
  }

  /** Matching the leaves for the components one after the other, collecting
      their values. */
  function MatchLeaves(components: seq<Component>, path: string, c: Cursor, decode: Decoder, encode: string -> string)
    : (r: Extracted<Output>)
    requires c.pos <= |path|
    ensures r.cursor.pos <= |path|
  {
    if components == [] then Extracted(Ok([]), c)
    else
      var first := Extract(Leaf(components[0], decode, encode), path, c);
      if first.result.Err? then first
      else
        var rest := MatchLeaves(components[1..], path, first.cursor, decode, encode);
        Extracted(if rest.result.Ok? then Ok(first.result.value + rest.result.value) else rest.result, rest.cursor)
  }

  /** The match of the components with their literals taken as they are. */
  function Match(components: seq<Component>, path: string, c: Cursor, decode: Decoder): (r: Extracted<Output>)
    requires c.pos <= |path|
    ensures r.cursor.pos <= |path|
  {
    MatchLeaves(components, path, c, decode, Verbatim)
  }

  /** `r` binds the values of `out` to the identifiers from `ident` on, and agrees
      with `env` on the identifiers before them. */
  ghost predicate Collected(env: Env, r: Env, ident: nat, out: Output) {
    && (forall x | ident <= x < ident + |out| :: x in r && r[x] == out[x - ident])
    && (forall x <- env :: x < ident ==> x in r && r[x] == env[x])
  }

  lemma CollectedBind(env: Env, r: Env, ident: nat, v: Value, out: Output)
    requires Collected(env[ident := v], r, ident + 1, out)
    ensures Collected(env, r, ident, [v] + out)
  {
    assert ident in env[ident := v];
    forall x <- env | x < ident ensures x in r && r[x] == env[x] {
      assert x in env[ident := v];
    }
  }

  /** Executing the emitted statements collects, under consecutive identifiers,
      the values of the match, and disturbs no earlier binding. */
  lemma {:induction false} ExecCollects(components: seq<Component>, ident: nat, env: Env, path: string, c: Cursor,
                                        decode: Decoder)
    requires c.pos <= |path|
    ensures var r := ExecStmts(EmitAll(components, ident), env, path, c, decode);
            var m := Match(components, path, c, decode);
            && r.cursor == m.cursor
            && match m.result
               case Err(err) => r.result == Err(err)
               case Ok(out) => r.result.Ok? && |out| == Params(components) && Collected(env, r.result.value, ident, out)
  {
    if components != [] {
      var head, tail := components[0], components[1..];
      var s := Emit(head, ident);
      var next := if head.Static? then ident else ident + 1;
      var stmts := EmitAll(components, ident);
      assert stmts[0] == s && stmts[1..] == EmitAll(tail, next);
      var exec := ExecStmt(s, env, path, c, decode);
      StmtIsLeaf(head, ident, env, path, c, decode);
      if exec.result.Ok? {
        ExecCollects(tail, next, exec.result.value, path, exec.cursor, decode);
        var m := Match(tail, path, exec.cursor, decode);
        if m.result.Ok? {
          var r := ExecStmts(EmitAll(tail, next), exec.result.value, path, exec.cursor, decode).result.value;
          if head.Static? {
            assert [] + m.result.value == m.result.value;
          } else {
            CollectedBind(env, r, ident, exec.result.value[ident], m.result.value);
          }
        }
      }
    }
  }

  /** One emitted statement does what the leaf for its component does. */
  lemma StmtIsLeaf(component: Component, ident: nat, env: Env, path: string, c: Cursor, decode: Decoder)
    requires c.pos <= |path|
    ensures var r := ExecStmt(Emit(component, ident), env, path, c, decode);
            var x := Extract(Leaf(component, decode, Verbatim), path, c);
            && r.cursor == x.cursor
            && match r.result
               case Err(err) => x.result == Err(err)
               case Ok(env') =>
                 if component.Static? then x.result == Ok([]) && env' == env
                 else ident in env' && x.result == Ok([env'[ident]]) && env' == env[ident := env'[ident]]
  {}

  /** The compiled extractor is the match of its components. */
  lemma CompiledIsMatch(components: seq<Component>, path: string, c: Cursor, decode: Decoder)
    requires c.pos <= |path|
    ensures Extract(Compiled(components, decode), path, c) == Match(components, path, c, decode)
  {
    ExecCollects(components, 0, map[], path, c, decode);
    var m, p := Match(components, path, c, decode), Compile(components);
    var r := ExecStmts(p.extracts, map[], path, c, decode);
    if m.result.Ok? {
      OutputIsCollected(p.outputIdents, r.result.value, m.result.value);
    }
  }

  lemma OutputIsCollected(idents: seq<nat>, env: Env, out: Output)
    requires |idents| == |out| && (forall i | 0 <= i < |idents| :: idents[i] == i)
    requires Collected(map[], env, 0, out)
    ensures (forall x <- idents :: x in env) && OutputOf(idents, env) == out
  {
    forall i | 0 <= i < |idents| ensures idents[i] in env && env[idents[i]] == out[i] {
      assert i in env;
    }
  }

  /** The chain of leaves is the match of its leaves. */
  lemma {:induction false} ChainIsMatch(components: seq<Component>, path: string, c: Cursor, decode: Decoder,
                                        encode: string -> string, s: Slot)
    requires c.pos <= |path|
    ensures var e := LeafChain(components, decode, encode);
            var m := MatchLeaves(components, path, c, decode, encode);
            && Apply(e, path, c, s) == Outcome(m.result, s, 0)
            && Route(e, path, c).cursor == m.cursor
            && Route(e, path, c).verdict.Ok? == m.result.Ok?
  {
    if components == [] {
      assert Extract(Literal([]), path, c) == Extracted(Ok([]), c);
    } else {
      var leaf := Leaf(components[0], decode, encode);
      var first := Extract(leaf, path, c);
      assert Route(Oneshot(leaf), path, c).cursor == first.cursor;
      if first.result.Ok? {
        ChainIsMatch(components[1..], path, first.cursor, decode, encode, s);
        assert Run(Oneshot(leaf), path, c, s) == Outcome(first.result, s, 0);
      }
    }
  }

  /** The emitted extractor and the chain of leaf endpoints agree at a cursor: they
      accept alike, with the same outputs or the same error, and leave the same
      cursor. */
  ghost predicate Agree(components: seq<Component>, path: string, c: Cursor, decode: Decoder, encode: string -> string)
    requires c.pos <= |path|
  {
    var compiled, chain := Oneshot(Compiled(components, decode)), LeafChain(components, decode, encode);
    && Route(compiled, path, c).cursor == Route(chain, path, c).cursor
    && forall s :: Apply(compiled, path, c, s) == Apply(chain, path, c, s)
  }

  /** Agreeing is a matter of the two matches alone. */
  lemma AgreeIsSameMatch(components: seq<Component>, path: string, c: Cursor, decode: Decoder, encode: string -> string)
    requires c.pos <= |path|
    ensures Agree(components, path, c, decode, encode)
       <==> Match(components, path, c, decode) == MatchLeaves(components, path, c, decode, encode)
  {
    var compiled, chain := Oneshot(Compiled(components, decode)), LeafChain(components, decode, encode);
    var m, n := Match(components, path, c, decode), MatchLeaves(components, path, c, decode, encode);
    CompiledIsMatch(components, path, c, decode);
    forall s
      ensures Apply(compiled, path, c, s) == Outcome(m.result, s, 0)
      ensures Apply(chain, path, c, s) == Outcome(n.result, s, 0) && Route(chain, path, c).cursor == n.cursor
    {
      ChainIsMatch(components, path, c, decode, encode, s);
    }
    var slot := Slot(None, 0);
    assert Apply(compiled, path, c, slot) == Outcome(m.result, slot, 0);
    assert Apply(chain, path, c, slot) == Outcome(n.result, slot, 0);
  }

  /** Compiling a path literal preserves meaning: on every path and from every
      cursor the emitted extractor and the chain of leaf endpoints agree, if encoding
      leaves the literals alone. */
  lemma CompilationPreservesMeaning(components: seq<Component>, path: string, c: Cursor, decode: Decoder,
                                    encode: string -> string)
    requires c.pos <= |path| && EncodingFixes(components, encode)
    ensures Agree(components, path, c, decode, encode)
  {
    var ok := (x: char) => true;
    FixedIsReachedFixed(components, decode, encode, ok);
    ReachedFixedMatch(components, path, c, decode, encode, ok);
    AgreeIsSameMatch(components, path, c, decode, encode);
  }

  // ---- When exactly the two agree ----

  /** A segment of a request path, if the characters of request paths are `ok`. */
  predicate Stands(segment: string, ok: char -> bool) {
    forall x <- segment :: x != '/' && ok(x)
  }

  /** A request path of such characters. */
  ghost predicate Receivable(path: string, ok: char -> bool) {
    IsPath(path) && forall x <- path :: ok(x)
  }

  /** Some segment of a request path is a value of the type. */
  ghost predicate Inhabited(ty: string, decode: Decoder, ok: char -> bool) {
    exists segment :: Stands(segment, ok) && decode(ty, segment).Ok?
  }

  /** Encoding leaves alone every literal it could matter for: those that some
      request path reaches, and that can stand in one as they are or encoded. A
      literal is out of reach behind a parameter whose type no segment has, behind a
      literal no path can hold, and behind a catch-all. */
  ghost predicate FixesReached(components: seq<Component>, decode: Decoder, encode: string -> string,
                               ok: char -> bool)
  {
    components == [] ||
    match components[0]
    case Static(text) =>
      if encode(text) == text then Stands(text, ok) ==> FixesReached(components[1..], decode, encode, ok)
      else !Stands(text, ok) && !Stands(encode(text), ok)
    case SingleParam(ty) => Inhabited(ty, decode, ok) ==> FixesReached(components[1..], decode, encode, ok)
    case CatchAllParam(_) => true
  }

  lemma {:induction false} FixedIsReachedFixed(components: seq<Component>, decode: Decoder, encode: string -> string,
                                               ok: char -> bool)
    requires EncodingFixes(components, encode)
    ensures FixesReached(components, decode, encode, ok)
  {
    if components != [] {
      assert components[0] in components;
      FixedIsReachedFixed(components[1..], decode, encode, ok);
    }
  }

  lemma PoppedStands(path: string, c: Cursor, ok: char -> bool)
    requires c.pos <= |path| && forall x <- path :: ok(x)
    ensures var p := NextSegment(path, c); p.segment.Some? ==> Stands(p.segment.value, ok)
  {
    var rest := path[c.pos..];
    NoSlashBefore(rest);
    var i := SlashAt(rest);
    assert path[c.pos..c.pos + i] == rest[..i];
    assert i == |rest| ==> rest[..i] == rest;
    assert forall x <- rest :: x in path;
  }

  /** At the end of a path no literal matches, so encoding does not matter. */
  lemma {:induction false} SameMatchAtEnd(components: seq<Component>, path: string, c: Cursor, decode: Decoder,
                                          encode: string -> string)
    requires c.pos == |path|
    ensures Match(components, path, c, decode) == MatchLeaves(components, path, c, decode, encode)
  {
    PopTakesFirst(path, c);
    if components != [] {
      SameMatchAtEnd(components[1..], path, c, decode, encode);
    }
  }

  lemma {:induction false} ReachedFixedMatch(components: seq<Component>, path: string, c: Cursor, decode: Decoder,
                                             encode: string -> string, ok: char -> bool)
    requires c.pos <= |path| && FixesReached(components, decode, encode, ok) && forall x <- path :: ok(x)
    ensures Match(components, path, c, decode) == MatchLeaves(components, path, c, decode, encode)
  {
    if components != [] {
      var head, tail := components[0], components[1..];
      PoppedStands(path, c, ok);
      var first := Extract(Leaf(head, decode, Verbatim), path, c);
      assert first == Extract(Leaf(head, decode, encode), path, c);
      if first.result.Ok? {
        if head.CatchAllParam? {
          ExhaustedAtEnd(path, c);
          SameMatchAtEnd(tail, path, first.cursor, decode, encode);
        } else {
          assert head.SingleParam? ==> Inhabited(head.ty, decode, ok);
          ReachedFixedMatch(tail, path, first.cursor, decode, encode, ok);
        }
      }
    }
  }

  lemma ExhaustedAtEnd(path: string, c: Cursor)
    requires c.pos <= |path|
    ensures Advance(path, c, |Segments(path, c)|).pos == |path|
  {
    var n := |Segments(path, c)|;
    AdvanceDrops(path, c, n);
    PopTakesFirst(path, Advance(path, c, n));
  }

  /** Matching components never rewinds, and pops something if there is a component
      and a segment. */
  lemma {:induction false} MatchMovesOn(components: seq<Component>, path: string, c: Cursor, decode: Decoder,
                                        encode: string -> string)
    requires c.pos <= |path|
    ensures var m := MatchLeaves(components, path, c, decode, encode);
            && m.cursor.popped >= c.popped
            && (components != [] && Segments(path, c) != [] ==> m.cursor.popped > c.popped)
  {
    if components != [] {
      var first := Extract(Leaf(components[0], decode, encode), path, c);
      LeafPops(components[0], path, c, decode, encode);
      if first.result.Ok? {
        MatchMovesOn(components[1..], path, first.cursor, decode, encode);
      }
    }
  }

  lemma LeafPops(component: Component, path: string, c: Cursor, decode: Decoder, encode: string -> string)
    requires c.pos <= |path|
    ensures var x := Extract(Leaf(component, decode, encode), path, c);
            && x.cursor.popped >= c.popped
            && (Segments(path, c) != [] ==> x.cursor.popped > c.popped)
  {
    PopTakesFirst(path, c);
    AdvanceDrops(path, c, |Segments(path, c)|);
  }

  /** From every cursor with exactly these segments in front of it, the two matches
      part. */
  ghost predicate Parts(components: seq<Component>, segments: seq<string>, decode: Decoder, encode: string -> string) {
    forall path: string, c: Cursor :: c.pos <= |path| && Segments(path, c) == segments ==>
      Match(components, path, c, decode) != MatchLeaves(components, path, c, decode, encode)
  }

  /** Segments on which the two matches part, if some literal that matters is
      changed by encoding: the parameters before it get a value, and the literal
      stands as a client sends it, encoded, if that can be sent at all; if there are
      components left, one more segment follows for them to look at. */
  lemma {:induction false} SegmentsApart(components: seq<Component>, decode: Decoder, encode: string -> string,
                                         ok: char -> bool)
    returns (segments: seq<string>)
    requires !FixesReached(components, decode, encode, ok)
    ensures forall segment <- segments :: Stands(segment, ok)
    ensures Parts(components, segments, decode, encode)
  {
    var head, tail := components[0], components[1..];
    if head.Static? && encode(head.text) != head.text {
      var sent := if Stands(encode(head.text), ok) then encode(head.text) else head.text;
      segments := if tail == [] then [sent] else [sent, ""];
      forall path: string, c: Cursor | c.pos <= |path| && Segments(path, c) == segments
        ensures Match(components, path, c, decode) != MatchLeaves(components, path, c, decode, encode)
      {
        LiteralParts(components, sent, path, c, decode, encode);
      }
    } else {
      var segment := if head.Static? then head.text else "";
      if head.SingleParam? {
        segment :| Stands(segment, ok) && decode(head.ty, segment).Ok?;
      }
      var rest := SegmentsApart(tail, decode, encode, ok);
      segments := [segment] + rest;
      forall path: string, c: Cursor | c.pos <= |path| && Segments(path, c) == segments
        ensures Match(components, path, c, decode) != MatchLeaves(components, path, c, decode, encode)
      {
        TailParts(components, segment, rest, path, c, decode, encode);
      }
    }
  }

  /** The leaf and the emitted statement for the component accept the segment. */
  predicate TakenByBoth(component: Component, segment: string, decode: Decoder, encode: string -> string) {
    match component
    case Static(text) => encode(text) == text == segment
    case SingleParam(ty) => decode(ty, segment).Ok?
    case CatchAllParam(_) => false
  }

  lemma LiteralParts(components: seq<Component>, sent: string, path: string, c: Cursor, decode: Decoder,
                     encode: string -> string)
    requires c.pos <= |path| && components != [] && components[0].Static?
    requires encode(components[0].text) != components[0].text
    requires sent == components[0].text || sent == encode(components[0].text)
    requires Segments(path, c) != [] && Segments(path, c)[0] == sent
    requires |components| > 1 ==> |Segments(path, c)| > 1
    ensures Match(components, path, c, decode) != MatchLeaves(components, path, c, decode, encode)
  {
    PopTakesFirst(path, c);
    var next := NextSegment(path, c).cursor;
    MatchMovesOn(components[1..], path, next, decode, Verbatim);
    MatchMovesOn(components[1..], path, next, decode, encode);
    if sent == components[0].text {
      assert MatchLeaves(components, path, c, decode, encode) == Extracted(Err(NotFound), next);
    } else {
      assert Match(components, path, c, decode) == Extracted(Err(NotFound), next);
    }
  }

  lemma TailParts(components: seq<Component>, segment: string, rest: seq<string>, path: string, c: Cursor,
                  decode: Decoder, encode: string -> string)
    requires c.pos <= |path| && components != [] && Segments(path, c) == [segment] + rest
    requires TakenByBoth(components[0], segment, decode, encode)
    requires Parts(components[1..], rest, decode, encode)
    ensures Match(components, path, c, decode) != MatchLeaves(components, path, c, decode, encode)
  {
    PopTakesFirst(path, c);
    var next := NextSegment(path, c).cursor;
    assert Segments(path, next) == rest;
    var first := Extract(Leaf(components[0], decode, Verbatim), path, c);
    assert first == Extract(Leaf(components[0], decode, encode), path, c);
    assert first.result.Ok? && first.cursor == next;
    var m := Match(components[1..], path, next, decode);
    var n := MatchLeaves(components[1..], path, next, decode, encode);
    if m.result.Ok? && n.result.Ok? {
      SamePrefix(first.result.value, m.result.value, n.result.value);
    }
  }

  lemma SamePrefix(prefix: Output, x: Output, y: Output)
    ensures prefix + x == prefix + y ==> x == y
  {
    if prefix + x == prefix + y {
      assert x == (prefix + x)[|prefix|..] && y == (prefix + y)[|prefix|..];
    }
  }

  /** Any segments that can stand in request paths are exactly the segments of one:
      of their path with a trailing slash. */
  lemma PathOf(segments: seq<string>, ok: char -> bool)
    requires ok('/') && forall segment <- segments :: Stands(segment, ok)
    ensures var path := Glue(segments + [""]);
            Receivable(path, ok) && Segments(path, START) == segments
  {
    GlueSplits(segments + [""]);
    GlueStands(segments + [""], ok);
  }

  lemma {:induction false} GlueStands(segments: seq<string>, ok: char -> bool)
    requires ok('/') && forall segment <- segments :: Stands(segment, ok)
    ensures forall x <- Glue(segments) :: ok(x)
  {
    if segments != [] {
      assert segments[0] in segments;
      GlueStands(segments[1..], ok);
    }
  }

  /** The exact condition, for every component list, every encoder and every set of
      characters that stand in request paths: the emitted extractor and the chain of
      leaf endpoints agree on all paths that can be received if and only if encoding
      leaves alone every literal it could matter for. */
  lemma AgreeIffFixesReached(components: seq<Component>, decode: Decoder, encode: string -> string, ok: char -> bool)
    requires ok('/')
    ensures (forall path | Receivable(path, ok) :: Agree(components, path, START, decode, encode))
       <==> FixesReached(components, decode, encode, ok)
  {
    if FixesReached(components, decode, encode, ok) {
      forall path | Receivable(path, ok) ensures Agree(components, path, START, decode, encode) {
        ReachedFixedMatch(components, path, START, decode, encode, ok);
        AgreeIsSameMatch(components, path, START, decode, encode);
      }
    } else {
      var segments := SegmentsApart(components, decode, encode, ok);
      var path := Glue(segments + [""]);
      PathOf(segments, ok);
      AgreeIsSameMatch(components, path, START, decode, encode);
      assert !Agree(components, path, START, decode, encode);
    }
  }

  /** Every single parameter has a type some segment has. */
  ghost predicate AllInhabited(components: seq<Component>, decode: Decoder, ok: char -> bool) {
    forall c <- components :: c.SingleParam? ==> Inhabited(c.ty, decode, ok)
  }

  /** Every literal can be sent encoded; this is what percent-encoding is for. */
  predicate AllSendable(components: seq<Component>, encode: string -> string, ok: char -> bool) {
    forall c <- components :: c.Static? ==> Stands(encode(c.text), ok)
  }

  /** For every accepted path literal whose parameters have inhabited types, under
      an encoder that delivers segments of request paths: the two agree on all paths
      that can be received if and only if encoding leaves all the literals alone. */
  lemma AcceptedLiteralAgrees(literal: string, isType: string -> bool, decode: Decoder, encode: string -> string,
                              ok: char -> bool)
    requires ok('/') && Parse(literal, isType).Ok?
    requires AllInhabited(Parse(literal, isType).value, decode, ok)
    requires AllSendable(Parse(literal, isType).value, encode, ok)
    ensures var components := Parse(literal, isType).value;
            (forall path | Receivable(path, ok) :: Agree(components, path, START, decode, encode))
            <==> EncodingFixes(components, encode)
  {
    var components := Parse(literal, isType).value;
    AgreeIffFixesReached(components, decode, encode, ok);
    ParseIffDenotes(literal, components, isType);
    if FixesReached(components, decode, encode, ok) {
      ReachedIsAll(components, decode, encode, ok);
    } else if EncodingFixes(components, encode) {
      FixedIsReachedFixed(components, decode, encode, ok);
    }
  }

  lemma {:induction false} ReachedIsAll(components: seq<Component>, decode: Decoder, encode: string -> string,
                                        ok: char -> bool)
    requires forall i | 0 <= i < |components| - 1 :: !components[i].CatchAllParam?
    requires AllInhabited(components, decode, ok) && AllSendable(components, encode, ok)
    requires FixesReached(components, decode, encode, ok)
    ensures EncodingFixes(components, encode)
  {
    if components != [] {
      var head, tail := components[0], components[1..];
      assert head in components && components == [head] + tail;
      forall i | 0 <= i < |tail| - 1 ensures !tail[i].CatchAllParam? {
        assert tail[i] == components[i + 1];
      }
      if tail != [] {
        ReachedIsAll(tail, decode, encode, ok);
      }
    }
  }

  /** The requests on which a difference shows, for a literal that encoding changes: on the
      path a client sends, with the literal encoded, only the chain accepts, and on
      the path with the literal as it is, only the emitted extractor. */
  lemma EncodedLiteralDiverges(text: string, decode: Decoder, encode: string -> string)
    requires encode(text) != text
    requires text != "" && '/' !in text && encode(text) != "" && '/' !in encode(text)
    ensures var compiled, chain := Oneshot(Compiled([Static(text)], decode)), LeafChain([Static(text)], decode, encode);
            && Route(chain, "/" + encode(text), START).verdict.Ok?
            && Route(compiled, "/" + encode(text), START).verdict.Err?
            && Route(compiled, "/" + text, START).verdict.Ok?
            && Route(chain, "/" + text, START).verdict.Err?
  {
    forall word | word in {text, encode(text)}
      ensures var path := "/" + word;
              && (Route(Oneshot(Compiled([Static(text)], decode)), path, START).verdict.Ok? <==> word == text)
              && (Route(LeafChain([Static(text)], decode, encode), path, START).verdict.Ok? <==> word == encode(text))
    {
      OneLiteral(text, word, decode, encode);
    }
  }

  lemma OneLiteral(text: string, word: string, decode: Decoder, encode: string -> string)
    requires word != "" && '/' !in word
    ensures var path := "/" + word;
            && (Route(Oneshot(Compiled([Static(text)], decode)), path, START).verdict.Ok? <==> word == text)
            && (Route(LeafChain([Static(text)], decode, encode), path, START).verdict.Ok? <==> word == encode(text))
  {
    var path := "/" + word;
    assert Glue([word]) == path by { GlueCons(word, []); assert word + "" == word; }
    GlueSplits([word]);
    PopTakesFirst(path, START);
    var cs := [Static(text)];
    CompiledIsMatch(cs, path, START, decode);
    ChainIsMatch(cs, path, START, decode, encode, Slot(None, 0));
    var next := NextSegment(path, START);
    assert next.segment == Some(word);
    assert cs[0] == Static(text) && cs[1..] == [];
    assert Extract(Leaf(cs[0], decode, encode), path, START).result.Ok? <==> word == encode(text);
    assert Extract(Leaf(cs[0], decode, Verbatim), path, START).result.Ok? <==> word == text;
    assert MatchLeaves([], path, next.cursor, decode, encode) == Extracted(Ok([]), next.cursor);
    assert MatchLeaves([], path, next.cursor, decode, Verbatim) == Extracted(Ok([]), next.cursor);
  }

  // ---- Which paths an extractor accepts ----

  predicate Fits(component: Component, segment: string, decode: Decoder) {
    match component
    case Static(text) => text == segment
    case SingleParam(ty) => decode(ty, segment).Ok?
    case CatchAllParam(_) => false
  }

  /** The first segments fit the components, one for one. */
  predicate FitAll(components: seq<Component>, segments: seq<string>, decode: Decoder) {
    && |components| <= |segments|
    && forall i | 0 <= i < |components| :: Fits(components[i], segments[i], decode)
  }

  /** The values of the parameters in their segments. */
  function Values(components: seq<Component>, segments: seq<string>, decode: Decoder): Output
    requires FitAll(components, segments, decode)
  {
    if components == [] then []
    else
      assert Fits(components[0], segments[0], decode);
      assert forall i | 0 <= i < |components[1..]| :: Fits(components[i + 1], segments[1..][i], decode);
      (if components[0].SingleParam? then [decode(components[0].ty, segments[0]).value] else [])
      + Values(components[1..], segments[1..], decode)
  }

  predicate NoCatchAll(components: seq<Component>) {
    forall c <- components :: !c.CatchAllParam?
  }

  lemma {:induction false} MatchAccepts(components: seq<Component>, path: string, c: Cursor, decode: Decoder)
    requires c.pos <= |path| && NoCatchAll(components)
    ensures var m := Match(components, path, c, decode);
            && (m.result.Ok? <==> FitAll(components, Segments(path, c), decode))
            && (m.result.Ok? ==>
                  && m.cursor == Advance(path, c, |components|)
                  && m.result.value == Values(components, Segments(path, c), decode))
  {
    if components != [] {
      var head, tail, segs := components[0], components[1..], Segments(path, c);
      assert head in components;
      PopTakesFirst(path, c);
      var next := NextSegment(path, c).cursor;
      MatchAccepts(tail, path, next, decode);
      if segs != [] {
        FitAllSplits(components, segs, decode);
      }
      assert Advance(path, c, |components|) == Advance(path, next, |tail|);
    }
  }

  lemma FitAllSplits(components: seq<Component>, segments: seq<string>, decode: Decoder)
    requires components != [] && segments != []
    ensures FitAll(components, segments, decode)
       <==> Fits(components[0], segments[0], decode) && FitAll(components[1..], segments[1..], decode)
  {
    if FitAll(components[1..], segments[1..], decode) && Fits(components[0], segments[0], decode) {
      forall i | 0 <= i < |components| ensures Fits(components[i], segments[i], decode) {
        if i > 0 { assert Fits(components[1..][i - 1], segments[1..][i - 1], decode); }
      }
    }
  }

  /** A compiled extractor with only static and single parameters accepts exactly
      when the first segments in front of the cursor fit its components; it then
      yields their values and has advanced by as many segments. */
  lemma ExtractorAccepts(components: seq<Component>, path: string, c: Cursor, decode: Decoder)
    requires c.pos <= |path| && NoCatchAll(components)
    ensures var x := Extract(Compiled(components, decode), path, c);
            && (x.result.Ok? <==> FitAll(components, Segments(path, c), decode))
            && (x.result.Ok? ==>
                  && x.cursor == Advance(path, c, |components|)
                  && x.result.value == Values(components, Segments(path, c), decode))
  {
    CompiledIsMatch(components, path, c, decode);
    MatchAccepts(components, path, c, decode);
  }

  lemma {:induction false} MatchAppends(init: seq<Component>, last: Component, path: string, c: Cursor, decode: Decoder)
    requires c.pos <= |path|
    ensures var m := Match(init, path, c, decode);
            var x := Extract(Leaf(last, decode, Verbatim), path, m.cursor);
            Match(init + [last], path, c, decode)
              == if m.result.Err? then m
                 else Extracted(if x.result.Ok? then Ok(m.result.value + x.result.value) else x.result, x.cursor)
  {
    if init == [] {
      assert init + [last] == [last];
      var x := Extract(Leaf(last, decode, Verbatim), path, c);
      assert Match([last][1..], path, x.cursor, decode) == Extracted(Ok([]), x.cursor);
      assert x.result.Ok? ==> x.result.value + [] == x.result.value == [] + x.result.value;
    } else {
      assert (init + [last])[0] == init[0] && (init + [last])[1..] == init[1..] + [last];
      var first := Extract(Leaf(init[0], decode, Verbatim), path, c);
      if first.result.Ok? {
        MatchAppends(init[1..], last, path, first.cursor, decode);
        var m := Match(init[1..], path, first.cursor, decode);
        var x := Extract(Leaf(last, decode, Verbatim), path, m.cursor);
        if m.result.Ok? && x.result.Ok? {
          assert first.result.value + (m.result.value + x.result.value)
              == (first.result.value + m.result.value) + x.result.value;
        }
      }
    }
  }

  /** With a catch-all last, the rest of the path must parse too; the cursor is
      then at the end of the path. */
  lemma CatchAllExtractorAccepts(init: seq<Component>, ty: string, path: string, c: Cursor, decode: Decoder)
    requires c.pos <= |path| && NoCatchAll(init)
    ensures var x := Extract(Compiled(init + [CatchAllParam(ty)], decode), path, c);
            var segs := Segments(path, c);
            var rest := decode(ty, path[Advance(path, c, |init|).pos..]);
            && (x.result.Ok? <==> FitAll(init, segs, decode) && rest.Ok?)
            && (x.result.Ok? ==> x.cursor.pos == |path| && x.result.value == Values(init, segs, decode) + [rest.value])
  {
    CompiledIsMatch(init + [CatchAllParam(ty)], path, c, decode);
    MatchAppends(init, CatchAllParam(ty), path, c, decode);
    MatchAccepts(init, path, c, decode);
    ExhaustedAtEnd(path, Match(init, path, c, decode).cursor);
  }

  /** `eos` accepts exactly at the end of the path, and `segment` exactly when the
      next segment is its encoded text, both without output, and otherwise they answer
      "not found"; both pop one segment if there is one, also when they reject. */
  lemma MatchersAccept(encoded: string, path: string, c: Cursor)
    requires c.pos <= |path|
    ensures var segs, eos, segment := Segments(path, c), Extract(Eos, path, c), Extract(Segment(encoded), path, c);
            && eos.result == (if segs == [] then Ok([]) else Err(NotFound))
            && segment.result == (if segs != [] && segs[0] == encoded then Ok([]) else Err(NotFound))
            && eos.cursor == segment.cursor == Advance(path, c, 1)
            && Segments(path, eos.cursor) == (if segs == [] then [] else segs[1..])
  {
    PopTakesFirst(path, c);
    assert Advance(path, c, 1) == NextSegment(path, c).cursor;
  }

  /** `param` gives the decoded next segment or the decoder's error, and "not found"
      at the end of the path; it pops that segment in any case. `remains` decodes all
      that is left and exhausts the path. */
  lemma ParamsAccept(ty: string, decode: Decoder, path: string, c: Cursor)
    requires c.pos <= |path|
    ensures var segs, param, remains := Segments(path, c), Extract(Param(ty, decode), path, c),
                                        Extract(Remains(ty, decode), path, c);
            && (segs == [] ==> param == Extracted(Err(NotFound), c))
            && (segs != [] ==> Segments(path, param.cursor) == segs[1..] && Gives(decode(ty, segs[0]), param.result))
            && Gives(decode(ty, path[c.pos..]), remains.result) && remains.cursor.pos == |path|
  {
    PopTakesFirst(path, c);
    ExhaustedAtEnd(path, c);
  }

  /** `value` gives its items and leaves the cursor; any other one-shot leaf gives its
      own answer, and pops as many segments as it asks for, or all. */
  lemma OthersAccept(items: Output, probe: (string, Cursor) -> Probe, path: string, c: Cursor)
    requires c.pos <= |path|
    ensures Extract(Literal(items), path, c) == Extracted(Ok(items), c)
    ensures var x, n := Extract(Custom(probe), path, c), probe(path, c).pops;
            && x.result == probe(path, c).result
            && Segments(path, x.cursor) == (if n <= |Segments(path, c)| then Segments(path, c)[n..] else [])
            && x.cursor.popped == c.popped + if n <= |Segments(path, c)| then n else |Segments(path, c)|
  {
    AdvanceDrops(path, c, probe(path, c).pops);
  }
}
