/** The parser for path literals such as "/posts/<u32>/<..PathBuf>", and its
    printer. Which strings are types is left to a predicate. */
module PathLiteral {
  import opened Outcomes
  import opened PathCursor
  import opened Extraction

  datatype ParseError =
    | EmptyLiteral
    | NoLeadingSlash
    | EmptySegment
    | UnclosedParam
    | NonAsciiParam
    | BadType
    | CatchAllNotLast

  type Parsed = Result<seq<Component>, ParseError>

  /** `char::is_whitespace`: the Unicode property White_Space. */
  predicate IsWhite(c: char) {
    var n := c as int;
    || 9 <= n <= 13 || n == 0x20 || n == 0x85 || n == 0xA0 || n == 0x1680
    || 0x2000 <= n <= 0x200A || n == 0x2028 || n == 0x2029 || n == 0x202F || n == 0x205F || n == 0x3000
  }

  function TrimStart(s: string): string {
    if s != "" && IsWhite(s[0]) then TrimStart(s[1..]) else s
  }

  function TrimEnd(s: string): string {
    if s != "" && IsWhite(s[|s| - 1]) then TrimEnd(s[..|s| - 1]) else s
  }

  function Trim(s: string): string {
    TrimEnd(TrimStart(s))
  }

  predicate IsAscii(s: string) {
    forall c <- s :: c as int < 128
  }

  /** The component a non-empty segment stands for. */
  function ParseSegment(segment: string, isType: string -> bool): Result<Component, ParseError>
    requires segment != ""
  {
    if segment[0] != '<' then Ok(Static(segment))
    else if segment[|segment| - 1] != '>' then Err(UnclosedParam)
    else if !IsAscii(segment) then Err(NonAsciiParam)
    else
      var ty := segment[1..|segment| - 1];
      if ".." <= ty then
        if isType(ty[2..]) then Ok(CatchAllParam(ty[2..])) else Err(BadType)
      else
        if isType(ty) then Ok(SingleParam(ty)) else Err(BadType)
  }

  function ParseSegments(segments: seq<string>, isType: string -> bool): Parsed {
    if segments == [] then Ok([])
    else if segments[0] == "" then
      if |segments| > 1 then Err(EmptySegment) else Ok([])
    else
      match ParseSegment(segments[0], isType)
      case Err(err) => Err(err)
      case Ok(head) =>
        if head.CatchAllParam? then
          if |segments| > 1 then Err(CatchAllNotLast) else Ok([head])
        else
          match ParseSegments(segments[1..], isType)
          case Err(err) => Err(err)
          case Ok(tail) => Ok([head] + tail)
  }

  function Parse(s: string, isType: string -> bool): Parsed {
    var t := Trim(s);
    if t == "" then Err(EmptyLiteral)
    else if t[0] != '/' then Err(NoLeadingSlash)
    else if t == "/" then Ok([])
    else ParseSegments(Split(t)[1..], isType)
  }

  function Prepended(done: seq<Component>, p: Parsed): Parsed {
    match p
    case Ok(cs) => Ok(done + cs)
    case Err(err) => Err(err)
  }

  /** `parse_path`. */
  method ParsePath(literal: string, isType: string -> bool) returns (r: Parsed)
    ensures r == Parse(literal, isType)
  {
    var s := Trim(literal);
    if s == "" {
      return Err(EmptyLiteral);
    }
    if s[0] != '/' {
      return Err(NoLeadingSlash);
    }
    if s == "/" {
      return Ok([]);
    }
    var components := [];
    var iter := Split(s)[1..];
    ghost var all := iter;
    PrependNothing(ParseSegments(all, isType));
    while iter != []
      invariant Prepended(components, ParseSegments(iter, isType)) == ParseSegments(all, isType)
      decreases |iter|
    {
      var segment, peek := iter[0], |iter| > 1;
      ghost var before := iter;
      iter := iter[1..];
      if segment == "" {
        if peek {
          return Err(EmptySegment);
        }
        assert components + [] == components;
        break;
      }
      if segment[0] == '<' {
        if segment[|segment| - 1] != '>' {
          return Err(UnclosedParam);
        }
        if !IsAscii(segment) {
          return Err(NonAsciiParam);
        }
        var ty := segment[1..|segment| - 1];
        if ".." <= ty {
          if !isType(ty[2..]) {
            return Err(BadType);
          }
          components := components + [CatchAllParam(ty[2..])];
          if peek {
            return Err(CatchAllNotLast);
          }
          break;
        }
        if !isType(ty) {
          return Err(BadType);
        }
        PrependAssociates(components, SingleParam(ty), ParseSegments(iter, isType));
        components := components + [SingleParam(ty)];
      } else {
        PrependAssociates(components, Static(segment), ParseSegments(iter, isType));
        components := components + [Static(segment)];
      }
    }
    assert components + [] == components;
    r := Ok(components);
  }

  lemma PrependNothing(p: Parsed)
    ensures Prepended([], p) == p
  {
    if p.Ok? {
      assert [] + p.value == p.value;
    }
  }

  lemma PrependAssociates(done: seq<Component>, c: Component, p: Parsed)
    ensures Prepended(done, Prepended([c], p)) == Prepended(done + [c], p)
  {
    if p.Ok? {
      assert done + ([c] + p.value) == done + [c] + p.value;
    }
  }

  // ---- The printer ----

  function Name(c: Component): (s: string) {
    match c
    case Static(text) => text
    case SingleParam(ty) => "<" + ty + ">"
    case CatchAllParam(ty) => "<.." + ty + ">"
  }

  function Names(cs: seq<Component>): (names: seq<string>)
    ensures |names| == |cs|
  {
    seq(|cs|, i requires 0 <= i < |cs| => Name(cs[i]))
  }

  /** Segments put back together, each after a slash. */
  function Glue(segments: seq<string>): string {
    if segments == [] then "" else "/" + segments[0] + Glue(segments[1..])
  }

  function Print(cs: seq<Component>): string {
    if cs == [] then "/" else Glue(Names(cs))
  }

  // ---- The grammar ----

  predicate GoodComponent(c: Component, isType: string -> bool) {
    match c
    case Static(text) => text != "" && '/' !in text && text[0] != '<'
    case SingleParam(ty) => isType(ty) && IsAscii(ty) && '/' !in ty && !(".." <= ty)
    case CatchAllParam(ty) => isType(ty) && IsAscii(ty) && '/' !in ty
  }

  /** Well-formed component lists: a catch-all may only stand at the end. */
  predicate GoodComponents(cs: seq<Component>, isType: string -> bool) {
    && (forall c <- cs :: GoodComponent(c, isType))
    && (forall i | 0 <= i < |cs| - 1 :: !cs[i].CatchAllParam?)
  }

  predicate MayTrail(cs: seq<Component>) {
    cs == [] || !cs[|cs| - 1].CatchAllParam?
  }

  /** The trimmed literals for a component list: its printed form, and the same
      with a trailing slash unless the list is empty or ends in a catch-all. */
  predicate Denotes(t: string, cs: seq<Component>, isType: string -> bool) {
    && GoodComponents(cs, isType)
    && (t == Print(cs) || (cs != [] && MayTrail(cs) && t == Print(cs) + "/"))
  }

  // ---- Segments and components ----

  lemma NameParses(c: Component, isType: string -> bool)
    requires GoodComponent(c, isType)
    ensures Name(c) != "" && '/' !in Name(c) && ParseSegment(Name(c), isType) == Ok(c)
  {
    match c {
      case Static(_) =>
      case SingleParam(ty) =>
        assert Name(c)[1..|Name(c)| - 1] == ty;
      case CatchAllParam(ty) =>
        var inner := Name(c)[1..|Name(c)| - 1];
        assert inner == ".." + ty && inner[2..] == ty;
    }
  }

  lemma SegmentPrints(segment: string, isType: string -> bool)
    requires segment != "" && '/' !in segment && ParseSegment(segment, isType).Ok?
    ensures var c := ParseSegment(segment, isType).value;
            Name(c) == segment && GoodComponent(c, isType)
  {
    if segment[0] == '<' {
      var ty := segment[1..|segment| - 1];
      Bracketed(segment, ty);
      if ".." <= ty {
        assert ty == ".." + ty[2..];
        assert forall x <- ty[2..] :: x in ty;
        assert "<" + (".." + ty[2..]) + ">" == "<.." + ty[2..] + ">";
      }
    }
  }

  lemma Bracketed(segment: string, ty: string)
    requires |segment| > 1 && segment[0] == '<' && segment[|segment| - 1] == '>'
    requires ty == segment[1..|segment| - 1] && '/' !in segment && IsAscii(segment)
    ensures segment == "<" + ty + ">" && '/' !in ty && IsAscii(ty)
  {
    assert forall x <- ty :: x in segment;
  }

  lemma NameEnds(c: Component, isType: string -> bool)
    requires GoodComponent(c, isType)
    ensures Name(c) != "" && Name(c)[|Name(c)| - 1] != '/'
  {}

  predicate Plain(segments: seq<string>) {
    forall s <- segments :: '/' !in s
  }

  /** The segments a component list is parsed from. */
  predicate Spells(segments: seq<string>, cs: seq<Component>, isType: string -> bool) {
    && GoodComponents(cs, isType)
    && (segments == Names(cs) || (MayTrail(cs) && segments == Names(cs) + [""]))
  }

  lemma NamesCons(c: Component, cs: seq<Component>)
    ensures Names([c] + cs) == [Name(c)] + Names(cs)
  {}

  lemma {:induction false} SegmentsSpell(segments: seq<string>, cs: seq<Component>, isType: string -> bool)
    requires Plain(segments) && Spells(segments, cs, isType)
    ensures ParseSegments(segments, isType) == Ok(cs)
  {
    if cs != [] {
      var head, tail := cs[0], cs[1..];
      NamesCons(head, tail);
      assert cs == [head] + tail;
      assert head in cs;
      NameParses(head, isType);
      if head.CatchAllParam? {
        assert tail == [] && Names(tail) == [];
        assert segments == [Name(head)] && cs == [head];
      } else {
        assert segments[1..] == Names(tail) || segments[1..] == Names(tail) + [""];
        TailIsGood(cs, isType);
        SegmentsSpell(segments[1..], tail, isType);
      }
    }
  }

  lemma TailIsGood(cs: seq<Component>, isType: string -> bool)
    requires cs != [] && GoodComponents(cs, isType)
    ensures GoodComponents(cs[1..], isType) && (MayTrail(cs) ==> MayTrail(cs[1..]))
  {
    forall i | 0 <= i < |cs[1..]| - 1 ensures !cs[1..][i].CatchAllParam? {
      assert cs[1..][i] == cs[i + 1];
    }
  }

  lemma {:induction false} ParsedSegmentsSpell(segments: seq<string>, isType: string -> bool)
    requires Plain(segments) && ParseSegments(segments, isType).Ok?
    ensures Spells(segments, ParseSegments(segments, isType).value, isType)
  {
    var cs := ParseSegments(segments, isType).value;
    if segments == [] {
      assert Names(cs) == [];
    } else if segments[0] == "" {
      assert segments == Names(cs) + [""];
    } else {
      assert segments[0] in segments;
      SegmentPrints(segments[0], isType);
      var head := ParseSegment(segments[0], isType).value;
      if head.CatchAllParam? {
        assert segments == Names(cs);
      } else {
        ParsedSegmentsSpell(segments[1..], isType);
        var tail := ParseSegments(segments[1..], isType).value;
        NamesCons(head, tail);
        assert segments == [segments[0]] + segments[1..];
        assert segments[1..] == Names(tail) + [""] ==> segments == Names(cs) + [""];
      }
    }
  }

  // ---- Segments and strings ----

  lemma {:induction false} GlueSplits(segments: seq<string>)
    requires segments != [] && Plain(segments)
    ensures Glue(segments) != "" && Glue(segments)[0] == '/'
    ensures Split(Glue(segments)[1..]) == segments
  {
    var first, rest := segments[0], segments[1..];
    assert first in segments;
    GlueStarts(segments);
    if rest != [] {
      GlueSplits(rest);
      PrefixSplits(first, Glue(rest));
    } else {
      assert first + Glue(rest) == first;
      SlashAfter(first, Glue(rest));
    }
  }

  lemma GlueStarts(segments: seq<string>)
    requires segments != []
    ensures Glue(segments) != "" && Glue(segments)[0] == '/'
    ensures Glue(segments)[1..] == segments[0] + Glue(segments[1..])
  {
    var tail := segments[0] + Glue(segments[1..]);
    assert Glue(segments) == "/" + tail;
    assert ("/" + tail)[1..] == tail;
  }

  lemma PrefixSplits(s: string, rest: string)
    requires '/' !in s && rest != "" && rest[0] == '/'
    ensures Split(s + rest) == [s] + Split(rest[1..])
  {
    SlashAfter(s, rest);
    assert (s + rest)[..|s|] == s;
    assert (s + rest)[|s| + 1..] == rest[1..];
  }

  lemma {:induction false} SplitGlues(s: string)
    ensures Glue(Split(s)) == "/" + s && Plain(Split(s))
  {
    var i := SlashAt(s);
    var head := s[..i];
    NoSlashBefore(s);
    if i == |s| {
      assert head == s;
      GlueCons(s, []);
      assert s + "" == s;
    } else {
      var tail := s[i + 1..];
      SplitGlues(tail);
      GlueCons(head, Split(tail));
      Rejoin(s, i);
      PlainCons(head, Split(tail));
    }
  }

  lemma Rejoin(s: string, i: nat)
    requires i < |s| && s[i] == '/'
    ensures s[..i] + ("/" + s[i + 1..]) == s
  {}

  lemma PlainCons(first: string, rest: seq<string>)
    requires '/' !in first && Plain(rest)
    ensures Plain([first] + rest)
  {}

  lemma GlueCons(first: string, rest: seq<string>)
    ensures Glue([first] + rest) == "/" + (first + Glue(rest))
  {
    assert ([first] + rest)[1..] == rest;
  }

  lemma {:induction false} GlueAppends(segments: seq<string>, last: string)
    ensures Glue(segments + [last]) == Glue(segments) + "/" + last
  {
    if segments == [] {
      assert segments + [last] == [last] && [last][1..] == [];
    } else {
      assert (segments + [last])[1..] == segments[1..] + [last];
      GlueAppends(segments[1..], last);
    }
  }

  // ---- The theorems ----

  lemma NamesArePlain(cs: seq<Component>, isType: string -> bool)
    requires GoodComponents(cs, isType)
    ensures Plain(Names(cs)) && Plain(Names(cs) + [""])
  {
    forall i | 0 <= i < |cs| ensures '/' !in Names(cs)[i] {
      assert cs[i] in cs;
      NameParses(cs[i], isType);
    }
  }

  /** Spelling as segments and denoting as a string are the same thing. */
  lemma DenotesIsSpells(t: string, cs: seq<Component>, isType: string -> bool)
    requires t != "" && t[0] == '/'
    ensures Denotes(t, cs, isType) <==> Spells(Split(t[1..]), cs, isType)
  {
    var segments := Split(t[1..]);
    SplitGlues(t[1..]);
    assert Glue(segments) == t by { assert "/" + t[1..] == t; }
    if GoodComponents(cs, isType) {
      NamesArePlain(cs, isType);
      GlueAppends(Names(cs), "");
      assert Print(cs) + "/" + "" == Print(cs) + "/";
      assert Glue([""]) == "/" by { assert [""][1..] == []; }
      GlueSplits(Names(cs) + [""]);
      if cs == [] {
        assert Names(cs) + [""] == [""];
      } else {
        GlueSplits(Names(cs));
      }
    }
  }

  /** The parser accepts exactly the grammar: a literal parses to a component list
      if and only if, trimmed, it is a literal for that list. */
  lemma ParseIffDenotes(s: string, cs: seq<Component>, isType: string -> bool)
    ensures Parse(s, isType) == Ok(cs) <==> Denotes(Trim(s), cs, isType)
  {
    var t := Trim(s);
    if t != "" && t[0] == '/' {
      DenotesIsSpells(t, cs, isType);
      assert t[..0] == "";
      assert SlashAt(t) == 0 && Split(t) == [""] + Split(t[1..]);
      var segments := Split(t[1..]);
      assert Split(t)[1..] == segments;
      SplitGlues(t[1..]);
      assert t == "/" ==> segments == [""];
      assert Parse(s, isType) == ParseSegments(segments, isType);
      if ParseSegments(segments, isType).Ok? {
        ParsedSegmentsSpell(segments, isType);
      }
      if Spells(segments, cs, isType) {
        SegmentsSpell(segments, cs, isType);
      }
    } else if Denotes(t, cs, isType) {
      PrintStarts(cs);
    }
  }

  lemma PrintStarts(cs: seq<Component>)
    ensures Print(cs) != "" && Print(cs)[0] == '/'
  {}

  /** Rejected literals are exactly those outside the grammar. */
  lemma RejectsOutsideGrammar(s: string, isType: string -> bool)
    ensures Parse(s, isType).Err? <==> forall cs :: !Denotes(Trim(s), cs, isType)
  {
    forall cs ensures Parse(s, isType) == Ok(cs) <==> Denotes(Trim(s), cs, isType) {
      ParseIffDenotes(s, cs, isType);
    }
    if Parse(s, isType).Ok? {
      assert Denotes(Trim(s), Parse(s, isType).value, isType);
    }
  }

  function WithoutTrailingSlash(t: string): string {
    if |t| > 1 && t[|t| - 1] == '/' then t[..|t| - 1] else t
  }

  lemma GlueEnds(segments: seq<string>)
    requires segments != []
    ensures var last := segments[|segments| - 1];
            last != "" ==> Glue(segments)[|Glue(segments)| - 1] == last[|last| - 1]
  {
    var init, last := segments[..|segments| - 1], segments[|segments| - 1];
    assert segments == init + [last];
    GlueAppends(init, last);
    if last != "" {
      var p := Glue(init) + "/";
      assert (p + last)[|p + last| - 1] == last[|last| - 1];
    }
  }

  /** The last character of a printed list is that of its last component. */
  lemma PrintEnds(cs: seq<Component>, isType: string -> bool)
    requires cs != [] && GoodComponents(cs, isType)
    ensures var p, last := Print(cs), Name(cs[|cs| - 1]);
            |p| > 1 && last != "" && p[|p| - 1] == last[|last| - 1] != '/'
  {
    var names, last := Names(cs), cs[|cs| - 1];
    assert last in cs && names[|names| - 1] == Name(last);
    NameEnds(last, isType);
    GlueStarts(names);
    GlueEnds(names);
    var p := Glue(names);
    assert p[|p| - 1] == Name(last)[|Name(last)| - 1] != '/';
    assert p[0] == '/' && |p| > 1;
    assert Print(cs) == p;
  }

  /** Printing what an accepted literal parses to gives the literal back, trimmed
      and without one trailing slash. */
  lemma PrintAfterParse(s: string, isType: string -> bool)
    requires Parse(s, isType).Ok?
    ensures Print(Parse(s, isType).value) == WithoutTrailingSlash(Trim(s))
  {
    var cs := Parse(s, isType).value;
    ParseIffDenotes(s, cs, isType);
    if cs != [] {
      PrintEnds(cs, isType);
    }
  }

  predicate EndsWhite(cs: seq<Component>) {
    cs != [] && var last := Name(cs[|cs| - 1]); last != "" && IsWhite(last[|last| - 1])
  }

  lemma TrimEndShrinks(s: string)
    ensures |TrimEnd(s)| <= |s|
    ensures TrimEnd(s) == s <==> s == "" || !IsWhite(s[|s| - 1])
  {}

  /** Parsing a printed component list gives the list back exactly when the list
      is well formed and its last segment does not end in white space, which
      trimming would lose. */
  lemma ParseAfterPrint(cs: seq<Component>, isType: string -> bool)
    ensures Parse(Print(cs), isType) == Ok(cs) <==> GoodComponents(cs, isType) && !EndsWhite(cs)
  {
    var p := Print(cs);
    PrintStarts(cs);
    ParseIffDenotes(p, cs, isType);
    assert TrimStart(p) == p;
    TrimEndShrinks(p);
    if GoodComponents(cs, isType) && cs != [] {
      PrintEnds(cs, isType);
    }
  }

  // ---- White space ----

  /** The characters with the Unicode property White_Space. */
  const WHITE_SPACE := "\t\n\U{0B}\U{0C}\r \U{85}\U{A0}\U{1680}"
    + "\U{2000}\U{2001}\U{2002}\U{2003}\U{2004}\U{2005}\U{2006}\U{2007}\U{2008}\U{2009}\U{200A}"
    + "\U{2028}\U{2029}\U{202F}\U{205F}\U{3000}"

  lemma WhiteIsListed(c: char)
    ensures IsWhite(c) <==> c in WHITE_SPACE
  {
    assert WHITE_SPACE[..9] == "\t\n\U{0B}\U{0C}\r \U{85}\U{A0}\U{1680}";
    assert WHITE_SPACE[9..20]
        == "\U{2000}\U{2001}\U{2002}\U{2003}\U{2004}\U{2005}\U{2006}\U{2007}\U{2008}\U{2009}\U{200A}";
    assert WHITE_SPACE == WHITE_SPACE[..9] + WHITE_SPACE[9..20] + WHITE_SPACE[20..];
  }

  ghost predicate AllWhite(s: string) {
    forall c <- s :: IsWhite(c)
  }

  /** Neither starting nor ending in white space. */
  predicate Bare(t: string) {
    t != "" ==> !IsWhite(t[0]) && !IsWhite(t[|t| - 1])
  }

  lemma {:induction false} TrimStartStrips(s: string) returns (i: nat)
    ensures i <= |s| && TrimStart(s) == s[i..] && AllWhite(s[..i])
    ensures i < |s| ==> !IsWhite(s[i])
  {
    i := 0;
    if s != "" && IsWhite(s[0]) {
      var k := TrimStartStrips(s[1..]);
      i := k + 1;
      assert s[..i] == [s[0]] + s[1..][..k];
    }
  }

  lemma {:induction false} TrimEndStrips(s: string) returns (j: nat)
    ensures j <= |s| && TrimEnd(s) == s[..j] && AllWhite(s[j..])
    ensures j > 0 ==> !IsWhite(s[j - 1])
  {
    j := |s|;
    if s != "" && IsWhite(s[|s| - 1]) {
      var init := s[..|s| - 1];
      j := TrimEndStrips(init);
      assert s[j..] == init[j..] + [s[|s| - 1]] && s[..j] == init[..j];
    }
  }

  /** Trimming takes white space off both ends, and all of it. */
  lemma TrimStrips(s: string) returns (i: nat, j: nat)
    ensures i <= j <= |s| && Trim(s) == s[i..j]
    ensures AllWhite(s[..i]) && AllWhite(s[j..]) && Bare(Trim(s))
  {
    i := TrimStartStrips(s);
    var k := TrimEndStrips(s[i..]);
    j := i + k;
    assert s[i..][..k] == s[i..j] && s[i..][k..] == s[j..];
  }

  lemma {:induction false} TrimStartSkips(pre: string, s: string)
    requires AllWhite(pre)
    ensures TrimStart(pre + s) == TrimStart(s)
  {
    if pre == "" {
      assert pre + s == s;
    } else {
      assert (pre + s)[1..] == pre[1..] + s;
      TrimStartSkips(pre[1..], s);
    }
  }

  lemma {:induction false} TrimEndSkips(s: string, post: string)
    requires AllWhite(post)
    ensures TrimEnd(s + post) == TrimEnd(s)
  {
    if post == "" {
      assert s + post == s;
    } else {
      var init := post[..|post| - 1];
      assert (s + post)[..|s + post| - 1] == s + init;
      assert (s + post)[|s + post| - 1] == post[|post| - 1] && post[|post| - 1] in post;
      TrimEndSkips(s, init);
    }
  }

  /** The trimmed text is the one text without white ends that becomes the literal
      when padded with white space. */
  lemma TrimIff(s: string, t: string)
    ensures Trim(s) == t <==> Bare(t) && exists pre, post :: Pads(s, pre, t, post)
  {
    var i, j := TrimStrips(s);
    assert s == s[..i] + s[i..j] + s[j..];
    assert Pads(s, s[..i], Trim(s), s[j..]);
    if Bare(t) && exists pre, post :: Pads(s, pre, t, post) {
      var pre, post :| Pads(s, pre, t, post);
      PaddingIsTrimmed(pre, t, post);
    }
  }

  ghost predicate Pads(s: string, pre: string, t: string, post: string) {
    s == pre + t + post && AllWhite(pre) && AllWhite(post)
  }

  lemma PaddingIsTrimmed(pre: string, t: string, post: string)
    requires AllWhite(pre) && AllWhite(post) && Bare(t)
    ensures Trim(pre + t + post) == t
  {
    assert pre + t + post == pre + (t + post);
    TrimStartSkips(pre, t + post);
    if t == "" {
      assert t + post == post && post + "" == post && "" + post == post;
      TrimStartSkips(post, "");
    } else {
      assert (t + post)[0] == t[0];
      TrimEndSkips(t, post);
    }
  }

  /** White space around a literal does not matter. */
  lemma ParseIgnoresPadding(pre: string, s: string, post: string, isType: string -> bool)
    requires AllWhite(pre) && AllWhite(post)
    ensures Parse(pre + s + post, isType) == Parse(s, isType)
  {
    var i, j := TrimStrips(s);
    var t, before, after := Trim(s), pre + s[..i], s[j..] + post;
    assert pre + s + post == before + t + after;
    assert Pads(pre + s + post, before, t, after);
    TrimIff(pre + s + post, t);
  }

  // ---- Rejections ----

  /** What is wrong with a segment, if anything. */
  ghost function Offence(segment: string, last: bool, isType: string -> bool): Option<ParseError> {
    if segment == "" then if last then None else Some(EmptySegment)
    else if segment[0] != '<' then None
    else if segment[|segment| - 1] != '>' then Some(UnclosedParam)
    else if exists c <- segment :: c > '\U{7F}' then Some(NonAsciiParam)
    else if exists ty :: segment == "<.." + ty + ">" then
      var ty :| segment == "<.." + ty + ">";
      if !isType(ty) then Some(BadType) else if last then None else Some(CatchAllNotLast)
    else if isType(segment[1..|segment| - 1]) then None
    else Some(BadType)
  }

  /** The first segment with something wrong decides. */
  ghost predicate FirstOffence(segments: seq<string>, i: nat, err: ParseError, isType: string -> bool) {
    && i < |segments|
    && Offence(segments[i], i == |segments| - 1, isType) == Some(err)
    && forall j | 0 <= j < i :: Offence(segments[j], false, isType) == None
  }

  /** Which error a literal is rejected with. */
  lemma RejectedWith(s: string, err: ParseError, isType: string -> bool)
    ensures var t := Trim(s);
            Parse(s, isType) == Err(err)
            <==> if t == "" then err == EmptyLiteral
                 else if t[0] != '/' then err == NoLeadingSlash
                 else exists i :: FirstOffence(Split(t[1..]), i, err, isType)
  {
    var t := Trim(s);
    if t != "" && t[0] == '/' {
      assert t[..0] == "";
      assert SlashAt(t) == 0 && Split(t) == [""] + Split(t[1..]);
      assert Split(t)[1..] == Split(t[1..]);
      SegmentsRejectedWith(Split(t[1..]), err, isType);
      assert t == "/" ==> Split(t[1..]) == [""];
    }
  }

  lemma {:induction false} SegmentsRejectedWith(segments: seq<string>, err: ParseError, isType: string -> bool)
    ensures ParseSegments(segments, isType) == Err(err) <==> exists i :: FirstOffence(segments, i, err, isType)
  {
    if segments != [] {
      var head, tail := segments[0], segments[1..];
      HeadRejectedWith(segments, isType);
      var offence := Offence(head, tail == [], isType);
      if offence == None {
        SegmentsRejectedWith(tail, err, isType);
        OffenceLater(segments, err, isType);
      } else {
        assert FirstOffence(segments, 0, offence.value, isType);
        assert tail != [] ==> Offence(segments[0], false, isType) == offence;
      }
    }
  }

  lemma OffenceLater(segments: seq<string>, err: ParseError, isType: string -> bool)
    requires segments != [] && Offence(segments[0], |segments| == 1, isType) == None
    ensures (exists i :: FirstOffence(segments, i, err, isType))
       <==> exists i :: FirstOffence(segments[1..], i, err, isType)
  {
    var tail := segments[1..];
    if i: nat :| FirstOffence(segments, i, err, isType) {
      assert i > 0 && FirstOffence(tail, i - 1, err, isType);
    }
    if i: nat :| FirstOffence(tail, i, err, isType) {
      forall j | 0 <= j < i + 1 ensures Offence(segments[j], false, isType) == None {
        if j > 0 { assert segments[j] == tail[j - 1]; }
      }
      assert FirstOffence(segments, i + 1, err, isType);
    }
  }

  /** The parser's verdict on the first segment is that of `Offence`. */
  lemma HeadRejectedWith(segments: seq<string>, isType: string -> bool)
    requires segments != []
    ensures var offence, p := Offence(segments[0], |segments| == 1, isType), ParseSegments(segments, isType);
            && (offence.Some? ==> p == Err(offence.value))
            && (offence.None? ==> if p.Err? then p == ParseSegments(segments[1..], isType)
                                  else segments[1..] == [] || ParseSegments(segments[1..], isType).Ok?)
  {
    if segments[0] != "" {
      SegmentRejectedWith(segments[0], |segments| == 1, isType);
    }
  }

  lemma SegmentRejectedWith(segment: string, last: bool, isType: string -> bool)
    requires segment != ""
    ensures Offence(segment, last, isType)
         == match ParseSegment(segment, isType)
            case Err(err) => Some(err)
            case Ok(c) => if c.CatchAllParam? && !last then Some(CatchAllNotLast) else None
  {
    if segment[0] == '<' && segment[|segment| - 1] == '>' {
      var ty := segment[1..|segment| - 1];
      assert segment == "<" + ty + ">";
      forall x { DottedType(segment, ty, x); }
      if ".." <= ty {
        assert segment == "<.." + ty[2..] + ">";
      }
    }
  }

  lemma DottedType(segment: string, ty: string, x: string)
    requires segment == "<" + ty + ">"
    ensures segment == "<.." + x + ">" <==> ty == ".." + x
    ensures ty == ".." + x <==> ".." <= ty && x == ty[2..]
  {
    assert segment[1..|segment| - 1] == ty;
    assert ("<.." + x + ">")[1..|x| + 3] == ".." + x;
  }
}
