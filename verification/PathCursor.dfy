/** The cursor that walks the segments of a request path. */
module PathCursor {
  import opened Outcomes

  datatype Cursor = Cursor(pos: nat, popped: nat)

  const START := Cursor(1, 0)

  datatype Popped = Popped(segment: Option<string>, cursor: Cursor)

  /** The offset of the first slash of `s`, or the length of `s`. */
  function SlashAt(s: string): (i: nat)
    ensures i <= |s|
    ensures i < |s| ==> s[i] == '/'
  {
    if s == "" || s[0] == '/' then 0 else 1 + SlashAt(s[1..])
  }

  lemma {:induction false} NoSlashBefore(s: string)
    ensures '/' !in s[..SlashAt(s)]
  {
    if s != "" && s[0] != '/' {
      NoSlashBefore(s[1..]);
      assert s[..SlashAt(s)] == [s[0]] + s[1..][..SlashAt(s[1..])];
    }
  }

  lemma {:induction false} SlashAfter(text: string, rest: string)
    requires '/' !in text && (rest == "" || rest[0] == '/')
    ensures SlashAt(text + rest) == |text|
  {
    if text == "" {
      assert text + rest == rest;
    } else {
      assert text[0] in text;
      assert (text + rest)[1..] == text[1..] + rest;
      SlashAfter(text[1..], rest);
    }
  }

  function NextSegment(path: string, c: Cursor): (r: Popped)
    requires c.pos <= |path|
    ensures r.cursor.pos <= |path|
  {
    if c.pos == |path| then
      Popped(None, c)
    else
      var offset := SlashAt(path[c.pos..]);
      if c.pos + offset < |path| then
        Popped(Some(path[c.pos..c.pos + offset]), Cursor(c.pos + offset + 1, c.popped + 1))
      else
        Popped(Some(path[c.pos..]), Cursor(|path|, c.popped + 1))
  }

  function Advance(path: string, c: Cursor, n: nat): (r: Cursor)
    requires c.pos <= |path|
    ensures r.pos <= |path|
    decreases n
  {
    if n == 0 then c else Advance(path, NextSegment(path, c).cursor, n - 1)
  }

  /** The pieces of `s` between its slashes. */
  function Split(s: string): (pieces: seq<string>)
    ensures |pieces| > 0
  {
    var i := SlashAt(s);
    if i == |s| then [s] else [s[..i]] + Split(s[i + 1..])
  }

  function DropEmptyTail(pieces: seq<string>): seq<string>
    requires |pieces| > 0
  {
    if pieces[|pieces| - 1] == "" then pieces[..|pieces| - 1] else pieces
  }

  /** The segments a cursor still has in front of it. */
  function Segments(path: string, c: Cursor): seq<string>
    requires c.pos <= |path|
  {
    DropEmptyTail(Split(path[c.pos..]))
  }

  /** Popping takes the first of the remaining segments and moves the count and
      the position together. */
  lemma PopTakesFirst(path: string, c: Cursor)
    requires c.pos <= |path|
    ensures Segments(path, c) == [] <==> c.pos == |path|
    ensures Segments(path, c) == [] ==> NextSegment(path, c) == Popped(None, c)
    ensures Segments(path, c) != [] ==>
              var r := NextSegment(path, c);
              && r.segment == Some(Segments(path, c)[0])
              && Segments(path, r.cursor) == Segments(path, c)[1..]
              && r.cursor.popped == c.popped + 1
              && r.cursor.pos > c.pos
  {
    var rest := path[c.pos..];
    if SlashAt(rest) < |rest| {
      PopUpToSlash(path, c);
    } else {
      assert Split(rest) == [rest];
      assert path[|path|..] == "" && Split("") == [""];
    }
  }

  lemma PopUpToSlash(path: string, c: Cursor)
    requires c.pos <= |path| && SlashAt(path[c.pos..]) < |path| - c.pos
    ensures var r := NextSegment(path, c);
            && r.segment.Some? && Segments(path, c) == [r.segment.value] + Segments(path, r.cursor)
            && r.cursor.popped == c.popped + 1 && r.cursor.pos > c.pos
  {
    var rest := path[c.pos..];
    var i := SlashAt(rest);
    assert path[c.pos + i + 1..] == rest[i + 1..];
    assert path[c.pos..c.pos + i] == rest[..i];
    DropEmptyTailCons(rest[..i], Split(rest[i + 1..]));
  }

  lemma DropEmptyTailCons(piece: string, pieces: seq<string>)
    requires |pieces| > 0
    ensures DropEmptyTail([piece] + pieces) == [piece] + DropEmptyTail(pieces)
  {
    assert ([piece] + pieces)[..|pieces|] == [piece] + pieces[..|pieces| - 1];
  }

  /** Popping `n` times drops the first `n` remaining segments, and the count
      grows by the number of segments actually popped. */
  lemma AdvanceDrops(path: string, c: Cursor, n: nat)
    requires c.pos <= |path|
    ensures var segs := Segments(path, c);
            var r := Advance(path, c, n);
            if n <= |segs|
            then Segments(path, r) == segs[n..] && r.popped == c.popped + n
            else Segments(path, r) == [] && r.popped == c.popped + |segs|
    decreases n
  {
    PopTakesFirst(path, c);
    if n > 0 {
      AdvanceDrops(path, NextSegment(path, c).cursor, n - 1);
    }
  }

  lemma AdvanceAdds(path: string, c: Cursor, m: nat, n: nat)
    requires c.pos <= |path|
    ensures Advance(path, Advance(path, c, m), n) == Advance(path, c, m + n)
    decreases m
  {
    if m > 0 {
      AdvanceAdds(path, NextSegment(path, c).cursor, m - 1, n);
    }
  }

  /** The request paths the cursor is created for. */
  ghost predicate IsPath(path: string) {
    path != "" && path[0] == '/'
  }

  /** Repeated popping of a path yields, in order, the pieces after its first
      slash with one empty last piece dropped, and then nothing. */
  lemma WalkYieldsSegments(path: string, i: nat)
    requires IsPath(path)
    ensures var segs := DropEmptyTail(Split(path[1..]));
            NextSegment(path, Advance(path, START, i)).segment
              == if i < |segs| then Some(segs[i]) else None
  {
    AdvanceDrops(path, START, i);
    PopTakesFirst(path, Advance(path, START, i));
  }

  /** The cursors some sequence of pops can reach. */
  ghost predicate OnTrack(path: string, c: Cursor)
    requires IsPath(path)
  {
    c == Advance(path, START, c.popped)
  }

  lemma AdvanceGrows(path: string, c: Cursor, n: nat)
    requires c.pos <= |path|
    ensures var r := Advance(path, c, n);
            r.popped >= c.popped && (r == c || (r.popped > c.popped && r.pos > c.pos))
    decreases n
  {
    PopTakesFirst(path, c);
    if n > 0 {
      AdvanceGrows(path, NextSegment(path, c).cursor, n - 1);
    }
  }

  lemma AdvanceStaysOnTrack(path: string, c: Cursor, n: nat)
    requires IsPath(path) && OnTrack(path, c)
    ensures OnTrack(path, Advance(path, c, n))
  {
    AdvanceAdds(path, START, c.popped, n);
    AdvanceSaturates(path, START, c.popped + n);
  }

  /** Popping past the end changes nothing more. */
  lemma AdvanceSaturates(path: string, c: Cursor, n: nat)
    requires c.pos <= |path|
    ensures var r := Advance(path, c, n);
            r.popped >= c.popped && r == Advance(path, c, r.popped - c.popped)
  {
    var m := |Segments(path, c)|;
    AdvanceDrops(path, c, n);
    if n > m {
      AdvanceDrops(path, c, m);
      AdvanceAdds(path, c, m, n - m);
      AtEnd(path, Advance(path, c, m), n - m);
    }
  }

  lemma AtEnd(path: string, c: Cursor, n: nat)
    requires c.pos <= |path| && Segments(path, c) == []
    ensures Advance(path, c, n) == c
  {
    PopTakesFirst(path, c);
    if n > 0 { AtEnd(path, c, n - 1); }
  }

  /** On the cursors a walk can reach, the number of popped segments and the
      position order cursors alike and determine each other. */
  lemma CountOrdersPositions(path: string, c: Cursor, d: Cursor)
    requires IsPath(path) && OnTrack(path, c) && OnTrack(path, d)
    ensures c.pos <= |path| && d.pos <= |path|
    ensures c.popped <= d.popped <==> c.pos <= d.pos
    ensures c.popped == d.popped <==> c == d
  {
    if c.popped <= d.popped {
      AdvanceAdds(path, START, c.popped, d.popped - c.popped);
      AdvanceGrows(path, c, d.popped - c.popped);
    } else {
      AdvanceAdds(path, START, d.popped, c.popped - d.popped);
      AdvanceGrows(path, d, c.popped - d.popped);
    }
  }
}
