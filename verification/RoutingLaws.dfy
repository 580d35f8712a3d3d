/** Which route a tree of `Or`s or of `OrStrict`s takes, whatever its shape. */
module RoutingLaws {
  import opened Outcomes
  import opened PathCursor
  import opened Extraction
  import opened Endpoints

  /** A route of a choice tree with its position: the sides taken from the root. */
  datatype Lane = Lane(position: seq<bool>, e: Endpoint)

  predicate IsChoice(e: Endpoint, strict: bool) {
    if strict then e.OrStrict? else e.Or?
  }

  function Under(side: bool, lanes: seq<Lane>): (r: seq<Lane>)
    ensures |r| == |lanes|
    ensures forall i | 0 <= i < |r| :: r[i] == Lane([side] + lanes[i].position, lanes[i].e)
  {
    seq(|lanes|, i requires 0 <= i < |lanes| => Lane([side] + lanes[i].position, lanes[i].e))
  }

  /** The routes of the tree of `Or`s (or of `OrStrict`s) at the top of `e`, from
      left to right. */
  function Lanes(e: Endpoint, strict: bool): (lanes: seq<Lane>)
    ensures |lanes| > 0
    decreases e
  {
    if IsChoice(e, strict)
    then Under(true, Lanes(e.e1, strict)) + Under(false, Lanes(e.e2, strict))
    else [Lane([], e)]
  }

  predicate Matches(l: Lane, path: string, c: Cursor)
    requires c.pos <= |path|
  {
    Route(l.e, path, c).verdict.Ok?
  }

  function PopCount(l: Lane, path: string, c: Cursor): nat
    requires c.pos <= |path|
  {
    Route(l.e, path, c).cursor.popped
  }

  /** An output wrapped in the `Either`s of its position. */
  function Tagged(position: seq<bool>, out: Output): Output {
    if position == [] then out else Tag(position[0], Tagged(position[1..], out))
  }

  /** Lane `i` matches, no matching lane pops more segments, and no matching lane
      to its left pops as many. */
  ghost predicate IsBest(lanes: seq<Lane>, i: nat, path: string, c: Cursor)
    requires c.pos <= |path|
  {
    && i < |lanes| && Matches(lanes[i], path, c)
    && (forall j | 0 <= j < |lanes| && Matches(lanes[j], path, c) ::
          PopCount(lanes[j], path, c) <= PopCount(lanes[i], path, c))
    && (forall j | 0 <= j < i && Matches(lanes[j], path, c) ::
          PopCount(lanes[j], path, c) < PopCount(lanes[i], path, c))
  }

  /** `e` routes and runs as the lane alone does, up to the lane's tags. */
  ghost predicate Follows(e: Endpoint, l: Lane, path: string, c: Cursor)
    requires c.pos <= |path|
  {
    && Matches(l, path, c)
    && Route(e, path, c)
       == Routed(MapVerdict(Route(l.e, path, c).verdict, out => Tagged(l.position, out)), Route(l.e, path, c).cursor)
    && forall s :: Run(e, path, c, s) == MapOutcome(Run(l.e, path, c, s), out => Tagged(l.position, out))
  }

  lemma FollowsThroughOr(e: Endpoint, left: bool, l: Lane, tagged: Lane, path: string, c: Cursor)
    requires c.pos <= |path| && e.Or?
    requires Follows(if left then e.e1 else e.e2, l, path, c)
    requires left == LeftWins(Route(e.e1, path, c), Route(e.e2, path, c))
    requires tagged == Lane([left] + l.position, l.e)
    ensures Route(e, path, c).verdict.Ok? && Follows(e, tagged, path, c)
  {
    assert tagged.position[1..] == l.position;
    assert forall out :: Tagged(tagged.position, out) == Tag(left, Tagged(l.position, out));
  }

  /** The lanes of a choice are those of its left side, then those of its right. */
  ghost predicate Joins(lanes: seq<Lane>, ls: seq<Lane>, rs: seq<Lane>) {
    && |lanes| == |ls| + |rs|
    && (forall j | 0 <= j < |ls| :: lanes[j] == Lane([true] + ls[j].position, ls[j].e))
    && (forall j | |ls| <= j < |lanes| ::
          lanes[j] == Lane([false] + rs[j - |ls|].position, rs[j - |ls|].e))
  }

  lemma LanesJoin(e: Endpoint, strict: bool)
    requires IsChoice(e, strict)
    ensures Joins(Lanes(e, strict), Lanes(e.e1, strict), Lanes(e.e2, strict))
  {
    UnderJoins(Lanes(e.e1, strict), Lanes(e.e2, strict));
  }

  lemma UnderJoins(ls: seq<Lane>, rs: seq<Lane>)
    ensures Joins(Under(true, ls) + Under(false, rs), ls, rs)
  {}

  lemma NoneMatchJoined(lanes: seq<Lane>, ls: seq<Lane>, rs: seq<Lane>, path: string, c: Cursor)
    requires c.pos <= |path| && Joins(lanes, ls, rs)
    ensures NoneMatch(lanes, path, c) <==> NoneMatch(ls, path, c) && NoneMatch(rs, path, c)
  {
    if NoneMatch(lanes, path, c) {
      forall j | 0 <= j < |ls| ensures !Matches(ls[j], path, c) {
        assert !Matches(lanes[j], path, c);
      }
      forall j | 0 <= j < |rs| ensures !Matches(rs[j], path, c) {
        assert !Matches(lanes[|ls| + j], path, c);
      }
    }
  }

  ghost predicate NoneMatch(lanes: seq<Lane>, path: string, c: Cursor)
    requires c.pos <= |path|
  {
    forall j | 0 <= j < |lanes| :: !Matches(lanes[j], path, c)
  }

  /** No matching lane pops more than `n` segments. */
  ghost predicate AtMost(lanes: seq<Lane>, n: int, path: string, c: Cursor)
    requires c.pos <= |path|
  {
    forall j | 0 <= j < |lanes| && Matches(lanes[j], path, c) :: PopCount(lanes[j], path, c) <= n
  }

  lemma BestOnLeft(lanes: seq<Lane>, ls: seq<Lane>, rs: seq<Lane>, i: nat, path: string, c: Cursor)
    requires c.pos <= |path| && Joins(lanes, ls, rs) && IsBest(ls, i, path, c)
    requires AtMost(rs, PopCount(ls[i], path, c), path, c)
    ensures IsBest(lanes, i, path, c)
  {}

  lemma BestOnRight(lanes: seq<Lane>, ls: seq<Lane>, rs: seq<Lane>, i: nat, path: string, c: Cursor)
    requires c.pos <= |path| && Joins(lanes, ls, rs) && IsBest(rs, i, path, c)
    requires AtMost(ls, PopCount(rs[i], path, c) - 1, path, c)
    ensures IsBest(lanes, |ls| + i, path, c)
  {
    assert lanes[|ls| + i].e == rs[i].e;
  }

  /** What a picked side allows its routes to have popped. */
  lemma PickedAtMost(lanes: seq<Lane>, e: Endpoint, i: nat, n: int, path: string, c: Cursor)
    requires c.pos <= |path| && PicksFrom(lanes, e, i, path, c)
    requires Route(e, path, c).verdict.Ok? ==> Route(e, path, c).cursor.popped <= n
    ensures AtMost(lanes, n, path, c)
  {
    if Route(e, path, c).verdict.Ok? {
      FollowedPops(e, lanes[i], path, c);
    }
  }

  /** If `e` matches, lane `i` is the best one and `e` follows it; otherwise no
      lane matches. */
  ghost predicate PicksFrom(lanes: seq<Lane>, e: Endpoint, i: nat, path: string, c: Cursor)
    requires c.pos <= |path|
  {
    if Route(e, path, c).verdict.Ok?
    then IsBest(lanes, i, path, c) && Follows(e, lanes[i], path, c)
    else NoneMatch(lanes, path, c)
  }

  ghost predicate Picks(e: Endpoint, i: nat, path: string, c: Cursor)
    requires c.pos <= |path|
  {
    PicksFrom(Lanes(e, false), e, i, path, c)
  }

  /** The route a tree of `Or`s takes, found along the tree. */
  lemma {:induction false} OrWinner(e: Endpoint, path: string, c: Cursor) returns (i: nat)
    requires c.pos <= |path|
    ensures Picks(e, i, path, c)
    decreases e
  {
    if e.Or? {
      var il := OrWinner(e.e1, path, c);
      var ir := OrWinner(e.e2, path, c);
      i := WinnerOfSides(e, il, ir, path, c);
    } else {
      i := 0;
    }
  }

  lemma WinnerOfSides(e: Endpoint, il: nat, ir: nat, path: string, c: Cursor) returns (i: nat)
    requires c.pos <= |path| && e.Or?
    requires Picks(e.e1, il, path, c) && Picks(e.e2, ir, path, c)
    ensures Picks(e, i, path, c)
  {
    var lanes, ls, rs := Lanes(e, false), Lanes(e.e1, false), Lanes(e.e2, false);
    var l, r := Route(e.e1, path, c), Route(e.e2, path, c);
    LanesJoin(e, false);
    if LeftWins(l, r) {
      i := il;
      WinnerOnLeft(e, lanes, ls, rs, il, ir, path, c);
    } else if r.verdict.Ok? {
      i := |ls| + ir;
      WinnerOnRight(e, lanes, ls, rs, il, ir, path, c);
    } else {
      i := 0;
      NoneMatchJoined(lanes, ls, rs, path, c);
    }
  }

  lemma WinnerOnLeft(e: Endpoint, lanes: seq<Lane>, ls: seq<Lane>, rs: seq<Lane>, il: nat, ir: nat, path: string,
                     c: Cursor)
    requires c.pos <= |path| && e.Or? && LeftWins(Route(e.e1, path, c), Route(e.e2, path, c))
    requires Joins(lanes, ls, rs) && PicksFrom(ls, e.e1, il, path, c) && PicksFrom(rs, e.e2, ir, path, c)
    ensures PicksFrom(lanes, e, il, path, c)
  {
    FollowedPops(e.e1, ls[il], path, c);
    PickedAtMost(rs, e.e2, ir, Route(e.e1, path, c).cursor.popped, path, c);
    BestOnLeft(lanes, ls, rs, il, path, c);
    FollowsThroughOr(e, true, ls[il], lanes[il], path, c);
  }

  lemma WinnerOnRight(e: Endpoint, lanes: seq<Lane>, ls: seq<Lane>, rs: seq<Lane>, il: nat, ir: nat, path: string,
                      c: Cursor)
    requires c.pos <= |path| && e.Or? && !LeftWins(Route(e.e1, path, c), Route(e.e2, path, c))
    requires Route(e.e2, path, c).verdict.Ok?
    requires Joins(lanes, ls, rs) && PicksFrom(ls, e.e1, il, path, c) && PicksFrom(rs, e.e2, ir, path, c)
    ensures PicksFrom(lanes, e, |ls| + ir, path, c)
  {
    FollowedPops(e.e2, rs[ir], path, c);
    PickedAtMost(ls, e.e1, il, Route(e.e2, path, c).cursor.popped - 1, path, c);
    BestOnRight(lanes, ls, rs, ir, path, c);
    FollowsThroughOr(e, false, rs[ir], lanes[|ls| + ir], path, c);
  }

  lemma FollowedPops(e: Endpoint, l: Lane, path: string, c: Cursor)
    requires c.pos <= |path| && Follows(e, l, path, c)
    ensures PopCount(l, path, c) == Route(e, path, c).cursor.popped
  {}

  /** A tree of `Or`s, whatever its shape, takes the leftmost of the matching
      routes that pop the most segments; routing, result, cursor and body are that
      route's own, with the result tagged by the route's position. */
  lemma OrTakesBestRoute(e: Endpoint, path: string, c: Cursor, i: nat)
    requires c.pos <= |path| && IsBest(Lanes(e, false), i, path, c)
    ensures Follows(e, Lanes(e, false)[i], path, c)
  {
    var w := OrWinner(e, path, c);
    assert Matches(Lanes(e, false)[i], path, c);
    assert w == i;
  }

  /** It fails exactly when every route fails. */
  lemma OrFailsWhenAllFail(e: Endpoint, path: string, c: Cursor)
    requires c.pos <= |path|
    ensures Route(e, path, c).verdict.Err? <==> NoneMatch(Lanes(e, false), path, c)
  {
    var _ := OrWinner(e, path, c);
  }

  /** Lane `i` is the first that matches. */
  ghost predicate IsFirst(lanes: seq<Lane>, i: nat, path: string, c: Cursor)
    requires c.pos <= |path|
  {
    && i < |lanes| && Matches(lanes[i], path, c)
    && forall j | 0 <= j < i :: !Matches(lanes[j], path, c)
  }

  /** A tree of `OrStrict`s, whatever its shape, takes the first route that
      matches, tried from the cursor the choice began with. The routes after it do
      not matter: nothing on the right-hand side mentions them. */
  lemma {:induction false} OrStrictTakesFirstRoute(e: Endpoint, path: string, c: Cursor, i: nat)
    requires c.pos <= |path| && IsFirst(Lanes(e, true), i, path, c)
    ensures var l := Lanes(e, true)[i];
            && Route(e, path, c) == Route(l.e, path, c)
            && forall s :: Run(e, path, c, s) == Run(l.e, path, c, s)
    decreases e
  {
    if e.OrStrict? {
      var lanes, ls, rs := Lanes(e, true), Lanes(e.e1, true), Lanes(e.e2, true);
      LanesJoin(e, true);
      if i < |ls| {
        FirstOnLeft(lanes, ls, rs, i, path, c);
        OrStrictTakesFirstRoute(e.e1, path, c, i);
      } else {
        FirstOnRight(lanes, ls, rs, i, path, c);
        ChoiceFails(e.e1, true, path, c);
        OrStrictTakesFirstRoute(e.e2, path, c, i - |ls|);
      }
    }
  }

  lemma FirstOnLeft(lanes: seq<Lane>, ls: seq<Lane>, rs: seq<Lane>, i: nat, path: string, c: Cursor)
    requires c.pos <= |path| && Joins(lanes, ls, rs) && IsFirst(lanes, i, path, c) && i < |ls|
    ensures IsFirst(ls, i, path, c) && lanes[i].e == ls[i].e
  {
    forall j | 0 <= j < i ensures !Matches(ls[j], path, c) {
      assert !Matches(lanes[j], path, c);
    }
  }

  lemma FirstOnRight(lanes: seq<Lane>, ls: seq<Lane>, rs: seq<Lane>, i: nat, path: string, c: Cursor)
    requires c.pos <= |path| && Joins(lanes, ls, rs) && IsFirst(lanes, i, path, c) && i >= |ls|
    ensures NoneMatch(ls, path, c) && IsFirst(rs, i - |ls|, path, c) && lanes[i].e == rs[i - |ls|].e
  {
    forall j | 0 <= j < |ls| ensures !Matches(ls[j], path, c) {
      assert !Matches(lanes[j], path, c);
    }
    forall j | 0 <= j < i - |ls| ensures !Matches(rs[j], path, c) {
      assert !Matches(lanes[|ls| + j], path, c);
    }
  }

  /** The attempts of some lanes one after the other, all from the same cursor. */
  function AllAttempts(lanes: seq<Lane>, path: string, c: Cursor): seq<Attempt>
    requires c.pos <= |path|
  {
    if lanes == [] then [] else Attempts(lanes[0].e, path, c) + AllAttempts(lanes[1..], path, c)
  }

  lemma {:induction false} AllAttemptsAppend(xs: seq<Lane>, ys: seq<Lane>, path: string, c: Cursor)
    requires c.pos <= |path|
    ensures AllAttempts(xs + ys, path, c) == AllAttempts(xs, path, c) + AllAttempts(ys, path, c)
  {
    if xs == [] {
      assert xs + ys == ys;
    } else {
      assert (xs + ys)[1..] == xs[1..] + ys;
      AllAttemptsAppend(xs[1..], ys, path, c);
    }
  }

  lemma {:induction false} AttemptsUnder(side: bool, lanes: seq<Lane>, path: string, c: Cursor)
    requires c.pos <= |path|
    ensures AllAttempts(Under(side, lanes), path, c) == AllAttempts(lanes, path, c)
  {
    if lanes != [] {
      assert Under(side, lanes)[1..] == Under(side, lanes[1..]);
      AttemptsUnder(side, lanes[1..], path, c);
    }
  }

  /** A tree of `Or`s always tries all its routes, each from the cursor the choice
      began with. */
  lemma {:induction false} OrTriesAllRoutes(e: Endpoint, path: string, c: Cursor)
    requires c.pos <= |path|
    ensures Attempts(e, path, c) == AllAttempts(Lanes(e, false), path, c)
    decreases e
  {
    if e.Or? {
      var ls, rs := Lanes(e.e1, false), Lanes(e.e2, false);
      OrTriesAllRoutes(e.e1, path, c);
      OrTriesAllRoutes(e.e2, path, c);
      AttemptsUnder(true, ls, path, c);
      AttemptsUnder(false, rs, path, c);
      AllAttemptsAppend(Under(true, ls), Under(false, rs), path, c);
    } else {
      assert [Lane([], e)][1..] == [];
    }
  }

  /** The attempts of some lanes in order, up to and including the first lane
      that matches. */
  function AttemptsToMatch(lanes: seq<Lane>, path: string, c: Cursor): seq<Attempt>
    requires c.pos <= |path|
  {
    if lanes == [] then []
    else
      Attempts(lanes[0].e, path, c)
      + if Matches(lanes[0], path, c) then [] else AttemptsToMatch(lanes[1..], path, c)
  }

  lemma {:induction false} AttemptsToMatchAppend(xs: seq<Lane>, ys: seq<Lane>, path: string, c: Cursor)
    requires c.pos <= |path|
    ensures AttemptsToMatch(xs + ys, path, c)
         == AttemptsToMatch(xs, path, c) + if NoneMatch(xs, path, c) then AttemptsToMatch(ys, path, c) else []
  {
    if xs == [] {
      assert xs + ys == ys;
    } else {
      assert (xs + ys)[1..] == xs[1..] + ys;
      AttemptsToMatchAppend(xs[1..], ys, path, c);
      if !Matches(xs[0], path, c) {
        NoneMatchCons(xs, path, c);
      }
    }
  }

  lemma NoneMatchCons(lanes: seq<Lane>, path: string, c: Cursor)
    requires c.pos <= |path| && lanes != [] && !Matches(lanes[0], path, c)
    ensures NoneMatch(lanes, path, c) <==> NoneMatch(lanes[1..], path, c)
  {
    if NoneMatch(lanes[1..], path, c) {
      forall j | 0 <= j < |lanes| ensures !Matches(lanes[j], path, c) {
        if j > 0 { assert lanes[j] == lanes[1..][j - 1]; }
      }
    }
  }

  lemma {:induction false} AttemptsToMatchUnder(side: bool, lanes: seq<Lane>, path: string, c: Cursor)
    requires c.pos <= |path|
    ensures AttemptsToMatch(Under(side, lanes), path, c) == AttemptsToMatch(lanes, path, c)
    ensures NoneMatch(Under(side, lanes), path, c) <==> NoneMatch(lanes, path, c)
  {
    var us := Under(side, lanes);
    assert forall j | 0 <= j < |lanes| :: Matches(us[j], path, c) == Matches(lanes[j], path, c);
    if lanes != [] {
      assert us[1..] == Under(side, lanes[1..]);
      AttemptsToMatchUnder(side, lanes[1..], path, c);
    }
  }

  /** A tree of `OrStrict`s tries its routes in order, each from the cursor the
      choice began with, and no route after the first that matches. */
  lemma {:induction false} OrStrictStopsAtFirstMatch(e: Endpoint, path: string, c: Cursor)
    requires c.pos <= |path|
    ensures Attempts(e, path, c) == AttemptsToMatch(Lanes(e, true), path, c)
    decreases e
  {
    if e.OrStrict? {
      var ls, rs := Lanes(e.e1, true), Lanes(e.e2, true);
      OrStrictStopsAtFirstMatch(e.e1, path, c);
      OrStrictStopsAtFirstMatch(e.e2, path, c);
      OrStrictMatches(e.e1, path, c);
      AttemptsToMatchUnder(true, ls, path, c);
      AttemptsToMatchUnder(false, rs, path, c);
      AttemptsToMatchAppend(Under(true, ls), Under(false, rs), path, c);
    } else {
      assert [Lane([], e)][1..] == [];
    }
  }

  /** A tree of `OrStrict`s matches exactly when one of its routes does. */
  lemma {:induction false} OrStrictMatches(e: Endpoint, path: string, c: Cursor)
    requires c.pos <= |path|
    ensures Route(e, path, c).verdict.Err? <==> NoneMatch(Lanes(e, true), path, c)
    decreases e
  {
    if e.OrStrict? {
      var lanes, ls, rs := Lanes(e, true), Lanes(e.e1, true), Lanes(e.e2, true);
      LanesJoin(e, true);
      OrStrictMatches(e.e1, path, c);
      OrStrictMatches(e.e2, path, c);
      NoneMatchJoined(lanes, ls, rs, path, c);
    } else {
      assert Lanes(e, true) == [Lane([], e)];
      assert Matches(Lanes(e, true)[0], path, c) == Route(e, path, c).verdict.Ok?;
    }
  }

  /** A recovered endpoint always matches, at the cursor its own routing reached
      even when that failed, since the cursor is not rewound. As the left side of an
      `Or` it therefore loses only to a match that popped more than that, and as the
      left side of an `OrStrict` it never lets the right side be tried. */
  lemma RecoveredSideCompetes(e: Endpoint, rescue: Error -> Promise<Value>, d: Endpoint, path: string, c: Cursor)
    requires c.pos <= |path|
    ensures var rec := Recover(e, rescue);
            var l, r := Route(e, path, c), Route(d, path, c);
            && Route(Or(rec, d), path, c).verdict.Ok?
            && (Route(Or(rec, d), path, c).cursor
                == if r.verdict.Ok? && r.cursor.popped > l.cursor.popped then r.cursor else l.cursor)
            && Route(OrStrict(rec, d), path, c).cursor == l.cursor
            && Attempts(OrStrict(rec, d), path, c) == Attempts(e, path, c)
  {
    var rec := Route(Recover(e, rescue), path, c);
    assert Attempts(Recover(e, rescue), path, c) + [] == Attempts(e, path, c);
  }

  /** The error found by following a position into nested `NotMatched` errors. */
  function ErrorAt(err: Error, position: seq<bool>): Option<Error> {
    if position == [] then Some(err)
    else if err.NotMatched? then ErrorAt(if position[0] then err.left else err.right, position[1..])
    else None
  }

  /** When no route of a choice tree matches, the tree fails with nested
      `NotMatched` errors that hold each route's own error at the route's
      position. */
  lemma {:induction false} ChoiceFails(e: Endpoint, strict: bool, path: string, c: Cursor)
    requires c.pos <= |path|
    requires NoneMatch(Lanes(e, strict), path, c)
    ensures Route(e, path, c).verdict.Err?
    ensures HoldsErrors(Route(e, path, c).verdict.error, Lanes(e, strict), path, c)
    decreases e
  {
    if IsChoice(e, strict) {
      var lanes, ls, rs := Lanes(e, strict), Lanes(e.e1, strict), Lanes(e.e2, strict);
      LanesJoin(e, strict);
      NoneMatchJoined(lanes, ls, rs, path, c);
      ChoiceFails(e.e1, strict, path, c);
      ChoiceFails(e.e2, strict, path, c);
      ErrorsJoined(lanes, ls, rs, Route(e.e1, path, c).verdict.error, Route(e.e2, path, c).verdict.error, path, c);
    } else {
      assert !Matches(Lanes(e, strict)[0], path, c);
    }
  }

  ghost predicate HoldsErrors(err: Error, lanes: seq<Lane>, path: string, c: Cursor)
    requires c.pos <= |path|
  {
    forall j | 0 <= j < |lanes| ::
      Route(lanes[j].e, path, c).verdict.Err? &&
      ErrorAt(err, lanes[j].position) == Some(Route(lanes[j].e, path, c).verdict.error)
  }

  lemma ErrorsJoined(lanes: seq<Lane>, ls: seq<Lane>, rs: seq<Lane>, el: Error, er: Error, path: string, c: Cursor)
    requires c.pos <= |path| && Joins(lanes, ls, rs)
    requires HoldsErrors(el, ls, path, c) && HoldsErrors(er, rs, path, c)
    ensures HoldsErrors(NotMatched(el, er), lanes, path, c)
  {
    forall j | 0 <= j < |lanes|
      ensures Route(lanes[j].e, path, c).verdict.Err?
      ensures ErrorAt(NotMatched(el, er), lanes[j].position) == Some(Route(lanes[j].e, path, c).verdict.error)
    {
      var l := if j < |ls| then ls[j] else rs[j - |ls|];
      assert lanes[j].position[1..] == l.position;
    }
  }

  /** Routing moves the cursor only along the walk of the path. */
  lemma {:induction false} RouteStaysOnTrack(e: Endpoint, path: string, c: Cursor)
    requires IsPath(path) && OnTrack(path, c) && c.pos <= |path|
    ensures OnTrack(path, Route(e, path, c).cursor)
  {
    match e {
      case Oneshot(x) => ExtractStaysOnTrack(x, path, c);
      case And(e1, e2) =>
        RouteStaysOnTrack(e1, path, c);
        RouteStaysOnTrack(e2, path, Route(e1, path, c).cursor);
      case Or(e1, e2) =>
        RouteStaysOnTrack(e1, path, c);
        RouteStaysOnTrack(e2, path, c);
      case OrStrict(e1, e2) =>
        RouteStaysOnTrack(e1, path, c);
        RouteStaysOnTrack(e2, path, c);
      case Map(e1, _) => RouteStaysOnTrack(e1, path, c);
      case MapErr(e1, _) => RouteStaysOnTrack(e1, path, c);
      case AndThen(e1, _) => RouteStaysOnTrack(e1, path, c);
      case Recover(e1, _) => RouteStaysOnTrack(e1, path, c);
      case _ =>
    }
  }

  lemma ExtractStaysOnTrack(x: Extractor, path: string, c: Cursor)
    requires IsPath(path) && OnTrack(path, c) && c.pos <= |path|
    ensures OnTrack(path, Extract(x, path, c).cursor)
  {
    AdvanceStaysOnTrack(path, c, 1);
    assert Advance(path, c, 1) == NextSegment(path, c).cursor;
    match x {
      case Remains(_, _) => AdvanceStaysOnTrack(path, c, |Segments(path, c)|);
      case Custom(probe) => AdvanceStaysOnTrack(path, c, probe(path, c).pops);
      case Compiled(components, decode) =>
        ExecStaysOnTrack(Compile(components).extracts, map[], path, c, decode);
      case _ =>
    }
  }

  lemma {:induction false} ExecStaysOnTrack(stmts: seq<Stmt>, env: Env, path: string, c: Cursor, decode: Decoder)
    requires IsPath(path) && OnTrack(path, c) && c.pos <= |path|
    ensures OnTrack(path, ExecStmts(stmts, env, path, c, decode).cursor)
    decreases |stmts|
  {
    if stmts != [] {
      AdvanceStaysOnTrack(path, c, 1);
      assert Advance(path, c, 1) == NextSegment(path, c).cursor;
      AdvanceStaysOnTrack(path, c, |Segments(path, c)|);
      var first := ExecStmt(stmts[0], env, path, c, decode);
      if first.result.Ok? {
        ExecStaysOnTrack(stmts[1..], first.result.value, path, first.cursor, decode);
      }
    }
  }

  /** When both sides of an `Or` match, the count comparison decides by position:
      the right side wins exactly when it is further along the path, and a tie
      leaves both at the identical cursor. */
  lemma OrComparesPositions(e1: Endpoint, e2: Endpoint, path: string, c: Cursor)
    requires IsPath(path) && OnTrack(path, c) && c.pos <= |path|
    requires Route(e1, path, c).verdict.Ok? && Route(e2, path, c).verdict.Ok?
    ensures var l, r := Route(e1, path, c), Route(e2, path, c);
            && Route(Or(e1, e2), path, c).cursor == (if l.cursor.pos >= r.cursor.pos then l.cursor else r.cursor)
            && (l.cursor.popped == r.cursor.popped <==> l.cursor == r.cursor)
  {
    RouteStaysOnTrack(e1, path, c);
    RouteStaysOnTrack(e2, path, c);
    CountOrdersPositions(path, Route(e1, path, c).cursor, Route(e2, path, c).cursor);
    CountOrdersPositions(path, Route(e2, path, c).cursor, Route(e1, path, c).cursor);
  }
}
