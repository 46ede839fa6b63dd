/** The operator edge's template router: validating the table, matching a path, building the upstream path. */
module Router {
  import opened OrderedMap
  import opened Text
  import opened Wrappers

  datatype Method = GET | POST

  datatype Upstream = Identity | Settlement

  datatype Route = Route(verb: Method, path: string, upstream: Upstream, rewriteTo: string)

  /** `segment.startsWith(':')` */
  predicate IsParameter(segment: string) { segment != "" && segment[0] == ':' }

  /** A parameter is a whole segment or the segment is literal text. */
  predicate Whole(segment: string) { ':' in segment ==> IsParameter(segment) }

  function Segments(path: string): seq<string> { Split(path, '/') }

  // ---------------------------------------------------------------- the table

  datatype Defect =
    | Unreachable(row: nat)
    | InsideSegment(row: nat, segment: string)
    | Uncaptured(row: nat, segment: string)

  ghost predicate RowOk(route: Route) {
    && "/api/" <= route.path
    && (forall s :: s in Segments(route.path) + Segments(route.rewriteTo) ==> Whole(s))
    && (forall s :: s in Segments(route.rewriteTo) && IsParameter(s) ==> s in Segments(route.path))
  }

  /** The defect names something that is wrong with its row. */
  ghost predicate Genuine(defect: Defect, route: Route) {
    match defect
    case Unreachable(_) => !("/api/" <= route.path)
    case InsideSegment(_, s) => s in Segments(route.path) + Segments(route.rewriteTo) && !Whole(s)
    case Uncaptured(_, s) => s in Segments(route.rewriteTo) && IsParameter(s) && s !in Segments(route.path)
  }

  method CheckRow(route: Route, row: nat) returns (defect: Option<Defect>)
    ensures defect.None? <==> RowOk(route)
    ensures defect.Some? ==> defect.value.row == row && Genuine(defect.value, route)
  {
    hide Split, Whole, IsParameter;
    if !("/api/" <= route.path) {
      return Some(Unreachable(row));
    }
    var segments := Segments(route.path) + Segments(route.rewriteTo);
    for i := 0 to |segments|
      invariant forall k :: 0 <= k < i ==> Whole(segments[k])
    {
      if !Whole(segments[i]) {
        return Some(InsideSegment(row, segments[i]));
      }
    }
    var captured, rewritten := Segments(route.path), Segments(route.rewriteTo);
    for i := 0 to |rewritten|
      invariant forall k :: 0 <= k < i && IsParameter(rewritten[k]) ==> rewritten[k] in captured
    {
      if IsParameter(rewritten[i]) && rewritten[i] !in captured {
        return Some(Uncaptured(row, rewritten[i]));
      }
    }
    defect := None;
  }

  /** Refuses the table at its first defective row, and accepts it exactly when no row is defective. */
  method AssertRoutesWellFormed(routes: seq<Route>) returns (defect: Option<Defect>)
    ensures defect.None? <==> forall i :: 0 <= i < |routes| ==> RowOk(routes[i])
    ensures defect.Some? ==> defect.value.row < |routes| && Genuine(defect.value, routes[defect.value.row])
                             && forall i :: 0 <= i < defect.value.row ==> RowOk(routes[i])
  {
    hide RowOk, Genuine;
    for i := 0 to |routes|
      invariant forall k :: 0 <= k < i ==> RowOk(routes[k])
    {
      defect := CheckRow(routes[i], i);
      if defect.Some? {
        return;
      }
    }
    defect := None;
  }

  // ---------------------------------------------------------------- matching

  predicate SegmentFits(expected: string, received: string) {
    if IsParameter(expected) then received != "" else expected == received
  }

  ghost predicate Fits(expected: seq<string>, actual: seq<string>) {
    |expected| == |actual| && forall i :: 0 <= i < |expected| ==> SegmentFits(expected[i], actual[i])
  }

  ghost predicate Matches(route: Route, verb: Method, pathname: string) {
    route.verb == verb && Fits(Segments(route.path), Segments(pathname))
  }

  method EverySegmentFits(expected: seq<string>, actual: seq<string>) returns (fits: bool)
    requires |expected| == |actual|
    ensures fits <==> Fits(expected, actual)
  {
    hide SegmentFits;
    for i := 0 to |expected|
      invariant forall k :: 0 <= k < i ==> SegmentFits(expected[k], actual[k])
    {
      if !SegmentFits(expected[i], actual[i]) {
        return false;
      }
    }
    fits := true;
  }

  /** The first row that matches, if any does. */
  method MatchRoute(routes: seq<Route>, verb: Method, pathname: string) returns (row: Option<nat>)
    ensures row.None? ==> forall i :: 0 <= i < |routes| ==> !Matches(routes[i], verb, pathname)
    ensures row.Some? ==> row.value < |routes| && Matches(routes[row.value], verb, pathname)
                          && forall i :: 0 <= i < row.value ==> !Matches(routes[i], verb, pathname)
  {
    hide Fits, Split;
    var actual := Segments(pathname);
    for i := 0 to |routes|
      invariant forall k :: 0 <= k < i ==> !Matches(routes[k], verb, pathname)
    {
      if routes[i].verb != verb {
        continue;
      }
      var expected := Segments(routes[i].path);
      if |expected| != |actual| {
        LengthsDiffer(expected, actual);
        continue;
      }
      var matched := EverySegmentFits(expected, actual);
      if matched {
        return Some(i);
      }
    }
    row := None;
  }

  lemma LengthsDiffer(expected: seq<string>, actual: seq<string>)
    requires |expected| != |actual|
    ensures !Fits(expected, actual)
  {
  }

  /** The template's segments with something that is not empty in place of each `:name`. */
  ghost predicate FilledIn(template: seq<string>, filled: seq<string>) {
    && |filled| == |template|
    && forall i :: 0 <= i < |template| ==>
         '/' !in filled[i] && (if ":" <= template[i] then filled[i] != "" else filled[i] == template[i])
  }

  /** A route matches exactly the paths that are its own with every parameter filled in, for its verb only. */
  lemma MatchesIffFilledIn(route: Route, verb: Method, pathname: string)
    ensures Matches(route, verb, pathname) <==>
            route.verb == verb && exists filled :: FilledIn(Segments(route.path), filled) && pathname == Join(filled, '/')
  {
    hide Split, Join;
    SplitIsFree(pathname, '/');
    JoinSplit(pathname, '/');
    forall segment: string ensures IsParameter(segment) <==> ":" <= segment {}
    if Matches(route, verb, pathname) {
      var actual, template := Segments(pathname), Segments(route.path);
      forall i | 0 <= i < |template|
        ensures '/' !in actual[i] && (if ":" <= template[i] then actual[i] != "" else actual[i] == template[i])
      {
        assert SegmentFits(template[i], actual[i]);
      }
      assert FilledIn(template, actual);
    }
    if filled :| FilledIn(Segments(route.path), filled) && pathname == Join(filled, '/') { SplitJoin(filled, '/'); }
  }

  // ---------------------------------------------------------------- rewriting

  /** What the template's parameters captured; a parameter named twice keeps its last segment. An index past
      the end of the received path reads as `undefined`, which `join` writes as nothing. */
  function Captured(template: seq<string>, actual: seq<string>): OMap<string> {
    if template == [] then []
    else
      var n := |template| - 1;
      var before := Captured(template[..n], actual);
      if IsParameter(template[n]) then Set(before, template[n], if n < |actual| then actual[n] else "") else before
  }

  function Substituted(captured: OMap<string>, segment: string): string {
    if IsParameter(segment) then GetOrEmpty(captured, segment) else segment
  }

  function SubstitutedAll(captured: OMap<string>, segments: seq<string>): seq<string> {
    seq(|segments|, i requires 0 <= i < |segments| => Substituted(captured, segments[i]))
  }

  function Rewritten(route: Route, pathname: string): string {
    Join(SubstitutedAll(Captured(Segments(route.path), Segments(pathname)), Segments(route.rewriteTo)), '/')
  }

  method RewritePath(route: Route, pathname: string) returns (upstreamPath: string)
    ensures upstreamPath == Rewritten(route, pathname)
  {
    hide Split, Join, Set, IsParameter, GetOrEmpty;
    var actual, template := Segments(pathname), Segments(route.path);
    var captured := [];
    for i := 0 to |template|
      invariant captured == Captured(template[..i], actual)
    {
      assert template[..i + 1][..i] == template[..i];
      if IsParameter(template[i]) {
        captured := Set(captured, template[i], if i < |actual| then actual[i] else "");
      }
    }
    assert template[..|template|] == template;
    var rewriteTo := Segments(route.rewriteTo);
    var parts := [];
    for i := 0 to |rewriteTo|
      invariant parts == SubstitutedAll(captured, rewriteTo[..i])
    {
      parts := parts + [Substituted(captured, rewriteTo[i])];
    }
    assert rewriteTo[..|rewriteTo|] == rewriteTo;
    upstreamPath := Join(parts, '/');
  }

  // ---------------------------------------------------------------- what a rewritten path is

  /** A captured parameter holds one of the received segments standing where the template names it. */
  lemma {:induction false} CapturedSegment(template: seq<string>, actual: seq<string>, name: string) returns (k: nat)
    requires name in template && IsParameter(name) && |template| <= |actual|
    ensures k < |template| && template[k] == name && Get(Captured(template, actual), name) == Some(actual[k])
    ensures forall j :: k < j < |template| ==> template[j] != name
    decreases |template|
  {
    hide IsParameter;
    var n := |template| - 1;
    var before := Captured(template[..n], actual);
    GetAfterSet(before, template[n], actual[n], name);
    if template[n] == name {
      k := n;
    } else {
      k := CapturedSegment(template[..n], actual, name);
    }
  }

  /** One segment of the upstream path: the template's literal, or a received segment unchanged and not
      empty, standing where the route's path names that parameter. */
  ghost predicate RightSegment(route: Route, pathname: string, expected: string, got: string) {
    if !IsParameter(expected) then got == expected
    else
      var template, actual := Segments(route.path), Segments(pathname);
      exists k :: 0 <= k < |template| && k < |actual| && template[k] == expected && got == actual[k] && got != ""
  }

  lemma SubstitutedRight(route: Route, verb: Method, pathname: string, segment: string)
    requires RowOk(route) && Matches(route, verb, pathname) && segment in Segments(route.rewriteTo)
    ensures var got := Substituted(Captured(Segments(route.path), Segments(pathname)), segment);
            RightSegment(route, pathname, segment, got) && '/' !in got
  {
    hide Split, IsParameter, Whole, Captured, Get;
    var template, actual := Segments(route.path), Segments(pathname);
    SplitIsFree(pathname, '/');
    SplitIsFree(route.rewriteTo, '/');
    if IsParameter(segment) {
      var k := CapturedSegment(template, actual, segment);
      assert SegmentFits(template[k], actual[k]);
    } else {
      var i :| 0 <= i < |Segments(route.rewriteTo)| && Segments(route.rewriteTo)[i] == segment;
    }
  }

  /** For an accepted row and a path it matches, rewriting is total, and the result splits into exactly the
      template's segments: nothing a caller sends can add, drop or move one. */
  lemma RewriteIsSegmentwise(route: Route, verb: Method, pathname: string)
    requires RowOk(route) && Matches(route, verb, pathname)
    ensures var got := Segments(Rewritten(route, pathname));
            var expected := Segments(route.rewriteTo);
            |got| == |expected| && forall i :: 0 <= i < |got| ==> RightSegment(route, pathname, expected[i], got[i])
  {
    hide Join, RowOk, Matches, RightSegment, Substituted, Captured;
    var captured, expected := Captured(Segments(route.path), Segments(pathname)), Segments(route.rewriteTo);
    var parts := SubstitutedAll(captured, expected);
    forall i | 0 <= i < |expected| ensures RightSegment(route, pathname, expected[i], parts[i]) && '/' !in parts[i] {
      SubstitutedRight(route, verb, pathname, expected[i]);
    }
    SplitJoin(parts, '/');
  }
}
