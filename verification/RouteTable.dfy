/** The operator edge's own table: accepted as it stands, and unambiguous. */
module RouteTable {
  import opened Router
  import opened Text
  import opened Wrappers

  /** Every row maps `/api/<tail>` to `/v1/<tail>` of one upstream. */
  datatype Row = Row(verb: Method, upstream: Upstream, tail: seq<string>)

  const ROWS := [
    Row(GET, Identity, ["auth", "session"]),
    Row(POST, Identity, ["auth", "stepup"]),
    Row(POST, Identity, ["auth", "logout"]),
    Row(GET, Settlement, ["settlement", "queue"]),
    Row(GET, Settlement, ["settlement", "administrable"]),
    Row(GET, Settlement, ["settlement", "cases", ":caseId"]),
    Row(GET, Settlement, ["settlement", "cases", ":caseId", "timeline"]),
    Row(GET, Settlement, ["settlement", "cases", ":caseId", "stages"]),
    Row(GET, Settlement, ["settlement", "cases", ":caseId", "distributions"]),
    Row(POST, Settlement, ["settlement", "cases", ":caseId", "review", "start"]),
    Row(POST, Settlement, ["settlement", "cases", ":caseId", "review"]),
    Row(POST, Settlement, ["settlement", "cases", ":caseId", "verify"]),
    Row(POST, Settlement, ["settlement", "cases", ":caseId", "close"]),
    Row(POST, Settlement, ["settlement", "stages", ":stageId", "decision"]),
    Row(POST, Settlement, ["settlement", "stages", ":stageId", "revoke"]),
    Row(POST, Settlement, ["settlement", "distributions", ":distributionId", "approval"]),
    Row(GET, Settlement, ["settlement", "distributions", ":distributionId", "amount"])
  ]

  function RouteOf(row: Row): Route {
    Route(row.verb, Join(["", "api"] + row.tail, '/'), row.upstream, Join(["", "v1"] + row.tail, '/'))
  }

  const PROXY_ROUTES := seq(|ROWS|, i requires 0 <= i < |ROWS| => RouteOf(ROWS[i]))

  /** A segment a path can be built from. */
  predicate Word(s: string) { '/' !in s && Whole(s) }

  ghost predicate Words(tail: seq<string>) { forall k :: 0 <= k < |tail| ==> Word(tail[k]) }

  lemma RootWords()
    ensures Word("") && Word("api") && Word("v1") && Word("auth") && Word("session") && Word("stepup") && Word("logout")
    ensures Word("settlement") && Word("queue") && Word("administrable") && Word("cases")
  {
  }

  lemma ReadWords()
    ensures Word(":caseId") && Word(":stageId") && Word(":distributionId")
    ensures Word("timeline") && Word("stages") && Word("distributions") && Word("amount")
  {
  }

  lemma VerbWords()
    ensures Word("review") && Word("start") && Word("verify") && Word("close")
    ensures Word("decision") && Word("revoke") && Word("approval")
  {
  }

  lemma RowWords(i: nat)
    requires i < |ROWS|
    ensures Words(ROWS[i].tail) && |ROWS[i].tail| >= 2
  {
    RootWords();
    ReadWords();
    VerbWords();
    hide Word;
  }

  lemma SegmentsOfRow(row: Row, root: string)
    requires Words(row.tail) && (root == "api" || root == "v1")
    ensures Segments(Join(["", root] + row.tail, '/')) == ["", root] + row.tail
  {
    hide Split, Join, Whole;
    RootWords();
    SplitJoin(["", root] + row.tail, '/');
  }

  lemma StartsWithApi(tail: seq<string>)
    requires tail != []
    ensures "/api/" <= Join(["", "api"] + tail, '/')
  {
    assert (["", "api"] + tail)[1..] == ["api"] + tail;
    assert (["api"] + tail)[1..] == tail;
  }

  lemma RowAccepted(i: nat)
    requires i < |ROWS|
    ensures RowOk(RouteOf(ROWS[i]))
  {
    hide Split, Join, Whole, IsParameter;
    var row := ROWS[i];
    RowWords(i);
    RootWords();
    SegmentsOfRow(row, "api");
    SegmentsOfRow(row, "v1");
    StartsWithApi(row.tail);
    RootsAreLiteral();
    forall s | s in ["", "api"] + row.tail + (["", "v1"] + row.tail) ensures Whole(s) {
      assert Word(s);
    }
    forall s | s in ["", "v1"] + row.tail && IsParameter(s) ensures s in ["", "api"] + row.tail {
    }
  }

  lemma RootsAreLiteral()
    ensures !IsParameter("") && !IsParameter("api") && !IsParameter("v1")
  {
  }

  /** The validator accepts the table. */
  method LoadTable() returns (defect: Option<Defect>)
    ensures defect == None
  {
    hide RowOk, RouteOf;
    forall i | 0 <= i < |PROXY_ROUTES| ensures RowOk(PROXY_ROUTES[i]) { RowAccepted(i); }
    defect := AssertRoutesWellFormed(PROXY_ROUTES);
  }

  // ---------------------------------------------------------------- at most one row

  /** Verb, number of segments and last segment name the row. */
  function RowFor(verb: Method, length: nat, last: string): nat {
    if verb.GET? then
      if length == 2 then (if last == "session" then 0 else if last == "queue" then 3 else 4)
      else if length == 3 then 5
      else if last == "timeline" then 6 else if last == "stages" then 7 else if last == "distributions" then 8 else 16
    else
      if length == 2 then (if last == "stepup" then 1 else 2)
      else if length == 5 then 9
      else if last == "review" then 10 else if last == "verify" then 11 else if last == "close" then 12
      else if last == "decision" then 13 else if last == "revoke" then 14 else 15
  }

  predicate LastIsLiteral(tail: seq<string>) { tail != [] && !IsParameter(tail[|tail| - 1]) }

  lemma RowForFinds(i: nat)
    requires i < |ROWS|
    ensures var row := ROWS[i];
            row.tail != [] && RowFor(row.verb, |row.tail|, row.tail[|row.tail| - 1]) == i
            && (LastIsLiteral(row.tail) || (row.verb.GET? && |row.tail| == 3))
  {
  }

  lemma MatchedRow(i: nat, verb: Method, pathname: string)
    requires i < |ROWS| && Matches(RouteOf(ROWS[i]), verb, pathname)
    ensures var actual := Segments(pathname);
            |actual| >= 3 && RowFor(verb, |actual| - 2, actual[|actual| - 1]) == i
  {
    hide Split, Join, IsParameter;
    var row, actual := ROWS[i], Segments(pathname);
    RowWords(i);
    SegmentsOfRow(row, "api");
    RowForFinds(i);
    var expected := ["", "api"] + row.tail;
    var last := |actual| - 1;
    assert SegmentFits(expected[last], actual[last]);
    assert expected[last] == row.tail[|row.tail| - 1];
  }

  /** At most one row of the table matches any verb and path, so the order of the rows decides nothing. */
  lemma AtMostOneRow(i: nat, j: nat, verb: Method, pathname: string)
    requires i < |PROXY_ROUTES| && j < |PROXY_ROUTES|
    requires Matches(PROXY_ROUTES[i], verb, pathname) && Matches(PROXY_ROUTES[j], verb, pathname)
    ensures i == j
  {
    hide Matches, RouteOf, RowFor, Split;
    MatchedRow(i, verb, pathname);
    MatchedRow(j, verb, pathname);
  }
}
