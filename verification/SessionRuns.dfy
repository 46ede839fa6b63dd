/** Particular runs of the paired session: the ways rotation-reuse detection ends a session nobody revoked, and
    a refusal over a live one. */
module SessionRuns {
  import opened Session
  import opened SessionLaws
  import opened SessionSerial
  import opened Wrappers

  lemma Extend(steps: seq<Step>, step: Step)
    requires After(steps).Some? && Enabled(After(steps).value, step)
    ensures After(steps + [step]) == Some(Next(After(steps).value, step))
  {
    assert (steps + [step])[..|steps|] == steps;
  }

  /** Identity handles the request of run `r` and the device receives the answer. */
  function Exchange(r: nat): seq<Step> { [Arrives(r, true, {}), Delivers(r)] }

  lemma Exchanged(steps: seq<Step>, r: nat)
    requires After(steps).Some? && Enabled(After(steps).value, Arrives(r, true, {}))
    requires !After(steps).value.runs[r].closed
    ensures After(steps + Exchange(r)).Some?
    ensures var w := After(steps).value;
            var (identity, reply) := Handle(w.identity, w.runs[r], true, {});
            After(steps + Exchange(r)).value ==
            Receive(w.(identity := identity, runs := w.runs[r := w.runs[r].(reply := Some(reply))]), r, Some(reply))
  {
    hide After;
    Extend(steps, Arrives(r, true, {}));
    Extend(steps + [Arrives(r, true, {})], Delivers(r));
    assert steps + Exchange(r) == steps + [Arrives(r, true, {})] + [Delivers(r)];
  }

  /** Run `r` refreshes and retries: refused, rotated, granted. */
  function Rotation(r: nat): seq<Step> { Exchange(r) + Exchange(r) + Exchange(r) }

  lemma Rotated(steps: seq<Step>, r: nat)
    requires After(steps).Some? && Enabled(After(steps).value, Arrives(r, true, {}))
    requires var w := After(steps).value;
             && w.identity.live && w.identity.expired && w.client.held.Some?
             && w.runs[r] == NewRun(w.identity.generation, Action)
    ensures After(steps + Rotation(r)).Some?
    ensures var w, w' := After(steps).value, After(steps + Rotation(r)).value;
            var g := w.identity.generation + 1;
            && w'.identity == Identity(true, g, false) && w'.client == Client(Some(g), Some(g), w.client.secretKey)
            && |w'.runs| == |w.runs| && Over(w'.runs[r])
            && forall q :: 0 <= q < |w.runs| && q != r ==> w'.runs[q] == w.runs[q]
  {
    hide After;
    var s1 := steps + Exchange(r);
    var s2 := s1 + Exchange(r);
    Exchanged(steps, r);
    assert After(s1).value.runs[r].phase == Refreshing;
    Exchanged(s1, r);
    assert After(s2).value.runs[r].phase == Retrying(After(steps).value.identity.generation + 1);
    Exchanged(s2, r);
    assert steps + Rotation(r) == s2 + Exchange(r);
  }

  /** A run on the pair before the newest is refused and its refresh revokes the session. */
  lemma StaleRunRevokes(steps: seq<Step>, r: nat)
    requires After(steps).Some? && Enabled(After(steps).value, Arrives(r, true, {}))
    requires var w := After(steps).value;
             && w.identity.live && w.runs[r].start + 1 == w.identity.generation
             && w.runs[r] == NewRun(w.runs[r].start, w.runs[r].purpose)
    ensures After(steps + Exchange(r) + Exchange(r)).Some?
    ensures var w' := After(steps + Exchange(r) + Exchange(r)).value;
            !w'.identity.live && r < |w'.runs| && w'.runs[r].phase == Ended(Unauthenticated(Reused))
  {
    hide After;
    Exchanged(steps, r);
    assert After(steps + Exchange(r)).value.runs[r].phase == Refreshing;
    Exchanged(steps + Exchange(r), r);
  }

  /** A refresh whose reply is lost, up to the next call. */
  const LOST: seq<Step> :=
    [Begins(false)] + [Expires] + Exchange(0) + [Arrives(0, true, {})] + [Fails(0)] + [Begins(false)]

  lemma LostWorld()
    ensures After(LOST).Some?
    ensures var w := After(LOST).value;
            && w.identity == Identity(true, 1, false) && |w.runs| == 2 && w.runs[1] == NewRun(0, Action)
            && Over(w.runs[0])
  {
    assert After([]) == Some(Paired());
    hide After;
    var s1 := [Begins(false)];
    var s2 := s1 + [Expires];
    var s3 := s2 + Exchange(0);
    var s4 := s3 + [Arrives(0, true, {})];
    var s5 := s4 + [Fails(0)];
    assert [] + [Begins(false)] == s1;
    Extend([], Begins(false));
    Extend(s1, Expires);
    Exchanged(s2, 0);
    assert After(s3).value.runs[0].phase == Refreshing;
    Extend(s3, Arrives(0, true, {}));
    Extend(s4, Fails(0));
    assert After(s5).value.client.held == Some(0) && After(s5).value.identity == Identity(true, 1, false);
    Extend(s5, Begins(false));
  }

  /** A lost rotation costs the session: the next call finds its access token outdated and its refresh
      revokes. UNAUTHENTICATED is then the truth. */
  lemma LostReplyRevokes()
    ensures var run := LOST + Exchange(1) + Exchange(1);
            && After(run).Some?
            && var w := After(run).value;
               !w.identity.live && |w.runs| == 2 && w.runs[1].phase == Ended(Unauthenticated(Reused))
  {
    hide After, LOST;
    LostWorld();
    StaleRunRevokes(LOST, 1);
    Exchanged(LOST, 1);
    Exchanged(LOST + Exchange(1), 1);
  }

  /** Two calls begun on the same session, the first of which refreshes and finishes. */
  const OVERLAPPING: seq<Step> := [Begins(false)] + [Begins(false)] + [Expires] + Rotation(1)

  lemma OverlappingWorld()
    ensures After(OVERLAPPING).Some?
    ensures var w := After(OVERLAPPING).value;
            && w.identity == Identity(true, 1, false) && w.client == Client(Some(1), Some(1), true)
            && |w.runs| == 2 && w.runs[0] == NewRun(0, Action) && Over(w.runs[1])
  {
    assert After([]) == Some(Paired());
    hide After;
    var s1 := [Begins(false)];
    var s2 := s1 + [Begins(false)];
    assert [] + [Begins(false)] == s1;
    Extend([], Begins(false));
    Extend(s1, Begins(false));
    Extend(s2, Expires);
    assert After(s2 + [Expires]).value.runs == [NewRun(0, Action), NewRun(0, Action)];
    Rotated(s2 + [Expires], 1);
  }

  /** Nothing is lost, and the refreshes do not even overlap: the other call's revokes all the same. */
  lemma OverlapRevokes()
    ensures var run := OVERLAPPING + Exchange(0) + Exchange(0);
            && After(run).Some? && !After(run).value.identity.live && |After(run).value.runs| == 2
            && After(run).value.runs[0].phase == Ended(Unauthenticated(Reused))
  {
    hide After, OVERLAPPING;
    OverlappingWorld();
    StaleRunRevokes(OVERLAPPING, 0);
    Exchanged(OVERLAPPING, 0);
    Exchanged(OVERLAPPING + Exchange(0), 0);
  }

  /** One more refresh in between, and the overtaken call is refused without revoking anything: the device
      is told UNAUTHENTICATED over a session that lives. */
  lemma OverlapMisreads()
    ensures var run := OVERLAPPING + [Begins(false)] + [Expires] + Rotation(2) + Exchange(0) + Exchange(0);
            && After(run).Some? && After(run).value.identity.live && |After(run).value.runs| == 3
            && After(run).value.runs[0].phase == Ended(Unauthenticated(Outdated))
  {
    hide After, OVERLAPPING;
    OverlappingWorld();
    var s1 := OVERLAPPING + [Begins(false)];
    var s2 := s1 + [Expires];
    var s3 := s2 + Rotation(2);
    Extend(OVERLAPPING, Begins(false));
    Extend(s1, Expires);
    assert After(s2).value.runs[2] == NewRun(1, Action) && After(s2).value.runs[0] == NewRun(0, Action);
    Rotated(s2, 2);
    Exchanged(s3, 0);
    assert After(s3 + Exchange(0)).value.runs[0].phase == Refreshing;
    Exchanged(s3 + Exchange(0), 0);
  }

  /** A step of a run of calls made one at a time, that loses nothing. */
  lemma Quietly(steps: seq<Step>, step: Step)
    requires After(steps).Some? && Enabled(After(steps).value, step) && Serial(steps) && !PairLost(steps)
    requires !LosesPair(After(steps).value, step) && (step.Begins? ==> Idle(After(steps).value))
    ensures After(steps + [step]) == Some(Next(After(steps).value, step))
    ensures Serial(steps + [step]) && !PairLost(steps + [step])
  {
    assert (steps + [step])[..|steps|] == steps;
  }

  lemma QuietExchange(steps: seq<Step>, r: nat)
    requires After(steps).Some? && Enabled(After(steps).value, Arrives(r, true, {}))
    requires Serial(steps) && !PairLost(steps) && !After(steps).value.runs[r].closed
    ensures After(steps + Exchange(r)).Some? && Serial(steps + Exchange(r)) && !PairLost(steps + Exchange(r))
  {
    hide After, Serial, PairLost;
    Quietly(steps, Arrives(r, true, {}));
    Quietly(steps + [Arrives(r, true, {})], Delivers(r));
    assert steps + Exchange(r) == steps + [Arrives(r, true, {})] + [Delivers(r)];
  }

  /** The popup is closed with its refresh on the way, before or after identity has handled it. */
  const CLOSED: seq<Step> := [Begins(false)] + [Expires] + Exchange(0) + [Closes]

  lemma ClosedWorld()
    ensures After(CLOSED).Some? && Serial(CLOSED) && !PairLost(CLOSED)
    ensures var w := After(CLOSED).value;
            && w.identity == Identity(true, 0, true) && w.client == Client(None, Some(0), true) && |w.runs| == 1
            && w.runs[0] == Run(0, Action, Refreshing, None, [Call, Refresh], true)
  {
    assert After([]) == Some(Paired()) && Serial([]) && !PairLost([]);
    hide After, Serial, PairLost;
    var s1 := [Begins(false)];
    var s2 := s1 + [Expires];
    assert [] + [Begins(false)] == s1;
    Quietly([], Begins(false));
    Quietly(s1, Expires);
    Exchanged(s2, 0);
    QuietExchange(s2, 0);
    assert After(s2 + Exchange(0)).value.runs[0].phase == Refreshing;
    Quietly(s2 + Exchange(0), Closes);
  }

  /** Closing the popup during a refresh costs the session: nobody receives the new pair, and the next
      popup's status read revokes. */
  lemma ClosingRevokes()
    ensures var run := CLOSED + [Arrives(0, true, {})] + [Reopens] + Exchange(1) + Exchange(1);
            && After(run).Some?
            && var w := After(run).value;
               !w.identity.live && |w.runs| == 2 && w.runs[1].phase == Ended(Unauthenticated(Reused))
               && w.client == Client(None, None, false)
  {
    hide After, CLOSED;
    ClosedWorld();
    var s1 := CLOSED + [Arrives(0, true, {})];
    var s2 := s1 + [Reopens];
    Extend(CLOSED, Arrives(0, true, {}));
    Extend(s1, Reopens);
    assert After(s2).value.runs[1] == NewRun(0, Status) && After(s2).value.identity == Identity(true, 1, false);
    StaleRunRevokes(s2, 1);
    Exchanged(s2, 1);
    Exchanged(s2 + Exchange(1), 1);
  }

  /** A closed popup's refresh that arrives late revokes the session its successor has just refreshed, with
      nothing lost and calls made one at a time. */
  lemma LateRefreshRevokes()
    ensures var run := CLOSED + [Reopens] + Exchange(1) + Exchange(1) + [Arrives(0, true, {})];
            && After(run).Some? && Serial(run) && !PairLost(run) && !After(run).value.identity.live
            && |After(run).value.runs| == 2 && After(run).value.runs[1].phase == Retrying(1)
  {
    hide After, CLOSED, Serial, PairLost;
    ClosedWorld();
    var s1 := CLOSED + [Reopens];
    var s2 := s1 + Exchange(1);
    var s3 := s2 + Exchange(1);
    Quietly(CLOSED, Reopens);
    assert After(s1).value.runs[1] == NewRun(0, Status) && After(s1).value.identity == Identity(true, 0, true);
    Exchanged(s1, 1);
    QuietExchange(s1, 1);
    assert After(s2).value.runs[1].phase == Refreshing && After(s2).value.identity == Identity(true, 0, true);
    Exchanged(s2, 1);
    QuietExchange(s2, 1);
    assert After(s3).value.runs[1].phase == Retrying(1) && After(s3).value.identity == Identity(true, 1, false);
    assert After(s3).value.runs[0].start == 0 && After(s3).value.runs[0].phase == Refreshing;
    Quietly(s3, Arrives(0, true, {}));
  }
}
