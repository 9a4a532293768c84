/** What becomes of a scheduler that has lost messages. It asks on the first connect only, so that later
    connects repair nothing: when it still stops. */
module SchedulerRecovery {
  import opened Common
  import opened Coordinators
  import opened Negotiation
  import opened NegotiationSafety
  import opened NegotiationLiveness
  import opened NegotiationEarliest
  import opened NegotiationLosses

  /** The acceptances recorded and under way suffice for some hour; or a rejection is under way, to make
      the scheduler go on, and a later hour than the latest one suits enough participants. */
  ghost predicate Recovers(c: Setup, s: Sys)
    requires s.asks != []
  {
    || (exists t :: |RecordedNames(c, s, t) + Pending(c, s, t)| >= c.Threshold())
    || ((exists h :: Rejecting(c, s.net, h)) && exists t :: t > Latest(s.asks) && |c.Attending(t)| >= c.Threshold())
  }

  // ----- a rejection makes the scheduler go on -----

  /** Handling a rejection asks about the next hour. */
  lemma RejectionAsks(c: Setup, s: Sys, i: nat, h: int)
    requires c.rule.SchedulerRule? && Inv(c, s) && !s.coord.stopped && s.asks != []
    requires i < |c.parties| && !c.parties[i].Attends(c.Slot(h)) && AnswerOf(c, i, h) in s.net
    ensures Apply(c, s, Deliver(AnswerOf(c, i, h))).asks == s.asks + [Ask(Latest(s.asks) + 1, false)]
  {
    RejectionAdvances(c, s.coord, AnswerOf(c, i, h).answer, Latest(s.asks));
  }

  lemma RejectionHandled(c: Setup, sched: nat -> Event, run: nat -> Sys, n0: nat, n: nat, i: nat, h: int)
    returns (k: nat)
    requires c.rule.SchedulerRule? && Resumed(c, sched, run, n0) && n0 <= n && run(n0).asks != []
    requires i < |c.parties| && !c.parties[i].Attends(c.Slot(h)) && AnswerOf(c, i, h) in run(n).net
    ensures n <= k && (run(k).coord.stopped || |run(k).asks| > |run(n0).asks|)
  {
    assert Served(sched, run, n, AnswerOf(c, i, h));
    k :| n <= k && (run(k).coord.stopped || DeliveredAt(sched, run, k, AnswerOf(c, i, h)));
    if !run(k).coord.stopped {
      RunInv(c, sched, run, k);
      RunSteps(c, sched, run, k);
      AsksGrowOn(c, sched, run, n0, k);
      RejectionAsks(c, run(k), i, h);
      k := k + 1;
    }
  }

  ghost predicate Grows(run: nat -> Sys, k: nat) {
    run(k).asks <= run(k + 1).asks
  }

  lemma NextGrows(c: Setup, sched: nat -> Event, run: nat -> Sys, k: nat)
    requires IsRun(c, sched, run)
    ensures Grows(run, k)
  {
    RunInv(c, sched, run, k);
    RunSteps(c, sched, run, k);
    AsksGrow(c, run(k), sched(k));
  }

  lemma {:induction false} GrowsOn(run: nat -> Sys, n: nat, k: nat)
    requires n <= k && forall j: nat :: Grows(run, j)
    ensures run(n).asks <= run(k).asks
  {
    if n < k {
      GrowsOn(run, n, k - 1);
      assert Grows(run, k - 1);
    }
  }

  lemma AsksGrowOn(c: Setup, sched: nat -> Event, run: nat -> Sys, n: nat, k: nat)
    requires IsRun(c, sched, run) && n <= k
    ensures run(n).asks <= run(k).asks
  {
    forall j: nat
      ensures Grows(run, j)
    {
      NextGrows(c, sched, run, j);
    }
    GrowsOn(run, n, k);
  }

  /** A rejection under way makes the scheduler ask about a new hour, or it stops. */
  lemma RejectionMovesOn(c: Setup, sched: nat -> Event, run: nat -> Sys, n0: nat, h: int) returns (k: nat)
    requires c.rule.SchedulerRule? && Resumed(c, sched, run, n0) && run(n0).asks != [] && Rejecting(c, run(n0).net, h)
    ensures n0 <= k && (run(k).coord.stopped || |run(k).asks| > |run(n0).asks|)
  {
    var i :| 0 <= i < |c.parties| && !c.parties[i].Attends(c.Slot(h)) && InFlight(c, run(n0).net, i, h);
    var request := Request(i, c.Slot(h));
    if request in run(n0).net {
      assert Served(sched, run, n0, request);
      k :| n0 <= k && (run(k).coord.stopped || DeliveredAt(sched, run, k, request));
      if !run(k).coord.stopped {
        RunSteps(c, sched, run, k);
        assert AnswerOf(c, i, h) in run(k + 1).net;
        k := RejectionHandled(c, sched, run, n0, k + 1, i, h);
      }
    } else {
      k := RejectionHandled(c, sched, run, n0, n0, i, h);
    }
  }

  /** The scheduler never jumps: what it has asked about is 8, 9, 10, and so on. */
  lemma NeverJumpsFrom(c: Setup, asks: seq<Ask>, rejections: nat, base: nat, t: int)
    requires OneByOne(asks, rejections) && FIRST_HOUR + base <= t && Passed(asks, base, t)
    ensures AskedFrom(asks, base, t)
  {
    var j :| base <= j < |asks| && asks[j].start >= t;
    assert asks[t - FIRST_HOUR].start == t;
  }

  lemma NoJumps(c: Setup, sched: nat -> Event, run: nat -> Sys, n0: nat, t: int)
    requires c.rule.SchedulerRule? && IsRun(c, sched, run) && run(n0).asks != [] && Latest(run(n0).asks) < t
    ensures NoJump(run, |run(n0).asks|, n0, t)
  {
    var base := |run(n0).asks|;
    RunInv(c, sched, run, n0);
    forall n: nat | n0 <= n && Passed(run(n).asks, base, t)
      ensures AskedFrom(run(n).asks, base, t)
    {
      RunInv(c, sched, run, n);
      NeverJumpsFrom(c, run(n).asks, run(n).rejections, base, t);
    }
  }

  lemma LaterHourStops(c: Setup, sched: nat -> Event, run: nat -> Sys, n0: nat, h: int, t: int)
    requires c.rule.SchedulerRule? && Resumed(c, sched, run, n0) && run(n0).asks != [] && Rejecting(c, run(n0).net, h)
    requires t > Latest(run(n0).asks) && |c.Attending(t)| >= c.Threshold()
    ensures Stops(run)
  {
    var base := |run(n0).asks|;
    var n := RejectionMovesOn(c, sched, run, n0, h);
    RunInv(c, sched, run, n0);
    RunInv(c, sched, run, n);
    assert run(n0).asks[base - 1].start >= FIRST_HOUR;
    if !run(n).coord.stopped {
      assert run(n).asks[base].start >= FIRST_HOUR;
    }
    ResumedBehaves(c, sched, run, n0);
    NoJumps(c, sched, run, n0, t);
    var k := StopsAtHour(c, base, sched, run, n0, n, t);
  }

  // ----- otherwise it does not stop -----

  /** Nothing new has happened to the hours asked about by then, and new ones were asked about only if a
      rejection was under way. */
  ghost predicate Held(c: Setup, s0: Sys, s: Sys)
    requires s0.asks != []
  {
    && !s.coord.stopped && s0.asks <= s.asks
    && (forall t :: t <= Latest(s0.asks) ==> Confined(c, s0, s, t))
    && (s.asks != s0.asks ==> exists h :: Rejecting(c, s0.net, h))
  }

  /** The scheduler asks about a new hour on a rejection only. */
  lemma NewHour(c: Setup, s: Sys, e: Event)
    requires c.rule.SchedulerRule? && Inv(c, s) && s.asks != [] && Apply(c, s, e).asks != s.asks
    ensures Latest(Apply(c, s, e).asks) == Latest(s.asks) + 1
    ensures exists h :: h <= Latest(s.asks) && Rejecting(c, s.net, h)
  {
    if e.Deliver? {
      assert Genuine(c, s.asks, e.m);
      if e.m.answer.available {
        AcceptanceRecorded(c, s.coord, e.m.answer);
        assert false;
      } else {
        AskAfterRejection(c, s, e.m);
        var h := e.m.answer.slot.start;
        assert e.m == AnswerOf(c, e.m.from, h) && InFlight(c, s.net, e.m.from, h);
        assert Rejecting(c, s.net, h);
        AskedIsNotLater(c, s, h);
      }
    }
  }

  lemma AskedIsNotLater(c: Setup, s: Sys, h: int)
    requires c.rule.SchedulerRule? && Inv(c, s) && Asked(s.asks, h)
    ensures h <= Latest(s.asks)
  {
  }

  /** A rejection of an hour asked about by then was under way then. */
  lemma RejectionIsOld(c: Setup, s0: Sys, s: Sys, h: int)
    requires s0.asks != [] && Held(c, s0, s) && h <= Latest(s0.asks) && Rejecting(c, s.net, h)
    ensures Rejecting(c, s0.net, h)
  {
    assert Confined(c, s0, s, h);
  }

  lemma HeldKept(c: Setup, s0: Sys, s: Sys, e: Event)
    requires c.rule.SchedulerRule? && s0.asks != [] && Inv(c, s0) && Inv(c, s) && Held(c, s0, s)
    requires !Apply(c, s, e).coord.stopped
    ensures Held(c, s0, Apply(c, s, e))
  {
    var s' := Apply(c, s, e);
    AsksGrow(c, s, e);
    GrowingHours(c, s0, s);
    if s'.asks != s.asks {
      NewHour(c, s, e);
      if s.asks == s0.asks {
        var h :| h <= Latest(s.asks) && Rejecting(c, s.net, h);
        RejectionIsOld(c, s0, s, h);
      }
    }
    forall t | t <= Latest(s0.asks)
      ensures Confined(c, s0, s', t)
    {
      ConfinedKept(c, s0, s, e, t);
    }
  }

  lemma GrowingHours(c: Setup, s0: Sys, s: Sys)
    requires c.rule.SchedulerRule? && Inv(c, s0) && Inv(c, s) && s0.asks != [] && s0.asks <= s.asks
    ensures Latest(s0.asks) <= Latest(s.asks)
  {
  }

  ghost predicate StaysHeld(c: Setup, s0: Sys, run: nat -> Sys, k: nat)
    requires s0.asks != []
  {
    Held(c, s0, run(k)) && !run(k + 1).coord.stopped ==> Held(c, s0, run(k + 1))
  }

  lemma NextHeld(c: Setup, s0: Sys, sched: nat -> Event, run: nat -> Sys, k: nat)
    requires c.rule.SchedulerRule? && IsRun(c, sched, run) && s0.asks != [] && Inv(c, s0)
    ensures StaysHeld(c, s0, run, k)
  {
    if Held(c, s0, run(k)) && !run(k + 1).coord.stopped {
      RunInv(c, sched, run, k);
      RunSteps(c, sched, run, k);
      HeldKept(c, s0, run(k), sched(k));
    }
  }

  /** Up to its stop, the scheduler is held. */
  lemma {:induction false} HeldOn(c: Setup, s0: Sys, run: nat -> Sys, n: nat, k: nat)
    requires s0.asks != [] && n <= k && Held(c, s0, run(n))
    requires forall j: nat :: StaysHeld(c, s0, run, j)
    requires forall j: nat :: n <= j <= k ==> !run(j).coord.stopped
    ensures Held(c, s0, run(k))
  {
    if n < k {
      HeldOn(c, s0, run, n, k - 1);
      assert StaysHeld(c, s0, run, k - 1);
    }
  }

  lemma {:induction false} FirstStop(run: nat -> Sys, n: nat, m: nat) returns (k: nat)
    requires n <= m && !run(n).coord.stopped && run(m).coord.stopped
    ensures n <= k && !run(k).coord.stopped && run(k + 1).coord.stopped
    ensures forall j: nat :: n <= j <= k ==> !run(j).coord.stopped
    decreases m - n
  {
    if run(n + 1).coord.stopped {
      k := n;
    } else {
      k := FirstStop(run, n + 1, m);
    }
  }

  /** If an hour asked about by then is closed, its acceptances were recorded or under way then. */
  lemma EarlyClosing(c: Setup, s0: Sys, s: Sys, e: Event, t: int)
    requires s0.asks != [] && Inv(c, s) && Held(c, s0, s) && Apply(c, s, e).asks == s.asks && t <= Latest(s0.asks)
    ensures |RecordedNames(c, Apply(c, s, e), t)| <= |RecordedNames(c, s0, t) + Pending(c, s0, t)|
  {
    assert Confined(c, s0, s, t);
    ConfinedKept(c, s0, s, e, t);
    SubsetSize(RecordedNames(c, Apply(c, s, e), t), RecordedNames(c, s0, t) + Pending(c, s0, t));
  }

  /** A step that closes a meeting finds that the scheduler could recover. */
  lemma ClosingRecovers(c: Setup, s0: Sys, s: Sys, e: Event)
    requires c.rule.SchedulerRule? && s0.asks != [] && Inv(c, s) && Held(c, s0, s)
    requires Apply(c, s, e).coord.stopped
    ensures Recovers(c, s0)
  {
    var t := ClosingRecords(c, s, e);
    if t <= Latest(s0.asks) {
      EarlyClosing(c, s0, s, e, t);
    } else {
      AskedIsNotLater(c, s, t);
      assert s.asks != s0.asks;
    }
  }

  /** A scheduler that stops could recover, at every moment since its first proposal, whatever was lost
      before or is lost later and however long messages take. */
  lemma StopNeedsRecovery(c: Setup, sched: nat -> Event, run: nat -> Sys, n0: nat)
    requires c.rule.SchedulerRule? && IsRun(c, sched, run) && run(n0).asks != [] && !run(n0).coord.stopped
    requires Stops(run)
    ensures Recovers(c, run(n0))
  {
    var m: nat :| run(m).coord.stopped;
    if m < n0 {
      StopStays(c, sched, run, m, n0);
    }
    var k := FirstStop(run, n0, m);
    RunInv(c, sched, run, n0);
    RunInv(c, sched, run, k);
    RunSteps(c, sched, run, k);
    forall j: nat
      ensures StaysHeld(c, run(n0), run, j)
    {
      NextHeld(c, run(n0), sched, run, j);
    }
    assert Held(c, run(n0), run(n0));
    HeldOn(c, run(n0), run, n0, k);
    ClosingRecovers(c, run(n0), run(k), sched(k));
  }

  /** From any step on after the first proposal, a fair run of the scheduler that loses nothing any more,
      whatever it has lost before, stops if and only if the acceptances recorded and under way suffice for
      some hour, or a rejection is under way and some hour after the latest suits enough participants. */
  lemma SchedulerRecoversIff(c: Setup, sched: nat -> Event, run: nat -> Sys, n0: nat)
    requires c.rule.SchedulerRule? && Resumed(c, sched, run, n0) && run(n0).asks != []
    ensures Stops(run) <==> Recovers(c, run(n0))
  {
    if Stops(run) {
      StopNeedsRecovery(c, sched, run, n0);
    } else if t :| |RecordedNames(c, run(n0), t) + Pending(c, run(n0), t)| >= c.Threshold() {
      PendingSuffices(c, sched, run, n0, t);
    } else if Recovers(c, run(n0)) {
      var h :| Rejecting(c, run(n0).net, h);
      var t :| t > Latest(run(n0).asks) && |c.Attending(t)| >= c.Threshold();
      LaterHourStops(c, sched, run, n0, h, t);
    }
  }

  // ----- consequences -----

  lemma NothingPending(c: Setup, s: Sys, t: int)
    requires s.net == multiset{}
    ensures Pending(c, s, t) == {} && !Rejecting(c, s.net, t)
  {
  }

  lemma TooFewWhenSilent(c: Setup, s: Sys, t: int)
    requires Inv(c, s) && !s.coord.stopped && s.net == multiset{}
    ensures |RecordedNames(c, s, t) + Pending(c, s, t)| < c.Threshold()
  {
    NothingPending(c, s, t);
    assert RecordedNames(c, s, t) + {} == RecordedNames(c, s, t);
    TallyShort(c, s, t);
  }

  /** With nothing under way nothing can recover. */
  lemma SilentCannotRecover(c: Setup, s: Sys)
    requires Inv(c, s) && s.asks != [] && !s.coord.stopped && s.net == multiset{}
    ensures !Recovers(c, s)
  {
    if t :| |RecordedNames(c, s, t) + Pending(c, s, t)| >= c.Threshold() {
      TooFewWhenSilent(c, s, t);
    }
    if h :| Rejecting(c, s.net, h) {
      NothingPending(c, s, h);
    }
  }

  lemma FirstRequestLost(c: Setup, sched: nat -> Event)
    requires c.rule.SchedulerRule? && |c.parties| == 1
    requires sched(0) == Connect && sched(1) == Lose(Request(0, c.Slot(FIRST_HOUR)))
    ensures At(c, sched, 2).net == multiset{} && At(c, sched, 2).coord == IDLE.(current := Some(c.Slot(FIRST_HOUR)))
  {
    var s1 := Connected(c, Initial());
    assert s1.net == multiset{Request(0, c.Slot(FIRST_HOUR))} by {
      var first := c.Slot(FIRST_HOUR);
      assert Broadcast(1, first) == Broadcast(0, first) + multiset{Request(0, first)};
    }
    assert At(c, sched, 1) == s1;
  }

  /** If the first request to the only participant is lost, the scheduler never stops, whatever hours the
      participant could attend and whatever happens later. */
  lemma LostRequestBlocks(c: Setup, sched: nat -> Event, run: nat -> Sys)
    requires c.rule.SchedulerRule? && |c.parties| == 1 && IsRun(c, sched, run)
    requires sched(0) == Connect && sched(1) == Lose(Request(0, c.Slot(FIRST_HOUR)))
    ensures !Stops(run)
  {
    FirstRequestLost(c, sched);
    assert RunAt(c, sched, run, 2);
    RunInv(c, sched, run, 2);
    SilentCannotRecover(c, run(2));
    if Stops(run) {
      StopNeedsRecovery(c, sched, run, 2);
    }
  }

  lemma SilentStep(c: Setup, s: Sys, e: Event)
    requires c.rule.SchedulerRule? && s.net == multiset{} && s.coord.current.Some?
    ensures Apply(c, s, e) == s
  {
  }

  /** Once a scheduler has proposed something and nothing is under way, nothing ever happens again,
      however many participants connect. */
  lemma {:induction false} SilenceIsFinal(c: Setup, sched: nat -> Event, run: nat -> Sys, n: nat, k: nat)
    requires c.rule.SchedulerRule? && IsRun(c, sched, run) && n <= k
    requires run(n).net == multiset{} && run(n).coord.current.Some?
    ensures run(k) == run(n)
  {
    if n < k {
      SilenceIsFinal(c, sched, run, n, k - 1);
      SilentStep(c, run(k - 1), sched(k - 1));
      RunSteps(c, sched, run, k - 1);
    }
  }
}
