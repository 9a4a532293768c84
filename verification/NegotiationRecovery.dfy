/** A later connect restarts a coordinator that has lost messages; when that is sure to succeed. */
module NegotiationRecovery {
  import opened Common
  import opened Coordinators
  import opened Negotiation
  import opened NegotiationSafety
  import opened NegotiationLiveness
  import opened NegotiationEarliest
  import opened NegotiationLosses
  import opened NegotiationSchedules

  // ----- restarts -----

  /** Step n0 is a connect before the coordinator has stopped, and from then on nothing is lost. */
  ghost predicate Restart(c: Setup, sched: nat -> Event, run: nat -> Sys, n0: nat) {
    c.rule.CoordinatorRule? && sched(n0) == Connect && Resumed(c, sched, run, n0)
  }

  ghost predicate ClearFrom(c: Setup, net: multiset<Msg>, t: int) {
    forall h :: t <= h ==> !Rejecting(c, net, h)
  }

  /** A new proposal is hour 8 or follows an hour that someone has rejected. */
  lemma NewProposal(c: Setup, s: Sys, e: Event)
    requires c.rule.CoordinatorRule? && Inv(c, s) && Apply(c, s, e).asks != s.asks
    ensures var asks' := Apply(c, s, e).asks;
      asks' != [] && if e.Connect? then Latest(asks') == FIRST_HOUR
                     else Rejecting(c, s.net, Latest(asks') - 1) && s.asks != [] && Latest(s.asks) < Latest(asks')
  {
    if e.Deliver? {
      assert Genuine(c, s.asks, e.m);
      if e.m.answer.available {
        AcceptanceRecorded(c, s.coord, e.m.answer);
        assert false;
      } else {
        AskAfterRejection(c, s, e.m);
        RejectionAdvances(c, s.coord, e.m.answer, Latest(s.asks));
        assert e.m == AnswerOf(c, e.m.from, e.m.answer.slot.start);
        assert InFlight(c, s.net, e.m.from, e.m.answer.slot.start);
      }
    }
  }

  /** Since broadcast number base, hour t was asked about, or nothing yet can lead past it. */
  ghost predicate Guarded(c: Setup, s: Sys, base: nat, t: int) {
    AskedFrom(s.asks, base, t) || (ClearFrom(c, s.net, t) && !Passed(s.asks, base, t))
  }

  /** Of the broadcasts since then only a new one can be new. */
  lemma NewlyPassed(asks: seq<Ask>, asks': seq<Ask>, base: nat, t: int)
    requires asks' == asks || (asks' != [] && asks'[..|asks'| - 1] == asks)
    requires !Passed(asks, base, t) && Passed(asks', base, t)
    ensures asks' != [] && asks' != asks && Latest(asks') >= t
  {
  }

  /** A new proposal does not lead past a guarded hour. */
  lemma NewProposalGuarded(c: Setup, s: Sys, e: Event, base: nat, t: int)
    requires c.rule.CoordinatorRule? && Inv(c, s) && FIRST_HOUR < t && base <= |s.asks|
    requires ClearFrom(c, s.net, t) && Apply(c, s, e).asks != s.asks
    ensures var asks' := Apply(c, s, e).asks;
      asks' != [] && (Latest(asks') < t || AskedFrom(asks', base, t))
  {
    NewProposal(c, s, e);
    AddsOneAsk(c, s, e);
    var asks' := Apply(c, s, e).asks;
    var before := Latest(asks') - 1;
    assert !Rejecting(c, s.net, before) || before < t;
    if Latest(asks') == t {
      assert asks'[|asks'| - 1].start == t;
    }
  }

  lemma GuardedKept(c: Setup, s: Sys, e: Event, base: nat, t: int)
    requires c.rule.CoordinatorRule? && Inv(c, s) && FIRST_HOUR < t && base <= |s.asks| && Guarded(c, s, base, t)
    ensures Guarded(c, Apply(c, s, e), base, t)
  {
    var s' := Apply(c, s, e);
    AsksGrow(c, s, e);
    AskedFromKept(s.asks, s'.asks, base, t);
    if !AskedFrom(s'.asks, base, t) {
      if s'.asks != s.asks {
        NewProposalGuarded(c, s, e, base, t);
        AddsOneAsk(c, s, e);
      }
      if Passed(s'.asks, base, t) {
        AddsOneAsk(c, s, e);
        NewlyPassed(s.asks, s'.asks, base, t);
      }
      forall h | t <= h
        ensures !Rejecting(c, s'.net, h)
      {
        if Rejecting(c, s'.net, h) {
          var i :| 0 <= i < |c.parties| && !c.parties[i].Attends(c.Slot(h)) && InFlight(c, s'.net, i, h);
          FlightFrom(c, s, e, i, h);
          assert Rejecting(c, s.net, h);
        }
      }
    }
  }

  // ----- an hour that cannot be jumped -----

  /** A connect asks everyone about hour 8. */
  lemma RestartAsks(c: Setup, s: Sys)
    requires c.rule.CoordinatorRule? && !s.coord.stopped
    ensures var s' := Connected(c, s);
      s'.asks == s.asks + [Ask(FIRST_HOUR, true)] && AskedFrom(s'.asks, |s.asks|, FIRST_HOUR)
  {
    assert Connected(c, s).asks[|s.asks|].start == FIRST_HOUR;
  }

  ghost predicate StaysGuarded(c: Setup, base: nat, run: nat -> Sys, t: int, k: nat) {
    base <= |run(k).asks| && Guarded(c, run(k), base, t) ==>
      base <= |run(k + 1).asks| && Guarded(c, run(k + 1), base, t)
  }

  lemma NextGuarded(c: Setup, base: nat, sched: nat -> Event, run: nat -> Sys, t: int, k: nat)
    requires c.rule.CoordinatorRule? && IsRun(c, sched, run) && FIRST_HOUR < t
    ensures StaysGuarded(c, base, run, t, k)
  {
    if base <= |run(k).asks| && Guarded(c, run(k), base, t) {
      RunInv(c, sched, run, k);
      RunSteps(c, sched, run, k);
      AsksGrow(c, run(k), sched(k));
      GuardedKept(c, run(k), sched(k), base, t);
    }
  }

  lemma {:induction false} GuardedOn(c: Setup, base: nat, run: nat -> Sys, t: int, n1: nat, n: nat)
    requires n1 <= n && base <= |run(n1).asks| && Guarded(c, run(n1), base, t)
    requires forall k: nat :: StaysGuarded(c, base, run, t, k)
    ensures base <= |run(n).asks| && Guarded(c, run(n), base, t)
  {
    if n1 < n {
      GuardedOn(c, base, run, t, n1, n - 1);
      assert StaysGuarded(c, base, run, t, n - 1);
    }
  }

  /** If no rejection about hour t or later is under way when the coordinator restarts, it cannot jump over t. */
  lemma NoJumpWhenClear(c: Setup, sched: nat -> Event, run: nat -> Sys, n0: nat, t: int)
    requires Restart(c, sched, run, n0) && FIRST_HOUR < t && ClearFrom(c, run(n0).net, t)
    ensures NoJump(run, |run(n0).asks|, n0, t)
  {
    var base := |run(n0).asks|;
    forall k: nat
      ensures StaysGuarded(c, base, run, t, k)
    {
      NextGuarded(c, base, sched, run, t, k);
    }
    assert Guarded(c, run(n0), base, t);
    forall n: nat | n0 <= n && Passed(run(n).asks, base, t)
      ensures AskedFrom(run(n).asks, base, t)
    {
      GuardedOn(c, base, run, t, n0, n);
    }
  }

  // ----- when a restart is sure to succeed -----

  lemma RestartBehaves(c: Setup, sched: nat -> Event, run: nat -> Sys, n0: nat)
    requires Restart(c, sched, run, n0)
    ensures var base := |run(n0).asks|;
      && Behaves(c, base, sched, run, n0)
      && AskedFrom(run(n0 + 1).asks, base, FIRST_HOUR) && Passed(run(n0 + 1).asks, base, FIRST_HOUR)
  {
    ResumedBehaves(c, sched, run, n0);
    RunSteps(c, sched, run, n0);
    RestartAsks(c, run(n0));
    assert run(n0 + 1).asks[|run(n0).asks|].start >= FIRST_HOUR;
  }

  /** Hour t suits enough participants and will be asked about again, or the acceptances recorded and under
      way are enough to close it. */
  ghost predicate SureHour(c: Setup, s: Sys, t: int) {
    && FIRST_HOUR <= t && |c.Attending(t)| >= c.Threshold()
    && (t == FIRST_HOUR || ClearFrom(c, s.net, t) || |RecordedNames(c, s, t) + Pending(c, s, t)| >= c.Threshold())
  }

  /** A restart in this state is sure to succeed. */
  ghost predicate Sure(c: Setup, s: Sys) {
    exists t :: SureHour(c, s, t)
  }

  lemma FirstHourNeverJumped(c: Setup, base: nat, sched: nat -> Event, run: nat -> Sys, n0: nat)
    requires Behaves(c, base, sched, run, n0) && AskedFrom(run(n0 + 1).asks, base, FIRST_HOUR) && |run(n0).asks| == base
    ensures NoJump(run, base, n0, FIRST_HOUR)
  {
    forall n: nat | n0 <= n && Passed(run(n).asks, base, FIRST_HOUR)
      ensures AskedFrom(run(n).asks, base, FIRST_HOUR)
    {
      AskedFromStays(c, base, sched, run, n0, n0 + 1, n, FIRST_HOUR);
    }
  }

  /** A coordinator that restarts in a state in which that is sure to succeed stops. */
  lemma SureRestartStops(c: Setup, sched: nat -> Event, run: nat -> Sys, n0: nat, t: int)
    requires Restart(c, sched, run, n0) && SureHour(c, run(n0), t)
    ensures Stops(run)
  {
    var base := |run(n0).asks|;
    if |RecordedNames(c, run(n0), t) + Pending(c, run(n0), t)| >= c.Threshold() {
      PendingSuffices(c, sched, run, n0, t);
    } else {
      RestartBehaves(c, sched, run, n0);
      if t == FIRST_HOUR {
        FirstHourNeverJumped(c, base, sched, run, n0);
      } else {
        NoJumpWhenClear(c, sched, run, n0, t);
      }
      var k := StopsAtHour(c, base, sched, run, n0, n0 + 1, t);
    }
  }

  // ----- when a restart may fail -----

  /** The hours from 9 to h are confined, and the coordinator runs. */
  ghost predicate Held(c: Setup, s0: Sys, s: Sys, h: int) {
    !s.coord.stopped && forall t :: FIRST_HOUR < t <= h ==> Confined(c, s0, s, t)
  }

  /** No step stops a coordinator that is held, if success was not sure. */
  lemma HeldRuns(c: Setup, s0: Sys, s: Sys, e: Event, h: int)
    requires Inv(c, s) && !s.coord.stopped && !Sure(c, s0) && ClearFrom(c, s0.net, h + 1)
    requires forall t :: FIRST_HOUR < t <= h ==> Confined(c, s0, Apply(c, s, e), t)
    ensures !Apply(c, s, e).coord.stopped
  {
    if Apply(c, s, e).coord.stopped {
      var t := ClosingRecords(c, s, e);
      NotSure(c, s0, t, h);
      assert Confined(c, s0, Apply(c, s, e), t);
      SubsetSize(RecordedNames(c, Apply(c, s, e), t), RecordedNames(c, s0, t) + Pending(c, s0, t));
    }
  }

  /** An hour that suits enough participants without being sure is not the first, and no later than the last
      rejection under way. */
  lemma NotSure(c: Setup, s0: Sys, t: int, h: int)
    requires !Sure(c, s0) && ClearFrom(c, s0.net, h + 1)
    requires FIRST_HOUR <= t && |c.Attending(t)| >= c.Threshold()
    ensures FIRST_HOUR < t <= h && |RecordedNames(c, s0, t) + Pending(c, s0, t)| < c.Threshold()
  {
    assert !SureHour(c, s0, t);
    var k :| t <= k && Rejecting(c, s0.net, k);
  }

  lemma HeldKept(c: Setup, s0: Sys, s: Sys, e: Event, h: int)
    requires Inv(c, s) && Held(c, s0, s, h) && !Sure(c, s0) && ClearFrom(c, s0.net, h + 1)
    requires var asks' := Apply(c, s, e).asks;
      asks' == s.asks || (asks' != [] && (Latest(asks') == FIRST_HOUR || Latest(asks') > h))
    ensures Held(c, s0, Apply(c, s, e), h)
  {
    forall t | FIRST_HOUR < t <= h
      ensures Confined(c, s0, Apply(c, s, e), t)
    {
      ConfinedKept(c, s0, s, e, t);
    }
    HeldRuns(c, s0, s, e, h);
  }

  /** The proposal has got past hour h. */
  ghost predicate Beyond(c: Setup, s0: Sys, s: Sys, h: int) {
    Held(c, s0, s, h) && s.asks != [] && Latest(s.asks) > h
  }

  /** Without another connect it stays there. */
  lemma BeyondKept(c: Setup, s0: Sys, s: Sys, e: Event, h: int)
    requires c.rule.CoordinatorRule? && Inv(c, s) && Beyond(c, s0, s, h) && !Sure(c, s0) && ClearFrom(c, s0.net, h + 1)
    requires !e.Connect?
    ensures Beyond(c, s0, Apply(c, s, e), h)
  {
    if Apply(c, s, e).asks != s.asks {
      NewProposal(c, s, e);
    }
    HeldKept(c, s0, s, e, h);
  }

  ghost predicate StaysBeyond(c: Setup, s0: Sys, run: nat -> Sys, h: int, k: nat) {
    Beyond(c, s0, run(k), h) ==> Beyond(c, s0, run(k + 1), h)
  }

  lemma NextBeyond(c: Setup, s0: Sys, sched: nat -> Event, run: nat -> Sys, h: int, k: nat)
    requires c.rule.CoordinatorRule? && IsRun(c, sched, run) && !sched(k).Connect?
    requires !Sure(c, s0) && ClearFrom(c, s0.net, h + 1)
    ensures StaysBeyond(c, s0, run, h, k)
  {
    if Beyond(c, s0, run(k), h) {
      RunInv(c, sched, run, k);
      RunSteps(c, sched, run, k);
      BeyondKept(c, s0, run(k), sched(k), h);
    }
  }

  lemma {:induction false} BeyondOn(c: Setup, s0: Sys, run: nat -> Sys, h: int, n: nat, k: nat)
    requires n <= k && Beyond(c, s0, run(n), h)
    requires forall j: nat :: n <= j ==> StaysBeyond(c, s0, run, h, j)
    ensures Beyond(c, s0, run(k), h)
  {
    if n < k {
      BeyondOn(c, s0, run, h, n, k - 1);
      assert StaysBeyond(c, s0, run, h, k - 1);
    }
  }

  /** Once beyond all hours that could be closed, the coordinator never stops, unless there are more connects. */
  lemma BeyondNeverStops(c: Setup, s0: Sys, sched: nat -> Event, run: nat -> Sys, h: int, n: nat)
    requires c.rule.CoordinatorRule? && IsRun(c, sched, run) && Beyond(c, s0, run(n), h)
    requires forall k: nat :: n <= k ==> !sched(k).Connect?
    requires !Sure(c, s0) && ClearFrom(c, s0.net, h + 1)
    ensures !Stops(run)
  {
    forall j: nat | n <= j
      ensures StaysBeyond(c, s0, run, h, j)
    {
      NextBeyond(c, s0, sched, run, h, j);
    }
    forall k: nat
      ensures !run(k).coord.stopped
    {
      if n <= k {
        BeyondOn(c, s0, run, h, n, k);
      } else if run(k).coord.stopped {
        StopStays(c, sched, run, k, n);
      }
    }
  }

  /** The step that gets the answer of participant i about hour h under way. */
  ghost function Forward(c: Setup, s0: Sys, i: nat, h: int): Event
    requires i < |c.parties|
  {
    if AnswerOf(c, i, h) in s0.net then Idle else Deliver(Request(i, c.Slot(h)))
  }

  lemma ForwardStep(c: Setup, s0: Sys, s1: Sys, i: nat, h: int)
    requires c.rule.CoordinatorRule? && !s0.coord.stopped && s1 == Connected(c, s0)
    requires i < |c.parties| && InFlight(c, s0.net, i, h)
    ensures var s2 := Apply(c, s1, Forward(c, s0, i, h));
      s2.coord == s1.coord && s2.asks == s1.asks && AnswerOf(c, i, h) in s2.net
  {
  }

  /** Handling the rejection of hour h takes the proposal from 8 past h. */
  lemma JumpStep(c: Setup, s: Sys, i: nat, h: int)
    requires c.rule.CoordinatorRule? && Inv(c, s) && !s.coord.stopped && s.asks != [] && Latest(s.asks) == FIRST_HOUR
    requires FIRST_HOUR < h && i < |c.parties| && !c.parties[i].Attends(c.Slot(h)) && AnswerOf(c, i, h) in s.net
    ensures var asks' := Apply(c, s, Deliver(AnswerOf(c, i, h))).asks; asks' != [] && Latest(asks') > h
  {
  }

  /** A connect and a rejection that was under way take the coordinator beyond all hours that could be closed. */
  lemma JumpsBeyond(c: Setup, s0: Sys, i: nat, h: int)
    requires c.rule.CoordinatorRule? && Inv(c, s0) && !s0.coord.stopped && !Sure(c, s0) && ClearFrom(c, s0.net, h + 1)
    requires FIRST_HOUR < h && i < |c.parties| && !c.parties[i].Attends(c.Slot(h)) && InFlight(c, s0.net, i, h)
    ensures var s2 := Apply(c, Connected(c, s0), Forward(c, s0, i, h));
      Beyond(c, s0, Apply(c, s2, Deliver(AnswerOf(c, i, h))), h)
  {
    var s1 := Connected(c, s0);
    var s2 := Apply(c, s1, Forward(c, s0, i, h));
    assert Held(c, s0, s0, h);
    RestartAsks(c, s0);
    InvConnect(c, s0);
    HeldKept(c, s0, s0, Connect, h);
    ForwardStep(c, s0, s1, i, h);
    InvKept(c, s1, Forward(c, s0, i, h));
    HeldKept(c, s0, s1, Forward(c, s0, i, h), h);
    JumpStep(c, s2, i, h);
    HeldKept(c, s0, s2, Deliver(AnswerOf(c, i, h)), h);
  }

  /** All messages under way are about hours up to some bound. */
  lemma {:induction false} HourBound(net: multiset<Msg>) returns (b: int)
    ensures forall m :: m in net ==> m.Slot().start <= b
    decreases |net|
  {
    if net == multiset{} {
      b := 0;
    } else {
      var m :| m in net;
      b := HourBound(net - multiset{m});
      b := Max(b, m.Slot().start);
      assert forall x :: x in net ==> x == m || x in net - multiset{m};
    }
  }

  lemma ClearDown(c: Setup, net: multiset<Msg>, b: int)
    requires ClearFrom(c, net, b + 1) && !Rejecting(c, net, b)
    ensures ClearFrom(c, net, b)
  {
  }

  /** The last rejection under way after hour t. */
  lemma {:induction false} LastRejection(c: Setup, net: multiset<Msg>, t: int, b: int) returns (h: int)
    requires !ClearFrom(c, net, t) && ClearFrom(c, net, b + 1)
    ensures t <= h && Rejecting(c, net, h) && ClearFrom(c, net, h + 1)
    decreases b - t
  {
    var k :| t <= k && Rejecting(c, net, k);
    if Rejecting(c, net, b) {
      h := b;
    } else {
      ClearDown(c, net, b);
      h := LastRejection(c, net, t, b - 1);
    }
  }

  lemma SomeLastRejection(c: Setup, net: multiset<Msg>, t: int) returns (h: int)
    requires !ClearFrom(c, net, t)
    ensures t <= h && Rejecting(c, net, h) && ClearFrom(c, net, h + 1)
  {
    var b := HourBound(net);
    forall k | b + 1 <= k
      ensures !Rejecting(c, net, k)
    {
      forall i | 0 <= i < |c.parties|
        ensures !InFlight(c, net, i, k)
      {
        assert Request(i, c.Slot(k)).Slot().start == k && AnswerOf(c, i, k).Slot().start == k;
      }
    }
    h := LastRejection(c, net, t, b);
  }

  /** The schedule up to step n0, then a connect and two more events. */
  lemma Restarted(sched: nat -> Event, n0: nat, e1: Event, e2: Event) returns (sched': nat -> Event)
    ensures forall k: nat :: k < n0 ==> sched'(k) == sched(k)
    ensures sched'(n0) == Connect && sched'(n0 + 1) == e1 && sched'(n0 + 2) == e2
  {
    sched' := (k: nat) => if k < n0 then sched(k) else if k == n0 then Connect else if k == n0 + 1 then e1 else e2;
  }

  /** There is a fair run that goes on like that. */
  lemma RestartedRun(c: Setup, sched: nat -> Event, n0: nat, e1: Event, e2: Event)
    returns (sched': nat -> Event, run': nat -> Sys)
    requires c.rule.CoordinatorRule? && !At(c, sched, n0).coord.stopped && !e1.Lose? && !e2.Lose?
    ensures Restart(c, sched', run', n0) && run'(n0) == At(c, sched, n0)
    ensures sched'(n0 + 1) == e1 && sched'(n0 + 2) == e2
    ensures forall k: nat :: n0 + 3 <= k ==> !sched'(k).Connect?
  {
    var begin := Restarted(sched, n0, e1, e2);
    sched', run' := FairContinuation(c, begin, n0 + 3);
    assert sched'(n0) == Connect && sched'(n0 + 1) == e1 && sched'(n0 + 2) == e2;
    SameStart(c, sched, begin, sched', run', n0);
    FairThroughout(c, sched', run', n0);
    LosslessThroughout(sched', n0);
  }

  lemma SameStart(c: Setup, sched: nat -> Event, begin: nat -> Event, sched': nat -> Event, run': nat -> Sys, n0: nat)
    requires IsRun(c, sched', run')
    requires forall k: nat :: k < n0 ==> begin(k) == sched(k)
    requires forall k: nat :: k < n0 + 3 ==> sched'(k) == begin(k)
    ensures run'(n0) == At(c, sched, n0)
  {
    SamePrefix(c, sched, sched', n0);
    assert RunAt(c, sched', run', n0);
  }

  lemma LosslessThroughout(sched: nat -> Event, n0: nat)
    requires LosslessFrom(sched, n0 + 3)
    requires !sched(n0).Lose? && !sched(n0 + 1).Lose? && !sched(n0 + 2).Lose?
    ensures LosslessFrom(sched, n0)
  {
  }

  lemma FairThroughout(c: Setup, sched: nat -> Event, run: nat -> Sys, n0: nat)
    requires IsRun(c, sched, run) && FairFrom(sched, run, n0 + 3)
    requires !sched(n0).Lose? && !sched(n0 + 1).Lose? && !sched(n0 + 2).Lose?
    ensures FairFrom(sched, run, n0)
  {
    FairBefore(c, sched, run, n0 + 2);
    FairBefore(c, sched, run, n0 + 1);
    FairBefore(c, sched, run, n0);
  }

  /** If success is not sure, some restart fails. */
  lemma UnsureRestartFails(c: Setup, sched: nat -> Event, n0: nat) returns (sched': nat -> Event, run': nat -> Sys)
    requires c.rule.CoordinatorRule? && !At(c, sched, n0).coord.stopped && !Sure(c, At(c, sched, n0))
    ensures Restart(c, sched', run', n0) && run'(n0) == At(c, sched, n0) && !Stops(run')
  {
    var s0 := At(c, sched, n0);
    if ClearFrom(c, s0.net, FIRST_HOUR + 1) {
      sched', run' := RestartedRun(c, sched, n0, Idle, Idle);
      NotAttendable(c, s0);
      if Stops(run') {
        StoppedRunWasAttendable(c, sched', run');
      }
    } else {
      var h := SomeLastRejection(c, s0.net, FIRST_HOUR + 1);
      var i :| 0 <= i < |c.parties| && !c.parties[i].Attends(c.Slot(h)) && InFlight(c, s0.net, i, h);
      sched', run' := RestartedRun(c, sched, n0, Forward(c, s0, i, h), Deliver(AnswerOf(c, i, h)));
      RunJumpsBeyond(c, sched', run', n0, i, h);
      BeyondNeverStops(c, s0, sched', run', h, n0 + 3);
    }
  }

  lemma NotAttendable(c: Setup, s0: Sys)
    requires !Sure(c, s0) && ClearFrom(c, s0.net, FIRST_HOUR + 1)
    ensures !Attendable(c)
  {
    if Attendable(c) {
      var t :| FIRST_HOUR <= t && |c.Attending(t)| >= c.Threshold();
      NotSure(c, s0, t, FIRST_HOUR);
    }
  }

  lemma RunJumpsBeyond(c: Setup, sched: nat -> Event, run: nat -> Sys, n0: nat, i: nat, h: int)
    requires Restart(c, sched, run, n0) && !Sure(c, run(n0)) && ClearFrom(c, run(n0).net, h + 1)
    requires FIRST_HOUR < h && i < |c.parties| && !c.parties[i].Attends(c.Slot(h)) && InFlight(c, run(n0).net, i, h)
    requires sched(n0 + 1) == Forward(c, run(n0), i, h) && sched(n0 + 2) == Deliver(AnswerOf(c, i, h))
    ensures Beyond(c, run(n0), run(n0 + 3), h)
  {
    RunInv(c, sched, run, n0);
    ThreeSteps(c, sched, run, n0);
    JumpsBeyond(c, run(n0), i, h);
  }

  lemma ThreeSteps(c: Setup, sched: nat -> Event, run: nat -> Sys, n0: nat)
    requires IsRun(c, sched, run)
    ensures run(n0 + 3) == Apply(c, Apply(c, Apply(c, run(n0), sched(n0)), sched(n0 + 1)), sched(n0 + 2))
  {
    RunSteps(c, sched, run, n0);
    RunSteps(c, sched, run, n0 + 1);
    RunSteps(c, sched, run, n0 + 2);
  }

  /** Every fair restart from a state stops if and only if that is sure: some hour suits enough participants
      and is the first, or has no rejection of it or of a later hour under way, or has enough acceptances
      recorded and under way. Otherwise a rejection that was under way can make it jump over all that. */
  lemma RestartStopsIff(c: Setup, sched: nat -> Event, n0: nat)
    requires c.rule.CoordinatorRule? && !At(c, sched, n0).coord.stopped
    ensures Sure(c, At(c, sched, n0)) <==>
      forall sched': nat -> Event, run': nat -> Sys ::
        Restart(c, sched', run', n0) && run'(n0) == At(c, sched, n0) ==> Stops(run')
  {
    var s0 := At(c, sched, n0);
    if t :| SureHour(c, s0, t) {
      forall sched': nat -> Event, run': nat -> Sys | Restart(c, sched', run', n0) && run'(n0) == s0
        ensures Stops(run')
      {
        SureRestartStops(c, sched', run', n0, t);
      }
    } else {
      var sched', run' := UnsureRestartFails(c, sched, n0);
    }
  }
}
