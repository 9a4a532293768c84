/** A negotiation from some step on, after which nothing is lost, whatever was lost before: which
    acceptances still count, and what can be under way about an hour that is not asked about again. */
module NegotiationLosses {
  import opened Common
  import opened TimeSlots
  import opened Coordinators
  import opened Negotiation
  import opened NegotiationSafety
  import opened NegotiationLiveness
  import opened NegotiationEarliest

  /** From step n0 on, at which the coordinator still runs, nothing is lost, and every message is
      eventually delivered unless the coordinator stops. */
  ghost predicate Resumed(c: Setup, sched: nat -> Event, run: nat -> Sys, n0: nat) {
    IsRun(c, sched, run) && !run(n0).coord.stopped && LosslessFrom(sched, n0) && FairFrom(sched, run, n0)
  }

  lemma {:induction false} StopStays(c: Setup, sched: nat -> Event, run: nat -> Sys, n: nat, k: nat)
    requires IsRun(c, sched, run) && n <= k && run(n).coord.stopped
    ensures run(k).coord.stopped
  {
    if n < k {
      StopStays(c, sched, run, n, k - 1);
      RunSteps(c, sched, run, k - 1);
    }
  }

  /** The broadcasts made from step n0 on are tracked. */
  lemma ResumedBehaves(c: Setup, sched: nat -> Event, run: nat -> Sys, n0: nat)
    requires Resumed(c, sched, run, n0)
    ensures Behaves(c, |run(n0).asks|, sched, run, n0)
  {
    RunBehaves(c, |run(n0).asks|, sched, run, n0);
  }

  // ----- what is under way -----

  /** A message about hour h to or from a participant that cannot attend then is under way. */
  ghost predicate Rejecting(c: Setup, net: multiset<Msg>, h: int) {
    exists i :: 0 <= i < |c.parties| && !c.parties[i].Attends(c.Slot(h)) && InFlight(c, net, i, h)
  }

  lemma FlightFromRequest(c: Setup, s: Sys, m: Msg, i: nat, h: int)
    requires m in s.net && m.Request? && Genuine(c, s.asks, m)
    requires i < |c.parties| && InFlight(c, Requested(c, s, m).net, i, h)
    ensures InFlight(c, s.net, i, h)
  {
  }

  lemma FlightFromSent(c: Setup, net: multiset<Msg>, rest: multiset<Msg>, asked: Option<TimeSlot>, i: nat, h: int)
    requires rest <= net && i < |c.parties| && InFlight(c, rest + Sent(c, asked), i, h)
    ensures InFlight(c, net, i, h) || asked == Some(c.Slot(h))
  {
  }

  /** What is under way after a step was under way before, unless everyone was asked again. */
  lemma FlightFrom(c: Setup, s: Sys, e: Event, i: nat, h: int)
    requires Inv(c, s) && i < |c.parties| && InFlight(c, Apply(c, s, e).net, i, h)
    ensures var asks' := Apply(c, s, e).asks;
      InFlight(c, s.net, i, h) || (asks' != s.asks && asks' != [] && Latest(asks') == h)
  {
    if !s.coord.stopped {
      if e.Connect? {
        FlightFromSent(c, s.net, s.net, c.OnConnect(s.coord).asked, i, h);
      } else if e.Deliver? && e.m in s.net {
        assert Genuine(c, s.asks, e.m);
        if e.m.Request? {
          FlightFromRequest(c, s, e.m, i, h);
        } else {
          FlightFromSent(c, s.net, s.net - multiset{e.m}, c.OnAnswer(s.coord, e.m.answer).asked, i, h);
        }
      }
    }
  }

  // ----- acceptances get through -----

  /** Participant i can attend hour t, and its acceptance is recorded or under way. */
  ghost predicate Accepting(c: Setup, s: Sys, i: nat, t: int)
    requires i < |c.parties|
  {
    c.parties[i].Attends(c.Slot(t)) && Working(c, s, i, t)
  }

  lemma AcceptingKept(c: Setup, s: Sys, e: Event, i: nat, t: int)
    requires Inv(c, s) && !e.Lose? && i < |c.parties| && Accepting(c, s, i, t)
    ensures Accepting(c, Apply(c, s, e), i, t)
  {
    AsksGrow(c, s, e);
    if !Recorded(c, s.coord, i, t) {
      FlightKept(c, s, e, i, t);
      if Handles(c, s, e, i, t) {
        AnswerTakesEffect(c, s, i, t);
      }
    }
  }

  ghost predicate StaysAccepting(c: Setup, run: nat -> Sys, i: nat, t: int, k: nat)
    requires i < |c.parties|
  {
    Accepting(c, run(k), i, t) ==> Accepting(c, run(k + 1), i, t)
  }

  lemma NextAccepting(c: Setup, sched: nat -> Event, run: nat -> Sys, i: nat, t: int, k: nat)
    requires IsRun(c, sched, run) && !sched(k).Lose? && i < |c.parties|
    ensures StaysAccepting(c, run, i, t, k)
  {
    if Accepting(c, run(k), i, t) {
      RunInv(c, sched, run, k);
      RunSteps(c, sched, run, k);
      AcceptingKept(c, run(k), sched(k), i, t);
    }
  }

  lemma {:induction false} AcceptingStays(c: Setup, run: nat -> Sys, n: nat, k: nat, i: nat, t: int)
    requires n <= k && i < |c.parties| && Accepting(c, run(n), i, t)
    requires forall j: nat :: n <= j ==> StaysAccepting(c, run, i, t, j)
    ensures Accepting(c, run(k), i, t)
  {
    if n < k {
      AcceptingStays(c, run, n, k - 1, i, t);
      assert StaysAccepting(c, run, i, t, k - 1);
    }
  }

  /** What the following looks at in a run: acceptances get through. */
  ghost predicate AcceptancesStay(c: Setup, run: nat -> Sys, n1: nat) {
    forall i: nat, t, k: nat {:trigger StaysAccepting(c, run, i, t, k)} :: i < |c.parties| && n1 <= k ==>
      StaysAccepting(c, run, i, t, k)
  }

  lemma RunKeepsAcceptances(c: Setup, sched: nat -> Event, run: nat -> Sys, n1: nat)
    requires IsRun(c, sched, run) && LosslessFrom(sched, n1)
    ensures AcceptancesStay(c, run, n1)
  {
    forall i: nat, t, k: nat | i < |c.parties| && n1 <= k
      ensures StaysAccepting(c, run, i, t, k)
    {
      NextAccepting(c, sched, run, i, t, k);
    }
  }

  /** The acceptances of the first j participants that are recorded or under way are recorded in the end. */
  ghost predicate RecordedUpTo(c: Setup, s: Sys, s': Sys, j: nat, t: int)
    requires j <= |c.parties|
  {
    forall i :: 0 <= i < j && Accepting(c, s, i, t) ==> Recorded(c, s'.coord, i, t)
  }

  lemma RecordedUpToStays(
    c: Setup, base: nat, sched: nat -> Event, run: nat -> Sys, n1: nat, n: nat, k: nat, j: nat, t: int)
    requires Behaves(c, base, sched, run, n1) && n1 <= n <= k && j <= |c.parties|
    requires RecordedUpTo(c, run(n1), run(n), j, t)
    ensures RecordedUpTo(c, run(n1), run(k), j, t)
  {
    forall i | 0 <= i < j && Accepting(c, run(n1), i, t)
      ensures Recorded(c, run(k).coord, i, t)
    {
      EffectiveStays(c, base, sched, run, n1, n, k, i, t);
    }
  }

  lemma {:induction false} AcceptancesRecorded(
    c: Setup, base: nat, sched: nat -> Event, run: nat -> Sys, n1: nat, t: int, j: nat) returns (k: nat)
    requires AcceptancesStay(c, run, n1)
    requires Behaves(c, base, sched, run, n1) && FairFrom(sched, run, n1) && j <= |c.parties|
    ensures n1 <= k && (run(k).coord.stopped || RecordedUpTo(c, run(n1), run(k), j, t))
  {
    if j == 0 {
      k := n1;
    } else {
      var k0 := AcceptancesRecorded(c, base, sched, run, n1, t, j - 1);
      k := k0;
      if !run(k0).coord.stopped && Accepting(c, run(n1), j - 1, t) {
        AcceptingStays(c, run, n1, k0, j - 1, t);
        if !Recorded(c, run(k0).coord, j - 1, t) {
          k := FlightTakesEffect(c, base, sched, run, n1, k0, j - 1, t);
          RecordedUpToStays(c, base, sched, run, n1, k0, k, j - 1, t);
        }
      }
    }
  }

  lemma AcceptingParty(c: Setup, s: Sys, t: int, x: string) returns (i: nat)
    requires x in c.Attending(t) && x in RecordedNames(c, s, t) + Pending(c, s, t)
    ensures i < |c.parties| && c.parties[i].name == x && Accepting(c, s, i, t)
  {
    if x in Pending(c, s, t) {
      i :| && 0 <= i < |c.parties| && c.parties[i].Attends(c.Slot(t)) && InFlight(c, s.net, i, t)
           && c.parties[i].name == x;
    } else {
      i :| 0 <= i < |c.parties| && c.parties[i].Attends(c.Slot(t)) && c.parties[i].name == x;
    }
  }

  /** The names recorded or pending are those of accepting participants. */
  lemma RecordedAndPending(c: Setup, s: Sys, s': Sys, t: int)
    requires Inv(c, s) && RecordedUpTo(c, s, s', |c.parties|, t)
    ensures RecordedNames(c, s, t) + Pending(c, s, t) <= RecordedNames(c, s', t)
  {
    RecordedCanAttend(c, s, t);
    forall x | x in RecordedNames(c, s, t) + Pending(c, s, t)
      ensures x in RecordedNames(c, s', t)
    {
      assert x in c.Attending(t);
      var i := AcceptingParty(c, s, t, x);
    }
  }

  lemma TooFewRecorded(c: Setup, s: Sys, s': Sys, t: int)
    requires Inv(c, s) && RecordedUpTo(c, s, s', |c.parties|, t)
    requires Inv(c, s') && !s'.coord.stopped
    ensures |RecordedNames(c, s, t) + Pending(c, s, t)| < c.Threshold()
  {
    RecordedAndPending(c, s, s', t);
    SubsetSize(RecordedNames(c, s, t) + Pending(c, s, t), RecordedNames(c, s', t));
    TallyShort(c, s', t);
  }

  /** Enough acceptances recorded and under way close the meeting. */
  lemma PendingSuffices(c: Setup, sched: nat -> Event, run: nat -> Sys, n0: nat, t: int)
    requires Resumed(c, sched, run, n0)
    requires |RecordedNames(c, run(n0), t) + Pending(c, run(n0), t)| >= c.Threshold()
    ensures Stops(run)
  {
    ResumedBehaves(c, sched, run, n0);
    RunKeepsAcceptances(c, sched, run, n0);
    var k := AcceptancesRecorded(c, |run(n0).asks|, sched, run, n0, t, |c.parties|);
    if !run(k).coord.stopped {
      RunInv(c, sched, run, n0);
      RunInv(c, sched, run, k);
      TooFewRecorded(c, run(n0), run(k), t);
    }
  }

  // ----- an hour that is not asked about again -----

  /** No more is under way or recorded about hour t than at an earlier moment. */
  ghost predicate Confined(c: Setup, s0: Sys, s: Sys, t: int) {
    && (forall i :: 0 <= i < |c.parties| && InFlight(c, s.net, i, t) ==> InFlight(c, s0.net, i, t))
    && RecordedNames(c, s, t) <= RecordedNames(c, s0, t) + Pending(c, s0, t)
  }

  /** A name recorded by a step was pending. */
  lemma NewlyRecorded(c: Setup, s: Sys, e: Event, t: int)
    requires Inv(c, s)
    ensures RecordedNames(c, Apply(c, s, e), t) <= RecordedNames(c, s, t) + Pending(c, s, t)
  {
    if !s.coord.stopped && e.Deliver? && e.m in s.net && e.m.Response? {
      assert Genuine(c, s.asks, e.m);
      if e.m.answer.available {
        AcceptanceRecorded(c, s.coord, e.m.answer);
        AcceptanceWasPending(c, s, e.m);
        KeysDiffer(c, e.m.answer.slot.start, t);
      } else {
        AskAfterRejection(c, s, e.m);
        RejectionAdvances(c, s.coord, e.m.answer, Latest(s.asks));
      }
    }
  }

  lemma KeysDiffer(c: Setup, t: int, t': int)
    ensures c.Key(c.Slot(t)) == c.Key(c.Slot(t')) <==> t == t'
  {
  }

  lemma AcceptanceWasPending(c: Setup, s: Sys, m: Msg)
    requires m in s.net && Genuine(c, s.asks, m) && m.Response? && m.answer.available
    ensures m.answer.participant in Pending(c, s, m.answer.slot.start)
  {
  }

  lemma ConfinedKept(c: Setup, s0: Sys, s: Sys, e: Event, t: int)
    requires Inv(c, s) && Confined(c, s0, s, t)
    requires Apply(c, s, e).asks == s.asks || (Apply(c, s, e).asks != [] && Latest(Apply(c, s, e).asks) != t)
    ensures Confined(c, s0, Apply(c, s, e), t)
  {
    var s' := Apply(c, s, e);
    forall i | 0 <= i < |c.parties| && InFlight(c, s'.net, i, t)
      ensures InFlight(c, s0.net, i, t)
    {
      FlightFrom(c, s, e, i, t);
    }
    NewlyRecorded(c, s, e, t);
    assert Pending(c, s, t) <= Pending(c, s0, t);
  }

  /** A step that closes a meeting finds enough names recorded for an hour that they can attend. */
  lemma ClosingRecords(c: Setup, s: Sys, e: Event) returns (t: int)
    requires Inv(c, s) && !s.coord.stopped && Apply(c, s, e).coord.stopped
    ensures FIRST_HOUR <= t && |c.Attending(t)| >= c.Threshold()
    ensures |RecordedNames(c, Apply(c, s, e), t)| >= c.Threshold()
    ensures Asked(s.asks, t) && Apply(c, s, e).asks == s.asks
  {
    var s' := Apply(c, s, e);
    InvKept(c, s, e);
    ClosingStep(c, s, e);
    assert Genuine(c, s.asks, e.m);
    t := s'.announced[0].slot.start;
    ClosedIsAttended(c, s', t);
    assert TallyOk(c, t, s'.announced[0].names);
    DistinctLength(s'.announced[0].names);
  }
}
