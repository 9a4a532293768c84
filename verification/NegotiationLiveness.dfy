/** Termination of the negotiation: a fair run stops exactly when some hour suits enough participants.
    The argument starts at any moment from which on nothing is lost, and looks only at the broadcasts
    made since then. */
module NegotiationLiveness {
  import opened Common
  import opened Coordinators
  import opened Negotiation
  import opened NegotiationSafety

  ghost predicate LosslessFrom(sched: nat -> Event, n0: nat) {
    forall n: nat :: n0 <= n ==> !sched(n).Lose?
  }

  ghost predicate DeliveredAt(sched: nat -> Event, run: nat -> Sys, k: nat, m: Msg) {
    sched(k) == Deliver(m) && m in run(k).net
  }

  /** From step n on, a copy of the message is delivered, or the coordinator stops. */
  ghost predicate Served(sched: nat -> Event, run: nat -> Sys, n: nat, m: Msg) {
    exists k: nat :: n <= k && (run(k).coord.stopped || DeliveredAt(sched, run, k, m))
  }

  /** Every message under way at step n0 or later is eventually delivered unless the coordinator stops first. */
  ghost predicate FairFrom(sched: nat -> Event, run: nat -> Sys, n0: nat) {
    forall n: nat, m {:trigger Served(sched, run, n, m)} :: n0 <= n && m in run(n).net ==> Served(sched, run, n, m)
  }

  /** Some participant connects, and every message is eventually delivered unless the coordinator stops. */
  ghost predicate Fair(sched: nat -> Event, run: nat -> Sys) {
    (exists n: nat :: sched(n) == Connect) && FairFrom(sched, run, 0)
  }

  ghost predicate Stops(run: nat -> Sys) {
    exists n: nat :: run(n).coord.stopped
  }

  ghost predicate Attendable(c: Setup) {
    exists t :: 8 <= t && |c.Attending(t)| >= c.Threshold()
  }

  // ----- what is known about the broadcasts from number base on -----

  ghost predicate AskedFrom(asks: seq<Ask>, base: nat, t: int) {
    exists j :: base <= j < |asks| && asks[j].start == t
  }

  /** Hour t or a later one was asked about. */
  ghost predicate Passed(asks: seq<Ask>, base: nat, t: int) {
    exists j :: base <= j < |asks| && asks[j].start >= t
  }

  /** An acceptance is recorded, a rejection has led to a later proposal. */
  ghost predicate Effective(c: Setup, s: Sys, base: nat, i: nat, t: int)
    requires i < |c.parties|
  {
    if c.parties[i].Attends(c.Slot(t)) then Recorded(c, s.coord, i, t) else Passed(s.asks, base, t + 1)
  }

  /** If the hour was asked about, the answer of participant i is under way or effective. */
  ghost predicate Accounted(c: Setup, s: Sys, base: nat, i: nat, t: int)
    requires i < |c.parties|
  {
    AskedFrom(s.asks, base, t) ==> InFlight(c, s.net, i, t) || Effective(c, s, base, i, t)
  }

  ghost predicate TrackedFrom(c: Setup, s: Sys, base: nat) {
    forall i, t {:trigger Accounted(c, s, base, i, t)} :: 0 <= i < |c.parties| ==> Accounted(c, s, base, i, t)
  }

  lemma AskedFromKept(asks: seq<Ask>, asks': seq<Ask>, base: nat, t: int)
    requires asks <= asks'
    ensures AskedFrom(asks, base, t) ==> AskedFrom(asks', base, t)
    ensures Passed(asks, base, t) ==> Passed(asks', base, t)
  {
  }

  lemma EffectiveKept(c: Setup, s: Sys, e: Event, base: nat, i: nat, t: int)
    requires Inv(c, s) && i < |c.parties| && Effective(c, s, base, i, t)
    ensures Effective(c, Apply(c, s, e), base, i, t)
  {
    AsksGrow(c, s, e);
    AskedFromKept(s.asks, Apply(c, s, e).asks, base, t + 1);
  }

  /** Handling an answer makes it effective. */
  lemma HandledIsEffective(c: Setup, s: Sys, e: Event, base: nat, i: nat, t: int)
    requires Inv(c, s) && i < |c.parties| && Handles(c, s, e, i, t)
    requires c.parties[i].Attends(c.Slot(t)) || base < |s.asks|
    ensures Effective(c, Apply(c, s, e), base, i, t)
  {
    var asks' := Apply(c, s, e).asks;
    AnswerTakesEffect(c, s, i, t);
    if !c.parties[i].Attends(c.Slot(t)) {
      AsksGrow(c, s, e);
      LatestPassed(asks', base, t + 1);
    }
  }

  lemma LatestPassed(asks: seq<Ask>, base: nat, t: int)
    requires base < |asks| && Latest(asks) >= t
    ensures Passed(asks, base, t)
  {
  }

  /** An hour that was not asked about before is the latest one. */
  lemma LatestIsNewFrom(asks: seq<Ask>, asks': seq<Ask>, base: nat, t: int)
    requires asks' == asks || (asks' != [] && asks'[..|asks'| - 1] == asks)
    requires !AskedFrom(asks, base, t) && AskedFrom(asks', base, t)
    ensures asks' != [] && asks' != asks && Latest(asks') == t
  {
  }

  lemma AccountedKept(c: Setup, s: Sys, e: Event, base: nat, i: nat, t: int)
    requires Inv(c, s) && i < |c.parties| && Accounted(c, s, base, i, t) && !e.Lose?
    ensures Accounted(c, Apply(c, s, e), base, i, t)
  {
    var s' := Apply(c, s, e);
    if AskedFrom(s'.asks, base, t) {
      if !AskedFrom(s.asks, base, t) {
        AddsOneAsk(c, s, e);
        LatestIsNewFrom(s.asks, s'.asks, base, t);
        EveryoneAskedAgain(c, s, e, i);
      } else if Effective(c, s, base, i, t) {
        EffectiveKept(c, s, e, base, i, t);
      } else {
        FlightKept(c, s, e, i, t);
        if Handles(c, s, e, i, t) {
          HandledIsEffective(c, s, e, base, i, t);
        }
      }
    }
  }

  lemma TrackedFromKept(c: Setup, s: Sys, e: Event, base: nat)
    requires Inv(c, s) && TrackedFrom(c, s, base) && !e.Lose?
    ensures TrackedFrom(c, Apply(c, s, e), base)
  {
    forall i, t | 0 <= i < |c.parties|
      ensures Accounted(c, Apply(c, s, e), base, i, t)
    {
      assert Accounted(c, s, base, i, t);
      AccountedKept(c, s, e, base, i, t);
    }
  }

  ghost predicate TracksOn(c: Setup, base: nat, run: nat -> Sys, k: nat) {
    TrackedFrom(c, run(k), base) ==> TrackedFrom(c, run(k + 1), base)
  }

  lemma NextTracks(c: Setup, base: nat, sched: nat -> Event, run: nat -> Sys, k: nat)
    requires IsRun(c, sched, run) && !sched(k).Lose?
    ensures TracksOn(c, base, run, k)
  {
    if TrackedFrom(c, run(k), base) {
      RunInv(c, sched, run, k);
      RunSteps(c, sched, run, k);
      TrackedFromKept(c, run(k), sched(k), base);
    }
  }

  lemma {:induction false} TrackedFromOn(c: Setup, base: nat, run: nat -> Sys, n0: nat, n: nat)
    requires n0 <= n && TrackedFrom(c, run(n0), base)
    requires forall k: nat :: n0 <= k ==> TracksOn(c, base, run, k)
    ensures TrackedFrom(c, run(n), base)
  {
    if n0 < n {
      TrackedFromOn(c, base, run, n0, n - 1);
      assert TracksOn(c, base, run, n - 1);
    }
  }

  // ----- progress -----

  /** Nothing is undone. */
  ghost predicate Keeps(c: Setup, base: nat, s: Sys, s': Sys) {
    && (forall i, t {:trigger Effective(c, s', base, i, t)} :: 0 <= i < |c.parties| && Effective(c, s, base, i, t) ==>
          Effective(c, s', base, i, t))
    && (forall t {:trigger AskedFrom(s'.asks, base, t)} :: AskedFrom(s.asks, base, t) ==> AskedFrom(s'.asks, base, t))
  }

  /** The step delivers the request to participant i about an hour. */
  ghost predicate Forwards(c: Setup, s: Sys, e: Event, i: nat, t: int) {
    !s.coord.stopped && e == Deliver(Request(i, c.Slot(t))) && e.m in s.net
  }

  /** What is delivered moves on. */
  ghost predicate Advances(c: Setup, base: nat, s: Sys, e: Event, s': Sys) {
    && (forall i, t ::
          0 <= i < |c.parties| && Handles(c, s, e, i, t) && (c.parties[i].Attends(c.Slot(t)) || base < |s.asks|) ==>
          Effective(c, s', base, i, t))
    && (forall i, t :: 0 <= i < |c.parties| && Forwards(c, s, e, i, t) ==> AnswerOf(c, i, t) in s'.net)
  }

  lemma StepKeeps(c: Setup, base: nat, s: Sys, e: Event)
    requires Inv(c, s)
    ensures Keeps(c, base, s, Apply(c, s, e))
  {
    var s' := Apply(c, s, e);
    forall i, t | 0 <= i < |c.parties| && Effective(c, s, base, i, t)
      ensures Effective(c, s', base, i, t)
    {
      EffectiveKept(c, s, e, base, i, t);
    }
    AsksGrow(c, s, e);
    forall t | AskedFrom(s.asks, base, t)
      ensures AskedFrom(s'.asks, base, t)
    {
      AskedFromKept(s.asks, s'.asks, base, t);
    }
  }

  lemma StepAdvances(c: Setup, base: nat, s: Sys, e: Event)
    requires Inv(c, s)
    ensures Advances(c, base, s, e, Apply(c, s, e))
  {
    var s' := Apply(c, s, e);
    forall i, t | 0 <= i < |c.parties| && Handles(c, s, e, i, t) && (c.parties[i].Attends(c.Slot(t)) || base < |s.asks|)
      ensures Effective(c, s', base, i, t)
    {
      HandledIsEffective(c, s, e, base, i, t);
    }
  }

  /** Everything the termination proof uses about a run from step n0 on. */
  ghost predicate Behaves(c: Setup, base: nat, sched: nat -> Event, run: nat -> Sys, n0: nat) {
    forall n: nat :: n0 <= n ==> StepOk(c, base, sched, run, n)
  }

  ghost predicate StepOk(c: Setup, base: nat, sched: nat -> Event, run: nat -> Sys, n: nat) {
    && Keeps(c, base, run(n), run(n + 1)) && Advances(c, base, run(n), sched(n), run(n + 1))
    && Inv(c, run(n)) && TrackedFrom(c, run(n), base)
  }

  lemma RunBehaves(c: Setup, base: nat, sched: nat -> Event, run: nat -> Sys, n0: nat)
    requires IsRun(c, sched, run) && LosslessFrom(sched, n0) && TrackedFrom(c, run(n0), base)
    ensures Behaves(c, base, sched, run, n0)
  {
    forall k: nat | n0 <= k
      ensures TracksOn(c, base, run, k)
    {
      NextTracks(c, base, sched, run, k);
    }
    forall n: nat | n0 <= n
      ensures StepOk(c, base, sched, run, n)
    {
      TrackedFromOn(c, base, run, n0, n);
      StepOfRun(c, base, sched, run, n);
    }
  }

  lemma StepOfRun(c: Setup, base: nat, sched: nat -> Event, run: nat -> Sys, n: nat)
    requires IsRun(c, sched, run) && TrackedFrom(c, run(n), base)
    ensures StepOk(c, base, sched, run, n)
  {
    RunInv(c, sched, run, n);
    RunSteps(c, sched, run, n);
    StepKeeps(c, base, run(n), sched(n));
    StepAdvances(c, base, run(n), sched(n));
  }

  lemma {:induction false} EffectiveStays(
    c: Setup, base: nat, sched: nat -> Event, run: nat -> Sys, n0: nat, n: nat, k: nat, i: nat, t: int)
    requires Behaves(c, base, sched, run, n0) && n0 <= n <= k && i < |c.parties| && Effective(c, run(n), base, i, t)
    ensures Effective(c, run(k), base, i, t)
  {
    if n < k {
      EffectiveStays(c, base, sched, run, n0, n, k - 1, i, t);
      assert StepOk(c, base, sched, run, k - 1);
    }
  }

  lemma {:induction false} AskedFromStays(
    c: Setup, base: nat, sched: nat -> Event, run: nat -> Sys, n0: nat, n: nat, k: nat, t: int)
    requires Behaves(c, base, sched, run, n0) && n0 <= n <= k && AskedFrom(run(n).asks, base, t)
    ensures AskedFrom(run(k).asks, base, t)
  {
    if n < k {
      AskedFromStays(c, base, sched, run, n0, n, k - 1, t);
      assert StepOk(c, base, sched, run, k - 1);
    }
  }

  /** The answer of participant i about hour t will take effect once it is handled. */
  ghost predicate WillCount(c: Setup, s: Sys, base: nat, i: nat, t: int)
    requires i < |c.parties|
  {
    c.parties[i].Attends(c.Slot(t)) || AskedFrom(s.asks, base, t)
  }

  lemma WillCountStays(
    c: Setup, base: nat, sched: nat -> Event, run: nat -> Sys, n0: nat, n: nat, k: nat, i: nat, t: int)
    requires Behaves(c, base, sched, run, n0) && n0 <= n <= k && i < |c.parties| && WillCount(c, run(n), base, i, t)
    ensures WillCount(c, run(k), base, i, t)
  {
    if !c.parties[i].Attends(c.Slot(t)) {
      AskedFromStays(c, base, sched, run, n0, n, k, t);
    }
  }

  /** An answer under way takes effect in a fair run, unless the coordinator stops first. */
  lemma ResponseTakesEffect(c: Setup, base: nat, sched: nat -> Event, run: nat -> Sys, n0: nat, n: nat, i: nat, t: int)
    returns (k: nat)
    requires Behaves(c, base, sched, run, n0) && FairFrom(sched, run, n0) && n0 <= n
    requires i < |c.parties| && AnswerOf(c, i, t) in run(n).net && WillCount(c, run(n), base, i, t)
    ensures n <= k && (run(k).coord.stopped || Effective(c, run(k), base, i, t))
  {
    assert Served(sched, run, n, AnswerOf(c, i, t));
    k :| n <= k && (run(k).coord.stopped || DeliveredAt(sched, run, k, AnswerOf(c, i, t)));
    if !run(k).coord.stopped {
      WillCountStays(c, base, sched, run, n0, n, k, i, t);
      assert StepOk(c, base, sched, run, k);
      assert Handles(c, run(k), sched(k), i, t);
      k := k + 1;
    }
  }

  /** So does the answer to a request under way. */
  lemma FlightTakesEffect(c: Setup, base: nat, sched: nat -> Event, run: nat -> Sys, n0: nat, n: nat, i: nat, t: int)
    returns (k: nat)
    requires Behaves(c, base, sched, run, n0) && FairFrom(sched, run, n0) && n0 <= n
    requires i < |c.parties| && InFlight(c, run(n).net, i, t) && WillCount(c, run(n), base, i, t)
    ensures n <= k && (run(k).coord.stopped || Effective(c, run(k), base, i, t))
  {
    var request := Request(i, c.Slot(t));
    if request in run(n).net {
      assert Served(sched, run, n, request);
      k :| n <= k && (run(k).coord.stopped || DeliveredAt(sched, run, k, request));
      if !run(k).coord.stopped {
        WillCountStays(c, base, sched, run, n0, n, k + 1, i, t);
        assert StepOk(c, base, sched, run, k);
        assert Forwards(c, run(k), sched(k), i, t);
        k := ResponseTakesEffect(c, base, sched, run, n0, k + 1, i, t);
      }
    } else {
      k := ResponseTakesEffect(c, base, sched, run, n0, n, i, t);
    }
  }

  ghost predicate AllEffective(c: Setup, s: Sys, base: nat, j: nat, t: int)
    requires j <= |c.parties|
  {
    forall i :: 0 <= i < j ==> Effective(c, s, base, i, t)
  }

  lemma AllStayEffective(
    c: Setup, base: nat, sched: nat -> Event, run: nat -> Sys, n0: nat, n: nat, k: nat, j: nat, t: int)
    requires Behaves(c, base, sched, run, n0) && n0 <= n <= k && j <= |c.parties| && AllEffective(c, run(n), base, j, t)
    ensures AllEffective(c, run(k), base, j, t)
  {
    forall i | 0 <= i < j
      ensures Effective(c, run(k), base, i, t)
    {
      EffectiveStays(c, base, sched, run, n0, n, k, i, t);
    }
  }

  /** One more answer takes effect. */
  lemma OneTakesEffect(c: Setup, base: nat, sched: nat -> Event, run: nat -> Sys, n0: nat, n: nat, t: int, j: nat)
    returns (k: nat)
    requires Behaves(c, base, sched, run, n0) && FairFrom(sched, run, n0) && n0 <= n
    requires j < |c.parties| && AskedFrom(run(n).asks, base, t)
    ensures n <= k && (run(k).coord.stopped || Effective(c, run(k), base, j, t))
  {
    assert StepOk(c, base, sched, run, n);
    assert Accounted(c, run(n), base, j, t);
    if Effective(c, run(n), base, j, t) {
      k := n;
    } else {
      k := FlightTakesEffect(c, base, sched, run, n0, n, j, t);
    }
  }

  /** Once an hour has been asked about, the answers of the first j participants eventually take effect. */
  lemma {:induction false} AllTakeEffect(
    c: Setup, base: nat, sched: nat -> Event, run: nat -> Sys, n0: nat, n: nat, t: int, j: nat) returns (k: nat)
    requires Behaves(c, base, sched, run, n0) && FairFrom(sched, run, n0) && n0 <= n
    requires j <= |c.parties| && AskedFrom(run(n).asks, base, t)
    ensures n <= k && (run(k).coord.stopped || AllEffective(c, run(k), base, j, t))
  {
    if j == 0 {
      k := n;
    } else {
      k := AllTakeEffect(c, base, sched, run, n0, n, t, j - 1);
      if !run(k).coord.stopped {
        var k0 := k;
        AskedFromStays(c, base, sched, run, n0, n, k0, t);
        k := OneTakesEffect(c, base, sched, run, n0, k0, t, j - 1);
        AllStayEffective(c, base, sched, run, n0, k0, k, j - 1, t);
      }
    }
  }

  /** When all answers about an hour have taken effect and the coordinator still runs, too few can attend it. */
  lemma EffectiveTooFew(c: Setup, s: Sys, base: nat, t: int)
    requires Inv(c, s) && !s.coord.stopped && AllEffective(c, s, base, |c.parties|, t)
    ensures |c.Attending(t)| < c.Threshold()
  {
    TallyShort(c, s, t);
    var names := Elements(s.coord.Names(c.Key(c.Slot(t))));
    forall x | x in c.Attending(t)
      ensures x in names
    {
      var i :| 0 <= i < |c.parties| && c.parties[i].Attends(c.Slot(t)) && c.parties[i].name == x;
      assert Effective(c, s, base, i, t);
    }
    SubsetSize(c.Attending(t), names);
  }

  /** With enough distinct names, somebody has then rejected it. */
  lemma SomeoneRejected(c: Setup, s: Sys, base: nat, t: int)
    requires Inv(c, s) && !s.coord.stopped && AllEffective(c, s, base, |c.parties|, t)
    requires |c.AllNames()| >= c.Threshold()
    ensures Passed(s.asks, base, t + 1)
  {
    if !Passed(s.asks, base, t + 1) {
      forall i | 0 <= i < |c.parties|
        ensures c.parties[i].Attends(c.Slot(t))
      {
        assert Effective(c, s, base, i, t);
      }
      assert c.Attending(t) == c.AllNames();
      EffectiveTooFew(c, s, base, t);
    }
  }

  /** Once asked about, an hour is passed, or the negotiation stops; it stops if enough can attend the hour. */
  lemma HourLeft(c: Setup, base: nat, sched: nat -> Event, run: nat -> Sys, n0: nat, n: nat, t: int) returns (k: nat)
    requires Behaves(c, base, sched, run, n0) && FairFrom(sched, run, n0) && n0 <= n
    requires |c.AllNames()| >= c.Threshold() && AskedFrom(run(n).asks, base, t)
    ensures n <= k
    ensures run(k).coord.stopped || Passed(run(k).asks, base, t + 1)
    ensures run(k).coord.stopped || |c.Attending(t)| < c.Threshold()
  {
    k := AllTakeEffect(c, base, sched, run, n0, n, t, |c.parties|);
    if !run(k).coord.stopped {
      assert StepOk(c, base, sched, run, k);
      SomeoneRejected(c, run(k), base, t);
      EffectiveTooFew(c, run(k), base, t);
    }
  }

  /** With enough distinct names, every hour is passed sooner or later once the first has been. */
  lemma {:induction false} HourPassed(
    c: Setup, base: nat, sched: nat -> Event, run: nat -> Sys, n0: nat, n: nat, t: int) returns (k: nat)
    requires Behaves(c, base, sched, run, n0) && FairFrom(sched, run, n0) && n0 <= n
    requires |c.AllNames()| >= c.Threshold() && FIRST_HOUR <= t
    requires run(n).coord.stopped || Passed(run(n).asks, base, FIRST_HOUR)
    ensures n <= k && (run(k).coord.stopped || Passed(run(k).asks, base, t))
    decreases t
  {
    if t == FIRST_HOUR {
      k := n;
    } else {
      k := HourPassed(c, base, sched, run, n0, n, t - 1);
      if !run(k).coord.stopped && !Passed(run(k).asks, base, t) {
        assert AskedFrom(run(k).asks, base, t - 1);
        k := HourLeft(c, base, sched, run, n0, k, t - 1);
      }
    }
  }

  /** Hour t cannot be passed without being asked about. */
  ghost predicate NoJump(run: nat -> Sys, base: nat, n0: nat, t: int) {
    forall n: nat :: n0 <= n && Passed(run(n).asks, base, t) ==> AskedFrom(run(n).asks, base, t)
  }

  /** The negotiation stops if enough can attend an hour that cannot be jumped. */
  lemma StopsAtHour(c: Setup, base: nat, sched: nat -> Event, run: nat -> Sys, n0: nat, n: nat, t: int) returns (k: nat)
    requires Behaves(c, base, sched, run, n0) && FairFrom(sched, run, n0) && n0 <= n
    requires FIRST_HOUR <= t && |c.Attending(t)| >= c.Threshold() && NoJump(run, base, n0, t)
    requires run(n).coord.stopped || Passed(run(n).asks, base, FIRST_HOUR)
    ensures run(k).coord.stopped
  {
    SubsetSize(c.Attending(t), c.AllNames());
    k := HourPassed(c, base, sched, run, n0, n, t);
    if !run(k).coord.stopped {
      k := HourLeft(c, base, sched, run, n0, k, t);
    }
  }

  // ----- runs that lose nothing -----

  lemma ConnectAsks(c: Setup, s: Sys)
    requires Inv(c, s) && !s.coord.stopped
    ensures Passed(Connected(c, s).asks, 0, FIRST_HOUR)
  {
    var asks := Connected(c, s).asks;
    InvConnect(c, s);
    assert asks[|asks| - 1].start >= FIRST_HOUR;
  }

  lemma FirstHourReached(c: Setup, sched: nat -> Event, run: nat -> Sys) returns (k: nat)
    requires IsRun(c, sched, run) && exists n: nat :: sched(n) == Connect
    ensures run(k).coord.stopped || Passed(run(k).asks, 0, FIRST_HOUR)
  {
    k :| sched(k) == Connect;
    if !run(k).coord.stopped {
      RunInv(c, sched, run, k);
      RunSteps(c, sched, run, k);
      ConnectAsks(c, run(k));
      k := k + 1;
    }
  }

  lemma GapFreeNeverJumps(asks: seq<Ask>, t: int)
    requires GapFree(asks) && FIRST_HOUR <= t && Passed(asks, 0, t)
    ensures AskedFrom(asks, 0, t)
  {
    var k :| 0 <= k < |asks| && asks[k].start >= t;
    assert AskedBy(asks, k, t);
  }

  lemma NeverJumps(c: Setup, sched: nat -> Event, run: nat -> Sys, t: int)
    requires Behaves(c, 0, sched, run, 0) && FIRST_HOUR <= t
    ensures NoJump(run, 0, 0, t)
  {
    forall n: nat | Passed(run(n).asks, 0, t)
      ensures AskedFrom(run(n).asks, 0, t)
    {
      assert StepOk(c, 0, sched, run, n);
      GapFreeNeverJumps(run(n).asks, t);
    }
  }

  lemma NothingAsked(c: Setup, run: nat -> Sys, sched: nat -> Event)
    requires IsRun(c, sched, run)
    ensures TrackedFrom(c, run(0), 0)
  {
    assert RunAt(c, sched, run, 0);
  }

  lemma StoppedRunWasAttendable(c: Setup, sched: nat -> Event, run: nat -> Sys)
    requires IsRun(c, sched, run) && Stops(run)
    ensures Attendable(c)
  {
    var n: nat :| run(n).coord.stopped;
    assert RunAt(c, sched, run, n);
    StopNeedsAttendance(c, sched, n);
  }

  /** A fair run stops if and only if, at some hour from 8 on, as many distinct participants can attend
      as the rule needs. This holds for every delivery order and any number of repeated connects. */
  lemma FairRunStopsIff(c: Setup, sched: nat -> Event, run: nat -> Sys)
    requires IsRun(c, sched, run) && Lossless(sched) && Fair(sched, run)
    ensures Stops(run) <==> Attendable(c)
  {
    if Stops(run) {
      StoppedRunWasAttendable(c, sched, run);
    }
    if Attendable(c) {
      var t :| FIRST_HOUR <= t && |c.Attending(t)| >= c.Threshold();
      NothingAsked(c, run, sched);
      RunBehaves(c, 0, sched, run, 0);
      NeverJumps(c, sched, run, t);
      var n := FirstHourReached(c, sched, run);
      var k := StopsAtHour(c, 0, sched, run, 0, n, t);
    }
  }
}
