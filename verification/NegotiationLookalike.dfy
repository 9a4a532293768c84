/** What a coordinator has heard is all it can go by: every setup that fits the answers heard has a run
    that looks the same to it. */
module NegotiationLookalike {
  import opened Common
  import opened TimeSlots
  import opened Negotiation
  import opened NegotiationEarliest

  /** The message that takes the place of m when other participants answer. */
  function Twin(other: Setup, m: Msg): Msg {
    if m.Response? && m.from < |other.parties| then
      Response(m.from, other.parties[m.from].HandleRequest(m.answer.slot))
    else m
  }

  ghost predicate Proper(c: Setup, m: Msg) {
    m.Response? ==> m.from < |c.parties| && m.answer == c.parties[m.from].HandleRequest(m.answer.slot)
  }

  ghost predicate TwinNets(c: Setup, other: Setup, net: multiset<Msg>, net': multiset<Msg>) {
    forall m :: Proper(c, m) ==> net'[Twin(other, m)] == net[m]
  }

  /** The coordinator is in the same state, has heard and asked the same, and twins are under way. */
  ghost predicate Alike(c: Setup, other: Setup, s: Sys, s': Sys) {
    s' == s.(net := s'.net) && TwinNets(c, other, s.net, s'.net)
  }

  /** The event that corresponds to e. */
  ghost function TwinEvent(other: Setup, s: Sys, e: Event): Event {
    match e
    case Deliver(m) => if m in s.net then Deliver(Twin(other, m)) else Idle
    case Lose(m) => if m in s.net then Lose(Twin(other, m)) else Idle
    case _ => e
  }

  lemma TwinRemoved(c: Setup, other: Setup, net: multiset<Msg>, net': multiset<Msg>, m: Msg)
    requires |other.parties| == |c.parties| && TwinNets(c, other, net, net') && Proper(c, m)
    ensures TwinNets(c, other, net - multiset{m}, net' - multiset{Twin(other, m)})
  {
  }

  lemma TwinAdded(c: Setup, other: Setup, net: multiset<Msg>, net': multiset<Msg>, m: Msg)
    requires |other.parties| == |c.parties| && TwinNets(c, other, net, net') && Proper(c, m)
    ensures TwinNets(c, other, net + multiset{m}, net' + multiset{Twin(other, m)})
  {
  }

  lemma TwinSent(c: Setup, other: Setup, net: multiset<Msg>, net': multiset<Msg>, asked: Option<TimeSlot>)
    requires |other.parties| == |c.parties| && TwinNets(c, other, net, net')
    ensures TwinNets(c, other, net + Sent(c, asked), net' + Sent(other, asked))
  {
  }

  lemma RequestAlike(c: Setup, other: Setup, s: Sys, s': Sys, m: Msg)
    requires Inv(c, s) && |other.parties| == |c.parties| && other.meeting == c.meeting
    requires Alike(c, other, s, s') && m in s.net && m.Request?
    ensures Alike(c, other, Requested(c, s, m), Requested(other, s', m))
  {
    assert Genuine(c, s.asks, m);
    TwinRemoved(c, other, s.net, s'.net, m);
    TwinAdded(c, other, s.net - multiset{m}, s'.net - multiset{m},
              Response(m.to, c.parties[m.to].HandleRequest(m.wanted)));
  }

  lemma AnswerAlike(c: Setup, other: Setup, s: Sys, s': Sys, m: Msg)
    requires |other.parties| == |c.parties| && other.meeting == c.meeting && other.rule == c.rule
    requires Alike(c, other, s, s') && m.Response? && Proper(c, m) && Twin(other, m) == m
    ensures Alike(c, other, Answered(c, s, m), Answered(other, s', m))
  {
    TwinRemoved(c, other, s.net, s'.net, m);
    TwinSent(c, other, s.net - multiset{m}, s'.net - multiset{m}, c.OnAnswer(s.coord, m.answer).asked);
  }

  lemma ConnectAlike(c: Setup, other: Setup, s: Sys, s': Sys)
    requires |other.parties| == |c.parties| && other.meeting == c.meeting && other.rule == c.rule
    requires Alike(c, other, s, s')
    ensures Alike(c, other, Connected(c, s), Connected(other, s'))
  {
  }

  lemma DeliveryAlike(c: Setup, other: Setup, s: Sys, s': Sys, m: Msg)
    requires Inv(c, s) && Fits(c, other, Apply(c, s, Deliver(m)).heard) && Alike(c, other, s, s')
    requires m in s.net && !s.coord.stopped
    ensures Alike(c, other, Apply(c, s, Deliver(m)), Apply(other, s', Deliver(Twin(other, m))))
  {
    assert Genuine(c, s.asks, m) && Proper(c, m);
    assert Twin(other, m) in s'.net;
    if m.Request? {
      RequestAlike(c, other, s, s', m);
    } else {
      assert m in Answered(c, s, m).heard;
      AnswerAlike(c, other, s, s', m);
    }
  }

  lemma LossAlike(c: Setup, other: Setup, s: Sys, s': Sys, m: Msg)
    requires Inv(c, s) && |other.parties| == |c.parties| && Alike(c, other, s, s') && m in s.net
    ensures Alike(c, other, s.(net := s.net - multiset{m}), s'.(net := s'.net - multiset{Twin(other, m)}))
  {
  }

  /** Events that do nothing correspond to events that do nothing. */
  lemma NothingAlike(c: Setup, other: Setup, s: Sys, s': Sys, e: Event)
    requires s.coord.stopped == s'.coord.stopped
    requires s.coord.stopped || e.Idle? || (!e.Connect? && e.m !in s.net)
    ensures Apply(c, s, e) == s && Apply(other, s', TwinEvent(other, s, e)) == s'
  {
  }

  /** Corresponding steps lead to states that look the same, if the answer heard, if any, is the same. */
  lemma StepAlike(c: Setup, other: Setup, s: Sys, s': Sys, e: Event)
    requires Inv(c, s) && Fits(c, other, Apply(c, s, e).heard) && Alike(c, other, s, s')
    ensures Alike(c, other, Apply(c, s, e), Apply(other, s', TwinEvent(other, s, e)))
  {
    if s.coord.stopped || e.Idle? || (!e.Connect? && e.m !in s.net) {
      NothingAlike(c, other, s, s', e);
    } else if e.Connect? {
      ConnectAlike(c, other, s, s');
    } else if e.Deliver? {
      DeliveryAlike(c, other, s, s', e.m);
    } else {
      LossAlike(c, other, s, s', e.m);
    }
  }

  /** The schedule's k-th event corresponds to that of the run. */
  ghost predicate TwinAt(other: Setup, run: nat -> Sys, sched: nat -> Event, sched': nat -> Event, k: nat) {
    sched'(k) == TwinEvent(other, run(k), sched(k))
  }

  lemma TwinSchedule(other: Setup, run: nat -> Sys, sched: nat -> Event) returns (sched': nat -> Event)
    ensures forall k: nat :: TwinAt(other, run, sched, sched', k)
  {
    sched' := (k: nat) => TwinEvent(other, run(k), sched(k));
  }

  lemma FitsFewer(c: Setup, other: Setup, heard: seq<Msg>, more: seq<Msg>)
    requires heard <= more && Fits(c, other, more)
    ensures Fits(c, other, heard)
  {
  }

  /** The k-th step of a run. */
  ghost predicate StepOf(c: Setup, sched: nat -> Event, run: nat -> Sys, k: nat) {
    RunStep(c, sched, run, k) && Inv(c, run(k))
  }

  ghost predicate StepsOf(c: Setup, sched: nat -> Event, run: nat -> Sys) {
    run(0) == Initial() && forall k: nat :: StepOf(c, sched, run, k)
  }

  lemma StepOfRun(c: Setup, sched: nat -> Event, run: nat -> Sys, k: nat)
    requires IsRun(c, sched, run)
    ensures StepOf(c, sched, run, k)
  {
    RunInv(c, sched, run, k);
    RunSteps(c, sched, run, k);
  }

  lemma RunOf(c: Setup, sched: nat -> Event) returns (run: nat -> Sys)
    ensures StepsOf(c, sched, run) && IsRun(c, sched, run)
  {
    run := (k: nat) => At(c, sched, k);
    forall k: nat
      ensures StepOf(c, sched, run, k)
    {
      StepOfRun(c, sched, run, k);
    }
  }

  ghost predicate Grows(run: nat -> Sys, j: nat) {
    run(j).heard <= run(j + 1).heard
  }

  lemma NextGrows(c: Setup, sched: nat -> Event, run: nat -> Sys, j: nat)
    requires StepOf(c, sched, run, j)
    ensures Grows(run, j)
  {
  }

  lemma {:induction false} GrowsOn(run: nat -> Sys, k: nat, n: nat)
    requires k <= n && forall j: nat :: Grows(run, j)
    ensures run(k).heard <= run(n).heard
  {
    if k < n {
      GrowsOn(run, k, n - 1);
      assert Grows(run, n - 1);
    }
  }

  /** What fits the answers heard in the end has fitted them all along. */
  lemma FitsBefore(c: Setup, other: Setup, run: nat -> Sys, k: nat, n: nat)
    requires k <= n && Fits(c, other, run(n).heard) && forall j: nat :: Grows(run, j)
    ensures Fits(c, other, run(k).heard)
  {
    GrowsOn(run, k, n);
    FitsFewer(c, other, run(k).heard, run(n).heard);
  }

  ghost predicate KeepsAlike(c: Setup, other: Setup, run: nat -> Sys, run': nat -> Sys, k: nat) {
    Alike(c, other, run(k), run'(k)) ==> Alike(c, other, run(k + 1), run'(k + 1))
  }

  lemma NextAlike(
    c: Setup, other: Setup, sched: nat -> Event, run: nat -> Sys, sched': nat -> Event, run': nat -> Sys, k: nat)
    requires StepOf(c, sched, run, k) && StepOf(other, sched', run', k) && TwinAt(other, run, sched, sched', k)
    requires Fits(c, other, run(k + 1).heard)
    ensures KeepsAlike(c, other, run, run', k)
  {
    if Alike(c, other, run(k), run'(k)) {
      StepAlike(c, other, run(k), run'(k), sched(k));
    }
  }

  lemma StartAlike(c: Setup, other: Setup)
    ensures Alike(c, other, Initial(), Initial())
  {
  }

  lemma {:induction false} RunsAlike(c: Setup, other: Setup, run: nat -> Sys, run': nat -> Sys, n: nat)
    requires run(0) == run'(0) == Initial()
    requires forall k: nat :: k < n ==> KeepsAlike(c, other, run, run', k)
    ensures Alike(c, other, run(n), run'(n))
  {
    if n == 0 {
      StartAlike(c, other);
    } else {
      RunsAlike(c, other, run, run', n - 1);
      assert KeepsAlike(c, other, run, run', n - 1);
    }
  }

  lemma RunGrows(c: Setup, sched: nat -> Event, run: nat -> Sys)
    requires StepsOf(c, sched, run)
    ensures forall j: nat :: Grows(run, j)
  {
    forall j: nat
      ensures Grows(run, j)
    {
      NextGrows(c, sched, run, j);
    }
  }

  ghost predicate FitsAt(c: Setup, other: Setup, run: nat -> Sys, k: nat) {
    Fits(c, other, run(k).heard)
  }

  lemma FitsThroughout(c: Setup, other: Setup, run: nat -> Sys, n: nat)
    requires FitsAt(c, other, run, n) && forall j: nat :: Grows(run, j)
    ensures forall k: nat :: k <= n ==> FitsAt(c, other, run, k)
  {
    forall k: nat | k <= n
      ensures FitsAt(c, other, run, k)
    {
      FitsBefore(c, other, run, k, n);
    }
  }

  lemma AllKeepAlike(
    c: Setup, other: Setup, sched: nat -> Event, run: nat -> Sys, sched': nat -> Event, run': nat -> Sys, n: nat)
    requires StepsOf(c, sched, run) && StepsOf(other, sched', run')
    requires forall k: nat :: TwinAt(other, run, sched, sched', k)
    requires forall k: nat :: k <= n ==> FitsAt(c, other, run, k)
    ensures forall k: nat :: k < n ==> KeepsAlike(c, other, run, run', k)
  {
    forall k: nat | k < n
      ensures KeepsAlike(c, other, run, run', k)
    {
      assert StepOf(c, sched, run, k);
      assert FitsAt(c, other, run, k + 1);
      NextAlike(c, other, sched, run, sched', run', k);
    }
  }

  lemma TwinLosesNoMore(other: Setup, run: nat -> Sys, sched: nat -> Event, sched': nat -> Event)
    requires forall k: nat :: TwinAt(other, run, sched, sched', k)
    ensures forall k: nat :: sched'(k).Lose? ==> sched(k).Lose?
  {
    forall k: nat
      ensures sched'(k).Lose? ==> sched(k).Lose?
    {
      assert TwinAt(other, run, sched, sched', k);
    }
  }

  /** Every setup that fits the answers heard has a run in which the coordinator is in the same state and
      has asked, heard and announced the same; and that run loses a message only when this one does. */
  lemma FittingSetupLooksAlike(c: Setup, other: Setup, sched: nat -> Event, n: nat) returns (sched': nat -> Event)
    requires Fits(c, other, At(c, sched, n).heard)
    ensures At(other, sched', n) == At(c, sched, n).(net := At(other, sched', n).net)
    ensures forall k: nat :: sched'(k).Lose? ==> sched(k).Lose?
  {
    var run := RunOf(c, sched);
    assert RunAt(c, sched, run, n);
    sched' := TwinSchedule(other, run, sched);
    TwinLosesNoMore(other, run, sched, sched');
    var run' := RunOf(other, sched');
    RunGrows(c, sched, run);
    FitsThroughout(c, other, run, n);
    AllKeepAlike(c, other, sched, run, sched', run', n);
    RunsAlike(c, other, run, run', n);
    assert RunAt(other, sched', run', n);
    SameOutcome(c, other, run(n), run'(n));
  }

  lemma SameOutcome(c: Setup, other: Setup, s: Sys, s': Sys)
    requires Alike(c, other, s, s')
    ensures s' == s.(net := s'.net)
  {
  }
}
