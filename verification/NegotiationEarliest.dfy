/** When the announced hour is the earliest possible one, and what a coordinator can know about that
    from the answers it has handled. */
module NegotiationEarliest {
  import opened Common
  import opened TimeSlots
  import opened Coordinators
  import opened Negotiation
  import opened NegotiationSafety

  ghost predicate ClosedOn(s: Sys, start: int) {
    s.coord.stopped && |s.announced| == 1 && s.announced[0].slot.start == start
  }

  /** No hour before start has enough participants that can attend. */
  ghost predicate NothingEarlier(c: Setup, start: int) {
    forall t :: FIRST_HOUR <= t < start ==> |c.Attending(t)| < c.Threshold()
  }

  ghost function RecordedNames(c: Setup, s: Sys, t: int): set<string> {
    Elements(s.coord.Names(c.Key(c.Slot(t))))
  }

  /** Participants that can attend an hour but whose acceptance has not been handled yet. */
  ghost function Pending(c: Setup, s: Sys, t: int): set<string> {
    set i | 0 <= i < |c.parties| && c.parties[i].Attends(c.Slot(t)) && InFlight(c, s.net, i, t) :: c.parties[i].name
  }

  /** Of those who can attend an hour that was asked about, each is recorded or still pending. */
  lemma RecordedOrPending(c: Setup, s: Sys, t: int)
    requires Inv(c, s) && HeardOk(c, s) && Tracked(c, s) && Asked(s.asks, t)
    ensures c.Attending(t) == RecordedNames(c, s, t) + Pending(c, s, t)
  {
  }

  lemma RecordedCanAttend(c: Setup, s: Sys, t: int)
    requires Inv(c, s)
    ensures RecordedNames(c, s, t) <= c.Attending(t)
  {
  }

  // ----- what the answers handled so far leave open -----

  /** Participant i has answered about the slot, and the answer has been handled. */
  ghost predicate HeardFrom(heard: seq<Msg>, i: nat, slot: TimeSlot) {
    exists m :: m in heard && m.Response? && m.from == i && m.answer.slot == slot
  }

  /** The participants whose answer about an hour has not been handled, whatever it may be. */
  ghost function Unanswered(c: Setup, s: Sys, t: int): set<string> {
    set i | 0 <= i < |c.parties| && !HeardFrom(s.heard, i, c.Slot(t)) :: c.parties[i].name
  }

  /** Hour t could still get enough acceptances, for all the coordinator has heard. */
  ghost predicate Open(c: Setup, s: Sys, t: int) {
    |RecordedNames(c, s, t) + Unanswered(c, s, t)| >= c.Threshold()
  }

  /** The same meeting and participants, possibly with other windows, but the answers heard are the same. */
  ghost predicate Fits(c: Setup, other: Setup, heard: seq<Msg>) {
    && other.rule == c.rule && other.meeting == c.meeting && |other.parties| == |c.parties|
    && (forall i :: 0 <= i < |c.parties| ==> other.parties[i].name == c.parties[i].name)
    && (forall m :: m in heard && m.Response? && m.from < |c.parties| ==>
          other.parties[m.from].HandleRequest(m.answer.slot) == m.answer)
  }

  /** In a setup that fits the answers heard, only recorded and unanswered names can attend an hour. */
  lemma FitsBounded(c: Setup, s: Sys, other: Setup, t: int)
    requires Inv(c, s) && HeardOk(c, s) && Fits(c, other, s.heard)
    ensures other.Attending(t) <= RecordedNames(c, s, t) + Unanswered(c, s, t)
  {
  }

  /** A participant that has not answered about an hour might have a window for just that hour. */
  function Freed(p: Participant, slot: TimeSlot): Participant {
    p.(windows := p.windows + [slot])
  }

  lemma FreedAttends(p: Participant, slot: TimeSlot, other: TimeSlot)
    ensures Freed(p, slot).Attends(other) <==> p.Attends(other) || (slot.start <= other.start && other.end <= slot.end)
  {
    Freed(p, slot).AttendsMeansContained(other);
    p.AttendsMeansContained(other);
    var windows := Freed(p, slot).windows;
    assert windows[|p.windows|] == slot;
    forall k | 0 <= k < |p.windows|
      ensures windows[k] == p.windows[k]
    {
    }
  }

  /** The setup in which everyone who has not answered about an hour is free then. */
  ghost function Opened(c: Setup, s: Sys, t: int): Setup {
    c.(parties := seq(|c.parties|, i requires 0 <= i < |c.parties| =>
                    if HeardFrom(s.heard, i, c.Slot(t)) then c.parties[i] else Freed(c.parties[i], c.Slot(t))))
  }

  lemma OpenedFits(c: Setup, s: Sys, t: int)
    requires HeardOk(c, s)
    ensures Fits(c, Opened(c, s, t), s.heard)
  {
    var other := Opened(c, s, t);
    forall m | m in s.heard && m.Response? && m.from < |c.parties|
      ensures other.parties[m.from].HandleRequest(m.answer.slot) == m.answer
    {
      assert TrueAnswer(c, m);
      if !HeardFrom(s.heard, m.from, c.Slot(t)) {
        assert m.answer.slot != c.Slot(t);
        FreedAttends(c.parties[m.from], c.Slot(t), m.answer.slot);
      }
    }
  }

  lemma OpenedAttends(c: Setup, s: Sys, t: int)
    requires Inv(c, s)
    ensures RecordedNames(c, s, t) + Unanswered(c, s, t) <= Opened(c, s, t).Attending(t)
  {
    var other := Opened(c, s, t);
    RecordedCanAttend(c, s, t);
    forall i | 0 <= i < |c.parties| && (c.parties[i].Attends(c.Slot(t)) || !HeardFrom(s.heard, i, c.Slot(t)))
      ensures c.parties[i].name in other.Attending(t)
    {
      FreedAttends(c.parties[i], c.Slot(t), c.Slot(t));
      assert other.parties[i].Attends(other.Slot(t)) && other.parties[i].name == c.parties[i].name;
    }
  }

  /** An hour that is open suits enough participants in a setup that fits the answers heard. */
  lemma OpenIsPossible(c: Setup, s: Sys, t: int)
    requires Inv(c, s) && HeardOk(c, s) && Open(c, s, t)
    ensures var other := Opened(c, s, t);
      Fits(c, other, s.heard) && |other.Attending(t)| >= other.Threshold()
  {
    OpenedFits(c, s, t);
    OpenedAttends(c, s, t);
    SubsetSize(RecordedNames(c, s, t) + Unanswered(c, s, t), Opened(c, s, t).Attending(t));
  }

  /** Any other hour suits too few, in every such setup. */
  lemma PossibleIsOpen(c: Setup, s: Sys, other: Setup, t: int)
    requires Inv(c, s) && HeardOk(c, s) && Fits(c, other, s.heard) && !Open(c, s, t)
    ensures |other.Attending(t)| < other.Threshold()
  {
    FitsBounded(c, s, other, t);
    SubsetSize(other.Attending(t), RecordedNames(c, s, t) + Unanswered(c, s, t));
  }

  ghost predicate NoneOpen(c: Setup, s: Sys, start: int) {
    forall t :: FIRST_HOUR <= t < start ==> !Open(c, s, t)
  }

  lemma NoneOpenSuffices(c: Setup, s: Sys, other: Setup, start: int)
    requires Inv(c, s) && HeardOk(c, s) && Fits(c, other, s.heard) && NoneOpen(c, s, start)
    ensures NothingEarlier(other, start)
  {
    forall t | FIRST_HOUR <= t < start
      ensures |other.Attending(t)| < other.Threshold()
    {
      PossibleIsOpen(c, s, other, t);
    }
  }

  lemma NoneOpenNeeded(c: Setup, s: Sys, start: int)
    requires Inv(c, s) && HeardOk(c, s) && !NoneOpen(c, s, start)
    ensures exists other :: Fits(c, other, s.heard) && !NothingEarlier(other, start)
  {
    var t :| FIRST_HOUR <= t < start && Open(c, s, t);
    OpenIsPossible(c, s, t);
    assert !NothingEarlier(Opened(c, s, t), start);
  }

  /** At any moment of any run, whatever was lost: the answers handled so far show that no hour before
      start is possible, in whichever way the other answers may turn out, if and only if each of those
      hours lacks names even when all that have not answered about it are counted in. */
  lemma EarliestIff(c: Setup, sched: nat -> Event, n: nat, start: int)
    ensures var s := At(c, sched, n);
      (forall other :: Fits(c, other, s.heard) ==> NothingEarlier(other, start)) <==> NoneOpen(c, s, start)
  {
    InvAlways(c, sched, n);
    HeardAlways(c, sched, n);
    EarliestKnownIff(c, At(c, sched, n), start);
  }

  lemma EarliestKnownIff(c: Setup, s: Sys, start: int)
    requires Inv(c, s) && HeardOk(c, s)
    ensures (forall other :: Fits(c, other, s.heard) ==> NothingEarlier(other, start)) <==> NoneOpen(c, s, start)
  {
    if NoneOpen(c, s, start) {
      forall other | Fits(c, other, s.heard)
        ensures NothingEarlier(other, start)
      {
        NoneOpenSuffices(c, s, other, start);
      }
    } else {
      NoneOpenNeeded(c, s, start);
    }
  }

  /** If the coordinator can know that nothing earlier is possible, that is so. */
  lemma EarliestWhenNoneOpen(c: Setup, sched: nat -> Event, n: nat, start: int)
    requires NoneOpen(c, At(c, sched, n), start)
    ensures NothingEarlier(c, start)
  {
    InvAlways(c, sched, n);
    HeardAlways(c, sched, n);
    FitsItself(c, At(c, sched, n));
    NoneOpenSuffices(c, At(c, sched, n), c, start);
  }

  lemma FitsItself(c: Setup, s: Sys)
    requires HeardOk(c, s)
    ensures Fits(c, c, s.heard)
  {
  }

  /** In a run that loses nothing, whoever has not answered about an hour asked about has a message
      about it under way. */
  lemma UnansweredUnderWay(c: Setup, s: Sys, t: int, i: nat)
    requires Tracked(c, s) && Asked(s.asks, t) && i < |c.parties| && !HeardFrom(s.heard, i, c.Slot(t))
    ensures InFlight(c, s.net, i, t)
  {
  }

  // ----- linear scans -----

  /** An hour about which nothing is under way any more, and which was not closed, is not open. */
  lemma NotOpen(c: Setup, s: Sys, t: int)
    requires Inv(c, s) && Tracked(c, s) && Asked(s.asks, t)
    requires !s.coord.stopped || c.Key(s.announced[0].slot) != c.Key(c.Slot(t))
    requires forall m :: m in s.net ==> m.Slot() != c.Slot(t)
    ensures !Open(c, s, t)
  {
    assert Unanswered(c, s, t) == {} by {
      forall i | 0 <= i < |c.parties|
        ensures HeardFrom(s.heard, i, c.Slot(t))
      {
        assert Request(i, c.Slot(t)).Slot() == AnswerOf(c, i, t).Slot() == c.Slot(t);
        if !HeardFrom(s.heard, i, c.Slot(t)) {
          UnansweredUnderWay(c, s, t, i);
        }
      }
    }
    assert RecordedNames(c, s, t) + Unanswered(c, s, t) == RecordedNames(c, s, t);
    TallyShort(c, s, t);
  }

  /** If nothing about an earlier hour was under way when the meeting was closed, the announced hour is
      the one a linear scan from 8 would find. */
  lemma LinearScan(c: Setup, sched: nat -> Event, n: nat, start: int)
    requires Lossless(sched)
    requires ClosedOn(At(c, sched, n), start)
    requires forall m :: m in At(c, sched, n).net ==> m.Slot().start >= start
    ensures FIRST_HOUR <= start && |c.Attending(start)| >= c.Threshold()
    ensures NothingEarlier(c, start)
  {
    TrackedAlways(c, sched, n);
    var s := At(c, sched, n);
    ClosedIsAttended(c, s, start);
    forall t | FIRST_HOUR <= t < start
      ensures !Open(c, s, t)
    {
      AskedBefore(c, s, start, t);
      NotOpen(c, s, t);
    }
    EarliestWhenNoneOpen(c, sched, n, start);
  }

  lemma ClosedIsAttended(c: Setup, s: Sys, start: int)
    requires Inv(c, s) && ClosedOn(s, start)
    ensures FIRST_HOUR <= start && |c.Attending(start)| >= c.Threshold()
  {
    var names := s.announced[0].names;
    assert TallyOk(c, start, names);
    DistinctLength(names);
    SubsetSize(Elements(names), c.Attending(start));
  }

  lemma AskedBefore(c: Setup, s: Sys, start: int, t: int)
    requires Inv(c, s) && ClosedOn(s, start) && FIRST_HOUR <= t <= start
    ensures Asked(s.asks, t)
  {
    var k :| 0 <= k < |s.asks| && s.asks[k].start == start;
    assert AskedBy(s.asks, k, t);
  }

  /** The answer handled at step n is about no later an hour than any message under way. */
  ghost predicate InOrder(c: Setup, s: Sys, e: Event) {
    e.Deliver? && e.m in s.net && e.m.Response? ==> forall m :: m in s.net ==> e.m.Slot().start <= m.Slot().start
  }

  /** Once closed, nothing about an hour before the announced one is under way. */
  ghost predicate ClosedLast(s: Sys) {
    s.coord.stopped ==>
      |s.announced| == 1 && forall m :: m in s.net ==> m.Slot().start >= s.announced[0].slot.start
  }

  lemma ClosedLastKept(c: Setup, s: Sys, e: Event)
    requires Inv(c, s) && InOrder(c, s, e) && ClosedLast(s)
    ensures ClosedLast(Apply(c, s, e))
  {
    if !s.coord.stopped && Apply(c, s, e).coord.stopped {
      ClosingStep(c, s, e);
    }
  }

  ghost predicate InOrderUpTo(c: Setup, sched: nat -> Event, n: nat) {
    n > 0 ==> InOrder(c, At(c, sched, n - 1), sched(n - 1)) && InOrderUpTo(c, sched, n - 1)
  }

  lemma ClosedLastNext(c: Setup, sched: nat -> Event, n: nat)
    requires InOrder(c, At(c, sched, n), sched(n)) && ClosedLast(At(c, sched, n))
    ensures ClosedLast(At(c, sched, n + 1))
  {
    InvAlways(c, sched, n);
    ClosedLastKept(c, At(c, sched, n), sched(n));
  }

  lemma {:induction false} ClosedLastAlways(c: Setup, sched: nat -> Event, n: nat)
    requires InOrderUpTo(c, sched, n)
    ensures ClosedLast(At(c, sched, n))
  {
    if n > 0 {
      ClosedLastAlways(c, sched, n - 1);
      ClosedLastNext(c, sched, n - 1);
    }
  }

  /** If all answers about one hour are handled before any answer about a later hour, the announced
      hour is the one a linear scan would find. */
  lemma InOrderFindsEarliest(c: Setup, sched: nat -> Event, n: nat, start: int)
    requires Lossless(sched) && InOrderUpTo(c, sched, n)
    requires ClosedOn(At(c, sched, n), start)
    ensures FIRST_HOUR <= start && |c.Attending(start)| >= c.Threshold()
    ensures NothingEarlier(c, start)
  {
    ClosedLastAlways(c, sched, n);
    LinearScan(c, sched, n, start);
  }

  lemma ClosingAcceptance(c: Setup, s: Sys, m: Msg)
    requires Genuine(c, s.asks, m) && m.Response? && m.answer.available
    requires TalliesOk(c, s.coord.agreed, false) && !s.coord.stopped && s.announced == []
    requires Answered(c, s, m).coord.stopped
    ensures var s' := Answered(c, s, m); ClosedOn(s', m.Slot().start) && s'.net <= s.net && s'.asks == s.asks
  {
    AcceptanceRecorded(c, s.coord, m.answer);
    AcceptanceTallied(c, s.coord, m.answer, m.from);
  }

  lemma RejectionNeverCloses(c: Setup, s: Sys, m: Msg)
    requires Inv(c, s) && !s.coord.stopped && m in s.net && m.Response? && !m.answer.available
    ensures !Answered(c, s, m).coord.stopped
  {
    AskAfterRejection(c, s, m);
    RejectionAdvances(c, s.coord, m.answer, Latest(s.asks));
  }

  /** The step that closes a meeting handles an acceptance of the announced hour and sends nothing. */
  lemma ClosingStep(c: Setup, s: Sys, e: Event)
    requires Inv(c, s) && !s.coord.stopped && Apply(c, s, e).coord.stopped
    ensures var s' := Apply(c, s, e);
      && e.Deliver? && e.m in s.net && e.m.Response?
      && ClosedOn(s', e.m.Slot().start)
      && s'.net <= s.net && s'.asks == s.asks
  {
    assert e.Deliver? && e.m in s.net && e.m.Response?;
    if e.m.answer.available {
      assert Genuine(c, s.asks, e.m);
      ClosingAcceptance(c, s, e.m);
    } else {
      RejectionNeverCloses(c, s, e.m);
    }
  }
}
