/** What every run of the negotiation guarantees: who is in an announced meeting, which hours
    are asked about, and that the run never gets stuck. */
module NegotiationSafety {
  import opened Common
  import opened TimeSlots
  import opened Coordinators
  import opened Negotiation

  // ----- for every run, with messages delivered in any order or lost -----

  /** A participant of that name has a window with room for the whole meeting from the given hour on. */
  ghost predicate HasRoom(c: Setup, name: string, hour: int) {
    exists i, k ::
      && 0 <= i < |c.parties| && 0 <= k < |c.parties[i].windows|
      && c.parties[i].name == name
      && c.parties[i].windows[k].start <= hour && hour + c.meeting.duration <= c.parties[i].windows[k].end
  }

  /** Those that can attend at an hour are those with room for the meeting from then on. */
  lemma AttendingIff(c: Setup, hour: int, name: string)
    ensures name in c.Attending(hour) <==> HasRoom(c, name, hour)
  {
    if name in c.Attending(hour) {
      var i :| 0 <= i < |c.parties| && c.parties[i].Attends(c.Slot(hour)) && c.parties[i].name == name;
      c.parties[i].AttendsMeansContained(c.Slot(hour));
    }
    if HasRoom(c, name, hour) {
      var i, k :|
        && 0 <= i < |c.parties| && 0 <= k < |c.parties[i].windows|
        && c.parties[i].name == name
        && c.parties[i].windows[k].start <= hour && hour + c.meeting.duration <= c.parties[i].windows[k].end;
      c.parties[i].AttendsMeansContained(c.Slot(hour));
    }
  }

  /** The slot is of the meeting's date and length. */
  ghost predicate Fits(c: Setup, slot: TimeSlot) {
    slot.date == c.meeting.date && slot.end - slot.start == c.meeting.duration
  }

  /** Every slot that is proposed, asked about, answered or announced in a run is of the meeting's date and
      length, and what is under way or was heard comes from or goes to a participant. */
  lemma SlotsFitMeeting(c: Setup, sched: nat -> Event, n: nat)
    ensures var s := At(c, sched, n);
      && (s.coord.current.Some? ==> Fits(c, s.coord.current.value))
      && (forall i: nat, slot :: Request(i, slot) in s.net ==> i < |c.parties| && Fits(c, slot))
      && (forall i: nat, a :: Response(i, a) in s.net || Response(i, a) in s.heard ==>
            i < |c.parties| && Fits(c, a.slot))
      && (forall a :: a in s.announced ==> Fits(c, a.slot))
  {
    InvAlways(c, sched, n);
    HeardAlways(c, sched, n);
    SlotsFit(c, At(c, sched, n));
  }

  lemma SlotsFit(c: Setup, s: Sys)
    requires Inv(c, s) && HeardOk(c, s)
    ensures s.coord.current.Some? ==> Fits(c, s.coord.current.value)
    ensures forall i: nat, slot :: Request(i, slot) in s.net ==> i < |c.parties| && Fits(c, slot)
    ensures forall i: nat, a :: Response(i, a) in s.net || Response(i, a) in s.heard ==>
      i < |c.parties| && Fits(c, a.slot)
    ensures forall a :: a in s.announced ==> Fits(c, a.slot)
  {
    forall m | m in s.net
      ensures Fits(c, m.Slot()) && Genuine(c, s.asks, m)
    {
    }
  }

  /** At most one meeting is announced, exactly when the coordinator stops. It is of the right date and length,
      starts at 8 or later, and names enough distinct participants, each with room for all of it. */
  lemma AnnouncedMeetingIsSound(c: Setup, sched: nat -> Event, n: nat)
    ensures var s := At(c, sched, n);
      && |s.announced| == (if s.coord.stopped then 1 else 0)
      && forall a :: a in s.announced ==>
           var hour := a.slot.start;
           && a.slot == TimeSlot(c.meeting.date, hour, hour + c.meeting.duration) && 8 <= hour
           && NoDuplicates(a.names) && |a.names| >= c.Threshold() && |a.names| >= c.meeting.minimum
           && forall name :: name in a.names ==> HasRoom(c, name, hour)
  {
    InvAlways(c, sched, n);
    AnnouncementsAreSound(c, At(c, sched, n));
  }

  lemma AnnouncementsAreSound(c: Setup, s: Sys)
    requires Inv(c, s)
    ensures |s.announced| == (if s.coord.stopped then 1 else 0)
    ensures forall a :: a in s.announced ==>
      var hour := a.slot.start;
      && a.slot == TimeSlot(c.meeting.date, hour, hour + c.meeting.duration) && 8 <= hour
      && NoDuplicates(a.names) && |a.names| >= c.Threshold() && |a.names| >= c.meeting.minimum
      && forall name :: name in a.names ==> HasRoom(c, name, hour)
  {
    if s.coord.stopped {
      var a := s.announced[0];
      assert TallyOk(c, a.slot.start, a.names);
      forall name | name in a.names
        ensures HasRoom(c, name, a.slot.start)
      {
        assert name in c.Attending(a.slot.start);
        AttendingIff(c, a.slot.start, name);
      }
    }
  }

  /** A run that stops has stopped on an hour that enough distinct participants can attend. */
  lemma StopNeedsAttendance(c: Setup, sched: nat -> Event, n: nat)
    requires At(c, sched, n).coord.stopped
    ensures exists t :: 8 <= t && |c.Attending(t)| >= c.Threshold()
    ensures |c.AllNames()| >= c.Threshold()
  {
    InvAlways(c, sched, n);
    var a := At(c, sched, n).announced[0];
    assert TallyOk(c, a.slot.start, a.names);
    DistinctLength(a.names);
    SubsetSize(Elements(a.names), c.Attending(a.slot.start));
    SubsetSize(c.Attending(a.slot.start), c.AllNames());
  }

  /** The scheduler asks for 8, 9, 10, ... without gaps, once at the first connect and once per
      rejection it handles, however stale. */
  lemma SchedulerAsksOneByOne(c: Setup, sched: nat -> Event, n: nat)
    requires c.rule.SchedulerRule?
    ensures var s := At(c, sched, n);
      && (s.asks != [] ==> |s.asks| == s.rejections + 1)
      && forall k :: 0 <= k < |s.asks| ==> s.asks[k].start == 8 + k
  {
    InvAlways(c, sched, n);
  }

  /** Under either rule the hours asked about form a range from 8 without gaps, and from one connect to
      the next they strictly increase, so that none repeats. */
  lemma AsksHaveNoGaps(c: Setup, sched: nat -> Event, n: nat)
    ensures var asks := At(c, sched, n).asks;
      && (forall k, t :: 0 <= k < |asks| && 8 <= t <= asks[k].start ==> AskedBy(asks, k, t))
      && (forall j, k :: 0 <= j < k < |asks| && (forall l :: j < l <= k ==> !asks[l].onConnect) ==>
            asks[j].start < asks[k].start)
      && (forall k :: 0 <= k < |asks| && asks[k].onConnect ==> asks[k].start == 8)
  {
    InvAlways(c, sched, n);
    var asks := At(c, sched, n).asks;
    forall j, k | 0 <= j < k < |asks| && forall l :: j < l <= k ==> !asks[l].onConnect
      ensures asks[j].start < asks[k].start
    {
      RisingBetweenConnects(asks, j, k);
    }
  }

  lemma {:induction false} RisingBetweenConnects(asks: seq<Ask>, j: nat, k: nat)
    requires Rising(asks) && j < k < |asks|
    requires forall l :: j < l <= k ==> !asks[l].onConnect
    ensures asks[j].start < asks[k].start
  {
    assert !asks[k].onConnect;
    if j + 1 < k {
      RisingBetweenConnects(asks, j, k - 1);
    }
  }

  // ----- answers that have been handled -----

  /** A request to participant i about an hour, or its answer, is under way. */
  ghost predicate InFlight(c: Setup, net: multiset<Msg>, i: nat, t: int)
    requires i < |c.parties|
  {
    Request(i, c.Slot(t)) in net || AnswerOf(c, i, t) in net
  }

  ghost function AnswerOf(c: Setup, i: nat, t: int): Msg
    requires i < |c.parties|
  {
    Response(i, c.parties[i].HandleRequest(c.Slot(t)))
  }

  ghost predicate Recorded(c: Setup, coord: Coord, i: nat, t: int)
    requires i < |c.parties|
  {
    c.parties[i].name in coord.Names(c.Key(c.Slot(t)))
  }

  /** The answer of participant i about an hour has taken effect: an acceptance is recorded,
      a rejection has made sure that the next hour was asked about. */
  ghost predicate Settled(c: Setup, s: Sys, i: nat, t: int)
    requires i < |c.parties|
  {
    if c.parties[i].Attends(c.Slot(t)) then Recorded(c, s.coord, i, t) else Asked(s.asks, t + 1)
  }

  ghost predicate TrueAnswer(c: Setup, m: Msg) {
    && m.Response? && m.from < |c.parties|
    && m.answer.slot == c.Slot(m.answer.slot.start)
    && m == AnswerOf(c, m.from, m.answer.slot.start)
  }

  /** Whatever has been heard is true and has taken effect. */
  ghost predicate HeardOk(c: Setup, s: Sys) {
    forall m :: m in s.heard ==> TrueAnswer(c, m) && Settled(c, s, m.from, m.answer.slot.start)
  }

  /** Broadcasts are never forgotten and names are never struck off. */
  lemma AsksGrow(c: Setup, s: Sys, e: Event)
    requires Inv(c, s)
    ensures s.asks <= Apply(c, s, e).asks
    ensures forall k, x :: x in s.coord.Names(k) ==> x in Apply(c, s, e).coord.Names(k)
  {
    if !s.coord.stopped && e.Deliver? && e.m in s.net && e.m.Response? {
      if e.m.answer.available {
        AcceptanceRecorded(c, s.coord, e.m.answer);
      } else {
        AskAfterRejection(c, s, e.m);
        RejectionAdvances(c, s.coord, e.m.answer, Latest(s.asks));
      }
    }
  }

  /** Settled answers stay settled. */
  lemma SettledKept(c: Setup, s: Sys, e: Event, i: nat, t: int)
    requires Inv(c, s) && i < |c.parties| && Settled(c, s, i, t)
    ensures Settled(c, Apply(c, s, e), i, t)
  {
    AsksGrow(c, s, e);
    if !c.parties[i].Attends(c.Slot(t)) {
      AskedLater(s.asks, Apply(c, s, e).asks, t + 1);
    }
  }

  /** Handling an answer records the acceptance, or leaves a proposal later than the rejected one. */
  lemma AnswerTakesEffect(c: Setup, s: Sys, i: nat, t: int)
    requires Inv(c, s) && !s.coord.stopped && i < |c.parties| && AnswerOf(c, i, t) in s.net
    ensures var s' := Answered(c, s, AnswerOf(c, i, t));
      if c.parties[i].Attends(c.Slot(t)) then Recorded(c, s'.coord, i, t)
      else s'.asks != [] && Latest(s'.asks) >= t + 1
  {
    var m := AnswerOf(c, i, t);
    assert Genuine(c, s.asks, m);
    if m.answer.available {
      AcceptanceRecorded(c, s.coord, m.answer);
    } else {
      AskAfterRejection(c, s, m);
      RejectionAdvances(c, s.coord, m.answer, Latest(s.asks));
    }
  }

  /** Handling the answer of a participant settles it. */
  lemma AnswerSettles(c: Setup, s: Sys, i: nat, t: int)
    requires Inv(c, s) && !s.coord.stopped && i < |c.parties| && AnswerOf(c, i, t) in s.net
    ensures Settled(c, Answered(c, s, AnswerOf(c, i, t)), i, t)
  {
    var m := AnswerOf(c, i, t);
    AnswerTakesEffect(c, s, i, t);
    if !m.answer.available {
      var asks' := Answered(c, s, m).asks;
      assert Genuine(c, s.asks, m);
      InvRejection(c, s, m);
      assert AskedBy(asks', |asks'| - 1, t + 1);
    }
  }

  lemma HeardKept(c: Setup, s: Sys, e: Event)
    requires Inv(c, s) && HeardOk(c, s)
    ensures HeardOk(c, Apply(c, s, e))
  {
    var s' := Apply(c, s, e);
    forall m | m in s'.heard
      ensures TrueAnswer(c, m) && Settled(c, s', m.from, m.answer.slot.start)
    {
      if m in s.heard {
        SettledKept(c, s, e, m.from, m.answer.slot.start);
      } else {
        assert Genuine(c, s.asks, m);
        AnswerSettles(c, s, m.from, m.answer.slot.start);
      }
    }
  }

  lemma HeardNext(c: Setup, sched: nat -> Event, n: nat)
    requires HeardOk(c, At(c, sched, n))
    ensures HeardOk(c, At(c, sched, n + 1))
  {
    InvAlways(c, sched, n);
    HeardKept(c, At(c, sched, n), sched(n));
  }

  lemma {:induction false} HeardAlways(c: Setup, sched: nat -> Event, n: nat)
    ensures HeardOk(c, At(c, sched, n))
  {
    if n == 0 {
      HeardInitial(c);
    } else {
      HeardAlways(c, sched, n - 1);
      HeardNext(c, sched, n - 1);
    }
  }

  lemma HeardInitial(c: Setup)
    ensures HeardOk(c, Initial())
  {
  }

  // ----- for runs that lose no message -----

  ghost predicate Lossless(sched: nat -> Event) {
    forall n :: !sched(n).Lose?
  }

  /** The answer of every participant about every hour asked about is under way or has been heard. */
  ghost predicate Tracked(c: Setup, s: Sys) {
    forall i, t :: 0 <= i < |c.parties| && Asked(s.asks, t) ==> InFlight(c, s.net, i, t) || AnswerOf(c, i, t) in s.heard
  }

  /** Participant i is still working on an hour or has accepted it. */
  ghost predicate Working(c: Setup, s: Sys, i: nat, t: int)
    requires i < |c.parties|
  {
    InFlight(c, s.net, i, t) || Recorded(c, s.coord, i, t)
  }

  /** Every participant is still working on the current proposal or has accepted it. */
  ghost predicate CurrentTracked(c: Setup, s: Sys) {
    s.asks != [] ==> forall i :: 0 <= i < |c.parties| ==> Working(c, s, i, Latest(s.asks))
  }

  /** The step handles the answer of participant i about an hour. */
  ghost predicate Handles(c: Setup, s: Sys, e: Event, i: nat, t: int)
    requires i < |c.parties|
  {
    !s.coord.stopped && e == Deliver(AnswerOf(c, i, t)) && AnswerOf(c, i, t) in s.net
  }

  /** A message under way stays so until the answer is handled. */
  lemma FlightKept(c: Setup, s: Sys, e: Event, i: nat, t: int)
    requires !e.Lose? && i < |c.parties| && InFlight(c, s.net, i, t)
    ensures InFlight(c, Apply(c, s, e).net, i, t) || Handles(c, s, e, i, t)
  {
  }

  /** One step keeps track of every participant and every hour asked about. */
  lemma TrackedKept(c: Setup, s: Sys, e: Event)
    requires Inv(c, s) && Tracked(c, s) && !e.Lose?
    ensures Tracked(c, Apply(c, s, e))
  {
    var s' := Apply(c, s, e);
    forall i, t | 0 <= i < |c.parties| && Asked(s'.asks, t)
      ensures InFlight(c, s'.net, i, t) || AnswerOf(c, i, t) in s'.heard
    {
      if !Asked(s.asks, t) {
        NewlyAsked(c, s, e, i, t);
      } else if AnswerOf(c, i, t) in s.heard {
        assert s.heard <= s'.heard;
      } else {
        FlightKept(c, s, e, i, t);
      }
    }
  }

  /** When an hour is asked about for the first time, everyone is asked. */
  lemma NewlyAsked(c: Setup, s: Sys, e: Event, i: nat, t: int)
    requires Inv(c, s) && i < |c.parties|
    requires !Asked(s.asks, t) && Asked(Apply(c, s, e).asks, t)
    ensures Request(i, c.Slot(t)) in Apply(c, s, e).net
  {
    AddsOneAsk(c, s, e);
    LatestIsNew(s.asks, Apply(c, s, e).asks, t);
    EveryoneAskedAgain(c, s, e, i);
  }

  lemma LatestIsNew(asks: seq<Ask>, asks': seq<Ask>, t: int)
    requires asks' == asks || (asks' != [] && asks'[..|asks'| - 1] == asks)
    requires !Asked(asks, t) && Asked(asks', t)
    ensures asks' != [] && Latest(asks') == t
  {
  }

  lemma AddsOneAsk(c: Setup, s: Sys, e: Event)
    requires Inv(c, s)
    ensures var asks' := Apply(c, s, e).asks;
      asks' == s.asks || (asks' != [] && asks'[..|asks'| - 1] == s.asks)
  {
  }

  /** Whatever is asked about is the new proposal, and everyone is asked. */
  lemma EveryoneAsked(c: Setup, net: multiset<Msg>, asks: seq<Ask>, t: int, onConnect: bool, i: nat)
    requires i < |c.parties|
    ensures Latest(asks + Logged(Some(c.Slot(t)), onConnect)) == t
    ensures Request(i, c.Slot(t)) in net + Sent(c, Some(c.Slot(t)))
  {
  }

  /** When the coordinator proposes again, everyone is asked about the new proposal. */
  lemma EveryoneAskedAgain(c: Setup, s: Sys, e: Event, i: nat)
    requires Inv(c, s) && Apply(c, s, e).asks != s.asks && i < |c.parties|
    ensures var s' := Apply(c, s, e);
      s'.asks != [] && Request(i, c.Slot(Latest(s'.asks))) in s'.net
  {
    if e.Connect? {
      EveryoneAsked(c, s.net, s.asks, FIRST_HOUR, true, i);
    } else if e.m.answer.available {
      AcceptanceRecorded(c, s.coord, e.m.answer);
      assert false;
    } else {
      AskAfterRejection(c, s, e.m);
      EveryoneAsked(c, s.net - multiset{e.m}, s.asks, c.OnAnswer(s.coord, e.m.answer).asked.value.start, false, i);
    }
  }

  lemma CurrentTrackedKept(c: Setup, s: Sys, e: Event)
    requires Inv(c, s) && CurrentTracked(c, s) && !e.Lose?
    ensures CurrentTracked(c, Apply(c, s, e))
  {
    var s' := Apply(c, s, e);
    if s'.asks != [] {
      forall i | 0 <= i < |c.parties|
        ensures Working(c, s', i, Latest(s'.asks))
      {
        if s'.asks == s.asks {
          CurrentKept(c, s, e, i);
        } else {
          EveryoneAskedAgain(c, s, e, i);
        }
      }
    }
  }

  /** A rejection of the current proposal would move it. */
  lemma CurrentRejectionMoves(c: Setup, s: Sys, i: nat)
    requires Inv(c, s) && s.asks != [] && !s.coord.stopped && i < |c.parties|
    requires !c.parties[i].Attends(c.Slot(Latest(s.asks)))
    ensures Answered(c, s, AnswerOf(c, i, Latest(s.asks))).asks != s.asks
  {
  }

  /** While the proposal stands, its pending requests and answers stay under way until accepted. */
  lemma CurrentKept(c: Setup, s: Sys, e: Event, i: nat)
    requires Inv(c, s) && CurrentTracked(c, s) && !e.Lose? && i < |c.parties|
    requires s.asks != [] && Apply(c, s, e).asks == s.asks
    ensures Working(c, Apply(c, s, e), i, Latest(s.asks))
  {
    var cur := Latest(s.asks);
    assert Working(c, s, i, cur);
    AsksGrow(c, s, e);
    if !Recorded(c, s.coord, i, cur) {
      FlightKept(c, s, e, i, cur);
      if Handles(c, s, e, i, cur) {
        AnswerTakesEffect(c, s, i, cur);
        if !c.parties[i].Attends(c.Slot(cur)) {
          CurrentRejectionMoves(c, s, i);
        }
      }
    }
  }

  lemma TrackedInitial(c: Setup)
    ensures Tracked(c, Initial()) && CurrentTracked(c, Initial())
  {
  }

  lemma TrackedNext(c: Setup, sched: nat -> Event, n: nat)
    requires Tracked(c, At(c, sched, n)) && !sched(n).Lose?
    ensures Tracked(c, At(c, sched, n + 1))
  {
    InvAlways(c, sched, n);
    TrackedKept(c, At(c, sched, n), sched(n));
  }

  lemma CurrentTrackedNext(c: Setup, sched: nat -> Event, n: nat)
    requires CurrentTracked(c, At(c, sched, n)) && !sched(n).Lose?
    ensures CurrentTracked(c, At(c, sched, n + 1))
  {
    InvAlways(c, sched, n);
    CurrentTrackedKept(c, At(c, sched, n), sched(n));
  }

  lemma {:induction false} TracksKept(c: Setup, sched: nat -> Event, n: nat)
    requires Lossless(sched)
    ensures Tracked(c, At(c, sched, n)) && CurrentTracked(c, At(c, sched, n))
  {
    if n == 0 {
      TrackedInitial(c);
    } else {
      TracksKept(c, sched, n - 1);
      TrackedNext(c, sched, n - 1);
      CurrentTrackedNext(c, sched, n - 1);
    }
  }

  /** In runs that lose nothing, every answer to any hour asked about is under way, or it has been heard
      and has taken effect; and each participant is working on the current proposal or has accepted it. */
  lemma TrackedAlways(c: Setup, sched: nat -> Event, n: nat)
    requires Lossless(sched)
    ensures Inv(c, At(c, sched, n)) && HeardOk(c, At(c, sched, n))
    ensures Tracked(c, At(c, sched, n)) && CurrentTracked(c, At(c, sched, n))
  {
    InvAlways(c, sched, n);
    HeardAlways(c, sched, n);
    TracksKept(c, sched, n);
  }

  // ----- deadlock freedom -----

  lemma CurrentUnderWay(c: Setup, s: Sys) returns (i: nat)
    requires Inv(c, s) && CurrentTracked(c, s)
    requires |c.AllNames()| >= c.Threshold()
    requires s.asks != [] && !s.coord.stopped
    ensures i < |c.parties| && InFlight(c, s.net, i, Latest(s.asks))
  {
    var cur := Latest(s.asks);
    var names := s.coord.Names(c.Key(c.Slot(cur)));
    TallyShort(c, s, cur);
    if forall j :: 0 <= j < |c.parties| ==> !InFlight(c, s.net, j, cur) {
      forall j | 0 <= j < |c.parties|
        ensures c.parties[j].name in names
      {
        assert Working(c, s, j, cur);
      }
      SubsetSize(c.AllNames(), Elements(names));
    }
    i :| 0 <= i < |c.parties| && InFlight(c, s.net, i, cur);
  }

  /** Unless it has stopped, a started negotiation with enough distinct names always has a request or
      an answer about the current proposal under way: it cannot get stuck. */
  lemma NeverStuck(c: Setup, sched: nat -> Event, n: nat)
    requires Lossless(sched)
    requires |c.AllNames()| >= c.Threshold()
    requires At(c, sched, n).asks != [] && !At(c, sched, n).coord.stopped
    ensures var s := At(c, sched, n);
      var cur := Latest(s.asks);
      exists i :: 0 <= i < |c.parties| && InFlight(c, s.net, i, cur)
  {
    TrackedAlways(c, sched, n);
    var i := CurrentUnderWay(c, At(c, sched, n));
  }

  /** While the coordinator runs, no tally has reached the threshold. */
  lemma TallyShort(c: Setup, s: Sys, t: int)
    requires Inv(c, s)
    requires !s.coord.stopped || c.Key(s.announced[0].slot) != c.Key(c.Slot(t))
    ensures |Elements(s.coord.Names(c.Key(c.Slot(t))))| < c.Threshold()
  {
    var key := c.Key(c.Slot(t));
    if key in s.coord.agreed {
      assert TallyOk(c, t, s.coord.agreed[key]);
      DistinctLength(s.coord.agreed[key]);
    }
  }
}
