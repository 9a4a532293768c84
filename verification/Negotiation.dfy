/** The meeting negotiation as a whole: one coordinator, any number of participants, and a
    network that delivers messages in any order. Every delivery is one step; after the
    coordinator has stopped no handler runs. */
module Negotiation {
  import opened Common
  import opened TimeSlots
  import opened Coordinators

  datatype Rule = SchedulerRule | CoordinatorRule

  datatype Setup = Setup(rule: Rule, meeting: Meeting, parties: seq<Participant>) {

    function Slot(start: int): TimeSlot {
      SlotAt(meeting, start)
    }

    function Key(slot: TimeSlot): SlotKey {
      match rule
      case SchedulerRule => ByStart(slot.date, slot.start)
      case CoordinatorRule => BySlot(slot)
    }

    /** How many names a slot needs: the coordinator never closes on the first acceptance. */
    function Threshold(): int {
      Max(if rule.SchedulerRule? then 1 else 2, meeting.minimum)
    }

    /** The names of the participants that can attend the slot starting at a given hour. */
    ghost function Attending(start: int): set<string> {
      set i | 0 <= i < |parties| && parties[i].Attends(Slot(start)) :: parties[i].name
    }

    ghost function AllNames(): set<string> {
      set i | 0 <= i < |parties| :: parties[i].name
    }

    function OnConnect(st: Coord): Reaction {
      match rule
      case SchedulerRule => SchedulerOnConnect(meeting, st)
      case CoordinatorRule => CoordinatorOnConnect(meeting, st)
    }

    function OnAnswer(st: Coord, a: Answer): Reaction {
      match rule
      case SchedulerRule => SchedulerOnAnswer(meeting, st, a)
      case CoordinatorRule => CoordinatorOnAnswer(meeting, st, a)
    }
  }

  datatype Msg = Request(to: nat, wanted: TimeSlot) | Response(from: nat, answer: Answer) {
    function Slot(): TimeSlot {
      match this
      case Request(_, s) => s
      case Response(_, a) => a.slot
    }
  }

  /** One broadcast request of the coordinator. */
  datatype Ask = Ask(start: int, onConnect: bool)

  /** The coordinator's state, the messages in flight, and what has happened so far: the broadcasts
      made, the number of rejections handled, the meetings announced and the answers handled. */
  datatype Sys = Sys(
    coord: Coord, net: multiset<Msg>, asks: seq<Ask>, rejections: nat, announced: seq<Announcement>, heard: seq<Msg>)

  datatype Event = Connect | Deliver(m: Msg) | Lose(m: Msg) | Idle

  function Initial(): Sys {
    Sys(IDLE, multiset{}, [], 0, [], [])
  }

  /** A broadcast puts one request to each participant in flight. */
  function Broadcast(n: nat, slot: TimeSlot): (b: multiset<Msg>)
    ensures forall m {:trigger b[m]} :: b[m] == if m.Request? && m.to < n && m.wanted == slot then 1 else 0
  {
    if n == 0 then multiset{} else Broadcast(n - 1, slot) + multiset{Request(n - 1, slot)}
  }

  function Sent(c: Setup, asked: Option<TimeSlot>): multiset<Msg> {
    match asked
    case None => multiset{}
    case Some(slot) => Broadcast(|c.parties|, slot)
  }

  function Logged(asked: Option<TimeSlot>, onConnect: bool): seq<Ask> {
    match asked
    case None => []
    case Some(slot) => [Ask(slot.start, onConnect)]
  }

  function Listed(announced: Option<Announcement>): seq<Announcement> {
    match announced
    case None => []
    case Some(a) => [a]
  }

  function Connected(c: Setup, s: Sys): Sys {
    var r := c.OnConnect(s.coord);
    s.(coord := r.coord, net := s.net + Sent(c, r.asked), asks := s.asks + Logged(r.asked, true))
  }

  function Requested(c: Setup, s: Sys, m: Msg): Sys
    requires m.Request?
  {
    if m.to < |c.parties| then
      s.(net := s.net - multiset{m} + multiset{Response(m.to, c.parties[m.to].HandleRequest(m.wanted))})
    else s
  }

  function Answered(c: Setup, s: Sys, m: Msg): Sys
    requires m.Response?
  {
    var r := c.OnAnswer(s.coord, m.answer);
    Sys(r.coord,
        s.net - multiset{m} + Sent(c, r.asked),
        s.asks + Logged(r.asked, false),
        if m.answer.available then s.rejections else s.rejections + 1,
        s.announced + Listed(r.announced),
        s.heard + [m])
  }

  function Apply(c: Setup, s: Sys, e: Event): Sys {
    if s.coord.stopped then s
    else match e
      case Connect => Connected(c, s)
      case Deliver(m) =>
        if m !in s.net then s
        else if m.Request? then Requested(c, s, m)
        else Answered(c, s, m)
      case Lose(m) => s.(net := s.net - multiset{m})
      case Idle => s
  }

  /** The state after n steps of a schedule. Every finite run is a prefix of one. */
  ghost function At(c: Setup, sched: nat -> Event, n: nat): Sys {
    if n == 0 then Initial() else Apply(c, At(c, sched, n - 1), sched(n - 1))
  }

  /** An infinite run, state by state. */
  ghost predicate IsRun(c: Setup, sched: nat -> Event, run: nat -> Sys) {
    forall n: nat :: RunAt(c, sched, run, n)
  }

  ghost predicate RunAt(c: Setup, sched: nat -> Event, run: nat -> Sys, n: nat) {
    run(n) == At(c, sched, n)
  }

  /** The step from run(n) to run(n + 1). */
  ghost predicate RunStep(c: Setup, sched: nat -> Event, run: nat -> Sys, n: nat) {
    run(n + 1) == Apply(c, run(n), sched(n))
  }

  lemma RunSteps(c: Setup, sched: nat -> Event, run: nat -> Sys, n: nat)
    requires IsRun(c, sched, run)
    ensures RunStep(c, sched, run, n)
  {
    assert RunAt(c, sched, run, n) && RunAt(c, sched, run, n + 1);
  }

  // ----- invariants of every run, messages lost or not -----

  /** One of the first k + 1 broadcasts asked about the hour. */
  ghost predicate AskedBy(asks: seq<Ask>, k: int, start: int) {
    exists j :: 0 <= j <= k < |asks| && asks[j].start == start
  }

  ghost predicate Asked(asks: seq<Ask>, start: int) {
    AskedBy(asks, |asks| - 1, start)
  }

  /** A message in flight concerns a slot that was asked about and carries a true answer. */
  ghost predicate Genuine(c: Setup, asks: seq<Ask>, m: Msg) {
    && m.Slot() == c.Slot(m.Slot().start)
    && Asked(asks, m.Slot().start)
    && match m
       case Request(to, _) => to < |c.parties|
       case Response(from, a) => from < |c.parties| && a == c.parties[from].HandleRequest(a.slot)
  }

  ghost predicate NetOk(c: Setup, net: multiset<Msg>, asks: seq<Ask>) {
    forall m :: m in net ==> Genuine(c, asks, m)
  }

  /** A tally lists, without repetition, participants that can attend the slot. */
  ghost predicate TallyOk(c: Setup, start: int, names: seq<string>) {
    NoDuplicates(names) && 1 <= |names| && Elements(names) <= c.Attending(start)
  }

  ghost function Start(key: SlotKey): int {
    match key
    case ByStart(_, start) => start
    case BySlot(slot) => slot.start
  }

  ghost predicate TalliesOk(c: Setup, agreed: map<SlotKey, seq<string>>, stopped: bool) {
    forall k :: k in agreed ==>
      && k == c.Key(c.Slot(Start(k)))
      && TallyOk(c, Start(k), agreed[k])
      && (!stopped ==> |agreed[k]| < c.Threshold())
  }

  /** The announced meeting is a tally that reached the threshold. */
  ghost predicate AnnouncementOk(c: Setup, agreed: map<SlotKey, seq<string>>, asks: seq<Ask>, a: Announcement) {
    && a.slot == c.Slot(a.slot.start)
    && Asked(asks, a.slot.start)
    && c.Key(a.slot) in agreed
    && a.names == agreed[c.Key(a.slot)]
    && |a.names| >= c.Threshold()
  }

  /** No other tally has reached the threshold. */
  ghost predicate OthersOpen(c: Setup, agreed: map<SlotKey, seq<string>>, closed: SlotKey) {
    forall k :: k in agreed && k != closed ==> |agreed[k]| < c.Threshold()
  }

  ghost predicate ClosedOk(c: Setup, coord: Coord, asks: seq<Ask>, announced: seq<Announcement>) {
    if coord.stopped then
      && |announced| == 1
      && AnnouncementOk(c, coord.agreed, asks, announced[0])
      && OthersOpen(c, coord.agreed, c.Key(announced[0].slot))
    else announced == []
  }

  /** The broadcasts: each starts at 8 or later, and every hour from 8 up to it was asked before. */
  ghost predicate GapFree(asks: seq<Ask>) {
    forall k, t :: 0 <= k < |asks| && FIRST_HOUR <= t <= asks[k].start ==> AskedBy(asks, k, t)
  }

  /** A connect asks for hour 8 again; between connects every broadcast is later than the one before. */
  ghost predicate Rising(asks: seq<Ask>) {
    && (forall k :: 0 <= k < |asks| ==>
          && FIRST_HOUR <= asks[k].start
          && (if asks[k].onConnect then asks[k].start == FIRST_HOUR else k > 0))
    && (forall j, k :: 0 <= j < k < |asks| && k == j + 1 && !asks[k].onConnect ==> asks[j].start < asks[k].start)
  }

  /** The hour asked about last. */
  function Latest(asks: seq<Ask>): int
    requires asks != []
  {
    asks[|asks| - 1].start
  }

  ghost predicate CurrentOk(c: Setup, current: Option<TimeSlot>, asks: seq<Ask>, rejections: nat) {
    if asks == [] then current.None? && rejections == 0
    else current == Some(c.Slot(Latest(asks)))
  }

  /** The scheduler asks for 8, 9, 10, ... : once at the first connect and once per rejection. */
  ghost predicate OneByOne(asks: seq<Ask>, rejections: nat) {
    && (asks != [] ==> |asks| == rejections + 1)
    && forall k :: 0 <= k < |asks| ==> asks[k] == Ask(FIRST_HOUR + k, k == 0)
  }

  /** Everything about the broadcasts. */
  ghost predicate AsksOk(c: Setup, current: Option<TimeSlot>, asks: seq<Ask>, rejections: nat) {
    && GapFree(asks)
    && Rising(asks)
    && CurrentOk(c, current, asks, rejections)
    && (c.rule.SchedulerRule? ==> OneByOne(asks, rejections))
  }

  ghost predicate Inv(c: Setup, s: Sys) {
    && NetOk(c, s.net, s.asks)
    && TalliesOk(c, s.coord.agreed, s.coord.stopped)
    && ClosedOk(c, s.coord, s.asks, s.announced)
    && AsksOk(c, s.coord.current, s.asks, s.rejections)
  }

  // ----- the effect of one answer -----

  /** What both rules do with an acceptance: the name is recorded once for that slot, the other tallies
      and the proposal stay, and nobody is asked. */
  lemma AcceptanceRecorded(c: Setup, st: Coord, a: Answer)
    requires a.available
    ensures var r := c.OnAnswer(st, a);
      var key := c.Key(a.slot);
      && r.coord.current == st.current && r.asked == None
      && r.coord.agreed == st.agreed[key := r.coord.Names(key)]
      && r.coord.Names(key) ==
           (if a.participant in st.Names(key) then st.Names(key) else st.Names(key) + [a.participant])
  {
    var r := c.OnAnswer(st, a);
    var key := c.Key(a.slot);
    assert key in st.agreed ==> st.agreed[key := st.agreed[key]] == st.agreed;
  }

  /** What both rules do with a rejection: the tallies stay, and the proposal may advance. */
  lemma RejectionAdvances(c: Setup, st: Coord, a: Answer, cur: int)
    requires !a.available && st.current == Some(c.Slot(cur))
    ensures var r := c.OnAnswer(st, a);
      var next := if c.rule.SchedulerRule? then cur + 1 else a.slot.start + 1;
      && r.coord.agreed == st.agreed && r.coord.stopped == st.stopped && r.announced == None
      && r.asked == (if next > cur then Some(c.Slot(next)) else None)
      && r.coord.current == Some(c.Slot(Max(cur, next)))
  {
  }

  // ----- the tallies -----

  /** An acceptance stops a running coordinator exactly when its tally is then large enough. */
  ghost predicate ClosesWhenDue(c: Setup, st: Coord, a: Answer) {
    var r := c.OnAnswer(st, a);
    var names := r.coord.Names(c.Key(a.slot));
    && (r.coord.stopped <==> |names| >= c.Threshold())
    && r.announced == if r.coord.stopped then Some(Announcement(a.slot, names)) else None
  }

  lemma SchedulerCloses(c: Setup, st: Coord, a: Answer)
    requires c.rule.SchedulerRule? && a.available && !st.stopped
    requires c.Key(a.slot) in st.agreed ==> |st.Names(c.Key(a.slot))| >= 1
    ensures ClosesWhenDue(c, st, a)
  {
  }

  lemma CoordinatorCloses(c: Setup, st: Coord, a: Answer)
    requires c.rule.CoordinatorRule? && a.available && !st.stopped
    requires |st.Names(c.Key(a.slot))| < c.Threshold()
    requires c.Key(a.slot) in st.agreed ==> |st.Names(c.Key(a.slot))| >= 1
    ensures ClosesWhenDue(c, st, a)
  {
  }

  /** One more participant that can attend. */
  lemma TallyGrows(c: Setup, start: int, names: seq<string>, name: string)
    requires names == [] || TallyOk(c, start, names)
    requires name in c.Attending(start)
    ensures TallyOk(c, start, if name in names then names else names + [name])
  {
  }

  /** Replacing one tally. */
  lemma TallyReplaced(c: Setup, agreed: map<SlotKey, seq<string>>, start: int, names: seq<string>, stopped: bool)
    requires TalliesOk(c, agreed, false) && TallyOk(c, start, names)
    requires !stopped ==> |names| < c.Threshold()
    ensures var agreed' := agreed[c.Key(c.Slot(start)) := names];
      TalliesOk(c, agreed', stopped) && OthersOpen(c, agreed', c.Key(c.Slot(start)))
  {
  }

  /** Recording an acceptance keeps the tallies honest and closes the meeting exactly when due. */
  lemma AcceptanceTallied(c: Setup, st: Coord, a: Answer, i: nat)
    requires TalliesOk(c, st.agreed, false) && !st.stopped
    requires i < |c.parties| && a == c.parties[i].HandleRequest(a.slot)
    requires a.slot == c.Slot(a.slot.start) && a.available
    ensures var r := c.OnAnswer(st, a);
      && TalliesOk(c, r.coord.agreed, r.coord.stopped)
      && (r.coord.stopped <==> |r.coord.Names(c.Key(a.slot))| >= c.Threshold())
      && (r.coord.stopped <==> r.announced.Some?)
      && (r.announced.Some? ==>
            && r.announced.value == Announcement(a.slot, r.coord.Names(c.Key(a.slot)))
            && c.Key(a.slot) in r.coord.agreed
            && |r.announced.value.names| >= c.Threshold()
            && OthersOpen(c, r.coord.agreed, c.Key(a.slot)))
  {
    var key, start := c.Key(a.slot), a.slot.start;
    var names := st.Names(key);
    assert names == [] || (TallyOk(c, start, names) && |names| < c.Threshold()) by {
      assert Start(key) == start;
    }
    if c.rule.SchedulerRule? {
      SchedulerCloses(c, st, a);
    } else {
      CoordinatorCloses(c, st, a);
    }
    AcceptanceRecorded(c, st, a);
    assert a.participant in c.Attending(start);
    TallyGrows(c, start, names, a.participant);
    var r := c.OnAnswer(st, a);
    TallyReplaced(c, st.agreed, start, r.coord.Names(key), r.coord.stopped);
  }

  // ----- preservation -----

  lemma AskedKept(asks: seq<Ask>, more: seq<Ask>, k: int, t: int)
    requires AskedBy(asks, k, t)
    ensures AskedBy(asks + more, k, t) && Asked(asks + more, t)
  {
    var j :| 0 <= j <= k < |asks| && asks[j].start == t;
    assert (asks + more)[j].start == t;
  }

  /** What was asked about stays so. */
  lemma AskedLater(asks: seq<Ask>, asks': seq<Ask>, t: int)
    requires asks <= asks' && Asked(asks, t)
    ensures Asked(asks', t)
  {
  }

  /** Broadcasting one more slot keeps the shape of the broadcasts. */
  lemma ShapeKept(asks: seq<Ask>, a: Ask)
    requires GapFree(asks) && Rising(asks)
    requires FIRST_HOUR <= a.start
    requires a.onConnect ==> a.start == FIRST_HOUR
    requires !a.onConnect ==> asks != [] && Latest(asks) < a.start && Asked(asks, a.start - 1)
    ensures GapFree(asks + [a]) && Rising(asks + [a]) && Asked(asks + [a], a.start)
  {
    var asks' := asks + [a];
    assert asks'[|asks|].start == a.start;
    forall k, t | 0 <= k < |asks'| && FIRST_HOUR <= t <= asks'[k].start
      ensures AskedBy(asks', k, t)
    {
      if k < |asks| {
        AskedKept(asks, [a], k, t);
      } else if t < a.start {
        var p :| 0 <= p < |asks| && asks[p].start == a.start - 1;
        assert AskedBy(asks, p, t);
        AskedKept(asks, [a], p, t);
      }
    }
  }

  lemma NetKept(
    c: Setup, net: multiset<Msg>, asks: seq<Ask>, net': multiset<Msg>, asks': seq<Ask>, added: multiset<Msg>)
    requires NetOk(c, net, asks) && asks <= asks'
    requires forall m :: m in net' ==> m in net || m in added
    requires forall m :: m in added ==> Genuine(c, asks', m)
    ensures NetOk(c, net', asks')
  {
  }

  /** A broadcast about an hour that has been entered in the log. */
  lemma SentIsGenuine(c: Setup, asks: seq<Ask>, t: int, m: Msg)
    requires Asked(asks, t) && m in Broadcast(|c.parties|, c.Slot(t))
    ensures Genuine(c, asks, m)
  {
  }

  /** Asking everyone about an hour keeps what is known about the messages. */
  lemma NetAfterAsk(c: Setup, net: multiset<Msg>, asks: seq<Ask>, rest: multiset<Msg>, a: Ask)
    requires NetOk(c, net, asks) && rest <= net
    ensures NetOk(c, rest + Broadcast(|c.parties|, c.Slot(a.start)), asks + [a])
  {
    var asks' := asks + [a];
    assert AskedBy(asks', |asks|, a.start) by {
      assert asks'[|asks|].start == a.start;
    }
    var added := Broadcast(|c.parties|, c.Slot(a.start));
    forall m | m in added
      ensures Genuine(c, asks', m)
    {
      SentIsGenuine(c, asks', a.start, m);
    }
    NetKept(c, net, asks, rest + added, asks', added);
  }

  lemma InvInitial(c: Setup)
    ensures Inv(c, Initial())
  {
  }

  /** The shape of the broadcasts after a connect. */
  lemma ConnectShape(c: Setup, s: Sys)
    requires AsksOk(c, s.coord.current, s.asks, s.rejections)
    ensures var s' := Connected(c, s); AsksOk(c, s'.coord.current, s'.asks, s'.rejections)
  {
    if c.OnConnect(s.coord).asked.Some? {
      ShapeKept(s.asks, Ask(FIRST_HOUR, true));
    } else {
      assert Connected(c, s) == s;
    }
  }

  lemma InvConnect(c: Setup, s: Sys)
    requires Inv(c, s) && !s.coord.stopped
    ensures Inv(c, Connected(c, s))
  {
    var s' := Connected(c, s);
    ConnectShape(c, s);
    if c.OnConnect(s.coord).asked.Some? {
      NetAfterAsk(c, s.net, s.asks, s.net, Ask(FIRST_HOUR, true));
    } else {
      assert s' == s;
    }
  }

  lemma InvRequest(c: Setup, s: Sys, m: Msg)
    requires Inv(c, s) && m in s.net && m.Request?
    ensures Inv(c, Requested(c, s, m))
  {
  }

  lemma InvAcceptance(c: Setup, s: Sys, m: Msg)
    requires Inv(c, s) && !s.coord.stopped && m in s.net && m.Response? && m.answer.available
    ensures Inv(c, Answered(c, s, m))
  {
    var s' := Answered(c, s, m);
    assert Genuine(c, s.asks, m);
    AcceptanceRecorded(c, s.coord, m.answer);
    AcceptanceTallied(c, s.coord, m.answer, m.from);
    assert s'.asks == s.asks && s'.rejections == s.rejections;
    NetKept(c, s.net, s.asks, s'.net, s.asks, multiset{});
  }

  /** The hour asked about after a rejection follows one that was asked about before. */
  lemma AskAfterRejection(c: Setup, s: Sys, m: Msg)
    requires Inv(c, s) && m in s.net && m.Response? && !m.answer.available
    ensures s.asks != []
    ensures var cur := Latest(s.asks);
      var r := c.OnAnswer(s.coord, m.answer);
      && s.coord.current == Some(c.Slot(cur))
      && (r.asked.Some? ==>
            && r.asked.value == c.Slot(r.asked.value.start) && r.coord.current == r.asked
            && cur < r.asked.value.start && Asked(s.asks, r.asked.value.start - 1)
            && (c.rule.SchedulerRule? ==> r.asked.value.start == cur + 1))
      && (r.asked.None? ==> c.rule.CoordinatorRule? && r.coord.current == s.coord.current)
  {
  }

  /** A rejection leaves well-shaped broadcasts, ending with the current proposal. */
  lemma RejectionShape(c: Setup, s: Sys, m: Msg)
    requires Inv(c, s) && m in s.net && m.Response? && !m.answer.available
    ensures var s' := Answered(c, s, m); AsksOk(c, s'.coord.current, s'.asks, s'.rejections)
  {
    AskAfterRejection(c, s, m);
    var r := c.OnAnswer(s.coord, m.answer);
    if r.asked.Some? {
      ShapeKept(s.asks, Ask(r.asked.value.start, false));
    } else {
      assert Answered(c, s, m).asks == s.asks;
    }
  }

  lemma RejectionNet(c: Setup, s: Sys, m: Msg)
    requires Inv(c, s) && m in s.net && m.Response? && !m.answer.available
    ensures var s' := Answered(c, s, m); NetOk(c, s'.net, s'.asks)
  {
    var s' := Answered(c, s, m);
    AskAfterRejection(c, s, m);
    var r := c.OnAnswer(s.coord, m.answer);
    if r.asked.Some? {
      NetAfterAsk(c, s.net, s.asks, s.net - multiset{m}, Ask(r.asked.value.start, false));
    } else {
      assert s'.asks == s.asks;
      NetKept(c, s.net, s.asks, s'.net, s.asks, multiset{});
    }
  }

  lemma InvRejection(c: Setup, s: Sys, m: Msg)
    requires Inv(c, s) && !s.coord.stopped && m in s.net && m.Response? && !m.answer.available
    ensures Inv(c, Answered(c, s, m))
  {
    RejectionShape(c, s, m);
    RejectionNet(c, s, m);
    AskAfterRejection(c, s, m);
    RejectionAdvances(c, s.coord, m.answer, Latest(s.asks));
  }

  lemma InvDelivered(c: Setup, s: Sys, m: Msg)
    requires Inv(c, s) && !s.coord.stopped && m in s.net
    ensures Inv(c, Apply(c, s, Deliver(m)))
  {
    if m.Request? {
      InvRequest(c, s, m);
    } else if m.answer.available {
      InvAcceptance(c, s, m);
    } else {
      InvRejection(c, s, m);
    }
  }

  lemma InvLost(c: Setup, s: Sys, m: Msg)
    requires Inv(c, s)
    ensures Inv(c, s.(net := s.net - multiset{m}))
  {
  }

  lemma InvKept(c: Setup, s: Sys, e: Event)
    requires Inv(c, s)
    ensures Inv(c, Apply(c, s, e))
  {
    if !s.coord.stopped {
      match e
      case Connect => InvConnect(c, s);
      case Deliver(m) =>
        if m in s.net {
          InvDelivered(c, s, m);
        }
      case Lose(m) => InvLost(c, s, m);
      case Idle =>
    }
  }

  lemma {:induction false} InvAlways(c: Setup, sched: nat -> Event, n: nat)
    ensures Inv(c, At(c, sched, n))
  {
    if n == 0 {
      InvInitial(c);
    } else {
      InvAlways(c, sched, n - 1);
      InvKept(c, At(c, sched, n - 1), sched(n - 1));
    }
  }

  lemma RunInv(c: Setup, sched: nat -> Event, run: nat -> Sys, n: nat)
    requires IsRun(c, sched, run)
    ensures Inv(c, run(n))
  {
    assert RunAt(c, sched, run, n);
    InvAlways(c, sched, n);
  }
}
