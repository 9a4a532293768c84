/** How much delivery work the scheduler can need: an exact account of the deliveries about the
    hours up to a given one, for every delivery order. */
module SchedulerBudget {
  import opened Common
  import opened Coordinators
  import opened Negotiation
  import opened NegotiationSafety
  import opened NegotiationEarliest

  /** The deliveries that the messages to and from participant i about hour t still stand for. */
  ghost function Cell(c: Setup, net: multiset<Msg>, i: nat, t: int): nat
    requires i < |c.parties|
  {
    2 * net[Request(i, c.Slot(t))] + net[Response(i, c.parties[i].HandleRequest(c.Slot(t)))]
  }

  ghost function Row(c: Setup, net: multiset<Msg>, t: int, n: nat): nat
    requires n <= |c.parties|
  {
    if n == 0 then 0 else Row(c, net, t, n - 1) + Cell(c, net, n - 1, t)
  }

  /** The same for all participants and the hours from 8 to h. */
  ghost function Grid(c: Setup, net: multiset<Msg>, h: int): nat
    decreases h
  {
    if h < FIRST_HOUR then 0 else Grid(c, net, h - 1) + Row(c, net, h, |c.parties|)
  }

  /** How many of the hours from 8 to h have not been asked about yet. */
  ghost function Unasked(s: Sys, h: int): nat {
    var next := FIRST_HOUR + |s.asks|;
    if next <= h then h + 1 - next else 0
  }

  /** The deliveries about hours up to h that are still to come: two per participant and hour not asked
      about yet, and those of the messages under way. */
  ghost function Work(c: Setup, s: Sys, h: int): nat {
    2 * |c.parties| * Unasked(s, h) + Grid(c, s.net, h)
  }

  ghost predicate Delivers(s: Sys, e: Event, h: int) {
    !s.coord.stopped && e.Deliver? && e.m in s.net && e.m.Slot().start <= h
  }

  /** The deliveries about hours up to h in the first n steps. */
  ghost function Delivered(c: Setup, sched: nat -> Event, n: nat, h: int): nat {
    if n == 0 then 0
    else Delivered(c, sched, n - 1, h) + if Delivers(At(c, sched, n - 1), sched(n - 1), h) then 1 else 0
  }

  // ----- sums -----

  lemma {:induction false} RowMoves(c: Setup, net: multiset<Msg>, net': multiset<Msg>, t: int, n: nat, i: nat, d: int)
    requires n <= |c.parties| && i < |c.parties|
    requires forall j :: 0 <= j < |c.parties| ==> Cell(c, net', j, t) == Cell(c, net, j, t) + if j == i then d else 0
    ensures Row(c, net', t, n) == Row(c, net, t, n) + if i < n then d else 0
  {
    if n > 0 {
      RowMoves(c, net, net', t, n - 1, i, d);
    }
  }

  lemma {:induction false} RowShifts(c: Setup, net: multiset<Msg>, net': multiset<Msg>, t: int, n: nat, d: int)
    requires n <= |c.parties|
    requires forall j :: 0 <= j < |c.parties| ==> Cell(c, net', j, t) == Cell(c, net, j, t) + d
    ensures Row(c, net', t, n) == Row(c, net, t, n) + n * d
  {
    if n > 0 {
      RowShifts(c, net, net', t, n - 1, d);
      assert n * d == (n - 1) * d + d;
    }
  }

  /** If only the row of hour u changes, the grid changes by as much, provided it contains that hour. */
  lemma {:induction false} GridMoves(c: Setup, net: multiset<Msg>, net': multiset<Msg>, h: int, u: int, d: int)
    requires forall t :: t != u ==> Row(c, net', t, |c.parties|) == Row(c, net, t, |c.parties|)
    requires Row(c, net', u, |c.parties|) == Row(c, net, u, |c.parties|) + d
    ensures Grid(c, net', h) == Grid(c, net, h) + if FIRST_HOUR <= u <= h then d else 0
    decreases h
  {
    if h >= FIRST_HOUR {
      GridMoves(c, net, net', h - 1, u, d);
    }
  }

  ghost function Party(m: Msg): nat {
    if m.Request? then m.to else m.from
  }

  /** What takes the place of a delivered message: the answer to a request, nothing after an answer. */
  ghost function Successor(c: Setup, m: Msg): multiset<Msg> {
    if m.Request? && m.to < |c.parties| then multiset{Response(m.to, c.parties[m.to].HandleRequest(m.wanted))}
    else multiset{}
  }

  lemma CellDelivered(c: Setup, net: multiset<Msg>, asks: seq<Ask>, m: Msg, j: nat, t: int)
    requires Genuine(c, asks, m) && m in net && j < |c.parties|
    ensures Cell(c, net - multiset{m} + Successor(c, m), j, t)
         == Cell(c, net, j, t) + if j == Party(m) && t == m.Slot().start then -1 else 0
  {
  }

  lemma RowDelivered(c: Setup, net: multiset<Msg>, asks: seq<Ask>, m: Msg, t: int)
    requires Genuine(c, asks, m) && m in net
    ensures Row(c, net - multiset{m} + Successor(c, m), t, |c.parties|)
         == Row(c, net, t, |c.parties|) + if t == m.Slot().start then -1 else 0
  {
    var net' := net - multiset{m} + Successor(c, m);
    var d := if t == m.Slot().start then -1 else 0;
    forall j | 0 <= j < |c.parties|
      ensures Cell(c, net', j, t) == Cell(c, net, j, t) + if j == Party(m) then d else 0
    {
      CellDelivered(c, net, asks, m, j, t);
    }
    RowMoves(c, net, net', t, |c.parties|, Party(m), d);
  }

  /** Replacing a message by its successor, if any, takes one delivery off the account. */
  lemma OneDelivered(c: Setup, net: multiset<Msg>, asks: seq<Ask>, m: Msg, h: int)
    requires Genuine(c, asks, m) && m in net && FIRST_HOUR <= m.Slot().start
    ensures Grid(c, net - multiset{m} + Successor(c, m), h) == Grid(c, net, h) - if m.Slot().start <= h then 1 else 0
  {
    var net' := net - multiset{m} + Successor(c, m);
    forall t
      ensures Row(c, net', t, |c.parties|) == Row(c, net, t, |c.parties|) + if t == m.Slot().start then -1 else 0
    {
      RowDelivered(c, net, asks, m, t);
    }
    GridMoves(c, net, net', h, m.Slot().start, -1);
  }

  /** A message under way is about an hour from 8 on. */
  lemma HourFrom8(c: Setup, s: Sys, m: Msg)
    requires Inv(c, s) && m in s.net
    ensures Genuine(c, s.asks, m) && FIRST_HOUR <= m.Slot().start
  {
    assert Genuine(c, s.asks, m);
  }

  /** A broadcast puts two deliveries per participant on the account. */
  lemma OneBroadcast(c: Setup, net: multiset<Msg>, u: int, h: int)
    requires FIRST_HOUR <= u
    ensures Grid(c, net + Broadcast(|c.parties|, c.Slot(u)), h)
         == Grid(c, net, h) + if u <= h then 2 * |c.parties| else 0
  {
    var net' := net + Broadcast(|c.parties|, c.Slot(u));
    forall t
      ensures Row(c, net', t, |c.parties|) == Row(c, net, t, |c.parties|) + if t == u then 2 * |c.parties| else 0
    {
      RowShifts(c, net, net', t, |c.parties|, if t == u then 2 else 0);
    }
    GridMoves(c, net, net', h, u, 2 * |c.parties|);
  }

  lemma WorkConnect(c: Setup, s: Sys, h: int)
    requires c.rule.SchedulerRule? && Inv(c, s) && !s.coord.stopped
    ensures Work(c, Connected(c, s), h) == Work(c, s, h)
  {
    var s' := Connected(c, s);
    if s.coord.current.None? {
      OneBroadcast(c, s.net, FIRST_HOUR, h);
      Unasks(c, s, s', h);
    } else {
      assert s' == s;
    }
  }

  /** If no hour is asked about, only the messages under way count. */
  lemma SameAsks(c: Setup, s: Sys, s': Sys, h: int)
    requires s'.asks == s.asks
    ensures Work(c, s', h) - Work(c, s, h) == Grid(c, s'.net, h) - Grid(c, s.net, h)
  {
  }

  lemma WorkRequest(c: Setup, s: Sys, m: Msg, h: int)
    requires Inv(c, s) && m in s.net && m.Request?
    ensures Work(c, Requested(c, s, m), h) == Work(c, s, h) - if m.Slot().start <= h then 1 else 0
  {
    HourFrom8(c, s, m);
    OneDelivered(c, s.net, s.asks, m, h);
    SameAsks(c, s, Requested(c, s, m), h);
  }

  lemma AcceptanceNet(c: Setup, s: Sys, m: Msg)
    requires m.Response? && m.answer.available
    ensures Answered(c, s, m).asks == s.asks && Answered(c, s, m).net == s.net - multiset{m} + Successor(c, m)
  {
    AcceptanceRecorded(c, s.coord, m.answer);
  }

  lemma WorkAcceptance(c: Setup, s: Sys, m: Msg, h: int)
    requires Inv(c, s) && m in s.net && m.Response? && m.answer.available
    ensures Work(c, Answered(c, s, m), h) == Work(c, s, h) - if m.Slot().start <= h then 1 else 0
  {
    HourFrom8(c, s, m);
    OneDelivered(c, s.net, s.asks, m, h);
    AcceptanceNet(c, s, m);
    SameAsks(c, s, Answered(c, s, m), h);
  }

  /** A rejection makes the scheduler ask about the next hour. */
  lemma RejectionNet(c: Setup, s: Sys, m: Msg)
    requires c.rule.SchedulerRule? && Inv(c, s) && m in s.net && m.Response? && !m.answer.available
    ensures s.asks != [] && |Answered(c, s, m).asks| == |s.asks| + 1 && Latest(s.asks) + 1 == FIRST_HOUR + |s.asks|
    ensures Answered(c, s, m).net
         == s.net - multiset{m} + Successor(c, m) + Broadcast(|c.parties|, c.Slot(Latest(s.asks) + 1))
  {
    AskAfterRejection(c, s, m);
    RejectionAdvances(c, s.coord, m.answer, Latest(s.asks));
  }

  lemma WorkRejection(c: Setup, s: Sys, m: Msg, h: int)
    requires c.rule.SchedulerRule? && Inv(c, s) && m in s.net && m.Response? && !m.answer.available
    ensures Work(c, Answered(c, s, m), h) == Work(c, s, h) - if m.Slot().start <= h then 1 else 0
  {
    HourFrom8(c, s, m);
    OneDelivered(c, s.net, s.asks, m, h);
    RejectionNet(c, s, m);
    OneBroadcast(c, s.net - multiset{m} + Successor(c, m), Latest(s.asks) + 1, h);
    Unasks(c, s, Answered(c, s, m), h);
  }

  /** One more hour asked about is one fewer to ask about. */
  lemma Unasks(c: Setup, s: Sys, s': Sys, h: int)
    requires |s'.asks| == |s.asks| + 1
    ensures 2 * |c.parties| * Unasked(s', h)
         == 2 * |c.parties| * Unasked(s, h) - if FIRST_HOUR + |s.asks| <= h then 2 * |c.parties| else 0
  {
  }

  /** Work is paid off one delivery at a time and never grows. */
  lemma WorkStep(c: Setup, s: Sys, e: Event, h: int)
    requires c.rule.SchedulerRule? && Inv(c, s) && !e.Lose?
    ensures Work(c, Apply(c, s, e), h) == Work(c, s, h) - if Delivers(s, e, h) then 1 else 0
  {
    if !s.coord.stopped {
      if e.Connect? {
        WorkConnect(c, s, h);
      } else if e.Deliver? && e.m in s.net {
        if e.m.Request? {
          WorkRequest(c, s, e.m, h);
        } else if e.m.answer.available {
          WorkAcceptance(c, s, e.m, h);
        } else {
          WorkRejection(c, s, e.m, h);
        }
      }
    }
  }

  lemma {:induction false} WorkPaidOff(c: Setup, sched: nat -> Event, n: nat, h: int)
    requires c.rule.SchedulerRule? && Lossless(sched)
    ensures Delivered(c, sched, n, h) + Work(c, At(c, sched, n), h) == Work(c, Initial(), h)
  {
    if n > 0 {
      WorkPaidOff(c, sched, n - 1, h);
      InvAlways(c, sched, n - 1);
      WorkStep(c, At(c, sched, n - 1), sched(n - 1), h);
    }
  }

  /** In every run that loses nothing, the deliveries made about hours up to h and the work left add up
      to two per participant and hour. So no delivery order needs more. */
  lemma DeliveryBudget(c: Setup, sched: nat -> Event, n: nat, h: int)
    requires c.rule.SchedulerRule? && Lossless(sched) && FIRST_HOUR <= h
    ensures Delivered(c, sched, n, h) + Work(c, At(c, sched, n), h) == 2 * |c.parties| * (h - 7)
  {
    WorkPaidOff(c, sched, n, h);
    InitialWork(c, h);
  }

  lemma InitialWork(c: Setup, h: int)
    requires FIRST_HOUR <= h
    ensures Work(c, Initial(), h) == 2 * |c.parties| * (h - 7)
  {
    EmptyGrid(c, h);
  }

  lemma {:induction false} EmptyGrid(c: Setup, h: int)
    ensures Grid(c, multiset{}, h) == 0
    decreases h
  {
    if h >= FIRST_HOUR {
      EmptyGrid(c, h - 1);
      EmptyRow(c, h, |c.parties|);
    }
  }

  lemma {:induction false} EmptyRow(c: Setup, t: int, n: nat)
    requires n <= |c.parties|
    ensures Row(c, multiset{}, t, n) == 0
  {
    if n > 0 {
      EmptyRow(c, t, n - 1);
    }
  }

  /** A participant that can attend an hour that was asked about and is not yet recorded. */
  lemma AttendeeUnderWay(c: Setup, s: Sys, h: int) returns (i: nat)
    requires Inv(c, s) && HeardOk(c, s) && Tracked(c, s) && !s.coord.stopped
    requires |c.Attending(h)| >= c.Threshold() && Asked(s.asks, h)
    ensures i < |c.parties| && InFlight(c, s.net, i, h)
  {
    RecordedOrPending(c, s, h);
    TallyShort(c, s, h);
    assert RecordedNames(c, s, h) + {} == RecordedNames(c, s, h);
    var x :| x in Pending(c, s, h);
    i :| 0 <= i < |c.parties| && InFlight(c, s.net, i, h) && c.parties[i].name == x;
  }

  lemma FlightIsMessage(c: Setup, s: Sys, i: nat, t: int, h: int)
    requires i < |c.parties| && InFlight(c, s.net, i, t) && t <= h
    ensures exists m :: m in s.net && m.Slot().start <= h
  {
  }

  lemma EarlyMessage(c: Setup, s: Sys, h: int)
    requires Inv(c, s) && HeardOk(c, s) && Tracked(c, s) && CurrentTracked(c, s)
    requires FIRST_HOUR <= h && |c.Attending(h)| >= c.Threshold()
    requires s.asks != [] && !s.coord.stopped
    ensures exists m :: m in s.net && m.Slot().start <= h
  {
    var cur := Latest(s.asks);
    if cur < h {
      SubsetSize(c.Attending(h), c.AllNames());
      var i := CurrentUnderWay(c, s);
      FlightIsMessage(c, s, i, cur, h);
    } else {
      assert AskedBy(s.asks, |s.asks| - 1, h);
      var i := AttendeeUnderWay(c, s, h);
      FlightIsMessage(c, s, i, h, h);
    }
  }

  /** Until it stops, a started negotiation always has a message about some hour up to h under way,
      whichever hour h enough participants can attend. So the budget cannot run out before it stops. */
  lemma BudgetedDeliveryEnabled(c: Setup, sched: nat -> Event, n: nat, h: int)
    requires Lossless(sched)
    requires FIRST_HOUR <= h && |c.Attending(h)| >= c.Threshold()
    requires At(c, sched, n).asks != [] && !At(c, sched, n).coord.stopped
    ensures exists m :: m in At(c, sched, n).net && m.Slot().start <= h
  {
    TrackedAlways(c, sched, n);
    EarlyMessage(c, At(c, sched, n), h);
  }
}
