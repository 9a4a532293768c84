/** A delivery order under which the announced hour is not the earliest possible one. */
module NegotiationExample {
  import opened Common
  import opened TimeSlots
  import opened Coordinators
  import opened Negotiation
  import opened NegotiationEarliest

  const MORNING := [TimeSlot("2024-07-21", 8, 12)]

  /** Two of three participants are free all morning, and two are enough. */
  function Team(rule: Rule): Setup {
    Setup(rule, Meeting("2024-07-21", 1, 2),
          [Participant("Alice", MORNING), Participant("Bob", MORNING), Participant("Charlie", [])])
  }

  function Ask8(i: nat): Msg {
    Request(i, TimeSlot("2024-07-21", 8, 9))
  }

  function Ask9(i: nat): Msg {
    Request(i, TimeSlot("2024-07-21", 9, 10))
  }

  function Reply(m: Msg, name: string, available: bool): Msg
    requires m.Request?
  {
    Response(m.to, Answer(name, m.wanted, available))
  }

  /** Charlie rejects 8 before the others have answered; then their answers about 9 overtake those about 8. */
  function Overtaking(n: nat): Event {
    match n
    case 0 => Connect
    case 1 => Deliver(Ask8(2))
    case 2 => Deliver(Reply(Ask8(2), "Charlie", false))
    case 3 => Deliver(Ask9(0))
    case 4 => Deliver(Reply(Ask9(0), "Alice", true))
    case 5 => Deliver(Ask9(1))
    case 6 => Deliver(Reply(Ask9(1), "Bob", true))
    case _ => Idle
  }

  lemma Availability(rule: Rule)
    ensures var c := Team(rule);
      && c.parties[0].Attends(c.Slot(8)) && c.parties[0].Attends(c.Slot(9))
      && c.parties[1].Attends(c.Slot(8)) && c.parties[1].Attends(c.Slot(9))
      && !c.parties[2].Attends(c.Slot(8))
  {
    var c := Team(rule);
    forall i, h | 0 <= i < 2 && h in {8, 9}
      ensures c.parties[i].Attends(c.Slot(h))
    {
      assert c.parties[i].windows[0] == MORNING[0];
      assert HasOverlap(c.parties[i].windows[0], c.Slot(h), c.Slot(h).Duration());
    }
  }

  /** The coordinator has proposed cur, recorded the tallies, and the given messages are under way. */
  ghost predicate Reached(rule: Rule, s: Sys, cur: int, agreed: map<SlotKey, seq<string>>, pending: set<Msg>) {
    && s.coord == Coord(Some(Team(rule).Slot(cur)), agreed, false)
    && s.announced == []
    && forall m :: m in pending ==> m in s.net
  }

  lemma ConnectReached(rule: Rule)
    ensures Reached(rule, Apply(Team(rule), Initial(), Connect), 8, map[], {Ask8(2)})
  {
  }

  lemma RequestReached(rule: Rule, s: Sys, cur: int, agreed: map<SlotKey, seq<string>>, pending: set<Msg>, m: Msg)
    requires Reached(rule, s, cur, agreed, pending) && m in pending && m.Request? && m.to < 3
    ensures var c := Team(rule);
      Reached(rule, Apply(c, s, Deliver(m)), cur, agreed,
              pending - {m} + {Response(m.to, c.parties[m.to].HandleRequest(m.wanted))})
  {
  }

  lemma RejectionReached(rule: Rule, s: Sys)
    requires Reached(rule, s, 8, map[], {Reply(Ask8(2), "Charlie", false)})
    ensures Reached(rule, Apply(Team(rule), s, Deliver(Reply(Ask8(2), "Charlie", false))), 9, map[], {Ask9(0), Ask9(1)})
  {
    RejectionAdvances(Team(rule), s.coord, Reply(Ask8(2), "Charlie", false).answer, 8);
  }

  lemma AliceReached(rule: Rule, s: Sys)
    requires Reached(rule, s, 9, map[], {Ask9(1), Reply(Ask9(0), "Alice", true)})
    ensures var c := Team(rule);
      Reached(rule, Apply(c, s, Deliver(Reply(Ask9(0), "Alice", true))), 9,
              map[c.Key(c.Slot(9)) := ["Alice"]], {Ask9(1)})
  {
    assert [] + ["Alice"] == ["Alice"];
  }

  lemma BobCloses(rule: Rule, s: Sys)
    requires var c := Team(rule);
      Reached(rule, s, 9, map[c.Key(c.Slot(9)) := ["Alice"]], {Reply(Ask9(1), "Bob", true)})
    ensures ClosedOn(Apply(Team(rule), s, Deliver(Reply(Ask9(1), "Bob", true))), 9)
  {
  }

  lemma EightIsPossible(rule: Rule)
    ensures !NothingEarlier(Team(rule), 9)
  {
    var c := Team(rule);
    Availability(rule);
    assert c.parties[0].name in c.Attending(8) && c.parties[1].name in c.Attending(8);
    assert "Alice"[0] != "Bob"[0];
    SubsetSize({"Alice", "Bob"}, c.Attending(8));
    assert |{"Alice", "Bob"}| == 2;
  }

  /** One step of the schedule. */
  lemma Step(rule: Rule, n: nat)
    ensures At(Team(rule), Overtaking, n + 1) == Apply(Team(rule), At(Team(rule), Overtaking, n), Overtaking(n))
  {
  }

  lemma FirstSteps(rule: Rule)
    ensures Reached(rule, At(Team(rule), Overtaking, 3), 9, map[], {Ask9(0), Ask9(1)})
  {
    var c := Team(rule);
    Availability(rule);
    ConnectReached(rule);
    Step(rule, 0);
    RequestReached(rule, At(c, Overtaking, 1), 8, map[], {Ask8(2)}, Ask8(2));
    Step(rule, 1);
    RejectionReached(rule, At(c, Overtaking, 2));
    Step(rule, 2);
  }

  /** Both rules can announce 9 although the same two participants can attend at 8. */
  lemma LaterHourCanWin(rule: Rule)
    ensures ClosedOn(At(Team(rule), Overtaking, 7), 9)
    ensures !NothingEarlier(Team(rule), 9)
  {
    var c := Team(rule);
    Availability(rule);
    FirstSteps(rule);
    RequestReached(rule, At(c, Overtaking, 3), 9, map[], {Ask9(0), Ask9(1)}, Ask9(0));
    Step(rule, 3);
    AliceReached(rule, At(c, Overtaking, 4));
    Step(rule, 4);
    RequestReached(rule, At(c, Overtaking, 5), 9, map[c.Key(c.Slot(9)) := ["Alice"]], {Ask9(1)}, Ask9(1));
    Step(rule, 5);
    BobCloses(rule, At(c, Overtaking, 6));
    Step(rule, 6);
    EightIsPossible(rule);
  }
}
