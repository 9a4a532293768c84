/** What the listener makes of the events its node takes up: whom it registers, what it calls and sends, and
    which introductions it keeps repeating, all as functions of the events it has seen. */
module NetworkListening {
  import opened Common
  import opened Agents
  import opened Network
  import opened NetworkResults

  // ----- what a list of events says -----

  /** The introduction an event brings: the topic and the description of the agent. */
  function Introduced(i: Incoming): seq<(string, AgentDetail)> {
    if i.Received? && i.message.data.AgentIntroduction? then
      var d := i.message.data;
      [(d.topic, AgentDetail(d.name, d.id, d.role))]
    else []
  }

  /** The introductions among the events, in order. */
  function Introductions(events: seq<Incoming>): seq<(string, AgentDetail)> {
    if events == [] then [] else Introductions(events[..|events| - 1]) + Introduced(events[|events| - 1])
  }

  /** The agents introduced, each described as it was last. */
  function Registry(events: seq<Incoming>): map<string, AgentDetail> {
    if events == [] then map[]
    else
      var earlier := Registry(events[..|events| - 1]);
      var last := Introduced(events[|events| - 1]);
      if last == [] then earlier else earlier[last[0].1.id := last[0].1]
  }

  /** The topic of a subscription by a peer that has not been introduced. */
  function Newcomer(registry: map<string, AgentDetail>, i: Incoming): seq<string> {
    if i.Subscribed? && i.peer !in registry then [i.topic] else []
  }

  /** The topics of the subscriptions by peers that had not been introduced before them, in order. */
  function Newcomers(events: seq<Incoming>): seq<string> {
    if events == [] then []
    else
      var earlier := events[..|events| - 1];
      Newcomers(earlier) + Newcomer(Registry(earlier), events[|events| - 1])
  }

  /** One of the events is a positive acknowledgement, of whomever. */
  ghost predicate Acknowledged(events: seq<Incoming>) {
    exists i :: i in events && i.Received? && i.message.data.AgentRegistrationAck? && i.message.data.status
  }

  // ----- what an agent has sent besides its application's messages -----

  /** The agents acknowledged, in order. */
  function Acks(ts: seq<Transport>): seq<string> {
    if ts == [] then []
    else
      var last := ts[|ts| - 1].data;
      Acks(ts[..|ts| - 1]) + if last.AgentRegistrationAck? && last.status then [last.id] else []
  }

  /** The topics under which the agent has introduced itself, in order. */
  function Announced(ts: seq<Transport>): seq<string> {
    if ts == [] then []
    else
      var last := ts[|ts| - 1].data;
      Announced(ts[..|ts| - 1]) + if last.AgentIntroduction? then [last.topic] else []
  }

  function Calls(connections: seq<Connection>): seq<(string, AgentDetail)> {
    seq(|connections|, k requires 0 <= k < |connections| => (connections[k].topic, connections[k].agent))
  }

  function IdsOf(introductions: seq<(string, AgentDetail)>): seq<string> {
    seq(|introductions|, k requires 0 <= k < |introductions| => introductions[k].1.id)
  }

  /** The introduction that the listener has still to acknowledge before it calls the handler. */
  function Open(errand: Option<Errand>): seq<(string, AgentDetail)> {
    if errand.Some? && errand.value.Acknowledge? then [(errand.value.topic, errand.value.agent)] else []
  }

  /** The topic under which an administrator has still to introduce itself. */
  function Unsaid(errand: Option<Errand>): seq<string> {
    if errand.Some? && errand.value.Announce? then [errand.value.topic] else []
  }

  // ----- the account of one agent -----

  /** The connection handler was called for the agents introduced, in order, and they are registered. */
  ghost predicate CallsOk(
    seen: seq<Incoming>, connected: map<string, AgentDetail>, connections: seq<Connection>, errand: Option<Errand>)
  {
    Introductions(seen) == Calls(connections) + Open(errand) && connected == Registry(seen)
  }

  /** Every introduction was answered by one acknowledgement, in order. */
  ghost predicate AcksOk(seen: seq<Incoming>, sent: seq<Transport>, errand: Option<Errand>) {
    IdsOf(Introductions(seen)) == Acks(sent) + IdsOf(Open(errand))
  }

  /** An administrator introduces itself once for each newcomer. */
  ghost predicate AnnouncedOk(p: Profile, seen: seq<Incoming>, sent: seq<Transport>, errand: Option<Errand>) {
    p.admin ==> Newcomers(seen) == Announced(sent) + Unsaid(errand)
  }

  /** A client starts an introduction task for each newcomer; tasks end only after an acknowledgement. */
  ghost predicate TasksOk(
    p: Profile, seen: seq<Incoming>, introducing: multiset<string>, armed: multiset<string>, introduced: bool)
  {
    && armed <= introducing <= (if p.admin then multiset{} else multiset(Newcomers(seen)))
    && (introduced <==> Acknowledged(seen))
    && (!introduced && !p.admin ==> introducing == multiset(Newcomers(seen)))
  }

  ghost predicate AccountOk(p: Profile, l: Local, seen: seq<Incoming>) {
    && l.handled == Waiting(seen)
    && CallsOk(seen, l.agent.connected, l.connections, l.agent.errand)
    && AcksOk(seen, l.published + l.agent.inbox, l.agent.errand)
    && AnnouncedOk(p, seen, l.published + l.agent.inbox, l.agent.errand)
    && TasksOk(p, seen, l.agent.introducing, l.agent.armed, l.agent.introduced)
  }

  /** Of the events taken up the listener has seen all but those in line. */
  ghost predicate HasSeen(l: Local, seen: seq<Incoming>) {
    l.taken == seen + Line(l.agent)
  }

  // ----- one more event, one more message -----

  lemma OneMore(seen: seq<Incoming>, i: Incoming)
    ensures Introductions(seen + [i]) == Introductions(seen) + Introduced(i)
    ensures Newcomers(seen + [i]) == Newcomers(seen) + Newcomer(Registry(seen), i)
    ensures Waiting(seen + [i]) == Waiting(seen) + Content(i)
    ensures Registry(seen + [i]) ==
      if Introduced(i) == [] then Registry(seen) else Registry(seen)[Introduced(i)[0].1.id := Introduced(i)[0].1]
  {
    assert (seen + [i])[..|seen|] == seen;
  }

  lemma AcknowledgedBy(seen: seq<Incoming>, i: Incoming)
    ensures Acknowledged(seen + [i]) <==>
      Acknowledged(seen) || (i.Received? && i.message.data.AgentRegistrationAck? && i.message.data.status)
  {
    assert i in seen + [i] && forall x :: x in seen ==> x in seen + [i];
  }

  lemma OneSent(ts: seq<Transport>, t: Transport)
    ensures Acks(ts + [t]) == Acks(ts) + if t.data.AgentRegistrationAck? && t.data.status then [t.data.id] else []
    ensures Announced(ts + [t]) == Announced(ts) + if t.data.AgentIntroduction? then [t.data.topic] else []
  {
    assert (ts + [t])[..|ts|] == ts;
  }

  lemma CallsAppend(connections: seq<Connection>, k: Connection)
    ensures Calls(connections + [k]) == Calls(connections) + [(k.topic, k.agent)]
  {
  }

  lemma IdsOfSum(a: seq<(string, AgentDetail)>, b: seq<(string, AgentDetail)>)
    ensures IdsOf(a + b) == IdsOf(a) + IdsOf(b)
  {
  }

  // ----- the line of events -----

  lemma LineExtended(seen: seq<Incoming>, line: seq<Incoming>, i: Incoming)
    ensures seen + line + [i] == seen + (line + [i])
  {
  }

  lemma SeenKept(p: Profile, l: Local, e: Event, seen: seq<Incoming>)
    requires HasSeen(l, seen) && !e.ListenAt?
    ensures HasSeen(Acting(p, l, e), seen)
  {
    var l' := Acting(p, l, e);
    if l'.taken != l.taken {
      var i := l'.agent.arriving.value;
      assert Line(l'.agent) == Line(l.agent) + [i];
      LineExtended(seen, Line(l.agent), i);
    } else {
      assert Line(l'.agent) == Line(l.agent);
    }
  }

  lemma SeenNext(p: Profile, l: Local, sends: seq<Draft>, seen: seq<Incoming>)
    requires HasSeen(l, seen) && l.agent.errand.None? && l.agent.outbox != []
    ensures HasSeen(Listening(p, l, sends), seen + [l.agent.outbox[0]])
  {
    var l' := Listening(p, l, sends);
    assert Line(l.agent) == [l.agent.outbox[0]] + Line(l'.agent);
    assert seen + ([l.agent.outbox[0]] + Line(l'.agent)) == seen + [l.agent.outbox[0]] + Line(l'.agent);
  }

  // ----- steps that the listener has no part in -----

  /** Nothing that the account speaks of has changed. */
  ghost predicate SameAccount(l: Local, l': Local) {
    && l'.published + l'.agent.inbox == l.published + l.agent.inbox
    && l'.handled == l.handled && l'.connections == l.connections
    && l'.agent.connected == l.agent.connected && l'.agent.errand == l.agent.errand
    && l'.agent.introducing == l.agent.introducing && l'.agent.armed == l.agent.armed
    && l'.agent.introduced == l.agent.introduced
  }

  /** Whoever sends, hands on or publishes application messages does not change it. */
  lemma QuietStep(p: Profile, l: Local, e: Event)
    requires !e.Pass? && !e.ListenAt? && !e.RunErrand? && !e.CheckTask? && !e.RunTask?
    ensures SameAccount(l, Acting(p, l, e))
  {
    if e.Publish? && Publishes(l.agent) {
      var t := l.agent.inbox[0];
      assert l.published + [t] + l.agent.inbox[1..] == l.published + l.agent.inbox;
    }
  }

  lemma SentAnother(p: Profile, seen: seq<Incoming>, sent: seq<Transport>, t: Transport, errand: Option<Errand>)
    requires AcksOk(seen, sent, errand) && AnnouncedOk(p, seen, sent, errand) && t.data.AppMessage?
    ensures AcksOk(seen, sent + [t], errand) && AnnouncedOk(p, seen, sent + [t], errand)
  {
    OneSent(sent, t);
  }

  /** What is handed on is a message of the application. */
  lemma HandsOn(p: Profile, l: Local, e: Event)
    requires LocalOk(p, l) && e.Pass? && l.agent.held.Some? && HasRoom(p, l.agent)
    ensures var l' := Acting(p, l, e);
      && l.agent.held.value.data.AppMessage?
      && l' == l.(agent := l.agent.(held := None, inbox := l'.agent.inbox))
      && l'.published + l'.agent.inbox == l.published + l.agent.inbox + [l.agent.held.value]
  {
    assert l.agent.held.value in Queued(l.agent);
  }

  lemma HandedOn(p: Profile, l: Local, e: Event, seen: seq<Incoming>)
    requires AccountOk(p, l, seen) && LocalOk(p, l) && e.Pass?
    ensures AccountOk(p, Acting(p, l, e), seen)
  {
    if l.agent.held.Some? && HasRoom(p, l.agent) {
      HandsOn(p, l, e);
      SentAnother(p, seen, l.published + l.agent.inbox, l.agent.held.value, l.agent.errand);
    }
  }

  // ----- the listener takes an event -----

  lemma CallsTaken(seen: seq<Incoming>, i: Incoming, connected: map<string, AgentDetail>,
                   connections: seq<Connection>, errand: Option<Errand>)
    requires CallsOk(seen, connected, connections, None) && Open(errand) == Introduced(i)
    ensures CallsOk(seen + [i], if Introduced(i) == [] then connected
                                else connected[Introduced(i)[0].1.id := Introduced(i)[0].1], connections, errand)
  {
    OneMore(seen, i);
    assert Introductions(seen) == Calls(connections);
  }

  lemma AcksTaken(seen: seq<Incoming>, i: Incoming, sent: seq<Transport>, errand: Option<Errand>)
    requires AcksOk(seen, sent, None) && Open(errand) == Introduced(i)
    ensures AcksOk(seen + [i], sent, errand)
  {
    OneMore(seen, i);
    IdsOfSum(Introductions(seen), Introduced(i));
    assert IdsOf(Introductions(seen)) == Acks(sent);
  }

  lemma AnnouncedTaken(p: Profile, seen: seq<Incoming>, i: Incoming, sent: seq<Transport>, errand: Option<Errand>)
    requires AnnouncedOk(p, seen, sent, None)
    requires p.admin ==> Unsaid(errand) == Newcomer(Registry(seen), i)
    ensures AnnouncedOk(p, seen + [i], sent, errand)
  {
    OneMore(seen, i);
    assert p.admin ==> Newcomers(seen) == Announced(sent);
  }

  lemma TasksTaken(p: Profile, seen: seq<Incoming>, i: Incoming, introducing: multiset<string>,
                   armed: multiset<string>, introduced: bool)
    requires TasksOk(p, seen, introducing, armed, introduced)
    ensures var more := if p.admin then [] else Newcomer(Registry(seen), i);
      TasksOk(p, seen + [i], introducing + multiset(more), armed,
              introduced || (i.Received? && i.message.data.AgentRegistrationAck? && i.message.data.status))
  {
    OneMore(seen, i);
    AcknowledgedBy(seen, i);
    assert multiset(Newcomers(seen) + Newcomer(Registry(seen), i))
        == multiset(Newcomers(seen)) + multiset(Newcomer(Registry(seen), i));
  }

  /** What the listener has to send on an event, and what it leaves alone. */
  lemma TurnedErrand(p: Profile, l: Local, sends: seq<Draft>)
    requires l.agent.errand.None? && l.agent.outbox != []
    ensures var l' := Listening(p, l, sends);
      var i := l.agent.outbox[0];
      && l'.published == l.published && l'.agent.inbox == l.agent.inbox && l'.connections == l.connections
      && l'.agent.armed == l.agent.armed
      && Open(l'.agent.errand) == Introduced(i)
      && Unsaid(l'.agent.errand) == (if p.admin then Newcomer(l.agent.connected, i) else [])
  {
    assert l.connections + [] == l.connections;
  }

  /** What it registers. */
  lemma TurnedRegistry(p: Profile, l: Local, sends: seq<Draft>)
    requires l.agent.errand.None? && l.agent.outbox != []
    ensures var l' := Listening(p, l, sends);
      var i := l.agent.outbox[0];
      l'.agent.connected == (if Introduced(i) == [] then l.agent.connected
                             else l.agent.connected[Introduced(i)[0].1.id := Introduced(i)[0].1])
  {
  }

  /** What becomes of the introduction tasks. */
  lemma TurnedTasks(p: Profile, l: Local, sends: seq<Draft>)
    requires l.agent.errand.None? && l.agent.outbox != []
    ensures var l' := Listening(p, l, sends);
      var i := l.agent.outbox[0];
      var more := if p.admin then [] else Newcomer(l.agent.connected, i);
      && l'.agent.introducing == l.agent.introducing + multiset(more)
      && l'.agent.introduced == (l.agent.introduced
           || (i.Received? && i.message.data.AgentRegistrationAck? && i.message.data.status))
  {
  }

  /** It calls the message handler for a message that passes its filter. */
  lemma TurnedHandled(p: Profile, l: Local, sends: seq<Draft>)
    requires l.agent.errand.None? && l.agent.outbox != []
    requires forall d :: d in Content(l.agent.outbox[0]) ==> PassesListener(p, d)
    ensures Listening(p, l, sends).handled == l.handled + Content(l.agent.outbox[0])
  {
    var content := Content(l.agent.outbox[0]);
    assert content != [] ==> content[0] in content;
  }

  lemma HandledTaken(p: Profile, l: Local, sends: seq<Draft>, seen: seq<Incoming>)
    requires LocalOk(p, l) && l.handled == Waiting(seen) && l.agent.errand.None? && l.agent.outbox != []
    ensures Listening(p, l, sends).handled == Waiting(seen + [l.agent.outbox[0]])
  {
    OneMore(seen, l.agent.outbox[0]);
    ReceiveTaken(p, l.arrived, l.handled, l.agent);
    TurnedHandled(p, l, sends);
  }

  lemma EventTaken(p: Profile, l: Local, sends: seq<Draft>, seen: seq<Incoming>)
    requires AccountOk(p, l, seen) && LocalOk(p, l) && l.agent.errand.None? && l.agent.outbox != []
    ensures AccountOk(p, Listening(p, l, sends), seen + [l.agent.outbox[0]])
  {
    var i := l.agent.outbox[0];
    var l' := Listening(p, l, sends);
    TurnedErrand(p, l, sends);
    TurnedRegistry(p, l, sends);
    TurnedTasks(p, l, sends);
    HandledTaken(p, l, sends, seen);
    CallsTaken(seen, i, l.agent.connected, l.connections, l'.agent.errand);
    AcksTaken(seen, i, l.published + l.agent.inbox, l'.agent.errand);
    AnnouncedTaken(p, seen, i, l.published + l.agent.inbox, l'.agent.errand);
    TasksTaken(p, seen, i, l.agent.introducing, l.agent.armed, l.agent.introduced);
  }

  // ----- the listener goes on -----

  lemma CallMade(seen: seq<Incoming>, connected: map<string, AgentDetail>, connections: seq<Connection>,
                 topic: string, agent: AgentDetail, errand: Option<Errand>)
    requires CallsOk(seen, connected, connections, Some(Acknowledge(topic, agent))) && Open(errand) == []
    ensures CallsOk(seen, connected, connections + [Connection(topic, agent, connected)], errand)
  {
    CallsAppend(connections, Connection(topic, agent, connected));
  }

  lemma AckSent(p: Profile, seen: seq<Incoming>, sent: seq<Transport>, topic: string, agent: AgentDetail,
                errand: Option<Errand>)
    requires AcksOk(seen, sent, Some(Acknowledge(topic, agent)))
    requires AnnouncedOk(p, seen, sent, Some(Acknowledge(topic, agent)))
    requires Open(errand) == [] && Unsaid(errand) == []
    ensures AcksOk(seen, sent + [p.Ack(agent.id)], errand) && AnnouncedOk(p, seen, sent + [p.Ack(agent.id)], errand)
  {
    OneSent(sent, p.Ack(agent.id));
  }

  lemma IntroductionSent(p: Profile, seen: seq<Incoming>, sent: seq<Transport>, topic: string)
    requires AcksOk(seen, sent, Some(Announce(topic))) && AnnouncedOk(p, seen, sent, Some(Announce(topic)))
    ensures AcksOk(seen, sent + [p.Introduction(topic)], None)
    ensures AnnouncedOk(p, seen, sent + [p.Introduction(topic)], None)
  {
    OneSent(sent, p.Introduction(topic));
  }

  lemma Acknowledges(p: Profile, l: Local, sends: seq<Draft>)
    requires HasRoom(p, l.agent) && l.agent.errand.Some? && l.agent.errand.value.Acknowledge?
    ensures var l' := Proceeding(p, l, sends);
      var errand := l.agent.errand.value;
      && l' == l.(agent := l.agent.(errand := l'.agent.errand, inbox := l'.agent.inbox), connections := l'.connections)
      && l'.connections == l.connections + [Connection(errand.topic, errand.agent, l.agent.connected)]
      && l'.published + l'.agent.inbox == l.published + l.agent.inbox + [p.Ack(errand.agent.id)]
      && Open(l'.agent.errand) == [] && Unsaid(l'.agent.errand) == []
  {
  }

  /** A registered agent is acknowledged and the handler called. */
  lemma AcknowledgeDone(p: Profile, l: Local, sends: seq<Draft>, seen: seq<Incoming>)
    requires AccountOk(p, l, seen) && HasRoom(p, l.agent)
    requires l.agent.errand.Some? && l.agent.errand.value.Acknowledge?
    ensures AccountOk(p, Proceeding(p, l, sends), seen)
  {
    var l' := Proceeding(p, l, sends);
    var agent, topic := l.agent.errand.value.agent, l.agent.errand.value.topic;
    Acknowledges(p, l, sends);
    CallMade(seen, l.agent.connected, l.connections, topic, agent, l'.agent.errand);
    AckSent(p, seen, l.published + l.agent.inbox, topic, agent, l'.agent.errand);
  }

  lemma Announces(p: Profile, l: Local, sends: seq<Draft>)
    requires HasRoom(p, l.agent) && l.agent.errand.Some? && l.agent.errand.value.Announce?
    ensures var l' := Proceeding(p, l, sends);
      && l' == l.(agent := l.agent.(errand := None, inbox := l'.agent.inbox))
      && l'.published + l'.agent.inbox
         == l.published + l.agent.inbox + [p.Introduction(l.agent.errand.value.topic)]
  {
    assert l.connections + [] == l.connections;
  }

  lemma AnnounceDone(p: Profile, l: Local, sends: seq<Draft>, seen: seq<Incoming>)
    requires AccountOk(p, l, seen) && HasRoom(p, l.agent)
    requires l.agent.errand.Some? && l.agent.errand.value.Announce?
    ensures AccountOk(p, Proceeding(p, l, sends), seen)
  {
    Announces(p, l, sends);
    IntroductionSent(p, seen, l.published + l.agent.inbox, l.agent.errand.value.topic);
  }

  /** A message of a handler joins the channel. */
  lemma SubmitsOnly(p: Profile, l: Local, sends: seq<Draft>)
    requires Submits(p, l.agent)
    ensures var l' := Proceeding(p, l, sends);
      && l' == l.(submitted := l'.submitted, agent := l.agent.(errand := l'.agent.errand, channel := l'.agent.channel))
      && Open(l'.agent.errand) == Open(l.agent.errand) && Unsaid(l'.agent.errand) == Unsaid(l.agent.errand)
  {
    assert l.connections + [] == l.connections;
  }

  lemma SubmitDone(p: Profile, l: Local, sends: seq<Draft>, seen: seq<Incoming>)
    requires AccountOk(p, l, seen) && Submits(p, l.agent)
    ensures AccountOk(p, Proceeding(p, l, sends), seen)
  {
    SubmitsOnly(p, l, sends);
  }

  lemma ErrandRun(p: Profile, l: Local, sends: seq<Draft>, seen: seq<Incoming>)
    requires AccountOk(p, l, seen)
    ensures AccountOk(p, Proceeding(p, l, sends), seen)
  {
    if Submits(p, l.agent) {
      SubmitDone(p, l, sends, seen);
    } else if l.agent.errand.Some? && !l.agent.errand.value.Submitting? && HasRoom(p, l.agent) {
      if l.agent.errand.value.Acknowledge? {
        AcknowledgeDone(p, l, sends, seen);
      } else {
        AnnounceDone(p, l, sends, seen);
      }
    } else {
      ErrandWaits(p, l, sends);
    }
  }

  lemma ErrandWaits(p: Profile, l: Local, sends: seq<Draft>)
    requires !Submits(p, l.agent)
    requires l.agent.errand.None? || l.agent.errand.value.Submitting? || !HasRoom(p, l.agent)
    ensures Proceeding(p, l, sends) == l
  {
    assert l.connections + [] == l.connections;
  }

  lemma ErrandStep(p: Profile, l: Local, e: Event, seen: seq<Incoming>)
    requires AccountOk(p, l, seen) && e.RunErrand?
    ensures AccountOk(p, Acting(p, l, e), seen)
  {
    assert Acting(p, l, e) == Proceeding(p, l, e.sends);
    ErrandRun(p, l, e.sends, seen);
  }

  // ----- the introduction tasks -----

  lemma RoomForOne(a: multiset<string>, b: multiset<string>, x: string)
    requires a <= b && a[x] < b[x]
    ensures a + multiset{x} <= b && a <= b - multiset{x} <= b
  {
  }

  lemma CheckKeeps(p: Profile, seen: seq<Incoming>, a: Agent, topic: string)
    requires TasksOk(p, seen, a.introducing, a.armed, a.introduced)
    ensures var a' := Check(a, topic);
      && TasksOk(p, seen, a'.introducing, a'.armed, a'.introduced)
      && a' == a.(introducing := a'.introducing, armed := a'.armed)
  {
    if a.introducing[topic] > a.armed[topic] {
      RoomForOne(a.armed, a.introducing, topic);
    }
  }

  lemma TaskChecked(p: Profile, l: Local, topic: string, seen: seq<Incoming>)
    requires AccountOk(p, l, seen)
    ensures AccountOk(p, l.(agent := Check(l.agent, topic)), seen)
  {
    CheckKeeps(p, seen, l.agent, topic);
  }

  lemma TaskSends(p: Profile, seen: seq<Incoming>, sent: seq<Transport>, topic: string, errand: Option<Errand>)
    requires AcksOk(seen, sent, errand) && !p.admin
    ensures AcksOk(seen, sent + [p.Introduction(topic)], errand)
    ensures AnnouncedOk(p, seen, sent + [p.Introduction(topic)], errand)
  {
    OneSent(sent, p.Introduction(topic));
  }

  lemma Introduces(p: Profile, l: Local, topic: string)
    requires topic in l.agent.armed && HasRoom(p, l.agent)
    ensures var l' := l.(agent := Introduce(p, l.agent, topic));
      && l' == l.(agent := l.agent.(armed := l.agent.armed - multiset{topic}, inbox := l'.agent.inbox))
      && l'.published + l'.agent.inbox == l.published + l.agent.inbox + [p.Introduction(topic)]
  {
  }

  lemma TaskRun(p: Profile, l: Local, topic: string, seen: seq<Incoming>)
    requires AccountOk(p, l, seen)
    ensures AccountOk(p, l.(agent := Introduce(p, l.agent, topic)), seen)
  {
    if topic in l.agent.armed && HasRoom(p, l.agent) {
      Introduces(p, l, topic);
      TaskSends(p, seen, l.published + l.agent.inbox, topic, l.agent.errand);
    }
  }

  lemma TaskStep(p: Profile, l: Local, e: Event, seen: seq<Incoming>)
    requires AccountOk(p, l, seen) && (e.CheckTask? || e.RunTask?)
    ensures AccountOk(p, Acting(p, l, e), seen)
  {
    if e.CheckTask? {
      assert Acting(p, l, e) == l.(agent := Check(l.agent, e.topic));
      TaskChecked(p, l, e.topic, seen);
    } else {
      assert Acting(p, l, e) == l.(agent := Introduce(p, l.agent, e.topic));
      TaskRun(p, l, e.topic, seen);
    }
  }

  // ----- every run -----

  lemma QuietKept(p: Profile, l: Local, l': Local, seen: seq<Incoming>)
    requires AccountOk(p, l, seen) && SameAccount(l, l')
    ensures AccountOk(p, l', seen)
  {
  }

  lemma ActingAccounted(p: Profile, l: Local, e: Event, seen: seq<Incoming>)
    requires AccountOk(p, l, seen) && LocalOk(p, l) && !e.ListenAt?
    ensures AccountOk(p, Acting(p, l, e), seen)
  {
    if e.Pass? {
      HandedOn(p, l, e, seen);
    } else if e.RunErrand? {
      ErrandStep(p, l, e, seen);
    } else if e.CheckTask? || e.RunTask? {
      TaskStep(p, l, e, seen);
    } else {
      QuietStep(p, l, e);
      QuietKept(p, l, Acting(p, l, e), seen);
    }
  }

  lemma SeenTurn(p: Profile, l: Local, sends: seq<Draft>, seen: seq<Incoming>) returns (seen': seq<Incoming>)
    requires AccountOk(p, l, seen) && HasSeen(l, seen) && LocalOk(p, l)
    ensures AccountOk(p, Listening(p, l, sends), seen') && HasSeen(Listening(p, l, sends), seen')
  {
    if l.agent.errand.None? && l.agent.outbox != [] {
      seen' := seen + [l.agent.outbox[0]];
      SeenNext(p, l, sends, seen);
      EventTaken(p, l, sends, seen);
    } else {
      seen' := seen;
      NothingTaken(p, l, sends);
    }
  }

  lemma NothingTaken(p: Profile, l: Local, sends: seq<Draft>)
    requires l.agent.errand.Some? || l.agent.outbox == []
    ensures Listening(p, l, sends) == l
  {
    assert l.handled + [] == l.handled && l.connections + [] == l.connections;
  }

  /** The listener has seen what it had seen before, and perhaps one more event. */
  ghost predicate Accounted(p: Profile, l: Local) {
    exists seen :: AccountOk(p, l, seen) && HasSeen(l, seen)
  }

  lemma AccountedTurn(p: Profile, l: Local, sends: seq<Draft>)
    requires Accounted(p, l) && LocalOk(p, l)
    ensures Accounted(p, Listening(p, l, sends))
  {
    var seen :| AccountOk(p, l, seen) && HasSeen(l, seen);
    var seen' := SeenTurn(p, l, sends, seen);
  }

  lemma AccountedOtherwise(p: Profile, l: Local, e: Event)
    requires Accounted(p, l) && LocalOk(p, l) && !e.ListenAt?
    ensures Accounted(p, Acting(p, l, e))
  {
    var seen :| AccountOk(p, l, seen) && HasSeen(l, seen);
    SeenKept(p, l, e, seen);
    ActingAccounted(p, l, e, seen);
  }

  lemma AccountedStep(p: Profile, l: Local, e: Event)
    requires Accounted(p, l) && LocalOk(p, l)
    ensures Accounted(p, Acting(p, l, e))
  {
    if e.ListenAt? {
      assert Acting(p, l, e) == Listening(p, l, e.sends);
      AccountedTurn(p, l, e.sends);
    } else {
      AccountedOtherwise(p, l, e);
    }
  }

  lemma AccountedInitially(p: Profile)
    ensures Accounted(p, Local(FRESH, [], [], [], [], [], []))
  {
    var l := Local(FRESH, [], [], [], [], [], []);
    assert AccountOk(p, l, []) && HasSeen(l, []);
  }

  ghost predicate AccountedAt(c: Setup, s: Sys, q: string) {
    q in c.profiles && q in s.locals && Accounted(c.profiles[q], s.locals[q])
  }

  lemma AccountedAtFirst(c: Setup, q: string)
    requires q in c.profiles
    ensures AccountedAt(c, Initial(c), q)
  {
    AccountedInitially(c.profiles[q]);
  }

  lemma AccountedNext(c: Setup, sched: nat -> Event, n: nat, q: string)
    requires c.Valid() && AccountedAt(c, At(c, sched, n), q)
    ensures AccountedAt(c, At(c, sched, n + 1), q)
  {
    LocalAlways(c, sched, n, q);
    var s, e := At(c, sched, n), sched(n);
    if Happens(c, s, e) && Place(e) == q {
      AccountedStep(c.profiles[q], s.locals[q], e);
    }
  }

  lemma AccountedAlways(c: Setup, sched: nat -> Event, n: nat, q: string)
    requires c.Valid() && q in c.profiles
    ensures AccountedAt(c, At(c, sched, n), q)
  {
    var holds := (k: nat) => AccountedAt(c, At(c, sched, k), q);
    AccountedAtFirst(c, q);
    forall k: nat
      ensures IsInherited(holds, k)
    {
      if holds(k) {
        AccountedNext(c, sched, k, q);
      }
    }
    HoldsAlways(holds, n);
  }

  /** In every run, what an agent's node has taken up is, in order, what its listener has seen and what is in line
      for it; and the listener has done exactly what it should on the events it has seen:
      - it has called the message handler for the application messages among them, and the connection handler for
        the introductions among them, in order, except for one that it may have still to acknowledge;
      - its registry lists the agents introduced, each as described last;
      - it has acknowledged each introduction once, in order;
      - an administrator has introduced itself once for each subscription by a peer not introduced before;
      - a client runs one introduction task for each such subscription until one of the events is an
        acknowledgement, and only then may tasks end. */
  lemma ListenerFollowsEvents(c: Setup, sched: nat -> Event, n: nat, q: string) returns (seen: seq<Incoming>)
    requires c.Valid() && q in c.profiles
    ensures q in At(c, sched, n).locals
    ensures var l := At(c, sched, n).locals[q]; AccountOk(c.profiles[q], l, seen) && HasSeen(l, seen)
  {
    AccountedAlways(c, sched, n, q);
    var l := At(c, sched, n).locals[q];
    seen :| AccountOk(c.profiles[q], l, seen) && HasSeen(l, seen);
  }
}
