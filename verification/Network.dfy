/** The network of agents: every agent's queues and handlers, and a gossip layer that may reorder or
    lose messages but neither copies them nor returns them to their sender. Every queue operation is one step. */
module Network {
  import opened Common
  import opened Agents

  datatype Setup = Setup(profiles: map<string, Profile>) {
    ghost predicate Valid() {
      forall p :: p in profiles ==> profiles[p].id == p
    }
  }

  datatype Packet = Packet(to: string, message: NodeMessage)

  /** An agent and what has happened at it: the messages accepted from the application, those handed to
      publish, the events its node took up for the listener, the application messages among them, and the
      calls of its handlers. */
  datatype Local = Local(
    agent: Agent, submitted: seq<Transport>, published: seq<Transport>, taken: seq<Incoming>,
    arrived: seq<AgentMessage>, handled: seq<AgentMessage>, connections: seq<Connection>)

  datatype Sys = Sys(locals: map<string, Local>, air: multiset<Packet>)

  datatype Event =
    | SendDirect(at: string, to: string, payload: seq<bv8>)
    | SendAll(at: string, payload: seq<bv8>)
    | TakeOff(at: string)
    | Pass(at: string)
    | Publish(at: string)
    | Arrive(packet: Packet)
    | PassOn(at: string)
    | Lose(packet: Packet)
    | NoticePeer(at: string, topic: string, peer: string)
    | ListenAt(at: string, sends: seq<Draft>)
    | RunErrand(at: string, sends: seq<Draft>)
    | CheckTask(at: string, topic: string)
    | RunTask(at: string, topic: string)

  function Initial(c: Setup): Sys {
    Sys(map p | p in c.profiles :: Local(FRESH, [], [], [], [], [], []), multiset{})
  }

  // ----- steps of one agent -----

  function Sending(p: Profile, l: Local, t: Transport): Local {
    var agent := Submit(p, l.agent, t);
    l.(agent := agent, submitted := if agent.channel == l.agent.channel then l.submitted else l.submitted + [t])
  }

  function Publishing(l: Local): Local {
    if Publishes(l.agent) then l.(agent := Unload(l.agent), published := l.published + [l.agent.inbox[0]]) else l
  }

  /** The log of the events taken up, after one more if the node is passing one on that it was not before. */
  function TakenUp(l: Local, a: Agent): seq<Incoming> {
    if l.agent.arriving.None? && a.arriving.Some? then l.taken + [a.arriving.value] else l.taken
  }

  function Arriving(p: Profile, l: Local, m: NodeMessage): Local {
    l.(agent := Receive(p, l.agent, m),
       taken := TakenUp(l, Receive(p, l.agent, m)),
       arrived := if l.agent.arriving.None? && PassesNode(p, m) && m.data.AppMessage? then l.arrived + [m.data]
                  else l.arrived)
  }

  function Noticing(l: Local, topic: string, peer: string): Local {
    l.(agent := Notice(l.agent, topic, peer), taken := TakenUp(l, Notice(l.agent, topic, peer)))
  }

  function Listening(p: Profile, l: Local, sends: seq<Draft>): Local {
    var turn := Listen(p, l.agent, sends);
    l.(agent := turn.agent, handled := l.handled + turn.handled, connections := l.connections + turn.connections)
  }

  /** What a handler sends counts as submitted once it is in the channel. */
  function Proceeding(p: Profile, l: Local, sends: seq<Draft>): Local {
    var turn := Proceed(p, l.agent, sends);
    l.(agent := turn.agent, connections := l.connections + turn.connections,
       submitted := if Submits(p, l.agent) then l.submitted + [p.Outgoing(l.agent.errand.value.first)] else l.submitted)
  }

  function Acting(p: Profile, l: Local, e: Event): Local {
    match e
    case SendDirect(_, to, payload) => Sending(p, l, p.DirectMessage(to, payload))
    case SendAll(_, payload) => Sending(p, l, p.BroadcastMessage(payload))
    case TakeOff(_) => l.(agent := Take(l.agent))
    case Pass(_) => l.(agent := HandOver(p, l.agent))
    case Publish(_) => Publishing(l)
    case Arrive(packet) => Arriving(p, l, packet.message)
    case PassOn(_) => l.(agent := Forward(p, l.agent))
    case Lose(_) => l
    case NoticePeer(_, topic, peer) => Noticing(l, topic, peer)
    case ListenAt(_, sends) => Listening(p, l, sends)
    case RunErrand(_, sends) => Proceeding(p, l, sends)
    case CheckTask(_, topic) => l.(agent := Check(l.agent, topic))
    case RunTask(_, topic) => l.(agent := Introduce(p, l.agent, topic))
  }

  // ----- steps of the network -----

  function Place(e: Event): string {
    match e
    case Arrive(packet) => packet.to
    case Lose(packet) => packet.to
    case SendDirect(at, _, _) => at
    case SendAll(at, _) => at
    case TakeOff(at) => at
    case Pass(at) => at
    case Publish(at) => at
    case PassOn(at) => at
    case NoticePeer(at, _, _) => at
    case ListenAt(at, _) => at
    case RunErrand(at, _) => at
    case CheckTask(at, _) => at
    case RunTask(at, _) => at
  }

  /** A published message is on its way to everyone but its sender. */
  function Copies(c: Setup, from: string, m: NodeMessage): multiset<Packet> {
    multiset(set p | p in c.profiles && p != from :: Packet(p, m))
  }

  function Air(c: Setup, s: Sys, e: Event): multiset<Packet>
    requires Place(e) in c.profiles && Place(e) in s.locals
  {
    match e
    case Publish(at) =>
      var a := s.locals[at].agent;
      if Publishes(a) then s.air + Copies(c, at, Published(c.profiles[at], a.inbox[0])) else s.air
    case Arrive(packet) => s.air - multiset{packet}
    case Lose(packet) => s.air - multiset{packet}
    case _ => s.air
  }

  /** A packet in the air reaches a node that is free to take it up. */
  predicate Lands(s: Sys, packet: Packet) {
    packet in s.air && packet.to in s.locals && s.locals[packet.to].agent.arriving.None?
  }

  function Apply(c: Setup, s: Sys, e: Event): Sys {
    var at := Place(e);
    if at !in c.profiles || at !in s.locals || (e.Arrive? && !Lands(s, e.packet)) then s
    else Sys(s.locals[at := Acting(c.profiles[at], s.locals[at], e)], Air(c, s, e))
  }

  /** The state after n steps of a schedule. Cancellation ends a run after some step. */
  ghost function At(c: Setup, sched: nat -> Event, n: nat): Sys {
    if n == 0 then Initial(c) else Apply(c, At(c, sched, n - 1), sched(n - 1))
  }

  // ----- what holds at one agent -----

  function Apps(ts: seq<Transport>): seq<Transport> {
    if ts == [] then []
    else Apps(ts[..|ts| - 1]) + if ts[|ts| - 1].data.AppMessage? then [ts[|ts| - 1]] else []
  }

  function Queued(a: Agent): seq<Transport> {
    (if a.held.Some? then [a.held.value] else []) + a.channel
  }

  /** What the listener has still to see: what the node has passed on and what it is passing on. */
  function Line(a: Agent): seq<Incoming> {
    a.outbox + if a.arriving.Some? then [a.arriving.value] else []
  }

  /** The application messages among it. */
  function Waiting(line: seq<Incoming>): seq<AgentMessage> {
    if line == [] then [] else Waiting(line[..|line| - 1]) + Content(line[|line| - 1])
  }

  function Content(i: Incoming): seq<AgentMessage> {
    if i.Received? && i.message.data.AppMessage? then [i.message.data] else []
  }

  /** A message of agent p in its own words: its true details, and only registered agents acknowledged. */
  ghost predicate Own(p: Profile, registered: set<string>, t: Transport) {
    && t.from == p.id
    && match t.data
       case AppMessage(sender, _, messageType) =>
         sender == p.Details() && t.to == if messageType.Direct? then Some(messageType.toPeer) else None
       case AgentIntroduction(id, role, name, _) =>
         AgentDetail(name, id, role) == p.Details() && t.to == None
       case AgentRegistrationAck(id, _) => id in registered && t.to == None
  }

  ghost predicate AllOwn(p: Profile, registered: set<string>, ts: seq<Transport>) {
    forall t :: t in ts ==> Own(p, registered, t)
  }

  /** What was submitted is, in order, what was published, what waits in the inbox, what the broadcast
      task holds and what waits in the channel; introductions and acknowledgements in between do not matter. */
  ghost predicate SendOk(
    p: Profile, submitted: seq<Transport>, published: seq<Transport>, inbox: seq<Transport>, queued: seq<Transport>)
  {
    && submitted == Apps(published) + Apps(inbox) + queued
    && |inbox| <= p.queueSize
    && forall t :: t in queued ==> t.data.AppMessage?
  }

  /** What passed the node is, in order, what was handled and what the listener has still to see; the
      listener's own filter rejects none of it. */
  ghost predicate ReceiveOk(p: Profile, arrived: seq<AgentMessage>, handled: seq<AgentMessage>, line: seq<Incoming>) {
    && arrived == handled + Waiting(line)
    && forall d :: d in arrived ==> PassesListener(p, d)
  }

  ghost function Ids(connections: seq<Connection>): set<string> {
    set x | x in connections :: x.agent.id
  }

  /** Call k of the connection handler found its agent registered, and the agents connected at that
      moment were those introduced so far. */
  ghost predicate ConnectionOk(connections: seq<Connection>, k: nat)
    requires k < |connections|
  {
    && connections[k].agent.id in connections[k].connected
    && connections[k].connected[connections[k].agent.id] == connections[k].agent
    && connections[k].connected.Keys == Ids(connections[..k + 1])
  }

  /** The agent that is registered but for which the handler is still to be called. */
  ghost function Due(errand: Option<Errand>): set<string> {
    if errand.Some? && errand.value.Acknowledge? then {errand.value.agent.id} else {}
  }

  ghost predicate ConnectionsOk(
    connected: map<string, AgentDetail>, connections: seq<Connection>, errand: Option<Errand>)
  {
    && connected.Keys == Ids(connections) + Due(errand)
    && (errand.Some? && errand.value.Acknowledge? ==> connected[errand.value.agent.id] == errand.value.agent)
    && forall k :: 0 <= k < |connections| ==> ConnectionOk(connections, k)
  }

  ghost predicate LocalOk(p: Profile, l: Local) {
    && SendOk(p, l.submitted, l.published, l.agent.inbox, Queued(l.agent))
    && AllOwn(p, l.agent.connected.Keys, l.published)
    && AllOwn(p, l.agent.connected.Keys, l.agent.inbox)
    && AllOwn(p, l.agent.connected.Keys, Queued(l.agent))
    && |l.agent.channel| <= p.channelSize
    && ReceiveOk(p, l.arrived, l.handled, Line(l.agent))
    && |l.agent.outbox| <= p.queueSize
    && ConnectionsOk(l.agent.connected, l.connections, l.agent.errand)
  }

  // ----- one agent keeps its invariants -----

  lemma AppsAppend(ts: seq<Transport>, t: Transport)
    ensures Apps(ts + [t]) == Apps(ts) + if t.data.AppMessage? then [t] else []
  {
  }

  lemma {:induction false} AppsFirst(ts: seq<Transport>)
    requires ts != []
    ensures Apps(ts) == (if ts[0].data.AppMessage? then [ts[0]] else []) + Apps(ts[1..])
  {
    if |ts| > 1 {
      var init := ts[..|ts| - 1];
      AppsFirst(init);
      assert ts[1..][..|ts| - 2] == init[1..];
    }
  }

  lemma WaitingAppend(line: seq<Incoming>, i: Incoming)
    ensures Waiting(line + [i]) == Waiting(line) + Content(i)
  {
  }

  lemma {:induction false} WaitingFirst(line: seq<Incoming>)
    requires line != []
    ensures Waiting(line) == Content(line[0]) + Waiting(line[1..])
  {
    if |line| > 1 {
      var init := line[..|line| - 1];
      WaitingFirst(init);
      assert line[1..][..|line| - 2] == init[1..];
    }
  }

  lemma SubmitKept(p: Profile, l: Local, t: Transport)
    requires LocalOk(p, l) && t.data.AppMessage? && Own(p, l.agent.connected.Keys, t)
    ensures LocalOk(p, Sending(p, l, t))
  {
    var l' := Sending(p, l, t);
    if |l.agent.channel| < p.channelSize {
      assert l'.agent == l.agent.(channel := l.agent.channel + [t]) && l'.submitted == l.submitted + [t];
      assert Queued(l'.agent) == Queued(l.agent) + [t];
      var sent := Apps(l.published) + Apps(l.agent.inbox);
      assert sent + Queued(l.agent) + [t] == sent + (Queued(l.agent) + [t]);
    } else {
      assert l' == l;
    }
  }

  lemma TakeKept(p: Profile, l: Local)
    requires LocalOk(p, l)
    ensures LocalOk(p, l.(agent := Take(l.agent)))
  {
    assert Queued(Take(l.agent)) == Queued(l.agent);
  }

  lemma PassKept(p: Profile, l: Local)
    requires LocalOk(p, l)
    ensures LocalOk(p, l.(agent := HandOver(p, l.agent)))
  {
    var a := HandOver(p, l.agent);
    if l.agent.held.Some? && HasRoom(p, l.agent) {
      var t := l.agent.held.value;
      assert a == l.agent.(held := None, inbox := l.agent.inbox + [t]);
      assert Queued(a) == l.agent.channel && Queued(l.agent) == [t] + l.agent.channel;
      assert t in Queued(l.agent);
      PassAccount(l.published, l.agent.inbox, t, l.agent.channel);
    } else {
      assert a == l.agent;
    }
  }

  lemma PassAccount(published: seq<Transport>, inbox: seq<Transport>, t: Transport, channel: seq<Transport>)
    requires t.data.AppMessage?
    ensures Apps(published) + Apps(inbox) + ([t] + channel) == Apps(published) + Apps(inbox + [t]) + channel
  {
  }

  lemma PublishKept(p: Profile, l: Local)
    requires LocalOk(p, l)
    ensures LocalOk(p, Publishing(l))
  {
    if Publishes(l.agent) {
      var t := l.agent.inbox[0];
      AppsFirst(l.agent.inbox);
      AppsAppend(l.published, t);
      assert Apps(l.published + [t]) + Apps(l.agent.inbox[1..]) == Apps(l.published) + Apps(l.agent.inbox);
    }
  }

  /** A step that sends nothing and registers nobody can only affect what is received. */
  lemma QuietStepKept(p: Profile, l: Local, l': Local)
    requires LocalOk(p, l)
    requires l'.submitted == l.submitted && l'.published == l.published && l'.connections == l.connections
    requires l'.agent.inbox == l.agent.inbox && l'.agent.channel == l.agent.channel && l'.agent.held == l.agent.held
    requires l'.agent.connected == l.agent.connected
    requires l'.agent.errand == l.agent.errand || (Due(l.agent.errand) == {} && Due(l'.agent.errand) == {})
    requires ReceiveOk(p, l'.arrived, l'.handled, Line(l'.agent)) && |l'.agent.outbox| <= p.queueSize
    ensures LocalOk(p, l')
  {
  }

  /** A message whose node type agrees with its content. */
  ghost predicate Agrees(m: NodeMessage) {
    m.data.AppMessage? ==> m.messageType == m.data.messageType
  }

  lemma ArriveKept(p: Profile, l: Local, m: NodeMessage)
    requires LocalOk(p, l) && Agrees(m)
    ensures LocalOk(p, Arriving(p, l, m))
  {
    var l' := Arriving(p, l, m);
    if l.agent.arriving.None? && PassesNode(p, m) {
      var line := Line(l.agent);
      assert Line(l'.agent) == line + [Received(m)];
      WaitingAppend(line, Received(m));
      assert l.handled + Waiting(line) + Content(Received(m)) == l.handled + Waiting(Line(l'.agent));
      assert l'.arrived == l.arrived + Content(Received(m));
    }
    QuietStepKept(p, l, l');
  }

  lemma NoticeKept(p: Profile, l: Local, topic: string, peer: string)
    requires LocalOk(p, l)
    ensures LocalOk(p, Noticing(l, topic, peer))
  {
    var l' := Noticing(l, topic, peer);
    if l.agent.arriving.None? {
      var line := Line(l.agent);
      assert Line(l'.agent) == line + [Subscribed(topic, peer)];
      WaitingAppend(line, Subscribed(topic, peer));
    }
    QuietStepKept(p, l, l');
  }

  lemma PassOnKept(p: Profile, l: Local)
    requires LocalOk(p, l)
    ensures LocalOk(p, l.(agent := Forward(p, l.agent)))
  {
    assert Line(Forward(p, l.agent)) == Line(l.agent);
    QuietStepKept(p, l, l.(agent := Forward(p, l.agent)));
  }

  lemma IdsAppend(connections: seq<Connection>, k: Connection)
    ensures Ids(connections + [k]) == Ids(connections) + {k.agent.id}
    ensures forall j :: 0 <= j <= |connections| ==> (connections + [k])[..j] == connections[..j]
    ensures (connections + [k])[..|connections| + 1] == connections + [k]
  {
  }

  /** What the listener takes from the line and what that leaves. */
  lemma LineTaken(a: Agent)
    requires a.outbox != []
    ensures var rest := a.(outbox := a.outbox[1..]);
      Waiting(Line(a)) == Content(a.outbox[0]) + Waiting(Line(rest))
  {
    WaitingFirst(Line(a));
    assert Line(a.(outbox := a.outbox[1..])) == Line(a)[1..];
  }

  lemma ReceiveTaken(p: Profile, arrived: seq<AgentMessage>, handled: seq<AgentMessage>, a: Agent)
    requires ReceiveOk(p, arrived, handled, Line(a)) && a.outbox != []
    ensures ReceiveOk(p, arrived, handled + Content(a.outbox[0]), Line(a.(outbox := a.outbox[1..])))
    ensures forall d :: d in Content(a.outbox[0]) ==> PassesListener(p, d)
  {
    LineTaken(a);
    var rest := Waiting(Line(a.(outbox := a.outbox[1..])));
    assert handled + (Content(a.outbox[0]) + rest) == handled + Content(a.outbox[0]) + rest;
    assert forall d :: d in Content(a.outbox[0]) ==> d in arrived;
  }

  /** Taking an event that is no introduction. */
  lemma QuietTurn(p: Profile, l: Local, sends: seq<Draft>)
    requires l.agent.errand.None? && l.agent.outbox != []
    requires l.agent.outbox[0].Received? ==> !l.agent.outbox[0].message.data.AgentIntroduction?
    requires forall d :: d in Content(l.agent.outbox[0]) ==> PassesListener(p, d)
    ensures var l' := Listening(p, l, sends);
      && l' == l.(agent := l'.agent, handled := l.handled + Content(l.agent.outbox[0]))
      && l'.agent == l.agent.(outbox := l.agent.outbox[1..], errand := l'.agent.errand,
                              introducing := l'.agent.introducing, introduced := l'.agent.introduced)
      && Due(l'.agent.errand) == {}
  {
    assert l.connections + [] == l.connections && l.handled + [] == l.handled;
    var first := l.agent.outbox[0];
    assert Content(first) != [] ==> Content(first)[0] in Content(first);
  }

  lemma ListenQuietly(p: Profile, l: Local, sends: seq<Draft>)
    requires LocalOk(p, l) && l.agent.errand.None? && l.agent.outbox != []
    requires l.agent.outbox[0].Received? ==> !l.agent.outbox[0].message.data.AgentIntroduction?
    ensures LocalOk(p, Listening(p, l, sends))
  {
    ReceiveTaken(p, l.arrived, l.handled, l.agent);
    QuietTurn(p, l, sends);
    var l' := Listening(p, l, sends);
    assert Line(l'.agent) == Line(l.agent.(outbox := l.agent.outbox[1..]));
    QuietStepKept(p, l, l');
  }

  /** Taking an introduction. */
  lemma IntroductionTurn(p: Profile, l: Local, sends: seq<Draft>)
    requires l.agent.errand.None? && l.agent.outbox != []
    requires l.agent.outbox[0].Received? && l.agent.outbox[0].message.data.AgentIntroduction?
    ensures var l' := Listening(p, l, sends);
      var d := l.agent.outbox[0].message.data;
      var detail := AgentDetail(d.name, d.id, d.role);
      l' == l.(agent := l.agent.(outbox := l.agent.outbox[1..], connected := l.agent.connected[d.id := detail],
                                 errand := Some(Acknowledge(d.topic, detail))))
  {
  }

  /** Registering an agent keeps what was sent in order. */
  lemma RegisterKeeps(p: Profile, l: Local, registered: set<string>)
    requires LocalOk(p, l) && l.agent.connected.Keys <= registered
    ensures AllOwn(p, registered, l.published) && AllOwn(p, registered, l.agent.inbox)
    ensures AllOwn(p, registered, Queued(l.agent))
  {
  }

  lemma ListenIntroduction(p: Profile, l: Local, sends: seq<Draft>)
    requires LocalOk(p, l) && l.agent.errand.None? && l.agent.outbox != []
    requires l.agent.outbox[0].Received? && l.agent.outbox[0].message.data.AgentIntroduction?
    ensures LocalOk(p, Listening(p, l, sends))
  {
    ReceiveTaken(p, l.arrived, l.handled, l.agent);
    IntroductionTurn(p, l, sends);
    var l' := Listening(p, l, sends);
    assert l'.handled == l.handled + Content(l.agent.outbox[0]);
    assert Line(l'.agent) == Line(l.agent.(outbox := l.agent.outbox[1..]));
    assert Queued(l'.agent) == Queued(l.agent);
    RegisterKeeps(p, l, l'.agent.connected.Keys);
  }

  lemma ListenKept(p: Profile, l: Local, sends: seq<Draft>)
    requires LocalOk(p, l)
    ensures LocalOk(p, Listening(p, l, sends))
  {
    if l.agent.errand.Some? || l.agent.outbox == [] {
      assert l.connections + [] == l.connections && l.handled + [] == l.handled;
      assert Listening(p, l, sends) == l;
    } else if l.agent.outbox[0].Received? && l.agent.outbox[0].message.data.AgentIntroduction? {
      ListenIntroduction(p, l, sends);
    } else {
      ListenQuietly(p, l, sends);
    }
  }

  /** Adding an introduction or an acknowledgement to the inbox does not disturb the account. */
  lemma EmitKept(p: Profile, l: Local, t: Transport)
    requires LocalOk(p, l) && HasRoom(p, l.agent) && !t.data.AppMessage? && Own(p, l.agent.connected.Keys, t)
    ensures SendOk(p, l.submitted, l.published, l.agent.inbox + [t], Queued(l.agent))
    ensures AllOwn(p, l.agent.connected.Keys, l.agent.inbox + [t])
  {
    AppsAppend(l.agent.inbox, t);
  }

  lemma ConnectionAdded(
    connected: map<string, AgentDetail>, connections: seq<Connection>, topic: string, agent: AgentDetail)
    requires ConnectionsOk(connected, connections, Some(Acknowledge(topic, agent)))
    ensures ConnectionsOk(connected, connections + [Connection(topic, agent, connected)], None)
  {
    var k := Connection(topic, agent, connected);
    IdsAppend(connections, k);
    forall j | 0 <= j < |connections| + 1
      ensures ConnectionOk(connections + [k], j)
    {
      assert j < |connections| ==> ConnectionOk(connections, j);
    }
  }

  lemma AcknowledgeKept(p: Profile, l: Local, sends: seq<Draft>)
    requires LocalOk(p, l) && HasRoom(p, l.agent) && l.agent.errand.Some? && l.agent.errand.value.Acknowledge?
    ensures LocalOk(p, Proceeding(p, l, sends))
  {
    var l' := Proceeding(p, l, sends);
    var agent := l.agent.errand.value.agent;
    EmitKept(p, l, p.Ack(agent.id));
    assert Queued(l'.agent) == Queued(l.agent) && Line(l'.agent) == Line(l.agent);
    ConnectionAdded(l.agent.connected, l.connections, l.agent.errand.value.topic, agent);
  }

  lemma AnnounceKept(p: Profile, l: Local, sends: seq<Draft>)
    requires LocalOk(p, l) && HasRoom(p, l.agent) && l.agent.errand.Some? && l.agent.errand.value.Announce?
    ensures LocalOk(p, Proceeding(p, l, sends))
  {
    var l' := Proceeding(p, l, sends);
    EmitKept(p, l, p.Introduction(l.agent.errand.value.topic));
    assert l.connections + [] == l.connections;
    assert Queued(l'.agent) == Queued(l.agent) && Line(l'.agent) == Line(l.agent);
  }

  /** What a handler sends is sent like any other message. */
  lemma HandlerSendKept(p: Profile, l: Local, sends: seq<Draft>)
    requires LocalOk(p, l) && Submits(p, l.agent)
    ensures LocalOk(p, Proceeding(p, l, sends))
  {
    var l' := Proceeding(p, l, sends);
    var t := p.Outgoing(l.agent.errand.value.first);
    var sent := Sending(p, l, t);
    SubmitKept(p, l, t);
    assert l.agent.channel + [t] != l.agent.channel;
    assert l.connections + [] == l.connections;
    assert l' == sent.(agent := sent.agent.(errand := l'.agent.errand));
    assert Queued(l'.agent) == Queued(sent.agent) && Line(l'.agent) == Line(sent.agent);
  }

  lemma ProceedKept(p: Profile, l: Local, sends: seq<Draft>)
    requires LocalOk(p, l)
    ensures LocalOk(p, Proceeding(p, l, sends))
  {
    if Submits(p, l.agent) {
      HandlerSendKept(p, l, sends);
    } else if l.agent.errand.Some? && !l.agent.errand.value.Submitting? && HasRoom(p, l.agent) {
      if l.agent.errand.value.Acknowledge? {
        AcknowledgeKept(p, l, sends);
      } else {
        AnnounceKept(p, l, sends);
      }
    } else {
      assert l.connections + [] == l.connections;
      assert Proceeding(p, l, sends) == l;
    }
  }

  lemma RunTaskKept(p: Profile, l: Local, topic: string)
    requires LocalOk(p, l)
    ensures LocalOk(p, l.(agent := Introduce(p, l.agent, topic)))
  {
    var l' := l.(agent := Introduce(p, l.agent, topic));
    if topic in l.agent.armed && HasRoom(p, l.agent) {
      EmitKept(p, l, p.Introduction(topic));
      assert Queued(l'.agent) == Queued(l.agent) && Line(l'.agent) == Line(l.agent);
    } else {
      assert l' == l;
    }
  }

  lemma CheckTaskKept(p: Profile, l: Local, topic: string)
    requires LocalOk(p, l)
    ensures LocalOk(p, l.(agent := Check(l.agent, topic)))
  {
  }

  lemma ActingKept(p: Profile, l: Local, e: Event)
    requires LocalOk(p, l) && (e.Arrive? ==> Agrees(e.packet.message))
    ensures LocalOk(p, Acting(p, l, e))
  {
    match e
    case SendDirect(_, to, payload) => SubmitKept(p, l, p.DirectMessage(to, payload));
    case SendAll(_, payload) => SubmitKept(p, l, p.BroadcastMessage(payload));
    case TakeOff(_) => TakeKept(p, l);
    case Pass(_) => PassKept(p, l);
    case Publish(_) => PublishKept(p, l);
    case Arrive(packet) => ArriveKept(p, l, packet.message);
    case PassOn(_) => PassOnKept(p, l);
    case Lose(_) =>
    case NoticePeer(_, topic, peer) => NoticeKept(p, l, topic, peer);
    case ListenAt(_, sends) => ListenKept(p, l, sends);
    case RunErrand(_, sends) => ProceedKept(p, l, sends);
    case CheckTask(_, topic) => CheckTaskKept(p, l, topic);
    case RunTask(_, topic) => RunTaskKept(p, l, topic);
  }
}
