/** One agent of the network: the queue its messages wait in, the task that hands them on, the inbox
    and the filters of its node, and the listener that calls its handlers. */
module Agents {
  import opened Common

  datatype AgentDetail = AgentDetail(name: string, id: string, role: string)

  datatype MessageType = Broadcast | Direct(toPeer: string)

  datatype AgentMessage =
    | AppMessage(sender: AgentDetail, payload: seq<bv8>, messageType: MessageType)
    | AgentIntroduction(id: string, role: string, name: string, topic: string)
    | AgentRegistrationAck(id: string, status: bool)

  /** What the agent hands to its node: sender, content, and the addressee if there is one. */
  datatype Transport = Transport(from: string, data: AgentMessage, to: Option<string>)

  /** What the node publishes and receives. */
  datatype NodeMessage = NodeMessage(createdBy: string, messageType: MessageType, data: AgentMessage)

  /** What the node passes to the listener. */
  datatype Incoming = Received(message: NodeMessage) | Subscribed(topic: string, peer: string)

  /** A message the application sends to one agent or to all. */
  datatype Draft = ToOne(to: string, payload: seq<bv8>) | ToAll(payload: seq<bv8>)

  /** The fixed part of an agent's configuration. */
  datatype Profile = Profile(
    id: string, name: string, role: Option<string>, admin: bool, channelSize: nat, queueSize: nat) {

    function Details(): AgentDetail {
      AgentDetail(name, id, if role.Some? then role.value else "")
    }

    function DirectMessage(to: string, payload: seq<bv8>): Transport {
      Transport(id, AppMessage(Details(), payload, Direct(to)), Some(to))
    }

    function BroadcastMessage(payload: seq<bv8>): Transport {
      Transport(id, AppMessage(Details(), payload, Broadcast), None)
    }

    function Outgoing(d: Draft): Transport {
      match d
      case ToOne(to, payload) => DirectMessage(to, payload)
      case ToAll(payload) => BroadcastMessage(payload)
    }

    function Introduction(topic: string): Transport {
      var d := Details();
      Transport(id, AgentIntroduction(d.id, d.role, d.name, topic), None)
    }

    function Ack(peer: string): Transport {
      Transport(id, AgentRegistrationAck(peer, true), None)
    }
  }

  /** What the listener has to get into a queue before it goes on: the acknowledgement of an agent it has
      registered, to be followed by the call of the connection handler, or an introduction, both into the
      node's inbox; or, while it awaits a handler, the messages that the handler has still to send. */
  datatype Errand =
    | Acknowledge(topic: string, agent: AgentDetail)
    | Announce(topic: string)
    | Submitting(first: Draft, rest: seq<Draft>)

  /** The queues and tables of a running agent. The channel holds up to channelSize entries, inbox and outbox
      up to queueSize. */
  datatype Agent = Agent(
    channel: seq<Transport>,          // messages the application has sent
    held: Option<Transport>,          // the one the broadcast task is handing to the node
    inbox: seq<Transport>,            // what the node is going to publish
    arriving: Option<Incoming>,       // what the node is passing to the listener
    outbox: seq<Incoming>,            // what it has passed
    errand: Option<Errand>,           // what the listener waits to send
    connected: map<string, AgentDetail>,
    introducing: multiset<string>,    // the topics of the running introduction tasks
    armed: multiset<string>,          // those of them that have just looked at the cancellation
    introduced: bool)                 // the introduction tasks are cancelled

  const FRESH := Agent([], None, [], None, [], None, map[], multiset{}, multiset{}, false)

  datatype Connection = Connection(topic: string, agent: AgentDetail, connected: map<string, AgentDetail>)

  /** The outcome of one turn of the listener: the calls made to the message and event handlers. */
  datatype Turn = Turn(agent: Agent, handled: seq<AgentMessage>, connections: seq<Connection>)

  // ----- sending -----

  /** A full channel makes the sender wait. */
  function Submit(p: Profile, a: Agent, t: Transport): Agent {
    if |a.channel| < p.channelSize then a.(channel := a.channel + [t]) else a
  }

  function Take(a: Agent): Agent {
    if a.held.None? && a.channel != [] then a.(held := Some(a.channel[0]), channel := a.channel[1..]) else a
  }

  predicate HasRoom(p: Profile, a: Agent) {
    |a.inbox| < p.queueSize
  }

  function HandOver(p: Profile, a: Agent): Agent {
    if a.held.Some? && HasRoom(p, a) then a.(held := None, inbox := a.inbox + [a.held.value]) else a
  }

  /** The node puts its own id and the type given by the addressee on what it publishes. */
  function Published(p: Profile, t: Transport): NodeMessage {
    NodeMessage(p.id, if t.to.None? then Broadcast else Direct(t.to.value), t.data)
  }

  /** While the node waits for the listener, it publishes nothing. */
  predicate Publishes(a: Agent) {
    a.arriving.None? && a.inbox != []
  }

  function Unload(a: Agent): Agent {
    if Publishes(a) then a.(inbox := a.inbox[1..]) else a
  }

  // ----- receiving -----

  predicate PassesNode(p: Profile, m: NodeMessage) {
    m.messageType.Direct? ==> m.messageType.toPeer == p.id
  }

  /** The node takes up an event unless it is still passing on the one before. */
  function Receive(p: Profile, a: Agent, m: NodeMessage): Agent {
    if a.arriving.None? && PassesNode(p, m) then a.(arriving := Some(Received(m))) else a
  }

  function Notice(a: Agent, topic: string, peer: string): Agent {
    if a.arriving.None? then a.(arriving := Some(Subscribed(topic, peer))) else a
  }

  /** A full outbox makes the node wait. */
  function Forward(p: Profile, a: Agent): Agent {
    if a.arriving.Some? && |a.outbox| < p.queueSize then
      a.(arriving := None, outbox := a.outbox + [a.arriving.value])
    else a
  }

  predicate PassesListener(p: Profile, m: AgentMessage) {
    m.AppMessage? && (m.messageType.Direct? ==> m.messageType.toPeer == p.id)
  }

  /** A handler that sends keeps the listener waiting. */
  function Awaiting(sends: seq<Draft>): Option<Errand> {
    if sends == [] then None else Some(Submitting(sends[0], sends[1..]))
  }

  /** The listener takes the next event unless it still has an errand. If it calls the message handler, that
      will send the given messages. */
  function Listen(p: Profile, a: Agent, sends: seq<Draft>): Turn {
    if a.errand.Some? || a.outbox == [] then Turn(a, [], [])
    else
      var rest := a.(outbox := a.outbox[1..]);
      match a.outbox[0]
      case Subscribed(topic, peer) =>
        if peer in a.connected then Turn(rest, [], [])
        else if p.admin then Turn(rest.(errand := Some(Announce(topic))), [], [])
        else Turn(rest.(introducing := a.introducing + multiset{topic}), [], [])
      case Received(m) =>
        match m.data
        case AppMessage(_, _, _) =>
          if PassesListener(p, m.data) then Turn(rest.(errand := Awaiting(sends)), [m.data], []) else Turn(rest, [], [])
        case AgentIntroduction(id, role, name, topic) =>
          var detail := AgentDetail(name, id, role);
          Turn(rest.(connected := a.connected[id := detail], errand := Some(Acknowledge(topic, detail))), [], [])
        case AgentRegistrationAck(_, status) => Turn(rest.(introduced := a.introduced || status), [], [])
  }

  /** A message of a handler that the listener awaits gets into the channel. */
  predicate Submits(p: Profile, a: Agent) {
    a.errand.Some? && a.errand.value.Submitting? && |a.channel| < p.channelSize
  }

  /** A full queue makes the listener wait. Once an acknowledgement is in, the connection handler is called,
      which will send the given messages. */
  function Proceed(p: Profile, a: Agent, sends: seq<Draft>): Turn {
    match a.errand
    case None => Turn(a, [], [])
    case Some(Acknowledge(topic, agent)) =>
      if HasRoom(p, a) then
        Turn(a.(errand := Awaiting(sends), inbox := a.inbox + [p.Ack(agent.id)]), [],
             [Connection(topic, agent, a.connected)])
      else Turn(a, [], [])
    case Some(Announce(topic)) =>
      if HasRoom(p, a) then Turn(a.(errand := None, inbox := a.inbox + [p.Introduction(topic)]), [], [])
      else Turn(a, [], [])
    case Some(Submitting(first, rest)) =>
      if |a.channel| < p.channelSize then Turn(Submit(p, a, p.Outgoing(first)).(errand := Awaiting(rest)), [], [])
      else Turn(a, [], [])
  }

  /** An introduction task looks whether it is cancelled, then sleeps, then sends. */
  function Check(a: Agent, topic: string): Agent {
    if a.introducing[topic] <= a.armed[topic] then a
    else if a.introduced then a.(introducing := a.introducing - multiset{topic})
    else a.(armed := a.armed + multiset{topic})
  }

  function Introduce(p: Profile, a: Agent, topic: string): Agent {
    if topic in a.armed && HasRoom(p, a) then
      a.(armed := a.armed - multiset{topic}, inbox := a.inbox + [p.Introduction(topic)])
    else a
  }

  // ----- the same, step by step on a running agent -----

  class UnifiedAgent {
    const profile: Profile
    var channel: seq<Transport>
    var held: Option<Transport>
    var inbox: seq<Transport>
    var arriving: Option<Incoming>
    var outbox: seq<Incoming>
    var errand: Option<Errand>
    var connectedAgents: map<string, AgentDetail>
    var introducing: multiset<string>
    var armed: multiset<string>
    var introduced: bool

    constructor (profile: Profile)
      ensures this.profile == profile && State() == FRESH
    {
      this.profile := profile;
      channel, held, inbox, arriving, outbox, errand := [], None, [], None, [], None;
      connectedAgents, introducing, armed, introduced := map[], multiset{}, multiset{}, false;
    }

    ghost function State(): Agent
      reads this
    {
      Agent(channel, held, inbox, arriving, outbox, errand, connectedAgents, introducing, armed, introduced)
    }

    /** True when the channel had room; otherwise the call is still waiting. */
    method SendDirect(to: string, payload: seq<bv8>) returns (sent: bool)
      modifies `channel
      ensures sent <==> |old(channel)| < profile.channelSize
      ensures !sent ==> channel == old(channel)
      ensures sent ==>
        var sender := AgentDetail(profile.name, profile.id, if profile.role.Some? then profile.role.value else "");
        channel == old(channel) + [Transport(profile.id, AppMessage(sender, payload, Direct(to)), Some(to))]
      ensures State() == Submit(profile, old(State()), profile.DirectMessage(to, payload))
    {
      sent := |channel| < profile.channelSize;
      if sent {
        var message := AppMessage(profile.Details(), payload, Direct(to));
        channel := channel + [Transport(profile.Details().id, message, Some(to))];
      }
    }

    method BroadcastPayload(payload: seq<bv8>) returns (sent: bool)
      modifies `channel
      ensures sent <==> |old(channel)| < profile.channelSize
      ensures !sent ==> channel == old(channel)
      ensures sent ==>
        var sender := AgentDetail(profile.name, profile.id, if profile.role.Some? then profile.role.value else "");
        channel == old(channel) + [Transport(profile.id, AppMessage(sender, payload, Broadcast), None)]
      ensures State() == Submit(profile, old(State()), profile.BroadcastMessage(payload))
    {
      sent := |channel| < profile.channelSize;
      if sent {
        var message := AppMessage(profile.Details(), payload, Broadcast);
        channel := channel + [Transport(profile.Details().id, message, None)];
      }
    }

    /** The broadcast task takes a message off the channel as soon as it has handed over the last one. */
    method BroadcastTask()
      modifies `channel, `held, `inbox
      ensures var passed := old(held).Some? && |old(inbox)| < profile.queueSize;
        && inbox == (if passed then old(inbox) + [old(held).value] else old(inbox))
        && if (passed || old(held).None?) && old(channel) != [] then
             held == Some(old(channel)[0]) && channel == old(channel)[1..]
           else
             held == (if passed then None else old(held)) && channel == old(channel)
      ensures State() == Take(HandOver(profile, old(State())))
    {
      if held.Some? && |inbox| < profile.queueSize {
        inbox := inbox + [held.value];
        held := None;
      }
      if held.None? && channel != [] {
        held := Some(channel[0]);
        channel := channel[1..];
      }
    }

    /** The node publishes the oldest message of its inbox, unless it waits for the listener. */
    method PublishNext() returns (published: Option<NodeMessage>)
      modifies `inbox
      ensures published.Some? <==> old(arriving).None? && old(inbox) != []
      ensures published.None? ==> inbox == old(inbox)
      ensures published.Some? ==>
        var t := old(inbox)[0];
        && published.value == NodeMessage(profile.id, if t.to.Some? then Direct(t.to.value) else Broadcast, t.data)
        && inbox == old(inbox)[1..]
      ensures State() == Unload(old(State()))
      ensures published == if old(Publishes(State())) then Some(Published(profile, old(inbox)[0])) else None
    {
      published := None;
      if arriving.None? && inbox != [] {
        var t := inbox[0];
        published := Some(NodeMessage(profile.id, if t.to.None? then Broadcast else Direct(t.to.value), t.data));
        inbox := inbox[1..];
      }
    }

    /** True when the node was free to take up the message. */
    method HandleGossip(m: NodeMessage) returns (taken: bool)
      modifies `arriving
      ensures taken <==> old(arriving).None?
      ensures old(arriving).None? && (m.messageType == Broadcast || m.messageType == Direct(profile.id)) ==>
        arriving == Some(Received(m))
      ensures old(arriving).Some? || (m.messageType.Direct? && m.messageType.toPeer != profile.id) ==>
        arriving == old(arriving)
      ensures State() == Receive(profile, old(State()), m)
    {
      taken := arriving.None?;
      if !taken {
        return;
      }
      match m.messageType
      case Direct(toPeer) =>
        if toPeer == profile.id {
          arriving := Some(Received(m));
        }
      case Broadcast =>
        arriving := Some(Received(m));
    }

    /** The same for a subscription the node is told of. */
    method HandleSubscribed(topic: string, peer: string) returns (taken: bool)
      modifies `arriving
      ensures taken <==> old(arriving).None?
      ensures arriving == if taken then Some(Subscribed(topic, peer)) else old(arriving)
      ensures State() == Notice(old(State()), topic, peer)
    {
      taken := arriving.None?;
      if taken {
        arriving := Some(Subscribed(topic, peer));
      }
    }

    /** The node's wait for room in the outbox is over. */
    method PassOn() returns (passed: bool)
      modifies `arriving, `outbox
      ensures passed <==> old(arriving).Some? && |old(outbox)| < profile.queueSize
      ensures passed ==> arriving == None && outbox == old(outbox) + [old(arriving).value]
      ensures !passed ==> arriving == old(arriving) && outbox == old(outbox)
      ensures State() == Forward(profile, old(State()))
    {
      passed := arriving.Some? && |outbox| < profile.queueSize;
      if passed {
        outbox := outbox + [arriving.value];
        arriving := None;
      }
    }

    /** The listener's turn up to where it may have to wait. The message handler, if it is called, will send
        the given messages. */
    method ListenOnce(sends: seq<Draft>) returns (handled: seq<AgentMessage>)
      modifies `outbox, `errand, `connectedAgents, `introducing, `introduced
      ensures old(errand).Some? || old(outbox) == [] ==> handled == [] && State() == old(State())
      ensures old(errand).None? && old(outbox) != [] ==> outbox == old(outbox)[1..]
      ensures old(errand).None? && old(outbox) != [] ==>
        match old(outbox)[0]
        case Subscribed(topic, peer) =>
          && handled == [] && introduced == old(introduced) && connectedAgents == old(connectedAgents)
          && errand == (if peer !in connectedAgents && profile.admin then Some(Announce(topic)) else None)
          && introducing ==
               old(introducing) + if peer !in connectedAgents && !profile.admin then multiset{topic} else multiset{}
        case Received(m) =>
          match m.data
          case AppMessage(_, _, messageType) =>
            && handled == (if messageType == Broadcast || messageType == Direct(profile.id) then [m.data] else [])
            && errand == (if handled != [] && sends != [] then Some(Submitting(sends[0], sends[1..])) else None)
            && (introduced, introducing, connectedAgents) == old((introduced, introducing, connectedAgents))
          case AgentIntroduction(id, role, name, topic) =>
            && handled == [] && errand == Some(Acknowledge(topic, AgentDetail(name, id, role)))
            && connectedAgents == old(connectedAgents)[id := AgentDetail(name, id, role)]
            && introduced == old(introduced) && introducing == old(introducing)
          case AgentRegistrationAck(_, status) =>
            && handled == [] && errand == None && introduced == (old(introduced) || status)
            && introducing == old(introducing) && connectedAgents == old(connectedAgents)
      ensures Turn(State(), handled, []) == Listen(profile, old(State()), sends)
    {
      handled := [];
      if errand.Some? || outbox == [] {
        return;
      }
      match outbox[0] {
        case Subscribed(topic, peer) =>
          if peer !in connectedAgents {
            if profile.admin {
              errand := Some(Announce(topic));
            } else {
              introducing := introducing + multiset{topic};
            }
          }
        case Received(m) =>
          match m.data {
            case AppMessage(_, _, messageType) =>
              if messageType.Broadcast? || messageType.toPeer == profile.id {
                handled := [m.data];
                errand := Awaiting(sends);
              }
            case AgentIntroduction(id, role, name, topic) =>
              var detail := AgentDetail(name, id, role);
              connectedAgents := connectedAgents[id := detail];
              errand := Some(Acknowledge(topic, detail));
            case AgentRegistrationAck(_, status) =>
              introduced := introduced || status;
          }
      }
      outbox := outbox[1..];
    }

    /** The listener goes on if there is room for what it waits to send. The connection handler, if it is
        called then, will send the given messages. */
    method RunErrand(sends: seq<Draft>) returns (connections: seq<Connection>)
      modifies `channel, `inbox, `errand
      ensures connections != [] <==>
        old(errand).Some? && old(errand).value.Acknowledge? && |old(inbox)| < profile.queueSize
      ensures old(errand).Some? && old(errand).value.Acknowledge? && |old(inbox)| < profile.queueSize ==>
        && connections == [Connection(old(errand).value.topic, old(errand).value.agent, connectedAgents)]
        && inbox == old(inbox) + [Transport(profile.id, AgentRegistrationAck(old(errand).value.agent.id, true), None)]
        && errand == (if sends != [] then Some(Submitting(sends[0], sends[1..])) else None) && channel == old(channel)
      ensures old(errand).Some? && old(errand).value.Announce? && |old(inbox)| < profile.queueSize ==>
        var role := if profile.role.Some? then profile.role.value else "";
        var introduction := AgentIntroduction(profile.id, role, profile.name, old(errand).value.topic);
        && inbox == old(inbox) + [Transport(profile.id, introduction, None)]
        && errand == None && channel == old(channel)
      ensures old(errand).Some? && old(errand).value.Submitting? && |old(channel)| < profile.channelSize ==>
        var sender := AgentDetail(profile.name, profile.id, if profile.role.Some? then profile.role.value else "");
        var rest := old(errand).value.rest;
        && inbox == old(inbox) && errand == (if rest != [] then Some(Submitting(rest[0], rest[1..])) else None)
        && channel == old(channel) + [match old(errand).value.first
             case ToOne(to, payload) => Transport(profile.id, AppMessage(sender, payload, Direct(to)), Some(to))
             case ToAll(payload) => Transport(profile.id, AppMessage(sender, payload, Broadcast), None)]
      ensures old(errand).None? ==> State() == old(State())
      ensures old(errand).Some? && old(errand).value.Submitting? && |old(channel)| >= profile.channelSize ==>
        State() == old(State())
      ensures old(errand).Some? && !old(errand).value.Submitting? && |old(inbox)| >= profile.queueSize ==>
        State() == old(State())
      ensures Turn(State(), [], connections) == Proceed(profile, old(State()), sends)
    {
      connections := [];
      if errand.None? {
        return;
      }
      match errand.value {
        case Acknowledge(topic, agent) =>
          if |inbox| < profile.queueSize {
            inbox := inbox + [profile.Ack(agent.id)];
            connections := [Connection(topic, agent, connectedAgents)];
            errand := Awaiting(sends);
          }
        case Announce(topic) =>
          if |inbox| < profile.queueSize {
            inbox := inbox + [profile.Introduction(topic)];
            errand := None;
          }
        case Submitting(first, rest) =>
          if |channel| < profile.channelSize {
            channel := channel + [profile.Outgoing(first)];
            errand := Awaiting(rest);
          }
      }
    }

    /** A task that is not about to send looks whether introductions are cancelled; if not, it will send next. */
    method CheckIntroduction(topic: string)
      modifies `introducing, `armed
      ensures old(introducing)[topic] <= old(armed)[topic] ==> introducing == old(introducing) && armed == old(armed)
      ensures old(introducing)[topic] > old(armed)[topic] && introduced ==>
        introducing == old(introducing) - multiset{topic} && armed == old(armed)
      ensures old(introducing)[topic] > old(armed)[topic] && !introduced ==>
        introducing == old(introducing) && armed == old(armed) + multiset{topic}
      ensures State() == Check(old(State()), topic)
    {
      if introducing[topic] > armed[topic] {
        if introduced {
          introducing := introducing - multiset{topic};
        } else {
          armed := armed + multiset{topic};
        }
      }
    }

    /** A task that has looked sends the introduction as soon as there is room. */
    method SendIntroduction(topic: string) returns (sent: bool)
      modifies `armed, `inbox
      ensures sent <==> topic in old(armed) && |old(inbox)| < profile.queueSize
      ensures !sent ==> armed == old(armed) && inbox == old(inbox)
      ensures sent ==>
        var role := if profile.role.Some? then profile.role.value else "";
        && inbox == old(inbox) + [Transport(profile.id, AgentIntroduction(profile.id, role, profile.name, topic), None)]
        && armed == old(armed) - multiset{topic}
      ensures State() == Introduce(profile, old(State()), topic)
    {
      sent := topic in armed && |inbox| < profile.queueSize;
      if sent {
        armed := armed - multiset{topic};
        inbox := inbox + [profile.Introduction(topic)];
      }
    }
  }
}
