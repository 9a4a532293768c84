/** What gets through if the gossip layer loses nothing: every message reaches every agent it is for, as often
    as it was sent. */
module NetworkDelivery {
  import opened Agents
  import opened Network
  import opened NetworkListening
  import opened NetworkResults

  ghost predicate Lossless(sched: nat -> Event) {
    forall n :: !sched(n).Lose?
  }

  /** Agent q has got the message, or may still get it, as often as its sender has published it. */
  ghost predicate Balanced(c: Setup, s: Sys, q: string, d: AgentMessage) {
    q in s.locals && d.AppMessage? && Surplus(c, s.locals, s.air, q, d) == 0
  }

  lemma BalancedInitially(c: Setup, q: string, d: AgentMessage)
    requires q in c.profiles && d.AppMessage?
    ensures Balanced(c, Initial(c), q, d)
  {
  }

  lemma BalancedNext(c: Setup, sched: nat -> Event, n: nat, q: string, d: AgentMessage)
    requires c.Valid() && Balanced(c, At(c, sched, n), q, d) && !sched(n).Lose? && IsFor(d, q)
    ensures Balanced(c, At(c, sched, n + 1), q, d)
  {
    InvAlways(c, sched, n);
    if Happens(c, At(c, sched, n), sched(n)) {
      SurplusKept(c, At(c, sched, n), sched(n), q, d);
    }
  }

  lemma {:induction false} BalancedAlways(c: Setup, sched: nat -> Event, n: nat, q: string, d: AgentMessage)
    requires c.Valid() && Lossless(sched) && q in c.profiles && d.AppMessage? && IsFor(d, q)
    ensures Balanced(c, At(c, sched, n), q, d)
  {
    if n == 0 {
      BalancedInitially(c, q, d);
    } else {
      BalancedAlways(c, sched, n - 1, q, d);
      BalancedNext(c, sched, n - 1, q, d);
    }
  }

  /** If nothing is lost, a message for everyone, or a direct message for agent q, has passed the node of agent q
      or is on its way there exactly as often as its sender, another agent, has published it. */
  lemma PublishedArrives(c: Setup, sched: nat -> Event, n: nat, p: string, q: string, d: AgentMessage)
    requires c.Valid() && Lossless(sched) && p in c.profiles && q in c.profiles && p != q
    requires d.AppMessage? && d.sender.id == p && (d.messageType == Broadcast || d.messageType == Direct(q))
    ensures p in At(c, sched, n).locals && q in At(c, sched, n).locals
    ensures var s := At(c, sched, n);
      multiset(s.locals[q].arrived)[d] + s.air[Packet(q, NodeMessage(p, d.messageType, d))]
      == Occurrences(s.locals[p].published, d)
  {
    LocalAlways(c, sched, n, p);
    BalancedAlways(c, sched, n, q, d);
  }

  /** What an agent has accepted and not yet published. */
  function Unpublished(a: Agent): seq<Transport> {
    a.inbox + (if a.held.Some? then [a.held.value] else []) + a.channel
  }

  lemma SubmittedIsSomewhere(l: Local, d: AgentMessage)
    requires l.submitted == Apps(l.published) + Apps(l.agent.inbox) + Queued(l.agent) && d.AppMessage?
    ensures Occurrences(l.submitted, d) == Occurrences(l.published, d) + Occurrences(Unpublished(l.agent), d)
  {
    OccurrencesOfStages(l.published, l.agent.inbox, Queued(l.agent), d);
    assert Unpublished(l.agent) == l.agent.inbox + Queued(l.agent);
  }

  lemma ArrivedIsSomewhere(p: Profile, l: Local, d: AgentMessage)
    requires LocalOk(p, l)
    ensures multiset(l.arrived)[d] == multiset(l.handled)[d] + multiset(Waiting(Line(l.agent)))[d]
  {
    assert l.arrived == l.handled + Waiting(Line(l.agent));
  }

  /** If nothing is lost, messages are conserved: as often as an agent has submitted one, each agent it is for has
      handled it, or has it in line for its listener, or it is in the air to that agent, or it has not left its
      sender yet. */
  lemma MessagesAreConserved(c: Setup, sched: nat -> Event, n: nat, p: string, q: string, d: AgentMessage)
    requires c.Valid() && Lossless(sched) && p in c.profiles && q in c.profiles && p != q
    requires d.AppMessage? && d.sender.id == p && (d.messageType == Broadcast || d.messageType == Direct(q))
    ensures p in At(c, sched, n).locals && q in At(c, sched, n).locals
    ensures var s := At(c, sched, n);
      Occurrences(s.locals[p].submitted, d)
      == multiset(s.locals[q].handled)[d] + multiset(Waiting(Line(s.locals[q].agent)))[d]
         + s.air[Packet(q, NodeMessage(p, d.messageType, d))] + Occurrences(Unpublished(s.locals[p].agent), d)
  {
    PublishedArrives(c, sched, n, p, q, d);
    LocalAlways(c, sched, n, p);
    LocalAlways(c, sched, n, q);
    SubmittedIsSomewhere(At(c, sched, n).locals[p], d);
    ArrivedIsSomewhere(c.profiles[q], At(c, sched, n).locals[q], d);
  }

  // ----- messages of every kind -----

  /** How often an agent has published a message, given what it handed to publish. */
  function Copied(p: Profile, published: seq<Transport>, m: NodeMessage): nat {
    if published == [] then 0
    else Copied(p, published[..|published| - 1], m) + if Published(p, published[|published| - 1]) == m then 1 else 0
  }

  /** The node of agent q has taken the message up, or may still do so, as often as its creator has published it. */
  ghost predicate Even(c: Setup, locals: map<string, Local>, air: multiset<Packet>, q: string, m: NodeMessage) {
    && q in locals && m.createdBy in c.profiles && m.createdBy in locals
    && multiset(locals[q].taken)[Received(m)] + air[Packet(q, m)]
       == Copied(c.profiles[m.createdBy], locals[m.createdBy].published, m)
  }

  /** The message comes from another agent and is for everyone or for agent q. */
  predicate Concerns(m: NodeMessage, q: string) {
    m.createdBy != q && (m.messageType == Broadcast || m.messageType == Direct(q))
  }

  lemma CopiedAppend(p: Profile, published: seq<Transport>, t: Transport, m: NodeMessage)
    ensures Copied(p, published + [t], m) == Copied(p, published, m) + if Published(p, t) == m then 1 else 0
  {
    assert (published + [t])[..|published|] == published;
  }

  lemma CopyOnce(c: Setup, at: string, published: NodeMessage, q: string, m: NodeMessage)
    requires q in c.profiles
    ensures Copies(c, at, published)[Packet(q, m)] == if published == m && q != at then 1 else 0
  {
  }

  lemma EvenAfterPublish(c: Setup, s: Sys, at: string, q: string, m: NodeMessage)
    requires c.Valid() && at in c.profiles && q in c.profiles && at in s.locals && Publishes(s.locals[at].agent)
    requires Even(c, s.locals, s.air, q, m) && Concerns(m, q)
    ensures Even(c, s.locals[at := Publishing(s.locals[at])], Air(c, s, Publish(at)), q, m)
  {
    var l := s.locals[at];
    var t := l.agent.inbox[0];
    PublishesOne(l);
    CopiedAppend(c.profiles[at], l.published, t, m);
    CopyOnce(c, at, Published(c.profiles[at], t), q, m);
  }

  lemma TakenOnce(taken: seq<Incoming>, last: Incoming, i: Incoming)
    ensures multiset(taken + [last])[i] == multiset(taken)[i] + if last == i then 1 else 0
  {
  }

  lemma EvenAfterArrival(c: Setup, s: Sys, packet: Packet, q: string, m: NodeMessage)
    requires c.Valid() && packet.to in c.profiles && Lands(s, packet)
    requires Even(c, s.locals, s.air, q, m) && Concerns(m, q)
    ensures var l' := Arriving(c.profiles[packet.to], s.locals[packet.to], packet.message);
      Even(c, s.locals[packet.to := l'], s.air - multiset{packet}, q, m)
  {
    var l := s.locals[packet.to];
    var l' := Arriving(c.profiles[packet.to], l, packet.message);
    assert l'.published == l.published;
    if l'.taken != l.taken {
      assert l'.taken == l.taken + [Received(packet.message)];
      TakenOnce(l.taken, Received(packet.message), Received(m));
    }
  }

  /** Nothing else publishes messages or takes them up. */
  lemma EvenElsewhere(p: Profile, l: Local, e: Event, m: NodeMessage)
    requires !e.Publish? && !e.Arrive?
    ensures var l' := Acting(p, l, e);
      l'.published == l.published && multiset(l'.taken)[Received(m)] == multiset(l.taken)[Received(m)]
  {
    var l' := Acting(p, l, e);
    if e.NoticePeer? && l'.taken != l.taken {
      TakenOnce(l.taken, Subscribed(e.topic, e.peer), Received(m));
    }
  }

  lemma EvenKept(c: Setup, s: Sys, e: Event, q: string, m: NodeMessage)
    requires c.Valid() && Happens(c, s, e) && !e.Lose? && q in c.profiles
    requires Even(c, s.locals, s.air, q, m) && Concerns(m, q)
    ensures Even(c, Apply(c, s, e).locals, Apply(c, s, e).air, q, m)
  {
    var at := Place(e);
    if e.Publish? {
      if Publishes(s.locals[at].agent) {
        EvenAfterPublish(c, s, at, q, m);
      } else {
        assert s.locals[at := s.locals[at]] == s.locals;
      }
    } else if e.Arrive? {
      EvenAfterArrival(c, s, e.packet, q, m);
    } else {
      EvenElsewhere(c.profiles[at], s.locals[at], e, m);
    }
  }

  lemma EvenInitially(c: Setup, q: string, m: NodeMessage)
    requires q in c.profiles && m.createdBy in c.profiles
    ensures Even(c, Initial(c).locals, Initial(c).air, q, m)
  {
  }

  lemma EvenNext(c: Setup, sched: nat -> Event, n: nat, q: string, m: NodeMessage)
    requires c.Valid() && q in c.profiles && Concerns(m, q) && !sched(n).Lose?
    requires Even(c, At(c, sched, n).locals, At(c, sched, n).air, q, m)
    ensures Even(c, At(c, sched, n + 1).locals, At(c, sched, n + 1).air, q, m)
  {
    if Happens(c, At(c, sched, n), sched(n)) {
      EvenKept(c, At(c, sched, n), sched(n), q, m);
    }
  }

  /** If nothing is lost, the node of agent q has taken up every message that concerns it, introductions and
      acknowledgements too, or has it on its way, exactly as often as its creator has published it. */
  lemma {:induction false} PublishedIsTakenUp(c: Setup, sched: nat -> Event, n: nat, q: string, m: NodeMessage)
    requires c.Valid() && Lossless(sched) && q in c.profiles && m.createdBy in c.profiles && m.createdBy != q
    requires m.messageType == Broadcast || m.messageType == Direct(q)
    ensures var s := At(c, sched, n);
      && q in s.locals && m.createdBy in s.locals
      && multiset(s.locals[q].taken)[Received(m)] + s.air[Packet(q, m)]
         == Copied(c.profiles[m.createdBy], s.locals[m.createdBy].published, m)
  {
    if n == 0 {
      EvenInitially(c, q, m);
    } else {
      PublishedIsTakenUp(c, sched, n - 1, q, m);
      EvenNext(c, sched, n - 1, q, m);
    }
  }

  // ----- registration -----

  lemma {:induction false} CopiedIsPositive(p: Profile, published: seq<Transport>, t: Transport)
    requires t in published
    ensures Copied(p, published, Published(p, t)) > 0
  {
    if published[|published| - 1] != t {
      CopiedIsPositive(p, published[..|published| - 1], t);
    }
  }

  lemma {:induction false} IntroducedIsRegistered(seen: seq<Incoming>, i: Incoming)
    requires i in seen && i.Received? && i.message.data.AgentIntroduction?
    ensures i.message.data.id in Registry(seen)
  {
    if seen[|seen| - 1] != i {
      IntroducedIsRegistered(seen[..|seen| - 1], i);
    }
  }

  /** If nothing is lost, each introduction that an agent has published is on its way to every other agent, or
      waits there for the listener, or that agent has registered it. */
  lemma IntroductionsRegister(c: Setup, sched: nat -> Event, n: nat, p: string, q: string, t: Transport)
    requires c.Valid() && Lossless(sched) && p in c.profiles && q in c.profiles && p != q
    requires p in At(c, sched, n).locals && t in At(c, sched, n).locals[p].published && t.data.AgentIntroduction?
    ensures var s := At(c, sched, n);
      var m := NodeMessage(p, Broadcast, t.data);
      && q in s.locals
      && (Packet(q, m) in s.air || Received(m) in Line(s.locals[q].agent) || Registered(s, q, p))
  {
    var s := At(c, sched, n);
    var m := Published(c.profiles[p], t);
    LocalAlways(c, sched, n, p);
    assert Own(c.profiles[p], s.locals[p].agent.connected.Keys, t);
    CopiedIsPositive(c.profiles[p], s.locals[p].published, t);
    PublishedIsTakenUp(c, sched, n, q, m);
    var seen := ListenerFollowsEvents(c, sched, n, q);
    if Received(m) in s.locals[q].taken && Received(m) !in Line(s.locals[q].agent) {
      assert Received(m) in seen;
      IntroducedIsRegistered(seen, Received(m));
    }
  }
}
