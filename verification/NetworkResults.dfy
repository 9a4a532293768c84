/** What every run of the network guarantees: order and number of deliveries, and a truthful registry. */
module NetworkResults {
  import opened Common
  import opened Agents
  import opened Network

  // ----- the invariant of the whole network -----

  /** The message is what its creator made of something it handed to publish. */
  ghost predicate PublishedBy(c: Setup, s: Sys, m: NodeMessage) {
    && m.createdBy in c.profiles && m.createdBy in s.locals
    && exists t :: t in s.locals[m.createdBy].published && m == Published(c.profiles[m.createdBy], t)
  }

  ghost predicate LocalsOk(c: Setup, s: Sys) {
    && s.locals.Keys == c.profiles.Keys
    && forall p :: p in c.profiles ==> LocalOk(c.profiles[p], s.locals[p])
  }

  ghost predicate PacketOk(c: Setup, s: Sys, k: Packet) {
    k.to in c.profiles && k.to != k.message.createdBy && PublishedBy(c, s, k.message)
  }

  ghost predicate AirOk(c: Setup, s: Sys) {
    forall k :: k in s.air ==> PacketOk(c, s, k)
  }

  ghost predicate LineOk(c: Setup, s: Sys, line: seq<Incoming>) {
    forall i :: i in line && i.Received? ==> PublishedBy(c, s, i.message)
  }

  ghost predicate LinesOk(c: Setup, s: Sys) {
    forall q :: q in s.locals ==> LineOk(c, s, Line(s.locals[q].agent))
  }

  /** A registry holds true details only. */
  ghost predicate Truthful(c: Setup, connected: map<string, AgentDetail>) {
    forall k :: k in connected ==> k in c.profiles && connected[k] == c.profiles[k].Details()
  }

  ghost predicate RegistriesOk(c: Setup, s: Sys) {
    forall q :: q in s.locals ==> Truthful(c, s.locals[q].agent.connected)
  }

  /** How often a message is among those handed to publish. */
  function Occurrences(ts: seq<Transport>, d: AgentMessage): nat {
    if ts == [] then 0 else Occurrences(ts[..|ts| - 1], d) + if ts[|ts| - 1].data == d then 1 else 0
  }

  /** How often agent q can get a message: as often as its true sender, another agent, has published it. */
  ghost function Bound(c: Setup, locals: map<string, Local>, q: string, d: AgentMessage): nat
    requires d.AppMessage?
  {
    if d.sender.id in c.profiles && d.sender.id in locals && d.sender.id != q then
      Occurrences(locals[d.sender.id].published, d)
    else 0
  }

  /** The copy of an application message that travels to agent q. */
  function PacketOf(q: string, d: AgentMessage): Packet
    requires d.AppMessage?
  {
    Packet(q, NodeMessage(d.sender.id, d.messageType, d))
  }

  /** How often it has got the message or may still get it, compared with that. */
  ghost function Surplus(c: Setup, locals: map<string, Local>, air: multiset<Packet>, q: string, d: AgentMessage): int
    requires d.AppMessage? && q in locals
  {
    multiset(locals[q].arrived)[d] + air[PacketOf(q, d)] - Bound(c, locals, q, d)
  }

  ghost predicate CountOk(c: Setup, locals: map<string, Local>, air: multiset<Packet>, q: string, d: AgentMessage)
    requires d.AppMessage? && q in locals
  {
    Surplus(c, locals, air, q, d) <= 0
  }

  /** The message is for everyone or for agent q. */
  predicate IsFor(d: AgentMessage, q: string)
    requires d.AppMessage?
  {
    d.messageType == Broadcast || d.messageType == Direct(q)
  }

  ghost predicate CountsOk(c: Setup, s: Sys) {
    forall q, d: AgentMessage :: q in s.locals && d.AppMessage? ==> CountOk(c, s.locals, s.air, q, d)
  }

  ghost predicate Inv(c: Setup, s: Sys) {
    LocalsOk(c, s) && AirOk(c, s) && LinesOk(c, s) && RegistriesOk(c, s) && CountsOk(c, s)
  }

  // ----- facts about single steps -----

  /** What has happened is never undone. */
  lemma ActingGrows(p: Profile, l: Local, e: Event)
    ensures var l' := Acting(p, l, e);
      && l.submitted <= l'.submitted && l.published <= l'.published && l.arrived <= l'.arrived
      && l.handled <= l'.handled && l.connections <= l'.connections
      && l.agent.connected.Keys <= l'.agent.connected.Keys
  {
  }

  /** Only publishing adds to what was published. */
  lemma PublishedElsewhere(p: Profile, l: Local, e: Event)
    requires !e.Publish?
    ensures Acting(p, l, e).published == l.published
  {
  }

  /** Only arrivals add to what arrived. */
  lemma ArrivedElsewhere(p: Profile, l: Local, e: Event)
    requires !e.Arrive?
    ensures Acting(p, l, e).arrived == l.arrived
  {
  }

  /** Only the listener registers agents. */
  lemma ConnectedElsewhere(p: Profile, l: Local, e: Event)
    requires !e.ListenAt?
    ensures Acting(p, l, e).agent.connected == l.agent.connected
  {
  }

  /** Nothing but an arriving message is put in line. */
  lemma LineElsewhere(p: Profile, l: Local, e: Event, i: Incoming)
    requires i in Line(Acting(p, l, e).agent) && i.Received?
    ensures i in Line(l.agent) || (e.Arrive? && i == Received(e.packet.message))
  {
    if i in Acting(p, l, e).agent.outbox {
      OutboxElsewhere(p, l, e, i);
    }
  }

  lemma OutboxElsewhere(p: Profile, l: Local, e: Event, i: Incoming)
    requires i in Acting(p, l, e).agent.outbox
    ensures i in Line(l.agent)
  {
  }

  lemma LineKept(c: Setup, s: Sys, p: Profile, l: Local, e: Event)
    requires LineOk(c, s, Line(l.agent))
    requires e.Arrive? ==> PublishedBy(c, s, e.packet.message)
    ensures LineOk(c, s, Line(Acting(p, l, e).agent))
  {
    forall i | i in Line(Acting(p, l, e).agent) && i.Received?
      ensures PublishedBy(c, s, i.message)
    {
      LineElsewhere(p, l, e, i);
    }
  }

  /** The true description of an agent: its name, its id, and its role, which may be absent. */
  ghost function Described(c: Setup, p: string): AgentDetail
    requires p in c.profiles
  {
    AgentDetail(c.profiles[p].name, p, match c.profiles[p].role case None => "" case Some(role) => role)
  }

  /** What a published message says about its creator is true. */
  lemma PublishedIsTrue(c: Setup, s: Sys, m: NodeMessage)
    requires c.Valid() && LocalsOk(c, s) && PublishedBy(c, s, m)
    ensures Agrees(m)
    ensures m.data.AppMessage? ==> m.data.sender == Described(c, m.createdBy) && m.data.sender.id == m.createdBy
    ensures m.data.AgentIntroduction? ==>
      AgentDetail(m.data.name, m.data.id, m.data.role) == Described(c, m.createdBy) && m.data.id == m.createdBy
    ensures m.data.AgentRegistrationAck? ==> m.data.id in s.locals[m.createdBy].agent.connected
  {
    var p := m.createdBy;
    var t :| t in s.locals[p].published && m == Published(c.profiles[p], t);
    assert LocalOk(c.profiles[p], s.locals[p]);
    assert Own(c.profiles[p], s.locals[p].agent.connected.Keys, t);
  }

  /** The local part of a step that happens at some agent. */
  ghost predicate Happens(c: Setup, s: Sys, e: Event) {
    Place(e) in c.profiles && Place(e) in s.locals && (e.Arrive? ==> Lands(s, e.packet))
  }

  lemma PublishedStays(c: Setup, s: Sys, e: Event, m: NodeMessage)
    requires Happens(c, s, e) && PublishedBy(c, s, m)
    ensures PublishedBy(c, Apply(c, s, e), m)
  {
  }

  // ----- preservation -----

  lemma LocalsKept(c: Setup, s: Sys, e: Event)
    requires c.Valid() && Inv(c, s) && Happens(c, s, e)
    ensures LocalsOk(c, Apply(c, s, e))
  {
    var at := Place(e);
    if e.Arrive? {
      PublishedIsTrue(c, s, e.packet.message);
    }
    ActingKept(c.profiles[at], s.locals[at], e);
    LocalsElsewhere(c, s, e, Acting(c.profiles[at], s.locals[at], e));
  }

  lemma LocalsElsewhere(c: Setup, s: Sys, e: Event, l: Local)
    requires LocalsOk(c, s) && Happens(c, s, e) && LocalOk(c.profiles[Place(e)], l)
    ensures LocalsOk(c, Sys(s.locals[Place(e) := l], Air(c, s, e)))
  {
  }

  /** A fresh copy is addressed to another agent and stems from what was just published. */
  lemma CopyIsPublished(c: Setup, s: Sys, at: string, k: Packet)
    requires c.Valid() && LocalsOk(c, s) && at in c.profiles && Publishes(s.locals[at].agent)
    requires k in Copies(c, at, Published(c.profiles[at], s.locals[at].agent.inbox[0]))
    ensures k.to in c.profiles && k.to != k.message.createdBy
    ensures k.message == Published(c.profiles[at], s.locals[at].agent.inbox[0])
  {
  }

  lemma JustPublished(c: Setup, s: Sys, at: string)
    requires c.Valid() && LocalsOk(c, s) && at in c.profiles && Publishes(s.locals[at].agent)
    ensures PublishedBy(c, Apply(c, s, Publish(at)), Published(c.profiles[at], s.locals[at].agent.inbox[0]))
  {
    var t := s.locals[at].agent.inbox[0];
    var published := Apply(c, s, Publish(at)).locals[at].published;
    assert published == s.locals[at].published + [t];
    assert t in published;
  }

  lemma PacketKept(c: Setup, s: Sys, e: Event, k: Packet)
    requires c.Valid() && LocalsOk(c, s) && AirOk(c, s) && Happens(c, s, e) && k in Air(c, s, e)
    ensures PacketOk(c, Apply(c, s, e), k)
  {
    if k in s.air {
      PublishedStays(c, s, e, k.message);
    } else {
      CopyIsPublished(c, s, Place(e), k);
      JustPublished(c, s, Place(e));
    }
  }

  lemma AirKept(c: Setup, s: Sys, e: Event)
    requires c.Valid() && LocalsOk(c, s) && AirOk(c, s) && Happens(c, s, e)
    ensures AirOk(c, Apply(c, s, e))
  {
    forall k | k in Air(c, s, e)
      ensures PacketOk(c, Apply(c, s, e), k)
    {
      PacketKept(c, s, e, k);
    }
  }

  lemma LinesKept(c: Setup, s: Sys, e: Event)
    requires c.Valid() && Inv(c, s) && Happens(c, s, e)
    ensures LinesOk(c, Apply(c, s, e))
  {
    var s' := Apply(c, s, e);
    var at := Place(e);
    assert LineOk(c, s, Line(s.locals[at].agent));
    LineKept(c, s, c.profiles[at], s.locals[at], e);
    forall q, i | q in s'.locals && i in Line(s'.locals[q].agent) && i.Received?
      ensures PublishedBy(c, s', i.message)
    {
      assert LineOk(c, s, Line(s'.locals[q].agent));
      PublishedStays(c, s, e, i.message);
    }
  }

  /** Registering a true introduction keeps the registry truthful. */
  lemma ListenTruthful(c: Setup, p: Profile, l: Local, sends: seq<Draft>)
    requires Truthful(c, l.agent.connected)
    requires l.agent.outbox != [] && l.agent.outbox[0].Received? ==>
      var d := l.agent.outbox[0].message.data;
      d.AgentIntroduction? ==> d.id in c.profiles && AgentDetail(d.name, d.id, d.role) == c.profiles[d.id].Details()
    ensures Truthful(c, Listening(p, l, sends).agent.connected)
  {
  }

  lemma RegistriesKept(c: Setup, s: Sys, e: Event)
    requires c.Valid() && Inv(c, s) && Happens(c, s, e)
    ensures RegistriesOk(c, Apply(c, s, e))
  {
    var at := Place(e);
    var l := s.locals[at];
    assert Truthful(c, l.agent.connected);
    if e.ListenAt? {
      if l.agent.outbox != [] && l.agent.outbox[0].Received? {
        assert LineOk(c, s, Line(l.agent)) && l.agent.outbox[0] in Line(l.agent);
        PublishedIsTrue(c, s, l.agent.outbox[0].message);
      }
      ListenTruthful(c, c.profiles[at], l, e.sends);
    } else {
      ConnectedElsewhere(c.profiles[at], l, e);
    }
    RegistriesElsewhere(c, s, e);
  }

  lemma RegistriesElsewhere(c: Setup, s: Sys, e: Event)
    requires RegistriesOk(c, s) && Happens(c, s, e)
    requires Truthful(c, Acting(c.profiles[Place(e)], s.locals[Place(e)], e).agent.connected)
    ensures RegistriesOk(c, Apply(c, s, e))
  {
  }

  lemma OccurrencesAppend(ts: seq<Transport>, t: Transport, d: AgentMessage)
    ensures Occurrences(ts + [t], d) == Occurrences(ts, d) + if t.data == d then 1 else 0
  {
  }

  /** Publishing raises the bound of the other agents by one. */
  lemma BoundRaised(
    c: Setup, locals: map<string, Local>, at: string, l: Local, t: Transport, q: string, d: AgentMessage)
    requires at in locals && at in c.profiles && l.published == locals[at].published + [t] && d.AppMessage?
    ensures Bound(c, locals[at := l], q, d)
         == Bound(c, locals, q, d) + if t.data == d && d.sender.id == at && q != at then 1 else 0
  {
  }

  lemma SameBound(c: Setup, locals: map<string, Local>, at: string, l: Local, q: string, d: AgentMessage)
    requires at in locals && l.published == locals[at].published && d.AppMessage?
    ensures Bound(c, locals[at := l], q, d) == Bound(c, locals, q, d)
  {
  }

  /** The oldest message of an inbox carries its agent's own id. */
  lemma InboxIsOwn(c: Setup, s: Sys, at: string)
    requires c.Valid() && LocalsOk(c, s) && at in c.profiles && Publishes(s.locals[at].agent)
    ensures var t := s.locals[at].agent.inbox[0];
      t.data.AppMessage? ==>
        t.data.sender.id == at && t.to == if t.data.messageType.Direct? then Some(t.data.messageType.toPeer) else None
  {
    var l := s.locals[at];
    assert LocalOk(c.profiles[at], l);
    assert Own(c.profiles[at], l.agent.connected.Keys, l.agent.inbox[0]);
  }

  /** Publishing puts one copy per other agent in the air. */
  lemma CopyCounted(c: Setup, at: string, t: Transport, q: string, d: AgentMessage)
    requires c.Valid() && at in c.profiles && q in c.profiles && d.AppMessage?
    requires t.data.AppMessage? ==>
      t.data.sender.id == at && t.to == if t.data.messageType.Direct? then Some(t.data.messageType.toPeer) else None
    ensures Copies(c, at, Published(c.profiles[at], t))[PacketOf(q, d)]
         == if t.data == d && d.sender.id == at && q != at then 1 else 0
  {
  }

  /** What publishing changes at one agent. */
  lemma PublishesOne(l: Local)
    requires Publishes(l.agent)
    ensures Publishing(l).published == l.published + [l.agent.inbox[0]]
    ensures Publishing(l).arrived == l.arrived && Publishing(l).taken == l.taken
  {
  }

  /** Whatever else happens at one agent, no other message has arrived. */
  lemma SameArrived(locals: map<string, Local>, at: string, l: Local, q: string)
    requires at in locals && q in locals && l.arrived == locals[at].arrived
    ensures locals[at := l][q].arrived == locals[q].arrived
  {
  }

  lemma PublishCounted(c: Setup, s: Sys, at: string, q: string, d: AgentMessage)
    requires c.Valid() && LocalsOk(c, s) && at in c.profiles && q in s.locals && d.AppMessage?
    ensures Surplus(c, s.locals[at := Publishing(s.locals[at])], Air(c, s, Publish(at)), q, d)
         == Surplus(c, s.locals, s.air, q, d)
  {
    var l := s.locals[at];
    if Publishes(l.agent) {
      var t, l' := l.agent.inbox[0], Publishing(l);
      PublishesOne(l);
      InboxIsOwn(c, s, at);
      CopyCounted(c, at, t, q, d);
      BoundRaised(c, s.locals, at, l', t, q, d);
      SameArrived(s.locals, at, l', q);
      assert Air(c, s, Publish(at)) == s.air + Copies(c, at, Published(c.profiles[at], t));
    } else {
      assert s.locals[at := l] == s.locals;
    }
  }

  lemma ArrivedOnce(arrived: seq<AgentMessage>, last: AgentMessage, d: AgentMessage)
    ensures multiset(arrived + [last])[d] == multiset(arrived)[d] + if last == d then 1 else 0
  {
  }

  /** An arrival moves one copy from the air to the agent, or drops it if it is for another agent. */
  lemma ArriveCounted(c: Setup, s: Sys, packet: Packet, q: string, d: AgentMessage)
    requires c.Valid() && LocalsOk(c, s) && packet.to in c.profiles && Lands(s, packet)
    requires q in s.locals && d.AppMessage?
    requires packet.message.data.AppMessage? ==>
      Agrees(packet.message) && packet.message.data.sender.id == packet.message.createdBy
    ensures var l' := Arriving(c.profiles[packet.to], s.locals[packet.to], packet.message);
      var more := Surplus(c, s.locals[packet.to := l'], s.air - multiset{packet}, q, d)
                  - Surplus(c, s.locals, s.air, q, d);
      more <= 0 && (IsFor(d, q) ==> more == 0)
  {
    var l := s.locals[packet.to];
    var l' := Arriving(c.profiles[packet.to], l, packet.message);
    SameBound(c, s.locals, packet.to, l', q, d);
    if l'.arrived != l.arrived {
      assert l'.arrived == l.arrived + [packet.message.data];
      assert packet == PacketOf(packet.to, packet.message.data);
      ArrivedOnce(l.arrived, packet.message.data, d);
    }
  }

  lemma OtherCounted(c: Setup, s: Sys, e: Event, q: string, d: AgentMessage)
    requires LocalsOk(c, s) && Place(e) in c.profiles && !e.Publish? && !e.Arrive? && q in s.locals && d.AppMessage?
    ensures var l' := Acting(c.profiles[Place(e)], s.locals[Place(e)], e);
      var more := Surplus(c, s.locals[Place(e) := l'], Air(c, s, e), q, d) - Surplus(c, s.locals, s.air, q, d);
      more <= 0 && (!e.Lose? ==> more == 0)
  {
    var at := Place(e);
    PublishedElsewhere(c.profiles[at], s.locals[at], e);
    ArrivedElsewhere(c.profiles[at], s.locals[at], e);
    SameBound(c, s.locals, at, Acting(c.profiles[at], s.locals[at], e), q, d);
  }

  /** Only a loss, or the arrival of a message for another agent, makes the account fall short. */
  lemma SurplusKept(c: Setup, s: Sys, e: Event, q: string, d: AgentMessage)
    requires c.Valid() && Inv(c, s) && Happens(c, s, e) && q in s.locals && d.AppMessage?
    ensures var s' := Apply(c, s, e);
      var more := Surplus(c, s'.locals, s'.air, q, d) - Surplus(c, s.locals, s.air, q, d);
      more <= 0 && (!e.Lose? && IsFor(d, q) ==> more == 0)
  {
    if e.Publish? {
      PublishCounted(c, s, e.at, q, d);
    } else if e.Arrive? {
      PublishedIsTrue(c, s, e.packet.message);
      ArriveCounted(c, s, e.packet, q, d);
    } else {
      OtherCounted(c, s, e, q, d);
    }
  }

  lemma CountsKept(c: Setup, s: Sys, e: Event)
    requires c.Valid() && Inv(c, s) && Happens(c, s, e)
    ensures CountsOk(c, Apply(c, s, e))
  {
    forall q, d: AgentMessage | q in Apply(c, s, e).locals && d.AppMessage?
      ensures CountOk(c, Apply(c, s, e).locals, Apply(c, s, e).air, q, d)
    {
      assert CountOk(c, s.locals, s.air, q, d);
      SurplusKept(c, s, e, q, d);
    }
  }

  lemma InvInitial(c: Setup)
    requires c.Valid()
    ensures Inv(c, Initial(c))
  {
  }

  lemma InvKept(c: Setup, s: Sys, e: Event)
    requires c.Valid() && Inv(c, s)
    ensures Inv(c, Apply(c, s, e))
  {
    if Happens(c, s, e) {
      LocalsKept(c, s, e);
      AirKept(c, s, e);
      LinesKept(c, s, e);
      RegistriesKept(c, s, e);
      CountsKept(c, s, e);
    }
  }

  lemma {:induction false} InvAlways(c: Setup, sched: nat -> Event, n: nat)
    requires c.Valid()
    ensures Inv(c, At(c, sched, n))
  {
    if n == 0 {
      InvInitial(c);
    } else {
      InvAlways(c, sched, n - 1);
      InvKept(c, At(c, sched, n - 1), sched(n - 1));
    }
  }

  // ----- what the users of an agent can rely on -----

  lemma LocalAlways(c: Setup, sched: nat -> Event, n: nat, p: string)
    requires c.Valid() && p in c.profiles
    ensures p in At(c, sched, n).locals && LocalOk(c.profiles[p], At(c, sched, n).locals[p])
  {
    InvAlways(c, sched, n);
  }

  lemma LocalFifo(p: Profile, l: Local)
    requires LocalOk(p, l)
    ensures l.submitted == Apps(l.published) + Apps(l.agent.inbox)
                           + (if l.agent.held.Some? then [l.agent.held.value] else []) + l.agent.channel
  {
  }

  /** At every step, what the application sent is, in order, what was handed to publish, then the
      application messages in the node's inbox, then the one the broadcast task holds, then the channel. */
  lemma SendingIsFifo(c: Setup, sched: nat -> Event, n: nat, p: string)
    requires c.Valid() && p in c.profiles
    ensures p in At(c, sched, n).locals
    ensures var l := At(c, sched, n).locals[p];
      && l.submitted == Apps(l.published) + Apps(l.agent.inbox)
                        + (if l.agent.held.Some? then [l.agent.held.value] else []) + l.agent.channel
      && |l.agent.channel| <= c.profiles[p].channelSize
      && |l.agent.inbox| <= c.profiles[p].queueSize && |l.agent.outbox| <= c.profiles[p].queueSize
  {
    LocalAlways(c, sched, n, p);
    LocalFifo(c.profiles[p], At(c, sched, n).locals[p]);
  }

  /** Whatever passes the node's filter passes the listener's: the handlers see all of it, in order. */
  lemma NothingPassedIsDropped(c: Setup, sched: nat -> Event, n: nat, q: string)
    requires c.Valid() && q in c.profiles
    ensures q in At(c, sched, n).locals
    ensures var l := At(c, sched, n).locals[q]; l.arrived == l.handled + Waiting(Line(l.agent))
  {
    LocalAlways(c, sched, n, q);
  }

  lemma {:induction false} OccurrencesOfApps(ts: seq<Transport>, d: AgentMessage)
    requires d.AppMessage?
    ensures Occurrences(Apps(ts), d) == Occurrences(ts, d)
  {
    if ts != [] {
      OccurrencesOfApps(ts[..|ts| - 1], d);
      if ts[|ts| - 1].data.AppMessage? {
        OccurrencesAppend(Apps(ts[..|ts| - 1]), ts[|ts| - 1], d);
      } else {
        assert Apps(ts) == Apps(ts[..|ts| - 1]);
      }
    }
  }

  lemma {:induction false} OccurrencesOfSum(a: seq<Transport>, b: seq<Transport>, d: AgentMessage)
    ensures Occurrences(a + b, d) == Occurrences(a, d) + Occurrences(b, d)
  {
    if b == [] {
      assert a + b == a;
    } else {
      assert (a + b)[..|a + b| - 1] == a + b[..|b| - 1];
      OccurrencesOfSum(a, b[..|b| - 1], d);
    }
  }

  lemma {:induction false} OccursSomewhere(ts: seq<Transport>, d: AgentMessage)
    requires Occurrences(ts, d) > 0
    ensures exists t :: t in ts && t.data == d
  {
    if ts[|ts| - 1].data != d {
      OccursSomewhere(ts[..|ts| - 1], d);
    }
  }

  /** Every message a handler gets was submitted, payload and all, by the agent whose details it shows,
      which is another one; a direct message was addressed to the agent that handles it. */
  lemma HandledWasSent(c: Setup, sched: nat -> Event, n: nat, q: string, d: AgentMessage)
    requires c.Valid() && q in c.profiles && q in At(c, sched, n).locals && d in At(c, sched, n).locals[q].handled
    ensures d.AppMessage?
    ensures var p := d.sender.id;
      && p != q && p in c.profiles && d.sender == Described(c, p)
      && p in At(c, sched, n).locals
      && Transport(p, d, if d.messageType.Direct? then Some(q) else None) in At(c, sched, n).locals[p].submitted
    ensures d.messageType.Direct? ==> d.messageType.toPeer == q
  {
    InvAlways(c, sched, n);
    HandledIsGenuine(c, At(c, sched, n), q, d);
  }

  lemma HandledIsGenuine(c: Setup, s: Sys, q: string, d: AgentMessage)
    requires c.Valid() && Inv(c, s) && q in s.locals && d in s.locals[q].handled
    ensures d.AppMessage? && PassesListener(c.profiles[q], d)
    ensures var p := d.sender.id;
      && p != q && p in c.profiles && d.sender == Described(c, p)
      && p in s.locals && Transport(p, d, if d.messageType.Direct? then Some(q) else None) in s.locals[p].submitted
  {
    var l := s.locals[q];
    assert LocalOk(c.profiles[q], l);
    assert d in l.arrived;
    assert CountOk(c, s.locals, s.air, q, d);
    assert multiset(l.arrived)[d] > 0;
    var p := d.sender.id;
    OccursSomewhere(s.locals[p].published, d);
    var t :| t in s.locals[p].published && t.data == d;
    assert LocalOk(c.profiles[p], s.locals[p]);
    assert Own(c.profiles[p], s.locals[p].agent.connected.Keys, t);
    InApps(s.locals[p].published, t);
  }

  lemma {:induction false} InApps(ts: seq<Transport>, t: Transport)
    requires t in ts && t.data.AppMessage?
    ensures t in Apps(ts)
  {
    if ts[|ts| - 1] != t {
      InApps(ts[..|ts| - 1], t);
    }
  }

  /** No agent handles a message more often than its sender submitted it. */
  lemma HandledAtMostOnce(c: Setup, sched: nat -> Event, n: nat, q: string, d: AgentMessage)
    requires c.Valid() && q in c.profiles && q in At(c, sched, n).locals && d in At(c, sched, n).locals[q].handled
    ensures d.AppMessage? && d.sender.id in At(c, sched, n).locals
    ensures multiset(At(c, sched, n).locals[q].handled)[d]
         <= Occurrences(At(c, sched, n).locals[d.sender.id].submitted, d)
  {
    InvAlways(c, sched, n);
    HandledIsGenuine(c, At(c, sched, n), q, d);
    HandledIsCounted(c, At(c, sched, n), q, d);
  }

  lemma OccurrencesOfStages(
    published: seq<Transport>, inbox: seq<Transport>, queued: seq<Transport>, d: AgentMessage)
    requires d.AppMessage?
    ensures Occurrences(Apps(published) + Apps(inbox) + queued, d)
         == Occurrences(published, d) + Occurrences(inbox + queued, d)
  {
    OccurrencesOfSum(Apps(published) + Apps(inbox), queued, d);
    OccurrencesOfSum(Apps(published), Apps(inbox), d);
    OccurrencesOfSum(inbox, queued, d);
    OccurrencesOfApps(published, d);
    OccurrencesOfApps(inbox, d);
  }

  lemma PublishedWasSubmitted(p: Profile, l: Local, d: AgentMessage)
    requires LocalOk(p, l) && d.AppMessage?
    ensures Occurrences(l.published, d) <= Occurrences(l.submitted, d)
  {
    OccurrencesOfStages(l.published, l.agent.inbox, Queued(l.agent), d);
  }

  lemma HandledHasArrived(p: Profile, l: Local, d: AgentMessage)
    requires LocalOk(p, l)
    ensures multiset(l.handled)[d] <= multiset(l.arrived)[d]
  {
  }

  lemma HandledIsCounted(c: Setup, s: Sys, q: string, d: AgentMessage)
    requires c.Valid() && Inv(c, s) && q in s.locals && d.AppMessage? && d.sender.id in s.locals
    ensures multiset(s.locals[q].handled)[d] <= Occurrences(s.locals[d.sender.id].submitted, d)
  {
    HandledHasArrived(c.profiles[q], s.locals[q], d);
    PublishedWasSubmitted(c.profiles[d.sender.id], s.locals[d.sender.id], d);
    assert CountOk(c, s.locals, s.air, q, d);
  }

  /** Every entry of every registry is the true description of the agent it is filed under. */
  lemma RegistryIsTrue(c: Setup, sched: nat -> Event, n: nat, q: string, k: string)
    requires c.Valid() && q in At(c, sched, n).locals && k in At(c, sched, n).locals[q].agent.connected
    ensures k in c.profiles && At(c, sched, n).locals[q].agent.connected[k] == Described(c, k)
  {
    InvAlways(c, sched, n);
    assert Truthful(c, At(c, sched, n).locals[q].agent.connected);
  }

  ghost predicate Registered(s: Sys, q: string, k: string) {
    q in s.locals && k in s.locals[q].agent.connected
  }

  lemma RegisteredStays(c: Setup, s: Sys, e: Event, q: string, k: string)
    requires Registered(s, q, k)
    ensures Registered(Apply(c, s, e), q, k)
  {
    if Happens(c, s, e) {
      ActingGrows(c.profiles[Place(e)], s.locals[Place(e)], e);
    }
  }

  /** Every acknowledgement on its way for an agent comes from one that has registered it. */
  lemma AcksAreDue(c: Setup, sched: nat -> Event, n: nat, packet: Packet)
    requires c.Valid() && packet in At(c, sched, n).air && packet.message.data.AgentRegistrationAck?
    ensures Registered(At(c, sched, n), packet.message.createdBy, packet.message.data.id)
  {
    InvAlways(c, sched, n);
    PublishedIsTrue(c, At(c, sched, n), packet.message);
  }

  /** When the connection handler is called for the k-th time, its agent is registered, and the agents
      connected at that moment are exactly those it has been called for so far, however often each. */
  lemma ConnectionsAreRegistered(c: Setup, sched: nat -> Event, n: nat, q: string, k: nat)
    requires c.Valid() && q in At(c, sched, n).locals && k < |At(c, sched, n).locals[q].connections|
    ensures var calls := At(c, sched, n).locals[q].connections;
      && calls[k].agent.id in calls[k].connected && calls[k].connected[calls[k].agent.id] == calls[k].agent
      && calls[k].connected.Keys == Ids(calls[..k + 1])
      && |calls[k].connected| == |Ids(calls[..k + 1])|
      && Registered(At(c, sched, n), q, calls[k].agent.id)
  {
    InvAlways(c, sched, n);
    var l := At(c, sched, n).locals[q];
    assert LocalOk(c.profiles[q], l);
    assert ConnectionOk(l.connections, k);
    assert l.connections[k] in l.connections;
    assert |l.connections[k].connected| == |l.connections[k].connected.Keys|;
  }
}
