/** Which agents can get blocked: every one that is an administrator or not alone. */
module NetworkBlocking {
  import opened Common
  import opened Agents
  import opened Network
  import opened NetworkResults
  import opened NetworkDeadlock

  // ----- lists of events -----

  /** The network after a list of events. */
  function NetAfter(c: Setup, s: Sys, es: seq<Event>): Sys {
    if es == [] then s else Apply(c, NetAfter(c, s, es[..|es| - 1]), es[|es| - 1])
  }

  lemma {:induction false} NetAppend(c: Setup, s: Sys, es: seq<Event>, more: seq<Event>)
    ensures NetAfter(c, s, es + more) == NetAfter(c, NetAfter(c, s, es), more)
  {
    if more == [] {
      assert es + more == es;
    } else {
      assert (es + more)[..|es + more| - 1] == es + more[..|more| - 1];
      NetAppend(c, s, es, more[..|more| - 1]);
    }
  }

  lemma Net1(c: Setup, s: Sys, e: Event)
    ensures NetAfter(c, s, [e]) == Apply(c, s, e)
  {
    assert [e][..0] == [];
  }

  lemma {:induction false} Scheduled(c: Setup, sched: nat -> Event, es: seq<Event>, n: nat)
    requires n <= |es| && forall k: nat :: k < |es| ==> sched(k) == es[k]
    ensures At(c, sched, n) == NetAfter(c, Initial(c), es[..n])
  {
    if n > 0 {
      Scheduled(c, sched, es, n - 1);
      assert es[..n][..n - 1] == es[..n - 1];
    }
  }

  /** Every list of events is the beginning of a schedule. */
  lemma ScheduleOf(c: Setup, es: seq<Event>) returns (sched: nat -> Event)
    ensures At(c, sched, |es|) == NetAfter(c, Initial(c), es)
  {
    sched := (k: nat) => if k < |es| then es[k] else TakeOff("");
    Scheduled(c, sched, es, |es|);
    assert es[..|es|] == es;
  }

  // ----- what an agent does by itself -----

  /** Events at agent q that take nothing from the air and put nothing there. */
  ghost predicate Internal(q: string, es: seq<Event>) {
    forall e :: e in es ==>
      Place(e) == q && (e.SendAll? || e.TakeOff? || e.Pass? || e.NoticePeer? || e.PassOn? || e.ListenAt?)
  }

  lemma InternalStep(c: Setup, s: Sys, q: string, e: Event)
    requires q in c.profiles && q in s.locals && Internal(q, [e])
    ensures Apply(c, s, e) == Sys(s.locals[q := Acting(c.profiles[q], s.locals[q], e)], s.air)
  {
    assert e in [e];
  }

  lemma {:induction false} RunsInternally(c: Setup, s: Sys, q: string, es: seq<Event>)
    requires q in c.profiles && q in s.locals && Internal(q, es)
    ensures var s' := NetAfter(c, s, es);
      s'.air == s.air && q in s'.locals && s'.locals[q] == LocalAfter(c.profiles[q], s.locals[q], es)
  {
    if es != [] {
      var init, last := es[..|es| - 1], es[|es| - 1];
      assert last in es && forall e :: e in init ==> e in es;
      RunsInternally(c, s, q, init);
      InternalStep(c, NetAfter(c, s, init), q, last);
    }
  }

  /** The application broadcasts something. */
  lemma OneIntoChannel(p: Profile, l: Local, q: string)
    requires |l.agent.channel| < p.channelSize
    ensures Acting(p, l, SendAll(q, [])).agent == l.agent.(channel := l.agent.channel + [p.BroadcastMessage([])])
  {
  }

  /** The broadcast task takes it and hands it over. */
  lemma OneIntoInbox(p: Profile, l: Local, q: string)
    requires 1 <= p.channelSize && |l.agent.inbox| < p.queueSize && l.agent.channel == [] && l.agent.held.None?
    ensures var es := [SendAll(q, [])] + [TakeOff(q)] + [Pass(q)];
      Internal(q, es) && LocalAfter(p, l, es).agent == l.agent.(inbox := l.agent.inbox + [p.BroadcastMessage([])])
  {
    var l1 := Acting(p, l, SendAll(q, []));
    After1(p, l, SendAll(q, []));
    var l2 := Acting(p, l1, TakeOff(q));
    After1(p, l1, TakeOff(q));
    After1(p, l2, Pass(q));
    AfterAppend(p, l, [SendAll(q, [])], [TakeOff(q)]);
    AfterAppend(p, l, [SendAll(q, [])] + [TakeOff(q)], [Pass(q)]);
    OneIntoChannel(p, l, q);
    assert l1.agent.channel[1..] == [];
  }

  lemma {:induction false} FillInbox(p: Profile, l: Local, q: string, n: nat) returns (es: seq<Event>)
    requires 1 <= p.channelSize && |l.agent.inbox| + n <= p.queueSize && l.agent.channel == [] && l.agent.held.None?
    ensures var a := LocalAfter(p, l, es).agent;
      Internal(q, es) && |a.inbox| == |l.agent.inbox| + n && a == l.agent.(inbox := a.inbox)
  {
    if n == 0 {
      es := [];
    } else {
      var before := FillInbox(p, l, q, n - 1);
      var one := [SendAll(q, [])] + [TakeOff(q)] + [Pass(q)];
      OneIntoInbox(p, LocalAfter(p, l, before), q);
      AfterAppend(p, l, before, one);
      es := before + one;
    }
  }

  lemma {:induction false} FillChannel(p: Profile, l: Local, q: string, n: nat) returns (es: seq<Event>)
    requires |l.agent.channel| + n <= p.channelSize
    ensures var a := LocalAfter(p, l, es).agent;
      Internal(q, es) && |a.channel| == |l.agent.channel| + n && a == l.agent.(channel := a.channel)
  {
    if n == 0 {
      es := [];
    } else {
      var before := FillChannel(p, l, q, n - 1);
      OneIntoChannel(p, LocalAfter(p, l, before), q);
      After1(p, LocalAfter(p, l, before), SendAll(q, []));
      AfterAppend(p, l, before, [SendAll(q, [])]);
      es := before + [SendAll(q, [])];
    }
  }

  /** Everything on the way out is full. */
  ghost predicate OutFull(p: Profile, a: Agent) {
    |a.inbox| == p.queueSize && a.held.Some? && |a.channel| == p.channelSize
  }

  lemma HoldOne(p: Profile, l: Local, q: string)
    requires 1 <= p.channelSize && l.agent.channel == [] && l.agent.held.None?
    ensures var es := [SendAll(q, [])] + [TakeOff(q)];
      Internal(q, es) && LocalAfter(p, l, es).agent == l.agent.(held := Some(p.BroadcastMessage([])))
  {
    var l1 := Acting(p, l, SendAll(q, []));
    After1(p, l, SendAll(q, []));
    After1(p, l1, TakeOff(q));
    AfterAppend(p, l, [SendAll(q, [])], [TakeOff(q)]);
    OneIntoChannel(p, l, q);
    assert l1.agent.channel[1..] == [];
  }

  /** Broadcasts of the application fill inbox, broadcast task and channel. */
  lemma FillOut(p: Profile, l: Local, q: string) returns (es: seq<Event>)
    requires 1 <= p.channelSize && l.agent == FRESH
    ensures var a := LocalAfter(p, l, es).agent;
      Internal(q, es) && OutFull(p, a) && a == FRESH.(inbox := a.inbox, held := a.held, channel := a.channel)
  {
    var es1 := FillInbox(p, l, q, p.queueSize);
    var l1 := LocalAfter(p, l, es1);
    var es2 := [SendAll(q, [])] + [TakeOff(q)];
    HoldOne(p, l1, q);
    AfterAppend(p, l, es1, es2);
    var l2 := LocalAfter(p, l, es1 + es2);
    var es3 := FillChannel(p, l2, q, p.channelSize);
    AfterAppend(p, l, es1 + es2, es3);
    es := es1 + es2 + es3;
  }

  // ----- blocked by messages of another agent -----

  /** The copy for agent q of an empty broadcast of agent p. */
  function Copy(c: Setup, p: string, q: string): Packet
    requires p in c.profiles
  {
    Packet(q, Published(c.profiles[p], c.profiles[p].BroadcastMessage([])))
  }

  /** Agent p has nothing to publish. */
  ghost predicate Quiet(a: Agent) {
    a.channel == [] && a.held.None? && a.inbox == [] && a.arriving.None?
  }

  lemma PublishOne(c: Setup, s: Sys, p: string, q: string)
    requires p in c.profiles && q in c.profiles && p != q && p in s.locals && q in s.locals
    requires s.locals[p].agent.arriving.None? && s.locals[p].agent.inbox == [c.profiles[p].BroadcastMessage([])]
    ensures var s' := Apply(c, s, Publish(p));
      && p in s'.locals && s'.locals[p].agent == s.locals[p].agent.(inbox := [])
      && q in s'.locals && s'.locals[q] == s.locals[q] && s'.air[Copy(c, p, q)] == s.air[Copy(c, p, q)] + 1
  {
  }

  lemma {:induction false} OtherUntouched(c: Setup, s: Sys, p: string, q: string, es: seq<Event>)
    requires p in c.profiles && p in s.locals && q in s.locals && p != q && Internal(p, es)
    ensures var s' := NetAfter(c, s, es); p in s'.locals && q in s'.locals && s'.locals[q] == s.locals[q]
  {
    if es != [] {
      var init, last := es[..|es| - 1], es[|es| - 1];
      assert last in es && forall e :: e in init ==> e in es;
      OtherUntouched(c, s, p, q, init);
      InternalStep(c, NetAfter(c, s, init), p, last);
    }
  }

  /** Agent p broadcasts once. */
  lemma OneBroadcast(c: Setup, s: Sys, p: string, q: string) returns (es: seq<Event>)
    requires p in c.profiles && q in c.profiles && p != q && p in s.locals && q in s.locals
    requires 1 <= c.profiles[p].channelSize && 1 <= c.profiles[p].queueSize && Quiet(s.locals[p].agent)
    ensures var s' := NetAfter(c, s, es);
      && p in s'.locals && Quiet(s'.locals[p].agent)
      && q in s'.locals && s'.locals[q] == s.locals[q] && s'.air[Copy(c, p, q)] == s.air[Copy(c, p, q)] + 1
  {
    var into := [SendAll(p, [])] + [TakeOff(p)] + [Pass(p)];
    OneIntoInbox(c.profiles[p], s.locals[p], p);
    RunsInternally(c, s, p, into);
    OtherUntouched(c, s, p, q, into);
    var s1 := NetAfter(c, s, into);
    assert [] + [c.profiles[p].BroadcastMessage([])] == [c.profiles[p].BroadcastMessage([])];
    PublishOne(c, s1, p, q);
    Net1(c, s1, Publish(p));
    NetAppend(c, s, into, [Publish(p)]);
    es := into + [Publish(p)];
  }

  lemma {:induction false} Broadcasts(c: Setup, s: Sys, p: string, q: string, n: nat) returns (es: seq<Event>)
    requires p in c.profiles && q in c.profiles && p != q && p in s.locals && q in s.locals
    requires 1 <= c.profiles[p].channelSize && 1 <= c.profiles[p].queueSize && Quiet(s.locals[p].agent)
    ensures var s' := NetAfter(c, s, es);
      && p in s'.locals && Quiet(s'.locals[p].agent)
      && q in s'.locals && s'.locals[q] == s.locals[q] && s'.air[Copy(c, p, q)] == s.air[Copy(c, p, q)] + n
  {
    if n == 0 {
      es := [];
    } else {
      var before := Broadcasts(c, s, p, q, n - 1);
      var one := OneBroadcast(c, NetAfter(c, s, before), p, q);
      NetAppend(c, s, before, one);
      es := before + one;
    }
  }

  /** A message for everyone reaches a node that is free. */
  lemma Arrives(c: Setup, s: Sys, k: Packet)
    requires k in s.air && k.to in c.profiles && k.to in s.locals && s.locals[k.to].agent.arriving.None?
    requires k.message.messageType.Broadcast?
    ensures var s' := Apply(c, s, Arrive(k));
      && s'.air == s.air - multiset{k} && k.to in s'.locals
      && s'.locals[k.to].agent == s.locals[k.to].agent.(arriving := Some(Received(k.message)))
  {
  }

  /** It is passed on to the listener. */
  lemma ArrivesInOutbox(c: Setup, s: Sys, k: Packet)
    requires k in s.air && k.to in c.profiles && k.to in s.locals && s.locals[k.to].agent.arriving.None?
    requires k.message.messageType.Broadcast? && |s.locals[k.to].agent.outbox| < c.profiles[k.to].queueSize
    ensures var s' := NetAfter(c, s, [Arrive(k)] + [PassOn(k.to)]);
      && s'.air == s.air - multiset{k} && k.to in s'.locals
      && s'.locals[k.to].agent == s.locals[k.to].agent.(outbox := s.locals[k.to].agent.outbox + [Received(k.message)])
  {
    Arrives(c, s, k);
    var s1 := Apply(c, s, Arrive(k));
    Net1(c, s, Arrive(k));
    Net1(c, s1, PassOn(k.to));
    NetAppend(c, s, [Arrive(k)], [PassOn(k.to)]);
    InternalStep(c, s1, k.to, PassOn(k.to));
  }

  lemma {:induction false} FillOutbox(c: Setup, s: Sys, k: Packet, n: nat) returns (es: seq<Event>)
    requires n <= s.air[k] && k.to in c.profiles && k.to in s.locals && s.locals[k.to].agent.arriving.None?
    requires k.message.messageType.Broadcast? && |s.locals[k.to].agent.outbox| + n <= c.profiles[k.to].queueSize
    ensures var s' := NetAfter(c, s, es);
      && s'.air[k] == s.air[k] - n && k.to in s'.locals
      && var a := s'.locals[k.to].agent;
         a == s.locals[k.to].agent.(outbox := a.outbox) && |a.outbox| == |s.locals[k.to].agent.outbox| + n
  {
    if n == 0 {
      es := [];
    } else {
      var before := FillOutbox(c, s, k, n - 1);
      var one := [Arrive(k)] + [PassOn(k.to)];
      ArrivesInOutbox(c, NetAfter(c, s, before), k);
      NetAppend(c, s, before, one);
      es := before + one;
    }
  }

  lemma HandlerCalled(p: Profile, a: Agent, m: NodeMessage)
    requires a.errand.None? && a.outbox == [Received(m)] && m.data.AppMessage? && m.data.messageType.Broadcast?
    ensures Listen(p, a, [ToAll([])]).agent == a.(outbox := [], errand := Some(Submitting(ToAll([]), [])))
  {
    assert [Received(m)][1..] == [] && [ToAll([])][1..] == [];
  }

  lemma HandlerStep(c: Setup, s: Sys, q: string, m: NodeMessage)
    requires q in c.profiles && q in s.locals
    requires s.locals[q].agent.errand.None? && s.locals[q].agent.outbox == [Received(m)]
    requires m.data.AppMessage? && m.data.messageType.Broadcast?
    ensures var s' := NetAfter(c, s, [ListenAt(q, [ToAll([])])]);
      && s'.air == s.air && q in s'.locals
      && s'.locals[q].agent == s.locals[q].agent.(outbox := [], errand := Some(Submitting(ToAll([]), [])))
  {
    var listen := ListenAt(q, [ToAll([])]);
    HandlerCalled(c.profiles[q], s.locals[q].agent, m);
    InternalStep(c, s, q, listen);
    Net1(c, s, listen);
  }

  /** The listener calls the handler, which sends something and has to wait. */
  lemma HandlerWaits(c: Setup, s: Sys, k: Packet) returns (es: seq<Event>)
    requires k in s.air && k.to in c.profiles && k.to in s.locals && s.locals[k.to].agent.arriving.None?
    requires k.message.messageType.Broadcast? && k.message.data.AppMessage? && k.message.data.messageType.Broadcast?
    requires 1 <= c.profiles[k.to].queueSize && s.locals[k.to].agent.outbox == [] && s.locals[k.to].agent.errand.None?
    ensures var s' := NetAfter(c, s, es);
      && s'.air == s.air - multiset{k} && k.to in s'.locals
      && s'.locals[k.to].agent == s.locals[k.to].agent.(errand := Some(Submitting(ToAll([]), [])))
  {
    var arrive, listen := [Arrive(k)] + [PassOn(k.to)], [ListenAt(k.to, [ToAll([])])];
    ArrivesInOutbox(c, s, k);
    assert [] + [Received(k.message)] == [Received(k.message)];
    HandlerStep(c, NetAfter(c, s, arrive), k.to, k.message);
    NetAppend(c, s, arrive, listen);
    es := arrive + listen;
  }

  /** With enough copies in the air, an agent whose way out is full gets blocked. */
  lemma BlockedByCopies(c: Setup, s: Sys, k: Packet) returns (es: seq<Event>)
    requires k.to in c.profiles && k.to in s.locals && s.air[k] >= c.profiles[k.to].queueSize + 2
    requires k.message.messageType.Broadcast? && k.message.data.AppMessage? && k.message.data.messageType.Broadcast?
    requires 1 <= c.profiles[k.to].queueSize && OutFull(c.profiles[k.to], s.locals[k.to].agent)
    requires s.locals[k.to].agent.outbox == [] && s.locals[k.to].agent.errand.None?
    requires s.locals[k.to].agent.arriving.None?
    ensures k.to in NetAfter(c, s, es).locals && Blocked(c.profiles[k.to], NetAfter(c, s, es).locals[k.to].agent)
  {
    var es1 := HandlerWaits(c, s, k);
    var s1 := NetAfter(c, s, es1);
    var es2 := FillOutbox(c, s1, k, c.profiles[k.to].queueSize);
    NetAppend(c, s, es1, es2);
    var s2 := NetAfter(c, s1, es2);
    Arrives(c, s2, k);
    Net1(c, s2, Arrive(k));
    NetAppend(c, s, es1 + es2, [Arrive(k)]);
    es := es1 + es2 + [Arrive(k)];
  }

  /** Two agents suffice: one broadcasts, the other's message handler answers while its own broadcasts have
      filled everything on the way out. */
  lemma BlockedByMessages(c: Setup, q: string, p: string) returns (sched: nat -> Event, n: nat)
    requires c.Valid() && p in c.profiles && q in c.profiles && p != q
    requires 1 <= c.profiles[p].channelSize && 1 <= c.profiles[p].queueSize
    requires 1 <= c.profiles[q].channelSize && 1 <= c.profiles[q].queueSize
    ensures q in At(c, sched, n).locals && Blocked(c.profiles[q], At(c, sched, n).locals[q].agent)
  {
    var s0 := Initial(c);
    var es1 := Broadcasts(c, s0, p, q, c.profiles[q].queueSize + 2);
    var s1 := NetAfter(c, s0, es1);
    var es2 := FillOut(c.profiles[q], s1.locals[q], q);
    RunsInternally(c, s1, q, es2);
    var s2 := NetAfter(c, s1, es2);
    NetAppend(c, s0, es1, es2);
    var es3 := BlockedByCopies(c, s2, Copy(c, p, q));
    NetAppend(c, s0, es1 + es2, es3);
    sched := ScheduleOf(c, es1 + es2 + es3);
    n := |es1 + es2 + es3|;
  }

  // ----- administrators -----

  /** The node notices a subscription and passes it on. */
  lemma OneNotice(p: Profile, l: Local, q: string, topic: string, peer: string)
    requires |l.agent.outbox| < p.queueSize && l.agent.arriving.None?
    ensures var es := [NoticePeer(q, topic, peer)] + [PassOn(q)];
      Internal(q, es) && LocalAfter(p, l, es).agent == l.agent.(outbox := l.agent.outbox + [Subscribed(topic, peer)])
  {
    var l1 := Acting(p, l, NoticePeer(q, topic, peer));
    After1(p, l, NoticePeer(q, topic, peer));
    After1(p, l1, PassOn(q));
    AfterAppend(p, l, [NoticePeer(q, topic, peer)], [PassOn(q)]);
  }

  lemma {:induction false} Notices(p: Profile, l: Local, q: string, topic: string, peer: string, n: nat)
    returns (es: seq<Event>)
    requires |l.agent.outbox| + n <= p.queueSize && l.agent.arriving.None?
    ensures var a := LocalAfter(p, l, es).agent;
      Internal(q, es) && |a.outbox| == |l.agent.outbox| + n && a == l.agent.(outbox := a.outbox)
  {
    if n == 0 {
      es := [];
    } else {
      var before := Notices(p, l, q, topic, peer, n - 1);
      var one := [NoticePeer(q, topic, peer)] + [PassOn(q)];
      OneNotice(p, LocalAfter(p, l, before), q, topic, peer);
      AfterAppend(p, l, before, one);
      es := before + one;
    }
  }

  lemma SubscriptionTaken(p: Profile, a: Agent, topic: string, peer: string)
    requires p.admin && a.errand.None? && a.outbox == [Subscribed(topic, peer)] && peer !in a.connected
    ensures Listen(p, a, []).agent == a.(outbox := [], errand := Some(Announce(topic)))
  {
    assert [Subscribed(topic, peer)][1..] == [];
  }

  /** The listener of an administrator takes a subscription and has to send an introduction. */
  lemma IntroductionDue(p: Profile, l: Local, q: string, topic: string, peer: string)
    requires p.admin && 1 <= p.queueSize && l.agent.outbox == [] && l.agent.arriving.None? && l.agent.errand.None?
    requires peer !in l.agent.connected
    ensures var es := [NoticePeer(q, topic, peer)] + [PassOn(q)] + [ListenAt(q, [])];
      Internal(q, es) && LocalAfter(p, l, es).agent == l.agent.(errand := Some(Announce(topic)))
  {
    var before := [NoticePeer(q, topic, peer)] + [PassOn(q)];
    OneNotice(p, l, q, topic, peer);
    var l1 := LocalAfter(p, l, before);
    AfterAppend(p, l, before, [ListenAt(q, [])]);
    After1(p, l1, ListenAt(q, []));
    assert [] + [Subscribed(topic, peer)] == [Subscribed(topic, peer)];
    SubscriptionTaken(p, l1.agent, topic, peer);
  }

  lemma LocalDeadlock(p: Profile, l: Local, q: string, topic: string, peer: string) returns (es: seq<Event>)
    requires p.admin && 1 <= p.channelSize && 1 <= p.queueSize && l.agent == FRESH
    ensures Internal(q, es) && Blocked(p, LocalAfter(p, l, es).agent)
  {
    var es1 := FillInbox(p, l, q, p.queueSize);
    var l1 := LocalAfter(p, l, es1);
    var es2 := [NoticePeer(q, topic, peer)] + [PassOn(q)] + [ListenAt(q, [])];
    IntroductionDue(p, l1, q, topic, peer);
    AfterAppend(p, l, es1, es2);
    var l2 := LocalAfter(p, l, es1 + es2);
    var es3 := Notices(p, l2, q, topic, peer, p.queueSize);
    AfterAppend(p, l, es1 + es2, es3);
    var l3 := LocalAfter(p, l, es1 + es2 + es3);
    AfterAppend(p, l, es1 + es2 + es3, [NoticePeer(q, topic, peer)]);
    After1(p, l3, NoticePeer(q, topic, peer));
    es := es1 + es2 + es3 + [NoticePeer(q, topic, peer)];
  }

  /** Whatever the size of its queues, an administrator can get blocked by its own broadcasts and by
      subscriptions of any one peer to any topic. */
  lemma DeadlockReached(c: Setup, q: string, topic: string, peer: string) returns (sched: nat -> Event, n: nat)
    requires q in c.profiles && c.profiles[q].admin && 1 <= c.profiles[q].channelSize && 1 <= c.profiles[q].queueSize
    ensures q in At(c, sched, n).locals && Blocked(c.profiles[q], At(c, sched, n).locals[q].agent)
  {
    var s0 := Initial(c);
    var es := LocalDeadlock(c.profiles[q], s0.locals[q], q, topic, peer);
    RunsInternally(c, s0, q, es);
    sched := ScheduleOf(c, es);
    n := |es|;
  }

  // ----- a client that is alone -----

  /** Nothing is in the air, and the listener has nothing but subscriptions to see and nothing to send. */
  ghost predicate Lone(s: Sys, q: string) {
    && s.air == multiset{} && q in s.locals && s.locals[q].agent.errand.None?
    && forall i :: i in Line(s.locals[q].agent) ==> i.Subscribed?
  }

  lemma LoneErrand(p: Profile, l: Local, e: Event)
    requires !p.admin && l.agent.errand.None? && (l.agent.outbox != [] ==> l.agent.outbox[0].Subscribed?)
    ensures Acting(p, l, e).agent.errand.None?
  {
  }

  lemma LoneLocal(p: Profile, l: Local, e: Event)
    requires !p.admin && !e.Arrive? && l.agent.errand.None? && forall i :: i in Line(l.agent) ==> i.Subscribed?
    ensures var a := Acting(p, l, e).agent; a.errand.None? && forall i :: i in Line(a) ==> i.Subscribed?
  {
    assert l.agent.outbox != [] ==> l.agent.outbox[0] in Line(l.agent);
    LoneErrand(p, l, e);
    forall i | i in Line(Acting(p, l, e).agent)
      ensures i.Subscribed?
    {
      if i.Received? {
        LineElsewhere(p, l, e, i);
      }
    }
  }

  lemma LoneAir(c: Setup, s: Sys, q: string, e: Event)
    requires c.profiles.Keys == {q} && q in s.locals && s.air == multiset{} && Happens(c, s, e)
    ensures Air(c, s, e) == multiset{}
  {
  }

  lemma LoneStep(c: Setup, s: Sys, q: string, e: Event)
    requires c.profiles.Keys == {q} && !c.profiles[q].admin && Lone(s, q)
    ensures Lone(Apply(c, s, e), q)
  {
    if Happens(c, s, e) {
      LoneAir(c, s, q, e);
      LoneLocal(c.profiles[q], s.locals[q], e);
    }
  }

  lemma LoneInitially(c: Setup, q: string)
    requires q in c.profiles
    ensures Lone(Initial(c), q)
  {
  }

  lemma {:induction false} LoneAlways(c: Setup, sched: nat -> Event, n: nat, q: string)
    requires c.profiles.Keys == {q} && !c.profiles[q].admin
    ensures Lone(At(c, sched, n), q)
  {
    if n == 0 {
      LoneInitially(c, q);
    } else {
      LoneAlways(c, sched, n - 1, q);
      LoneStep(c, At(c, sched, n - 1), q, sched(n - 1));
    }
  }

  // ----- who can get blocked -----

  ghost predicate BlockedAt(c: Setup, sched: nat -> Event, n: nat, q: string)
    requires q in c.profiles
  {
    q in At(c, sched, n).locals && Blocked(c.profiles[q], At(c, sched, n).locals[q].agent)
  }

  /** If all queues and channels have room for at least one entry, an agent can get blocked if and only if it
      is an administrator or there is another agent. */
  lemma CanBlockIff(c: Setup, q: string)
    requires c.Valid() && q in c.profiles
    requires forall p :: p in c.profiles ==> 1 <= c.profiles[p].channelSize && 1 <= c.profiles[p].queueSize
    ensures (exists sched: nat -> Event, n: nat :: BlockedAt(c, sched, n, q))
       <==> c.profiles[q].admin || exists p :: p in c.profiles && p != q
  {
    if p :| p in c.profiles && p != q {
      var sched, n := BlockedByMessages(c, q, p);
      assert BlockedAt(c, sched, n, q);
    } else if c.profiles[q].admin {
      var sched, n := DeadlockReached(c, q, "topic", "peer");
      assert BlockedAt(c, sched, n, q);
    } else {
      assert c.profiles.Keys == {q};
      forall sched: nat -> Event, n: nat
        ensures !BlockedAt(c, sched, n, q)
      {
        LoneAlways(c, sched, n, q);
      }
    }
  }
}
