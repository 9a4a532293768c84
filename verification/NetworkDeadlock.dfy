/** The queues of an agent are bounded. Its node waits for room in the queue to the listener, and the
    listener for room in the queue to the node, or, inside a handler, in the channel that the broadcast task
    empties into that queue. The states in which they wait for each other for ever, and which agents can
    get there. */
module NetworkDeadlock {
  import opened Agents
  import opened Network
  import opened NetworkResults

  /** The node waits for room in the outbox, and the listener for room in the inbox; or in the channel, which
      the broadcast task cannot empty because it waits for room in the inbox itself. */
  ghost predicate Blocked(p: Profile, a: Agent) {
    && a.arriving.Some? && |a.outbox| == p.queueSize
    && a.errand.Some? && |a.inbox| == p.queueSize
    && (a.errand.value.Submitting? ==> a.held.Some? && |a.channel| == p.channelSize)
  }

  /** Node and listener have neither done nor received anything. */
  ghost predicate Frozen(l: Local, l': Local) {
    && l'.published == l.published && l'.taken == l.taken && l'.arrived == l.arrived
    && l'.handled == l.handled && l'.connections == l.connections
    && l'.agent.inbox == l.agent.inbox && l'.agent.arriving == l.agent.arriving
    && l'.agent.outbox == l.agent.outbox && l'.agent.errand == l.agent.errand
  }

  /** The agent after a list of events. */
  function LocalAfter(p: Profile, l: Local, es: seq<Event>): Local {
    if es == [] then l else Acting(p, LocalAfter(p, l, es[..|es| - 1]), es[|es| - 1])
  }

  /** Whatever happens to the agent from now on, its node and its listener do nothing. */
  ghost predicate Stuck(p: Profile, l: Local) {
    forall es: seq<Event> :: Frozen(l, LocalAfter(p, l, es))
  }

  // ----- blocked is stuck -----

  lemma BlockedIsKept(p: Profile, l: Local, e: Event)
    requires Blocked(p, l.agent)
    ensures Frozen(l, Acting(p, l, e)) && Blocked(p, Acting(p, l, e).agent)
  {
    assert l.handled + [] == l.handled && l.connections + [] == l.connections;
  }

  lemma {:induction false} BlockedIsFrozen(p: Profile, l: Local, es: seq<Event>)
    requires Blocked(p, l.agent)
    ensures Frozen(l, LocalAfter(p, l, es)) && Blocked(p, LocalAfter(p, l, es).agent)
  {
    if es != [] {
      BlockedIsFrozen(p, l, es[..|es| - 1]);
      BlockedIsKept(p, LocalAfter(p, l, es[..|es| - 1]), es[|es| - 1]);
    }
  }

  // ----- and nothing else is -----

  lemma After1(p: Profile, l: Local, e: Event)
    ensures LocalAfter(p, l, [e]) == Acting(p, l, e)
  {
    assert [e][..0] == [];
  }

  lemma {:induction false} AfterAppend(p: Profile, l: Local, es: seq<Event>, more: seq<Event>)
    ensures LocalAfter(p, l, es + more) == LocalAfter(p, LocalAfter(p, l, es), more)
  {
    if more == [] {
      assert es + more == es;
    } else {
      assert (es + more)[..|es + more| - 1] == es + more[..|more| - 1];
      AfterAppend(p, l, es, more[..|more| - 1]);
    }
  }

  /** The listener takes the next event. */
  lemma ListeningTakes(p: Profile, l: Local)
    requires l.agent.errand.None? && l.agent.outbox != []
    ensures !Frozen(l, Acting(p, l, ListenAt(p.id, [])))
  {
    assert |Listen(p, l.agent, []).agent.outbox| == |l.agent.outbox| - 1;
  }

  /** The listener goes on if there is room for what it waits to send. */
  lemma ErrandDone(p: Profile, l: Local)
    requires l.agent.errand.Some?
    requires if l.agent.errand.value.Submitting? then |l.agent.channel| < p.channelSize else HasRoom(p, l.agent)
    ensures !Frozen(l, Acting(p, l, RunErrand(p.id, [])))
  {
    var errand := l.agent.errand.value;
    if errand.Submitting? {
      assert Proceed(p, l.agent, []).agent.errand == Awaiting(errand.rest);
      assert |errand.rest| < |[errand.first] + errand.rest|;
      if errand.rest != [] {
        RestDiffers(errand.rest, errand.first);
      }
    } else {
      assert |Proceed(p, l.agent, []).agent.inbox| == |l.agent.inbox| + 1;
    }
  }

  lemma RestDiffers(rest: seq<Draft>, first: Draft)
    requires rest != []
    ensures Submitting(rest[0], rest[1..]) != Submitting(first, rest)
  {
    assert |rest[1..]| != |rest|;
  }

  /** The broadcast task makes room in a full channel if it holds nothing. */
  lemma TakingMakesRoom(p: Profile, l: Local)
    requires l.agent.held.None? && 1 <= p.channelSize && |l.agent.channel| <= p.channelSize
    requires l.agent.errand.Some? && l.agent.errand.value.Submitting?
    ensures !Frozen(l, LocalAfter(p, l, [TakeOff(p.id)] + [RunErrand(p.id, [])]))
  {
    var l1 := Acting(p, l, TakeOff(p.id));
    After1(p, l, TakeOff(p.id));
    AfterAppend(p, l, [TakeOff(p.id)], [RunErrand(p.id, [])]);
    After1(p, l1, RunErrand(p.id, []));
    assert |l1.agent.channel| < p.channelSize;
    ErrandDone(p, l1);
  }

  /** If they are not waiting for each other, some events make node or listener go on. */
  lemma SomethingMoves(p: Profile, l: Local) returns (es: seq<Event>)
    requires |l.agent.inbox| <= p.queueSize && |l.agent.outbox| <= p.queueSize && |l.agent.channel| <= p.channelSize
    requires 1 <= p.queueSize && 1 <= p.channelSize
    requires !Blocked(p, l.agent)
    ensures !Frozen(l, LocalAfter(p, l, es))
  {
    if l.agent.arriving.None? {
      es := [NoticePeer(p.id, "topic", "peer")];
      After1(p, l, es[0]);
    } else if |l.agent.outbox| < p.queueSize {
      es := [PassOn(p.id)];
      After1(p, l, es[0]);
    } else if l.agent.errand.None? {
      es := [ListenAt(p.id, [])];
      After1(p, l, es[0]);
      ListeningTakes(p, l);
    } else {
      es := ErrandMoves(p, l);
    }
  }

  lemma ErrandMoves(p: Profile, l: Local) returns (es: seq<Event>)
    requires |l.agent.inbox| <= p.queueSize && |l.agent.channel| <= p.channelSize && 1 <= p.channelSize
    requires l.agent.arriving.Some? && |l.agent.outbox| == p.queueSize && l.agent.errand.Some? && !Blocked(p, l.agent)
    ensures !Frozen(l, LocalAfter(p, l, es))
  {
    if l.agent.errand.value.Submitting? && l.agent.held.None? {
      es := [TakeOff(p.id)] + [RunErrand(p.id, [])];
      TakingMakesRoom(p, l);
    } else if l.agent.errand.value.Submitting? && |l.agent.channel| == p.channelSize {
      es := [Pass(p.id)];
      After1(p, l, es[0]);
    } else {
      es := [RunErrand(p.id, [])];
      After1(p, l, es[0]);
      ErrandDone(p, l);
    }
  }

  lemma LocalStuckIff(p: Profile, l: Local)
    requires LocalOk(p, l) && 1 <= p.queueSize && 1 <= p.channelSize
    ensures Stuck(p, l) <==> Blocked(p, l.agent)
  {
    if Blocked(p, l.agent) {
      forall es: seq<Event>
        ensures Frozen(l, LocalAfter(p, l, es))
      {
        BlockedIsFrozen(p, l, es);
      }
    } else {
      var es := SomethingMoves(p, l);
    }
  }

  /** In every run, if queues and channel have room for at least one entry, an agent's node and listener are
      stuck for good if and only if both queues between them are full, the node has one more event in hand,
      and the listener waits: to send an acknowledgement or introduction, or inside a handler for room in the
      channel, which is full as well while the broadcast task holds a message. */
  lemma StuckIff(c: Setup, sched: nat -> Event, n: nat, q: string)
    requires c.Valid() && q in c.profiles && 1 <= c.profiles[q].queueSize && 1 <= c.profiles[q].channelSize
    ensures q in At(c, sched, n).locals
    ensures Stuck(c.profiles[q], At(c, sched, n).locals[q]) <==> Blocked(c.profiles[q], At(c, sched, n).locals[q].agent)
  {
    LocalAlways(c, sched, n, q);
    LocalStuckIff(c.profiles[q], At(c, sched, n).locals[q]);
  }

  // ----- in runs -----

  ghost predicate FrozenAt(c: Setup, l: Local, s: Sys, q: string)
    requires q in c.profiles
  {
    q in s.locals && Frozen(l, s.locals[q]) && Blocked(c.profiles[q], s.locals[q].agent)
  }

  lemma FrozenStep(c: Setup, s: Sys, e: Event, q: string, l: Local)
    requires q in c.profiles && FrozenAt(c, l, s, q)
    ensures FrozenAt(c, l, Apply(c, s, e), q)
  {
    if Happens(c, s, e) && Place(e) == q {
      BlockedIsKept(c.profiles[q], s.locals[q], e);
    }
  }

  /** A blocked agent stays so: it publishes nothing, handles nothing and calls no handler ever again. */
  lemma {:induction false} BlockedForEver(c: Setup, sched: nat -> Event, n: nat, k: nat, q: string)
    requires n <= k && q in c.profiles && q in At(c, sched, n).locals
    requires Blocked(c.profiles[q], At(c, sched, n).locals[q].agent)
    ensures FrozenAt(c, At(c, sched, n).locals[q], At(c, sched, k), q)
  {
    if n < k {
      BlockedForEver(c, sched, n, k - 1, q);
      FrozenStep(c, At(c, sched, k - 1), sched(k - 1), q, At(c, sched, n).locals[q]);
    }
  }
}
