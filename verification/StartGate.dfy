/** The auction's start gate on top of the agents' registry. */
module StartGate {
  import opened Common
  import Agents
  import Network
  import NetworkResults
  import Auction

  /** The ids for which the connection handler was called, in order. */
  function Introduced(calls: seq<Agents.Connection>): seq<string> {
    if calls == [] then [] else Introduced(calls[..|calls| - 1]) + [calls[|calls| - 1].agent.id]
  }

  lemma {:induction false} IntroducedIds(calls: seq<Agents.Connection>, k: nat)
    requires k <= |calls|
    ensures |Introduced(calls)| == |calls|
    ensures Elements(Introduced(calls)[..k]) == Network.Ids(calls[..k])
  {
    if calls != [] {
      var init, last := calls[..|calls| - 1], calls[|calls| - 1];
      IntroducedIds(init, if k < |calls| then k else k - 1);
      if k < |calls| {
        assert Introduced(calls)[..k] == Introduced(init)[..k];
        assert calls[..k] == init[..k];
      } else {
        assert calls[..k] == init + [last] && init[..k - 1] == init;
        assert Introduced(init)[..k - 1] == Introduced(init);
        assert Introduced(calls)[..k] == Introduced(init) + [last.agent.id];
        Network.IdsAppend(init, last);
      }
    }
  }

  // ----- an auction driven by an agent -----

  /** How many of the first n events are introductions. */
  ghost function Introductions(sched: nat -> Auction.Event, n: nat): nat {
    if n == 0 then 0 else Introductions(sched, n - 1) + if sched(n - 1).Introduce? then 1 else 0
  }

  /** The event of a driven auction: an introduction is one for which the connection handler was called. */
  ghost predicate DrivenAt(
    sched: nat -> Auction.Event, calls: seq<Agents.Connection>, driven: nat -> Auction.Event, n: nat)
  {
    if sched(n).Introduce? then
      var k := Introductions(sched, n);
      driven(n) == if k < |calls| then Auction.Introduce(calls[k].agent.id) else Auction.Idle
    else driven(n) == sched(n)
  }

  /** An auction schedule whose introductions are replaced by those the connection handler was called for. */
  ghost predicate IsDriven(sched: nat -> Auction.Event, calls: seq<Agents.Connection>, driven: nat -> Auction.Event) {
    forall n: nat :: DrivenAt(sched, calls, driven, n)
  }

  /** Any auction schedule can be driven by any calls. */
  lemma DrivenExists(sched: nat -> Auction.Event, calls: seq<Agents.Connection>) returns (driven: nat -> Auction.Event)
    ensures IsDriven(sched, calls, driven)
  {
    driven := (n: nat) =>
      if !sched(n).Introduce? then sched(n)
      else var k := Introductions(sched, n); if k < |calls| then Auction.Introduce(calls[k].agent.id) else Auction.Idle;
  }

  /** What one event does to the log of introductions. */
  lemma IntroductionStep(c: Auction.Setup, s: Auction.Sys, e: Auction.Event)
    ensures var s' := Auction.Apply(c, s, e);
      && s'.introductions == (if e.Introduce? && !s.auctioneer.ended then s.introductions + [e.id] else s.introductions)
      && (s.auctioneer.ended ==> s'.auctioneer.ended)
  {
  }

  lemma IntroducedNext(calls: seq<Agents.Connection>, k: nat)
    requires k < |calls|
    ensures Introduced(calls[..k + 1]) == Introduced(calls[..k]) + [calls[k].agent.id]
  {
    assert calls[..k + 1][..k] == calls[..k];
  }

  /** As long as the auction has not ended, the ids introduced are those of the first calls. */
  ghost predicate InStep(calls: seq<Agents.Connection>, k: nat, s: Auction.Sys) {
    s.auctioneer.ended || s.introductions == Introduced(calls[..Min(k, |calls|)])
  }

  /** One more event of the driven auction. */
  lemma InStepNext(c: Auction.Setup, calls: seq<Agents.Connection>, k: nat, s: Auction.Sys, e: Auction.Event)
    requires InStep(calls, k, s)
    ensures !e.Introduce? ==> InStep(calls, k, Auction.Apply(c, s, e))
    ensures k >= |calls| && !e.Introduce? ==> InStep(calls, k + 1, Auction.Apply(c, s, e))
    ensures k < |calls| && e == Auction.Introduce(calls[k].agent.id) ==> InStep(calls, k + 1, Auction.Apply(c, s, e))
  {
    IntroductionStep(c, s, e);
    if k < |calls| {
      IntroducedNext(calls, k);
    }
  }

  lemma DrivenNext(
    c: Auction.Setup, sched: nat -> Auction.Event, calls: seq<Agents.Connection>, driven: nat -> Auction.Event, m: nat)
    requires DrivenAt(sched, calls, driven, m) && InStep(calls, Introductions(sched, m), Auction.At(c, driven, m))
    ensures InStep(calls, Introductions(sched, m + 1), Auction.At(c, driven, m + 1))
  {
    InStepNext(c, calls, Introductions(sched, m), Auction.At(c, driven, m), driven(m));
  }

  lemma InStepFirst(c: Auction.Setup, calls: seq<Agents.Connection>)
    ensures InStep(calls, 0, Auction.Initial(c))
  {
  }

  /** Until the auction ends, the ids introduced are those the connection handler was called for, in order. */
  lemma {:induction false} DrivenByCalls(
    c: Auction.Setup, sched: nat -> Auction.Event, calls: seq<Agents.Connection>, driven: nat -> Auction.Event, m: nat)
    requires IsDriven(sched, calls, driven)
    ensures InStep(calls, Introductions(sched, m), Auction.At(c, driven, m))
  {
    if m == 0 {
      InStepFirst(c, calls);
    } else {
      DrivenByCalls(c, sched, calls, driven, m - 1);
      assert DrivenAt(sched, calls, driven, m - 1);
      DrivenNext(c, sched, calls, driven, m - 1);
    }
  }

  /** After k introductions the auction is started exactly if they are of the expected number of ids. */
  ghost predicate GateAt(c: Auction.Setup, s: Auction.Sys, k: int) {
    k in s.startsAt <==> 1 <= k <= |s.introductions| && |Elements(s.introductions[..k])| == c.expected
  }

  lemma GateAlways(c: Auction.Setup, sched: nat -> Auction.Event, m: nat, k: nat)
    ensures GateAt(c, Auction.At(c, sched, m), k)
  {
    Auction.InvAlways(c, sched, m);
  }

  lemma StartsInStep(c: Auction.Setup, calls: seq<Agents.Connection>, j: nat, s: Auction.Sys, k: nat)
    requires InStep(calls, j, s) && !s.auctioneer.ended && k < j && k < |calls| && GateAt(c, s, k + 1)
    ensures k + 1 in s.startsAt <==> |Network.Ids(calls[..k + 1])| == c.expected
  {
    var handled := calls[..Min(j, |calls|)];
    IntroducedIds(handled, k + 1);
    assert handled[..k + 1] == calls[..k + 1];
  }

  /** The auction starts at a call exactly if that call finds the expected number of ids introduced. */
  lemma DrivenStarts(
    c: Auction.Setup, sched: nat -> Auction.Event, calls: seq<Agents.Connection>, driven: nat -> Auction.Event,
    m: nat, k: nat)
    requires IsDriven(sched, calls, driven) && !Auction.At(c, driven, m).auctioneer.ended
    requires k < Introductions(sched, m) && k < |calls|
    ensures k + 1 in Auction.At(c, driven, m).startsAt <==> |Network.Ids(calls[..k + 1])| == c.expected
  {
    DrivenByCalls(c, sched, calls, driven, m);
    GateAlways(c, driven, m, k + 1);
    StartsInStep(c, calls, Introductions(sched, m), Auction.At(c, driven, m), k);
  }

  /** Take any run of the network, the calls of the connection handler at one agent, and an auction driven by
      them. Until it ends, it is started at exactly those calls that find the expected number of agents in
      the registry: never with more or fewer distinct agents introduced, however often each of them repeats
      its introduction. */
  lemma StartsFollowRegistry(
    net: Network.Setup, netSched: nat -> Network.Event, n: nat, q: string,
    auction: Auction.Setup, sched: nat -> Auction.Event, driven: nat -> Auction.Event, m: nat, k: nat)
    requires net.Valid() && q in Network.At(net, netSched, n).locals
    requires var calls := Network.At(net, netSched, n).locals[q].connections;
      IsDriven(sched, calls, driven) && k < Introductions(sched, m) && k < |calls|
    requires !Auction.At(auction, driven, m).auctioneer.ended
    ensures var calls := Network.At(net, netSched, n).locals[q].connections;
      k + 1 in Auction.At(auction, driven, m).startsAt <==> |calls[k].connected| == auction.expected
  {
    var calls := Network.At(net, netSched, n).locals[q].connections;
    NetworkResults.ConnectionsAreRegistered(net, netSched, n, q, k);
    DrivenStarts(auction, sched, calls, driven, m, k);
  }
}
