/** The single-item auction as a whole: one auctioneer, any number of bidders, and messages that
    arrive in any order or not at all. Every handler call is one step. */
module Auction {
  import opened Common
  import opened Auctioneers

  datatype Party = Party(name: string, budget: real)

  /** In one variant the auctioneer also repeats the start until the auction has ended. */
  datatype Setup = Setup(repeats: bool, price: real, expected: int, parties: seq<Party>) {

    function Bidders(): seq<BidderState> {
      seq(|parties|, i requires 0 <= i < |parties| => BidderState(parties[i].name, parties[i].budget, false))
    }

    /** The bidders that can afford more than the starting price. */
    ghost function Solvent(): set<nat> {
      set i: nat | 0 <= i < |parties| && parties[i].budget > price
    }
  }

  datatype Msg = Start(to: nat) | Offer(from: nat, bid: Bid) | Outcome(to: nat, won: Bid)

  /** A bid that has been sent, and by whom. */
  datatype Placement = Placement(bidder: nat, bid: Bid)

  /** The state of the agents and the messages in flight, followed by what has happened so far:
      the ids introduced, after how many introductions the auction was started, whether a start was
      ever broadcast, the results broadcast, the bids sent, one after the other, and each bidder's latest,
      the bidders whose bids were received, in order, and those that have handled a start or a result. */
  datatype Sys = Sys(
    bidders: seq<BidderState>,
    auctioneer: AuctioneerState,
    connected: set<string>,
    repeating: bool,
    net: multiset<Msg>,
    introductions: seq<string>,
    startsAt: set<nat>,
    begun: bool,
    results: seq<Bid>,
    log: seq<Placement>,
    placed: map<nat, Bid>,
    received: seq<nat>,
    started: set<nat>,
    settled: set<nat>)

  datatype Event = Introduce(id: string) | Repeat | Deliver(m: Msg, hundredths: nat) | Lose(m: Msg) | Idle

  function Initial(c: Setup): Sys {
    Sys(c.Bidders(), AuctioneerState([], false), {}, c.repeats, multiset{}, [], {}, false, [], [], map[], [], {}, {})
  }

  function Starts(n: nat): (b: multiset<Msg>)
    ensures forall m {:trigger b[m]} :: b[m] == if m.Start? && m.to < n then 1 else 0
  {
    if n == 0 then multiset{} else Starts(n - 1) + multiset{Start(n - 1)}
  }

  function Outcomes(n: nat, won: Bid): (b: multiset<Msg>)
    ensures forall m {:trigger b[m]} :: b[m] == if m.Outcome? && m.to < n && m.won == won then 1 else 0
  {
    if n == 0 then multiset{} else Outcomes(n - 1, won) + multiset{Outcome(n - 1, won)}
  }

  /** An introduction, possibly repeated, registers the agent and may start the auction. */
  function Introduced(c: Setup, s: Sys, id: string): Sys {
    var (connected, start) := OnConnected(s.connected, c.expected, id);
    var s' := s.(connected := connected, introductions := s.introductions + [id]);
    if start then
      s'.(net := s.net + Starts(|c.parties|), begun := true, startsAt := s.startsAt + {|s'.introductions|})
    else s'
  }

  /** The repeating task broadcasts a start and then looks whether the auction has ended. */
  function Repeated(c: Setup, s: Sys): Sys {
    s.(net := s.net + Starts(|c.parties|), begun := true, repeating := !s.auctioneer.ended)
  }

  function StartHandled(c: Setup, s: Sys, i: nat, hundredths: nat): Sys
    requires i < |s.bidders|
  {
    var (b, bid) := OnStart(s.bidders[i], c.price, hundredths);
    var s' := s.(bidders := s.bidders[i := b], net := s.net - multiset{Start(i)}, started := s.started + {i});
    match bid
    case None => s'
    case Some(o) =>
      s'.(net := s'.net + multiset{Offer(i, o)}, log := s.log + [Placement(i, o)], placed := s.placed[i := o])
  }

  function OfferHandled(c: Setup, s: Sys, i: nat, bid: Bid): Sys {
    var (a, result) := OnBid(s.auctioneer, c.expected, bid);
    var s' := s.(auctioneer := a, net := s.net - multiset{Offer(i, bid)},
                 received := if s.auctioneer.ended then s.received else s.received + [i]);
    match result
    case None => s'
    case Some(won) => s'.(net := s'.net + Outcomes(|c.parties|, won), results := s.results + [won])
  }

  function OutcomeHandled(s: Sys, i: nat, won: Bid): Sys
    requires i < |s.bidders|
  {
    s.(bidders := s.bidders[i := OnResult(s.bidders[i], won)],
       net := s.net - multiset{Outcome(i, won)}, settled := s.settled + {i})
  }

  function Apply(c: Setup, s: Sys, e: Event): Sys {
    match e
    case Introduce(id) => if s.auctioneer.ended then s else Introduced(c, s, id)
    case Repeat => if s.repeating then Repeated(c, s) else s
    case Deliver(m, hundredths) =>
      if m !in s.net then s
      else (match m
            case Start(i) =>
              if i < |s.bidders| && 100 <= hundredths <= 1000 then StartHandled(c, s, i, hundredths) else s
            case Offer(i, bid) => OfferHandled(c, s, i, bid)
            case Outcome(i, won) => if i < |s.bidders| then OutcomeHandled(s, i, won) else s)
    case Lose(m) => s.(net := s.net - multiset{m})
    case Idle => s
  }

  /** The state after n steps of a schedule. */
  ghost function At(c: Setup, sched: nat -> Event, n: nat): Sys {
    if n == 0 then Initial(c) else Apply(c, At(c, sched, n - 1), sched(n - 1))
  }

  // ----- invariants of every run -----

  /** What bidder i has paid so far. */
  ghost function Paid(c: Setup, results: seq<Bid>, settled: set<nat>, i: nat): real
    requires i < |c.parties|
  {
    if i in settled && results != [] && results[0].bidder == c.parties[i].name then results[0].amount else 0.0
  }

  ghost predicate BiddersOk(
    c: Setup, bidders: seq<BidderState>, placed: map<nat, Bid>, results: seq<Bid>, settled: set<nat>)
  {
    && |bidders| == |c.parties|
    && forall i :: 0 <= i < |bidders| ==>
         && bidders[i].name == c.parties[i].name
         && (bidders[i].hasBid <==> i in placed)
         && bidders[i].budget == c.parties[i].budget - Paid(c, results, settled, i)
  }

  /** A bid placed by bidder i: affordable, and no lower than the starting price. */
  ghost predicate FairBid(c: Setup, i: nat, bid: Bid) {
    && i < |c.parties| && bid.bidder == c.parties[i].name
    && (c.price >= 0.0 ==> c.price < c.parties[i].budget && c.price <= bid.amount <= c.parties[i].budget)
  }

  ghost predicate PlacedOk(c: Setup, placed: map<nat, Bid>, started: set<nat>) {
    forall i :: i in placed ==> FairBid(c, i, placed[i]) && i in started
  }

  /** The bids sent are those placed, each by another bidder. */
  ghost predicate LogOk(log: seq<Placement>, placed: map<nat, Bid>) {
    && (forall k :: 0 <= k < |log| ==> log[k].bidder in placed && placed[log[k].bidder] == log[k].bid)
    && (forall i :: i in placed ==> Placement(i, placed[i]) in log)
    && (forall j, k :: 0 <= j < k < |log| ==> log[j].bidder != log[k].bidder)
  }

  ghost predicate MsgOk(c: Setup, s: Sys, m: Msg) {
    match m
    case Start(i) => i < |c.parties| && s.begun
    case Offer(i, bid) => i in s.placed && s.placed[i] == bid && i !in s.received && s.net[m] == 1
    case Outcome(i, won) => i < |c.parties| && s.results == [won] && i !in s.settled && s.net[m] == 1
  }

  ghost predicate NetOk(c: Setup, s: Sys) {
    forall m :: m in s.net ==> MsgOk(c, s, m)
  }

  ghost predicate ReceivedOk(received: seq<nat>, bids: seq<Bid>, placed: map<nat, Bid>) {
    && NoDuplicates(received) && |received| == |bids|
    && forall k :: 0 <= k < |received| ==> received[k] in placed && bids[k] == placed[received[k]]
  }

  ghost predicate ClosedOk(c: Setup, a: AuctioneerState, results: seq<Bid>, settled: set<nat>) {
    && (forall i :: i in settled ==> i < |c.parties|)
    && if a.ended then
         1 <= c.expected == |a.bids| && results == [FirstMax(a.bids)]
       else
         (1 <= c.expected ==> |a.bids| < c.expected) && results == [] && settled == {}
  }

  /** The auction was started after an introduction exactly if that made the expected number of ids. */
  ghost predicate GateOk(c: Setup, connected: set<string>, introductions: seq<string>, startsAt: set<nat>) {
    && connected == Elements(introductions)
    && forall k :: k in startsAt <==> 1 <= k <= |introductions| && |Elements(introductions[..k])| == c.expected
  }

  ghost predicate BegunOk(c: Setup, s: Sys) {
    && (s.begun ==> c.repeats || s.startsAt != {})
    && (s.repeating ==> c.repeats)
    && (!s.auctioneer.ended ==> s.repeating == c.repeats)
    && (s.started != {} ==> s.begun)
  }

  ghost predicate Inv(c: Setup, s: Sys) {
    && BiddersOk(c, s.bidders, s.placed, s.results, s.settled)
    && PlacedOk(c, s.placed, s.started)
    && LogOk(s.log, s.placed)
    && NetOk(c, s)
    && ReceivedOk(s.received, s.auctioneer.bids, s.placed)
    && ClosedOk(c, s.auctioneer, s.results, s.settled)
    && GateOk(c, s.connected, s.introductions, s.startsAt)
    && BegunOk(c, s)
  }

  // ----- preservation -----

  /** A multiplier of at least 1 turns a price into a bid no lower than it, the product unless the budget is less. */
  lemma BidInRange(budget: real, price: real, hundredths: nat)
    requires 0.0 <= price < budget && 100 <= hundredths
    ensures var amount := BidAmount(budget, price, hundredths);
      && price <= amount <= budget
      && (amount < budget ==> 100.0 * amount == price * hundredths as real)
      && (amount == budget ==> 100.0 * amount <= price * hundredths as real)
  {
    BidIsMultiple(budget, price, hundredths);
    var factor := hundredths as real / 100.0;
    assert factor >= 1.0;
    assert price * factor - price == price * (factor - 1.0);
  }

  lemma GateKept(c: Setup, introductions: seq<string>, startsAt: set<nat>, id: string)
    requires GateOk(c, Elements(introductions), introductions, startsAt)
    ensures var more := introductions + [id];
      && Elements(more) == Elements(introductions) + {id}
      && GateOk(c, Elements(more), more, if |Elements(more)| == c.expected then startsAt + {|more|} else startsAt)
  {
    var more := introductions + [id];
    forall k | 0 <= k <= |introductions|
      ensures more[..k] == introductions[..k]
    {
    }
    assert more[..|more|] == more;
    assert Elements(more) == Elements(introductions) + {id};
  }

  lemma InvIntroduced(c: Setup, s: Sys, id: string)
    requires Inv(c, s)
    ensures Inv(c, Introduced(c, s, id))
  {
    GateKept(c, s.introductions, s.startsAt, id);
    NetKept(c, s, Introduced(c, s, id));
  }

  /** Starting the auction, or doing nothing, leaves the messages in flight in order. */
  lemma NetKept(c: Setup, s: Sys, s': Sys)
    requires NetOk(c, s)
    requires s'.placed == s.placed && s'.received == s.received && s'.results == s.results && s'.settled == s.settled
    requires s'.net == s.net || (s'.net == s.net + Starts(|c.parties|) && s'.begun)
    requires s.begun ==> s'.begun
    ensures NetOk(c, s')
  {
  }

  lemma InvRepeated(c: Setup, s: Sys)
    requires Inv(c, s) && s.repeating
    ensures Inv(c, Repeated(c, s))
  {
  }

  lemma PaidIsNonnegative(c: Setup, s: Sys, i: nat)
    requires Inv(c, s) && c.price >= 0.0 && i < |c.parties|
    ensures Paid(c, s.results, s.settled, i) >= 0.0
  {
  }

  /** A first bid is a fair one. */
  lemma FirstBidIsFair(c: Setup, s: Sys, i: nat, hundredths: nat)
    requires Inv(c, s) && i < |s.bidders| && 100 <= hundredths
    ensures var (b, bid) := OnStart(s.bidders[i], c.price, hundredths);
      && b.name == s.bidders[i].name && b.budget == s.bidders[i].budget
      && (b.hasBid <==> i in s.placed || bid.Some?)
      && (bid.Some? ==> i !in s.placed && FairBid(c, i, bid.value))
  {
    if s.bidders[i].budget > c.price && c.price >= 0.0 {
      PaidIsNonnegative(c, s, i);
      BidInRange(s.bidders[i].budget, c.price, hundredths);
    }
  }

  /** A first bid is entered in the log. */
  lemma LogKept(log: seq<Placement>, placed: map<nat, Bid>, i: nat, bid: Bid)
    requires LogOk(log, placed) && i !in placed
    ensures LogOk(log + [Placement(i, bid)], placed[i := bid])
  {
  }

  lemma StartBooked(c: Setup, s: Sys, i: nat, hundredths: nat)
    requires Inv(c, s) && Start(i) in s.net && i < |s.bidders| && 100 <= hundredths
    ensures var s' := StartHandled(c, s, i, hundredths);
      && BiddersOk(c, s'.bidders, s'.placed, s'.results, s'.settled)
      && PlacedOk(c, s'.placed, s'.started)
      && LogOk(s'.log, s'.placed)
      && ReceivedOk(s'.received, s'.auctioneer.bids, s'.placed)
  {
    FirstBidIsFair(c, s, i, hundredths);
    var (_, bid) := OnStart(s.bidders[i], c.price, hundredths);
    if bid.Some? {
      LogKept(s.log, s.placed, i, bid.value);
    }
  }

  lemma StartNet(c: Setup, s: Sys, i: nat, hundredths: nat)
    requires Inv(c, s) && Start(i) in s.net && i < |s.bidders| && 100 <= hundredths
    ensures NetOk(c, StartHandled(c, s, i, hundredths))
  {
    FirstBidIsFair(c, s, i, hundredths);
    var s' := StartHandled(c, s, i, hundredths);
    forall m | m in s'.net
      ensures MsgOk(c, s', m)
    {
      assert m in s.net ==> MsgOk(c, s, m);
    }
  }

  lemma InvStartHandled(c: Setup, s: Sys, i: nat, hundredths: nat)
    requires Inv(c, s) && Start(i) in s.net && i < |s.bidders| && 100 <= hundredths
    ensures Inv(c, StartHandled(c, s, i, hundredths))
  {
    assert MsgOk(c, s, Start(i));
    StartBooked(c, s, i, hundredths);
    StartNet(c, s, i, hundredths);
  }

  /** A bid received in time is added to those received. */
  lemma ReceivedKept(received: seq<nat>, bids: seq<Bid>, placed: map<nat, Bid>, i: nat)
    requires ReceivedOk(received, bids, placed) && i in placed && i !in received
    ensures ReceivedOk(received + [i], bids + [placed[i]], placed)
  {
  }

  /** It closes the auction if it was the last one expected. */
  lemma ClosedKept(c: Setup, a: AuctioneerState, results: seq<Bid>, settled: set<nat>, bid: Bid)
    requires ClosedOk(c, a, results, settled)
    ensures var (a', result) := OnBid(a, c.expected, bid);
      ClosedOk(c, a', match result case None => results case Some(won) => results + [won], settled)
  {
  }

  /** While nobody has settled, nobody has paid, whatever the results. */
  lemma BiddersKept(c: Setup, bidders: seq<BidderState>, placed: map<nat, Bid>, results: seq<Bid>, results': seq<Bid>)
    requires BiddersOk(c, bidders, placed, results, {})
    ensures BiddersOk(c, bidders, placed, results', {})
  {
  }

  /** A bid handled in time is recorded against its bidder, and closes the auction if it was the last. */
  lemma OfferBooked(c: Setup, s: Sys, i: nat, bid: Bid)
    requires Inv(c, s) && Offer(i, bid) in s.net
    ensures var s' := OfferHandled(c, s, i, bid);
      && BiddersOk(c, s'.bidders, s'.placed, s'.results, s'.settled)
      && ReceivedOk(s'.received, s'.auctioneer.bids, s'.placed)
      && ClosedOk(c, s'.auctioneer, s'.results, s'.settled)
  {
    assert MsgOk(c, s, Offer(i, bid));
    ClosedKept(c, s.auctioneer, s.results, s.settled, bid);
    if !s.auctioneer.ended {
      ReceivedKept(s.received, s.auctioneer.bids, s.placed, i);
      BiddersKept(c, s.bidders, s.placed, s.results, OfferHandled(c, s, i, bid).results);
    }
  }

  /** The results that closing broadcasts. */
  lemma ResultsAreOk(c: Setup, s: Sys, won: Bid, m: Msg)
    requires m in Outcomes(|c.parties|, won) && s.results == [won] && s.settled == {}
    requires s.net[m] == 1
    ensures MsgOk(c, s, m)
  {
  }

  /** What was under way apart from the bid itself. */
  lemma OtherMsgKept(c: Setup, s: Sys, i: nat, bid: Bid, m: Msg)
    requires Inv(c, s) && Offer(i, bid) in s.net && m in s.net && m != Offer(i, bid)
    ensures MsgOk(c, OfferHandled(c, s, i, bid), m)
  {
    assert MsgOk(c, s, Offer(i, bid)) && MsgOk(c, s, m);
  }

  lemma OfferNet(c: Setup, s: Sys, i: nat, bid: Bid)
    requires Inv(c, s) && Offer(i, bid) in s.net
    ensures NetOk(c, OfferHandled(c, s, i, bid))
  {
    assert MsgOk(c, s, Offer(i, bid));
    var s' := OfferHandled(c, s, i, bid);
    forall m | m in s'.net
      ensures MsgOk(c, s', m)
    {
      if m in s.net {
        OtherMsgKept(c, s, i, bid, m);
      } else {
        ResultsAreOk(c, s', s'.results[0], m);
      }
    }
  }

  lemma InvOfferHandled(c: Setup, s: Sys, i: nat, bid: Bid)
    requires Inv(c, s) && Offer(i, bid) in s.net
    ensures Inv(c, OfferHandled(c, s, i, bid))
  {
    OfferBooked(c, s, i, bid);
    OfferNet(c, s, i, bid);
  }

  lemma OutcomeNet(c: Setup, s: Sys, i: nat, won: Bid)
    requires Inv(c, s) && Outcome(i, won) in s.net && i < |s.bidders|
    ensures NetOk(c, OutcomeHandled(s, i, won))
  {
    assert MsgOk(c, s, Outcome(i, won));
    var s' := OutcomeHandled(s, i, won);
    forall m | m in s'.net
      ensures MsgOk(c, s', m)
    {
      assert m in s.net && MsgOk(c, s, m);
    }
  }

  lemma InvOutcomeHandled(c: Setup, s: Sys, i: nat, won: Bid)
    requires Inv(c, s) && Outcome(i, won) in s.net && i < |s.bidders|
    ensures Inv(c, OutcomeHandled(s, i, won))
  {
    assert MsgOk(c, s, Outcome(i, won));
    OutcomeNet(c, s, i, won);
  }

  lemma InvLost(c: Setup, s: Sys, m: Msg)
    requires Inv(c, s)
    ensures Inv(c, s.(net := s.net - multiset{m}))
  {
  }

  lemma InvKept(c: Setup, s: Sys, e: Event)
    requires Inv(c, s)
    ensures Inv(c, Apply(c, s, e))
  {
    match e
    case Introduce(id) =>
      if !s.auctioneer.ended {
        InvIntroduced(c, s, id);
      }
    case Repeat =>
      if s.repeating {
        InvRepeated(c, s);
      }
    case Deliver(m, hundredths) =>
      if m in s.net {
        InvDelivered(c, s, m, hundredths);
      }
    case Lose(m) => InvLost(c, s, m);
    case Idle =>
  }

  lemma InvDelivered(c: Setup, s: Sys, m: Msg, hundredths: nat)
    requires Inv(c, s) && m in s.net
    ensures Inv(c, Apply(c, s, Deliver(m, hundredths)))
  {
    var s' := Apply(c, s, Deliver(m, hundredths));
    match m
    case Start(i) =>
      if i < |s.bidders| && 100 <= hundredths <= 1000 {
        assert s' == StartHandled(c, s, i, hundredths);
        InvStartHandled(c, s, i, hundredths);
      } else {
        assert s' == s;
      }
    case Offer(i, bid) =>
      assert s' == OfferHandled(c, s, i, bid);
      InvOfferHandled(c, s, i, bid);
    case Outcome(i, won) =>
      if i < |s.bidders| {
        assert s' == OutcomeHandled(s, i, won);
        InvOutcomeHandled(c, s, i, won);
      }
  }

  lemma InvNext(c: Setup, sched: nat -> Event, n: nat)
    requires Inv(c, At(c, sched, n))
    ensures Inv(c, At(c, sched, n + 1))
  {
    InvKept(c, At(c, sched, n), sched(n));
  }

  lemma InvInitial(c: Setup)
    ensures Inv(c, Initial(c))
  {
  }

  lemma {:induction false} InvAlways(c: Setup, sched: nat -> Event, n: nat)
    ensures Inv(c, At(c, sched, n))
  {
    if n == 0 {
      InvInitial(c);
    } else {
      InvAlways(c, sched, n - 1);
      InvNext(c, sched, n - 1);
    }
  }
}
