/** What every run of the auction guarantees: who wins, what is paid, when it is started and closed. */
module AuctionResults {
  import opened Common
  import opened Auctioneers
  import opened Auction

  // ----- for every run, messages lost or not -----

  /** The auction ends exactly when the expected number of bids has been received. They come from
      distinct bidders, and the one result broadcast is the first of the highest. */
  lemma ClosesOnFirstHighest(c: Setup, sched: nat -> Event, n: nat)
    requires 1 <= c.expected
    ensures var s := At(c, sched, n);
      var bids := s.auctioneer.bids;
      && |bids| <= c.expected
      && (s.auctioneer.ended <==> |bids| == c.expected)
      && |s.received| == |bids| && NoDuplicates(s.received)
      && (forall k :: 0 <= k < |bids| ==> s.received[k] in s.placed && bids[k] == s.placed[s.received[k]])
      && (if s.auctioneer.ended then
            && |s.results| == 1
            && exists k ::
                 && 0 <= k < |bids| && s.results[0] == bids[k]
                 && (forall j :: 0 <= j < |bids| ==> bids[j].amount <= bids[k].amount)
                 && (forall j :: 0 <= j < k ==> bids[j].amount < bids[k].amount)
          else s.results == [])
  {
    InvAlways(c, sched, n);
    var s := At(c, sched, n);
    if s.auctioneer.ended {
      assert IsFirstMax(s.auctioneer.bids, FirstMaxIndex(s.auctioneer.bids));
    }
  }

  /** A bid is under way at most once, and not any more once it has been received. */
  lemma OffersAreSingle(c: Setup, sched: nat -> Event, n: nat)
    ensures var s := At(c, sched, n);
      forall i, bid :: Offer(i, bid) in s.net ==>
        i in s.placed && bid == s.placed[i] && s.net[Offer(i, bid)] == 1 && i !in s.received
  {
    InvAlways(c, sched, n);
    var s := At(c, sched, n);
    forall i, bid | Offer(i, bid) in s.net
      ensures i in s.placed && bid == s.placed[i] && s.net[Offer(i, bid)] == 1 && i !in s.received
    {
      assert MsgOk(c, s, Offer(i, bid));
    }
  }

  /** Each bidder bids at most once, however many starts it handles: of all bids ever sent, no two are by
      the same bidder. Each names its bidder, and those under way or received are among them. */
  lemma EachBidsOnce(c: Setup, sched: nat -> Event, n: nat)
    ensures var s := At(c, sched, n);
      && (forall j, k :: 0 <= j < k < |s.log| ==> s.log[j].bidder != s.log[k].bidder)
      && (forall k :: 0 <= k < |s.log| ==>
            s.log[k].bidder < |c.parties| && s.log[k].bid.bidder == c.parties[s.log[k].bidder].name)
      && (forall i, bid :: Offer(i, bid) in s.net ==> Placement(i, bid) in s.log)
      && |s.received| == |s.auctioneer.bids|
      && (forall k :: 0 <= k < |s.received| ==> Placement(s.received[k], s.auctioneer.bids[k]) in s.log)
  {
    InvAlways(c, sched, n);
    BidsAreLogged(c, At(c, sched, n));
  }

  lemma BidsAreLogged(c: Setup, s: Sys)
    requires Inv(c, s)
    ensures forall k :: 0 <= k < |s.log| ==>
      s.log[k].bidder < |c.parties| && s.log[k].bid.bidder == c.parties[s.log[k].bidder].name
    ensures forall i, bid :: Offer(i, bid) in s.net ==> Placement(i, bid) in s.log
    ensures forall k :: 0 <= k < |s.received| ==> Placement(s.received[k], s.auctioneer.bids[k]) in s.log
  {
  }

  /** Every bid is at least the starting price and at most its bidder's initial budget. */
  lemma BidsAreAffordable(c: Setup, sched: nat -> Event, n: nat)
    requires c.price >= 0.0
    ensures forall i :: i in At(c, sched, n).placed ==>
      && i < |c.parties| && c.price < c.parties[i].budget
      && c.price <= At(c, sched, n).placed[i].amount <= c.parties[i].budget
  {
    InvAlways(c, sched, n);
  }

  // ----- conservation of money -----

  function Total(bidders: seq<BidderState>): real {
    if bidders == [] then 0.0 else Total(bidders[..|bidders| - 1]) + bidders[|bidders| - 1].budget
  }

  /** What the first n bidders have paid together. */
  ghost function Payments(c: Setup, s: Sys, n: nat): real
    requires n <= |c.parties|
  {
    if n == 0 then 0.0 else Payments(c, s, n - 1) + Paid(c, s.results, s.settled, n - 1)
  }

  lemma {:induction false} TotalAfterPayments(c: Setup, s: Sys, n: nat)
    requires Inv(c, s) && n <= |c.parties|
    ensures Total(s.bidders[..n]) == Total(c.Bidders()[..n]) - Payments(c, s, n)
  {
    if n > 0 {
      TotalAfterPayments(c, s, n - 1);
      assert s.bidders[..n][..n - 1] == s.bidders[..n - 1];
      assert c.Bidders()[..n][..n - 1] == c.Bidders()[..n - 1];
    }
  }

  ghost predicate DistinctNames(c: Setup) {
    forall i, j :: 0 <= i < j < |c.parties| ==> c.parties[i].name != c.parties[j].name
  }

  /** The bidder whose bid won. */
  ghost function Winner(s: Sys): nat
    requires s.auctioneer.bids != [] && |s.received| == |s.auctioneer.bids|
  {
    s.received[FirstMaxIndex(s.auctioneer.bids)]
  }

  ghost predicate WinnerSettled(s: Sys) {
    s.auctioneer.ended && s.auctioneer.bids != [] && |s.received| == |s.auctioneer.bids| && Winner(s) in s.settled
  }

  lemma WinnerIsNamed(c: Setup, s: Sys)
    requires Inv(c, s) && s.auctioneer.ended
    ensures var w := Winner(s);
      && w in s.placed && w < |c.parties|
      && s.results[0] == s.placed[w] && s.results[0].bidder == c.parties[w].name
  {
  }

  /** With distinct names only the winner pays. */
  lemma {:induction false} OnlyWinnerPays(c: Setup, s: Sys, n: nat)
    requires Inv(c, s) && DistinctNames(c) && n <= |c.parties|
    ensures Payments(c, s, n) == if WinnerSettled(s) && Winner(s) < n then s.results[0].amount else 0.0
  {
    if n > 0 {
      OnlyWinnerPays(c, s, n - 1);
      if s.auctioneer.ended {
        WinnerIsNamed(c, s);
      }
    }
  }

  /** With distinct names, the budgets add up to their initial total, less the winning bid exactly when
      the winner has handled the result. */
  lemma MoneyIsConserved(c: Setup, sched: nat -> Event, n: nat)
    requires DistinctNames(c)
    ensures var s := At(c, sched, n);
      (WinnerSettled(s) ==> s.results != [])
      && Total(s.bidders) == Total(c.Bidders()) - if WinnerSettled(s) then s.results[0].amount else 0.0
  {
    InvAlways(c, sched, n);
    var s := At(c, sched, n);
    TotalAfterPayments(c, s, |c.parties|);
    assert s.bidders[..|c.parties|] == s.bidders && c.Bidders()[..|c.parties|] == c.Bidders();
    OnlyWinnerPays(c, s, |c.parties|);
    if s.auctioneer.ended {
      WinnerIsNamed(c, s);
    }
  }

  /** No budget is overdrawn. */
  lemma BudgetsStayNonnegative(c: Setup, sched: nat -> Event, n: nat, i: nat)
    requires DistinctNames(c) && c.price >= 0.0 && i < |c.parties| && c.parties[i].budget >= 0.0
    ensures |At(c, sched, n).bidders| == |c.parties| && At(c, sched, n).bidders[i].budget >= 0.0
  {
    InvAlways(c, sched, n);
    var s := At(c, sched, n);
    if s.auctioneer.ended {
      WinnerIsNamed(c, s);
      assert FairBid(c, Winner(s), s.placed[Winner(s)]);
      assert Paid(c, s.results, s.settled, i) != 0.0 ==> i == Winner(s);
    }
  }

  // ----- the amounts of the bids -----

  /** The step delivers a start to the bidder with a multiplier that turns the price into the bid's amount, cut
      off at the budget the bidder has at first. */
  ghost predicate Multiplies(c: Setup, e: Event, p: Placement) {
    && p.bidder < |c.parties| && p.bid.bidder == c.parties[p.bidder].name
    && e.Deliver? && e.m == Start(p.bidder) && 100 <= e.hundredths <= 1000
    && (c.price * e.hundredths as real <= 100.0 * c.parties[p.bidder].budget ==>
          100.0 * p.bid.amount == c.price * e.hundredths as real)
    && (c.price * e.hundredths as real > 100.0 * c.parties[p.bidder].budget ==>
          p.bid.amount == c.parties[p.bidder].budget)
  }

  /** A bidder that has not bid has not paid. */
  lemma BudgetIsFull(c: Setup, s: Sys, i: nat)
    requires Inv(c, s) && DistinctNames(c) && i < |c.parties| && i !in s.placed
    ensures s.bidders[i].budget == c.parties[i].budget
  {
    if s.auctioneer.ended {
      WinnerIsNamed(c, s);
      assert Winner(s) != i;
    }
  }

  /** Only a bidder that handles a start sends a bid. */
  lemma OnlyStartsBid(c: Setup, s: Sys, e: Event)
    requires Apply(c, s, e).log != s.log
    ensures e.Deliver? && e.m in s.net && e.m.Start? && e.m.to < |s.bidders| && 100 <= e.hundredths <= 1000
    ensures Apply(c, s, e) == StartHandled(c, s, e.m.to, e.hundredths)
  {
  }

  /** Its bid is the first one and follows the multiplier. */
  lemma BidMultiplies(c: Setup, s: Sys, i: nat, hundredths: nat) returns (p: Placement)
    requires Inv(c, s) && DistinctNames(c) && i < |s.bidders| && 100 <= hundredths <= 1000
    requires StartHandled(c, s, i, hundredths).log != s.log
    ensures StartHandled(c, s, i, hundredths).log == s.log + [p]
    ensures Multiplies(c, Deliver(Start(i), hundredths), p)
  {
    BudgetIsFull(c, s, i);
    BidIsMultiple(s.bidders[i].budget, c.price, hundredths);
    var (_, bid) := OnStart(s.bidders[i], c.price, hundredths);
    p := Placement(i, bid.value);
  }

  /** Step j sends the bid, on the start it delivers. */
  ghost predicate SentInStep(c: Setup, sched: nat -> Event, j: nat, p: Placement) {
    && Multiplies(c, sched(j), p) && sched(j).m in At(c, sched, j).net
    && At(c, sched, j + 1).log == At(c, sched, j).log + [p]
  }

  lemma BidNext(c: Setup, sched: nat -> Event, n: nat, p: Placement)
    requires DistinctNames(c) && p in At(c, sched, n + 1).log && p !in At(c, sched, n).log
    ensures SentInStep(c, sched, n, p)
  {
    InvAlways(c, sched, n);
    var s, e := At(c, sched, n), sched(n);
    OnlyStartsBid(c, s, e);
    var q := BidMultiplies(c, s, e.m.to, e.hundredths);
    assert p == q;
  }

  lemma NothingBidAtFirst(c: Setup, sched: nat -> Event, p: Placement)
    ensures p !in At(c, sched, 0).log
  {
  }

  /** With distinct names, the amount of every bid ever sent is the starting price times the multiplier, between
      1 and 10 in hundredths, that its bidder drew when a start was delivered to it, or its budget if that is
      less. */
  lemma {:induction false} BidsFollowMultipliers(c: Setup, sched: nat -> Event, n: nat, p: Placement) returns (j: nat)
    requires DistinctNames(c) && p in At(c, sched, n).log
    ensures j < n && SentInStep(c, sched, j, p)
  {
    NothingBidAtFirst(c, sched, p);
    j := n - 1;
    if p in At(c, sched, j).log {
      j := BidsFollowMultipliers(c, sched, j, p);
    } else {
      BidNext(c, sched, j, p);
    }
  }

  // ----- starting -----

  /** The auction is started after an introduction exactly when that brings the number of distinct ids
      introduced to the expected one, however often each of them was introduced. Unless the start is
      repeated, nobody handles a start and nobody bids before that. */
  lemma StartIsGated(c: Setup, sched: nat -> Event, n: nat)
    ensures var s := At(c, sched, n);
      && (forall k :: k in s.startsAt <==>
            1 <= k <= |s.introductions| && |Elements(s.introductions[..k])| == c.expected)
      && (!c.repeats && (s.placed.Keys != {} || s.auctioneer.bids != [] || s.started != {}) ==>
            exists k :: 1 <= k <= |s.introductions| && |Elements(s.introductions[..k])| == c.expected)
  {
    InvAlways(c, sched, n);
    var s := At(c, sched, n);
    if s.placed.Keys != {} || s.auctioneer.bids != [] {
      if s.auctioneer.bids != [] {
        assert s.received[0] in s.placed;
      }
      var i :| i in s.placed.Keys;
      assert i in s.started;
    }
    if s.begun && !c.repeats {
      var k :| k in s.startsAt;
    }
  }

  // ----- closing -----

  ghost predicate Lossless(sched: nat -> Event) {
    forall n :: !sched(n).Lose?
  }

  /** Starts and results may be lost, but no bid. */
  ghost predicate KeepsOffers(sched: nat -> Event) {
    forall n :: sched(n).Lose? ==> !sched(n).m.Offer?
  }

  /** A placed bid is under way or received. */
  ghost predicate OffersTracked(placed: map<nat, Bid>, received: seq<nat>, net: multiset<Msg>) {
    forall i :: i in placed ==> i in received || Offer(i, placed[i]) in net
  }

  /** Of those that have handled a start exactly the ones that can afford to bid have placed a bid. */
  ghost predicate BidsTracked(c: Setup, placed: map<nat, Bid>, started: set<nat>) {
    forall i :: i in started ==> (i in placed <==> i in c.Solvent())
  }

  /** What can be said about the bids while none is lost, for the most part until the auction ends. */
  ghost predicate Tracked(c: Setup, s: Sys) {
    && Elements(s.received) <= c.Solvent()
    && (!s.auctioneer.ended ==> OffersTracked(s.placed, s.received, s.net) && BidsTracked(c, s.placed, s.started))
  }

  /** Whoever handles a start places a bid exactly if it can afford to and has not yet. */
  lemma BidsAfterStart(c: Setup, s: Sys, i: nat, hundredths: nat)
    requires BiddersOk(c, s.bidders, s.placed, s.results, s.settled) && s.settled == {} && i < |s.bidders|
    requires PlacedOk(c, s.placed, s.started)
    requires BidsTracked(c, s.placed, s.started)
    ensures var s' := StartHandled(c, s, i, hundredths); BidsTracked(c, s'.placed, s'.started)
  {
  }

  lemma OffersAfterStart(c: Setup, s: Sys, i: nat, hundredths: nat)
    requires BiddersOk(c, s.bidders, s.placed, s.results, s.settled) && i < |s.bidders|
    requires OffersTracked(s.placed, s.received, s.net)
    ensures var s' := StartHandled(c, s, i, hundredths); OffersTracked(s'.placed, s'.received, s'.net)
  {
  }

  lemma StartTracked(c: Setup, s: Sys, i: nat, hundredths: nat)
    requires Inv(c, s) && Tracked(c, s) && i < |s.bidders| && Start(i) in s.net
    ensures Tracked(c, StartHandled(c, s, i, hundredths))
  {
    if !s.auctioneer.ended {
      BidsAfterStart(c, s, i, hundredths);
      OffersAfterStart(c, s, i, hundredths);
    }
  }

  lemma OfferTracked(c: Setup, s: Sys, i: nat, bid: Bid)
    requires Inv(c, s) && Tracked(c, s) && Offer(i, bid) in s.net
    ensures Tracked(c, OfferHandled(c, s, i, bid))
  {
    assert MsgOk(c, s, Offer(i, bid));
    var s' := OfferHandled(c, s, i, bid);
    assert i in s.started;
    assert s'.received == if s.auctioneer.ended then s.received else s.received + [i];
    if !s.auctioneer.ended {
      forall j | j in s.placed && j !in s'.received
        ensures Offer(j, s.placed[j]) in s'.net
      {
        assert j !in s.received && j != i;
      }
    }
  }

  /** All other steps leave the bids alone. */
  lemma OthersTracked(c: Setup, s: Sys, s': Sys)
    requires Tracked(c, s)
    requires s'.placed == s.placed && s'.received == s.received && s'.started == s.started
    requires s'.auctioneer.ended == s.auctioneer.ended
    requires forall m :: m in s.net && m.Offer? ==> m in s'.net
    ensures Tracked(c, s')
  {
  }

  lemma OtherTracked(c: Setup, s: Sys, e: Event)
    requires Tracked(c, s)
    requires (e.Deliver? ==> e.m.Outcome?) && (e.Lose? ==> !e.m.Offer?)
    ensures Tracked(c, Apply(c, s, e))
  {
    if e.Introduce? {
      OthersTracked(c, s, Introduced(c, s, e.id));
    } else if e.Repeat? {
      OthersTracked(c, s, Repeated(c, s));
    } else if e.Lose? {
      OthersTracked(c, s, s.(net := s.net - multiset{e.m}));
    } else if e.Deliver? && e.m in s.net && e.m.to < |s.bidders| {
      OthersTracked(c, s, OutcomeHandled(s, e.m.to, e.m.won));
    }
  }

  lemma TrackedStep(c: Setup, s: Sys, e: Event)
    requires Inv(c, s) && Tracked(c, s) && (e.Lose? ==> !e.m.Offer?)
    ensures Tracked(c, Apply(c, s, e))
  {
    if e.Deliver? && !e.m.Outcome? {
      if e.m in s.net {
        if e.m.Offer? {
          OfferTracked(c, s, e.m.from, e.m.bid);
        } else if e.m.to < |s.bidders| {
          StartTracked(c, s, e.m.to, e.hundredths);
        }
      }
    } else {
      OtherTracked(c, s, e);
    }
  }

  lemma TrackedNext(c: Setup, sched: nat -> Event, n: nat)
    requires Tracked(c, At(c, sched, n)) && (sched(n).Lose? ==> !sched(n).m.Offer?)
    ensures Tracked(c, At(c, sched, n + 1))
  {
    InvAlways(c, sched, n);
    TrackedStep(c, At(c, sched, n), sched(n));
  }

  lemma TrackedInitially(c: Setup)
    ensures Tracked(c, Initial(c))
  {
  }

  lemma {:induction false} TrackedAlways(c: Setup, sched: nat -> Event, n: nat)
    requires KeepsOffers(sched)
    ensures Tracked(c, At(c, sched, n))
  {
    if n == 0 {
      TrackedInitially(c);
    } else {
      TrackedAlways(c, sched, n - 1);
      TrackedNext(c, sched, n - 1);
    }
  }

  /** Once every bidder has handled a start and no bid is under way or lost, the auction has ended if and
      only if as many bidders as expected can afford more than the starting price. */
  lemma EndedIffEnoughSolvent(c: Setup, sched: nat -> Event, n: nat)
    requires KeepsOffers(sched) && 1 <= c.expected
    requires forall i :: 0 <= i < |c.parties| ==> i in At(c, sched, n).started
    requires forall m :: m in At(c, sched, n).net ==> !m.Offer?
    ensures At(c, sched, n).auctioneer.ended <==> |c.Solvent()| >= c.expected
  {
    InvAlways(c, sched, n);
    TrackedAlways(c, sched, n);
    EndedIff(c, At(c, sched, n));
  }

  lemma EndedIff(c: Setup, s: Sys)
    requires Inv(c, s) && Tracked(c, s) && 1 <= c.expected
    requires s.auctioneer.ended || c.Solvent() <= Elements(s.received)
    ensures s.auctioneer.ended <==> |c.Solvent()| >= c.expected
  {
    DistinctLength(s.received);
    SubsetSize(Elements(s.received), c.Solvent());
    if !s.auctioneer.ended {
      SubsetSize(c.Solvent(), Elements(s.received));
    }
  }

  // ----- starts, when none is lost -----

  /** Once the auction has begun, each bidder has handled a start or has one under way. */
  ghost predicate StartsTracked(c: Setup, s: Sys) {
    s.begun ==> forall i :: 0 <= i < |c.parties| ==> i in s.started || Start(i) in s.net
  }

  lemma StartsAfterStart(c: Setup, s: Sys, i: nat, hundredths: nat)
    requires StartsTracked(c, s) && i < |s.bidders|
    ensures StartsTracked(c, StartHandled(c, s, i, hundredths))
  {
  }

  lemma StartsAfterOffer(c: Setup, s: Sys, i: nat, bid: Bid)
    requires StartsTracked(c, s)
    ensures StartsTracked(c, OfferHandled(c, s, i, bid))
  {
  }

  lemma StartsStep(c: Setup, s: Sys, e: Event)
    requires StartsTracked(c, s) && !e.Lose?
    ensures StartsTracked(c, Apply(c, s, e))
  {
    if e.Deliver? && e.m in s.net {
      match e.m
      case Start(i) =>
        if i < |s.bidders| {
          StartsAfterStart(c, s, i, e.hundredths);
        }
      case Offer(i, bid) => StartsAfterOffer(c, s, i, bid);
      case Outcome(_, _) =>
    }
  }

  lemma StartsInitially(c: Setup)
    ensures StartsTracked(c, Initial(c))
  {
  }

  lemma StartsNext(c: Setup, sched: nat -> Event, n: nat)
    requires StartsTracked(c, At(c, sched, n)) && !sched(n).Lose?
    ensures StartsTracked(c, At(c, sched, n + 1))
  {
    StartsStep(c, At(c, sched, n), sched(n));
  }

  lemma {:induction false} StartsAlways(c: Setup, sched: nat -> Event, n: nat)
    requires Lossless(sched)
    ensures StartsTracked(c, At(c, sched, n))
  {
    if n == 0 {
      StartsInitially(c);
    } else {
      StartsAlways(c, sched, n - 1);
      StartsNext(c, sched, n - 1);
    }
  }

  // ----- the repeated start -----

  /** The repeating task ends with its first repetition after the end of the auction, and nothing revives it. */
  lemma RepetitionEnds(c: Setup, s: Sys, e: Event)
    ensures e == Repeat && s.auctioneer.ended ==> !Apply(c, s, e).repeating
    ensures !s.repeating ==> !Apply(c, s, e).repeating
    ensures !s.repeating && e == Repeat ==> Apply(c, s, e) == s
  {
  }

  /** Where the start is repeated, every repetition up to the end of the auction broadcasts it to all bidders. */
  lemma StartIsRepeated(c: Setup, sched: nat -> Event, k: nat)
    requires c.repeats && sched(k) == Repeat && !At(c, sched, k).auctioneer.ended
    ensures At(c, sched, k + 1).net == At(c, sched, k).net + Starts(|c.parties|)
  {
    InvAlways(c, sched, k);
  }

  // ----- results, when none is lost -----

  /** Once the auction has ended, each bidder has handled the result or has it under way. */
  ghost predicate OutcomesTracked(c: Setup, s: Sys) {
    s.auctioneer.ended ==>
      |s.results| == 1 && forall i :: 0 <= i < |c.parties| ==> i in s.settled || Outcome(i, s.results[0]) in s.net
  }

  lemma OutcomesAfterStart(c: Setup, s: Sys, i: nat, hundredths: nat)
    requires OutcomesTracked(c, s) && i < |s.bidders|
    ensures OutcomesTracked(c, StartHandled(c, s, i, hundredths))
  {
  }

  lemma OutcomesAfterOffer(c: Setup, s: Sys, i: nat, bid: Bid)
    requires ClosedOk(c, s.auctioneer, s.results, s.settled) && OutcomesTracked(c, s)
    ensures OutcomesTracked(c, OfferHandled(c, s, i, bid))
  {
  }

  lemma OutcomesAfterOutcome(c: Setup, s: Sys, i: nat, won: Bid)
    requires Inv(c, s) && OutcomesTracked(c, s) && i < |s.bidders| && Outcome(i, won) in s.net
    ensures OutcomesTracked(c, OutcomeHandled(s, i, won))
  {
  }

  lemma OutcomesNext(c: Setup, sched: nat -> Event, n: nat)
    requires OutcomesTracked(c, At(c, sched, n)) && !sched(n).Lose?
    ensures OutcomesTracked(c, At(c, sched, n + 1))
  {
    InvAlways(c, sched, n);
    var s, e := At(c, sched, n), sched(n);
    if e.Deliver? && e.m in s.net {
      match e.m
      case Start(i) =>
        if i < |s.bidders| {
          OutcomesAfterStart(c, s, i, e.hundredths);
        }
      case Offer(i, bid) => OutcomesAfterOffer(c, s, i, bid);
      case Outcome(i, won) =>
        if i < |s.bidders| {
          OutcomesAfterOutcome(c, s, i, won);
        }
    }
  }

  lemma OutcomesInitially(c: Setup)
    ensures OutcomesTracked(c, Initial(c))
  {
  }

  lemma {:induction false} OutcomesAlways(c: Setup, sched: nat -> Event, n: nat)
    requires Lossless(sched)
    ensures OutcomesTracked(c, At(c, sched, n))
  {
    if n == 0 {
      OutcomesInitially(c);
    } else {
      OutcomesAlways(c, sched, n - 1);
      OutcomesNext(c, sched, n - 1);
    }
  }

  /** If nothing is lost, the result of an ended auction has been handled by every bidder or is under way to it. */
  lemma ResultReachesAll(c: Setup, sched: nat -> Event, n: nat, i: nat)
    requires Lossless(sched) && At(c, sched, n).auctioneer.ended && i < |c.parties|
    ensures |At(c, sched, n).results| == 1
    ensures i in At(c, sched, n).settled || Outcome(i, At(c, sched, n).results[0]) in At(c, sched, n).net
  {
    OutcomesAlways(c, sched, n);
  }
}
