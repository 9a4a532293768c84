/** A fair auction closes exactly when enough bidders can afford to bid. */
module AuctionClosing {
  import opened Common
  import opened Auctioneers
  import opened Auction
  import opened AuctionResults

  /** An infinite run, state by state. */
  ghost predicate IsRun(c: Setup, sched: nat -> Event, run: nat -> Sys) {
    forall n: nat :: RunAt(c, sched, run, n)
  }

  ghost predicate RunAt(c: Setup, sched: nat -> Event, run: nat -> Sys, n: nat) {
    run(n) == At(c, sched, n)
  }

  /** The event delivers the message with a multiplier the bidder can draw. */
  ghost predicate Takes(e: Event, m: Msg) {
    e.Deliver? && e.m == m && 100 <= e.hundredths <= 1000
  }

  /** From step n on, the message is delivered, or the auction ends. */
  ghost predicate Served(sched: nat -> Event, run: nat -> Sys, n: nat, m: Msg) {
    exists k: nat :: n <= k && (run(k).auctioneer.ended || (m in run(k).net && Takes(sched(k), m)))
  }

  /** Every bid under way is eventually delivered unless the auction ends first. */
  ghost predicate OffersServed(sched: nat -> Event, run: nat -> Sys) {
    forall n: nat, i, bid {:trigger Served(sched, run, n, Offer(i, bid))} ::
      Offer(i, bid) in run(n).net ==> Served(sched, run, n, Offer(i, bid))
  }

  /** The auction is started at some point, and every message under way is eventually delivered
      unless the auction ends first. */
  ghost predicate Fair(sched: nat -> Event, run: nat -> Sys) {
    && (exists n: nat :: run(n).begun)
    && forall n: nat, m {:trigger Served(sched, run, n, m)} :: m in run(n).net ==> Served(sched, run, n, m)
  }

  /** What has happened stays so. */
  ghost predicate Keeps(s: Sys, s': Sys) {
    && (s.auctioneer.ended ==> s'.auctioneer.ended)
    && s.started <= s'.started
    && s.received <= s'.received
    && s.log <= s'.log
  }

  /** A start or a bid that is delivered has been handled. */
  ghost predicate Advances(s: Sys, e: Event, s': Sys) {
    && (forall i :: Takes(e, Start(i)) && Start(i) in s.net ==> i in s'.started)
    && (forall i, bid :: Takes(e, Offer(i, bid)) && Offer(i, bid) in s.net && !s.auctioneer.ended ==> i in s'.received)
  }

  lemma StartKeeps(c: Setup, s: Sys, i: nat, hundredths: nat)
    requires i < |s.bidders|
    ensures Keeps(s, StartHandled(c, s, i, hundredths)) && i in StartHandled(c, s, i, hundredths).started
  {
  }

  lemma OfferKeeps(c: Setup, s: Sys, i: nat, bid: Bid)
    ensures Keeps(s, OfferHandled(c, s, i, bid))
    ensures !s.auctioneer.ended ==> i in OfferHandled(c, s, i, bid).received
  {
  }

  lemma StepKeeps(c: Setup, s: Sys, e: Event)
    ensures Keeps(s, Apply(c, s, e))
  {
    if e.Deliver? && e.m in s.net {
      match e.m
      case Start(i) =>
        if i < |s.bidders| {
          StartKeeps(c, s, i, e.hundredths);
        }
      case Offer(i, bid) => OfferKeeps(c, s, i, bid);
      case Outcome(_, _) =>
    }
  }

  lemma StartAdvances(c: Setup, s: Sys, i: nat, hundredths: nat)
    requires i < |s.bidders| && 100 <= hundredths <= 1000 && Start(i) in s.net
    ensures Advances(s, Deliver(Start(i), hundredths), Apply(c, s, Deliver(Start(i), hundredths)))
  {
  }

  lemma OfferAdvances(c: Setup, s: Sys, i: nat, bid: Bid, hundredths: nat)
    requires Offer(i, bid) in s.net
    ensures Advances(s, Deliver(Offer(i, bid), hundredths), Apply(c, s, Deliver(Offer(i, bid), hundredths)))
  {
  }

  lemma StepAdvances(c: Setup, s: Sys, e: Event)
    requires Inv(c, s)
    ensures Advances(s, e, Apply(c, s, e))
  {
    if e.Deliver? && e.m in s.net && 100 <= e.hundredths <= 1000 {
      assert MsgOk(c, s, e.m);
      if e.m.Offer? {
        OfferAdvances(c, s, e.m.from, e.m.bid, e.hundredths);
      } else if e.m.Start? {
        StartAdvances(c, s, e.m.to, e.hundredths);
      }
    }
  }

  ghost predicate StepOk(c: Setup, sched: nat -> Event, run: nat -> Sys, n: nat) {
    Keeps(run(n), run(n + 1)) && Advances(run(n), sched(n), run(n + 1)) && Inv(c, run(n))
  }

  ghost predicate Behaves(c: Setup, sched: nat -> Event, run: nat -> Sys) {
    forall n: nat :: StepOk(c, sched, run, n)
  }

  lemma StepOfRun(c: Setup, sched: nat -> Event, run: nat -> Sys, n: nat)
    requires IsRun(c, sched, run)
    ensures StepOk(c, sched, run, n)
  {
    InvAlways(c, sched, n);
    assert RunAt(c, sched, run, n) && RunAt(c, sched, run, n + 1);
    StepKeeps(c, run(n), sched(n));
    StepAdvances(c, run(n), sched(n));
  }

  lemma RunBehaves(c: Setup, sched: nat -> Event, run: nat -> Sys)
    requires IsRun(c, sched, run)
    ensures Behaves(c, sched, run)
  {
    forall n: nat
      ensures StepOk(c, sched, run, n)
    {
      StepOfRun(c, sched, run, n);
    }
  }

  ghost predicate AllTracked(c: Setup, run: nat -> Sys) {
    forall n: nat :: Tracked(c, run(n))
  }

  lemma RunTracked(c: Setup, sched: nat -> Event, run: nat -> Sys)
    requires IsRun(c, sched, run) && KeepsOffers(sched)
    ensures AllTracked(c, run)
  {
    forall n: nat
      ensures Tracked(c, run(n))
    {
      TrackedAlways(c, sched, n);
      assert RunAt(c, sched, run, n);
    }
  }

  /** Bids are never withdrawn: those sent by step n are the first of those sent by step k. */
  lemma BidsAreFinal(c: Setup, sched: nat -> Event, run: nat -> Sys, n: nat, k: nat)
    requires IsRun(c, sched, run) && n <= k
    ensures run(n).log <= run(k).log
  {
    RunBehaves(c, sched, run);
    LogStays(c, sched, run, n, k);
  }

  lemma {:induction false} LogStays(c: Setup, sched: nat -> Event, run: nat -> Sys, n: nat, k: nat)
    requires Behaves(c, sched, run) && n <= k
    ensures run(n).log <= run(k).log
  {
    if n < k {
      LogStays(c, sched, run, n, k - 1);
      assert StepOk(c, sched, run, k - 1);
    }
  }

  lemma {:induction false} ReceivedStays(c: Setup, sched: nat -> Event, run: nat -> Sys, n: nat, k: nat, i: nat)
    requires Behaves(c, sched, run) && n <= k && i in run(n).received
    ensures i in run(k).received
  {
    if n < k {
      ReceivedStays(c, sched, run, n, k - 1, i);
      assert StepOk(c, sched, run, k - 1);
    }
  }

  // ----- which auctions end -----

  ghost predicate Ends(run: nat -> Sys) {
    exists n: nat :: run(n).auctioneer.ended
  }

  ghost predicate HandlesStart(run: nat -> Sys, i: nat) {
    exists n: nat :: i in run(n).started
  }

  /** The bidders that can afford more than the starting price and that a start gets to. */
  ghost function Reached(c: Setup, run: nat -> Sys): set<nat> {
    set i | i in c.Solvent() && HandlesStart(run, i)
  }

  lemma OfferTaken(c: Setup, sched: nat -> Event, run: nat -> Sys, n: nat, i: nat, bid: Bid) returns (k: nat)
    requires Behaves(c, sched, run) && OffersServed(sched, run) && Offer(i, bid) in run(n).net
    ensures run(k).auctioneer.ended || i in run(k).received
  {
    assert Served(sched, run, n, Offer(i, bid));
    k :| n <= k && (run(k).auctioneer.ended || (Offer(i, bid) in run(k).net && Takes(sched(k), Offer(i, bid))));
    if !run(k).auctioneer.ended {
      assert StepOk(c, sched, run, k);
      k := k + 1;
    }
  }

  /** The bid of every bidder reached is received, unless the auction ends first. */
  lemma BidReceivedEventually(c: Setup, sched: nat -> Event, run: nat -> Sys, i: nat) returns (k: nat)
    requires Behaves(c, sched, run) && AllTracked(c, run) && OffersServed(sched, run) && i in Reached(c, run)
    ensures run(k).auctioneer.ended || i in run(k).received
  {
    k :| i in run(k).started;
    assert Tracked(c, run(k));
    if !run(k).auctioneer.ended && i !in run(k).received {
      k := OfferTaken(c, sched, run, k, i, run(k).placed[i]);
    }
  }

  ghost predicate ReceivedUpTo(who: set<nat>, s: Sys, j: nat) {
    forall i :: 0 <= i < j && i in who ==> i in s.received
  }

  lemma {:induction false} EndedStays(c: Setup, sched: nat -> Event, run: nat -> Sys, n: nat, k: nat)
    requires Behaves(c, sched, run) && n <= k && run(n).auctioneer.ended
    ensures run(k).auctioneer.ended
  {
    if n < k {
      EndedStays(c, sched, run, n, k - 1);
      assert StepOk(c, sched, run, k - 1);
    }
  }

  lemma {:induction false} AllReceivedEventually(c: Setup, sched: nat -> Event, run: nat -> Sys, j: nat)
    returns (k: nat)
    requires Behaves(c, sched, run) && AllTracked(c, run) && OffersServed(sched, run) && j <= |c.parties|
    ensures run(k).auctioneer.ended || ReceivedUpTo(Reached(c, run), run(k), j)
  {
    if j == 0 {
      k := 0;
    } else {
      k := AllReceivedEventually(c, sched, run, j - 1);
      if !run(k).auctioneer.ended && j - 1 in Reached(c, run) {
        var k' := BidReceivedEventually(c, sched, run, j - 1);
        k := Later(c, sched, run, Reached(c, run), k, k', j);
      }
    }
  }

  /** Of two moments, the later one combines what was achieved by both. */
  lemma Later(c: Setup, sched: nat -> Event, run: nat -> Sys, who: set<nat>, k0: nat, k1: nat, j: nat) returns (k: nat)
    requires Behaves(c, sched, run) && j > 0
    requires ReceivedUpTo(who, run(k0), j - 1)
    requires run(k1).auctioneer.ended || j - 1 in run(k1).received
    ensures run(k).auctioneer.ended || ReceivedUpTo(who, run(k), j)
  {
    k := if k0 <= k1 then k1 else k0;
    if run(k1).auctioneer.ended {
      EndedStays(c, sched, run, k1, k);
    } else {
      ReceivedStays(c, sched, run, k1, k, j - 1);
      forall i | 0 <= i < j - 1 && i in who
        ensures i in run(k).received
      {
        ReceivedStays(c, sched, run, k0, k, i);
      }
    }
  }

  /** Those whose bids were received have handled a start and can afford to bid. */
  lemma ReceivedWereReached(c: Setup, run: nat -> Sys, n: nat)
    requires Inv(c, run(n)) && Tracked(c, run(n))
    ensures |run(n).received| <= |Reached(c, run)|
  {
    var received := run(n).received;
    forall i | i in received
      ensures i in Reached(c, run)
    {
      var k :| 0 <= k < |received| && received[k] == i;
      assert i in run(n).started;
    }
    DistinctLength(received);
    SubsetSize(Elements(received), Reached(c, run));
  }

  lemma AllReceivedIsEnough(c: Setup, run: nat -> Sys, k: nat)
    requires Inv(c, run(k)) && !run(k).auctioneer.ended && 1 <= c.expected
    requires ReceivedUpTo(Reached(c, run), run(k), |c.parties|)
    ensures |Reached(c, run)| < c.expected
  {
    DistinctLength(run(k).received);
    SubsetSize(Reached(c, run), Elements(run(k).received));
  }

  /** If no bid is lost, whatever happens to starts and results, the auction ends if and only if a positive
      number of bidders is expected and starts get to as many that can afford to bid. */
  lemma AuctionEndsIff(c: Setup, sched: nat -> Event, run: nat -> Sys)
    requires IsRun(c, sched, run) && KeepsOffers(sched) && OffersServed(sched, run)
    ensures Ends(run) <==> 1 <= c.expected <= |Reached(c, run)|
  {
    RunBehaves(c, sched, run);
    RunTracked(c, sched, run);
    if Ends(run) {
      var n: nat :| run(n).auctioneer.ended;
      assert StepOk(c, sched, run, n) && Tracked(c, run(n));
      ReceivedWereReached(c, run, n);
    } else if 1 <= c.expected <= |Reached(c, run)| {
      var k := AllReceivedEventually(c, sched, run, |c.parties|);
      assert StepOk(c, sched, run, k);
      AllReceivedIsEnough(c, run, k);
    }
  }

  /** If a start gets to every bidder unless the auction ends, only the budgets matter. */
  lemma EveryoneReached(c: Setup, sched: nat -> Event, run: nat -> Sys)
    requires IsRun(c, sched, run) && KeepsOffers(sched) && OffersServed(sched, run)
    requires forall i: nat :: i < |c.parties| && !Ends(run) ==> HandlesStart(run, i)
    ensures Ends(run) <==> 1 <= c.expected <= |c.Solvent()|
  {
    AuctionEndsIff(c, sched, run);
    SubsetSize(Reached(c, run), c.Solvent());
    if !Ends(run) {
      assert Reached(c, run) == c.Solvent();
    }
  }

  // ----- when nothing is lost -----

  /** In a fair run that loses nothing every bidder handles a start, unless the auction ends first. */
  lemma StartHandledEventually(c: Setup, sched: nat -> Event, run: nat -> Sys, i: nat)
    requires IsRun(c, sched, run) && Lossless(sched) && Fair(sched, run) && i < |c.parties| && !Ends(run)
    ensures HandlesStart(run, i)
  {
    var n: nat :| run(n).begun;
    StartsAlways(c, sched, n);
    assert RunAt(c, sched, run, n);
    if i !in run(n).started {
      assert Served(sched, run, n, Start(i));
      var k: nat :| n <= k && (run(k).auctioneer.ended || (Start(i) in run(k).net && Takes(sched(k), Start(i))));
      StepOfRun(c, sched, run, k);
      assert i in run(k + 1).started;
    }
  }

  /** A fair auction that is started ends if and only if a positive number of bidders is expected and
      that many can afford more than the starting price. */
  lemma FairAuctionEndsIff(c: Setup, sched: nat -> Event, run: nat -> Sys)
    requires IsRun(c, sched, run) && Lossless(sched) && Fair(sched, run)
    ensures Ends(run) <==> 1 <= c.expected <= |c.Solvent()|
  {
    forall i: nat | i < |c.parties| && !Ends(run)
      ensures HandlesStart(run, i)
    {
      StartHandledEventually(c, sched, run, i);
    }
    EveryoneReached(c, sched, run);
  }

  // ----- when starts may be lost, but are repeated -----

  ghost predicate RepeatsAfter(sched: nat -> Event, n: nat) {
    exists k: nat :: n <= k && sched(k) == Repeat
  }

  ghost predicate StartUnderWayAfter(run: nat -> Sys, i: nat, n: nat) {
    exists k: nat :: n <= k && Start(i) in run(k).net
  }

  /** A start that is put under way again and again gets through at last. */
  ghost predicate StartGetsThrough(sched: nat -> Event, run: nat -> Sys, i: nat) {
    (forall n: nat :: StartUnderWayAfter(run, i, n)) ==>
      exists k: nat :: Start(i) in run(k).net && Takes(sched(k), Start(i))
  }

  /** A repeat before the auction has ended puts a start to every bidder under way. */
  lemma RepeatSends(c: Setup, s: Sys, i: nat)
    requires Inv(c, s) && c.repeats && !s.auctioneer.ended && i < |c.parties|
    ensures Start(i) in Apply(c, s, Repeat).net
  {
  }

  lemma RepeatedStartArrives(c: Setup, sched: nat -> Event, run: nat -> Sys, i: nat)
    requires IsRun(c, sched, run) && c.repeats && i < |c.parties| && !Ends(run)
    requires (forall n: nat :: RepeatsAfter(sched, n)) && StartGetsThrough(sched, run, i)
    ensures HandlesStart(run, i)
  {
    forall n: nat
      ensures StartUnderWayAfter(run, i, n)
    {
      assert RepeatsAfter(sched, n);
      var k: nat :| n <= k && sched(k) == Repeat;
      StepOfRun(c, sched, run, k);
      assert RunAt(c, sched, run, k) && RunAt(c, sched, run, k + 1);
      RepeatSends(c, run(k), i);
      assert Start(i) in run(k + 1).net;
    }
    var k: nat :| Start(i) in run(k).net && Takes(sched(k), Start(i));
    StepOfRun(c, sched, run, k);
    assert i in run(k + 1).started;
  }

  /** The variant that repeats the start until the auction has ended does not depend on any single start:
      whichever are lost, it ends under the same condition, provided that of infinitely many starts to a
      bidder one gets through. */
  lemma RepeatingAuctionEndsIff(c: Setup, sched: nat -> Event, run: nat -> Sys)
    requires IsRun(c, sched, run) && KeepsOffers(sched) && OffersServed(sched, run)
    requires c.repeats && (forall n: nat :: RepeatsAfter(sched, n))
    requires forall i: nat :: i < |c.parties| ==> StartGetsThrough(sched, run, i)
    ensures Ends(run) <==> 1 <= c.expected <= |c.Solvent()|
  {
    forall i: nat | i < |c.parties| && !Ends(run)
      ensures HandlesStart(run, i)
    {
      RepeatedStartArrives(c, sched, run, i);
    }
    EveryoneReached(c, sched, run);
  }
}
