/** The handlers of the single-item auction as state-changing methods, each proved against a
    function from the old state to the new one. Amounts are real numbers. */
module Auctioneers {
  import opened Common

  datatype Bid = Bid(bidder: string, amount: real)

  /** The position of the first bid whose amount no other exceeds. */
  function FirstMaxIndex(bids: seq<Bid>): (k: nat)
    requires bids != []
    ensures k < |bids| && IsFirstMax(bids, k)
  {
    var last := |bids| - 1;
    if last == 0 then 0
    else
      var k := FirstMaxIndex(bids[..last]);
      assert forall j :: 0 <= j < last ==> bids[..last][j] == bids[j];
      if bids[last].amount > bids[k].amount then last else k
  }

  function FirstMax(bids: seq<Bid>): (best: Bid)
    requires bids != []
    ensures exists k :: 0 <= k < |bids| && IsFirstMax(bids, k) && bids[k] == best
  {
    bids[FirstMaxIndex(bids)]
  }

  ghost predicate IsFirstMax(bids: seq<Bid>, k: nat)
    requires k < |bids|
  {
    && (forall j :: 0 <= j < |bids| ==> bids[j].amount <= bids[k].amount)
    && (forall j :: 0 <= j < k ==> bids[j].amount < bids[k].amount)
  }

  // ----- bidders -----

  datatype BidderState = BidderState(name: string, budget: real, hasBid: bool)

  function Min(a: real, b: real): real {
    if a <= b then a else b
  }

  /** The bid for a multiplier given in hundredths. */
  function BidAmount(budget: real, price: real, hundredths: nat): real {
    Min(budget, price * (hundredths as real / 100.0))
  }

  /** It is that multiple of the price unless the budget is less. */
  lemma BidIsMultiple(budget: real, price: real, hundredths: nat)
    ensures var asked := price * hundredths as real;
      && (asked <= 100.0 * budget ==> 100.0 * BidAmount(budget, price, hundredths) == asked)
      && (asked > 100.0 * budget ==> BidAmount(budget, price, hundredths) == budget)
  {
    assert 100.0 * (price * (hundredths as real / 100.0)) == price * hundredths as real;
  }

  function OnStart(b: BidderState, price: real, hundredths: nat): (BidderState, Option<Bid>) {
    if !b.hasBid && b.budget > price then
      (b.(hasBid := true), Some(Bid(b.name, BidAmount(b.budget, price, hundredths))))
    else (b, None)
  }

  function OnResult(b: BidderState, won: Bid): BidderState {
    if won.bidder == b.name then b.(budget := b.budget - won.amount) else b
  }

  class Bidder {
    const name: string
    var budget: real
    var hasBid: bool

    constructor (name: string, budget: real)
      ensures State() == BidderState(name, budget, false)
    {
      this.name, this.budget, hasBid := name, budget, false;
    }

    ghost function State(): BidderState
      reads this
    {
      BidderState(name, budget, hasBid)
    }

    method HandleAuctionStart(price: real, hundredths: nat) returns (bid: Option<Bid>)
      modifies this
      ensures bid.Some? <==> !old(hasBid) && old(budget) > price
      ensures hasBid == (old(hasBid) || bid.Some?) && budget == old(budget)
      ensures bid.Some? ==> bid.value.bidder == name
      ensures bid.Some? && price * hundredths as real <= 100.0 * budget ==>
        100.0 * bid.value.amount == price * hundredths as real
      ensures bid.Some? && price * hundredths as real > 100.0 * budget ==> bid.value.amount == budget
      ensures (State(), bid) == OnStart(old(State()), price, hundredths)
    {
      bid := None;
      if hasBid {
        return;
      }
      if budget > price {
        BidIsMultiple(budget, price, hundredths);
        bid := Some(Bid(name, BidAmount(budget, price, hundredths)));
        hasBid := true;
      }
    }

    method HandleAuctionResult(won: Bid)
      modifies this
      ensures hasBid == old(hasBid)
      ensures budget == old(budget) - if won.bidder == name then won.amount else 0.0
      ensures State() == OnResult(old(State()), won)
    {
      if won.bidder == name {
        budget := budget - won.amount;
      }
    }
  }

  // ----- the auctioneer -----

  datatype AuctioneerState = AuctioneerState(bids: seq<Bid>, ended: bool)

  /** The new state, and the result broadcast when the bid was the last one expected. */
  function OnBid(st: AuctioneerState, expected: int, bid: Bid): (AuctioneerState, Option<Bid>) {
    if st.ended then (st, None)
    else
      var bids := st.bids + [bid];
      if |bids| == expected then (AuctioneerState(bids, true), Some(FirstMax(bids)))
      else (AuctioneerState(bids, false), None)
  }

  /** What an introduction does to the agents connected, and whether it starts the auction: they are then
      as many as expected, however often each of them was introduced. */
  function OnConnected(connected: set<string>, expected: int, id: string): (set<string>, bool) {
    (connected + {id}, |connected + {id}| == expected)
  }

  /** What the auctioneer tells everyone in the end. */
  datatype Notice = Result(won: Bid) | End

  class Auctioneer {
    const expectedBidders: int
    var connected: set<string>
    var bids: seq<Bid>
    var auctionEnded: bool
    var notices: seq<Notice>
    var stopped: bool

    constructor (expectedBidders: int)
      ensures this.expectedBidders == expectedBidders && State() == AuctioneerState([], false)
      ensures connected == {} && notices == [] && !stopped
    {
      this.expectedBidders, connected := expectedBidders, {};
      bids, auctionEnded, notices, stopped := [], false, [], false;
    }

    ghost function State(): AuctioneerState
      reads this
    {
      AuctioneerState(bids, auctionEnded)
    }

    /** The agent enters an introduced id in its registry before it calls this handler. */
    method OnAgentConnected(id: string) returns (start: bool)
      modifies this`connected
      ensures (connected, start) == OnConnected(old(connected), expectedBidders, id)
    {
      connected := connected + {id};
      start := |connected| == expectedBidders;
    }

    method HandleBid(bid: Bid) returns (result: Option<Bid>)
      modifies this
      ensures old(auctionEnded) ==> bids == old(bids) && auctionEnded && result.None?
      ensures !old(auctionEnded) ==> bids == old(bids) + [bid] && (auctionEnded <==> |bids| == expectedBidders)
      ensures result.Some? <==> !old(auctionEnded) && auctionEnded
      ensures result.Some? ==> exists k ::
        && 0 <= k < |bids| && result.value == bids[k]
        && (forall j :: 0 <= j < |bids| ==> bids[j].amount <= bids[k].amount)
        && (forall j :: 0 <= j < k ==> bids[j].amount < bids[k].amount)
      ensures notices == old(notices) + if result.Some? then [Result(result.value), End] else []
      ensures stopped == (old(stopped) || result.Some?) && connected == old(connected)
      ensures (State(), result) == OnBid(old(State()), expectedBidders, bid)
    {
      result := None;
      if auctionEnded {
        return;
      }
      bids := bids + [bid];
      if |bids| == expectedBidders {
        result := EndAuction();
      }
    }

    /** With at least one bid, the result is broadcast and the agent stopped before the end is announced. */
    method EndAuction() returns (result: Option<Bid>)
      modifies this
      ensures bids == old(bids) && auctionEnded && connected == old(connected)
      ensures result == if bids == [] then None else Some(FirstMax(bids))
      ensures result.Some? ==> exists k ::
        && 0 <= k < |bids| && result.value == bids[k]
        && (forall j :: 0 <= j < |bids| ==> bids[j].amount <= bids[k].amount)
        && (forall j :: 0 <= j < k ==> bids[j].amount < bids[k].amount)
      ensures notices == old(notices) + (if result.Some? then [Result(result.value)] else []) + [End]
      ensures stopped == (old(stopped) || bids != [])
    {
      auctionEnded := true;
      result := None;
      if bids != [] {
        result := Some(bids[FirstMaxIndex(bids)]);
        notices := notices + [Result(result.value)];
        stopped := true;
      }
      notices := notices + [End];
    }
  }
}
