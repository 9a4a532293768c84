/** The administrator's list of subscribed peers, compared with the log of subscription events. */
module PeerBook {
  import opened Common
  import Agents

  datatype PeerEvent = Subscribe(topic: string, peer: string) | Unsubscribe(topic: string, peer: string)

  type Book = map<string, seq<string>>

  function Without(peers: seq<string>, peer: string): seq<string> {
    if peers == [] then []
    else Without(peers[..|peers| - 1], peer) + if peers[|peers| - 1] != peer then [peers[|peers| - 1]] else []
  }

  function Listed(book: Book, topic: string): seq<string> {
    if topic in book then book[topic] else []
  }

  function Handled(book: Book, e: PeerEvent): Book {
    match e
    case Subscribe(topic, peer) => book[topic := Listed(book, topic) + [peer]]
    case Unsubscribe(topic, peer) => if topic in book then book[topic := Without(book[topic], peer)] else book
  }

  /** The book after a log of events, from the oldest to the latest. */
  function After(log: seq<PeerEvent>): Book {
    if log == [] then map[] else Handled(After(log[..|log| - 1]), log[|log| - 1])
  }

  class Node {
    const admin: bool
    var connectedPeers: Book

    constructor (admin: bool)
      ensures this.admin == admin && connectedPeers == map[]
    {
      this.admin, connectedPeers := admin, map[];
    }

    /** Only an administrator keeps the book; every node tells its listener about subscriptions. */
    method HandleSubscription(e: PeerEvent) returns (forwarded: Option<Agents.Incoming>)
      modifies `connectedPeers
      ensures forwarded == match e
        case Subscribe(topic, peer) => Some(Agents.Subscribed(topic, peer))
        case Unsubscribe(_, _) => None
      ensures admin && e.Subscribe? ==>
        var listed := if e.topic in old(connectedPeers) then old(connectedPeers)[e.topic] else [];
        connectedPeers == old(connectedPeers)[e.topic := listed + [e.peer]]
      ensures connectedPeers == if admin then Handled(old(connectedPeers), e) else old(connectedPeers)
    {
      forwarded := None;
      match e
      case Subscribe(topic, peer) =>
        if admin {
          if topic !in connectedPeers {
            connectedPeers := connectedPeers[topic := []];
          }
          connectedPeers := connectedPeers[topic := connectedPeers[topic] + [peer]];
        }
        forwarded := Some(Agents.Subscribed(topic, peer));
      case Unsubscribe(topic, peer) =>
        if admin && topic in connectedPeers {
          var kept := Retain(connectedPeers[topic], peer);
          connectedPeers := connectedPeers[topic := kept];
        }
    }
  }

  /** What is kept are the other peers in their order, each at the position it was taken from. */
  lemma {:induction false} WithoutKeepsOrder(peers: seq<string>, peer: string) returns (at: seq<nat>)
    ensures |at| == |Without(peers, peer)|
    ensures forall k :: 0 <= k < |at| ==> at[k] < |peers| && peers[at[k]] == Without(peers, peer)[k] != peer
    ensures forall j, k :: 0 <= j < k < |at| ==> at[j] < at[k]
    ensures forall k: nat :: k < |peers| && peers[k] != peer ==> k in at
  {
    at := [];
    if peers != [] {
      var last := |peers| - 1;
      at := WithoutKeepsOrder(peers[..last], peer);
      if peers[last] != peer {
        at := at + [last];
      }
    }
  }

  method Retain(peers: seq<string>, peer: string) returns (kept: seq<string>)
    ensures kept == Without(peers, peer)
  {
    kept := [];
    for i := 0 to |peers|
      invariant kept == Without(peers[..i], peer)
    {
      assert peers[..i + 1][..i] == peers[..i];
      if peers[i] != peer {
        kept := kept + [peers[i]];
      }
    }
    assert peers[..|peers|] == peers;
  }

  // ----- the book and the log -----

  function Subscriptions(log: seq<PeerEvent>, topic: string, peer: string): nat {
    if log == [] then 0
    else Subscriptions(log[..|log| - 1], topic, peer) + if log[|log| - 1] == Subscribe(topic, peer) then 1 else 0
  }

  /** From position k on, the log does not unsubscribe the peer, and just before that it did, if k > 0. */
  ghost predicate SinceUnsubscribed(log: seq<PeerEvent>, k: nat, topic: string, peer: string) {
    && k <= |log|
    && (k > 0 ==> log[k - 1] == Unsubscribe(topic, peer))
    && forall j :: k <= j < |log| ==> log[j] != Unsubscribe(topic, peer)
  }

  lemma {:induction false} WithoutRemoves(peers: seq<string>, peer: string, other: string)
    ensures multiset(Without(peers, peer))[other] == if other == peer then 0 else multiset(peers)[other]
  {
    if peers != [] {
      WithoutRemoves(peers[..|peers| - 1], peer, other);
      assert peers == peers[..|peers| - 1] + [peers[|peers| - 1]];
    }
  }

  /** How often a peer is listed under a topic. */
  function Times(book: Book, topic: string, peer: string): nat {
    multiset(Listed(book, topic))[peer]
  }

  /** The effect of one event on one peer under one topic. */
  lemma OneEvent(book: Book, e: PeerEvent, topic: string, peer: string)
    ensures Times(Handled(book, e), topic, peer)
         == if e == Subscribe(topic, peer) then Times(book, topic, peer) + 1
            else if e == Unsubscribe(topic, peer) then 0
            else Times(book, topic, peer)
  {
    if e.Unsubscribe? && e.topic == topic {
      WithoutRemoves(Listed(book, topic), e.peer, peer);
    }
  }

  /** A peer is listed under a topic as often as it has subscribed since it last unsubscribed. */
  lemma {:induction false} ListedPerSubscription(log: seq<PeerEvent>, k: nat, topic: string, peer: string)
    requires SinceUnsubscribed(log, k, topic, peer)
    ensures Times(After(log), topic, peer) == Subscriptions(log[k..], topic, peer)
  {
    if log != [] {
      var earlier, last := log[..|log| - 1], log[|log| - 1];
      OneEvent(After(earlier), last, topic, peer);
      if k < |log| {
        ListedPerSubscription(earlier, k, topic, peer);
        assert log[k..][..|log[k..]| - 1] == earlier[k..];
      }
    }
  }

  lemma {:induction false} LastUnsubscribed(log: seq<PeerEvent>, topic: string, peer: string) returns (k: nat)
    ensures SinceUnsubscribed(log, k, topic, peer)
  {
    if log == [] {
      k := 0;
    } else if log[|log| - 1] == Unsubscribe(topic, peer) {
      k := |log|;
    } else {
      k := LastUnsubscribed(log[..|log| - 1], topic, peer);
    }
  }

  lemma {:induction false} SomeSubscription(log: seq<PeerEvent>, topic: string, peer: string)
    ensures Subscriptions(log, topic, peer) > 0 <==> Subscribe(topic, peer) in log
  {
    if log != [] {
      SomeSubscription(log[..|log| - 1], topic, peer);
      assert log == log[..|log| - 1] + [log[|log| - 1]];
    }
  }

  /** The peer subscribed at position i and has not unsubscribed since. */
  ghost predicate SubscribedAt(log: seq<PeerEvent>, i: nat, topic: string, peer: string) {
    i < |log| && log[i] == Subscribe(topic, peer) && forall j :: i < j < |log| ==> log[j] != Unsubscribe(topic, peer)
  }

  lemma SubscribedSince(log: seq<PeerEvent>, k: nat, topic: string, peer: string)
    requires SinceUnsubscribed(log, k, topic, peer)
    ensures Subscribe(topic, peer) in log[k..] <==> exists i: nat :: SubscribedAt(log, i, topic, peer)
  {
    if Subscribe(topic, peer) in log[k..] {
      var i :| 0 <= i < |log[k..]| && log[k..][i] == Subscribe(topic, peer);
      assert SubscribedAt(log, k + i, topic, peer);
    }
    if i: nat :| SubscribedAt(log, i, topic, peer) {
      assert i >= k;
      assert log[k..][i - k] == Subscribe(topic, peer);
    }
  }

  /** A peer is listed under a topic if and only if its last event for that topic was a subscription. */
  lemma ListedIffLastSubscribed(log: seq<PeerEvent>, topic: string, peer: string)
    ensures peer in Listed(After(log), topic) <==> exists i: nat :: SubscribedAt(log, i, topic, peer)
  {
    var k := LastUnsubscribed(log, topic, peer);
    ListedPerSubscription(log, k, topic, peer);
    SomeSubscription(log[k..], topic, peer);
    SubscribedSince(log, k, topic, peer);
    assert peer in Listed(After(log), topic) <==> Times(After(log), topic, peer) > 0;
  }
}
