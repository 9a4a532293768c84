# Ceylon: models and proofs

Ceylon runs agents that exchange messages over a gossip network. A Rust core moves messages between
agents and registers them with each other; Python protocols run on top. This project models the parts
that decide something by themselves and proves, for every input and every run, what they guarantee.

| files | what they model |
|---|---|
| `TimeSlots`, `Coordinators` | hour slots, the availability test, and the handlers of the two meeting coordinators as classes |
| `Negotiation`, `NegotiationSafety`, `NegotiationLiveness`, `SchedulerBudget` | the meeting negotiation as a step system under either coordinator, with messages delivered in any order |
| `NegotiationEarliest`, `NegotiationLookalike`, `NegotiationExample` | when the announced hour is the earliest possible, and what a coordinator can know about that |
| `NegotiationSchedules`, `NegotiationLosses`, `SchedulerRecovery`, `NegotiationRecovery` | fair schedules, and what becomes of a negotiation that has lost messages |
| `Auctioneers`, `Auction`, `AuctionResults`, `AuctionClosing` | the single-item auction: handlers as classes, and the step system |
| `Agents`, `Network`, `NetworkResults`, `NetworkListening`, `NetworkDelivery`, `NetworkDeadlock`, `NetworkBlocking` | an agent's queues, tasks, filters and registry, and a network of such agents |
| `StartGate` | the auction's start condition on top of the registry |
| `NetworkFile`, `NetworkFileRoundTrip` | printing and parsing of the `.ceylon_network` file |
| `Calendar` | the leave calendar's day scan and the merging of ranges |
| `PeerBook` | the administrator's list of subscribed peers |
| `Common` | options, duplicate-free lists, set sizes, induction over steps |

How the step systems are set up:

- A run is given by a schedule, an arbitrary sequence of events; `At(c, sched, n)` is the state after n of
  them. Each event is one handler call or one queue operation. Handlers are atomic because the listener
  awaits each of them before it takes the next message, and looks at the cancellation in between
  (`uniffied_agent.rs:403-440`, `:461-464`), so no coordinator handler runs after it has stopped.
- Messages in flight form a multiset: they arrive in any order. Safety results also allow messages to be
  lost; results about delivery, deadlock and termination are about schedules that lose none (`Lossless`), or none from
  some step on (`LosslessFrom`), and termination needs that every message is delivered at last (`Fair`).
  No schedule copies a message. Fair schedules exist for every setup and from every state (`NegotiationSchedules`).
- States carry a record of what has happened (broadcasts made, answers handled, results announced, bids
  sent, messages submitted, published, taken up and handled). No step looks at it.
- Both coordinators share one step system; `Rule` selects the handlers. `Threshold` is what each needs to
  stop: at least one name for the scheduler, at least two for the coordinator, which never compares the
  first acceptance of a slot with the minimum (`example_one.py:107-108`).

What the proofs show about the code that is not obvious from reading it:

- A fair negotiation stops exactly when some hour from 8 on suits enough distinct participants, and that is
  so for both coordinators, stale rejections, repeated connects and resets included.
- The hour announced need not be the earliest possible one (`LaterHourCanWin`). From the answers it has handled
  a coordinator can know that no earlier hour is possible if and only if each of them lacks names even when
  everyone is counted in whose answer about that hour has not been handled (`EarliestIff`). If an hour is open in
  this sense, there is a run in which it was possible and which looks the same to the coordinator
  (`FittingSetupLooksAlike`). If answers are handled hour by hour, no earlier hour is open.
- A scheduler asks on the first connect only, so that requests lost then, also by participants that join later,
  are not repeated. Whatever it has lost, once nothing more is lost it stops exactly if the acceptances
  recorded and under way suffice for some hour, or if a rejection is under way to make it go on and some hour
  after the latest one suits enough participants (`SchedulerRecoversIff`).
- A later connect restarts the other coordinator; it is then sure to stop exactly if some hour suits enough
  participants and is hour 8, or has no rejection of it or of a later hour under way at that moment, or has
  enough acceptances recorded and under way (`RestartStopsIff`): a stale rejection can carry the proposal past
  hours that are never asked about again.
- A workspace id, administrator or address that ends in a carriage return does not survive the
  configuration file unless it happens to be printed last; line feeds never do; equals signs always do.
- If the gossip layer loses nothing, messages are conserved from the sender's channel to the receiver's handler
  (`MessagesAreConserved`), and an introduction that has been published is on its way to every other agent until
  it is registered there (`IntroductionsRegister`). What a listener has registered, called and sent is a function of the events it has
  seen (`ListenerFollowsEvents`); one acknowledgement, of whomever, is what may end a client's introductions.
- An agent's node and its listener can wait for each other for ever, each for room in the queue that the other
  should empty; the listener also inside a handler that sends (`StuckIff`, `BlockedForEver`). This can happen to
  every agent but a client without any other agent, whatever the size of the queues (`CanBlockIff`).
- If no bid is lost, an auction ends exactly if starts get to as many bidders that can afford to bid as are
  expected (`AuctionEndsIff`). Repeating the start makes the loss of starts harmless (`RepeatingAuctionEndsIff`).
- In the auctions that start when enough agents have connected, the start is repeated whenever an agent
  introduces itself again while the count is right, but a bidder never bids twice.

## Model

| member | source | states |
|---|---|---|
| TimeSlots.Participant.AttendsMeansContained | bindings/ceylon/examples/time_scheduling/time_scheduling.py:43-61 | a participant reports itself available for a slot iff one of its windows contains the whole slot by hour; dates play no part |
| Coordinators.Scheduler.constructor | bindings/ceylon/examples/time_scheduling/time_scheduling.py:69-74 | a new scheduler has proposed nothing, recorded nobody and not stopped |
| Coordinators.Scheduler.HandleConnection | bindings/ceylon/examples/time_scheduling/time_scheduling.py:76-84 | the first connect proposes hour 8 for the meeting's date and duration and asks everyone; later ones change nothing. The effect is that of `SchedulerOnConnect`, the function the run theorems are about |
| Coordinators.Scheduler.HandleResponse | bindings/ceylon/examples/time_scheduling/time_scheduling.py:86-108 | a rejection proposes the hour after the current one, of the meeting's duration, and does nothing before any proposal; an acceptance enters the name once under date and start, and stops and announces iff that tally is then as large as the minimum. The effect is that of `SchedulerOnAnswer` |
| Coordinators.Coordinator.OnAgentConnected | bindings/ceylon/examples/example_one.py:86-90 | every connect proposes hour 8 again, for the meeting's date and duration; the effect is that of `CoordinatorOnConnect` |
| Coordinators.Coordinator.OnMessage | bindings/ceylon/examples/example_one.py:92-117 | a rejection proposes the hour after the rejected one, of the meeting's duration, if that ends later than the current proposal; an acceptance enters the name once under the slot, and stops and announces iff the slot had a tally, the name is new and the minimum is reached. The effect is that of `CoordinatorOnAnswer` |
| Negotiation.AcceptanceRecorded | bindings/ceylon/examples/time_scheduling/time_scheduling.py:98-103 | under either rule an acceptance adds the name to the tally of its slot unless it is there, and leaves the other tallies and the proposal alone and asks nobody |
| Negotiation.RejectionAdvances | bindings/ceylon/examples/example_one.py:109-117 | under either rule a rejection keeps the tallies; the scheduler moves one hour on from its proposal, the coordinator to the hour after the rejected one, and only forwards |
| Negotiation.AcceptanceTallied | bindings/ceylon/examples/example_one.py:96-108 | an acceptance stops the coordinator iff it brings its tally to the threshold, 1 or 2 at least, and then no other tally has reached it |
| Negotiation.InvAlways | bindings/ceylon/examples/time_scheduling/time_scheduling.py:76-108 | the invariant of the negotiation holds in every state of every run |
| NegotiationSafety.AnnouncedMeetingIsSound | bindings/ceylon/examples/time_scheduling/time_scheduling.py:98-108 | at most one meeting is announced, exactly when the coordinator stops; it is of the meeting's date and duration, starts at 8 or later, and names at least the minimum and the threshold of distinct names, each of a participant with one window that holds all of it |
| NegotiationSafety.SlotsFitMeeting | bindings/ceylon/examples/time_scheduling/time_scheduling.py:79-93 | in every run each slot proposed, asked about, answered or announced is of the meeting's date and duration |
| NegotiationSafety.AttendingIff | bindings/ceylon/examples/time_scheduling/time_scheduling.py:43-61 | those that can attend at an hour are the names with one window that holds the meeting from that hour on |
| NegotiationSafety.StopNeedsAttendance | bindings/ceylon/examples/example_one.py:96-108 | a run that stops has found an hour from 8 on that enough distinct participants can attend |
| NegotiationSafety.SchedulerAsksOneByOne | bindings/ceylon/examples/time_scheduling/time_scheduling.py:78-96 | the scheduler asks for exactly 8, 9, 10, ..., one hour per handled rejection and one for the first connect |
| NegotiationSafety.AsksHaveNoGaps | bindings/ceylon/examples/example_one.py:86-117 | the hours ever asked about have no gap from 8 on, and between two connects they strictly increase |
| NegotiationSafety.TrackedAlways | bindings/ceylon/examples/example_one.py:86-117 | if nothing is lost, every participant always has a message about the current proposal under way or is recorded for it, and every answer to any hour asked about is under way or has taken effect |
| NegotiationSafety.NeverStuck | bindings/ceylon/examples/time_scheduling/time_scheduling.py:78-108 | with enough distinct names, a started negotiation that has not stopped has a message about the current proposal under way, resets and stale rejections included |
| NegotiationEarliest.RecordedOrPending | bindings/ceylon/examples/time_scheduling/time_scheduling.py:49-61 | those that can attend an hour asked about are exactly the recorded ones and those whose acceptance is still to come |
| NegotiationEarliest.EarliestIff | bindings/ceylon/examples/time_scheduling/time_scheduling.py:86-108 | at any moment of any run, the answers handled show that no hour before a given one is possible, whatever the other answers may be, iff each of those hours lacks names even with all counted in whose answer about it has not been handled |
| NegotiationEarliest.EarliestWhenNoneOpen | bindings/ceylon/examples/time_scheduling/time_scheduling.py:86-108 | if every hour before a given one lacks names in this sense, none of them suits enough participants |
| NegotiationLookalike.FittingSetupLooksAlike | bindings/ceylon/examples/time_scheduling/time_scheduling.py:86-108 | whatever setup would have given the answers handled has a run in which the coordinator is in the same state and has asked, heard and announced the same, and which loses no more messages |
| NegotiationEarliest.LinearScan | bindings/ceylon/examples/time_scheduling/time_scheduling.py:86-108 | if nothing about an earlier hour is under way when the meeting is closed, the announced hour is the least from 8 on that enough participants can attend |
| NegotiationEarliest.InOrderFindsEarliest | bindings/ceylon/examples/time_scheduling/time_scheduling.py:86-108 | if answers are handled hour by hour, the negotiation computes the result of a linear scan |
| NegotiationExample.LaterHourCanWin | bindings/ceylon/examples/time_scheduling/time_scheduling.py:86-108 | a delivery order under which both coordinators announce 9 although 8 was possible |
| NegotiationLiveness.FairRunStopsIff | bindings/ceylon/examples/example_one.py:86-117 | under either rule a fair run stops iff some hour from 8 on suits as many distinct participants as the threshold |
| NegotiationSchedules.FairRunExists | libs/ceylon-core/src/workspace/uniffied_agent.rs:403-440 | every setup has a fair run that loses nothing: deliver in the order of sending |
| SchedulerRecovery.SchedulerRecoversIff | bindings/ceylon/examples/time_scheduling/time_scheduling.py:76-108 | from any moment after the first proposal, whatever was lost before, a fair run of the scheduler that loses nothing more stops iff the acceptances recorded and under way suffice for some hour, or a rejection is under way and some hour after the latest one suits enough participants |
| SchedulerRecovery.StopNeedsRecovery | bindings/ceylon/examples/time_scheduling/time_scheduling.py:76-108 | one half of that for all runs, fair or not, losing more or not: a scheduler that stops met the condition at every moment since its first proposal |
| SchedulerRecovery.SilenceIsFinal | bindings/ceylon/examples/time_scheduling/time_scheduling.py:76-84 | the special case of an empty network: nothing changes any more, however many participants connect |
| SchedulerRecovery.LostRequestBlocks | bindings/ceylon/examples/time_scheduling/time_scheduling.py:76-84 | the special case of one participant whose first request is lost: no continuation stops |
| NegotiationRecovery.NoJumpWhenClear | bindings/ceylon/examples/example_one.py:86-117 | a coordinator that restarts while no rejection about an hour or a later one is under way cannot get past that hour without asking about it |
| NegotiationRecovery.RestartStopsIff | bindings/ceylon/examples/example_one.py:86-117 | every fair continuation that loses nothing from a given connect on stops iff some hour suits enough participants and is 8, or has no rejection of it or of a later hour under way, or has enough acceptances recorded and under way |
| SchedulerBudget.WorkStep | bindings/ceylon/examples/time_scheduling/time_scheduling.py:76-108 | each delivery about an hour up to h takes exactly one off the remaining work up to h; no other step changes it |
| SchedulerBudget.DeliveryBudget | bindings/ceylon/examples/time_scheduling/time_scheduling.py:76-108 | deliveries made and work left up to hour h always add up to 2 N (h - 7) |
| SchedulerBudget.BudgetedDeliveryEnabled | bindings/ceylon/examples/time_scheduling/time_scheduling.py:78-108 | until it stops, a started negotiation has a message about an hour up to h under way, for any h enough participants can attend |
| Calendar.MergeAvailableRanges | bindings/ceylon/tests/agent/leave_handler/agents.py:173-192 | the loop computes `Merge`, for any list of ranges |
| Calendar.MergeIsCanonical | bindings/ceylon/tests/agent/leave_handler/agents.py:174-192 | merging sorted valid ranges, overlapping and nested ones included, keeps the days covered, leaves a free day between ranges and is idempotent |
| Calendar.CanonicalIsUnique | bindings/ceylon/tests/agent/leave_handler/agents.py:174-192 | two separated lists of ranges covering the same days are equal |
| Calendar.CanonicalIsShortest | bindings/ceylon/tests/agent/leave_handler/agents.py:174-192 | no list of ranges at all covers the same days with fewer ranges |
| Calendar.TeamCalendar.CheckAvailability | bindings/ceylon/tests/agent/leave_handler/agents.py:128-154 | the scan returns the canonical ranges of exactly those days of the period with more entries "present" than the department's rule, or than 1 without a rule; and for each day its coverage: the entries that are no holidays, those present, and that bound |
| Calendar.CountIsCardinality | bindings/ceylon/tests/agent/leave_handler/agents.py:156-160 | the coverage figures count the entries with the status in question |
| NetworkFile.UnifiedAgentConfig.UpdateFromFile | libs/ceylon-core/src/workspace/uniffied_agent.rs:51-79 | a setting becomes what follows `KEY=` on the last line of the text that starts so, without the carriage return of a line ending, and stays as it was if there is no such line; the port becomes the 16-bit number read there, or none; an unreadable file changes nothing. The effect is that of `Loaded` |
| NetworkFile.CollectSays | libs/ceylon-core/src/workspace/uniffied_agent.rs:53-63 | for any text and key, splitting into lines and pairs and collecting them finds exactly what the last line that sets the key, given by its positions in the text, sets it to |
| NetworkFile.UnifiedAgentConfig.WriteToFile | libs/ceylon-core/src/workspace/uniffied_agent.rs:81-102 | printing yields the four lines in an arbitrary order, `127.0.0.1` standing in for an absent address, or panics without a workspace, an administrator or a port |
| NetworkFile.UnifiedAgentConfig.CopyWith | libs/ceylon-core/src/workspace/uniffied_agent.rs:104-113 | all eight settings are taken over |
| NetworkFile.NewAgent | libs/ceylon-core/src/workspace/uniffied_agent.rs:138-169 | a new administrator records its own id and prints its settings; a client keeps what it was given and prints nothing |
| NetworkFile.ParseDigitsIff | libs/ceylon-core/src/workspace/uniffied_agent.rs:71-73 | digits parse iff they stand for a 16-bit number, and to that number |
| NetworkFile.PortRoundTrip | libs/ceylon-core/src/workspace/uniffied_agent.rs:71-91 | every 16-bit port is printed as digits without leading zeros and reads back as itself |
| NetworkFileRoundTrip.ValuesArrive | libs/ceylon-core/src/workspace/uniffied_agent.rs:53-63 | printed values without line feeds are read back under their keys, all but the last losing a final carriage return |
| NetworkFileRoundTrip.RestoresIff | libs/ceylon-core/src/workspace/uniffied_agent.rs:51-102 | printed in a given order, the four settings read back exactly into any configuration iff no value holds a line feed and none but the last ends in a carriage return |
| NetworkFileRoundTrip.RestoresInEveryOrderIff | libs/ceylon-core/src/workspace/uniffied_agent.rs:51-102 | they do so in every order iff workspace id, administrator and address hold no line feed and do not end in a carriage return |
| Auctioneers.FirstMaxIndex | bindings/ceylon/examples/auction/auction.py:94 | the winning bid is at least as high as all others and higher than all received before it |
| Auctioneers.Bidder.HandleAuctionStart | bindings/ceylon/examples/auction/auction_general.py:110-121 | a bidder bids iff it has not yet and its budget exceeds the price; the bid names it and is the multiplier's multiple of the price, or the budget if that is less. The effect is that of `OnStart` |
| Auctioneers.Bidder.HandleAuctionResult | bindings/ceylon/examples/auction/auction_general.py:124-130 | the winning amount is taken from the budget of the bidder named, and of no other; the effect is that of `OnResult` |
| Auctioneers.Auctioneer.OnAgentConnected | bindings/ceylon/examples/auction/single_item_auction.py:57-65 | the handler, and the registration that comes before it, have the effect of `OnConnected`, by which the auction as a whole is started |
| Auctioneers.Auctioneer.HandleBid | bindings/ceylon/examples/auction/auction_general.py:64-73 | a bid before the end is appended; the auction ends iff the bids are then as many as expected, with the first of the highest as the result; bids after the end are ignored. The effect is that of `OnBid` |
| Auctioneers.Auctioneer.EndAuction | bindings/ceylon/examples/auction/auction_general.py:75-83 | ending marks the auction; with bids, the first of the highest is announced and the agent stopped, and then, with or without bids, the end is announced |
| Auction.BidInRange | bindings/ceylon/examples/auction/auction.py:127-130 | with a multiplier of at least 1 and a nonnegative starting price the bid lies between price and budget; below the budget it is the multiple of the price, and at the budget the multiple is no less |
| Auction.InvAlways | bindings/ceylon/examples/auction/auction.py:70-142 | the invariant of the auction holds in every state of every run |
| AuctionResults.ClosesOnFirstHighest | bindings/ceylon/examples/auction/auction.py:70-98 | at most the expected number of bids is received, from distinct bidders; the auction has ended iff it is reached; exactly then one result was broadcast, the first of the highest bids |
| AuctionResults.OffersAreSingle | bindings/ceylon/examples/auction/auction.py:126-134 | a bid under way is the one its bidder placed, is under way once, and has not been received |
| AuctionResults.BidsAreAffordable | bindings/ceylon/examples/auction/auction.py:126-134 | every bid lies between the starting price and its bidder's initial budget |
| AuctionResults.BidsFollowMultipliers | bindings/ceylon/examples/auction/auction.py:126-134 | with distinct names, every bid ever sent was sent by the step that delivered a start to its bidder, and its amount is that step's multiplier, of 1.00 to 10.00, times the starting price, or the bidder's initial budget if that is less |
| AuctionResults.MoneyIsConserved | bindings/ceylon/examples/auction/auction.py:137-142 | with distinct names the budgets sum to the initial total, less the winning bid exactly when the winner has handled the result |
| AuctionResults.BudgetsStayNonnegative | bindings/ceylon/examples/auction/auction.py:137-142 | with distinct names no budget is overdrawn |
| AuctionResults.StartIsGated | bindings/ceylon/examples/auction/single_item_auction.py:57-70 | the auction is started after exactly those introductions that make the expected number of distinct ids; unless starts are repeated nobody bids before |
| AuctionResults.EndedIffEnoughSolvent | bindings/ceylon/examples/auction/auction_general.py:64-122 | when all bidders have handled a start and no bid is under way or was lost, the auction has ended iff enough bidders can afford more than the starting price |
| AuctionResults.EachBidsOnce | bindings/ceylon/examples/auction/single_item_auction.py:131-139 | of all bids ever sent no two are by the same bidder, however many starts it handles; bids under way and received are among them |
| AuctionResults.StartIsRepeated | bindings/ceylon/examples/auction/auction.py:102-108 | where the start is repeated, each repetition up to the end broadcasts a start to every bidder |
| AuctionResults.RepetitionEnds | bindings/ceylon/examples/auction/auction.py:102-108 | the first repetition after the end of the auction is the last |
| AuctionResults.ResultReachesAll | bindings/ceylon/examples/auction/auction.py:88-98 | if nothing is lost, every bidder has handled the one result of an ended auction or has it under way |
| AuctionClosing.BidsAreFinal | bindings/ceylon/examples/auction/single_item_auction.py:131-139 | the bids sent by some step are the first of those sent by any later one |
| AuctionClosing.AuctionEndsIff | bindings/ceylon/examples/auction/auction.py:70-134 | if no bid is lost and bids are delivered, whatever happens to starts and results, the auction ends iff a positive number of bidders is expected and starts get to that many that can afford more than the starting price |
| AuctionClosing.RepeatingAuctionEndsIff | bindings/ceylon/examples/auction/auction.py:102-108 | with the start repeated, whichever starts are lost, it ends iff a positive number of bidders is expected and that many can afford to bid, provided that of infinitely many starts to a bidder one gets through |
| AuctionClosing.FairAuctionEndsIff | bindings/ceylon/examples/auction/auction.py:70-134 | a fair auction that is started and loses nothing ends under the same condition |
| Agents.UnifiedAgent.SendDirect | libs/ceylon-core/src/workspace/uniffied_agent.rs:197-211 | a direct message with the sender's name, id and role joins the channel's end if there is room |
| Agents.UnifiedAgent.BroadcastPayload | libs/ceylon-core/src/workspace/uniffied_agent.rs:213-225 | the same for a message to all |
| Agents.UnifiedAgent.BroadcastTask | libs/ceylon-core/src/workspace/uniffied_agent.rs:542-559 | one turn of the broadcast task hands over the held message when there is room and then takes the next |
| Agents.UnifiedAgent.PublishNext | libs/sangedama/src/peer/node/node.rs:205-234 | the node publishes the oldest message of its inbox under its own id, unless it waits for the listener |
| Agents.UnifiedAgent.HandleGossip | libs/sangedama/src/peer/node/node.rs:259-302 | a node that is free takes up every broadcast and every direct message addressed to it, and no other, in order to pass it on |
| Agents.UnifiedAgent.HandleSubscribed | libs/sangedama/src/peer/node/node.rs:304-328 | a node that is free takes up subscriptions in the same way |
| Agents.UnifiedAgent.PassOn | libs/sangedama/src/peer/node/node.rs:278-299 | it passes them on as soon as the bounded queue to the listener has room |
| Agents.UnifiedAgent.ListenOnce | libs/ceylon-core/src/workspace/uniffied_agent.rs:409-519 | the listener's turn up to where it may have to wait, case by case: handler calls, registration, the end of introductions, for a newcomer's subscription an introduction by an administrator and a task for it at a client; a handler that sends keeps the listener waiting. The effect is that of `Listen` |
| Agents.UnifiedAgent.RunErrand | libs/ceylon-core/src/workspace/uniffied_agent.rs:426-464 | the listener goes on when there is room: in the inbox for an acknowledgement, after which the connection handler is called, or for an introduction; in the channel for the next message of the handler it awaits, until all are in. The effect is that of `Proceed` |
| Agents.UnifiedAgent.CheckIntroduction | libs/ceylon-core/src/workspace/uniffied_agent.rs:501-506 | an introduction task ends if introductions are cancelled when it looks, and else goes on to send |
| Agents.UnifiedAgent.SendIntroduction | libs/ceylon-core/src/workspace/uniffied_agent.rs:485-511 | a task that has looked sends the agent's true introduction as soon as the inbox has room, and looks again |
| Network.ActingKept | libs/ceylon-core/src/workspace/uniffied_agent.rs:400-559 | every queue operation of an agent keeps its accounts of messages sent, received and registered |
| NetworkResults.PublishedIsTrue | libs/ceylon-core/src/workspace/message.rs:51-91 | a published message carries its creator's true details, node and agent level agree on its addressee, and only registered agents are acknowledged |
| NetworkResults.InvAlways | libs/sangedama/src/peer/node/node.rs:205-302 | the invariant of the network holds in every state of every run |
| NetworkResults.SendingIsFifo | libs/ceylon-core/src/workspace/uniffied_agent.rs:197-225 | messages submitted are, in order, those published, those in the inbox, the one held and those in the channel, whatever introductions and acknowledgements come between; no queue exceeds its size |
| NetworkResults.NothingPassedIsDropped | libs/ceylon-core/src/workspace/uniffied_agent.rs:417-440 | what passes the node's filter passes the listener's: it is handled in order of arrival |
| NetworkResults.HandledWasSent | libs/ceylon-core/src/workspace/uniffied_agent.rs:417-432 | a handled message was submitted unchanged by the other agent whose details it shows; a direct one is handled only by its addressee |
| NetworkResults.HandledAtMostOnce | libs/sangedama/src/peer/node/node.rs:205-302 | no agent handles a message more often than its sender submitted it |
| NetworkResults.RegistryIsTrue | libs/ceylon-core/src/workspace/uniffied_agent.rs:442-451 | every registry entry is the true description of the agent it is filed under |
| NetworkResults.RegisteredStays | libs/ceylon-core/src/workspace/uniffied_agent.rs:442-451 | no step removes a registry entry |
| NetworkResults.AcksAreDue | libs/ceylon-core/src/workspace/uniffied_agent.rs:452-458 | an acknowledgement under way comes from an agent that has registered the one it names |
| NetworkResults.ConnectionsAreRegistered | libs/ceylon-core/src/workspace/uniffied_agent.rs:446-464 | at every call of the connection handler its agent is registered, and the agents connected are exactly those introduced so far |
| NetworkListening.ListenerFollowsEvents | libs/ceylon-core/src/workspace/uniffied_agent.rs:409-519 | what a node took up is, in order, what its listener has seen and what is in line; of the events seen it has handled the application messages, registered, acknowledged and reported each introduction once and in order, but for one it may be busy with; an administrator has introduced itself once per subscription of a newcomer; a client has one introduction task per such subscription until an acknowledgement is seen |
| NetworkDelivery.PublishedArrives | libs/sangedama/src/peer/node/node.rs:257-302 | if nothing is lost, an application message to all or to agent q has passed the node of q or is on its way there exactly as often as its sender has published it |
| NetworkDelivery.MessagesAreConserved | libs/ceylon-core/src/workspace/uniffied_agent.rs:197-225 | if nothing is lost, the times an agent has submitted such a message equal the times agent q has handled it, has it in line or in the air, or the sender has it still queued |
| NetworkDelivery.PublishedIsTakenUp | libs/sangedama/src/peer/node/node.rs:257-302 | the same as `PublishedArrives` for messages of every kind, introductions and acknowledgements included |
| NetworkDelivery.IntroductionsRegister | libs/ceylon-core/src/workspace/uniffied_agent.rs:442-451 | if nothing is lost, each introduction published is in the air to every other agent, in line there, or its sender is registered there |
| NetworkDeadlock.StuckIff | libs/ceylon-core/src/workspace/uniffied_agent.rs:409-464 | with room for at least one entry in queues and channel, whatever happens to an agent its node and listener do nothing any more iff both queues between them are full, the node has one more event to pass on, and the listener waits: to send an acknowledgement or introduction, or inside a handler while the channel is full and the broadcast task holds a message |
| NetworkDeadlock.BlockedForEver | libs/sangedama/src/peer/node/node.rs:259-322 | such an agent publishes nothing, handles nothing and calls no handler ever again |
| NetworkBlocking.BlockedByMessages | libs/ceylon-core/src/workspace/uniffied_agent.rs:426-440 | of any two agents each can get blocked by broadcasts of the other, a handler that answers and its own broadcasts |
| NetworkBlocking.DeadlockReached | libs/ceylon-core/src/workspace/uniffied_agent.rs:479-499 | every administrator can get blocked by its own broadcasts and the subscriptions of any one peer to any topic |
| NetworkBlocking.CanBlockIff | libs/sangedama/src/peer/node/node.rs:107-113 | with room for at least one entry in all queues and channels, an agent can get blocked iff it is an administrator or there is another agent |
| StartGate.DrivenExists | bindings/ceylon/examples/auction/single_item_auction.py:57-65 | any auction schedule can be driven by the connection calls of any agent |
| StartGate.StartsFollowRegistry | bindings/ceylon/examples/auction/single_item_auction.py:57-70 | an auction driven by an agent's connection calls is started, until it ends, at exactly those calls that find the expected number of agents registered |
| PeerBook.Node.HandleSubscription | libs/sangedama/src/peer/node/node.rs:304-339 | an administrator's book gets a subscribing peer at the end of its topic's list and otherwise changes as `Handled` says, a client's does not change; the listener of either is told about subscriptions and nothing else |
| PeerBook.Retain | libs/sangedama/src/peer/node/node.rs:336 | retaining the other peers removes all occurrences of one |
| PeerBook.WithoutKeepsOrder | libs/sangedama/src/peer/node/node.rs:336 | the peers retained are exactly the other ones, in their order |
| PeerBook.ListedPerSubscription | libs/sangedama/src/peer/node/node.rs:304-338 | a peer is listed under a topic as often as it has subscribed since it last unsubscribed |
| PeerBook.ListedIffLastSubscribed | libs/sangedama/src/peer/node/node.rs:304-338 | a peer is listed iff its last event for the topic was a subscription |

## Left out

- libp2p, transports, keys, rendezvous, ping and identify: library wiring. Gossip is a multiset of packets on one topic, one per other agent and message, that may be lost and arrive in any order; agents that join late are agents to which earlier packets were lost.
- tokio, timers, ctrl-c, log output, file-system calls and the foreign-function bindings. A call that waits for room in a queue is a step that is not possible yet. What a handler sends is chosen by the schedule; other waiting inside a handler is not modelled. A node can notice the subscription of any peer, also of one that is no agent.
- serde_json and pickle: messages are datatypes. Message ids and times are left out, since the node replaces the time of direct messages by a cached value.
- Anything after cancellation: a run ends there. That stopping may keep an auction's result from leaving the auctioneer counts as a loss, so `ResultReachesAll` does not cover it; the delivery of the auction's end, and of answers under way when a coordinator stops, is not modelled.
- Completeness of the registry under loss: any acknowledgement cancels an agent's introductions (`uniffied_agent.rs:468-472`), whomever it names, so that an introduction lost then is not repeated.
- Dates of time slots are kept but, as in the code, never compared. The text keys of the tallies are modelled by the values they print: date and start for the scheduler, the whole slot for the coordinator.
- `Coordinator.run` is taken to have set the meeting request before the first connect, and there is one coordinator per process, so that its class-level tallies are its own.
- Bids are real numbers: rounding of floating-point prices is not modelled. The random multiplier is chosen by the schedule.
- Days are integers; Python's last representable date is not.
- `Lines` follows the current Rust library, in which a carriage return at the end of a text without a final line feed belongs to the line.
- `task_manager.py`: its assignments go to every worker, and results are counted without regard to task ids, so that nothing ties a result to an assignment.
- `support.py`: which handler a message is dispatched to is decided by its type or topic at run time; the model calls the handler.
- Suggestion scoring (a constant), the other leave-handler agents and the demos: they look up or print values and keep no state that a later step depends on.
