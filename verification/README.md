# Apples to Apples: a verified model of game start-up

The program is a networked card game: one host and any number of clients. This project models what happens
from the first connection until every client has left its waiting state, and the code that start-up is made of:
the wire format, the card-list codec, the event queue that the network thread and the game loop share, the host's
and the client's callbacks, and the rounds of played cards the host collects.

## The system

* **Join.** The host counts the clients that have joined. When the count reaches the expected number it draws a
  green card and broadcasts LoadGame; any other join is answered with the new count.
* **Load.** A client that gets LoadGame keeps the card, asks for seven red cards and says Ready.
* **Deal and start.** The host answers a request with cards from the front of the red deck. For *each* Ready it
  picks a judge afresh and broadcasts "Judge" to the one and "Playing" to the others.
* **Freeze.** A client obeys the first StartGame it dispatches. From then on its state handles no event, so the
  front entry of its queue is peeked at again and again and never popped.

`Bytes`, `Message`, `CardList` and `Events` are the codecs and the queue. `Player` and `Host` hold each side twice:
as a function on values (`React`) and as the classes whose methods are proved to compute that function and to write
its messages, serialised, to the sockets. `Protocol` puts host, clients, channels and queues together as a
transition system (`Step`, `Run`): a connection is accepted, a message arrives at a queue, a game loop peeks, a game
loop dispatches, each a step of its own and interleaved in any order. `Invariant`, `Dispatch` and `Steps` prove one
invariant of all runs; `Startup`, `Traffic`, `Judges`, `Cards`, `Deck`, `Progress` and `Fairness` draw the results from
it; `Counterexamples` holds concrete runs: one that ends with two judges, one that ends with a player who has no cards, one
that ends with a hand of eight, and one that reads an empty deck.

The invariant rests on one idea. A client is a function of the messages it has dispatched (`Settle`), and settling
everything the host ever wrote to connection *i* gives a `Fate` that can be read off the host's own logs of loads,
deals and broadcasts. What a client is now is the settling of a prefix of that.

A `System` has a `fault` flag. It is raised where the program has no defined behaviour left: a front card of an empty
deck is read, a null connection is used, a judge is drawn from no clients, or `std::stoi` throws. A host that has
faulted dispatches nothing more.

## Assumptions

* Every peer runs this program, and each read delivers one whole frame (`src/network/client.cpp:196`,
  `src/network/session_connections.cpp:83`). `Message.UnframeOfRead` says what a longer read does.
  Both read buffers hold 1024 bytes (`include/network/client.hpp:38`, `include/network/session_connections.hpp:46`), so
  the assumption covers payloads of at most 1016 bytes (`Message.ReadOnceIff`, `ReadOnceDefinedIff`). It fails for some
  hands of the shipped deck: the seven longest cards of `data/redApples.txt` make a frame of 1161 bytes.
* Connection ids are distinct, and a client's id is the id of its connection: both are the client's port. Ids have
  16 bits, so `Dispatch.ConnectionsBounded` proves that the cast of the client count to `int` never wraps.
* The callbacks are registered before the first message arrives.
* The judge drawn is any index in range; the decks are parameters in any order, which covers every shuffle.
* `&delimiter` in `src/network/message.cpp:99` is meant as a one-character string. Read literally it is the address
  of a single `char` with no terminator.
* Texts are bytes, and integers are little-endian. A byte of any value is a message kind or an RPC type.

## What the model shows about the program

* **A late client can be a second judge.** There is one judge if nobody connects after the first StartGame broadcast
  (`JudgeAgreement`, `OneJudgeAtEnd`), and in general exactly if no later broadcast picks a client that the previous
  broadcast had not reached (`OneJudgeIff`). `TwoJudges` is a run in which that fails.
* **The red deck decides whether start-up finishes.** Once loaded, a start-up can be completed if and only if there are
  seven red cards for each client connected when the game was loaded, which may be more than the expected number
  (`CompletesIff`), and it can be run into an empty deck if and only if there are fewer (`FaultsReachableIff`;
  `EmptyDeckRead` is such a run). No scheduler has a say in this: while no client connects, every schedule that lets
  each thread act again and again comes to the end that the deck dictates (`FairRunsEnd`).
* **A client that has left never rests.** Its loop peeks at the same entry and dispatches nothing, for ever
  (`FrozenSpins`), so runs as such need not be finite. Every other step that changes something lowers a measure, and
  those of such a client leave it alone (`StepsAreFinite`).
* **Only the first caller is sure of its hand.** The client whose Ready caused the first broadcast does not leave the
  waiting state without what it reads from a deal of seven cards (`FirstCallerHasHand`). Another client may leave with
  none, its cards then staying in its queue for good: `HandOnLeaving` says exactly when, and `EmptyHanded` is a run in
  which it happens.
* **A '/' in a card changes the hand.** Cards come back from a payload exactly when none contains '/' and the last is
  not empty (`SplitOfJoin`). In general a list grows by the number of '/' inside its cards, less one if its last card is
  empty or ends in '/' (`ReadLength`). Ten of the cards in `data/redApples.txt` contain '/', and no card there is empty
  or ends in '/', so a deal that contains one of the ten always reads as more cards than were dealt (`SurplusSign`).
  The hand bound and the conservation of cards hold in a run exactly as far as the deals of that run allow
  (`HandAccount`, `Conservation`), and the deals are successive sevens of the initial deck, so the deck and the number
  of deals decide both (`DeckDecides`). `EightCards` is a run in which one such card breaks both.
* **The decoder ignores the length field** for the payload it keeps, so two frames in one read become one message; the
  length-bounded slice it also cuts, and drops, would have been right (`UnframeOfRead`).
* The Vote message of a complete round is built and then dropped (`src/host.cpp:134`). `CardPlayedEvent` returns it so
  that its contents can be stated.

## Model

| member | source | states |
|---|---|---|
| Bytes.StoiOfToString | src/host.cpp:108 | the amount a client prints is the amount the host parses, for every 32-bit int |
| Bytes.ToStringIs | src/player.cpp:168 | a number is written as its decimal digits, without a leading zero, after a minus sign if it is negative, and as nothing else |
| Bytes.ToStringShortest | src/player.cpp:168 | no text that is parsed as a number is shorter than the one it is printed as |
| Bytes.StoiIff | src/host.cpp:108 | parsing gives a 32-bit number if and only if the text is spaces, perhaps a sign, and digits that stand for it, followed by anything but a digit; it throws for every other text |
| Bytes.Le32Truncates | src/network/message.cpp:46 | of a payload size only the residue modulo 2^32 is written |
| Message.SerializeMessage | src/network/message.cpp:31-68 | filling the buffer piece by piece with memcpy yields header, length and payload in order |
| Message.DeserializeMessage | src/network/message.cpp:71-95 | the decoded message keeps every byte after the length field; both slices stay inside the buffer |
| Message.FrameBytes | src/network/message.cpp:42-47 | every byte of a frame: kind, id with its low byte first, RPC type, payload size with its low byte first, payload |
| Message.UnframeBytes | src/network/message.cpp:82-87 | every field of a decoded buffer, byte by byte |
| Message.UnframeOfRead | src/network/message.cpp:85-90 | decoding a read gives the message if and only if nothing follows its frame; the length-bounded slice is the payload either way |
| Message.UnframeOfFrame | src/network/message.cpp:31-95 | every message survives encoding and decoding, and every frame meets the decoder's needs |
| Message.FrameOfUnframe | src/network/message.cpp:71-95 | re-encoding restores a buffer if and only if its length field is honest modulo 2^32 |
| Message.ReadOnceIff | src/network/client.cpp:196 | one read into the 1024-byte buffer gives the whole message if and only if its payload has at most 1016 bytes |
| Message.ReadOnceDefinedIff | src/network/message.cpp:85-88 | after such a read the decoder's second slice is defined if and only if the payload size modulo 2^32 is at most 1016 |
| Message.FramePrefixFree | src/network/message.cpp:42-47 | if two frames with anything after them are equal, so are the messages and what follows |
| Message.StreamDeterminesMessages | src/network/message.cpp:31-68 | a concatenation of frames determines the list of messages |
| CardList.JoinStrings | src/network/message.cpp:97-106 | writing every element with a delimiter and dropping the last character joins the list |
| CardList.Getline | src/network/message.cpp:113 | one extraction takes the first token off the rest of the text, and fails at its end |
| CardList.SplitString | src/network/message.cpp:108-118 | the loop of extractions yields the tokens of the text |
| CardList.SplitOfJoin | src/network/message.cpp:97-118 | a list comes back from its payload if and only if no element has the delimiter and the last is not empty |
| CardList.SplitOfJoinNoDelimiter | src/network/message.cpp:97-118 | without delimiters in the elements, only an empty last element is lost |
| CardList.JoinOfSplit | src/network/message.cpp:97-118 | joining the tokens of any text restores it but for one trailing delimiter |
| CardList.TokensHaveNoDelimiter | src/network/message.cpp:113-115 | no token contains the delimiter |
| CardList.SplitLength | src/network/message.cpp:108-118 | the number of tokens is the number of delimiters, plus one if the text does not end with one |
| CardList.ReadLength | src/network/message.cpp:97-118 | a joined list splits into as many elements as it had, plus the delimiters inside them, less one if the last is empty or ends with one |
| CardList.SurplusSign | src/network/message.cpp:97-118 | a list loses at most one element; if its last is neither empty nor ends with the delimiter it loses none, and keeps its length if and only if it is clean |
| Events.EventHandler.EventmsgEmpty | src/events.cpp:31-34 | whether the queue is empty |
| Events.EventHandler.StoreEventmessage | src/events.cpp:51-55 | an entry is added at the end |
| Events.EventHandler.PopEventmessage | src/events.cpp:57-62 | the front entry goes; an empty queue stays empty |
| Events.EventHandler.GetEventmessage | src/events.cpp:64-72 | the front entry is returned and removed; an empty queue yields value-initialised results |
| Events.EventHandler.ReadLatestEvent | src/events.cpp:84-91 | the front event is returned and nothing removed |
| Events.PeekThenPop | src/events.cpp:51-91 | whatever is stored between a peek and a pop, the entry popped is the one peeked and only that one goes |
| Player.StateNames | include/states.hpp:118-141 | the bytes of the five names; they are read back, and any other text reads as Error |
| Player.ClientEvents | src/network/client.cpp:76-121 | for each event, the one RPC type, by its number, that a client queues as it; two types never share an event, and two types and all unknown ones are dropped |
| Player.Client.HandleMessage | src/network/client.cpp:73-122 | which event, if any, a received message is queued with |
| Player.RequestFrames | src/player.cpp:115-185 | the bytes of the card request and of Ready; seven is asked for as "7" |
| Player.RequestAmountIs | src/player.cpp:159-165 | the amount is the largest that is not above the wish and does not fill the hand beyond seven |
| Player.Player.AddCards | include/player.hpp:34-43 | the cards are appended to the hand in order |
| Player.Player.CardsResponse | src/player.cpp:140-148 | the payload of a non-empty DealCard message is split at each '/' and appended to the hand; anything else is ignored |
| Player.CountDownStopsIff | src/player.cpp:159-165 | counting down from the wish there is an int that ends the loop if and only if hand and wish do not add up to less than zero and the hand exceeds seven by at most 2^31; the first one is the smaller of the wish and what fills the hand |
| Player.Player.ModifiedAmount | src/player.cpp:155-166 | whenever it can, the count-down ends, despite size_t wrap-around, with that amount |
| Player.Player.RequestCards | src/player.cpp:155-172 | one frame is sent, asking for that amount |
| Player.Player.SendRpc | src/player.cpp:174-184 | one frame with the client's id is sent |
| Player.Player.SynchronizeGame | src/player.cpp:129-138 | a card request is sent, then, through the GameReady callback, Ready |
| Player.Player.TriggerEvent | src/player.cpp:73-123 | for every event, the whole effect of its client callback on player, queue and socket, message by message: four callbacks pop one entry, GameReady only sends, other events do nothing |
| Player.Player.OnEvent | src/joingame_state.cpp:31-54 | while waiting, four events reach their callback; any other event, and any event later, changes nothing |
| Host.TargetIsConnection | src/network/server.cpp:96-105 | a connection is found by its id if and only if no earlier one has that id |
| Host.Server.GetTargetClient | src/network/server.cpp:96-105 | the search returns the first connection with the id, or null if there is none |
| Host.HostEvents | src/network/session_connections.cpp:114-157 | for each event, the one RPC type, by its number, that the host queues as it; two types never share an event, and three types and all unknown ones are dropped |
| Host.SessionConnection.HandleRequest | src/network/session_connections.cpp:111-158 | which event, if any, a received request is queued with |
| Host.HostFrames | src/host.cpp:155-254 | the bytes of LoadGame, of the count and of both StartGame messages |
| Host.CardFrames | src/host.cpp:133-185 | the bytes of a deal and of a Vote |
| Host.DealPayload | src/host.cpp:183 | the payload of a deal of n clean cards has exactly n - 1 characters '/' and reads back |
| Host.Host.Accept | src/network/server.cpp:76-77 | the connection is appended and one PlayerJoined entry stored |
| Host.Host.SendUpdate | src/host.cpp:160-168 | every connection is written the frame once |
| Host.Host.LoadgameRequest | src/host.cpp:212-229 | the top green card is drawn and broadcast |
| Host.Host.PlayerjoinedEvent | src/host.cpp:138-158 | the count grows; the completing join broadcasts LoadGame, any other a text that reads as the new count |
| Host.Host.DealCards | src/host.cpp:170-190 | the deck loses a prefix, which the requester alone is sent in order, with '/' between the cards |
| Host.Host.CardRequestEvent | src/host.cpp:103-118 | the parsed amount is dealt to the sender of the request |
| Host.Host.PickJudge | src/host.cpp:291-320 | the judge is some client in range |
| Host.Host.StartgameMessage | src/host.cpp:235-275 | the picked client is written Judge, all others Playing, for one and the same pick |
| Host.Host.AddToRoundDeck | include/host.hpp:45-48 | count and round deck grow by one card |
| Host.Host.CardPlayedEvent | src/host.cpp:120-136 | the play joins the round deck, and the Vote message is built if and only if there are then as many plays as clients and bots together; counts and sum are compared modulo 2^64 |
| Host.Host.TriggerEvent | src/host.cpp:50-101 | each host callback's whole effect on host, queue and every connection |
| Host.Host.Receive | src/network/server.cpp:76-77 | the connections that arrive during a turn are appended and the entries stored |
| Host.Host.ProcessEvent | src/game.cpp:258-264 | one turn of the loop runs the callback of the entry that was in front at the peek, for the connections there are when it runs, whatever is appended and stored before the callback pops |
| Host.Host.ProcessEvents | src/game.cpp:256-275 | for every schedule of connections and entries arriving during its turns, the loop ends with the queue empty, after one turn per entry queued or arrived, in the state, with the connections and with the output those turns compose to |
| Host.SafeIff | src/game.cpp:256-275 | the precondition of the loop is exact: it holds if and only if some sequence of turns with those arrivals, none of which faults, empties the queue |
| Host.PlaysFillDeck | src/host.cpp:120-136 | over any turns and arrivals, joins and new connections included, entries are handled in order of arrival with none skipped, the plays among them extend the round deck, the counts follow, and a Vote is built for exactly the plays that complete the round as the joins handled by then define it |
| Host.PlayedCountIsDeckSize | include/host.hpp:45-48 | from a new host without connections on, whatever arrives, the play count is the size of the round deck, which is the plays handled so far in order of arrival |
| Host.OneVotePerRound | src/host.cpp:120-136 | while no join is handled one Vote is built, of exactly the plays that complete the round, if it is completed, and no other |
| Host.RoundOfGame | src/host.cpp:129-135 | in a first round of n clients and b bots without a join no Vote is built while fewer than n + b plays are handled, and from then on exactly one, with those n + b cards in order |
| Host.VotePayload | src/host.cpp:131-135 | the Vote payload splits back to all plays in order if and only if they are clean |
| Dispatch.ConnectionsBounded | src/host.cpp:142 | with distinct 16-bit ids there are at most 65536 connections, so the cast to int is exact |
| Dispatch.CallerOfFront | src/host.cpp:103-118 | a request at the front is the next one of exactly one connected, loaded client |
| Dispatch.JoinKeepsInv | src/host.cpp:138-158 | handling a join keeps the protocol invariant |
| Dispatch.DealKeepsInv | src/host.cpp:170-190 | dealing keeps the protocol invariant |
| Dispatch.ReadyKeepsInv | src/host.cpp:235-275 | a StartGame broadcast keeps the protocol invariant |
| Steps.StepKeepsInv | src/game.cpp:256-275 | every step of host, clients or network keeps the protocol invariant |
| Steps.RunKeepsInv | src/game.cpp:321-337 | so does every run, in any interleaving |
| Invariant.SentShape | src/player.cpp:129-138 | a client has sent nothing, or one card request and one Ready |
| Invariant.SettleGrows | src/play_state.cpp:26-28 | more messages only extend a hand, and change nothing once a client has left the waiting state |
| Startup.QueueHistory | src/events.cpp:51-72 | in every run, entries handled then queued are the entries stored, and a peeked event is the one in front |
| Startup.PeekMatchesPop | src/game.cpp:256-275 | after a peek, any actions of all others, and the dispatch, the entry the host has popped is the very entry that was in front at the peek, and only that one |
| Startup.ClientPeekMatchesPop | src/joingame_state.cpp:31-54 | the same for a client while it waits; once it has left that state it pops nothing |
| Startup.ChannelHistory | src/network/session_connections.cpp:111-158 | per connection, dispatched then queued then in flight is exactly what was written, in both directions |
| Startup.DispatchPopsOne | src/joingame_state.cpp:31-54 | in every run a dispatch of the host, or of a waiting client, pops exactly one entry |
| Startup.Routing | src/network/server.cpp:96-105 | every queued request has exactly one connected sender, and the lookup finds it |
| Startup.LoadsOnce | src/host.cpp:138-158 | connections are joins counted plus joins queued; LoadGame goes out once, when the count reaches the expected number; clients that asked for cards show the one card drawn, the others none |
| Traffic.WrittenIsRecord | src/host.cpp:138-275 | in every run, what the host has written to a connection are counts, the LoadGame, deals and StartGames, and of each kind exactly those of its logs, in order |
| Traffic.CountsRise | src/host.cpp:155 | the counts a client is sent read as numbers of joins handled, strictly increasing and never above the present one; once the client itself was counted the newest is the present one, unless that completed the game |
| Traffic.ClientEntries | src/network/client.cpp:73-122 | an entry in a client's queue is PlayerJoined, SynchronizeGame, CardReceived or GameStarted if and only if its message is one of the counts, the LoadGame, a deal or a StartGame of this client |
| Traffic.HostEntries | src/network/session_connections.cpp:111-158 | an entry in the host's queue is a join, a card request or a Ready if and only if its message is the accept handler's, a connected client's request for "7", or its Ready |
| Judges.StageDecided | src/player.cpp:93-110 | a client is Judge or Playing by the pick of the first broadcast that reached it |
| Judges.JudgeAgreement | src/host.cpp:235-275 | if nobody connected after the first broadcast, a client that left the waiting state judges if and only if that broadcast picked it |
| Judges.SecondJudgeIsLate | src/host.cpp:291-320 | any other judge connected after the first broadcast |
| Judges.OneJudgeIff | src/host.cpp:235-275 | once the reached clients have left, the first pick is the only judge if and only if no later broadcast picks a client the one before it missed |
| Counterexamples.TwoJudges | src/host.cpp:88-96 | a run that ends without fault and with two clients in Judge |
| Cards.HandOnLeaving | src/player.cpp:140-148 | for any deck, a client that left the waiting state holds exactly what it reads of the cards dealt before the first broadcast that reached it: nothing, or seven cards and the surplus of its deal |
| Counterexamples.EmptyHanded | src/player.cpp:93-110 | a run that ends without fault or late connection and with a client that plays without a card though it was dealt seven |
| Cards.FirstCallerHasHand | src/player.cpp:129-138 | for any deck, the client whose Ready caused the first broadcast leaves the waiting state with seven cards and the surplus of its deal, so seven if and only if that is zero, and never fewer than six |
| Cards.FirstCallerReads | src/player.cpp:140-148 | for any deck its hand is what it reads from one payload of seven cards, and those cards if and only if they are clean |
| Cards.HandAccount | src/player.cpp:155-172 | for any deck, hand plus cards on their way plus cards asked for is nothing before a client asked, then seven, and seven plus the surplus of its deal once dealt; at most seven if and only if that surplus is not positive |
| Cards.DealsAreHands | src/host.cpp:177-181 | in every run the k-th deal is the k-th seven cards of the initial deck |
| Cards.DeckDecides | src/host.cpp:170-190 | after n deals the cards are conserved if and only if the first n sevens of the deck are clean, and no account exceeds seven if and only if none of them has a surplus |
| Cards.CleanDeckSuffices | src/host.cpp:177-187 | with no '/' and no empty card in the deck every deal of every run is clean |
| Cards.DealingRefinesAppend | src/host.cpp:170-190 | a request of any amount, through codecs and queues, moves that prefix of the deck to the end of the requester's hand if and only if the cards are clean |
| Cards.CutAtSlash | src/player.cpp:143 | a card with a '/' inside is read as two cards; one with a comma is read whole |
| Cards.Conservation | src/host.cpp:177-181 | for any deck, cards dealt in order, then the deck, are the initial deck; what clients hold is what they read of the cards dealt; deck, hands, queues and channels together hold the initial cards if and only if every deal was clean |
| Counterexamples.EightCards | src/player.cpp:140-148 | a run that ends without fault with eight cards in a hand and other cards held than were dealt, because of one card with a '/' |
| Cards.NoCardTwice | src/player.cpp:140-148 | for any deck, a card read at most once among all cards dealt is never in two hands, and not in a hand and the deck if it is there at most once in all |
| Cards.NoSharedCards | src/host.cpp:177-181 | while the deals made are clean, a card that is unique in the deck is never in two hands, nor in a hand and the deck |
| Deck.FaultIff | src/host.cpp:177-181 | a dispatch faults if and only if the completing join finds no green card or a request finds fewer than seven red ones |
| Deck.DeckCovers | src/host.cpp:170-190 | in every state after loading, the deck exceeds seven cards per loaded client not yet dealt to by what the initial deck exceeded seven per loaded client |
| Deck.NoUnderflow | src/host.cpp:177-181 | no run faults while the red deck has seven cards per client the LoadGame went to |
| Deck.StartupCompletes | src/host.cpp:235-275 | at the end of a start-up there was one deal and one broadcast per loaded client, all of which have left the waiting state with the same round card |
| Deck.OneJudgeAtEnd | src/judge_state.cpp:29-31 | if nobody connected late, everybody ends in Playing but the first pick, who judges |
| Deck.FaultsIffDeckTooSmall | src/host.cpp:177-181 | a run that came to an end faulted if and only if the red deck was below seven cards per loaded client |
| Deck.EventLoopIsSafe | src/game.cpp:256-275 | in every reachable state with enough cards for the clients there are and those that may connect, the event loop can run its queue empty without a fault, whatever network threads, clients and newcomers do during its turns |
| Progress.FrozenSpins | src/play_state.cpp:26-28 | a client that has left and looks at its queue is, after its dispatch, exactly where it was |
| Progress.StepsAreFinite | src/game.cpp:256-275 | in every run every action but a connection either is productive and lowers a well-founded measure, or leaves the measure as it is; all that an unproductive action can change is the fault flag or what a client that has left has peeked at |
| Progress.NotStuck | src/game.cpp:256-275 | whatever the decks, until start-up is over or has faulted some such step is possible or the next dispatch faults |
| Progress.CanEnd | src/game.cpp:321-337 | from every reachable state, whatever the decks, start-up can be run to completion or a fault without a new connection |
| Progress.CanComplete | src/game.cpp:321-337 | from every reachable state with enough cards, that end is completion |
| Progress.CompletesIff | src/host.cpp:170-190 | once loaded, start-up can be completed if and only if there are seven red cards per loaded client |
| Progress.FaultsReachableIff | src/host.cpp:177-181 | once loaded, it can be run into an empty deck, even without a new connection, if and only if there are fewer |
| Counterexamples.EmptyDeckRead | src/host.cpp:177-178 | a run that reads the first card of an empty deck |
| Fairness.FairRunsEnd | src/game.cpp:321-337 | from every reachable state every fair schedule without new connections reaches completion or a fault: completion if the decks cover the clients, and once loaded a fault if and only if there are fewer than seven red cards per loaded client |
| Fairness.RoundRobinIsFair | src/game.cpp:321-337 | letting every thread act in turn is such a schedule, for any number of clients |

## Left out

- Sockets, Asio, threads, buffer lifetimes, partial or merged reads and disconnects: channels deliver whole frames reliably and in order.
- Data races on the connection list, and iterators it invalidates: accepting and dispatching are atomic steps, and the judge is an index.
- Fairness.FairRunsEnd: says nothing of schedules that go on accepting clients, or that stop giving some thread its turn.
- Host.OneVotePerRound: plays are not part of `Protocol`, whose clients never send one; rounds are described for the host and whatever arrives at it.
- Player.Player.OnEvent: models one turn of a client's loop; after the client leaves the waiting state that loop peeks at the same entry for ever, which the protocol has as steps that change nothing but the peek.
- The map of callbacks: dispatch is a match on the event, with the callbacks that the two set-up functions register.
- Shared pointers: a connection is an object, and the list of connections holds distinct objects.
- The per-player statistics written when a client connects, which nothing reads.
- `update_judge` and `next_round_transition`: nothing calls them, and they compare an iterator with the end of a copied vector.
- Bots, voting, playing and drawing cards on the client, and the per-frame state hooks: empty or print-only in the source.
- Rules, command line, card files, rendering and printing: the rules and the decks are parameters.
- The plain event queue and the message queue: the running game does not use them.
- Random devices: the judge is any index and the decks come in any order.
