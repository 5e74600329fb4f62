# Liblacewing "Blue": a model of the relay and of the stream library

Liblacewing's relay lets clients of a server meet on named channels. The server
keeps who is on which channel in two lists that refer to each other, tells every
client what changes, and each client rebuilds its own table from what it is told.
Underneath are a framed byte protocol, a pool of 16-bit ids and a reader/writer
lock; beside them is a library of streams that can be filtered, linked and queued,
and a hash table. This project models these parts as they are written and proves
what they are for.

How the parts fit together:

* **Relay.** `RelayOps` says what each server operation does to the server's whole
  state, as a value. `RelayInvariant`, `RelayClosing` and `RelaySteps` prove the
  membership invariant `RelayState.Inv` over every run. `RelayEffects` says what each
  event brings about for every client, channel and id, without those operations,
  `RelayHistory` what the state tells of the events so far, and `RelayAnswers` what
  those that ask are told. `RelayReplica` says what a
  client makes of a message, `RelayTruth` what its table should be, and
  `RelayConvergence`, `RelayRename`, `RelayFollows`, `RelaySettled` and
  `RelaySystem` that it gets there; `RelayNames` says what the names of peers are as
  coded, and `RelayDeviations` what all this asks of clients.
  `RelayRouting` is about who hears a message.
  `RelayServer` and `RelayClient` are the imperative programs; each of their
  methods is tied to the meaning the lemmas are about. `RelayPing` is the ping timer.
* **Bytes.** `FrameCodec` is the frame format, byte by byte; `FrameReader`,
  `FrameBuilder` and `MessageBuilder` are the programs. `RelayBodies` is what the
  bodies of messages say; `MessageReader` reads them. `RelayWire` puts codec and
  relay together: bytes in any pieces, to frames, to messages, to a true table;
  `RelayFitting` proves that all the server ever sends fits the fields it is written to.
* **Lock and ids.** `ReadWriteLock` has one step for every access to shared state,
  for any number of threads. `IDPool` is the allocator.
* **Streams.** `StreamGraph` merges graphs; `StreamMerging` is the calls that create,
  link and filter streams, with what they do to all graphs as a value, and
  `StreamBuilding` any sequence of them. `StreamExpansion` turns a tree of filters
  into a chain, and `StreamChain` says what the chain is for. `StreamGrafting` is how
  trees grow; `StreamPlanning` says, without trees, in what order data passes filters
  put on streams and on each other, and `StreamFiltering` puts them there. `StreamQueue` and `HeapBuffer` are the queues,
  `StreamLinks` the links with a limit.
* **Hash table.** `UtHash`, whose items are on two linked lists at once, and `NvHash`.

Relay steps are atomic, with the lock the reason; handlers are the default ones,
which approve everything at once. A handler of frames is an arbitrary function of
what it has been given; a sink takes an arbitrary part of what it is offered; a hash
is an arbitrary function; times are arbitrary numbers.

Where the code does not do what it was meant to, the model follows the code and a
lemma says so:

* Two-byte sizes are read with a sign. `FrameCodec.RoundTrip` holds if and only if no
  message has 0x8000 to 0xFFFE bytes.
* The client's test for a changed name is inverted, so it never takes one over.
  `RelayReplica.RenameDeviation` says exactly when that shows, and
  `RelaySystem.ConvergenceAsCoded` that nothing else suffers by it, and
  `RelaySystem.ConvergenceUnrenamed` that names are right too while nothing taken in
  renames a known peer. `RelayNames.AsIfUnrenamed` and `RelayNames.NameStays` say what
  they are otherwise: those first told. `RelaySystem.Convergence` is with the comparison that was meant.
* A granted connect response with less than two bytes of id sets the id to 0
  (`RelayClients.RelayClient.MessageHandler`).
* The client does not look whether a channel list was granted
  (`RelayBodies.ListDenialUnread`).
* A refused borrow costs the pool one id for good (`IDPools.BorrowLeast`).
* The second loop of `unhost` would spin if it were entered
  (`RelayClosing.SecondLoopEnds`); `RelayClosing.UnhostEmpties` proves that it is not.
* A client not yet welcomed over UDP keeps a channel it has left
  (`RelayDeviations.LeaveTakesWelcome`), and a member without a name makes those that
  join throw (`RelayDeviations.NamelessMemberThrows`), which is why convergence asks
  for both.
* A client is said to be dropped once it has only answered pings for long enough; it
  is not if it answers within the ping time (`RelayPing.BusyIsLetBe`).
* A graph is merged, and what is left of it deleted, with its roots. A stream that is
  linked, from one stream to the next, back to itself has none before it: written to
  itself and then made a filter it stays in the deleted graph
  (`StreamMerges.WriteToSelf`). `StreamMerges.MergeInto` says exactly which graphs are
  merged whole, and `StreamBuilds.Build` that all are while no stream is written to one
  that leads to it.
* A link that is done is looked for in the list of the stream it left after all
  filters, not in that of the stream it belongs to. If the latter is filtered
  downstream the freed link stays in its list (`StreamBuilds.DoLinkDone` says that it
  does exactly then, `StreamBuilds.StaleLink` is such a run). What follows reads freed
  memory; it is taken to read what was there.
* Upstream filters are gone through oldest first, not, as a comment in `stream.c` has
  it, the most recent first (`StreamPlans.OldestFirst`).

## Model

| member | source | states |
|---|---|---|
| FrameCodec.FeedAppend | Lacewing/FrameReader.h:55-189 | reading two pieces in turn gives the state and the frames that reading them joined gives |
| FrameCodec.ChunkInvariance | Lacewing/FrameReader.h:55-189 | any division of a byte stream into reads gives the frames and the final state of one read |
| FrameCodec.FeedEncoded | Lacewing/FrameBuilder.h:38-78 | a framed message, read at rest, yields itself, or, with the sign misread, a body that goes on for too long |
| FrameCodec.HeaderShortest | Lacewing/FrameBuilder.h:43-78 | no shorter header than the one written is read as that size, where the sign is no matter; the byte after the kind says how wide the size is |
| FrameCodec.RoundTrip | Lacewing/FrameReader.h:83-88 | a list of messages comes back as it was sent, with the reader at rest, if and only if none is 0x8000 to 0xFFFE bytes long |
| FrameCodec.ChunkedRoundTrip | Lacewing/FrameBuilder.h:38-78 | the same through any number of reads of any sizes |
| FrameReaders.FrameReader.HeaderByte | Lacewing/FrameReader.h:57-127 | one header byte takes the fields where the byte-at-a-time reader goes, for all three widths of size |
| FrameReaders.FrameReader.ReadHeader | Lacewing/FrameReader.h:57-130 | header bytes are consumed up to the body, and what is left means what all of them meant |
| FrameReaders.FrameReader.TakeBody | Lacewing/FrameReader.h:132-188 | a whole or fragmented body is delivered once, with a NUL after it; an accepting handler leaves the caller's bytes as they were |
| FrameReaders.FrameReader.ReadFrame | Lacewing/FrameReader.h:55-189 | reading up to the end of one message leaves the handler and state where all the bytes would take them |
| FrameReaders.FrameReader.Process | Lacewing/FrameReader.h:55-189 | ends; the handler gets the frames of the byte-at-a-time reader up to the first refused; if none is, state and caller's bytes are right, else at most one byte differs |
| FrameReaders.Receive | Lacewing/FrameReader.h:55-189 | one socket read delivers its frames to an accepting handler |
| FrameReaders.ReceiveAll | Lacewing/FrameReader.h:55-189 | any number of reads deliver what one read of the whole stream would have |
| FrameBuilders.WriteHeader | Lacewing/FrameBuilder.h:43-78 | the header of 2, 4 or 6 bytes ends where the payload begins, within the reserve of 8; every other byte stays |
| FrameBuilders.FrameBuilder.AddHeader | Lacewing/FrameBuilder.h:94-105 | begins a message with an empty payload behind a reserve of 8 bytes, its kind and variant apart if they have four bits each; refused if there is one already |
| FrameBuilders.FrameBuilder.Add | Lacewing/FrameBuilder.h:34-34 | appends to the payload |
| FrameBuilders.FrameBuilder.PrepareForTransmission | Lacewing/FrameBuilder.h:38-78 | exposes exactly the encoded frame; doing it again changes nothing |
| FrameBuilders.FrameBuilder.Send | Lacewing/FrameBuilder.h:113-129 | what is written to the socket is the encoded frame |
| MessageBuilders.MessageBuilder.Add | Lacewing/MessageBuilder.h:58-87 | appends, however the buffer has to grow |
| MessageBuilders.MessageBuilder.Grow | Lacewing/MessageBuilder.h:68-82 | makes enough room and keeps the contents |
| MessageReaders.MessageReader.Check | Lacewing/MessageReader.h:66-78 | fails for want of bytes, and for good |
| MessageReaders.MessageReader.GetShort | Lacewing/MessageReader.h:80-89 | a little-endian number off the front, or 0 and failure with nothing consumed |
| MessageReaders.MessageReader.GetByte | Lacewing/MessageReader.h:80-89 | a byte off the front, or 0 and failure with nothing consumed |
| MessageReaders.MessageReader.Get | Lacewing/MessageReader.h:91-100 | so many bytes off the front, or none and failure |
| MessageReaders.MessageReader.GetRemaining | Lacewing/MessageReader.h:112-124 | all that is left; fails on an empty or NUL-led text where that is not allowed; the whole message up to a NUL once it has failed |
| RelayBodies.PeersRoundTrip | Lacewing/RelayServer.cc:1145-1152 | the client's loop recovers the list of peers of a join response |
| RelayBodies.ListingsRoundTrip | Lacewing/RelayServer.cc:1678-1691 | the client's loop recovers the channel list |
| RelayBodies.PeerRoundTrip | Lacewing/RelayClient.cc:989-1065 | peer messages with and without flags are never taken for each other, whatever the name |
| RelayBodies.MessageRoundTrip | Lacewing/RelayClient.cc:588-975 | every server message whose ids and names fit comes back as it was written |
| RelayBodies.WriteInjective | Lacewing/RelayServer.cc:1134-1172 | no two messages are written alike |
| RelayBodies.ListDenialUnread | Lacewing/RelayClient.cc:816-842 | the refusal of a channel list is read as an empty list |
| RelayBodies.Samples | Lacewing/RelayServer.cc:2315-2385 | a message of each sort is on the wire byte by byte what the protocol says |
| RelayBodies.PeerSamples | Lacewing/RelayServer.cc:1164-1198 | so are those about peers and from them |
| RelayBodies.ListSamples | Lacewing/RelayServer.cc:1134-1152 | so are those with lists of peers and of channels |
| RelayWire.WireDelivers | Lacewing/RelayClient.cc:588-1183 | the bytes of any messages, in any pieces, do to a client's table what the messages say |
| RelayFitting.NextFits | Lacewing/RelayServer.cc:1355-1800 | requests whose fields fit bring about only messages whose ids and names fit theirs |
| RelayWire.AfterFits | Lacewing/RelayServer.cc:1355-1800 | so over every run |
| RelayWire.ConvergenceOverTheWire | Lacewing/RelayClient.cc:588-1183 | after any run, the bytes pending for a client, in any pieces, make its table true but for peers' names; of the messages only the size of their bodies matters |
| IDPools.BorrowLeast | Lacewing/IDPool.h:58-77 | a borrow is refused exactly when ids out and borrows refused come to 0xFFFE; otherwise it yields the least id not in use, never above 0xFFFD |
| IDPools.ReturnBalanced | Lacewing/IDPool.h:81-98 | returning an id that is out keeps in-use and released ids a partition of [0, next); the last return of a pool that never refused resets it |
| IDPools.RunBalanced | Lacewing/IDPool.h:58-98 | every run of borrows and valid returns keeps the partition, the count and the bound |
| IDPools.IDPool.Borrow | Lacewing/IDPool.h:58-77 | does to the fields what the specification of a borrow says |
| IDPools.IDPool.ReturnID | Lacewing/IDPool.h:81-98 | does to the fields what the specification of a return says, and keeps the balance |
| RelayInvariant.CloseChannelKeeps | Lacewing/RelayServer.cc:1018-1070 | closing a channel puts it on no list and keeps the invariant |
| RelayInvariant.RemoveClientKeeps | Lacewing/RelayServer.cc:1206-1286 | a client leaving keeps the invariant, also when the channel closes with it |
| RelayInvariant.RemoveClientShrinks | Lacewing/RelayServer.cc:1206-1286 | leaving takes exactly that channel off the client's list, whatever else happens |
| RelayInvariant.AddClientKeeps | Lacewing/RelayServer.cc:1119-1198 | joining keeps the invariant |
| RelayInvariant.JoinResponseKeeps | Lacewing/RelayServer.cc:2415-2487 | granting or refusing a join keeps the invariant |
| RelayClosing.CloseClientDone | Lacewing/RelayServer.cc:1072-1108 | a closed client is on no list at all and the invariant holds, whichever channels closed with it |
| RelayClosing.CloseAllDone | Lacewing/RelayServer.cc:985-996 | closing clients until there are none leaves no channel |
| RelayClosing.UnhostEmpties | Lacewing/RelayServer.cc:977-1004 | unhosting leaves no client and no channel, so the loop over channels has nothing to do |
| RelayClosing.SecondLoopEnds | Lacewing/RelayServer.cc:997-1003 | the loop over what channels are left ends, after any number of rounds, exactly if there are none |
| RelaySteps.SetNameKeeps | Lacewing/RelayServer.cc:1288-1353 | a name request keeps the invariant, names unique by more than case among it |
| RelaySteps.JoinKeeps | Lacewing/RelayServer.cc:1510-1602 | a join request of any name keeps the invariant, with a channel made for it or not |
| RelaySteps.FreeClientKeeps | Lacewing/RelayServer.cc:2274-2282 | destroying a client returns its id and keeps the invariant |
| RelaySteps.FreeChannelKeeps | Lacewing/RelayServer.cc:2088-2116 | destroying a channel returns its id and keeps the invariant |
| RelaySteps.NextKeeps | Lacewing/RelayServer.cc:1355-1800 | nothing that can happen to the server breaks the membership invariant |
| RelaySteps.RunKeeps | Lacewing/RelayServer.cc:1355-1800 | nor does any run |
| RelaySteps.Membership | Lacewing/RelayServer.cc:1119-1286 | after any run the two lists agree and hold nothing twice, joined channels are open and listed, listed ones non-empty with their master a member, members approved |
| RelaySteps.UniqueNames | Lacewing/RelayServer.cc:1288-1353 | after any run clients that stay have names of at most 255 bytes that differ by more than case |
| RelaySteps.UniqueChannelNames | Lacewing/RelayServer.cc:1510-1573 | after any run listed channels have names that differ by more than case |
| RelayEffects.NextEffects | Lacewing/RelayServer.cc:1355-1800 | every event does to each client, each channel, the server's lists and the ids that are out just what it is said to, and nothing else: who gets on, off and in, what closes, who is marked, approved and named |
| RelayEffects.TrimIs | Lacewing/RelayServer.cc:1480-1508 | the name taken from a request is what is left without the NULs at its end, and nothing else is |
| RelayEffects.SameLetter | Lacewing/RelayServer.cc:1288-1353 | names are compared up to the case of ASCII letters |
| RelayHistory.HostingIs | Lacewing/RelayServer.cc:947-1004 | the server hosts as the last of hosting and unhosting has it |
| RelayHistory.ApprovedIff | Lacewing/RelayServer.cc:2315-2385 | after any run a client is approved exactly if it asked while the server was hosting and it was not on its way out |
| RelayHistory.ConnectAnswered | Lacewing/RelayServer.cc:2330-2385 | after any run, one that asks to connect is sent its id and the request for its implementation if the server is hosting, else the denial, and is marked; one approved or on its way out nothing |
| RelayHistory.ChannelIsAsAsked | Lacewing/RelayServer.cc:1560-1602 | after any run a channel has the name and both flags of the request that made it, and its master is who asked or nobody |
| RelayHistory.NewChannelJoined | Lacewing/RelayServer.cc:1510-1602 | after any run a request for a name no listed channel has, while there is an id, puts the client on the new channel as its master |
| RelayHistory.OutlivesIff | Lacewing/RelayServer.cc:1245-1286 | after any run a channel that a member leaves, or is gone from, goes on exactly if another member is left and it was not to close with its master, who this was |
| RelayHistory.DisconnectedIsOff | Lacewing/RelayServer.cc:785-838 | after any run a listed client that disconnects is on no list and is marked |
| RelayAnswers.NameAnswered | Lacewing/RelayServer.cc:1288-1353 | after any run a request for a name is answered with the name, or why it cannot be had, or not at all, as name, length, use and the client's standing say |
| RelayAnswers.LeaveAnswered | Lacewing/RelayServer.cc:1604-1662 | after any run a request to leave is answered, unless the client is on its way out |
| RelayAnswers.JoinAnswered | Lacewing/RelayServer.cc:2415-2487 | after any run a request for an open channel is answered with it and its members, or that one is on it already |
| RelayAnswers.MadeAnswered | Lacewing/RelayServer.cc:1510-1602 | and one for a channel to be made with an empty channel whose master one is, or, without an id for it, not at all |
| RelayReplica.RenameDeviation | Lacewing/RelayClient.cc:1096-1108 | the inverted comparison shows exactly on a peer message that renames a peer already known |
| RelayReplica.ReadingsAgree | Lacewing/RelayClient.cc:989-1121 | but for peers' names the two readings of it agree on every message, in what they throw as well |
| RelayConvergence.AddClientFollows | Lacewing/RelayServer.cc:1119-1198 | what a join sends takes every true table to a true one |
| RelayConvergence.RemoveClientFollows | Lacewing/RelayServer.cc:1206-1286 | so does what a leave sends, the channel's closing included |
| RelayConvergence.CloseChannelFollows | Lacewing/RelayServer.cc:1018-1070 | so does what closing a channel sends |
| RelayConvergence.CloseClientFollows | Lacewing/RelayServer.cc:1072-1108 | so does what a disconnection sends |
| RelayRename.RenameFollows | Lacewing/RelayServer.cc:2587-2626 | so does what a change of name sends, over all channels the client is on |
| RelayFollows.NextFollows | Lacewing/RelayServer.cc:1355-1800 | so does what any event sends, to every client not on its way out |
| RelaySettled.NextSettled | Lacewing/RelayServer.cc:1119-1198 | only a client that asks is told of joining, and no client loses its name |
| RelaySystem.AfterSound | Lacewing/RelayServer.cc:1119-1286 | over every interleaving of server events, deliveries and welcomes, every client that stays is on course |
| RelaySystem.Convergence | Lacewing/RelayServer.cc:1119-1286 | after any run, applying its pending messages gives a welcomed client exactly the server's truth: name, id, channels, masters, other members and their names |
| RelaySystem.ConvergenceAsCoded | Lacewing/RelayClient.cc:989-1121 | as coded, the same holds but for the names of peers |
| RelaySystem.ConvergenceUnrenamed | Lacewing/RelayClient.cc:1096-1116 | as coded, the table is the whole truth if nothing taken in or pending renames a known peer |
| RelayNames.AsIfUnrenamed | Lacewing/RelayClient.cc:1096-1116 | as coded, a table is at any moment exactly what it would be as meant, had every change of a known peer come with the name the peer had |
| RelayNames.NameStays | Lacewing/RelayClient.cc:1096-1116 | as coded, a peer known before and after a message has the same name, ids being different |
| RelayDeviations.LeaveTakesWelcome | Lacewing/RelayClient.cc:774-797 | after any run, of a client that leaves a channel what it is told makes a true table true again exactly if it has had the UDP welcome |
| RelayDeviations.NamelessMemberThrows | Lacewing/RelayClient.cc:1312-1325 | after any run, a client that joins a channel is made to throw exactly if a member has no name |
| RelayRouting.ChannelMessageRouting | Lacewing/RelayServer.cc:2701-2745 | a channel message goes once to each other member that stays, and to nobody else |
| RelayRouting.PeerMessageRouting | Lacewing/RelayServer.cc:609-652 | a peer message reaches the client with that id if sender and addressee share the channel, and nobody else |
| RelayRouting.OneAddressee | Lacewing/IDPool.h:58-98 | after any run no two clients answer to one id, and none to the sentinel |
| RelayRouting.RecipientKnowsSender | Lacewing/RelayClient.cc:876-909 | a true table has the channel and the sender under the ids a message carries |
| RelayServers.RelayServer.ChannelAddClient | Lacewing/RelayServer.cc:1119-1198 | does to clients, channels and what was sent just what joining means; the check it would die on cannot fail |
| RelayServers.RelayServer.ChannelRemoveClient | Lacewing/RelayServer.cc:1206-1286 | does just what leaving means |
| RelayServers.RelayServer.CloseChannel | Lacewing/RelayServer.cc:1018-1070 | ends, and does just what closing a channel means |
| RelayServers.RelayServer.CloseClient | Lacewing/RelayServer.cc:1072-1108 | ends, without the checks it would die on, and does just what closing a client means |
| RelayServers.RelayServer.Unhost | Lacewing/RelayServer.cc:977-1004 | ends with no client and no channel |
| RelayServers.RelayServer.HandleConnect | Lacewing/RelayServer.cc:764-771 | a connection lists a new client with an id of its own, or none if ids have run out |
| RelayServers.RelayServer.HandleDisconnect | Lacewing/RelayServer.cc:785-838 | a listed client is closed, another only marked |
| RelayServers.RelayServer.ConnectResponse | Lacewing/RelayServer.cc:2315-2385 | approves once, or refuses when not hosting |
| RelayServers.RelayServer.CheckName | Lacewing/RelayServer.cc:1288-1353 | a name may be had exactly if it is short enough and no other client that stays has it; if not the client is told why |
| RelayServers.RelayServer.SetName | Lacewing/RelayServer.cc:1480-1508 | a name request, trimmed and checked, does just what it means and keeps the invariant |
| RelayServers.RelayServer.NameSetResponse | Lacewing/RelayServer.cc:2529-2626 | tells the client and every channel it is on |
| RelayServers.RelayServer.JoinChannelResponse | Lacewing/RelayServer.cc:2415-2487 | lists a new channel and adds the client, or refuses with the reason that counts |
| RelayServers.RelayServer.JoinChannel | Lacewing/RelayServer.cc:1510-1602 | does just what a join means on every path, whatever channel might have been made if none was, and keeps the invariant |
| RelayServers.RelayServer.LeaveChannel | Lacewing/RelayServer.cc:1604-1662 | a leave request for a joined or unknown channel does just what it means |
| RelayServers.RelayServer.PeerToChannel | Lacewing/RelayServer.cc:2701-2745 | the loop sends what the routing lemma is about |
| RelayServers.RelayServer.PeerToPeer | Lacewing/RelayServer.cc:609-652 | the lookup and the send are what the routing lemma is about |
| RelayServers.RelayServer.DestroyClient | Lacewing/RelayServer.cc:2274-2282 | the id goes back to the pool |
| RelayServers.RelayServer.DestroyChannel | Lacewing/RelayServer.cc:2088-2116 | the id goes back to the pool |
| RelayClients.RelayClient.MessageHandler | Lacewing/RelayClient.cc:588-1183 | any frame at all takes the table where its reading says, or throws and leaves it |
| RelayClients.RelayClient.OnJoin | Lacewing/RelayClient.cc:691-759 | a join response, cut short or not, adds the channel with the peers read, or throws |
| RelayClients.RelayClient.ReadPeerList | Lacewing/RelayClient.cc:720-731 | the loop reads just the peers there are, and throws just if one cannot be |
| RelayClients.RelayClient.OnLeave | Lacewing/RelayClient.cc:761-814 | the channel goes, or stays marked while not connected |
| RelayClients.RelayClient.OnChannelList | Lacewing/RelayClient.cc:816-843 | the list becomes the listings read, and the table stays |
| RelayClients.RelayClient.OnPeer | Lacewing/RelayClient.cc:989-1121 | a peer joins, changes or goes as the message says |
| RelayClients.RelayClient.FindChannelById | Lacewing/RelayClient.cc:159-165 | the first channel with the id, or none |
| RelayPing.AnsweringIsSafe | Lacewing/RelayServer.cc:138-212 | a client that answers each ping before the next tick is never given up on as unresponsive |
| RelayPing.SilenceIsCaught | Lacewing/RelayServer.cc:138-212 | a silent client is on one of the lists by the second tick at which its silence has lasted |
| RelayPing.OwesOnlyPings | Lacewing/RelayServer.cc:162-193 | over any schedule a client owes an answer exactly if a tick pinged it and it has neither ponged nor been found active since |
| RelayPing.UnresponsiveIsDue | Lacewing/RelayServer.cc:167-201 | over any schedule a client is given up on exactly at a tick at which it is silent, owes an answer and is not inactive |
| RelayPing.InactiveIsDue | Lacewing/RelayServer.cc:151-182 | over any schedule a client is dropped for inactivity exactly if that has lasted too long and it is silent over TCP, or over UDP for the keep-alive time, however well it answers |
| RelayPing.PingedIsDue | Lacewing/RelayServer.cc:160-196 | over any schedule it is pinged exactly if it is silent, owes no answer and is not inactive |
| RelayPing.KeepAliveIsDue | Lacewing/RelayServer.cc:198-212 | over any schedule a UDP message goes out exactly if none has come for long and the client is not dropped |
| RelayPing.BusyIsLetBe | Lacewing/RelayServer.cc:160-176 | a client heard over TCP within the ping time of every tick, and over UDP likewise, is let be however inactive it is |
| RelayPing.TickOne | Lacewing/RelayServer.cc:151-211 | the branches come to the verdict the schedules are about |
| RelayPing.PingTimerTick | Lacewing/RelayServer.cc:149-212 | each client is judged once; the lists hold just those to be dropped, pings and UDP keep-alives go out to just those the verdicts say |
| ReadWriteLock.StepLegal | Lacewing/ReadWriteLock.cc:252-490 | whatever a thread does next, no check of its fails, and it moves as it changes what counts it |
| ReadWriteLock.StepKeeps | Lacewing/ReadWriteLock.cc:252-490 | every step of any thread keeps the invariant |
| ReadWriteLock.LockSafe | Lacewing/ReadWriteLock.cc:252-490 | over any interleaving of any number of threads no check fails, a writer excludes all others, each thread in a guard has its one entry in the list of holders, and nobody changes that list while another uses it |
| ReadWriteLock.AllClosed | Lacewing/ReadWriteLock.cc:174-178 | with every guard closed all counters are zero and the list empty, as the destructor demands |
| ReadWriteLock.NestedIsNoticed | Lacewing/ReadWriteLock.cc:180-245 | a thread goes on to lock exactly if it does not hold the lock already |
| ReadWriteLock.LetIn | Lacewing/ReadWriteLock.cc:297-313 | after any run one that waits gets the lock with its next step exactly if nobody writes and, if it is to write, nobody reads: readers share |
| ReadWriteLock.UpgradeFails | Lacewing/ReadWriteLock.cc:324-335 | after any run a reader that goes on to open a writer is told off, or, without that check, whatever any threads do then, still waits for itself |
| ReadWriteLock.NoDeadlock | Lacewing/ReadWriteLock.cc:252-490 | after any run, while a thread is in the middle of opening or closing a guard, some thread can go on with that or holds a guard it is free to close |
| ReadWriteLock.OneWriter | Lacewing/ReadWriteLock.cc:297-313 | of two threads one about to change the list excludes the other from it |
| StreamGraphs.Swallow | Lacewing/src/streamgraph.c:67-97 | ends on any graph; only streams reached without passing the target are relabelled, closed under what they refer to |
| StreamGraphs.SwallowEach | Lacewing/src/streamgraph.c:78-96 | each of a list is taken in |
| StreamGraphs.SwallowGraph | Lacewing/src/streamgraph.c:99-112 | exactly the streams the old roots reach without passing the target change graph, and roots are appended |
| StreamGraphs.GoneIsReached | Lacewing/src/streamgraph.c:67-97 | soundness and closure make what is gone exactly what is reached |
| StreamMerges.ReachedUnlessIsland | Lacewing/src/streamgraph.c:99-112 | the roots of a graph reach all of it exactly if it has no island: streams without a root among them that nothing else refers to |
| StreamMerges.MergeInto | Lacewing/src/streamgraph.c:99-112 | the old graph keeps no stream exactly if it has no island; then just its streams move |
| StreamMerges.LinkMore | Lacewing/src/stream.c:473-487 | a link more leads back to its beginning exactly if its end already led there |
| StreamMerges.RootsReachAll | Lacewing/src/stream.c:482-487 | where no links lead back, the roots of every graph reach all of it |
| StreamMerges.NewStream | Lacewing/src/stream.c:33-55 | a new stream is the root of a graph of its own |
| StreamMerges.WriteStream | Lacewing/src/stream.c:465-490 | two graphs become one, whole, and the stream linked to is a root no longer; all stays tidy |
| StreamMerges.AddFilterUpstream | Lacewing/src/stream.c:508-533 | the filter is hung last among the upstream ones and its graph merged whole |
| StreamMerges.AddFilterDownstream | Lacewing/src/stream.c:535-560 | the same downstream |
| StreamMerges.LinkDone | Lacewing/src/stream.c:731-749 | a link is taken off the list of the stream the data came from, which has it exactly if nothing filters its source downstream, and its end is a root again; all stays tidy |
| StreamMerges.WriteToSelf | Lacewing/src/stream.c:462-487 | a stream written to itself and then made a filter stays in its old graph |
| StreamBuilds.Build | Lacewing/src/stream.c:432-560 | after any calls that write no stream to one that leads to it, two streams are in one graph exactly if they have been joined, every graph is tidy, and links and downstream filters are where the calls put them |
| StreamBuilds.DoLinkDone | Lacewing/src/stream.c:731-749 | a link that is done is off its source's list exactly if the source has no downstream filter |
| StreamBuilds.StaleLink | Lacewing/src/stream.c:736-749 | calls that lead to nothing they should not leave a freed link listed |
| StreamExpansions.ExpandStream | Lacewing/src/streamgraph.c:114-201 | a tree of filters becomes the chain of its in-order flattening, with heads and hooks where they belong |
| StreamExpansions.ExpandUpstream | Lacewing/src/streamgraph.c:121-170 | upstream filters, then the stream, whose head is the first of them or none |
| StreamExpansions.ExpandDownstream | Lacewing/src/streamgraph.c:172-192 | downstream filters after the stream |
| StreamExpansions.AddHooks | Lacewing/src/streamgraph.c:195-200 | the hooks go to the last of the chain, after those it has |
| StreamExpansions.Join | Lacewing/src/streamgraph.c:135-139 | linking the end of one chain to the head of another makes one chain |
| StreamExpansions.ClearExpanded | Lacewing/src/streamgraph.c:419-437 | every stream along the expansion is back to empty lists, every link to no ends |
| StreamExpansions.ExpandGraph | Lacewing/src/streamgraph.c:237-264 | expanding anew clears the old expansion and leaves one chain with one expanded root, which can be expanded again |
| StreamChains.HeadsLead | Lacewing/src/streamgraph.c:121-145 | in the chain of any tree each stream comes after its head, so that what is written to the head gets to it; a head is missing only without upstream filters |
| StreamChains.HooksConserved | Lacewing/src/streamgraph.c:195-200 | every hook of a tree is called along its chain, and called once |
| StreamChains.LastIsOwn | Lacewing/src/stream.c:736-736 | the last of a stream's chain, which data for its links comes from, is the stream itself exactly if nothing filters it downstream |
| StreamGrafts.GraftFlat | Lacewing/src/streamgraph.c:114-201 | a filter with all on it comes in the chain just before the stream it is put on, if upstream, else just after the stream and all that is on it |
| StreamFilters.MergeFilter | Lacewing/src/streamgraph.c:99-112 | the filter's old expansion is cleared, and all of its graph goes over |
| StreamFilters.AddFilter | Lacewing/src/stream.c:508-560 | a filter, with any filters on it, is put on any stream of a tree of filters, its graph merged and all expanded anew: the chain is that of the tree grown by it |
| StreamFilters.PutFilters | Lacewing/src/stream.c:508-560 | filters on streams, on filters and so on, put there in any order: data passes them in the order that where each was put says, and all are in one graph with one expanded root |
| StreamPlans.OrderIsAll | Lacewing/src/streamgraph.c:114-201 | in that order each stream is found, and once |
| StreamPlans.OldestFirst | Lacewing/src/streamgraph.c:114-201 | with filters on one stream only that order is the upstream ones, oldest first, the stream, and the downstream ones, oldest first |
| HeapBuffers.HeapBuffer.Add | Lacewing/src/heapbuffer.c:41-83 | appends, from nothing or growing threefold as often as it takes |
| HeapBuffers.HeapBuffer.TrimLeft | Lacewing/src/heapbuffer.c:126-132 | takes bytes off the front |
| HeapBuffers.HeapBuffer.TrimRight | Lacewing/src/heapbuffer.c:134-140 | takes bytes off the end |
| StreamQueues.Stream.Write | Lacewing/src/stream.c:258-415 | accepts all of the data, or none once closing; keeps order and conservation; while queueing nothing is sunk |
| StreamQueues.Stream.QueueBack | Lacewing/src/stream.c:228-241 | appends to the last buffer of the queue or to a new one |
| StreamQueues.Stream.DrainFirst | Lacewing/src/stream.c:785-821 | the front of the queue goes to the sink as far as it is taken; a marker stops it |
| StreamQueues.Stream.WriteQueue | Lacewing/src/stream.c:780-842 | ends, keeps conservation, and on an open stream leaves the queue empty, or at a marker, or beginning with what the sink would not take when last offered something |
| StreamQueues.Stream.WriteQueued | Lacewing/src/stream.c:844-886 | on an open stream, unless queueing, drains the queue: to its end, to a marker, or to what the sink would not take |
| StreamQueues.Stream.Retry | Lacewing/src/stream.c:888-906 | drains the queue so at once, or notes when to |
| StreamQueues.Stream.BeginQueue | Lacewing/src/stream.c:1082-1103 | queueing begins at once, or where the marker is |
| StreamQueues.Stream.EndQueue | Lacewing/src/stream.c:1152-1163 | queueing ends up to the next marker, with the queue drained so far as the sink takes |
| StreamQueues.Stream.QueuedBytes | Lacewing/src/stream.c:1105-1138 | is what was accepted less what was sunk |
| StreamQueues.StopsAtMarker | Lacewing/src/stream.c:785-795 | nothing past the next marker is sunk; while queueing all before it is |
| StreamQueues.Drive | Lacewing/src/stream.c:258-415 | over any operations and any sink, at every moment sunk bytes followed by queued bytes are those written, in order; what goes in and when queueing ends is as the operations say; draining has stopped exactly at its marker, or where the sink refused some of what it was offered, and with a sink that takes all nothing before the marker is ever left |
| StreamLinks.Source.Push | Lacewing/src/stream.c:619-768 | each link gets its share of a push and is unlinked from both ends exactly if that was its last |
| StreamLinks.PushAll | Lacewing/src/stream.c:619-768 | over any pushes, whatever the source has left at each, a link with a limit forwards exactly the first so many bytes and one without all up to where the source had nothing left, and is linked exactly until then, whatever other links do |
| UtHash.MaskIsMod | Lacewing/deps/uthash/uthash.h:187-190 | the mask is the remainder by the number of buckets |
| UtHash.IdealIsCeiling | Lacewing/deps/uthash/uthash.h:658-660 | the shift and mask make ceil(n/2b), and never zero with an item there |
| UtHash.Table.Find | Lacewing/deps/uthash/uthash.h:94-105 | follows the bucket's links to the item with a key exactly if there is one |
| UtHash.PushHead | Lacewing/deps/uthash/uthash.h:594-600 | an item becomes the head of a chain linked both ways |
| UtHash.Unlink | Lacewing/deps/uthash/uthash.h:607-618 | an item's neighbours are linked past it |
| UtHash.Table.Add | Lacewing/deps/uthash/uthash.h:162-185 | a new item is last in the order and in its bucket, both linked, counts are exact; the buckets double exactly if its bucket has reached what it may hold and doubling is not given up |
| UtHash.Table.Detach | Lacewing/deps/uthash/uthash.h:214-229 | an item goes from the order list, its head and tail moving along |
| UtHash.Table.Delete | Lacewing/deps/uthash/uthash.h:204-237 | an item goes from the order and from its bucket, both stay linked, and counts stay exact |
| UtHash.Table.MoveChain | Lacewing/deps/uthash/uthash.h:666-685 | an old chain is followed while its items are relinked, each into the new bucket its hash says |
| UtHash.Table.Expand | Lacewing/deps/uthash/uthash.h:647-693 | twice the buckets hold the same items, each where its hash says, on chains linked both ways; the items beyond the ideal are counted, and doubling is given up after twice having too many |
| NvHashes.NvHash.SetEx | Lacewing/src/nvhash.c:37-82 | is an update of the map; a known key keeps its place, a new one comes last |
| NvHashes.NvHash.Get | Lacewing/src/nvhash.c:84-95 | is a lookup in the map |
| NvHashes.NvHash.Delete | Lacewing/deps/uthash/uthash.h:204-237 | is a removal from the map; with the last item the table goes |
| NvHashes.NvHash.Clear | Lacewing/src/nvhash.c:97-119 | follows the order list and leaves nothing, so the second loop is not entered |
| NvHashes.Perform | Lacewing/src/nvhash.c:37-95 | over any sequence of sets and deletions and any hash function the table is the map |

## Left out

- UDP: hello and welcome beyond the welcome's arrival, blasted messages, UDP framing, loss and order; UDP changes no membership.
- Sockets, pumps, SSL, timers, files, addresses, the web server, flash policy, console and error texts: foreign calls or plumbing.
- User handlers that answer later, deny or call back in; the server's own setters for names; `createchannel`, which as coded throws.
- The reader after a handler has refused a frame: it is not reset, and is treated as dead.
- Byte counts that overflow 32 bits: builders of more than 2^31 bytes are outside the model, as is a failing allocation.
- Malformed requests that make the server distrust a client are one event, `Booted`; the reply to a version mismatch, the first byte of a connection, channel list requests and messages to the server itself change no membership and are not events.
- Limits of connections per address: the code compares pointers.
- A peer message for a channel the sender is not on dereferences null in the code; here it is dropped.
- Case folding is ASCII, and a name set to what it was is compared as bytes rather than up to a NUL.
- Reference counts: an object is destroyed by an event of its own, once nothing refers to it.
- The client's channels and peers are values within its list, so that a program holding on to one of them is not modelled.
- RelayServers.RelayServer.JoinChannel: running out of channel ids, which throws in the code, leaves the state with the refused borrow and nothing else.
- RelayClosing.CloseClientDone: locks are not taken within relay steps; `ReadWriteLock` is about one lock by itself.
- ReadWriteLock.LockSafe: upgrades and the relocking of a nested guard are excluded, as is the message box of a nested guard that outlives its writer; of progress only the absence of deadlock is claimed, not that every thread gets its turn.
- FrameBuilders.FrameBuilder.Add: adding after a frame has been prepared is not modelled, as the pointer to what is to be sent would be left dangling should the buffer grow.
- StreamExpansions.ExpandGraph: one tree of filters, each stream once, the stream before its filters among the roots; links between streams are expanded for none of them.
- StreamFilters.AddFilter: stream and filter are in graphs of their own, each one tree of filters without links; that the graph is read afterwards is left out.
- StreamFilters.PutFilters: as StreamFilters.AddFilter.
- StreamGraphs.SwallowGraph: the clearing of the old expansion is modelled in StreamFilters.MergeFilter; the old graph is deleted with its last reference.
- StreamMerges.NewStream: the expansion of the new graph, of one stream, is left out.
- StreamMerges.WriteStream: a stream that is to wait in a queue changes no graph, and so is no call here; expanding and reading afterwards are modelled by themselves or not at all.
- StreamMerges.AddFilterUpstream: expanding afterwards is modelled in StreamFilters.AddFilter, reading not at all.
- StreamMerges.AddFilterDownstream: as StreamMerges.AddFilterUpstream.
- StreamMerges.LinkDone: expanding and reading afterwards are left out; a link that stays listed although it is freed is taken to read as before.
- StreamBuilds.Build: closing and deleting streams are no calls.
- StreamQueues.Stream.Write: no source link, no filter, not transparent; queued streams, head buffers and closing when drained are left out.
- StreamLinks.Source.Push: targets are not transparent and accept all they are given, the source is not filtered, and no link deletes its source once it is done; re-reading the graph is a foreign call.
- StreamLinks.PushAll: as StreamLinks.Source.Push.
- RelayPing.PingTimerTick: the disconnecting of those on the lists is the event `Disconnected` of the relay.
- Lists of the stream library (`list.c`) are sequences.
- RelayWire.ConvergenceOverTheWire: bodies of 0x8000 to 0xFFFE bytes are excluded, as they must be by FrameCodec.RoundTrip, and those of 2^31 bytes and more.
