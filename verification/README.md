# JoinMarket: directory ownership, transaction codecs and sweep amounts

A Dafny model of three parts of the JoinMarket code base, with proofs.

**The directory server.** Client handlers, broadcasts, clean-ups after failed sends and the heartbeat are asyncio
tasks that share one registry. A nick is owned by one connection generation, a pair of nick and connection id, and a
verified connection may displace an older generation while work for it is still in flight. The server is a transition
system: the code between two suspending awaits is one step, each task has a program counter, there is one lock per
nick, and received bytes, write outcomes, token buckets, the proof check, the clock and the order of a dictionary walk
come from an oracle that is arbitrary at every step. The main results hold in every state of every run, for every
interleaving. The mutable objects of the server are classes whose methods are proved to compute the functions of the
transition system.

- `Types`, `PeerRegistry`, `MessageRouter`, `Handshake`, `Directory`: the tables and the atomic changes to them.
- `Protocol`: tasks, steps and runs. `Shapes`, `Frames`: which tasks exist, and what one step may change.
- `Ownership`, `Announcements`, `Admission`, `Sweeps`, `Isolation`, `Progress`, `Runs`: the parts of the invariant.
- `Theorems`, `Coverage`, `Deliveries`, `Statistics`: what follows for reachable states and whole runs.
- `Clients`, `Answers`: what a client's message leads to, and who is pinged, answers and is evicted, over whole runs.
- `Objects`, `Cascade`, `OwnerLocks`: the classes, the broadcast with its cascade of failed sends, the weak lock table.

**Transactions and PSBTs.** The library, the bond signer and the bond finalizer each read and write the formats of
BIP 144, BIP 174 and BIP 143. A reader is a function from the rest of the input to a value and what is left; the
parsers and writers with their moving offsets and growing buffers are methods proved equal to these functions. Hashes
and the ECDSA signature are parameters.

- `Wire`: bytes, words, compact sizes, lists. `Transactions`, `TransactionCode`, `VirtualSize`, `Estimate`: the library.
- `UnsignedTx`, `BondScript`, `Psbt`, `PsbtReview`, `PsbtRoundTrip`, `PsbtCode`: the PSBT writer and the strict signer.
- `Signing`, `Der`: the signed digest, the signed transaction, and the signature encoding.

**Sweep amounts.** `Sweep` has the amount of a sweep under fees that are rounded half-even.

Errors that the source raises become `None`, `Fail` or a result constructor without the message text. Where several
checks fail, the model does not say which is reported.

## Model

| member | source | states |
|---|---|---|
| Theorems.TablesAgree | directory_server/src/directory_server/server.py:480-571 | In every reachable state the peer and owner tables and the routing map have the same keys and connections, no connection owns two nicks, every key of the offer, bucket, drop-count and pending-pong tables is a current generation, offer sets are within bounds, and the registry is within its limit. |
| Theorems.WritesReachOwners | directory_server/src/directory_server/server.py:699-727 | Whenever a routed write is in progress, its connection is the HANDSHAKED current owner of the nick, is routed to, is in the pool, and the writing task holds the nick's lock. |
| Theorems.AnnouncedExactlyOnce | directory_server/src/directory_server/server.py:497-571 | A disconnect is announced at most once, only for a connection that was visible and lost its nick; once no handler still owes the announcement, a visible connection that is gone has been announced. |
| Theorems.NoOrphanOwners | directory_server/src/directory_server/server.py:218-244 | Every owner belongs to a handler that has not reached its final close and is in the pool; the pool holds only connections of such handlers; the pending counter is the number of handlers in the handshake and is within its cap. |
| Theorems.VerifiedOnly | directory_server/src/directory_server/handshake_handler.py:131-134 | Under the mode that requires verification, every owner in every reachable state has a verified key. |
| Theorems.OwnerLineage | directory_server/src/directory_server/peer_registry.py:68-106 | While a nick stays registered, its owners are at most one unverified owner followed by verified owners with one key. |
| Theorems.SweepsEndClean | directory_server/src/directory_server/heartbeat.py:145-208 | Between two sweeps no pong is pending. |
| Theorems.EvictedWasIdle | directory_server/src/directory_server/heartbeat.py:145-222 | If the hard limit is at least the idle threshold, whoever the heartbeat asks to remove was listed in that sweep as HANDSHAKED and idle past the threshold; without ping support it was idle past the hard limit. |
| Theorems.PingsWereWritten | directory_server/src/directory_server/heartbeat.py:166-191 | Whoever a sweep counts as pinged had its ping written in the same sweep. |
| Theorems.TimedOutWasPinged | directory_server/src/directory_server/heartbeat.py:193-205 | Whoever is evicted for a missing pong was pinged in the same sweep and owed the pong when the wait ended. |
| Answers.TimesOutTheSilent | directory_server/src/directory_server/heartbeat.py:193-197 | In every run, when the wait for pongs ends, a pinged peer is listed to be timed out if and only if its generation still owns the nick and no PONG of it has been received since the sweep began to ping it. |
| Answers.AnswerSaves | directory_server/src/directory_server/heartbeat.py:193-205 | In every run, a peer whose PONG is received after the sweep began to ping it and before the wait is over is in no list of peers to time out in that sweep. |
| Answers.PongClears | directory_server/src/directory_server/message_router.py:449-457 | The step that takes a PONG of a current, HANDSHAKED generation removes its pending pong, and that of no other current generation. |
| Answers.IdleAnswerOrGo | directory_server/src/directory_server/heartbeat.py:166-208 | In every run, when a sweep is over, every peer with ping support that it listed as idle has answered with a PONG since, or has lost its nick for good. |
| Answers.ListedMustGo | directory_server/src/directory_server/heartbeat.py:153-164 | In every run, whoever is on a list of peers to remove, for being idle too long or for a missing pong, stays on it until it has lost its nick for good. |
| Answers.ListsAllIdle | directory_server/src/directory_server/heartbeat.py:149-168 | The first step of a sweep lists every HANDSHAKED owner last seen before the hard cutoff, and the step that ends the evictions every one last seen before the idle cutoff. |
| Answers.ProbesByKind | directory_server/src/directory_server/heartbeat.py:170-186 | When its turn comes, an idle peer that still owns its nick and was not evicted is pinged, with its pong pending, if it supports that; else it is asked for its offers if it is a maker, and else passed over. |
| Answers.LastSeenIsLastHeard | directory_server/src/directory_server/peer_registry.py:150-177 | In every run, the time kept for a current owner is that of its registration, of the end of its handshake or of its last message, whichever was last. |
| Answers.EvictedWasSilent | directory_server/src/directory_server/heartbeat.py:145-222 | In every run, if the hard limit is at least the idle threshold, nothing had been heard from whoever the heartbeat asks to remove since the idle cutoff, at the step of that sweep that listed it. |
| Theorems.NeverHoldsAndWaits | directory_server/src/directory_server/server.py:558-571 | In every reachable state, a task that waits for an owner lock or for the senders of a broadcast holds no owner lock. |
| Theorems.NeverInCircles | directory_server/src/directory_server/server.py:538-571 | In no reachable state do tasks wait for each other in a circle. |
| Theorems.NeverDeadlocked | directory_server/src/directory_server/server.py:538-571 | In every reachable state, every unfinished task can run or waits, through a chain of other tasks, for one that can. |
| Theorems.OwnersAreIsolated | directory_server/src/directory_server/server.py:729-792 | In every reachable state, a step of a task that does not act for a current owner leaves all state kept for that owner as it was. |
| Theorems.CascadesEnd | directory_server/src/directory_server/message_router.py:241-335 | From any reachable state, a run of steps that only carry on writes, removals and broadcasts is no longer than a bound computed from the state. |
| Coverage.BroadcastCovers | directory_server/src/directory_server/message_router.py:295-335 | A peer that is served from the step that begins a broadcast until the broadcast is over, and is not left out of it, is the target of exactly one of its senders, however other tasks interleave, register and fail. |
| Coverage.NoTargetTwice | directory_server/src/directory_server/message_router.py:295-335 | No broadcast has two senders to one generation. |
| Coverage.PullExact | directory_server/src/directory_server/message_router.py:308-327 | A batch is what the walk yields from the items it uses up, in order; it is full, or the walk is at its end. |
| Coverage.BatchesAreBounded | directory_server/src/directory_server/message_router.py:308-333 | No step starts more senders than the batch size, or one if that is zero. |
| Coverage.TargetsAreOwners | directory_server/src/directory_server/message_router.py:195-203 | Every sender is started to a generation that is current at that step, and never to the nick or the connection that its broadcast leaves out. |
| Deliveries.RemovalsHaveCause | directory_server/src/directory_server/message_router.py:268-282 | In every run, a task that waits to remove an owner is the owner's own handler, or the heartbeat for an idle or silent peer, or has itself failed to write to that generation before. |
| Deliveries.LostForCause | directory_server/src/directory_server/server.py:729-792 | In every run, the step with which a generation loses its nick is a registration of the nick or a removal with one of these causes, so no cascade removes a peer whose write did not fail. |
| Deliveries.FailedIsGone | directory_server/src/directory_server/message_router.py:241-282 | Once a sender whose write failed is done, its target does not own the nick and never will again. |
| Deliveries.GoneForGood | directory_server/src/directory_server/peer_registry.py:68-106 | A registered generation that does not own its nick will not own it in any later state. |
| Deliveries.BroadcastDelivers | directory_server/src/directory_server/message_router.py:295-335 | A peer that is served from the step that begins a broadcast until it is over, and is not left out of it, has received it: that broadcast starts exactly one sender to it, which is done and whose write succeeded, however other tasks interleave, register and fail. |
| Deliveries.RunTracked | directory_server/src/directory_server/message_router.py:241-282 | In every state of every run, the position of a sender, of a relaying handler or of a pinging heartbeat tells whether its write succeeded, failed, or was not made because the target was not served. |
| Clients.PrivateReachesOnlyTarget | directory_server/src/directory_server/message_router.py:373-413 | In every run, every routed write that a handler makes for a private message, and every removal it asks for meanwhile, is of the generation that owned the nick of the message when the message was taken. |
| Clients.PrivateGoesToOwner | directory_server/src/directory_server/message_router.py:373-398 | Taking a private message, the handler goes on to write to the current owner of its nick if that is HANDSHAKED, and takes the next message otherwise. |
| Clients.LocationFollows | directory_server/src/directory_server/message_router.py:398-404 | After a successful write, the location of a maker goes to the same generation if that still owns the nick, and nothing more is written otherwise. |
| Clients.FailedRelayRemoves | directory_server/src/directory_server/message_router.py:405-413 | After a failed write, the handler asks to remove the generation it wrote to if that still owns the nick. |
| Clients.RepliesGoBack | directory_server/src/directory_server/message_router.py:415-447 | The reply to a ping or to a request for the peer list goes to the generation that sent it. |
| Clients.ConnectDecides | directory_server/src/directory_server/server.py:218-231 | A connection is served if and only if fewer handshakes are pending than the cap and the pool has room; only then is it in the pool and counted as pending. |
| Clients.GreetDecides | directory_server/src/directory_server/handshake_handler.py:51-57 | A greeting is refused if and only if verification is required and not negotiated, leads to a proof if and only if server and client both offer it, and else to a registration without a key; what is registered is the greeted nick with its ping support and maker flag, not yet HANDSHAKED. |
| Clients.ProofDecides | directory_server/src/directory_server/server.py:286-301 | A proof leads to a registration with the proved key, and a failed one to the end of the connection. |
| Clients.HandshakeCompletes | directory_server/src/directory_server/server.py:309-373 | A current owner at the end of its handshake becomes HANDSHAKED and served, and is no longer counted as pending. |
| Clients.GoodbyeLeaves | directory_server/src/directory_server/server.py:601-684 | A handler whose client hangs up or has to be cut off, or that finds its nick taken, goes on to remove its own generation and announce that. |
| Clients.RemovedIsClosed | directory_server/src/directory_server/server.py:729-792 | A task that has removed a generation, after a failed write or for the heartbeat, takes its connection out of the pool in its next step. |
| Coverage.AnnouncementBegins | directory_server/src/directory_server/message_router.py:595-618 | Every announcement of a disconnect, by displacement or by removal, is such a broadcast to all but the nick and connection that are gone. |
| Coverage.PublicMessageBegins | directory_server/src/directory_server/message_router.py:89-203 | Every public message of a served peer that the buckets and the offer limits accept is such a broadcast to all but its sender. |
| Runs.RunInv | directory_server/src/directory_server/server.py:197-792 | Every state of every run satisfies the whole invariant. |
| Runs.StepKeepsInv | directory_server/src/directory_server/server.py:197-792 | One step of any task, for any oracle, keeps the whole invariant. |
| Ownership.StepKeepsCore | directory_server/src/directory_server/server.py:473-571 | A step keeps the table agreement, the lock table, the link from owners to their handlers, and the safety of writes in progress. |
| Announcements.StepKeepsTold | directory_server/src/directory_server/server.py:497-571 | A step keeps the bookkeeping of announcements: nothing announced twice, nothing visible lost without an announcement made or owed. |
| Admission.StepKeepsPending | directory_server/src/directory_server/server.py:218-236 | A step keeps the pending counter equal to the number of handlers in the handshake. |
| Admission.StepKeepsVerified | directory_server/src/directory_server/server.py:286-341 | Under the mode that requires verification, a step keeps every owner and every registration in progress verified. |
| Sweeps.StepKeepsHeart | directory_server/src/directory_server/heartbeat.py:145-222 | A step of any task keeps what the running sweep relies on: which generations may owe a pong and how idle its entries are. |
| Sweeps.EvictionsAreDue | directory_server/src/directory_server/heartbeat.py:153-164 | A removal asked for by the heartbeat is of a generation listed as idle past the threshold, and past the hard limit unless it supports pings. |
| Isolation.GenerationIsolated | directory_server/src/directory_server/server.py:669-697 | One step of a task that does not act for the owner leaves its ownership, info, routing and pool entry, offers, bucket, drop count and pending pong unchanged. |
| Isolation.StaleIsHarmless | directory_server/src/directory_server/server.py:729-792 | A removal or a write that is still waiting for a generation that no longer owns its nick changes no table and ends without effect. |
| Progress.NoHoldAndWait | directory_server/src/directory_server/server.py:558-571 | Where the lock table agrees with the writes in progress, which every step keeps, a waiting task is the holder of no entry. |
| Progress.WaitsEnd | directory_server/src/directory_server/server.py:538-571 | From any unfinished task a path of waits leads to a task that can take a step. |
| Progress.NoWaitCycle | directory_server/src/directory_server/server.py:538-571 | No chain of waiting tasks returns to its start. |
| Progress.CascadeDecreases | directory_server/src/directory_server/message_router.py:241-335 | Every step of a write, removal or broadcast lowers a measure of registered peers and targets left, whatever the outcome of the write. |
| Progress.CascadesTerminate | directory_server/src/directory_server/message_router.py:241-335 | A run of such steps is at most as long as the measure of its first state. |
| Directory.RegisterKeepsMaps | directory_server/src/directory_server/server.py:480-506 | A registration, with or without a displaced owner, keeps the tables in agreement. |
| Directory.RegisterKeepsCapacity | directory_server/src/directory_server/peer_registry.py:68-106 | A registration keeps the registry within its limit, also when it replaces an owner of a full registry. |
| PeerRegistry.RegisterDecides | directory_server/src/directory_server/peer_registry.py:68-90 | A registration conflicts if and only if the nick is taken and the key is missing or is not that of a verified owner; it fails for lack of room if and only if it does not conflict and the other nicks fill the registry; it is made otherwise. |
| PeerRegistry.RegisterGives | directory_server/src/directory_server/peer_registry.py:91-106 | A registration gives the nick to the connection and key with a new time, reports exactly the connection that had it, and changes no other nick and no other connection. |
| Directory.RemoveKeepsConsistent | directory_server/src/directory_server/server.py:541-556 | Removing an owner keeps the tables in agreement and the per-generation tables free of other keys. |
| MessageRouter.IngressKeepsBounds | directory_server/src/directory_server/message_router.py:127-182 | Every public message keeps each offer set at 1 to 256 ids of at most 64 characters. |
| MessageRouter.IngressIsLocal | directory_server/src/directory_server/message_router.py:122-182 | A public message changes no entry of another generation. |
| MessageRouter.IngressTracks | directory_server/src/directory_server/message_router.py:122-182 | An id is an offer afterwards if and only if an accepted offer names it, or it was one and no accepted cancellation names it; every message that is not accepted, and no other, counts as dropped. |
| Objects.WordsTrack | directory_server/src/directory_server/message_router.py:127-182 | After an accepted message, the offers have gained the second word of an offer command, lost the decimal second word of a cancellation, or stayed. |
| Protocol.IdleSince | directory_server/src/directory_server/peer_registry.py:309-325 | The entries are exactly the HANDSHAKED owners of the walk that were last seen before the cutoff. |
| Protocol.Unanswered | directory_server/src/directory_server/heartbeat.py:196-197 | The entries that time out are exactly the pinged ones with a pending pong. |
| Statistics.StatsExact | directory_server/src/directory_server/message_router.py:620-645 | In every reachable state the current-owner filter of the statistics removes nothing, and the table has at most one entry a peer and 256 offers an entry. |
| Objects.RegistryObject.Register | directory_server/src/directory_server/peer_registry.py:55-106 | The object becomes what the registration function gives, reports the displaced connection, and is unchanged when it refuses. |
| Objects.RegistryObject.Unregister | directory_server/src/directory_server/peer_registry.py:108-125 | The entry goes exactly when the expected connection owns the nick. |
| Objects.RegistryObject.UpdateStatus | directory_server/src/directory_server/peer_registry.py:150-164 | Status and time change only for the expected owner, and a disconnect leaves the time. |
| Objects.RegistryObject.UpdateLastSeen | directory_server/src/directory_server/peer_registry.py:166-177 | The time changes only for the expected owner. |
| Objects.RegistryObject.GetPeersIdleSince | directory_server/src/directory_server/peer_registry.py:309-325 | The loop lists, in the order of the walk, the HANDSHAKED owners last seen before the cutoff. |
| Objects.RouterObject.TrackPublicMessage | directory_server/src/directory_server/message_router.py:122-182 | The three tables become what the ingress function gives, and the message goes on exactly when the bucket and the offer limits accept it. |
| Objects.RouterObject.GetOfferStats | directory_server/src/directory_server/message_router.py:620-628 | The counts are the number of offers, and of non-empty offer sets, of current generations, whatever the order of counting. |
| Objects.HeartbeatObject.HandlePong | directory_server/src/directory_server/heartbeat.py:111-120 | The pending pong of the named or current generation goes, and no other. |
| Objects.ServerObject.RegisterPeer | directory_server/src/directory_server/server.py:480-506 | The calls on the registry, the heartbeat, the router and the routing map together give the registration of the transition system; a refusal changes nothing. |
| Objects.ServerObject.RemoveOwnedPeerState | directory_server/src/directory_server/server.py:541-556 | The critical section of a removal gives the removal of the transition system for a current owner, reports whether it was visible, and changes nothing otherwise. |
| Cascade.SafeSend | directory_server/src/directory_server/message_router.py:241-282 | In the schedule without interleaving, a failed write removes its target and announces it; exactly the targets of failed writes lose their nick, also those that fail while announcing. |
| Cascade.SendBatch | directory_server/src/directory_server/message_router.py:323-333 | In the same schedule, the senders of a batch write to each target that is served when its turn comes, and whoever is served at the end was written to. |
| Cascade.Broadcast | directory_server/src/directory_server/message_router.py:295-335 | In the same schedule, the broadcast with its whole cascade terminates for any outcomes; exactly the targets of failed writes are gone, every target that is still served was written to, and each target of the outer broadcast is sent to once. |
| OwnerLocks.OneLockPerNick | directory_server/src/directory_server/server.py:473-478 | However locks are asked for, dropped and collected from the weak table, two users hold the same lock exactly when they asked for the same nick. |
| Wire.SizeRoundTrip | jmcore/src/jmcore/bitcoin.py:334-378 | Reading a written compact size gives the number and the rest, in the lenient and the strict form. |
| Wire.SizeBytes | jmcore/src/jmcore/bitcoin.py:334-351 | A compact size is the number itself below 253, and else 0xFD, 0xFE or 0xFF with the number in two, four or eight bytes, lowest first, the shortest that has room. |
| Wire.WordsAreLittleEndian | jmcore/src/jmcore/bitcoin.py:354-378 | A word read from two, four or eight bytes is the number of these bytes, lowest first. |
| Wire.WrittenLittleEndian4 | jmcore/src/jmcore/bitcoin.py:940-948 | Four bytes are what is written for a number if and only if they are that number, lowest byte first. |
| Wire.WrittenLittleEndian8 | jmcore/src/jmcore/bitcoin.py:992-1005 | Eight bytes are what is written for a number if and only if they are that number, lowest byte first. |
| Wire.SizeInverse | scripts/sign_bond_mnemonic.py:82-105 | What the strict form accepts is the writing of the number it gives. |
| TransactionCode.DecodeVarint | jmcore/src/jmcore/bitcoin.py:354-378 | The decoder gives the value and new offset of the compact size at an offset, and nothing beyond the end: the bytes passed are one byte below 253, or 0xFD, 0xFE or 0xFF and the value in two, four or eight bytes, lowest first. |
| Transactions.TransactionRoundTrip | jmcore/src/jmcore/bitcoin.py:1024-1145 | With one witness stack per input, or no non-empty one, parsing a serialization gives the transaction back, empty witnesses as none, if and only if it is within the limits and is not one output without input; beyond the limits it is refused. |
| Transactions.ParsedInLimits | jmcore/src/jmcore/bitcoin.py:1037-1118 | Whatever the parser accepts is within its limits on inputs, outputs, values and witness items. |
| Transactions.SerializeInjective | jmcore/src/jmcore/bitcoin.py:1206-1252 | Two transactions without witnesses have the same serialization only if they are equal. |
| Transactions.WrittenBytes | jmcore/src/jmcore/bitcoin.py:1206-1252 | Bytes are the serialization if and only if they have the layout of BIP 144: version in the first four bytes and locktime in the last four, lowest first, the marker between them exactly with witnesses, the counted inputs, the counted outputs and the witnesses. |
| Transactions.InputBytes | jmcore/src/jmcore/bitcoin.py:970-989 | An input has its transaction id in 32 bytes, its index in four, lowest first, its sized script, and its sequence in four, lowest first. |
| Transactions.OutputBytes | jmcore/src/jmcore/bitcoin.py:992-1005 | An output has its value in eight bytes, lowest first, and its sized script. |
| Transactions.TxidIgnoresWitnesses | jmcore/src/jmcore/bitcoin.py:1255-1276 | The id computed with the witnesses is the id computed without them if and only if the witnesses do not take the transaction beyond the parser's limits; within the limits it is the hash of the serialization without witnesses. |
| Transactions.TxidShowsHash | jmcore/src/jmcore/bitcoin.py:1255-1276 | Data that can be parsed, and no other, has an id: as many bytes as the hash of the transaction without witnesses, and the same number read highest byte first. |
| TransactionCode.ParseTransactionBytes | jmcore/src/jmcore/bitcoin.py:1024-1145 | The offset loops compute the reader that the round trip is about, on every byte string; version and locktime are the numbers in the first and last four bytes, lowest first. |
| TransactionCode.SerializeTransaction | jmcore/src/jmcore/bitcoin.py:1206-1252 | The loops build the bytes with the layout of BIP 144, with marker and witnesses exactly when some stack is non-empty. |
| VirtualSize.ScanWitnesses | jmcore/src/jmcore/bitcoin.py:1436-1471 | On a marked transaction that can be read, the scan finds the number of witness bytes. |
| VirtualSize.CalculateTxVsize | jmcore/src/jmcore/bitcoin.py:1417-1484 | For every serialized transaction with one witness stack per input, or no non-empty one, the scan gives a quarter, rounded up, of three times the stripped size plus the total size, if and only if the transaction is not one output without input. |
| VirtualSize.OneOutputScansShort | jmcore/src/jmcore/bitcoin.py:1433-1480 | One empty output without input has 19 bytes and 19 virtual bytes, and the scan counts 18. |
| Estimate.EstimateVsize | jmcore/src/jmcore/bitcoin.py:1354-1414 | The loops give a quarter, rounded up, of the summed weights. |
| Estimate.EstimateIsUpperBound | jmcore/src/jmcore/bitcoin.py:1354-1414 | For up to 252 inputs and outputs of the announced kinds the estimate is at least the virtual size of the signed transaction, and the weights are equal at the longest signatures and scripts. |
| UnsignedTx.UnsignedExact | scripts/sign_bond_mnemonic.py:184-246 | The strict parser accepts bytes as a transaction if and only if they are its serialization, it has one input without scriptSig, its outputs are within the limits, and the size is within the limit. |
| UnsignedTx.ParseTx | scripts/sign_bond_mnemonic.py:184-246 | The moving position computes that parser; the same equivalence holds of its result. |
| UnsignedTx.SerializeTx | scripts/sign_bond_mnemonic.py:249-290 | The parts appended in turn and joined have the layout of BIP 144, with marker and witnesses whenever a stack is given; this is the library's format, written on its own. |
| Psbt.MapRoundTrip | scripts/sign_bond_mnemonic.py:350-379 | A written map is read back if its keys are distinct and at most 1000, and refused otherwise. |
| Psbt.MapInverse | scripts/sign_bond_mnemonic.py:350-379 | What is read as a map is the writing of that map, whose keys are distinct and not empty. |
| Psbt.CreatePsbt | jmcore/src/jmcore/bitcoin.py:1618-1698 | The writer gives the magic, the global map with the unsigned transaction under key 0, one map an input and one empty map an output, and refuses unequal counts. |
| PsbtRoundTrip.InputFields | jmcore/src/jmcore/bitcoin.py:1667-1692 | The map of an input holds under 1, 3 and 5 the spent output, the hash type and the script, this only if not empty, each once and under a key of one byte, and under 6 the key origins. |
| PsbtRoundTrip.DerivationBytes | jmcore/src/jmcore/bitcoin.py:1685-1690 | A key origin has the key in its key, and in its value the fingerprint and the indices of the path, four bytes each, lowest first. |
| PsbtCode.ParseMap | scripts/sign_bond_mnemonic.py:350-379 | The loop with its set of seen keys computes the map reader. |
| PsbtCode.ParseMaps | scripts/sign_bond_mnemonic.py:509-531 | The loops over the maps compute the reader of the whole PSBT. |
| PsbtCode.SumOutputs | scripts/sign_bond_mnemonic.py:565-570 | The running total gives the sum of the outputs, or stops if and only if the sum exceeds the amount. |
| PsbtCode.ParseRawPsbt | scripts/sign_bond_mnemonic.py:509-595 | The checks in turn compute the review function on every byte string, with the early stop of the running total. |
| PsbtReview.PsbtInverse | scripts/sign_bond_mnemonic.py:509-531 | Accepted bytes are exactly the magic, the global map that holds the serialized transaction, the input map and one map an output. |
| PsbtReview.AcceptedSpend | scripts/sign_bond_mnemonic.py:533-595 | An accepted spend reports the total of its outputs, and has an amount equal to that plus the fee; its transaction has a locktime of the same kind as the bond's and not before it, and a sequence that is not final, as BIP 65 demands; it spends an output that commits by hash to the bond script of its locktime and key. |
| PsbtReview.AcceptedRecords | scripts/sign_bond_mnemonic.py:509-549 | An accepted PSBT has one record each for the transaction, the spent output and the script, with keys of one byte, and at most one key origin; what was reviewed is what these records hold. |
| PsbtReview.TotalBoth | scripts/sign_bond_mnemonic.py:565-570 | The total of outputs is that of any first part and the rest, and of one output its value. |
| PsbtRoundTrip.CreatedThenParsed | jmcore/src/jmcore/bitcoin.py:1618-1698 | The signer accepts what the library writes for one input if and only if the spend is bounded, funded, in time, to a committed bond script and with at most one matching key origin, and then finds the same transaction, amounts, scripts, fingerprint and path. |
| BondScript.ScriptNumberExact | scripts/sign_bond_mnemonic.py:399-410 | A positive number is decoded from exactly one byte string of at most five bytes. |
| BondScript.BondScriptExact | scripts/sign_bond_mnemonic.py:413-457 | A script is accepted with a locktime and key if and only if it is the reference script for them, so accepted scripts are unique. |
| BondScript.BondBytes | scripts/sign_bond_mnemonic.py:413-457 | A bond script is the push of the locktime, CHECKLOCKTIMEVERIFY, DROP, a push of the key and CHECKSIG. |
| BondScript.PushBytes | scripts/sign_bond_mnemonic.py:413-440 | The locktime is an opcode up to 16, and above a push of its bytes, lowest first, without a sign bit. |
| BondScript.ReadersAgree | scripts/finalize_bond_psbt.py:174-216 | On every script the signer accepts, the finalizer finds the same key above locktime 16 and refuses up to 16. |
| BondScript.ExtractKeyExact | scripts/finalize_bond_psbt.py:174-216 | The finalizer finds a key if and only if the script is any push of one to five bytes followed by CHECKLOCKTIMEVERIFY, DROP, a push of the 33-byte key and CHECKSIG. |
| Der.SignatureExact | scripts/finalize_bond_psbt.py:255-296 | A string is accepted with two numbers if and only if it is their reference DER encoding in at most 72 bytes, so accepted strings are unique. |
| Der.IntegerExact | scripts/finalize_bond_psbt.py:263-296 | Every number has one accepted integer encoding. |
| Der.SignatureBytes | scripts/finalize_bond_psbt.py:255-296 | In an accepted string the lengths fit, and the two integers are the two numbers in this order, highest byte first. |
| Signing.SignBondTransaction | scripts/sign_bond_mnemonic.py:724-772 | The signed transaction is the unsigned one with a witness of the script and the signature over the hash of the one message that has the layout of BIP 143, and it fails exactly when the transaction is refused. |
| Signing.SignsBip143 | scripts/sign_bond_mnemonic.py:298-342 | Bytes are what the signer hashes if and only if they are the message of BIP 143, field by field at its place: version, hash of the outpoints, hash of the sequences, outpoint, script code, value, sequence, hash of the outputs, locktime, hash type. |
| Signing.HashedBytes | scripts/sign_bond_mnemonic.py:298-342 | The hashed outpoints lie one after the other in 36 bytes each, transaction id before index, and the sequences in four. |
| Signing.SplitAgrees | scripts/finalize_bond_psbt.py:114-162 | The finalizer splits what the strict parser accepts into the same fields if there is one output, and refuses it otherwise. |
| Signing.SighashesAgree | scripts/finalize_bond_psbt.py:235-252 | For one output, what the finalizer hashes is the message of BIP 143, and so the same bytes as the signer's. |
| Signing.SpliceAgrees | scripts/finalize_bond_psbt.py:522-537 | The spliced bytes are the signer's serialization for the same signature, and the library's parser reads them back as the signed transaction. |
| Sweep.CalculateSweepAmount | jmcore/src/jmcore/bitcoin.py:186-264 | The amount with the rounded fees fits the balance, no greater amount up to the exact floor fits, the loop corrects at most half as often as there are makers, and what is left is below one unit plus the sum of the rates plus one unit a maker. |
| Sweep.CommonDenominator | jmcore/src/jmcore/bitcoin.py:220-243 | The loops give the rates over one denominator, the greatest power of ten among them. |
| Sweep.TotalFee | jmcore/src/jmcore/bitcoin.py:259-259 | The loop gives the sum of the rounded fees. |
| Sweep.FeesBound | jmcore/src/jmcore/bitcoin.py:137-183 | Half-even-rounded fees differ from the exact sum by at most half a unit a maker. |
| Sweep.RoundsHalfToEven | jmcore/src/jmcore/bitcoin.py:137-183 | A number is the rounded quotient if and only if it is nearest to the exact one and, of two nearest, even. |
| Sweep.FeeRoundsHalfToEven | jmcore/src/jmcore/bitcoin.py:137-183 | A number is the fee if and only if it is nearest to the rate times the amount and, of two nearest, even. |
| Sweep.FitsBelow | jmcore/src/jmcore/bitcoin.py:250-262 | Every amount below a fitting one fits, which the downward correction relies on. |
| Sweep.FitsNearFloor | jmcore/src/jmcore/bitcoin.py:248-248 | No fitting amount is further above the exact floor than half the number of makers, rounded up. |
| Sweep.GreatestIff | jmcore/src/jmcore/bitcoin.py:202-203 | The result is the greatest fitting amount of all if and only if the amount after the exact floor does not fit. |
| Sweep.NotTheGreatest | jmcore/src/jmcore/bitcoin.py:202-203 | A balance of 1 at a rate of 0.001 gives 0, although 1 fits. |

## Where the code differs from its documentation

- The description of the sweep amount calls it the maximum after paying all fees. It is the maximum up to the exact
  floor; `Sweep.GreatestIff` says when it is the maximum of all amounts.
- A transaction with one output and no input is serialized without witnesses, and its input and output counts read
  as the witness marker. `Transactions.TransactionRoundTrip` has this as its only exception within the limits, and
  `VirtualSize.CalculateTxVsize` as its only exception: the size scanner, too, takes such a transaction for one with
  witnesses and reports too little (`VirtualSize.OneOutputScansShort`).
- A transaction id is said to leave out the witnesses. A witness stack of more than 1000 items makes the id fail,
  although the transaction without it has one (`Transactions.TxidIgnoresWitnesses`).
- The finalizer refuses bond scripts with locktimes 1 to 16, which the signer accepts (`BondScript.ReadersAgree`).

## Left out

- Sockets, TLS, Tor, logging, notifications, the health thread, command lines and the panel: input and output only.
- Task cancellation by `stop()`, and wall-clock time beyond an ordered timestamp.
- Token buckets, rate limits and the nick-authentication proof: oracles, since only their answers are used.
- Networks and directory peers in the registry: all peers are on the server's network and none is a directory.
- The peer list contents and the statistics on peers with many offers: reports without effect on the tables.
- `recipient_count` of a public message: a peer can finish its handshake between batches, so it need not equal the number of targets.
- Connection ids are the numbers of their handler tasks, which stands for the freshness of random ids.
- The `failed` set of a broadcast: a target is walked once, so the set never skips one.
- Cascade.SafeSend: one write with its removal at a time; the interleaved form is Deliveries.RemovalsHaveCause with Deliveries.FailedIsGone.
- Cascade.SendBatch: the senders of a batch run one after the other; the interleaved form is Deliveries.RunTracked.
- Cascade.Broadcast: as for Cascade.SendBatch; the interleaved form is Coverage.BroadcastCovers, Deliveries.BroadcastDelivers, Deliveries.LostForCause and Theorems.CascadesEnd.
- Transactions.TransactionRoundTrip: does not say what is read when the number of witness stacks differs from the number of inputs, which is no valid transaction.
- Base64, hexadecimal and the text of derivation paths.
- The finalizer's own scan of PSBT maps and its elliptic-curve check; the ECDSA signature, SHA-256 and key derivation are parameters.
- Building bond scripts through the script library, whose source is not part of this model.
- Rates as text: a rate is its digits and the number of decimals; scientific notation and the 28-digit precision of decimals are left out.
