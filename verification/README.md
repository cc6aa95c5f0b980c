# chepherd-relay: verified model

chepherd-relay connects clients to the bastions they control. This project models the
parts of it that carry state or decode input, and proves what they promise:

- the WebSocket hub (`internal/wsrelay/wsrelay.go`): a directory of rooms under two levels
  of locks, joined, left, read and counted by any number of threads at once;
- the signaling rendezvous (`cmd/chepherd-relay/main.go`): offers, answers and trickled ICE
  candidates handed over through bounded channels that are used after the mutex is released;
- the bastion ledger (`internal/registry/registry.go`): two maps to the same mutable records;
- token decoding and the JWKS cache (`internal/auth/auth.go`);
- the `Sec-WebSocket-Protocol` header (`internal/wsrelay/wsrelay.go`).

## How it is built

Concurrent parts are transition systems: a state, labels (one critical section, one channel
operation, one read or write, or one timeout each), a total `Step` in which a disabled label
does nothing, and `Exec`, which runs a schedule. A theorem about `Exec(ls)` for every `ls`
is a theorem about every reachable state of every interleaving of any number of threads.
What the systems record beside the program's own state (`heard`, `got`, `accepted`,
`polled`, `takers`, `stores` and so on) are histories; no guard reads them, but for the
record of client ids given out, which says what a fresh id is.

A few lemmas speak of any state that satisfies an invariant; `InvAlways` and `TrafficAlways`
prove the invariants of every reachable state.

Parts that update records in place are classes. Their methods are proved against the same
value functions that the transition systems step by, so that the classes, the interleaved
systems and the theorems speak of one thing.

| file | what it holds |
|---|---|
| `Common.dfy`, `Text.dfy` | options, logs, sums over maps; splitting, joining, trimming |
| `HubDirectory.dfy` | rooms and the hub map as values, one function a critical section |
| `HubMachine.dfy` | the hub as a transition system |
| `HubMembers.dfy` | who is registered where, retired rooms, room leaks, the daemon slot |
| `HubRefinement.dfy`, `HubDistinct.dfy` | the hub as a flat directory: with any ids, and with distinct ids |
| `HubClients.dfy` | who is filed under a client id, with any ids |
| `HubTraffic.dfy`, `HubFrames.dfy` | where each frame has got to; which frames reach whom |
| `HubStats.dfy`, `HubCounts.dfy` | what a concurrent `Stats` may report; what its totals count |
| `HubLocks.dfy` | the locks written out, their refinement of the above, no deadlock |
| `HubHeap.dfy` | `Hub`, `Room` and `conn` as classes |
| `Offers.dfy`, `Candidates.dfy` | offers and answers, and candidates, as transition systems |
| `OfferInvariant.dfy`, `OfferPromises.dfy` | what every step of the former keeps, and what it promises |
| `RelayHeap.dfy` | the relay's maps of channels as a class |
| `Ledger.dfy`, `LedgerHeap.dfy` | the ledger as a function of its history; `Memory` as a class |
| `Subprotocol.dfy` | the header: parsing and negotiation |
| `TokenCodec.dfy` | base64url, compact tokens, the exponent of a key |
| `KeyCache.dfy` | key sets, the cache as a class and under concurrent refreshes |

## What turned out not to hold

- A registered client can miss frames of a daemon that has not left: a displaced daemon
  whose room was deleted fans out to nobody (`HubFrames.DisplacedDaemonIsUnheard`).
  `HubFrames.FanoutTargets` says exactly whom each fanout reaches, and
  `HubFrames.NothingMissed` what follows when the source's room is current.
- A client that has joined and not left need not be registered. When it reconnects under
  its own id before its old leave has run, that leave deletes by id and takes the new
  connection out; its read loop goes on, and it is in no room ever after
  (`HubClients.ReconnectEvicted`, `HubClients.EvictedForever`). `HubClients.FiledLast` says
  whom each slot holds after any schedule, and `HubClients.FiledExactly` when a client is
  in its own: if and only if, since it joined, nobody has joined under its id and no leave
  under its id has passed its section in the current room.
- When two clients of a bastion share an id, a leave need not take effect while it holds the
  room lock (`HubDistinct.DuplicateIdsNeedHelp`). `HubDistinct.LeaveAtSection` says exactly
  when it does; `HubRefinement.Linearizable` holds for all ids, with the leaves that found a
  room before it was deleted taking effect at its deletion.
- After a second store the key cache can hold an older document than after the first
  (`KeyCache.OlderDocumentLater`): refreshes store in the order they finish. A store puts in
  place a document older than one the cache has held if and only if some call served after
  the storing one has stored already (`KeyCache.SavesOlderExactly`); over a whole run the
  cache never goes back if and only if no store is overtaken so (`KeyCache.NeverBackExactly`).
  A call that refreshed answers from a document older than its own if and only if the store
  its answer was read from was such a one, made after its own (`KeyCache.ReadsOlderExactly`).
- A repeated client id would break a rendezvous in three ways, told apart by what became of
  the earlier call (`OfferPromises.RepeatedIdTakesOver`, `OfferPromises.RepeatedIdHits`).
  Some client loses its entry, and can no longer be answered, if and only if the id is still
  on file. Some client's answers go to the new call's channel if and only if the id was ever
  given out, its entry cleaned up or not (`OfferPromises.RepeatedIdCrosses`;
  `OfferPromises.CrossedAnswer` is a schedule with the entry cleaned up). And the new call can
  lose its own entry while it waits, by the earlier one's cleanup, if and only if the earlier
  call has not finished (`OfferPromises.RepeatedIdCutsOff`). An id never given out does none
  of these.
- A line end in a base64url string is skipped but counted, so that "QQ" decodes and "QQ" with
  a line end after it does not (`TokenCodec.LineEndRefused`). `TokenCodec.DecodesAlike` says
  exactly when line ends and padding already there make no difference.

Where the code and its documentation differ, the code is modelled. The package comment of
wsrelay.go (lines 15-19) describes a replay buffer for reconnecting clients; there is none.
The comment on `Register` (registry.go:34-36) calls a repeated call idempotent; it rotates
the token, and revokes the old one even if minting the new one fails. A second answer is
refused with "client wait channel closed" (main.go:619) because the channel is full.

## Model

| member | source | states |
|---|---|---|
| HubMembers.RetiredForever | internal/wsrelay/wsrelay.go:152-205 | a room taken out of the hub map never returns to it and stays without daemon and clients in every later state |
| HubMembers.OneRoomInUse | internal/wsrelay/wsrelay.go:152-205 | of all rooms ever made for a bastion at most the one in the map has members |
| HubMembers.RegisteredIsLive | internal/wsrelay/wsrelay.go:135-137 | the room a registered connection captured is the one in the map, so its own leave finds it |
| HubMembers.NoRoomLeaks | internal/wsrelay/wsrelay.go:176-205 | with no leaver about to recheck, the map holds exactly the rooms that have members |
| HubMembers.InvStep | internal/wsrelay/wsrelay.go:152-205 | every step keeps: members are entitled to their slot, rooms outside the map are empty, an empty room in the map is owed a recheck |
| HubMembers.NoGhostMembers | internal/wsrelay/wsrelay.go:176-191 | once a leave has passed its room section no room refers to the connection, duplicate client ids included |
| HubMembers.DaemonSlot | internal/wsrelay/wsrelay.go:162-186 | a bastion's slot holds the daemon that joined last, or nothing once that one has left; a displaced daemon's leave never evicts its replacement |
| HubRefinement.ViewStep | internal/wsrelay/wsrelay.go:152-205 | each step runs, on a flat directory, the joins and leaves that take effect at it: a leave at its room section or at the deletion of the room it found |
| HubRefinement.Linearizable | internal/wsrelay/wsrelay.go:152-205 | for every interleaving, whatever the ids, these joins and leaves in the order of the steps are a run of the flat directory to the state's view |
| HubRefinement.LinearizationGrows | internal/wsrelay/wsrelay.go:152-205 | what has taken effect stays so, in its order, however the schedule goes on |
| HubRefinement.EffectsWithin | internal/wsrelay/wsrelay.go:152-205 | each join and leave takes effect at a step between the first and the last of its own call |
| HubRefinement.OnceEach | internal/wsrelay/wsrelay.go:152-205 | the linearization joins exactly the connections that have joined, leaves exactly those that have left, once each, the join first |
| HubDistinct.LeaveAtSection | internal/wsrelay/wsrelay.go:183-191 | a leave is the flat leave at its room section if and only if the room it found is current, or it is a daemon's, or its id is no longer filed |
| HubDistinct.DirectRefinement | internal/wsrelay/wsrelay.go:152-205 | with distinct ids the sequence of joins and room sections is itself the flat run |
| HubClients.FiledLast | internal/wsrelay/wsrelay.go:165-189 | after any schedule, with any ids, a slot holds the last client to join under the id, or nothing if a leave under that id has since passed its section in the current room |
| HubClients.FiledExactly | internal/wsrelay/wsrelay.go:165-189 | a client is filed under its id if and only if since its join nobody has joined under it and no leave has taken the id out |
| HubClients.EvictedForever | internal/wsrelay/wsrelay.go:165-189 | a client out of its slot is in no room in any later state |
| HubClients.ReconnectEvicted | internal/wsrelay/wsrelay.go:187-189 | a schedule in which a reconnected client, still reading, is taken out by its old connection's leave |
| HubClients.ClientSlots | internal/wsrelay/wsrelay.go:165-189 | a client whose id nobody shares while it is seated is filed if and only if it has joined and its leave has not passed its room section |
| HubClients.SameIdTakesOver | internal/wsrelay/wsrelay.go:165-171 | a client that asks for an id is filed under that very id; of two that join with one asked id the later has the slot and the earlier is in no room |
| HubClients.NoIdFiledApart | internal/wsrelay/wsrelay.go:166-170 | clients at different addresses that ask for no id are filed apart, and neither disturbs the other |
| HubClients.BothMembers | internal/wsrelay/wsrelay.go:166-171 | joining one after the other, both are members |
| HubClients.MintedText | internal/wsrelay/wsrelay.go:168 | a made-up id is "c-0x" and the address in hexadecimal |
| HubDistinct.MintedAreDistinct | internal/wsrelay/wsrelay.go:166-170 | ids made from connection addresses are distinct in every reachable state |
| HubDistinct.DuplicateIdsNeedHelp | internal/wsrelay/wsrelay.go:187-189 | a schedule with duplicate ids whose room section is not the flat leave |
| HubFrames.Relayed | internal/wsrelay/wsrelay.go:139-149 | what is written to t for c is an unmodified subsequence, in order and without repeats, of what was read from c; c has the opposite role and joined under the same bastion id |
| HubFrames.WriteDelivers | internal/wsrelay/wsrelay.go:224-227 | a write that succeeds adds to what the target has of the source the very frame read from it; one that fails adds nothing |
| HubFrames.AttemptedExactly | internal/wsrelay/wsrelay.go:210-228 | a frame is attempted at t exactly when a fanout copied t and its write loop has passed t |
| HubFrames.FanoutTargets | internal/wsrelay/wsrelay.go:210-223 | a fanout copies exactly the registered peers of its source if the room it captured is current, and nobody otherwise |
| HubFrames.FannedExactly | internal/wsrelay/wsrelay.go:140-149 | text and binary frames read are all fanned out but the one just read, and other frames never |
| HubFrames.NothingMissed | internal/wsrelay/wsrelay.go:135-149 | while t stays registered, every data frame read from a peer whose room was current at the start is attempted at t or still under way |
| HubFrames.DisplacedDaemonIsUnheard | internal/wsrelay/wsrelay.go:163-164 | a schedule in which a displaced daemon's frame is copied to nobody though a peer is registered |
| HubStats.StatsBracketed | internal/wsrelay/wsrelay.go:231-245 | OpenRooms is the map size throughout; the other counts lie between the totals at the end and at the start, and the clients and daemons missed are at most the leavers of that role past their lookup at the start |
| HubCounts.TotalsRegistered | internal/wsrelay/wsrelay.go:231-245 | in every reachable state the totals a count is compared with are the rooms in the map, the daemons registered and the clients registered, once each |
| HubCounts.CountStarts | internal/wsrelay/wsrelay.go:232-234 | a stats call starts from those totals, with nothing counted |
| HubCounts.CountEnds | internal/wsrelay/wsrelay.go:244 | and is compared with those at its end |
| HubDirectory.TotalsCount | internal/wsrelay/wsrelay.go:235-243 | the sums over the rooms are the number of rooms, of rooms with a daemon, and of taken client slots |
| HubStats.MapFrozen | internal/wsrelay/wsrelay.go:231-245 | nothing enters or leaves the hub map while a stats call runs |
| HubLocks.LocksRefine | internal/wsrelay/wsrelay.go:152-245 | the atomic state behind every run of the lock-by-lock hub is what the steps its actions complete lead to in the section-by-section hub, and who holds which lock is kept |
| HubLocks.ScheduleGrows | internal/wsrelay/wsrelay.go:152-245 | a run that goes on extends its schedule |
| HubLocks.RetiredUnderLocks | internal/wsrelay/wsrelay.go:152-205 | so under locks too a room taken out of the map stays out, without members |
| HubLocks.NobodyStuck | internal/wsrelay/wsrelay.go:152-245 | whoever has begun a join, leave, fanout or stats call can take its next step, or waits for one that can: a connection through at most two others, a stats call through at most three, even if readers wait for waiting writers |
| HubLocks.NoDeadlock | internal/wsrelay/wsrelay.go:152-245 | with anybody begun and unfinished, some thread or stats call that has begun can take its next step |
| HubHeap.Connection.Write | internal/wsrelay/wsrelay.go:226 | a write appends the frame to what the connection was sent, or fails and changes nothing |
| HubHeap.RoomRecord.Register | internal/wsrelay/wsrelay.go:160-173 | the record changes as Enter says; the connection is in its slot; an id asked for is kept, and a client without one gets one made from its address |
| HubHeap.RoomRecord.Depart | internal/wsrelay/wsrelay.go:183-191 | the record changes as Exit says, and the result tells whether it is now empty |
| HubHeap.RoomRecord.Fanout | internal/wsrelay/wsrelay.go:210-228 | every target's connection gets the frame appended, or not if its write fails; no other does |
| HubHeap.Hub.LocateRoom | internal/wsrelay/wsrelay.go:155-159 | finds the bastion's room or makes a new one, as Locate says |
| HubHeap.Hub.JoinRoom | internal/wsrelay/wsrelay.go:152-174 | the heap hub changes as the value function JoinRoom says, the bastion's room is returned and holds the connection in its slot, under the very id asked for if there is one |
| HubHeap.Hub.SweepRoom | internal/wsrelay/wsrelay.go:192-204 | the map changes as Sweep says: the room goes if it is still current and still empty |
| HubHeap.Hub.LeaveRoom | internal/wsrelay/wsrelay.go:176-205 | run alone, the three sections do to the heap what LeaveAlone says |
| HubHeap.LeaveAloneIsFlat | internal/wsrelay/wsrelay.go:176-205 | run alone, the three sections are one leave of the flat directory |
| HubHeap.Hub.Stats | internal/wsrelay/wsrelay.go:231-245 | run alone, the counts are the map size, the number of bastions whose room has a daemon and the number of pairs of bastion and id with a client filed, which are the totals of the view |
| OfferPromises.AnswersNeverCross | cmd/chepherd-relay/main.go:389-423 | answers accepted under a client's id are addressed to it, the call returns the first of them if any, and at most two are ever accepted, one of them stranded |
| OfferPromises.StrandedAnswer | cmd/chepherd-relay/main.go:608-620 | a schedule in which the second answer is accepted after the client's entry was deleted |
| OfferPromises.RefusedOnlyWhenDone | cmd/chepherd-relay/main.go:608-614 | an answer to a polled offer finds no entry if and only if that client's call has finished |
| OfferPromises.RefusedOnlyWhenFull | cmd/chepherd-relay/main.go:615-620 | an answer that found its entry is refused if and only if the last accepted answer is still in the channel |
| OfferPromises.OffersConserved | cmd/chepherd-relay/main.go:402-447 | for each bastion the offers accepted are those polled followed by the queue, which holds at most 16, and no offer occurs twice |
| OfferPromises.OfferGetsIn | cmd/chepherd-relay/main.go:402-418 | a waiting offer gets in if and only if fewer than 16 wait for its bastion |
| OfferPromises.OutcomeExactly | cmd/chepherd-relay/main.go:402-418 | a call ends as cancelled, timed out or refused a place in the queue if and only if that is what happened to it |
| OfferPromises.PolledOnce | cmd/chepherd-relay/main.go:441-443 | each offer that left a queue was returned by exactly one poll |
| OfferPromises.PostedStays | cmd/chepherd-relay/main.go:402-404 | what waits for the bastion is what the client posted with the peer replaced by its id, for ever |
| OfferPromises.OfferedExactly | cmd/chepherd-relay/main.go:473-489 | a client's offer has entered its bastion's queue exactly when its call is past the send |
| OfferPromises.QueuesStay | cmd/chepherd-relay/main.go:394-400 | a queue captured under the mutex is the bastion's current queue whenever it is used |
| OfferPromises.PendingExactly | cmd/chepherd-relay/main.go:391-423 | pendingAnswers holds exactly the ids not yet cleaned up and those whose send timed out with 503 |
| Offers.AnswerAlone | cmd/chepherd-relay/main.go:608-620 | the two steps of an answer, run together, are AnswerNow |
| OfferPromises.RepeatedIdTakesOver | cmd/chepherd-relay/main.go:389-393 | registering a call under any id: some client loses its entry if and only if the id is on file; some client's answers are offered to the new call if and only if the id was ever given out; the new call can be cut off if and only if the earlier call with the id has not finished |
| OfferPromises.RepeatedIdCutsOff | cmd/chepherd-relay/main.go:420-422 | some continuation leaves the new call waiting without its entry if and only if an earlier call with its id has not finished |
| OfferPromises.RepeatedIdHits | cmd/chepherd-relay/main.go:389-393 | for each earlier client: its answers are misdirected if and only if the id is its own, and its entry, if still there, leads to its channel if and only if it is not |
| OfferPromises.RepeatedIdCrosses | cmd/chepherd-relay/main.go:608-620 | an answer to an earlier client lands in the new call's channel if and only if that call was given the client's id |
| OfferPromises.CrossedAnswer | cmd/chepherd-relay/main.go:420-422 | a schedule after which no id is on file and a repeated one still makes an answer cross |
| Candidates.CandidatesConserved | cmd/chepherd-relay/main.go:529-575 | for each peer the candidates acknowledged are those received by polls, in order, followed by the queue of at most 32 |
| Candidates.CandidateGetsIn | cmd/chepherd-relay/main.go:532-537 | a waiting candidate gets in if and only if fewer than 32 wait for its peer |
| Candidates.AckedExactly | cmd/chepherd-relay/main.go:532-537 | a post has put its candidate in its peer's queue, once, if and only if it was answered 204 |
| Candidates.PollShowsWhatItTook | cmd/chepherd-relay/main.go:554-575 | a poll's output is all it received, in order, from its own peer's queue and no other |
| Candidates.NothingLost | cmd/chepherd-relay/main.go:567-570 | a poll that timed out or was cancelled has removed nothing |
| Candidates.GaveUpExactly | cmd/chepherd-relay/main.go:567-570 | a poll ends without a reply if and only if it was cancelled before its first candidate, and with an empty list if and only if it timed out |
| Candidates.DrainEnds | cmd/chepherd-relay/main.go:554-566 | with no post to its peer getting in, whoever else polls, a drain loop takes at most one turn for each candidate queued at its start and one to reply, and adds to its output only such candidates, in order; the queue is what is left of them |
| Candidates.DrainGoesOn | cmd/chepherd-relay/main.go:558-566 | until it has replied a drain loop can take its next turn |
| Candidates.DrainTakesAll | cmd/chepherd-relay/main.go:558-566 | with nobody interleaved the drain ends with the queue empty and replies with all of it in order |
| RelayHeap.Channel.TrySend | cmd/chepherd-relay/main.go:615-620 | a send succeeds exactly if there is room, and then appends |
| RelayHeap.Channel.TryReceive | cmd/chepherd-relay/main.go:561-564 | a receive takes the oldest element if there is one |
| RelayHeap.Channel.Drain | cmd/chepherd-relay/main.go:554-566 | the receive loop returns all that was buffered, in order, and leaves nothing |
| RelayHeap.Relay.OfferQueue | cmd/chepherd-relay/main.go:433-439 | the maps and channels change as OfferQueue says and the queue returned is the bastion's |
| RelayHeap.Relay.Register | cmd/chepherd-relay/main.go:391-400 | a new wait channel is filed under the id, then the queue found or made |
| RelayHeap.Relay.Cleanup | cmd/chepherd-relay/main.go:420-422 | the id is forgotten and nothing else changes |
| RelayHeap.Relay.Answer | cmd/chepherd-relay/main.go:608-620 | run alone, the answer is accepted or refused as AnswerNow says, and no other channel changes |
| RelayHeap.Relay.CandidateQueue | cmd/chepherd-relay/main.go:580-590 | finds the peer's queue or makes a new one |
| RelayHeap.Relay.PollCandidates | cmd/chepherd-relay/main.go:544-576 | run alone, returns all that was queued for the peer in order, and touches no other queue |
| Ledger.Get | internal/registry/registry.go:129-139 | the record is the one asked for, with its token blanked |
| Ledger.VerifyDaemonToken | internal/registry/registry.go:142-155 | the record shown has its token blanked |
| Ledger.HistoryAgrees | internal/registry/registry.go:77-126 | rows, owners and tokens in force are those the history of calls determines |
| Ledger.VerifiesExactly | internal/registry/registry.go:77-155 | a token verifies to a bastion exactly when the latest owner-accepted attempt for it minted that token |
| Ledger.RegisterAnswers | internal/registry/registry.go:77-114 | an attempt is answered a token if and only if it is the owner's and mints, and that token, the one minted, then verifies to the bastion's record; each refusal has its reason |
| Ledger.RegisteredRecord | internal/registry/registry.go:84-113 | an accepted attempt puts the request on record under its owner, keeps an old creation time, and changes no other record |
| Ledger.OwnerForever | internal/registry/registry.go:84-101 | owner and creation time of a bastion never change |
| Ledger.FailureChanges | internal/registry/registry.go:78-106 | a failed attempt changes no record, and no token but the bastion's own, which an owner's attempt whose mint fails revokes |
| Ledger.MapsInBijection | internal/registry/registry.go:84-113 | every token in force leads to a row that carries it; every row's token is in force if and only if no latest attempt failed to mint |
| Ledger.TouchChanges | internal/registry/registry.go:117-126 | a touch is refused exactly for unknown bastions, and changes one record's last-seen time and nothing else, by id as by token |
| Ledger.GetExactly | internal/registry/registry.go:129-139 | a record is shown if and only if the bastion was ever registered, under its owner |
| Ledger.OwnedExactly | internal/registry/registry.go:158-170 | the bastions listed for a user are those that user registered first |
| Ledger.TouchSeenByToken | internal/registry/registry.go:117-155 | a touch by id shows in the record its token verifies to |
| Ledger.ListsPartition | internal/registry/registry.go:158-170 | the lists of distinct users covering all owners are disjoint and add up to the ledger |
| LedgerHeap.Bastion.Rewrite | internal/registry/registry.go:94-98 | the record takes the request and the token, keeping owner and creation time |
| LedgerHeap.Memory.Revoke | internal/registry/registry.go:89 | the record's token leads nowhere, and nothing else changes |
| LedgerHeap.Memory.Reissue | internal/registry/registry.go:94-99 | the record is rewritten in place, owner and creation time kept, and the new token leads to it |
| LedgerHeap.Memory.Enrol | internal/registry/registry.go:107-112 | one new record, reached from both maps |
| LedgerHeap.Memory.Register | internal/registry/registry.go:77-114 | the aliasing invariant is kept and the heap ledger changes as Register says, failed mints included; existing records stay the same objects |
| LedgerHeap.Memory.Touch | internal/registry/registry.go:117-126 | the last-seen time changes in the shared record |
| LedgerHeap.Memory.Get | internal/registry/registry.go:129-139 | the answer is Get of the ledger it stands for |
| LedgerHeap.Memory.VerifyDaemonToken | internal/registry/registry.go:142-155 | the answer is VerifyDaemonToken of the ledger it stands for |
| LedgerHeap.Memory.ListByUser | internal/registry/registry.go:158-170 | each bastion of the user once, with its token blanked, and no other |
| Text.TrimSpaceCuts | internal/wsrelay/wsrelay.go:266 | trimming removes white space only, and only at the ends |
| Subprotocol.ParseSecWSProtocol | internal/wsrelay/wsrelay.go:262-272 | the loops compute Offered |
| Subprotocol.OfferedAppend | internal/wsrelay/wsrelay.go:262-272 | parsing is a homomorphism from lists of headers to lists of offers |
| Subprotocol.HeadersJoin | internal/wsrelay/wsrelay.go:262-272 | several headers parse as one header with their values joined by commas (section 11.3.4 of RFC 6455) |
| Subprotocol.OfferRoundTrip | internal/wsrelay/wsrelay.go:262-272 | offers joined into one header are recovered, in order |
| Subprotocol.SpacedRoundTrip | internal/wsrelay/wsrelay.go:262-272 | so are offers with blanks and tabs around them (section 5.6.3 of RFC 9110) |
| Subprotocol.OfferedListable | internal/wsrelay/wsrelay.go:264-267 | whatever the headers, an offer is non-blank, trimmed and free of commas |
| Subprotocol.CredentialsRoundTrip | internal/wsrelay/wsrelay.go:87-93 | a dotless bastion id and any token, dots included, are read back from a browser's entry |
| Subprotocol.BrowserExactly | internal/wsrelay/wsrelay.go:86-93 | an entry is a browser's, with this bastion id and token, if and only if it is the prefix, the id, which has no dot, a dot and the token |
| Subprotocol.Scan | internal/wsrelay/wsrelay.go:85-108 | the query wins over the entries; the first non-blank bastion id and the last browser entry are taken, the plain name only without one |
| Subprotocol.Negotiate | internal/wsrelay/wsrelay.go:77-123 | a request is refused for its role, or for its bastion, if and only if query and entries leave that open; an upgrade has the query's bastion id or the first an entry names, and echoes the last browser entry or else the plain name |
| TokenCodec.DecodeRoundTrip | internal/auth/auth.go:317-326 | decoding undoes unpadded base64url encoding, for all bytes (section 5 of RFC 4648) |
| TokenCodec.DecodeValue | internal/auth/auth.go:317-326 | the bytes a string over the alphabet of RFC 4648 stands for: their number is that of its characters' positions in base 64, less the unused low bits |
| TokenCodec.UnpaddedExactly | internal/auth/auth.go:317-326 | the alphabet strings of the other statements are those over that list of 64 characters |
| TokenCodec.SkippedExactly | internal/auth/auth.go:325 | of a string carriage returns and line feeds are skipped, and the rest is left in order |
| TokenCodec.DecodesExactly | internal/auth/auth.go:317-326 | any string decodes to given bytes if and only if, its padding added and its line ends skipped, it is an alphabet string that decodes to them followed by the padding that one needs |
| TokenCodec.DecodesAlike | internal/auth/auth.go:317-326 | an alphabet string with line ends in it or "=" after it decodes as it does bare if and only if the padding added for its whole length completes what is there, or it does not decode bare |
| TokenCodec.LineEndRefused | internal/auth/auth.go:317-326 | a string that decodes and, with a line end after it, does not |
| TokenCodec.AlphabetDecodes | internal/auth/auth.go:317-326 | of the strings over the alphabet exactly those whose length is not 1 modulo 4 decode |
| TokenCodec.EncodeUndoesDecode | internal/auth/auth.go:317-326 | a string over the alphabet is the encoding of what it decodes to exactly if its unused low bits are zero |
| TokenCodec.CompactRoundTrip | internal/auth/auth.go:139-181 | header, payload, signature and the exact signed text are recovered from any serialized token (section 7.1 of RFC 7515) |
| TokenCodec.ParsesExactly | internal/auth/auth.go:136-181 | a token yields given parts if and only if it is three dotless segments that decode to them |
| TokenCodec.RefusedExactly | internal/auth/auth.go:136-181 | why a token is refused: empty, not three segments, or the first of header, signature and payload that does not decode |
| TokenCodec.ShiftOr | internal/auth/auth.go:266 | shifting left by eight and or-ing a byte in appends a base-256 digit, modulo the word |
| TokenCodec.ExponentOf | internal/auth/auth.go:264-271 | the exponent is the big-endian value of its bytes if and only if that is below 2^63 (section 6.3.1.2 of RFC 7518), and always the 64-bit integer congruent to it |
| TokenCodec.Exponent | internal/auth/auth.go:264-267 | the loop over 64-bit words computes ExponentOf |
| TokenCodec.LeadingZeros | internal/auth/auth.go:264-267 | leading zero bytes do not change the value |
| KeyCache.WinnersAssemble | internal/auth/auth.go:251-272 | the last usable entry of each key id is in the key set |
| KeyCache.AssembledWins | internal/auth/auth.go:251-272 | and every key in the set is such an entry's |
| KeyCache.KeyExactly | internal/auth/auth.go:254-271 | an entry gives a key if and only if it is an RSA entry whose fields decode, and then the key they spell |
| KeyCache.DocumentKeys | internal/auth/auth.go:251-272 | a document's key for an id is that of the last of its entries for the id that gives one |
| KeyCache.KeyRoundTrip | internal/auth/auth.go:253-271 | a key published by its bytes is read back, its exponent being below 2^63 |
| KeyCache.ReadKeys | internal/auth/auth.go:251-272 | the loop computes the key set of the document |
| KeyCache.ReadKey | internal/auth/auth.go:253-271 | one turn of it: entries of another type or with bad base64 are skipped |
| KeyCache.Verifier.Refresh | internal/auth/auth.go:222-278 | both fields change together, or neither when the fetch fails |
| KeyCache.Verifier.KeyFor | internal/auth/auth.go:200-219 | run alone: the cache answers if and only if its store is younger than the interval and holds the id; else the fetched set is stored and answers, or does not |
| KeyCache.FieldsFromOneStore | internal/auth/auth.go:273-276 | under concurrent refreshes the keys and their time are always from one store, the latest |
| KeyCache.CheckExactly | internal/auth/auth.go:201-208 | a check is answered from the cache if and only if the latest store is younger than the interval and holds the id |
| KeyCache.ReadBackExactly | internal/auth/auth.go:213-218 | after its store a call is answered from the store latest at that moment, or not at all |
| KeyCache.HitIsFresh | internal/auth/auth.go:201-208 | a cached answer is from the store then latest, younger than the refresh interval |
| KeyCache.MissUsesOwnOrLater | internal/auth/auth.go:210-218 | a call that refreshed answers from its one store or a later one, and its own store is what it was served |
| KeyCache.FailureStoresNothing | internal/auth/auth.go:226-250 | a call whose fetch failed, or that hit, never stored anything |
| KeyCache.SavesOlderExactly | internal/auth/auth.go:273-276 | a store puts in place a document older than one held before if and only if some call served after the storing one has stored already |
| KeyCache.NeverBackExactly | internal/auth/auth.go:222-278 | over a whole run documents are stored in the order they were served if and only if no store is overtaken in this way |
| KeyCache.ReadsOlderExactly | internal/auth/auth.go:210-218 | a miss answers from a document older than its own if and only if the store it read was made, after its own, for a call served before it |
| KeyCache.OlderDocumentLater | internal/auth/auth.go:273-276 | a schedule in which the document served first is stored last and stays |

## Left out

- HTTP and JSON: request parsing, status codes and bodies, `main`, health, the stats handler,
  the authentication middleware. SDP, ICE and candidates are opaque values.
- Checks on empty fields of requests (`bastion_id`, `peer`, `candidate`): one branch each.
- The replay buffer for reconnecting clients (wsrelay.go:15-19): it is not in the code.
- The WebSocket library: a read yields a frame, a write may fail; its choice among offered
  subprotocols is not modelled.
- Waits of 1, 2, 25 and 60 seconds: a timeout may happen at any moment the call is blocked.
- `genClientID` and `mintToken`: assumed to return what they have not returned before, the
  mint possibly an error. `OfferPromises.RepeatedIdTakesOver` says what a repeated client id does.
- Addresses of connections are taken never to be reused; `HubMachine` joins under the
  effective id, which `HubHeap.RoomRecord.Register` computes.
- What happens between taking and releasing a room lock is one step; `HubLocks` shows the
  same for the hub lock. A read lock may be taken while a writer waits in `LocksRefine`, and
  may not in `NobodyStuck` and `NoDeadlock`.
- The heap classes run one method at a time; interleavings are covered by the transition
  systems, which work on values.
- RSA, SHA-256 and the claim checks of `Verify` after decoding; the modulus is kept as a number.
- The clock of the key cache does not go back; the zero time is modelled as no store yet. Of
  two key documents the one served later is taken to be the newer.
- Characters of a header or token are code points; bytes that are not UTF-8 are not modelled.
- Push notifications, telemetry and the Postgres registry announced in registry.go.
