# Terminal agent and browser client: a verified model

This project models the parts of the terminal system where the agent on the host and the client in the browser have
to agree about state: the wire contract 0.2, the shells' bounded output history, and everything that may happen to a
connection while output is on its way. `dafny verify dfyconfig.toml` checks it all.

## The parts

- **The contract machines.** `AgentMachine` and `BrowserMachine` are the two implementations of the protocol machine,
  field by field, each method proved equal to a function on the fields. `Simulation` shows for every frame and every run
  when they agree, `WholeRuns`, `OneSession` and `BrowserTiling` what every accepted run looks like, `Leniency` where
  one accepts what the other refuses.
- **The output history.** `OutputLog` and `HistoryFrames` say what the two interlinked lists stand for: one log, of
  which each session sees its own entries. `SessionRegistry` keeps the lists, counters and maps on the heap and proves
  each critical section equal to a function of `RegistrySteps`.
- **The running agent.** `Delivery` is the agent as a transition system whose steps are those same functions, the sends
  outside the lock and the events around them, for any number of shells, connections and interleavings.
  `DeliveryInvariant` proves what every step keeps, `DeliveryRuns` what therefore holds in every reachable state.
  `Claims` says who gets a shell, `GoesLive` that replays end well, and `Service` what the steps are for: shells open,
  output arrives, and a shell left behind comes back to its user with everything retained; `LastFrame` bounds what a
  connection still gets after it lost its shell. `ReplayAccepted` plays what the agent sends to the browser machine;
  `RolledBackReplay` does so after a failed send.
- **Closing.** `CloseTickets`, `CloseProgress` and `RevocationRace` follow racing closers and who waits for whom;
  `CredentialFence` follows revocations and the endpoint's close through its list of connections.
- **The browser's send path.** `SendPath` is the lock, the byte reservations and the rollback, `SendProgress` that every
  frame gets its turn and does what it is for; `Utf8`, `Paste`, `PasteRuns` and `PasteProgress` are the paste splitter
  and its interleaving with the keyboard.
- **Codecs and bounded loops.** `Base64Url`, `SessionId`, `RateLimiter`, `Recovery` and `Export`.

`Protocol` holds the frames both machines read, `MachineSteps` one accepted frame of either, `Tiling` pieces of a byte
stream at their offsets. In `Delivery`, `produced` is what a shell has written so far; it exists only for the proofs.

## What the proofs turned up

These are facts about the code as it stands, each with a lemma. Where a promise fails, the lemma beside it says exactly
when it holds.

- `RevokeCredential` fails the credential's connections between fencing its sessions and finishing its tickets. If such
  a connection is just being torn down for destruction and had already collected one of those sessions, the teardown
  waits for the revocation's ticket and the revocation for the teardown's Once. With any number of revocations and
  teardowns, all get through exactly when no such session is shared (`RevocationRace.RevocationGetsThrough`).
  The registry's own batches cannot do this (`CloseProgress.OrderlyClosersFinish`).
- A send that the agent's own machine refuses has used up its sequence number, so the browser refuses the next frame
  (`Leniency.RefusedSendLeavesGap`). Output of a shell that speaks before `session_opened` is such a send, so the
  browser accepts `session_opened` and all after it exactly when there was none (`ReplayAccepted.OpenedConnectionAccepted`).
- The agent checks no offset of what it sends, since its payloads go by value (`Simulation.OutgoingOutputUnchecked`).
  That its output is right anyway rests on the registry (`ReplayAccepted.ReopenedConnectionAccepted`).
- A browser machine rolled back after a failed send believes it knows the output offset. The rollback the adapter
  survives is that of a `pairing_request`, after which the code can be sent again; a send that fails later releases the
  connection. A session reopened on the connection that paired after all then fails its replay, unless the shell had
  produced nothing (`RolledBackReplay.ReopenAfterRollback`).
- The browser machine alone would accept a second `history_begin`. What it accepted tiles the range up to its output
  offset exactly when every answered `history_begin` starts where the history so far ends
  (`BrowserTiling.BrowserTilesExactly`; `Leniency.BrowserMayRepeatHistory` is a run where one does not). It also accepts
  another session than the one asked for (`Leniency.ReopenedElsewhere`). Which of its runs the agent machine refuses,
  these and others, is `Simulation.RunExact`.
- The rate limiter forgets attempts under way when it renews a window, and their failures then count on top: for every
  limit there is such a run (`RateLimiter.StaleFailuresExceed`), and from an open window the limit can still be exceeded
  exactly when an attempt was forgotten (`RateLimiter.ExceedsExactly`).
- The export client takes an empty cursor for none (`Export.EmptyCursorRepeats`); it asks twice exactly when the server
  names one and is followed up (`Export.NeverAsksTwice`). The server only names UUIDs.

## Model

| member | source | states |
|---|---|---|
| AgentMachine.Machine.constructor | apps/windows-agent/internal/protocol/machine.go:18-20 | a new machine has the given states and numbers, no name, no session, nothing exhausted |
| AgentMachine.Machine.SetOutputOffset | apps/windows-agent/internal/protocol/machine.go:30 | only the output offset changes |
| AgentMachine.Machine.Apply | apps/windows-agent/internal/protocol/machine.go:33-84 | the whole new machine and the outcome for every frame, accepted or not, payload by pointer or by value; the number is taken before validation |
| AgentMachine.Machine.ConsumeSequence | apps/windows-agent/internal/protocol/machine.go:55-59 | the last number is taken once and exhausts its direction |
| AgentMachine.Machine.ApplySessionSemantics | apps/windows-agent/internal/protocol/machine.go:86-127 | id check, then offset bookkeeping, neither for a payload passed by value |
| AgentMachine.Machine.SeeSessionId | apps/windows-agent/internal/protocol/machine.go:87-97 | first id sticks; another id is OUTPUT_OFFSET_INVALID on output and history, SCHEMA_INVALID elsewhere |
| AgentMachine.Machine.Track | apps/windows-agent/internal/protocol/machine.go:98-126 | history and output offsets, with the 64-bit wrap of historyEnd-historyCursor |
| BrowserMachine.ProtocolContractMachine.constructor | apps/web/protocol/contractMachine.ts:65-77 | a fresh machine does not know the output offset |
| BrowserMachine.ProtocolContractMachine.FromSnapshot | apps/web/protocol/contractMachine.ts:65-77 | a machine built from a snapshot always knows it |
| BrowserMachine.ProtocolContractMachine.Apply | apps/web/protocol/contractMachine.ts:83-125 | the whole new machine and the outcome for every frame; the number is taken only on acceptance, data may stay changed when the last number is refused |
| BrowserMachine.ProtocolContractMachine.Envelope | apps/web/protocol/contractMachine.ts:93-112 | name, version and sequence checks in that order |
| BrowserMachine.ProtocolContractMachine.ApplySessionData | apps/web/protocol/contractMachine.ts:197-284 | session id, history cursor and output offset |
| BrowserMachine.ProtocolContractMachine.Advance | apps/web/protocol/contractMachine.ts:117-123 | one number and the two states of the found row |
| MachineSteps.AgentStep | apps/windows-agent/internal/protocol/machine.go:33-84 | an accepted frame took exactly the next number, passed the bookkeeping and followed a row of the contract |
| MachineSteps.BrowserStepFollowsRow | apps/web/protocol/contractMachine.ts:127-156 | an accepted frame followed a row of the contract |
| MachineSteps.BrowserAccepts | apps/web/protocol/contractMachine.ts:83-125 | right name and number, a row and sound data are enough, and determine the next state |
| Simulation.LookupsAgree | apps/web/protocol/contractMachine.ts:22-59 | the browser finds a row exactly where the agent makes a transition, with the same target |
| Simulation.RowExact | apps/web/protocol/contractMachine.ts:197-284 | from related states each row is accepted by the agent exactly when by the browser and Strict, and keeps the states related |
| Simulation.StepExact | apps/windows-agent/internal/protocol/machine.go:33-127 | one frame from related states: the agent accepts if and only if the browser does and the frame is Strict; then the states stay related |
| Simulation.RunExact | apps/windows-agent/internal/protocol/machine.go:33-127 | of the runs the browser machine accepts, the agent machine accepts exactly those in which every frame is Strict when it comes |
| Simulation.Simulates | apps/windows-agent/internal/protocol/machine.go:33-127 | every run the agent machine accepts from NEW is accepted frame by frame by the browser machine, with equal states, numbers, history cursor and known output offset |
| Simulation.OutgoingOutputUnchecked | apps/windows-agent/internal/endpoint/endpoint.go:520-526 | the agent passes its own payloads by value, so its machine lets every output offset pass; the browser accepts exactly the right one |
| WholeRuns.AgentRunFollows | apps/windows-agent/internal/protocol/machine.go:156-205 | accepted runs of the agent machine walk the contract tables |
| WholeRuns.BrowserRunFollows | apps/web/protocol/contractMachine.ts:22-59 | accepted runs of the browser machine walk the contract tables |
| WholeRuns.HandshakeOrder | apps/windows-agent/internal/protocol/machine.go:162-172 | READY only through hello, hello_ack, any number of pairing rounds, challenge, response, result; afterwards only session messages and heartbeats |
| WholeRuns.RankClimbs | apps/windows-agent/internal/protocol/machine.go:186-202 | the session state stays or climbs in rank; only a claim leaves NONE |
| WholeRuns.ClaimsOnce | apps/windows-agent/internal/protocol/machine.go:187-189 | an accepted run claims a session at most once, and exactly when its session state has left NONE |
| WholeRuns.AgentSequences | apps/windows-agent/internal/protocol/machine.go:46-59 | accepted numbers per direction are 0..k-1, up to and including 2^53-1 once, then exhausted for good |
| WholeRuns.BrowserSequences | apps/web/protocol/contractMachine.ts:287-292 | accepted numbers per direction are 0..k-1 and never reach 2^53-1 |
| OneSession.BrowserSpeaksOfOne | apps/web/protocol/contractMachine.ts:93-106 | every run the browser machine accepts carries one name, offers the version, and speaks of one session, that of the agent's answer |
| OneSession.AgentSpeaksOfOne | apps/windows-agent/internal/protocol/machine.go:86-97 | every run of decoded frames the agent machine accepts carries one name and names one session, the one asked for included |
| OneSession.OthersRefused | apps/web/protocol/contractMachine.ts:197-219 | another name, a version not offered and another session are refused with their codes |
| OneSession.NoRowRefused | apps/web/protocol/contractMachine.ts:127-156 | in every state both machines refuse a message without a row alike: as DIRECTION_VIOLATION exactly if the other side might have said it, else as INVALID_STATE |
| WholeRuns.AgentPiecesTile | apps/windows-agent/internal/protocol/machine.go:98-125 | accepted history and output payloads tile one range of offsets, up to nextOutput once open |
| BrowserTiling.BrowserPiecesTile | apps/web/protocol/contractMachine.ts:197-284 | over every run the browser machine accepts: the pieces tile up to the cursor or the output offset exactly when each history_begin that a chunk or history_end answers starts where the pieces so far end |
| BrowserTiling.BrowserTilesExactly | apps/web/protocol/contractMachine.ts:220-239 | once the session has opened: accepted history and output tile one range up to nextOutput if and only if every answered history_begin continues the pieces before it |
| BrowserTiling.OneBeginTiles | apps/web/protocol/contractMachine.ts:220-239 | with at most one history_begin they always tile |
| Leniency.BrowserMayRepeatHistory | apps/web/protocol/contractMachine.ts:220-239 | a run with two history_begin that the browser machine accepts and whose history does not tile: the condition of BrowserTilesExactly can fail, and the agent machine refuses that run |
| Leniency.ReopenedElsewhere | apps/web/protocol/contractMachine.ts:197-219 | a session_reopened for another id passes the browser machine and not the agent machine |
| Leniency.ByValueExact | apps/windows-agent/internal/endpoint/endpoint.go:524-527 | a frame the agent sends passes its machine exactly when it has a row |
| Leniency.RefusedSendLeavesGap | apps/windows-agent/internal/endpoint/endpoint.go:512-527 | a send refused by the tables has used up its number: the next frame meets SEQUENCE_GAP at the browser |
| Leniency.EarlyOutputRefused | apps/windows-agent/internal/endpoint/session.go:533-539 | output sent before session_opened is such a send |
| OutputLog.OfEvict | apps/windows-agent/internal/endpoint/session.go:580-599 | evicting from a session's oldest entry drops from the front of that session's list and of no other |
| OutputLog.EvictSizes | apps/windows-agent/internal/endpoint/session.go:597-598 | both byte counters fall by exactly the bytes evicted |
| OutputLog.TrimSessionDrops | apps/windows-agent/internal/endpoint/session.go:571-573 | the session loop drops exactly the oldest excess bytes of that session |
| OutputLog.TrimAllDrops | apps/windows-agent/internal/endpoint/session.go:574-576 | the agent loop drops exactly the oldest excess bytes, whosever they are |
| OutputLog.DropContent | apps/windows-agent/internal/endpoint/session.go:580-599 | dropping k bytes leaves the content without its first k bytes |
| OutputLog.AppendDrops | apps/windows-agent/internal/endpoint/session.go:560-578 | one append leaves every session its entries, plus the new one, less a share of the oldest bytes |
| OutputLog.AppendHolds | apps/windows-agent/internal/endpoint/session.go:560-578 | one append keeps every session's retained bytes an exact suffix of what it produced, under eviction across sessions |
| OutputLog.AppendWithinLimits | apps/windows-agent/internal/endpoint/session.go:571-576 | after an append the session holds at most 262,144 and the agent at most 16,777,216 bytes |
| OutputLog.AppendEvictsOnlyExcess | apps/windows-agent/internal/endpoint/session.go:571-576 | nothing is evicted that both limits leave room for |
| OutputLog.WithoutKeeps | apps/windows-agent/internal/endpoint/session.go:601-606 | removing a session's history leaves every other session's |
| HistoryFrames.FramesTile | apps/windows-agent/internal/endpoint/session.go:278-281 | a snapshot's frames tile the retained range |
| HistoryFrames.EntriesShow | apps/windows-agent/internal/endpoint/session.go:272-283 | contiguous entries show what was produced at their offsets |
| HistoryFrames.RangeExact | apps/windows-agent/internal/endpoint/session.go:355-377 | on a contiguous history a range is found if and only if it is empty or its start is still retained |
| HistoryFrames.RangeTiles | apps/windows-agent/internal/endpoint/session.go:355-377 | the found frames are non-empty and tile the range |
| HistoryFrames.RangeShows | apps/windows-agent/internal/endpoint/session.go:367-374 | the found frames show what was produced, in pieces no larger than an entry |
| SessionRegistry.Registry.constructor | apps/windows-agent/internal/endpoint/session.go:16-27 | the empty registry |
| SessionRegistry.Registry.EvictEntryBytes | apps/windows-agent/internal/endpoint/session.go:580-599 | both linked lists and both counters follow the log with those bytes evicted |
| SessionRegistry.Registry.AppendHistory | apps/windows-agent/internal/endpoint/session.go:560-578 | the registry with the entry appended and both limits enforced, or untouched when closed, empty or out of offsets |
| SessionRegistry.Registry.EvictSession | apps/windows-agent/internal/endpoint/session.go:571-573 | the session loop ends with the trimmed log |
| SessionRegistry.Registry.EvictAgent | apps/windows-agent/internal/endpoint/session.go:574-576 | the agent loop ends with the trimmed log |
| SessionRegistry.Registry.RemoveHistory | apps/windows-agent/internal/endpoint/session.go:601-606 | the loop ends with the log without that session |
| SessionRegistry.Registry.SnapshotHistory | apps/windows-agent/internal/endpoint/session.go:272-283 | start, end, truncation and one frame an entry |
| SessionRegistry.Registry.HistoryRange | apps/windows-agent/internal/endpoint/session.go:355-377 | the loop finds exactly the frames of the range, or fails |
| SessionRegistry.Registry.Owned | apps/windows-agent/internal/endpoint/session.go:505-511 | the session if it is attached to this connection, not replaying and open |
| SessionRegistry.Registry.Detach | apps/windows-agent/internal/endpoint/session.go:238-248 | owner cleared and detached set, or refused |
| SessionRegistry.Registry.BeginReopen | apps/windows-agent/internal/endpoint/session.go:250-263 | claim and snapshot in one section, or refused |
| SessionRegistry.Registry.Reopenable | apps/windows-agent/internal/endpoint/session.go:252-258 | exactly the conditions for a claim |
| SessionRegistry.Registry.IsHolding | apps/windows-agent/internal/endpoint/session.go:346-348 | the replay's ownership check |
| SessionRegistry.Registry.ReleaseReopen | apps/windows-agent/internal/endpoint/session.go:379-387 | a replay lets go only what it still holds |
| SessionRegistry.Registry.CatchUpTurn | apps/windows-agent/internal/endpoint/session.go:308-334 | one turn of the catch-up loop: lost, evicted, done, more or broken |
| SessionRegistry.Registry.DetachAfterTransportSendFailure | apps/windows-agent/internal/endpoint/session.go:550-558 | detached only if that connection still owns it |
| SessionRegistry.Registry.FenceManaged | apps/windows-agent/internal/endpoint/session.go:619-630 | closed, ownerless, history gone; the whole ticket: its reason and notify as given, first exactly the first time, and then with the owner the session had |
| SessionRegistry.Registry.FenceAll | apps/windows-agent/internal/endpoint/session.go:402-404 | a batch of fences in one section, and its tickets in order |
| SessionRegistry.TicketsExact | apps/windows-agent/internal/endpoint/session.go:619-630 | of a batch, exactly the first ticket for a session still open is a first one, and it alone carries the owner the session had |
| SessionRegistry.Registry.ActiveSessions | apps/windows-agent/internal/endpoint/session.go:416-424 | exactly the active sessions of the credential, or all |
| SessionRegistry.Registry.FenceCredentialRevocation | apps/windows-agent/internal/endpoint/session.go:394-407 | the credential is marked and all its active sessions fenced in one section, with their tickets |
| SessionRegistry.Registry.FenceShutdown | apps/windows-agent/internal/endpoint/session.go:456-467 | admission is closed and every active session fenced in one section, with their tickets; the pending opens are handed on |
| SessionRegistry.CancelOpens | apps/windows-agent/internal/endpoint/session.go:468-470 | every pending open is cancelled |
| SessionRegistry.Registry.DetachOwned | apps/windows-agent/internal/endpoint/session.go:484-495 | every session the gone connection owned is detached, no other touched |
| SessionRegistry.Registry.FinishClose | apps/windows-agent/internal/endpoint/session.go:653-658 | closeErr stored and the session out of the table, in one section |
| SessionRegistry.Registry.Unlist | apps/windows-agent/internal/endpoint/session.go:655-657 | the closed session leaves the table if it is still listed |
| SessionRegistry.Registry.AdmissionError | apps/windows-agent/internal/endpoint/session.go:196-209 | refused when shutting down, revoked or done |
| SessionRegistry.Registry.InUse | apps/windows-agent/internal/endpoint/session.go:181-191 | an id is in use when active or reserved |
| SessionRegistry.Registry.ReserveSessionId | apps/windows-agent/internal/endpoint/session.go:163-179 | the first of at most eight generated ids that is well formed and free; none exactly when a generator error or eight unusable ids come first |
| SessionRegistry.Registry.AddPending | apps/windows-agent/internal/endpoint/session.go:97-102 | the id is reserved |
| SessionRegistry.Registry.RemovePending | apps/windows-agent/internal/endpoint/session.go:211-215 | the reservation is gone |
| SessionRegistry.Registry.FinishOpen | apps/windows-agent/internal/endpoint/session.go:115-131 | registered only if still admissible and free, else its terminal is closed once and it is not registered |
| DeliveryInvariant.ConnectKeeps | apps/windows-agent/internal/endpoint/endpoint.go:159-167 | a new connection owns nothing |
| DeliveryInvariant.MarkDoneKeeps | apps/windows-agent/internal/endpoint/endpoint.go:667-675 | done comes before the registry hears of it |
| DeliveryInvariant.DisconnectKeeps | apps/windows-agent/internal/endpoint/session.go:474-503 | a gone connection owns nothing any more |
| DeliveryInvariant.StartOpenKeeps | apps/windows-agent/internal/endpoint/session.go:84-102 | one reservation a connection, ids stay free |
| DeliveryInvariant.AbortOpenKeeps | apps/windows-agent/internal/endpoint/session.go:104-109 | a failed open leaves nothing |
| DeliveryInvariant.FinishOpenKeeps | apps/windows-agent/internal/endpoint/session.go:115-131 | a registered shell starts attached with nothing produced |
| DeliveryInvariant.NoCollision | apps/windows-agent/internal/endpoint/session.go:125-129 | the collision branch cannot be taken |
| DeliveryInvariant.DetachByKeeps | apps/windows-agent/internal/endpoint/session.go:238-248 | detaching keeps every stream |
| DeliveryInvariant.BeginReopenKeeps | apps/windows-agent/internal/endpoint/session.go:250-263 | the script of a claim is a stream of its own |
| DeliveryInvariant.ResizeFailedKeeps | apps/windows-agent/internal/endpoint/session.go:265-268 | a claim that cannot resize sends nothing |
| DeliveryInvariant.ReplayCheckKeeps | apps/windows-agent/internal/endpoint/session.go:345-351 | the ownership check before a replay frame |
| DeliveryInvariant.ReplaySendKeeps | apps/windows-agent/internal/endpoint/session.go:285-305 | a replay frame sent, lost or sent with an error |
| DeliveryInvariant.ReplayTurnKeeps | apps/windows-agent/internal/endpoint/session.go:306-342 | catching up continues the stream, and going live leaves no gap |
| DeliveryInvariant.ReplayReleaseKeeps | apps/windows-agent/internal/endpoint/session.go:379-387 | a failed replay lets its claim go |
| DeliveryInvariant.CopyReadKeeps | apps/windows-agent/internal/endpoint/session.go:518-532 | output appended, and queued for the owner seen in the same section |
| DeliveryInvariant.CopySendKeeps | apps/windows-agent/internal/endpoint/session.go:533-538 | live output sent, lost or sent with an error |
| DeliveryInvariant.CopyDetachKeeps | apps/windows-agent/internal/endpoint/session.go:539 | after a failed send the owner seen is detached before more is read |
| DeliveryInvariant.FenceKeeps | apps/windows-agent/internal/endpoint/session.go:612-630 | any closer's fence |
| DeliveryInvariant.RevokeKeeps | apps/windows-agent/internal/endpoint/session.go:394-407 | revocation catches every active session of the credential |
| DeliveryInvariant.ShutdownKeeps | apps/windows-agent/internal/endpoint/session.go:456-467 | shutdown catches every active session |
| DeliveryInvariant.UnlistKeeps | apps/windows-agent/internal/endpoint/session.go:655-657 | a closed session leaves the table |
| DeliveryInvariant.StepKeeps | apps/windows-agent/internal/endpoint/session.go:84-664 | every step of any interleaving keeps the invariant of sessions, log, copiers, replays and connections |
| DeliveryRuns.Reachable | apps/windows-agent/internal/endpoint/session.go:84-664 | every reachable state, whatever the interleaving, satisfies the invariant |
| DeliveryRuns.RunExtends | apps/windows-agent/internal/endpoint/session.go:84-664 | nothing is taken back: wires, claims, produced output, fences and revocations only extend |
| DeliveryRuns.DeliveredIsOneSlice | apps/windows-agent/internal/endpoint/session.go:285-343 | in every reachable state what a connection was handed is one contiguous slice of what its shell produced |
| DeliveryRuns.AttachedHasEverything | apps/windows-agent/internal/endpoint/session.go:518-548 | while attached with no send under way, a connection was handed everything produced from its start on |
| DeliveryRuns.OneClaim | apps/windows-agent/internal/endpoint/session.go:84-131 | after its claim a connection never gets another session, and what it was handed only grows; that it asks only once is WholeRuns.ClaimsOnce |
| DeliveryRuns.HistoryIsSuffix | apps/windows-agent/internal/endpoint/session.go:560-606 | in every reachable state an open session retains exactly the newest bytes it produced, contiguous and within both limits |
| DeliveryRuns.FencesHold | apps/windows-agent/internal/endpoint/session.go:379-511 | in every reachable state revocation and shutdown have closed what they must, ownership flags agree, ids are unique |
| DeliveryRuns.LateShellRefused | apps/windows-agent/internal/endpoint/session.go:115-129 | a shell whose creation outlasted revocation, shutdown or its connection is closed and not registered, any other is registered; ids never collide |
| Claims.OnlyItsUser | apps/windows-agent/internal/endpoint/session.go:250-263 | in every reachable state, whoever owns a shell or was ever handed anything of it has the credential and the device it was opened with; for a claimed shell that device is known |
| Claims.ClaimExact | apps/windows-agent/internal/endpoint/session.go:250-263 | in every reachable state a claim goes through if and only if the connection may ask and the id is that of an open shell without owner of its credential and known device |
| GoesLive.TurnExact | apps/windows-agent/internal/endpoint/session.go:308-334 | a turn on a claim that holds: evicted exactly when the history no longer reaches back to the cursor, done exactly at the end, else more, whose frames tile up to the end; never broken; done, the session is live and nothing else changed |
| GoesLive.TurnInRuns | apps/windows-agent/internal/endpoint/session.go:308-334 | the same in every reachable state for a replay that has sent all it had |
| GoesLive.ReplayGoesLive | apps/windows-agent/internal/endpoint/session.go:285-343 | in every reachable state a replay whose claim holds can go live by its own steps if and only if what it needs next is retained; the connection then has everything from its start to the end |
| Service.ComesBack | apps/windows-agent/internal/endpoint/session.go:250-343 | from every reachable state with an open shell without owner, a connection of its credential and device gets it back and is handed exactly the retained bytes |
| Service.DetachExact | apps/windows-agent/internal/endpoint/session.go:238-248 | a connection detaches exactly the shell it is attached to and live on; the shell is then open and without owner |
| Service.LeftBehind | apps/windows-agent/internal/endpoint/session.go:474-503 | when the owner is gone, its live send fails or its replay fails, the shell is left open and without owner, its output unchanged |
| Service.GoneLeavesAll | apps/windows-agent/internal/endpoint/endpoint.go:667-675 | any connection can end at any time, and every shell it owned is then without owner, no other touched |
| Service.KeepsShell | apps/windows-agent/internal/endpoint/session.go:379-511 | in every reachable state an owner loses an open shell exactly by its own detaching, by one of those failures, or when the shell is closed; whatever others do, it keeps it |
| LastFrame.OneFrameAtMost | apps/windows-agent/internal/endpoint/session.go:285-351 | once a connection does not own its shell any more it never owns it again, and whatever happens it is handed at most the one frame that had passed its last check before |
| Service.OpenExact | apps/windows-agent/internal/endpoint/session.go:84-131 | an open is let in if and only if the connection may ask, the agent is not shutting down and the credential not revoked; it then gives a shell that is live from its first byte |
| Service.OutputReaches | apps/windows-agent/internal/endpoint/session.go:518-548 | what an open shell writes is kept, and while somebody is attached exactly those bytes more are handed over; reading stops exactly when the shell is closed or its offsets run out |
| Service.FailedSendSettles | apps/windows-agent/internal/endpoint/session.go:533-558 | a live send that fails: under backpressure the shell is read no more and its close goes through, otherwise exactly the owner that was sent to loses it and reading goes on |
| Service.FailedReplaySettles | apps/windows-agent/internal/endpoint/session.go:285-305 | a replay frame whose send fails ends the replay and lets the claim go; the shell is then open and without owner |
| Service.LostReplayEnds | apps/windows-agent/internal/endpoint/session.go:308-314 | a replay that finds its claim lost ends without sending, and changes nothing in the registry |
| Service.UnlistExact | apps/windows-agent/internal/endpoint/session.go:655-657 | exactly a closed shell leaves the table; every other stays |
| Service.ClosesExactly | apps/windows-agent/internal/endpoint/session.go:394-467 | in every reachable state exactly its own fence, a revocation of its credential and the shutdown close an open shell |
| ReplayAccepted.WaitingIsFresh | apps/web/protocol/contractMachine.ts:61-77 | a browser machine waiting for its session knows no offset, id or history |
| ReplayAccepted.PayloadStep | apps/web/protocol/contractMachine.ts:197-284 | the next payload of a replay is accepted unless the numbers run out |
| ReplayAccepted.ReplayRuns | apps/windows-agent/internal/endpoint/session.go:285-343 | any first part of a replay, heartbeats mixed in, is accepted if and only if no number runs out |
| ReplayAccepted.ReopenedConnectionAccepted | apps/windows-agent/internal/endpoint/session.go:285-343 | in every reachable state the browser accepts what a reopened connection was sent; it is OPEN exactly after history_end and its output offset is the end of exactly those bytes, the agent's cursor when nothing is under way |
| ReplayAccepted.OpenedConnectionAccepted | apps/windows-agent/internal/endpoint/session.go:518-548 | from the request on: the browser accepts session_opened and what the connection was sent after it if and only if no output was tried before it and no number runs out; its output offset then counts exactly those bytes |
| ReplayAccepted.EarlyOutputSkips | apps/windows-agent/internal/endpoint/endpoint.go:512-527 | every output tried before session_opened is refused by the agent machine and takes a number with it |
| ReplayAccepted.GapRefused | apps/web/protocol/contractMachine.ts:103-112 | after a lost number the browser machine accepts no frame of the agent any more |
| RolledBackReplay.ReplayTold | apps/web/protocol/contractMachine.ts:220-239 | of a replay only history_begin can contradict a rolled-back machine |
| RolledBackReplay.ReopenAfterRollback | apps/web/terminal/protocolTerminalAdapter.ts:932-937 | a machine rolled back at any earlier point accepts the rest of the handshake and the request, and then the replay if and only if it stops before history_begin or the shell had produced nothing |
| CloseTickets.StepKeeps | apps/windows-agent/internal/endpoint/session.go:608-664 | each step keeps the accounts of fences, tickets, closes and answers |
| CloseTickets.RunsEnd | apps/windows-agent/internal/endpoint/session.go:608-664 | no run of closers is longer than the finite work they have |
| CloseProgress.ClosedOnce | apps/windows-agent/internal/endpoint/session.go:619-664 | at most one first ticket, terminal close and closeDone a session, in that order; exactly one each once all closers are through |
| CloseProgress.SameAnswer | apps/windows-agent/internal/endpoint/session.go:642-663 | all closers of a session get the same closeErr |
| CloseProgress.AnswerIsCloseError | apps/windows-agent/internal/endpoint/session.go:652-663 | that error is the one the single terminal close returned |
| CloseProgress.WaitsForEarlierFence | apps/windows-agent/internal/endpoint/session.go:644-650 | a wait on closeDone is for a fence taken strictly earlier, whose taker still holds the ticket |
| CloseProgress.OrderlyClosersFinish | apps/windows-agent/internal/endpoint/session.go:394-472 | batched revocations, shutdowns and single closes never form a wait cycle: somebody can go on until all are through |
| RevocationRace.SharedShellHangs | apps/windows-agent/internal/endpoint/endpoint.go:199-205 | a revocation and a teardown that had collected one of its shells wait for each other for good, whatever other revocations and teardowns do |
| RevocationRace.SeparateShellsFinish | apps/windows-agent/internal/endpoint/endpoint.go:199-205 | any number of revocations and teardowns: without a shared shell somebody can always go on until all are through |
| RevocationRace.RevocationGetsThrough | apps/windows-agent/internal/endpoint/endpoint.go:199-205 | they can all get through if and only if no teardown had collected a shell that a revocation fenced |
| CredentialFence.Endpoint.constructor | apps/windows-agent/internal/endpoint/endpoint.go:82-82 | nothing registered, nothing revoked, not closed |
| CredentialFence.Endpoint.RegisterConnection | apps/windows-agent/internal/endpoint/endpoint.go:159-167 | the connection is on the list, unless the endpoint is closed |
| CredentialFence.Endpoint.BindCredential | apps/windows-agent/internal/endpoint/endpoint.go:208-216 | bound unless revoked |
| CredentialFence.Endpoint.AuthorizeCredential | apps/windows-agent/internal/endpoint/endpoint.go:218-226 | authorized by the credential unless that is revoked, whatever the connection is bound to |
| CredentialFence.Endpoint.BeginRevocation | apps/windows-agent/internal/endpoint/endpoint.go:192-198 | the mark and the list of connections, in one section |
| CredentialFence.Endpoint.BeginClose | apps/windows-agent/internal/endpoint/endpoint.go:92-99 | the flag and the list of connections, in one section |
| CredentialFence.Endpoint.ListConnections | apps/windows-agent/internal/endpoint/endpoint.go:195-197 | exactly the registered connections |
| CredentialFence.Endpoint.FailNext | apps/windows-agent/internal/endpoint/endpoint.go:200-204 | a listed connection is ended exactly when it carries the credential, by a close always |
| CredentialFence.AlwaysCaught | apps/windows-agent/internal/endpoint/endpoint.go:185-226 | a live connection of a revoked credential is on the list of a revocation under way; once closed, every live connection is on the list of the close |
| CredentialFence.RevokedNowhereLive | apps/windows-agent/internal/endpoint/endpoint.go:185-226 | once revocations are through, no live connection is bound to the credential |
| CredentialFence.RevokedNowhereAuthorized | apps/windows-agent/internal/endpoint/endpoint.go:430-446 | nor authorized by it, as connections authorize by the credential they are bound to and bind no other afterwards |
| CredentialFence.ClosedNowhereLive | apps/windows-agent/internal/endpoint/endpoint.go:92-107 | once the endpoint is closed and its closes are through, no connection is live |
| CredentialFence.EndedForReason | apps/windows-agent/internal/endpoint/endpoint.go:185-206 | in every run a connection that is no longer registered was ended by its own shutdown, by a revocation of the credential it carried then, or by a close of the endpoint |
| CredentialFence.SweepEnds | apps/windows-agent/internal/endpoint/endpoint.go:200-204 | a sweep ends the connection it looks at exactly for such a reason, and touches no other |
| CredentialFence.HandshakeExact | apps/windows-agent/internal/endpoint/endpoint.go:159-226 | a new connection gets in exactly when the endpoint is open, and is bound and authorized exactly when the credential is not revoked |
| CredentialFence.RevocationExact | apps/windows-agent/internal/endpoint/endpoint.go:185-206 | from every reachable state a revocation that is not interrupted ends exactly the connections bound to its credential |
| CredentialFence.CloseExact | apps/windows-agent/internal/endpoint/endpoint.go:92-107 | and a close ends all |
| SendPath.Connection.constructor | apps/web/terminal/protocolTerminalAdapter.ts:187-233 | a fresh connection |
| SendPath.Connection.SendFrame | apps/web/terminal/protocolTerminalAdapter.ts:868-902 | refused without connection, on a closed socket, when too large or over the limit; else reserved and queued |
| SendPath.Connection.TakeTurn | apps/web/terminal/protocolTerminalAdapter.ts:856-866 | the lock passes to the head of the queue |
| SendPath.Connection.TakeInbound | apps/web/terminal/protocolTerminalAdapter.ts:619-627 | an inbound frame is applied, or skipped |
| SendPath.Connection.TakeOutbound | apps/web/terminal/protocolTerminalAdapter.ts:904-927 | number assigned, second buffer check |
| SendPath.Connection.Attempt | apps/web/terminal/protocolTerminalAdapter.ts:928-929 | applied and held for the socket, or refused |
| SendPath.Connection.Complete | apps/web/terminal/protocolTerminalAdapter.ts:930-944 | handed to the socket, or rolled back; the reservation ends either way |
| SendPath.Connection.RollBack | apps/web/terminal/protocolTerminalAdapter.ts:935-936 | a new machine from the snapshot takes over |
| SendPath.DigitsClimb | apps/web/terminal/protocolTerminalAdapter.ts:882-892 | the largest number is at least as long as any other |
| SendPath.ReservationsHold | apps/web/terminal/protocolTerminalAdapter.ts:896-944 | outboundBytes is the sum of unfinished reservations, bufferedAmount stays within 65,536, and the second check never refuses |
| SendPath.WireCountsUp | apps/web/terminal/protocolTerminalAdapter.ts:904-939 | frames handed to the socket carry 0,1,2,... in call order |
| SendPath.RollbackLosesNothing | apps/web/terminal/protocolTerminalAdapter.ts:932-937 | between turns the machine is where received and sent frames lead, but for the flag of a rollback before the offset was known |
| SendPath.RefusalSpoilsNothing | apps/web/protocol/contractMachine.ts:83-125 | a refused frame leaves a named machine alone, short of the last number |
| SendProgress.AdmittedExactly | apps/web/terminal/protocolTerminalAdapter.ts:868-902 | in every reachable state a frame is admitted if and only if the connection is there, the socket open, and the frame fits one frame and, with what is held and reserved, the limit; a refused one changes nothing |
| SendProgress.InboundTurn | apps/web/terminal/protocolTerminalAdapter.ts:619-627 | a received frame whose turn comes on a live connection that has not failed is applied to the machine |
| SendProgress.ReceivedInOrder | apps/web/terminal/protocolTerminalAdapter.ts:619-627 | over every run received frames have their turns in the order they arrived, each once, and the recorded ones are exactly those whose turn came live and not failed and that the machine accepted |
| SendProgress.OutboundTurn | apps/web/terminal/protocolTerminalAdapter.ts:904-929 | in every reachable state an admitted frame is held for the socket if and only if the connection lets it go and the machine accepts it under the next number; no other reason refuses it |
| SendProgress.SendReachesWire | apps/web/terminal/protocolTerminalAdapter.ts:904-944 | such a frame that the socket takes is the next on the wire; its reservation has ended |
| SendProgress.WireIsCalls | apps/web/terminal/protocolTerminalAdapter.ts:868-944 | over every run the frames on the wire carry the payloads that were admitted, with the length counted for them |
| SendProgress.QueueDrains | apps/web/terminal/protocolTerminalAdapter.ts:856-866 | from every reachable state turns alone work the queue off, and then nothing is reserved |
| SendPath.RolledBackStep | apps/web/protocol/contractMachine.ts:65-77 | of the frames a machine accepts its rolled-back copy refuses exactly a history_begin at another offset when the offset was not known |
| SendPath.RolledBackRun | apps/web/protocol/contractMachine.ts:65-77 | the same for whole runs: indistinguishable if the offset was known |
| Utf8.ChunkEnd | apps/web/terminal/protocolTerminalAdapter.ts:573-575 | the end moves forward, within one frame and between characters |
| Utf8.CutValid | apps/web/terminal/protocolTerminalAdapter.ts:573-575 | valid UTF-8 cut between characters is valid on both sides |
| Utf8.BoundaryNear | apps/web/terminal/protocolTerminalAdapter.ts:575 | at most three steps back there is a place between characters |
| Utf8.Split | apps/web/terminal/protocolTerminalAdapter.ts:561-582 | the chunks are valid UTF-8 of at most 16,384 bytes and join to the paste |
| Utf8.FirstChunks | apps/web/terminal/protocolTerminalAdapter.ts:561-582 | the first chunks carry the beginning of the paste |
| Paste.ChunkAdmitted | apps/web/terminal/protocolTerminalAdapter.ts:564-579 | after the wait for half the limit no chunk can be refused for size or backpressure |
| PasteRuns.RunKeeps | apps/web/terminal/protocolTerminalAdapter.ts:518-590 | every order of pastes, keys, turns, failures and reconnects keeps the paste invariant |
| PasteRuns.PasteIsOneBlock | apps/web/terminal/protocolTerminalAdapter.ts:540-590 | of any paste the wire holds one uninterrupted block of its first chunks, all on the connection it started on |
| PasteRuns.WireCarriesPrefix | apps/web/terminal/protocolTerminalAdapter.ts:540-590 | of the bytes pasted the wire carries a first part, and all of them exactly when the last chunk is there |
| PasteRuns.NothingAfterInterrupt | apps/web/terminal/protocolTerminalAdapter.ts:518-522 | nothing of a paste follows the Control-C that ended it |
| PasteProgress.KeysExact | apps/web/terminal/protocolTerminalAdapter.ts:518-538 | over every run: during a paste every key but Control-C is ignored, Control-C ends the paste, and it or a key pressed without a paste is queued exactly if admitted on a connected page |
| PasteProgress.CeasedForGood | apps/web/terminal/protocolTerminalAdapter.ts:540-590 | a paste that no longer goes on never sends another chunk |
| PasteProgress.GoesOnUntil | apps/web/terminal/protocolTerminalAdapter.ts:540-590 | the paste that goes on, goes on until it is over or fails, Control-C or a new connection; the end of another never ends it |
| PasteProgress.FirstTurn | apps/web/terminal/protocolTerminalAdapter.ts:904-944 | a frame of the present connection that the socket takes is the next on the wire, any other is gone without a trace, and its paste learns which |
| PasteProgress.QueueDrains | apps/web/terminal/protocolTerminalAdapter.ts:856-866 | turns alone work the queue off, and everything queued for the present connection is then on the wire |
| PasteProgress.PasteGoesThrough | apps/web/terminal/protocolTerminalAdapter.ts:540-590 | from every reachable state on a connected page without a paste, a paste that nothing disturbs is carried in full |
| Base64Url.EncodeBase64Url | apps/web/protocol/codec.ts:54-61 | the loop, btoa, the two replacements and the stripped padding yield the encoding the agent yields |
| Base64Url.BytesUndoSextets | apps/windows-agent/internal/protocol/protocol.go:344 | six-bit groups spell their bytes again and leave no bits over |
| Base64Url.AgentDecodeExact | apps/windows-agent/internal/protocol/protocol.go:333-342 | decodes exactly the encodings of non-empty byte strings of the wanted size, each to its original |
| Base64Url.BrowserDecodeExact | apps/web/protocol/codec.ts:63-91 | the same for the browser, through the forgiving atob |
| Base64Url.DecodersAgree | apps/web/protocol/codec.ts:63-91 | both decoders agree on every string and size |
| SessionId.RandomSessionId | apps/windows-agent/internal/endpoint/security.go:214-226 | the array filled from its end spells the sixty-bit value |
| SessionId.PrintedIsValid | apps/windows-agent/internal/protocol/protocol.go:240 | every sixty-bit value has its own identifier that matches the pattern |
| SessionId.ValidIsPrinted | apps/windows-agent/internal/protocol/protocol.go:240 | every identifier that matches the pattern is that of exactly one sixty-bit value |
| SessionId.FragmentExact | apps/web/protocol/sessionFragment.ts:8-18 | parsing gives a session exactly when printing that session gives the fragment |
| SessionId.FragmentKinds | apps/web/protocol/sessionFragment.ts:8-18 | a fragment is the root exactly when it is empty, and invalid exactly when it is neither that nor printed for any session |
| RateLimiter.Limiter.constructor | apps/windows-agent/internal/endpoint/security.go:140-146 | no windows |
| RateLimiter.Limiter.Allowed | apps/windows-agent/internal/endpoint/security.go:148-162 | renews a lapsed window and answers, or refuses during a cooldown |
| RateLimiter.Limiter.Begin | apps/windows-agent/internal/endpoint/security.go:164-183 | admits below the limit |
| RateLimiter.Limiter.Finish | apps/windows-agent/internal/endpoint/security.go:185-199 | counts a failure and starts the cooldown at the limit |
| RateLimiter.WithinLimit | apps/windows-agent/internal/endpoint/security.go:148-199 | failed plus outstanding attempts stay within the limit while no window is renewed over attempts under way |
| RateLimiter.WindowBounds | apps/windows-agent/internal/endpoint/security.go:148-199 | in every reachable state no more is pending than outstanding, and without a cooldown failed plus pending attempts are within the limit |
| RateLimiter.CountsFailures | apps/windows-agent/internal/endpoint/security.go:148-199 | over every run the count is that of the failures since the window was opened, and there is a cooldown if and only if these reach the limit, for five minutes from the last of them |
| RateLimiter.NoFailuresNoCooldown | apps/windows-agent/internal/endpoint/security.go:185-199 | a run without failures counts none and never cools down |
| RateLimiter.RefusedExactly | apps/windows-agent/internal/endpoint/security.go:148-183 | in every reachable state an attempt is refused if and only if the cooldown lasts or, in a window not lapsed, failures and pending attempts reach the limit; asking first foretells it |
| RateLimiter.ExceedsExactly | apps/windows-agent/internal/endpoint/security.go:164-199 | from a reachable state with an open window some continuation exceeds the limit if and only if a renewal has forgotten an attempt still under way |
| RateLimiter.StaleFailuresExceed | apps/windows-agent/internal/endpoint/security.go:169-173 | for every limit: renewing a window over one attempt that is under way for a nanosecond lets limit + 1 attempts fail |
| RateLimiter.CooldownHolds | apps/windows-agent/internal/endpoint/security.go:192-197 | a failure at the limit refuses every begin for five minutes, whatever happens meanwhile |
| RateLimiter.AttemptsMatch | apps/windows-agent/internal/endpoint/endpoint.go:702-722 | in every run of a device's connections the outstanding attempts are the reserved and the finishing ones, so each is finished once |
| RateLimiter.AttemptLife | apps/windows-agent/internal/endpoint/endpoint.go:702-722 | a connection gets an attempt exactly when the limiter admits it, and can finish it once at any later time |
| Recovery.Bounded | apps/web/terminal/browserRecovery.ts:12-50 | at most one live timer with the delay of its attempt, none while stopped or disposed, at most eight timer-driven connects between resets |
| Recovery.SetsTimer | apps/web/terminal/browserRecovery.ts:27-50 | over every run, on each occasion with a visible page and recovery wanted one timer with the delay of the attempt is live afterwards if and only if there was one, or the adapter is fit and attempts are left |
| Recovery.TimerConnects | apps/web/terminal/browserRecovery.ts:37-48 | a live timer that fires connects and counts exactly when the page is visible and the adapter fit |
| Recovery.CountsAfresh | apps/web/terminal/browserRecovery.ts:57-113 | a connection on a visible page, unless stopped, starts the count afresh; a manual try counts as one; hiding clears the timer and keeps the count |
| Recovery.EightTries | apps/web/terminal/browserRecovery.ts:3-50 | a visible page that never gets its connection back tries exactly eight times, after the eight delays in order, and then no more |
| Recovery.HiddenQuiet | apps/web/terminal/browserRecovery.ts:57-87 | from the hiding of the page until it is shown again no timer is live and none connects |
| Recovery.UnseenSetsNone | apps/web/terminal/browserRecovery.ts:27-73 | on a page that is not visible or not online no occasion sets a timer |
| Recovery.StopLasts | apps/web/terminal/browserRecovery.ts:105-124 | from a stop until a manual try, and from disposal for good, no timer is live and the number of timer-driven connects stays what it was |
| Export.ExportPage | apps/windows-agent/internal/intelligence/service.go:506-548 | one page of what the query yields and the cursor of its last row |
| Export.BelowAt | apps/windows-agent/internal/intelligence/service.go:522 | the rows below a row are those listed after it |
| Export.Collect | apps/web/intelligence/export.ts:16-37 | over an unchanging table every row once, in order, in max(1, ceil(n/50)) requests; no guard fires |
| Export.NeverAsksTwice | apps/web/intelligence/export.ts:20-32 | against any server no request after the first is repeated; all differ if and only if the server named no empty cursor in an answer that was followed up |
| Export.StopsAtFirst | apps/web/intelligence/export.ts:16-37 | against any server the client goes on exactly as long as each answer is from the same session, has rows and names a new cursor; the first other answer ends it and decides the outcome; the rows are those it was given |
| Export.EmptyCursorRepeats | apps/web/intelligence/export.ts:22 | a server that names the empty cursor is asked for the first page again |

## Left out

- WebSocket, TLS, HTTP, storage, ConPTY, process handles and clocks: they are step outcomes, events that may happen at
  any step, or parameters.
- Authentication proofs, pairing codes, certificate and origin checks, randomness: none of the modelled state depends
  on them; fresh connection and session ids are assumed where a step needs one.
- JSON and URL parsing: machines see decoded frames; lengths of encoded frames come from their literal parts.
- Payload members that neither machine reads (dimensions, nonces, reasons, credentials).
- The loops of `replay`, `copyOutput` and `finishCloseTicket`, which run across critical sections: they are steps of
  `Delivery` and jobs of `CloseTickets`, not methods. Input, resize and the `session_closed` notice touch no modelled state.
- `validateContext`: the adapter passes no context.
- `newSession`, `disconnect` and the state names of the adapter: `SendPath` keeps only live, open and failed.
- `reserve_tokens` and the rest of the intelligence service.
- ReplayAccepted.ReopenedConnectionAccepted: only heartbeats may be mixed into the agent's frames; resize, input and
  detach frames of the client are covered by the machines' own lemmas but not woven into the replay.
- CloseProgress.OrderlyClosersFinish: that a terminal's Close and the notice to its owner return is taken for granted.
- RevocationRace.RevocationGetsThrough: from the moment all have made their lists; two revocations of one credential,
  which share shells, are not played against each other.
- CredentialFence.Endpoint.FailNext: takes the end of a connection as instantaneous; that a failing connection may be
  waited for is the subject of `RevocationRace`.
- DeliveryRuns.OneClaim: that a connection asks for a session once is a guard of the steps; `WholeRuns.ClaimsOnce` proves
  it of the machine that guards the source.
- The browser adapter's release and the unsubscribing in the recovery handlers: `Recovery` keeps its timers and counts.
- PasteRuns.WireCarriesPrefix: its queue is that of admitted input frames; the byte reservations of the same frames are
  `SendPath`'s, and only `Paste.ChunkAdmitted` connects the two.
- SendPath.RollbackLosesNothing: says nothing once a refused frame has changed the machine; `SendPath.RefusalSpoilsNothing`
  says when none does.
- SendPath.ReservationsHold: bufferedAmount grows by a frame's encoded length and otherwise only falls.
- PasteRuns.PasteIsOneBlock: the five-second timeout is a step that may end a paste at any time.
- RateLimiter.AttemptsMatch: the connections of one device, as one limiter identity.
- Export.Collect: the table and its expiry do not change while the export runs.
- Base64Url.BrowserDecodeExact: strings are sequences of Unicode scalars, not UTF-16 code units.
