# A verified model of peer_compute

peer_compute lets providers rent out machines. A **registry** keeps providers and sessions and hands each session a
pair of tunnel addresses. A **relay** forwards WireGuard packets between peers that cannot reach each other. An
**agent** on the provider starts and stops the session's container and tunnel. This project models the parts of that
system whose correctness spans several operations, and proves what they keep over whole runs.

The state-changing code is modelled as classes with the source's fields, whose methods follow the source step by step, and
as functions on whole states, over whose runs the results are proved. The two are connected as follows.

- `Tunnel.TunnelAllocator`, the stores of `Stores`, `RegistryServer.Server` and `RelayClients.RelayClient`: the contract of
  each method equates the new state and the answer with a function of the old state, and the runs are runs of those
  functions.
- `RelayServer.Server`: each of its operations is proved to be what the corresponding steps of the relay's step machine do
  when nothing comes between them (`RelayTies`); the machine then lets the steps interleave.
- `AgentDaemon.Daemon`: a start or a stop of the agent's step machine that nothing interrupts is proved to do what the
  method does (`AgentAlone`); the machine then lets starts and stops interleave.

| files | part of the system |
|---|---|
| `Tunnel`, `TunnelRuns` | the tunnel allocator of the registry and its runs |
| `Relay`, `RelayServer`, `RelayClient` | frames, routing of one packet, the sessions map of the relay, the relay client |
| `RelayMachine` | the relay as a step machine: main loop with a gap between its two locks, one raw loop per session, registration, removal, sweeps |
| `RelayRuns`, `RelaySockets`, `RelaySilence`, `RelayTime`, `RelayOneLock`, `RelayIsolation`, `RelayPayload`, `RelayDelivery`, `RelayTies` | what its runs keep, and its steps against the class |
| `PrefixLookup`, `Records`, `Stores` | lookups by ID prefix, records, the sharing store and the upserting store |
| `Registry`, `RegistryServer` | the remote calls of the registry, as functions on its whole state and as handlers |
| `RegistryReplies`, `RegistryColumns`, `RegistryProviders` | what each call answers and writes, in literals, and what each column holds after a run |
| `RegistryStores`, `RegistrySlots`, `RegistryRecords`, `RegistryCleanup`, `Rendezvous` | what runs of those calls keep |
| `Retry` | the backoff loop |
| `Agent`, `AgentRuns`, `AgentAlone`, `AgentOutcomes`, `AgentInterference` | session starts and stops: one call at a time, as a step machine, uninterrupted, and interleaved |
| `Text`, `Heap`, `Histories` | decimal numbers and splitting; a pointer to a record; a value overwritten from time to time |

## Conventions

- Time, fresh IDs, random numbers, answers of plugins and outcomes of foreign calls are parameters. A failing database
  write is a row ID in the `failing` set of a call.
- SHA-256 is a parameter `h` of the relay's operations, any function from tokens to 32 bytes.
- Integers are unbounded except where the source wraps or truncates: octets of the tunnel index wrap at 256, `Atoi`
  saturates at 64 bits, durations are added with 64-bit wrap-around, and a duration that does not fit in 64 bits, or is
  no number, when a float is converted is an arbitrary `misfit`, since that depends on the platform.
- In the relay's step machine each access to shared state under one lock, and each unlocked access of a raw loop, is
  one step. `RegisterSession` binds the port and enters the map in two steps; `InvalidateSession` leaves the map and
  closes the socket in two steps.
- Each remote call of the registry is one step.

## Where a natural claim has a condition

Several claims hold only under a condition; each is stated as an equivalence with it, next to a run that shows the
other side.

- *A session knows only addresses that have spoken to it since its registration*: at every moment of exactly the runs that
  never adopt the sender of a packet received before the session existed, unless that sender has sent to the session's raw
  port (`IsolationIff`, `RegistrationRace`). In those runs its packets go only to such addresses (`Isolation`); a run that
  does adopt such a sender may or may not go on to write to it.
- *Open raw sockets are those of the sessions in the map*: a step keeps this exactly when it does not register a token over
  a live session with a raw socket and no read on an open socket fails (`ConservedStepIff`, `ReRegistrationOrphans`).
- *An invalidated token goes silent*: every packet for it is dropped in every continuation that does not register its ID
  again, exactly when at the invalidation no session of the map under another token has its ID, it is not being registered,
  and no raw socket of it was orphaned before (`InvalidationSilencesIff`). After a live token with a raw socket was
  registered again it is not (`OrphanStillForwards`); the comment at `internal/relay/server.go:188` has no such condition.
- *Both stores give the registry the same behaviour*: exactly when no refused "running" update would have changed its record
  (`StoresSimulateIff`, `RefusedUpdateDiverges`).
- *Slot holders are the sessions not terminated*: exactly when no call is a creation or an end whose record is not written,
  or an update that revives a terminated session (`LiveSessionsHoldSlots`, `FailedCreationLeaksForever`).
- *Records stay in order*: over the upserting store always, over the sharing store exactly when no refused update reaches a
  record that lacks its endpoint or mode (`RecordsStepIff`).
- *A session's end is recorded once*: a run records no further outcome exactly when none of its calls is a written
  `TerminateSession` of the session or a "terminated" update of a record not terminated yet (`EndRecordedOnceIff`), and its
  time stays exactly when no call writes another (`EndStaysIff`). Repeated updates are fine (`EndRecordedOnce`); a retry
  after a failed write and a second `TerminateSession` are not (`RetryAfterFailedWriteRecordsTwice`,
  `TerminateAgainRecordsAgain`).
- *An ended session is not registered at the relay, and has no candidates*: in every state exactly of the runs without a
  report of relay use for an ended session and without a "terminated" update of a registered one (`RelaysEndedIff`), and of
  those without an exchange on an ended session and without a "terminated" update of one with candidates
  (`CandidatesEndedIff`). The agent ends sessions by such updates (`AgentStopLeavesBoth`, `LateReportRegisters`).
- *The `LIKE` lookup is the prefix lookup*: exactly for prefixes without `%`, `_` and backslash (`LikeAgreesIffPlain`).
- *Two live sessions on a provider have different WireGuard ports*: exactly when their minor octets differ
  (`WireGuardPorts`). The comment at `agent/daemon.go:405` calls the ports collision-free; the code uses only the minor octet.
- *What one side sends through the relay the other receives*: if the relay sends everything on, exactly once the receiving
  client has learned its WireGuard's address (`ClientToClientIff`); from a raw renter the header stays on
  (`RawRenterHeaderStays`). The comment at `internal/relay/client.go:13` says that the client strips the header; the code
  does not.
- *No wait of the backoff exceeds the cap with its jitter*: on a platform where a float that does not fit converts to the
  smallest integer, for every random number exactly while the doubled base is a number and fits in 64 bits (`WaitBoundIff`,
  `TotalWaitBoundIff`); past that the sum with the jitter can wrap around to the largest integer. A base of zero is no
  number from 1024 doublings on, any other base does not fit from 63 on (`WhenDoublesTo64`).
- *One start per session at a time*: exactly in the runs where no failing start gives up another's reservation
  (`ReservationsIff`, `EarlyStopLosesReservation`). *A start that has been undone holds nothing but what
  could not be removed*: whatever exists is accounted for exactly in the runs where no start acquires something after a stop
  of it has gone past undoing that (`AccountedIff`, `EarlyStopIsOutrun`). For both it is enough that stops find their sessions
  running (`RunningStopsSuffice`).
- *Starts and stops touch only what their start made*: a step does so exactly when what is known by its ID, name or cancel
  function is its own (`TouchesOthersIff`), which holds in all runs where no start begins while another start of the same
  name is under way or has left something (`ClearRunsLeaveOthers`, `RestartLosesTunnel`).

## Model

| member | source | states |
|---|---|---|
| Tunnel.SingleCycle | internal/registry/server.go:91-101 | The index advance is one cycle through all 7112 slots: from any slot exactly one number of advances below 7112 reaches any given slot, and 7112 advances come back. |
| Tunnel.ScanBound | internal/registry/server.go:106-133 | Pigeonhole behind the scan: a scan that has passed only taken slots has passed no more than there are taken slots. |
| Tunnel.FullIff | internal/registry/server.go:110-112 | The size test of the allocator is the same as every slot being taken. |
| Tunnel.FullMeansEverySlotTaken | internal/registry/server.go:110-112 | The allocator reports exhaustion exactly when no slot is free. |
| Tunnel.FirstFreeExists | internal/registry/server.go:114-122 | With a free slot left, the unbounded scan meets one after at most as many advances as slots are taken. |
| Tunnel.FirstFreeUnique | internal/registry/server.go:114-122 | The first free slot in cyclic order from the hint is determined. |
| Tunnel.TunnelAllocator.AllocateTunnelIPs | internal/registry/server.go:106-133 | The scan loop ends after at most as many advances as slots are taken, takes the first free slot in cyclic order from the hint, fails exactly when all are taken, and returns the addresses printed for that slot. |
| Tunnel.TunnelAllocator.ReclaimTunnelIndex | internal/registry/server.go:137-144 | Frees the session's slot in both maps and nothing else; a session without a slot changes nothing. |
| Tunnel.TakeInverseIff | internal/registry/server.go:124-129 | An allocation keeps the two maps inverse to each other exactly when the session holds no slot yet. |
| Tunnel.ReleaseInverse | internal/registry/server.go:137-144 | A reclaim keeps the two maps inverse to each other. |
| Tunnel.TakeKeepsOthers | internal/registry/server.go:106-133 | An allocation moves no other session off its slot. |
| Tunnel.ReleaseKeepsOthers | internal/registry/server.go:137-144 | A reclaim, however late or often it comes, frees no slot of another session. |
| Tunnel.ReleaseUndoesTake | internal/registry/server.go:106-144 | Reclaiming after allocating gives back both maps as they were; only the hint has moved on. |
| Tunnel.TunnelIPFields | internal/registry/server.go:131-132 | A printed tunnel address splits at the dots into the network, the two octets and the role. |
| Tunnel.SlotAddresses | internal/registry/server.go:131-132 | The addresses of a slot split into "10", its two octets and the role, "1" for the provider and "2" for the renter. |
| Tunnel.AddressSpace | internal/registry/server.go:29-101 | There are 7112 slots, 99.1 to 126.254, and the next one wraps from 254 to 1 and from 126 to 99. |
| Tunnel.TunnelIPInjective | internal/registry/server.go:131-132 | Two printed tunnel addresses are equal only for the same slot and role. |
| TunnelRuns.HintMovesForward | internal/registry/server.go:114-129 | Over any stretch of a run the hint moves forward only, and every slot it passed was in use at some moment since. |
| TunnelRuns.ComingBack | internal/registry/server.go:106-133 | When a slot is about to be handed out again, every other slot lies behind the hint or is taken. |
| TunnelRuns.DelayedReuse | internal/registry/server.go:91-144 | In every run of allocations and reclaims, between two times a slot is handed out every other slot has been in use. |
| Frames.RawPortForToken | internal/relay/server.go:27-31 | The raw port of any token lies in 44000 to 44999. |
| Frames.ParseWrap | internal/relay/client.go:73-101 | What a client wraps, the relay parses back to the same token ID and packet. |
| Frames.HeaderBytes | internal/relay/server.go:414-419 | The header is the four letters PCRL and the first 16 bytes of the token's digest. |
| Frames.ParsesIff | internal/relay/server.go:275-282 | A datagram is relayed exactly if it has at least 20 bytes and begins with the four letters. |
| Frames.RawPortBytes | internal/relay/server.go:27-31 | The raw port is 44000 plus the first four digest bytes as a big-endian number modulo 1000. |
| Frames.WrapParse | internal/relay/server.go:275-282 | Only wrapped packets parse, and the parse loses nothing. |
| Routing.FastRefinesSlow | internal/relay/server.go:284-369 | Whenever the read-locked path does not ask for the write lock, the write-locked path picks the same destination and the same peer slots; they differ at most in the time stamp, on a stranger's dropped packet. |
| Routing.NeedsWriteIff | internal/relay/server.go:292-296 | The write lock is asked for exactly when the sender is to be remembered as a peer. |
| Routing.SlowPathKeeps | internal/relay/server.go:327-369 | Routing fills a slot at most once, the second never once a raw renter is known, keeps the peers distinct, changes nothing else, and never sends a packet back to its sender on the main socket. |
| Routing.RouteIsLearned | internal/relay/server.go:310-369 | A packet goes only to an address the session has learned. |
| RelayServer.Server.constructor | internal/relay/server.go:76-85 | A new server has no session and no raw port. |
| RelayServer.Server.RegisterSession | internal/relay/server.go:106-136 | The token gets a new session with its raw port if the port can be bound, without one otherwise; every other session stays the same object. What the new session holds is stated by RelaySockets.NewObject, and that it counts as alive from then on by RelayTime.SweepSparesTheLiving, for the step machine that RelayTies.BindInstallIsRegister ties this method to. |
| RelayServer.Server.FindSessionByTokenID | internal/relay/server.go:375-382 | Finds a session with the ID exactly when there is one. |
| RelayServer.Server.ServeFast | internal/relay/server.go:275-325 | Ignores exactly what is no relay packet of a known session, else leaves the packet to the write lock because a session with that ID needs it, or routes by one that does not and changes only that one. |
| RelayServer.Server.ServeSlow | internal/relay/server.go:327-369 | Looks the session up again and routes by it, changing only that one; without a session nothing changes and nothing is sent. |
| RelayServer.Server.ServeRaw | internal/relay/server.go:151-174 | A turn of a raw loop that nothing interrupts leaves every other session and every port alone, makes the sender the renter of its session, and sends header and packet to the first peer, or nothing while there is none. |
| RelayServer.Server.InvalidateSession | internal/relay/server.go:178-205 | Removes the token's session and closes its raw port, and only these; an unknown token changes nothing. |
| RelayServer.Server.ReapIdleSessions | internal/relay/server.go:386-411 | Deleting while walking the map, a sweep leaves exactly the sessions not idle for more than 60 s, unchanged, and closes exactly the raw ports of the others. |
| RelayTies.SweepIsReap | internal/relay/server.go:386-411 | A sweep of the machine leaves the sessions and the ports that the reaper's loop leaves. |
| RelayTies.BindInstallIsRegister | internal/relay/server.go:106-136 | Binding the port and entering the map with nothing in between is a registration. |
| RelayTies.UnlinkCloseIsInvalidate | internal/relay/server.go:178-205 | Leaving the map and closing the socket with nothing in between is an invalidation. |
| RelayTies.ReceiveIsServeFast | internal/relay/server.go:275-325 | A read of the machine is the read-locked part, and the main loop goes to the gap or to the write that part decides. |
| RelayTies.RelockIsServeSlow | internal/relay/server.go:327-369 | Leaving the gap is the write-locked part, with the lookup of that moment. |
| RelayTies.RawTurnIsServeRaw | internal/relay/server.go:151-174 | The three steps of a raw loop with nothing in between are that turn, on the sessions of the map and on what goes out. |
| RelayTies.CleanRunsKeepOpen | internal/relay/server.go:106-205 | In every run without leaking steps the raw sockets of the sessions in the map are open, as the ties of sweep and invalidation need. |
| RelayClients.RelayClient.Run | internal/relay/client.go:46-124 | Over any order of reads on the two sockets, sends exactly WireGuard's packets, wrapped and in order, and hands over exactly the datagrams that came after WireGuard's address was known. |
| RelayClients.ClientToClientIff | internal/relay/client.go:73-124 | For every stream of packets: wrapping, forwarding and reading deliver the same packets in the same order exactly when the receiving client knows its WireGuard's address, or nothing was sent. |
| RelayClients.NothingBeforeLearning | internal/relay/client.go:104-124 | A client whose WireGuard has not sent anything hands nothing over. |
| RelayClients.HandedToLastPeer | internal/relay/client.go:94-123 | A datagram from the relay goes to the address WireGuard's last packet came from, unchanged. |
| RelayClients.FramingEndToEnd | internal/relay/server.go:310-369 | In each direction between two clients, and from the provider to a raw renter, the relay sends exactly the packet to exactly the other side. |
| RelayClients.RawRenterHeaderStays | internal/relay/server.go:144-175 | From a raw renter the provider's WireGuard receives header and packet, never the packet alone. |
| RelayMachine.AlwaysWF | internal/relay/server.go:106-136 | In every reachable state each session sits in the map under its own token and each bound port is the raw port of its session's token. |
| RelayRuns.PeersAlways | internal/relay/server.go:284-369 | In every reachable state the second peer is set only beside a different first, and no packet of the main loop was written back to its sender on the main socket. |
| RelayRuns.SlotsWrittenOnce | internal/relay/server.go:339-361 | Over any stretch of any run a filled slot keeps its address, and the second slot is not filled once a raw renter is known. |
| RelaySockets.ConservedStepIff | internal/relay/server.go:106-136 | A step keeps the open raw sockets equal to those of sessions in the map, entering it or being closed, exactly when it does not register over a live session with a raw socket and is not a failed read on an open socket. |
| RelaySockets.SocketsConserved | internal/relay/server.go:106-205 | In every run without such a step the open raw sockets are those of the sessions in the map, on ports given by their tokens and within range. |
| RelaySockets.NewObject | internal/relay/server.go:106-127 | A registration makes a session created and last active now, with no peer and no renter, and with its raw port exactly if the port is free and not refused. |
| RelaySockets.ReRegistrationOrphans | internal/relay/server.go:106-136 | Registering a live token again leaves the old raw socket open with no session that knows it, and the new session without a raw port. |
| RelaySockets.OrphanForever | internal/relay/server.go:178-205 | No later invalidation, removal or sweep of any run closes such a socket. |
| RelaySilence.UnlinkSilencesIff | internal/relay/server.go:192-205 | Leaving the map leaves nothing to be looked up under the token's ID, and its raw socket open only until its pending close, exactly when no session of the map under another token has the ID, the token is not being registered, and no raw socket of it is an orphan. |
| RelaySilence.InvalidatedStaysSilent | internal/relay/server.go:192-205 | From then until a token with the ID is registered, every packet looked up for it on the main socket is dropped, in the gap between the locks too, and its raw socket yields packets only before its close. |
| RelaySilence.AfterInvalidation | internal/relay/server.go:178-205 | From an invalidation under that condition on, no packet read or looked up for the token is forwarded until a token with its ID is registered again, except from the raw socket before its pending close. |
| RelaySilence.CleanRunsSilenceable | internal/relay/server.go:106-205 | The condition holds in every run in which no token was registered over a live session with a raw socket and no read on an open socket failed, if no other registered token has the ID and the token is not being registered. |
| RelaySilence.SilentForeverIff | internal/relay/server.go:249-371 | At any moment of any run, every packet for an ID is dropped in every continuation that registers no token with it, exactly when nothing can be looked up under it, nothing is being registered under it, and its raw sockets are all about to be closed. |
| RelaySilence.InvalidationSilencesIff | internal/relay/server.go:188-205 | After any run, an invalidation silences its token in every continuation exactly under the condition above. |
| RelaySilence.OrphanStillForwards | internal/relay/server.go:106-205 | With a raw socket orphaned by an earlier registration, a packet read there after the invalidation is written to the provider with the session's header. |
| RelayTime.SweepRemovesExactlyIdle | internal/relay/server.go:386-411 | A sweep removes exactly the sessions idle for more than 60 s, closes their sockets, and leaves all else. |
| RelayTime.StampsOnSign | internal/relay/server.go:295-362 | A step stamps a session with its time exactly if it registers it, routes a packet of a peer of it, makes the sender a peer, drops a stranger's packet under the read lock, or reads its raw port. |
| RelayTime.StampIsLatestSign | internal/relay/server.go:315-315 | In every run the stamp of a session is the time of the latest such event. |
| RelayTime.SweepSparesTheLiving | internal/relay/server.go:397-406 | In every run a sweep removes a session, and closes its socket, exactly if each of those events is more than 60 s ago. |
| RelayTime.NoneOutlivesNinetySeconds | internal/relay/server.go:386-411 | In every run with a sweep every 30 s no session stays in the map more than 90 s after its last stamp or its entry, or as much more as the reaper waits for the lock. |
| RelayTime.WhyRemoved | internal/relay/server.go:178-205 | A session leaves the map only by an invalidation of its token, a registration over it, or a sweep more than 60 s after its last stamp. |
| RelayOneLock.EventRefines | internal/relay/server.go:284-369 | Each step of the two-lock relay is one step of a relay with one lock, or none while a packet waits in the gap. |
| RelayOneLock.TwoLocksRefineOne | internal/relay/server.go:249-371 | Every run, whatever happens in the gap, ends in the same sessions, sockets and writes as a run of the one-lock relay, in which each packet is routed exactly once. |
| RelayIsolation.Isolation | internal/relay/server.go:144-175 | In every run without a stale adoption each datagram written for a session goes to an address that has itself spoken to that session since its registration. |
| RelayIsolation.IsolationIff | internal/relay/server.go:284-369 | All addresses known to sessions have spoken to them since their registration, at every moment of a run, if and only if the run never adopts the sender of a packet older than the session that has sent nothing to the session's raw port. |
| RelayIsolation.NoBindInGapIsolates | internal/relay/server.go:106-136 | It is enough that no registration starts while a packet waits between the two locks. |
| RelayIsolation.RegistrationRace | internal/relay/server.go:284-369 | A run of nine steps in which a registration in the gap makes a packet go to an address that never spoke to the new session. |
| RelayPayload.MainForwardsInOrder | internal/relay/server.go:249-371 | In every run what the main loop has written for sessions are packets it read under their IDs from the same senders, byte for byte without the header, in the order it read them and each at most once; that they are written is stated by the rows of RelayDelivery. |
| RelayPayload.RawForwardsInOrder | internal/relay/server.go:144-175 | In every run what the raw loop of a session has written are packets read on its raw port, each with the session's header before it, in order and each at most once. |
| RelayPayload.EndToEnd | internal/relay/client.go:73-124 | In every run of the relay, with a network that may lose datagrams on both sides: what the other client's WireGuard is handed of a client's packets are packets that client's WireGuard sent, unchanged, in order and each at most once. |
| RelayDelivery.ProviderToRawRenter | internal/relay/server.go:304-308 | The provider's packet is to be written to the renter on the raw port, if it has one. |
| RelayDelivery.ProviderToClient | internal/relay/server.go:309-311 | Else it is to be written to the second relay client. |
| RelayDelivery.ClientToProvider | internal/relay/server.go:312-313 | The second client's packet is to be written to the provider. |
| RelayDelivery.FirstSender | internal/relay/server.go:340-344 | The first sender becomes the provider and its packet goes nowhere. |
| RelayDelivery.SecondSender | internal/relay/server.go:345-347 | The next sender becomes the second client if no raw renter is known, and its packet goes to the provider. |
| RelayDelivery.OthersGoNowhere | internal/relay/server.go:303-315 | Anyone else's packet changes no peer and is not written. |
| RelayDelivery.WrittenNext | internal/relay/server.go:318-322 | In every run the packet that the main loop holds is its next write, whatever happens meanwhile: on the main socket always, on a raw socket exactly if that is still open. |
| RelayDelivery.RawRenterReceives | internal/relay/server.go:306-319 | In every run the provider's packet is the main loop's next write, to the raw renter, exactly if the raw socket is open then. |
| RelayDelivery.ClientReceives | internal/relay/server.go:309-321 | In every run the provider's packet is the main loop's next write, to the second client. |
| RelayDelivery.ProviderReceives | internal/relay/server.go:312-321 | In every run the second client's packet is the main loop's next write, to the provider. |
| RelayDelivery.RawRenterToProvider | internal/relay/server.go:144-175 | A raw packet is held, its sender becomes the renter, and it is sent to the provider behind the header, if the provider is known. |
| RelayDelivery.AnswersTheRenter | internal/relay/server.go:158-161 | Once the renter is recorded, the provider's next packet is for it. |
| PrefixLookup.ScanForPrefix | plugin/defaults.go:85-104 | Whatever the iteration order of the map, the loop's verdict is that of the prefix lookup, which PrefixLookup.PrefixVerdict states case by case. |
| PrefixLookup.PrefixVerdict | plugin/defaults.go:85-104 | Not found exactly if no ID begins with the prefix, ambiguous exactly if the prefix is no ID and two IDs begin with it, found exactly for the prefix itself or the only ID that begins with it. |
| PrefixLookup.SelectLike | store/postgres.go:128-136 | A `LIKE` query with a limit returns distinct matching rows, all of them if fewer than the limit. |
| PrefixLookup.QueryByPrefix | store/postgres.go:122-154 | Two rows at most are enough for the verdict on all matches, which PrefixLookup.LikeVerdict states case by case. |
| PrefixLookup.LikeVerdict | store/postgres.go:122-154 | The same three verdicts for the IDs that match the prefix followed by `%`. |
| PrefixLookup.PercentIsAnyStretch | store/postgres.go:128-133 | `%` matches any stretch of characters. |
| PrefixLookup.LikeCharacters | store/postgres.go:128-133 | `_` matches one character, an escaped or plain character itself, and nothing may be left over. |
| PrefixLookup.LongerPrefixResolves | plugin/defaults.go:164-183 | If a prefix resolves to an ID, every longer prefix of that ID resolves to it. |
| PrefixLookup.LikePlain | store/postgres.go:234-267 | For a prefix without wildcards the pattern matches exactly the strings that begin with it. |
| PrefixLookup.LikeAgreesIffPlain | store/postgres.go:234-267 | The two lookups agree on every set of IDs exactly for prefixes free of `%`, `_` and backslash. |
| Records.UpsertStoresRecord | store/postgres.go:202-222 | An upsert stores the whole record if the columns it never rewrites are those of the row. |
| Stores.MemoryStore.PutProvider | plugin/defaults.go:68-73 | The record itself, not a copy, replaces the one under its ID. |
| Stores.MemoryStore.PutSession | plugin/defaults.go:147-152 | The record itself, not a copy, replaces the one under its ID. |
| Stores.MemoryStore.UpdateHeartbeat | plugin/defaults.go:128-138 | Stamps the shared record and sets it online; an unknown ID changes nothing. |
| Stores.MemoryStore.ListProviders | plugin/defaults.go:106-126 | Lists each record the filter selects, once, as the shared record. |
| Stores.MemoryStore.ListSessions | plugin/defaults.go:185-202 | Lists exactly the records the filter selects. |
| Stores.MemoryStore.GetTerminatedSessionIDs | plugin/defaults.go:211-225 | Returns exactly the given IDs of the provider's terminated sessions. |
| Stores.PostgresStore.PutProvider | store/postgres.go:83-101 | Inserts the row, or updates the listed columns of the one with its ID; a failing write changes nothing. |
| Stores.PostgresStore.PutSession | store/postgres.go:202-222 | Inserts the row, or updates the listed columns of the one with its ID; a failing write changes nothing. |
| Stores.PostgresStore.UpdateHeartbeat | store/postgres.go:106-111 | Updates time and status of the row, if there is one. |
| Stores.PostgresStore.GetTerminatedSessionIDs | store/postgres.go:310-331 | The row loop, in any order of rows, returns exactly the given IDs of the provider's terminated sessions, each once however often it is asked for. |
| Stores.PostgresStore.ListSessions | store/postgres.go:269-303 | The row loop, in any order of rows, collects exactly the sessions the filter selects. |
| Stores.Store.ListProviders | store/postgres.go:156-193 | Over either store, the records listed are those the filter selects, each once. |
| Stores.Store.ListSessions | store/postgres.go:269-303 | Over either store, the sessions listed are exactly those the filter selects. |
| Stores.Store.WriteSession | plugin/defaults.go:147-152 | Editing a record in hand and putting it back: the sharing store has the edit even before, the upserting store only the listed columns and only if the write succeeds. |
| RegistryServer.SomeOther | internal/registry/server.go:577-583 | The loop over a session's offers yields some other peer's offer, or none exactly if the caller is alone. |
| RegistryServer.Server.constructor | internal/registry/server.go:74-87 | The registry starts with empty stores, all slots free and no candidates. |
| RegistryServer.Server.RegisterProvider | internal/registry/server.go:241-320 | State and reply are those of the registration step, for a known ID, a new one, a failing write and a refusing plugin. |
| RegistryServer.Server.Heartbeat | internal/registry/server.go:322-358 | State and reply are those of the heartbeat step, with and without resources, whose columns RegistryProviders.ProviderAfter states and whose answer RegistryProviders.HeartbeatAnswer. |
| RegistryServer.Server.ListProviders | internal/registry/server.go:360-386 | Marks exactly the listed stale providers offline and returns exactly the listed fresh ones that are online. |
| RegistryServer.Server.CreateSession | internal/registry/server.go:388-452 | State and reply are those of the creation step, in every order of its failures. |
| RegistryServer.Server.GetSession | internal/registry/server.go:454-461 | Answers with the session the prefix resolves to, or the error of the lookup. |
| RegistryServer.Server.TerminateSession | internal/registry/server.go:463-489 | State and reply are those of the termination step; outcome, relay, candidates and slot change only after the write. |
| RegistryServer.Server.ListProviderSessions | internal/registry/server.go:491-506 | Answers with exactly the provider's sessions of that status. |
| RegistryServer.Server.UpdateSessionStatus | internal/registry/server.go:508-548 | State and reply are those of the update step; the slot goes before the write, and a refused "running" has already changed a shared record. Which argument reaches which column is stated by RegistryColumns.ColumnsAfter. |
| RegistryServer.Server.ExchangeCandidates | internal/registry/server.go:552-586 | Keeps the caller's offer as its latest and answers with some other peer's. |
| RegistryServer.Server.ReportConnectionResult | internal/registry/server.go:588-608 | State and reply are those of the report step; the relay is told before the write. |
| Registry.OthersLeaveSessions | internal/registry/server.go:241-386 | Calls about providers, and reads, leave session records, slots and outcomes alone. |
| RegistryReplies.OneSessionReplies | internal/registry/server.go:454-548 | Which of the four errors, or which answer, a call on one session gives, by what a caller can check before. |
| RegistryReplies.ListedSessions | internal/registry/server.go:491-506 | The list holds exactly the provider's sessions of the status asked for. |
| RegistryReplies.ExchangeReplies | internal/registry/server.go:552-586 | An exchange answers with the session's relay token, stores the offer under the caller, and keeps the others. |
| RegistryReplies.CreateReplies | internal/registry/server.go:388-452 | A creation fails for the first of six reasons and stores no record, or stores and answers with a pending record whose columns are the call's arguments and the addresses of the slot it now holds. |
| RegistryColumns.ColumnsAfter | internal/registry/server.go:514-541 | Every call leaves in each column of every session what it writes there or what was there: the status and each non-empty argument of an update, "direct" for a session that begins to run without a mode, "relay" exactly for a report of relay use, "terminated" of a termination; the other ten columns never change. |
| RegistryColumns.ColumnIsLastWritten | internal/registry/server.go:522-533 | In every run each column holds what the last call that wrote it gave, or what it held at the start. |
| RegistryProviders.ProviderAfter | internal/registry/server.go:246-376 | Every call leaves each column of every provider as stated: a new registration renews everything but its origin, a heartbeat its time and what is free, both put it online, and only a listing that asks for it more than 30 s after its last heartbeat takes it offline. |
| RegistryProviders.NewlyRegistered | internal/registry/server.go:285-319 | An unknown provider is stored under the fresh ID, online, with all its capacity free. |
| RegistryProviders.RegisteredAgain | internal/registry/server.go:263-277 | A provider that registers again is answered with its stored record, or with an error exactly if the write or the plugin fails. |
| RegistryProviders.ListedIff | internal/registry/server.go:360-386 | A listing answers with exactly the providers it asks for that are online with a heartbeat at most 30 s old. |
| RegistryProviders.HeartbeatAnswer | internal/registry/server.go:322-358 | A heartbeat is answered with exactly the reported sessions of that provider that are terminated. |
| RegistryProviders.HeardFromLast | internal/registry/server.go:328-345 | In every run a provider's last heartbeat is the time of the last call that was one or registered it again. |
| RegistryProviders.OfflineOnlyAfterSilence | internal/registry/server.go:371-378 | In every run a provider goes offline only by a listing more than 30 s after it was last heard from. |
| RegistryProviders.ToldToEndIff | internal/registry/server.go:349-355 | In every run a provider is told to end a session that began alive exactly if the last call that set its status ended it. |
| RegistryStores.StepAgreesIff | internal/registry/server.go:241-608 | From equal contents both stores make every call answer alike, and hold equal contents afterwards exactly when the call is no refused "running" update that changes its record. |
| RegistryStores.StoresSimulateIff | store/postgres.go:202-222 | Over every run without wildcards, SQL errors and repeated IDs, the sharing and the upserting store are indistinguishable throughout exactly when no such update occurs, although the upserts never rewrite some columns. |
| RegistryStores.RefusedUpdateDiverges | internal/registry/server.go:508-548 | For any pending session such an update is refused by both, leaves the row alone, and leaves the shared record running without an endpoint. |
| RegistrySlots.AgreeStepIff | internal/registry/server.go:388-548 | A call keeps slot holders equal to the sessions not terminated, with the addresses of their slots, exactly when it is none of the three separating kinds. |
| RegistrySlots.StartAgrees | internal/registry/server.go:74-87 | An empty registry satisfies this. |
| RegistrySlots.LiveSessionsHoldSlots | internal/registry/server.go:388-548 | Over every run with new session IDs this holds in all states exactly when no call of the run is of such a kind. |
| RegistrySlots.LiveAddressesDistinct | internal/registry/server.go:131-132 | All provider and renter addresses of slot holders are pairwise different. |
| RegistrySlots.SlotFreedOnlyByOwner | internal/registry/server.go:463-548 | In any state a session loses its slot only to a call that names it: a late or repeated end never frees a slot now owned by another. |
| RegistrySlots.LeakIsPermanent | internal/registry/server.go:137-144 | A slot held without a record is held in every later state of every run. |
| RegistrySlots.FailedCreationLeaks | internal/registry/server.go:411-435 | A creation that fails at writing its record answers with an error and leaves its ID with the slot it took and without a record. |
| RegistrySlots.FailedCreationLeaksForever | internal/registry/server.go:411-435 | That slot is then taken in every later state of every run. |
| RegistrySlots.NoRecordAppears | internal/registry/server.go:388-452 | Only the creation of a session adds a record under its ID. |
| RegistrySlots.ParsePrinted | agent/daemon.go:666-673 | Parsing the printed provider address gives back the minor octet. |
| RegistrySlots.WireGuardPorts | agent/daemon.go:405-480 | Two live sessions on one provider get the same WireGuard port exactly when their minor octets are equal, never within one major octet, and no proxy port is a WireGuard port. |
| RegistryRecords.RecordsStepIff | internal/registry/server.go:463-548 | A call keeps every running session with endpoint and mode and every terminated one with its end, exactly when it is no refused update that reaches a shared record lacking one. |
| RegistryRecords.RecordsStayOk | internal/registry/server.go:463-608 | Over the upserting store every run keeps this, failing writes included. |
| RegistryRecords.OutcomeStepIff | internal/registry/server.go:463-548 | A call records one outcome for a session exactly when it is a written termination of it or a "terminated" update of its record not terminated yet, and never more than one. |
| RegistryRecords.EndStepIff | internal/registry/server.go:463-548 | A call sets the time of a session's end exactly when it records the end and is written, or writes a new record over the session; else the time stays. |
| RegistryRecords.EndsOfRun | internal/registry/server.go:463-548 | Over every run there is one outcome for each call that records the session's end, and the time of the end is the last one written. |
| RegistryRecords.EndRecordedOnceIff | internal/registry/server.go:463-548 | A run records no outcome for a session exactly when none of its calls records its end; then, with new IDs, its time stays. |
| RegistryRecords.EndStaysIff | internal/registry/server.go:463-548 | The time of a session's end stays in every state of a run exactly when no call writes another. |
| RegistryRecords.EndRecordedOnce | agent/daemon.go:636-656 | After a session has ended, any number of repeated "terminated" updates, among calls that neither terminate nor revive it, leave it ended, do not move its end and record no outcome. |
| RegistryRecords.RetryAfterFailedWriteRecordsTwice | internal/registry/server.go:508-548 | If the first such update was not written, its retry records a second outcome, and the end is that of the retry. |
| RegistryRecords.TerminateAgainRecordsAgain | internal/registry/server.go:463-489 | On either store a termination of an ended session is accepted, records another outcome and moves the end. |
| RegistryCleanup.RowAfterCall | internal/registry/server.go:463-608 | Every call keeps the relay token of every session, and a session has ended after it exactly by what the call says and whether it is stored. |
| RegistryCleanup.RelayCallsAfter | internal/registry/server.go:463-608 | A call tells the relay exactly: the invalidation of the token by a written termination, the registration by a report of relay use, nothing else. |
| RegistryCleanup.RelaysEndedStepIff | internal/registry/server.go:508-608 | A call leaves no ended session registered at the relay exactly when it is neither a report of relay use for an ended session nor a "terminated" update of a registered one. |
| RegistryCleanup.RelaysEndedIff | internal/registry/server.go:508-608 | Over every run with new IDs and tokens this holds in all states exactly when no call is one of the two. |
| RegistryCleanup.CandidatesEndedStepIff | internal/registry/server.go:508-586 | A call leaves no ended session with candidates exactly when it is neither an exchange on an ended session nor a "terminated" update of one with candidates. |
| RegistryCleanup.CandidatesEndedIff | internal/registry/server.go:508-586 | Over every run with new IDs this holds in all states exactly when no call is one of the two. |
| RegistryCleanup.AgentStopLeavesBoth | agent/daemon.go:605-634 | The update an agent sends when it stops a session ends it on either store and changes neither its registration at the relay nor its candidates. |
| RegistryCleanup.LateReportRegisters | internal/registry/server.go:588-608 | A report of relay use for an ended session is accepted and registers it at the relay again. |
| Rendezvous.EachGetsTheOther | internal/registry/server.go:552-586 | In every run before the session's termination with two peers, each exchange answers exactly the other side's latest offer, never the caller's own. |
| Rendezvous.CreationOffersRenterKey | internal/registry/server.go:388-447 | A session created under "wireguard_required" starts with the renter's key as its only offer. |
| Rendezvous.AgentFindsPeerKey | agent/daemon.go:440-455 | As long as the renter never submits an empty key, the agent's exchange finds a non-empty one. |
| Rendezvous.RendezvousFromCreation | internal/registry/server.go:388-447 | The three together, over every run from the creation of the session on. |
| Retry.Do | internal/retry/retry.go:31-68 | Every call but the last failed, before the context was done, with attempts left and a wait after it that ran to its end; the last decides between nil, the context's error and the last error, each exactly when it should; one wait lies between any two calls, each within its jitter of the capped doubling, and all together are bounded. |
| Retry.PromisedEnds | internal/retry/retry.go:33-45 | So a loop with a limit ends by it, and makes at least one wait less than calls and at most one less than the limit. |
| Retry.WaitWithin | internal/retry/retry.go:47-59 | If the longest wait fits in 64 bits, each wait whose doubled base fits is within (1 - jitter) and (1 + jitter) of the capped doubling. |
| Retry.JitterEnds | internal/retry/retry.go:52-59 | The middle random number leaves the delay as it is, the smallest takes its whole share away, and no jitter changes nothing. |
| Retry.BackoffIsCappedDoubling | internal/retry/retry.go:47-50 | While the doubled base is a number and fits in 64 bits a delay before jitter is the smaller of it and the cap, and delays do not decrease. |
| Retry.JitterBound | internal/retry/retry.go:52-59 | Jitter moves a delay by at most its share of the cap and never across zero. |
| Retry.WaitBound | internal/retry/retry.go:47-59 | From a delay that is not negative no wait exceeds the cap with its jitter, also when the sum overflows, which the fallback to the base delay catches. |
| Retry.SaturatingWaitBound | internal/retry/retry.go:47-59 | Where a delay that does not fit or is no number becomes one that is not negative, no wait after any number of attempts exceeds the cap with its jitter. |
| Retry.WaitBoundIff | internal/retry/retry.go:47-59 | Where it becomes the smallest integer, the wait after attempt k stays within the cap with its jitter for every random number exactly when the base doubled k times is a number and fits in 64 bits. |
| Retry.TotalWaitBound | internal/retry/retry.go:31-68 | If the last delay is a number and fits in 64 bits, all waits of a run with a limit of n calls take at most n - 1 times the cap with its jitter. |
| Retry.TotalWaitBoundIff | internal/retry/retry.go:31-68 | Where such a delay becomes the smallest integer, that bound holds in all runs of failing calls exactly when the last delay is a number and fits. |
| Retry.WhenDoublesTo64 | internal/retry/retry.go:47 | A base of zero is a number that fits exactly up to 1023 doublings; any other base stops fitting at 63 at the latest. |
| AgentDaemon.Daemon.StartSession | agent/daemon.go:344-588 | For every outcome of the foreign calls: a second start does nothing; a failed one leaves the reservations and goroutines as they were and under its name exactly what it made and its undo calls did not remove; a successful one can be undone through its record. |
| AgentDaemon.Daemon.UndoStart | agent/daemon.go:360-376 | Gives up the reservation, cancels, and removes what the record shows, as far as the undo calls succeed; nothing of another name changes. |
| AgentDaemon.Daemon.StopSession | agent/daemon.go:605-634 | Forgets the session and all of its goroutines, including a relay client behind the SSH proxy's cancel function; an unknown session changes nothing. |
| AgentDaemon.Daemon.StartThenStop | agent/daemon.go:344-634 | A start, failed or not, followed by a stop leaves the host as it was, except for a container that `StartContainer` left behind. |
| AgentAlone.StartAlone | agent/daemon.go:344-588 | A start of the machine that nothing interrupts does to host, record and reservations what the class's method does, for every outcome of the foreign calls and of the undo calls. |
| AgentAlone.StopAlone | agent/daemon.go:605-634 | A stop of the machine that nothing interrupts does what the class's method does. |
| AgentOutcomes.ReservationsIff | agent/daemon.go:348-376 | Over every interleaving of polls, starts and stops, each start that holds is the one the table lists in all states exactly when no failing start gives up another's reservation. |
| AgentOutcomes.OneStartPerSession | agent/daemon.go:348-358 | However polls, starts and stops interleave in such a run, at most one start holds for a session. |
| AgentOutcomes.AccountedIff | agent/daemon.go:344-634 | In all states of a run each container, file, goroutine and tunnel is in the record of a start that no undoing has gone past, or is itself what an undo call failed to remove or a container never recorded, exactly when no start acquires something after a stop of it has gone past undoing that. |
| AgentOutcomes.EndedHoldsNothing | agent/daemon.go:360-376 | In such a run a start that was undone, by itself or by a stop, holds no reservation and no goroutine, and a container, a file or a tunnel only if that very thing was left: the call to remove it failed while it was there, or the container was never recorded. |
| AgentOutcomes.RunningStopsSuffice | agent/daemon.go:605-634 | If every stop finds its session running, no reservation is taken from another start and no start outruns a stop. |
| AgentInterference.TouchesOthersIff | agent/daemon.go:360-376 | A step changes what another start holds exactly when what is known by its ID, name or cancel function is another's. |
| AgentInterference.ClearRunsLeaveOthers | agent/daemon.go:344-634 | In every run where no start begins while another of its name is under way or has left something, stops at any moment included, no step touches what another start holds. |
| AgentInterference.EndedHoldsExactlyLeft | agent/daemon.go:344-634 | In such a run that outruns no stop, a start that was undone holds exactly what was left of it, resource by resource. |
| AgentInterference.RestartLosesTunnel | agent/daemon.go:360-376 | From any state in which a session can start, a failing start and a restart during its undo can end with the session running without its tunnel and its configuration. |
| AgentInterference.EarlyStopIsOutrun | agent/daemon.go:605-634 | From any such state a stop that comes before the container is up can finish first, and the session then runs with all it acquired and without a reservation. |
| AgentInterference.EarlyStopLosesReservation | agent/daemon.go:360-376 | From any such state a start that was stopped early and then fails can take the next start's reservation, so that two starts hold for the session. |

## Left out

- Unsynchronised memory accesses: each access to a shared field is one atomic step.
- Truncation of UDP datagrams at the 65536-byte buffers, and the write deadlines of sockets.
- SQL errors on reads: they end a call before it changes anything. Foreign-key and range errors of writes are among the
  failing writes.
- The order of listed providers and sessions: answers are sets.
- A restart of the registry on a non-empty database, which does not rebuild slots and candidates: runs start empty.
- A registry without a relay: calls to the relay are always made.
- The relay address and port in the answers of the registry, gRPC status texts, logging, and the slicing of IDs for log lines.
- Hole punching, the STUN server, key generation and candidate gathering: outcomes only.
- Docker, wg-quick and the per-session Docker network: outcomes of the calls, not their insides. Session IDs shorter than 12
  characters, on which the name slicing fails.
- Retry.Do: floating-point rounding is not modelled, since factors are reals; it changes products with the jitter, and delays
  above 2^53 ns, about 104 days. A loop without a limit is followed for any finite number of turns.
- Retry.BackoffIsCappedDoubling: as Retry.Do, for a base above 2^53 ns.
- Retry.JitterBound: real arithmetic stands for floating point, so a bound may be off by the rounding of a product.
- Retry.WaitBound: as Retry.JitterBound.
- Retry.WaitWithin: as Retry.JitterBound.
- Retry.JitterEnds: as Retry.JitterBound.
- Retry.SaturatingWaitBound: as Retry.JitterBound.
- Retry.WaitBoundIff: as Retry.JitterBound.
- Retry.TotalWaitBound: as Retry.JitterBound.
- Retry.TotalWaitBoundIff: as Retry.JitterBound.
- RelayIsolation.IsolationIff: about known addresses; for written packets only the direction of RelayIsolation.Isolation holds,
  since a run may stop before it writes.
- RelayClients.ClientToClientIff: its relay sends everything on; RelayPayload.EndToEnd is about every run of the relay.
- The command line, the serve wiring, system probing, credentials files, dashboards and the health endpoint.
