# Badger, verified

Badger is a tunnel: a server multiplexes public HTTP requests over one WebSocket to a command-line client, which sends
them to a local port and streams the answers back. This project models the parts of it that have to be right in every
interleaving and proves them in Dafny 4.11. `dafny verify dfyconfig.toml` checks everything.

## What is modelled

**The HTTP data plane.** `ExchangeQueue` is one exchange on the server: start future, bounded buffer, parked consumer,
failure. `Coordinator` is the registry of exchanges, as value steps and as the class that updates it in place.
`Forwarder` is the command-line end, `ForwardingService` frames requests, `BodyCodec` and `Base64` carry bytes.
`DataPlane` joins both ends by two in-order channels and proves that every exchange, whatever else is multiplexed, gives
the local application exactly its request and its consumer exactly its response. The receivers never look at the
`sequence` field, so order is the channel's. `Protocol` prints and parses the thirteen message kinds, and `Wire` shows
that every frame sent in any run is parsed to the message that was sent.

**Headers and cookies.** `PercentEncoding`, `CookieHeader` and `RequestHeaders` follow a public request's headers from
the edge to the local target. Two cookie names do not survive: an empty name, and `__proto__`, because assigning a string
to that key of a plain object sets no property. The round trip is therefore stated with that exact condition.

**The tunnel registry.** `TunnelRegistry` keeps three indexes and the parked tunnels and refines one map from id to live
or parked; `TunnelManager` runs the reclaim protocol over it, and `PublicUrl` builds and reads the URLs. Nothing in the
code checks that two ids have different slugs, so saving is proved consistent exactly when the slug is free, and ids are
taken to be minted fresh. A base domain that has its own port never matches its own subdomain hosts; the host round trip
says exactly when it works.

**Connections and limits.** `CliClient` (mailbox and retry), `RetryMachine` (how many of its attempts run),
`DashboardClient` (stale-socket-safe reconnect), `Heartbeat` (timed eviction) and `RateLimiter` (sliding window) are state
machines with invariants over every run. A limit of zero is the one case where the limiter's advertised wait never helps.
`disconnect` clears the in-flight flag of an attempt that is still dialling, so a caller that connects again right after it
can have a retry armed, and a second attempt made, beside the first; `RetryMachine` says exactly when.

**Traffic capture.** `TrafficBody` is the truncation algebra, `Storage` and `TrafficStore` the bounded log over a
key/value map, `TrafficRecorder` the per-exchange chains, `Replay` the way back from a record to a request, `Ranking` and
`Statistics` the figures. Listing with a limit below one returns one record, because the limit is looked at only after a
record was collected; the documentation promises the limit, and the lemma says exactly when it holds. Storage trims keys,
so an id that ends in white space shares a key with another; `TrafficStore.KeyFaithful` says so, and the recorder's results
take ids with distinct keys.

## How it is written

What the source updates in place is a class here, with methods that change the same fields; each method is proved equal to
a function on values, and the properties over whole runs are lemmas about those functions. An `async` method is cut at its
waits: each synchronous stretch is one method or one step, and a step may come in any order the waits allow. Plain records
are maps, with the order of their properties a parameter wherever a loop visits them. Strings are sequences of Unicode
scalar values; the length bound on protocol strings counts UTF-16 units. The sort of the host is an insertion sort, stable
and correct for every consistent comparator, and a locale comparison is a parameter that is a total order up to ties. The
95th percentile uses exact arithmetic: the rounded product `0.95 * n` never differs from it in its ceiling.

## Model

| member | source | states |
|---|---|---|
| `ExchangeQueue.DeliverSound` | apps/server/src/http-forward/http-exchange.coordinator.ts:164-244 | Every response frame keeps the queue invariant: what was yielded, then the chunk in a resumed waiter's hand, then the buffer are exactly what was accepted; a parked waiter means an empty buffer, no end and no failure; `bufferedBytes` is the buffered sum and within the ceiling. |
| `ExchangeQueue.PullSound` | apps/server/src/http-forward/http-exchange.coordinator.ts:246-272 | A turn of the body generator keeps the queue invariant. |
| `ExchangeQueue.ResumeSound` | apps/server/src/http-forward/http-exchange.coordinator.ts:263-278 | Continuing a waiting generator keeps the queue invariant. |
| `ExchangeQueue.SettledForGood` | apps/server/src/http-forward/http-exchange.coordinator.ts:164-225 | The start future settles at most once, a failure is never replaced, nothing is accepted after the end, and yielded bytes are never taken back. |
| `ExchangeQueue.DrainFinishes` | apps/server/src/http-forward/http-exchange.coordinator.ts:246-279 | An ended, unfailed exchange whose consumer, wherever it stands, continues from its wait and keeps pulling gives every accepted chunk in order and then returns. |
| `Coordinator.StepInv` | apps/server/src/http-forward/http-exchange.coordinator.ts:70-162 | Registering, delivering, failing, completing, pulling and resuming keep every exchange sound, every registered exchange neither ended nor failed, and their number within the limit. |
| `Coordinator.RunInv` | apps/server/src/http-forward/http-exchange.coordinator.ts:70-279 | The same over every sequence of these events. |
| `Coordinator.Reachable` | apps/server/src/http-forward/http-exchange.coordinator.ts:46-279 | So it holds in every state reachable from the empty registry. |
| `Coordinator.OtherExchangesUntouched` | apps/server/src/http-forward/http-exchange.coordinator.ts:117-153 | A frame changes no exchange but the one whose id it carries. |
| `Coordinator.PendingExchange.SettleFailure` | apps/server/src/http-forward/http-exchange.coordinator.ts:205-225 | Failing a record in place is the specified failure: first reason kept, body ended, waiter woken, unsettled start rejected. |
| `Coordinator.PendingExchange.Next` | apps/server/src/http-forward/http-exchange.coordinator.ts:246-272 | One `next()` in place is the specified pull, and returns exactly the chunk it adds to the yielded ones. |
| `Coordinator.PendingExchange.Continue` | apps/server/src/http-forward/http-exchange.coordinator.ts:263-278 | The continuation after a wait is the specified resume. |
| `Coordinator.HttpExchangeCoordinator.BeginExchange` | apps/server/src/http-forward/http-exchange.coordinator.ts:70-109 | Succeeds exactly when the id is not registered and the limit leaves room, adds one fresh exchange, and otherwise changes nothing and says why. |
| `Coordinator.HttpExchangeCoordinator.FailExchange` | apps/server/src/http-forward/http-exchange.coordinator.ts:205-225 | Fails the exchange of the handle and forgets the registration of its id, touching no other; of a stale handle whose id was registered anew, that drops the newer registration without settling it. |
| `Coordinator.HttpExchangeCoordinator.PushBody` | apps/server/src/http-forward/http-exchange.coordinator.ts:227-244 | Hands the chunk to the parked waiter, or buffers it, or fails the exchange when the buffer ceiling would be passed. |
| `Coordinator.HttpExchangeCoordinator.OnResponseStart` | apps/server/src/http-forward/http-exchange.coordinator.ts:164-174 | The first start resolves the future; a second one fails the exchange. |
| `Coordinator.HttpExchangeCoordinator.OnResponseEnd` | apps/server/src/http-forward/http-exchange.coordinator.ts:185-198 | Ends the body, wakes a parked waiter and forgets the registration. |
| `Coordinator.HttpExchangeCoordinator.DeliverFrame` | apps/server/src/http-forward/http-exchange.coordinator.ts:117-153 | The whole registry after a frame is the specified one, and the frame counts as consumed exactly when a registered exchange has its id and it is of the response plane. |
| `Coordinator.HttpExchangeCoordinator.CompleteExchange` | apps/server/src/http-forward/http-exchange.coordinator.ts:160-162 | Only the registration goes. |
| `Forwarder.AdvanceGrammar` | apps/cli/src/services/request-forwarder.ts:122-214 | Every way a local exchange can go on keeps its frames in the grammar: nothing, or an error, or a start, chunks numbered 0, 1, 2 and so on, then at most one end or error, with `hasBody` telling whether there is a first chunk. |
| `Forwarder.NoChunkAfterCancel` | apps/cli/src/services/request-forwarder.ts:110-120 | For every forwarder and every continuation: after a cancel is processed no chunk of that exchange is sent until the id is used for another request. |
| `Forwarder.CancelSilences` | apps/cli/src/services/request-forwarder.ts:110-120 | Processing a cancel leaves nothing of its id being assembled and every task of it aborted or over, exactly unless a second request of the same id is being assembled while the first still runs. |
| `Forwarder.SilencedForGood` | apps/cli/src/services/request-forwarder.ts:62-196 | That stays so, and no chunk of the id is sent, in every continuation without another request of that id. |
| `Forwarder.RunInv` | apps/cli/src/services/request-forwarder.ts:62-214 | Over every interleaving of requests, cancels and local progress each exchange's frames on the channel are exactly those of its grammar, and an unfinished task that alone answers its id is the one a cancel finds. |
| `Forwarder.Reachable` | apps/cli/src/services/request-forwarder.ts:40-214 | So it holds in every state reachable from the start. |
| `Forwarder.OtherTasksUntouched` | apps/cli/src/services/request-forwarder.ts:62-120 | A frame or local event of one exchange never changes another one's task. |
| `Forwarder.RequestForwarder.HandleFrame` | apps/cli/src/services/request-forwarder.ts:62-120 | The in-place handler is the specified reassembly, for every frame kind. |
| `Forwarder.RequestForwarder.Respond` | apps/cli/src/services/request-forwarder.ts:122-132 | Starts one task with the concatenated body, absent when empty, and tracks it. |
| `Forwarder.RequestForwarder.StreamChunk` | apps/cli/src/services/request-forwarder.ts:171-196 | One turn of the loop sends the chunk's pieces with consecutive numbers, or nothing once aborted. |
| `Forwarder.RequestForwarder.LocalResponse` | apps/cli/src/services/request-forwarder.ts:148-181 | Start frame, then the first chunk or the end, in the task and on the channel alike. |
| `Forwarder.RequestForwarder.LocalFailure` | apps/cli/src/services/request-forwarder.ts:133-146 | An error frame unless the exchange was aborted, and the task is no longer tracked. |
| `Forwarder.RequestForwarder.LocalSettled` | apps/cli/src/services/request-forwarder.ts:122-196 | Any settlement of a task's pending wait moves the whole forwarder as specified. |
| `ForwardingService.SendRequestFrames` | apps/server/src/http-forward/http-forwarding.service.ts:172-217 | The frames of a public request are a start, its body cut into chunks numbered from zero, and an end. |
| `BodyCodec.SplitBytes` | apps/cli/src/utils/body-codec.ts:46-58 | The cut pieces are the consecutive slices of the body, none for an empty one. |
| `BodyCodec.PiecesConcat` | apps/server/src/http-forward/body-codec.ts:46-61 | Cutting loses nothing: the pieces concatenate to the body, each non-empty and within the size. |
| `BodyCodec.ConcatChunks` | apps/cli/src/utils/body-codec.ts:66-82 | The chunks' bytes in order, absent when there are none. |
| `BodyCodec.ChunkRoundTrip` | apps/cli/src/utils/body-codec.ts:14-37 | Decoding an encoded chunk gives its bytes back. |
| `Base64.RoundTrip` | apps/server/src/http-forward/body-codec.ts:14-37 | For every byte string, base64 decoding undoes base64 encoding (section 4 of RFC 4648). |
| `DataPlane.StepInv` | apps/server/src/http-forward/http-forwarding.service.ts:95-217 | Every step of server, CLI, channel, consumer or abort keeps both directions in step with the frames sent and read. |
| `DataPlane.RequestPreserved` | apps/cli/src/services/request-forwarder.ts:81-132 | In every run with any number of multiplexed exchanges, each local request is one public request with exactly its head and body bytes, served once. |
| `DataPlane.RequestServed` | apps/cli/src/services/request-forwarder.ts:81-132 | In every run the local application is given a request, whole and by exactly one task, exactly when all its frames have been read. |
| `DataPlane.ResponsePreserved` | apps/server/src/http-forward/http-exchange.coordinator.ts:117-279 | In every run a consumer has seen a prefix of what its own local response produced, its own response head, and, if it finished without failure, every byte. |
| `DataPlane.ResponseFinishes` | apps/server/src/http-forward/http-exchange.coordinator.ts:185-279 | In every run, for every exchange the server has seen end without failure, wherever its consumer stands and whatever else is in flight: pulling on yields exactly the bytes of its own task's local response and then finishes. |
| `DataPlane.ResponseEnds` | apps/server/src/http-forward/http-exchange.coordinator.ts:117-198 | In every run an exchange that did not fail has ended exactly when its own completed task's frames have all arrived, however many frames of others are unread. |
| `DataPlane.NoChunkAfterCancel` | apps/cli/src/services/request-forwarder.ts:110-120 | In every run, once the client has processed a cancel of an exchange, no continuation sends another chunk of it. |
| `Wire.WireTransparent` | packages/shared/src/types/parse-protocol-message.ts:25-69 | In every run every frame either end sends survives printing to JSON and the other end's parser unchanged. |
| `TunnelRegistry.SaveConsistent` | apps/server/src/tunnel/memory-tunnel.repository.ts:29-50 | Saving keeps the indexes consistent exactly when no tunnel that stays has the new id's slug. |
| `TunnelRegistry.SaveSlots` | apps/server/src/tunnel/memory-tunnel.repository.ts:29-50 | Saving is, on the abstract map, replacing the id's slot and dropping the tunnel its client gives up. |
| `TunnelRegistry.RemoveConsistent` | apps/server/src/tunnel/memory-tunnel.repository.ts:58-72 | Removing a live or parked tunnel keeps the indexes consistent and removes exactly that id. |
| `TunnelRegistry.ParkConsistent` | apps/server/src/tunnel/memory-tunnel.repository.ts:96-126 | Parking keeps the indexes consistent, keeps the slug reserved and changes only that slot. |
| `TunnelRegistry.ClaimConsistent` | apps/server/src/tunnel/memory-tunnel.repository.ts:139-182 | Claiming a parked tunnel back never clashes with another slug. |
| `TunnelRegistry.ConsistentWellFormed` | apps/server/src/tunnel/memory-tunnel.repository.ts:17-50 | Consistent indexes stand for a map where each client has at most one tunnel and each slug one owner. |
| `TunnelRegistry.MemoryTunnelRepository.Save` | apps/server/src/tunnel/memory-tunnel.repository.ts:29-50 | The four maps after a save stand for the saved abstract map. |
| `TunnelRegistry.MemoryTunnelRepository.Remove` | apps/server/src/tunnel/memory-tunnel.repository.ts:58-72 | Removes exactly the id and reports the live tunnel that went, if any. |
| `TunnelRegistry.MemoryTunnelRepository.RemoveByClient` | apps/server/src/tunnel/memory-tunnel.repository.ts:80-87 | Removes the client's one tunnel, or nothing. |
| `TunnelRegistry.MemoryTunnelRepository.OrphanByClient` | apps/server/src/tunnel/memory-tunnel.repository.ts:96-126 | Parks the client's one tunnel with the time, or nothing. |
| `TunnelRegistry.MemoryTunnelRepository.Reclaim` | apps/server/src/tunnel/memory-tunnel.repository.ts:139-182 | Gives a parked tunnel back only for its port and owner and within the window; an expired one is dropped. |
| `TunnelRegistry.MemoryTunnelRepository.PurgeExpiredOrphans` | apps/server/src/tunnel/memory-tunnel.repository.ts:191-205 | Drops exactly the parked tunnels past the window and returns each of them once. |
| `TunnelRegistry.MemoryTunnelRepository.FindById` | apps/server/src/tunnel/memory-tunnel.repository.ts:213-215 | Agrees with a scan of the abstract map for a live tunnel. |
| `TunnelRegistry.MemoryTunnelRepository.FindByClient` | apps/server/src/tunnel/memory-tunnel.repository.ts:223-230 | Finds the tunnel bound to the client, and nothing exactly when none is. |
| `TunnelRegistry.MemoryTunnelRepository.FindBySlug` | apps/server/src/tunnel/memory-tunnel.repository.ts:240-247 | Agrees with a scan for the live tunnel with that slug; a parked one is not found. |
| `TunnelManager.RunWellFormed` | apps/server/src/tunnel/tunnel.manager.ts:68-153 | Over every run of creates, unregisters and detaches with fresh ids each client has one tunnel and each slug one owner. |
| `TunnelManager.ClientOperation` | apps/server/src/tunnel/tunnel.manager.ts:136-153 | A disconnect or unregister of a client touches only its own tunnel. |
| `TunnelManager.StableReconnect` | apps/server/src/tunnel/tunnel.manager.ts:68-153 | A detached tunnel is restored under the same id, for the same port and owner, exactly when the create comes within the window, whatever others did meanwhile; until then it is unroutable and its slug nobody else's. |
| `TunnelManager.GrantNeverChanges` | apps/server/src/tunnel/tunnel.manager.ts:68-122 | With ids minted once, no run changes the port or owner behind an id. |
| `TunnelManager.RoutesBack` | apps/server/src/tunnel/public-url.ts:67-190 | A live tunnel's path-mode URL plus a local path, and its subdomain host, route to that tunnel with exactly that path. |
| `TunnelManager.TunnelManager.PurgeExpired` | apps/server/src/tunnel/tunnel.manager.ts:163-169 | Publishes one expiry event for each purged tunnel, in order, and purges exactly the expired ones. |
| `TunnelManager.TunnelManager.Open` | apps/server/src/tunnel/tunnel.manager.ts:68-103 | Rejects exactly the invalid ports without a trace; otherwise purges, restores or registers, and publishes the expiries and then the opening. |
| `TunnelManager.TunnelManager.UnregisterTunnel` | apps/server/src/tunnel/tunnel.manager.ts:124-134 | Removes exactly that id and publishes a closing exactly when it was live. |
| `TunnelManager.TunnelManager.UnregisterBySocket` | apps/server/src/tunnel/tunnel.manager.ts:136-144 | Removes the client's one tunnel and publishes its closing; without one nothing changes. |
| `TunnelManager.TunnelManager.DetachClient` | apps/server/src/tunnel/tunnel.manager.ts:146-153 | Parks the client's one tunnel and publishes its closing; without one nothing changes. |
| `PublicUrl.PathRoundTrip` | apps/server/src/tunnel/public-url.ts:67-161 | The path-mode URL followed by a local path parses back to the tunnel id and that path. |
| `PublicUrl.ParsedPathIsTunnelPath` | apps/server/src/tunnel/public-url.ts:138-161 | Whatever path the parser accepts is the path-mode form of what it returns. |
| `PublicUrl.SlugOfTunnelId` | apps/server/src/tunnel/public-url.ts:37-39 | The slug of a tunnel id is its first sixteen hex digits in lower case. |
| `PublicUrl.HostRoundTrip` | apps/server/src/tunnel/public-url.ts:79-190 | The subdomain host, with or without a port, yields the slug exactly when the base domain has no port of its own. |
| `CliClient.WaitForSafe` | apps/cli/src/services/websocket-client.ts:341-380 | A wait takes the earliest buffered match and leaves the rest in order, or waits exactly when nothing matches. |
| `CliClient.StepSafe` | apps/cli/src/services/websocket-client.ts:207-594 | No event of the socket, the timers or the caller can make a waiter coexist with a matching buffered message, consume a message twice or out of order, or leave a retry timer armed while the in-flight flag is set. |
| `CliClient.RunSafe` | apps/cli/src/services/websocket-client.ts:207-594 | The same over every sequence of events. |
| `CliClient.Reachable` | apps/cli/src/services/websocket-client.ts:163-594 | So it holds in every state reachable from a new client. |
| `CliClient.StoppedForGood` | apps/cli/src/services/websocket-client.ts:285-312 | After `disconnect()` no event arms a retry timer until the caller connects again. |
| `CliClient.BadgerWebSocketClient.WaitForMessage` | apps/cli/src/services/websocket-client.ts:341-380 | The in-place wait is the specified one: take the first match, refuse a second waiter, or wait. |
| `CliClient.BadgerWebSocketClient.DeliverMessage` | apps/cli/src/services/websocket-client.ts:472-494 | A message goes to the forwarding handler, to the matching waiter or to the inbox; a stray pong is dropped. |
| `CliClient.BadgerWebSocketClient.CloseConnection` | apps/cli/src/services/websocket-client.ts:285-312 | Disconnecting in place is the specified step: the close is marked as intended, no timer or attempt is left, and the waiter and socket go. |
| `CliClient.BadgerWebSocketClient.ScheduleRetry` | apps/cli/src/services/websocket-client.ts:520-539 | A retry timer is armed only when retries are wanted, none is armed and the in-flight flag is clear. |
| `CliClient.BadgerWebSocketClient.DisposeSocket` | apps/cli/src/services/websocket-client.ts:584-594 | The socket loses its listeners and the inbox is emptied. |
| `CliClient.BadgerWebSocketClient.RuntimeClose` | apps/cli/src/services/websocket-client.ts:431-451 | A close drops the waiter and the socket and schedules a retry unless the close was intended; a waiting `disconnect` then sets the state to disconnected, and whoever waited continues. |
| `CliClient.BadgerWebSocketClient.LoseSocket` | apps/cli/src/services/websocket-client.ts:437-446 | The close handler itself: waiter, socket and inbox go, and a retry is scheduled unless the close was intended. |
| `CliClient.BadgerWebSocketClient.RetryTimerFires` | apps/cli/src/services/websocket-client.ts:541-575 | Firing the timer starts exactly one attempt, or none when the client was stopped. |
| `RetryMachine.OneRetryAtATime` | apps/cli/src/services/websocket-client.ts:520-575 | In every run in which the caller does not connect again, after a disconnect, while an attempt is still dialling: at most one reconnect attempt is under way, and none while a retry timer is armed. |
| `RetryMachine.ConnectExact` | apps/cli/src/services/websocket-client.ts:207-217 | That condition is exact: at any point of such a run a `connect()` leaves all continuations with one retry at a time if and only if it is ignored, or no attempt is still dialling after a disconnect. |
| `RetryMachine.CarelessConnect` | apps/cli/src/services/websocket-client.ts:285-300 | A run that reaches a point where the condition fails: a disconnect while a retry waits for its credentials. |
| `DashboardClient.RunSafe` | packages/shared/src/dashboard/dashboard-live-client.ts:105-230 | Over every sequence of events an armed timer means no current socket, and a started client that was not stopped has a socket or a timer. |
| `DashboardClient.Reachable` | packages/shared/src/dashboard/dashboard-live-client.ts:61-230 | So it holds in every state reachable from a new client. |
| `DashboardClient.OnlyCurrentDispatches` | packages/shared/src/dashboard/dashboard-live-client.ts:126-131 | In every run exactly the frames are dispatched that arrive on the socket current at the time, in order, and exactly its pings on an open socket answered; once a newer socket was heard no older one ever is. |
| `DashboardClient.QuietAfterDisconnect` | packages/shared/src/dashboard/dashboard-live-client.ts:153-161 | After a disconnect nothing but the caller creates a socket, arms a timer or hears a frame. |
| `DashboardClient.StaleCloseIgnored` | packages/shared/src/dashboard/dashboard-live-client.ts:133-143 | In every run the current socket stays exactly as long as it does not close itself, the caller does not disconnect and no connect finds it closing; a late close of a replaced socket never matters. |
| `DashboardClient.DashboardLiveClient.OpenConnection` | packages/shared/src/dashboard/dashboard-live-client.ts:105-148 | Connecting in place is the specified step: an open or connecting socket is kept, otherwise the timer is cleared and a socket made. |
| `DashboardClient.DashboardLiveClient.CloseConnection` | packages/shared/src/dashboard/dashboard-live-client.ts:153-161 | Disconnecting in place is the specified step. |
| `DashboardClient.DashboardLiveClient.HandleOpen` | packages/shared/src/dashboard/dashboard-live-client.ts:118-124 | An open in place is the specified step: it is noted for the current socket only. |
| `DashboardClient.DashboardLiveClient.HandleMessage` | packages/shared/src/dashboard/dashboard-live-client.ts:126-131 | A message in place is the specified step, with a pong for a ping on an open socket. |
| `DashboardClient.DashboardLiveClient.HandleClose` | packages/shared/src/dashboard/dashboard-live-client.ts:133-143 | A close in place is the specified step. |
| `DashboardClient.DashboardLiveClient.TimerFires` | packages/shared/src/dashboard/dashboard-live-client.ts:212-223 | The timer in place reconnects once. |
| `Heartbeat.RunWatched` | apps/server/src/gateway/heartbeat.monitor.ts:41-126 | In every run the timer runs exactly when some client is tracked, and every tracked client's last sign is recent enough. |
| `Heartbeat.TracksLastSign` | apps/server/src/gateway/heartbeat.monitor.ts:41-69 | What is recorded for a client is the time of its last registration or beat. |
| `Heartbeat.SilenceBounds` | apps/server/src/gateway/heartbeat.monitor.ts:85-126 | A sweep terminates exactly the clients silent for more than the timeout, and nobody stays tracked past last sign, timeout and one sweep interval. |
| `Heartbeat.HeartbeatMonitor.RegisterClient` | apps/server/src/gateway/heartbeat.monitor.ts:41-44 | Records the client and starts the timer if it was not running. |
| `Heartbeat.HeartbeatMonitor.BeatClient` | apps/server/src/gateway/heartbeat.monitor.ts:52-56 | Refreshes a tracked client and no other. |
| `Heartbeat.HeartbeatMonitor.UnregisterClient` | apps/server/src/gateway/heartbeat.monitor.ts:63-69 | Forgets the client and stops the timer with the last one. |
| `Heartbeat.HeartbeatMonitor.SweepClients` | apps/server/src/gateway/heartbeat.monitor.ts:105-126 | Terminates and forgets exactly the overdue clients and stops the timer when none is left. |
| `RateLimiter.StateIsHistory` | apps/server/src/security/sliding-window-rate-limiter.ts:40-64 | The pruned timestamps answer for the whole history of allowed attempts. |
| `RateLimiter.WindowBound` | apps/server/src/security/sliding-window-rate-limiter.ts:40-64 | For every history on a non-decreasing clock every half-open interval one window long holds at most `limit` allowed attempts. |
| `RateLimiter.RejectedIffFull` | apps/server/src/security/sliding-window-rate-limiter.ts:44-55 | An attempt is rejected exactly when `limit` allowed attempts lie in the window that ends with it. |
| `RateLimiter.RetryAfterExact` | apps/server/src/security/sliding-window-rate-limiter.ts:46-55 | For a limit of at least one the advertised wait is exactly the earliest wait after which an attempt succeeds. |
| `RateLimiter.NothingAllowedAtZero` | apps/server/src/security/sliding-window-rate-limiter.ts:46-55 | With a limit of zero no wait ever helps. |
| `RateLimiter.KeysIndependent` | apps/server/src/security/sliding-window-rate-limiter.ts:40-43 | Attempts on one key never change the answer for another. |
| `RateLimiter.SlidingWindowRateLimiter.Attempt` | apps/server/src/security/sliding-window-rate-limiter.ts:40-64 | The in-place attempt decides and keeps timestamps as specified and leaves every other key alone. |
| `RateLimiter.SlidingWindowRateLimiter.Reset` | apps/server/src/security/sliding-window-rate-limiter.ts:71-73 | Forgets one key only. |
| `TrafficBody.SnapshotMeaning` | packages/shared/src/traffic/traffic-body.ts:38-73 | A snapshot keeps the length and exactly the first bytes up to the cap, and is flagged truncated exactly when fewer bytes are kept. |
| `TrafficBody.CreatedTrafficBody` | packages/shared/src/traffic/traffic-body.ts:38-59 | A body is refused exactly for a negative cap, and otherwise keeps its length and the bytes that fit, flagged exactly when some do not. |
| `TrafficBody.CapOfSnapshot` | packages/shared/src/traffic/traffic-body.ts:82-95 | Capping a snapshot again is one snapshot with the smaller cap. |
| `TrafficBody.NestedCaps` | packages/shared/src/traffic/traffic-body.ts:82-95 | Any number of nested caps is one snapshot with the smallest. |
| `TrafficBody.ObserveBody` | apps/server/src/http-forward/http-forwarding.service.ts:219-256 | However a response is chunked, what is recorded is the snapshot of the whole concatenated body, and every chunk is passed on when the response has a body. |
| `Storage.MemoryStorage.Save` | packages/shared/src/storage/memory-storage.ts:17-27 | Puts the value under the trimmed namespace and key and nowhere else; blank ones are refused. |
| `Storage.MemoryStorage.Get` | packages/shared/src/storage/memory-storage.ts:32-45 | Gives what is stored under the trimmed key. |
| `Storage.MemoryStorage.Delete` | packages/shared/src/storage/memory-storage.ts:83-101 | Removes that key only and says whether it was there. |
| `Storage.MemoryStorage.Clear` | packages/shared/src/storage/memory-storage.ts:106-119 | Clears one namespace, or all. |
| `TrafficStore.SaveRefines` | packages/shared/src/traffic/storage-traffic-record-store.ts:53-68 | Saving keeps order index and records in step and within the bound, and is overwriting in place, or appending and dropping the oldest, on the log. |
| `TrafficStore.UpdateRefines` | packages/shared/src/traffic/storage-traffic-record-store.ts:73-93 | Updating keeps index and records in step and patches exactly one entry of the log, if it is there. |
| `TrafficStore.RunSurvivors` | packages/shared/src/traffic/storage-traffic-record-store.ts:53-93 | After every run the index has no duplicates, names exactly the stored records, is within `maxRecords` and holds exactly the most recently inserted ids. |
| `TrafficStore.ListedTakesLimit` | packages/shared/src/traffic/storage-traffic-record-store.ts:105-141 | Listing takes the limit from the filtered newest-first log exactly when the limit is at least one or nothing matches; a smaller limit acts as one. |
| `TrafficStore.KeyFaithful` | packages/shared/src/storage/memory-storage.ts:17-45 | A record's key survives the storage's trimming exactly when its id does not end in white space. |
| `TrafficStore.StorageTrafficRecordStore.FindById` | packages/shared/src/traffic/storage-traffic-record-store.ts:98-100 | Finds the record stored for the id. |
| `TrafficStore.StorageTrafficRecordStore.EvictOverflow` | packages/shared/src/traffic/storage-traffic-record-store.ts:175-184 | Deletes exactly the oldest records beyond the bound and keeps the rest of the order. |
| `TrafficStore.StorageTrafficRecordStore.SaveRecord` | packages/shared/src/traffic/storage-traffic-record-store.ts:53-68 | The stored index and records after a save stand for the saved log. |
| `TrafficStore.StorageTrafficRecordStore.UpdateRecord` | packages/shared/src/traffic/storage-traffic-record-store.ts:73-93 | Returns the patched record exactly when one was stored, and stores it. |
| `TrafficStore.StorageTrafficRecordStore.List` | packages/shared/src/traffic/storage-traffic-record-store.ts:105-141 | Returns the newest matching records up to the limit in force, with bodies stripped unless asked for. |
| `TrafficRecorder.TrafficRecorder.Start` | packages/shared/src/traffic/traffic-recorder.ts:42-61 | The recorder is subscribed afterwards, once, and nothing else changes. |
| `TrafficRecorder.TrafficRecorder.Stop` | packages/shared/src/traffic/traffic-recorder.ts:66-71 | The recorder is not subscribed afterwards, and nothing else changes. |
| `TrafficRecorder.TrafficRecorder.Observe` | packages/shared/src/traffic/traffic-recorder.ts:42-61 | An event of a known exchange waits behind earlier ones of the same exchange while the recorder is started, and is ignored otherwise. |
| `TrafficRecorder.TrafficRecorder.RunNext` | packages/shared/src/traffic/traffic-recorder.ts:123-219 | Running the head of a chain saves or updates as its handler says and forgets a chain that has run dry. |
| `TrafficRecorder.HandleFolds` | packages/shared/src/traffic/traffic-recorder.ts:140-219 | A handler whose record has room folds its event into that record and changes nothing else. |
| `TrafficRecorder.RunInv` | packages/shared/src/traffic/traffic-recorder.ts:123-219 | For every schedule of publishing and chain runs without eviction each record is the fold, in publish order, of the events its chain has run so far. |
| `TrafficRecorder.SettledRecord` | packages/shared/src/traffic/traffic-recorder.ts:123-138 | Once a chain has run dry the record is the fold of everything published for the exchange. |
| `Replay.SplitHeadersAndCookies` | packages/shared/src/replay/map-traffic-record.ts:69-87 | Cookie headers go, every other header stays unchanged, and the last Cookie header's pairs are the cookies. |
| `Replay.ParseCookieHeader` | packages/shared/src/replay/map-traffic-record.ts:95-123 | The loop adds the trimmed pairs of each part with a name, later ones winning. |
| `Replay.MappedCookieFree` | apps/server/src/http-forward/request-mapper.ts:116-137 | The headers the edge records never include a Cookie header. |
| `Replay.CaptureToReplay` | packages/shared/src/replay/map-traffic-record.ts:29-51 | For every schedule without eviction a settled record replays the original method, path, query and headers, and the body byte for byte up to the smaller cap, flagged truncated exactly when bytes are missing. |
| `Ranking.PercentileNearestRank` | packages/shared/src/statistics/compute-traffic-statistics.ts:252-261 | The least sample with at least the given percentage of the samples at or below it, absent exactly when there are none. |
| `Ranking.NearestRankUnique` | packages/shared/src/statistics/compute-traffic-statistics.ts:252-261 | That description names one value. |
| `Ranking.TallyStep` | packages/shared/src/statistics/compute-traffic-statistics.ts:267-269 | Incrementing a counter map keeps one exact row for every key that occurs. |
| `Ranking.TallySum` | packages/shared/src/statistics/compute-traffic-statistics.ts:267-269 | The counts of such a map add up to the number of elements that have a key. |
| `Ranking.SortTally` | packages/shared/src/statistics/compute-traffic-statistics.ts:275-299 | Sorting the rows loses none and makes none up. |
| `Ranking.SortSorted` | packages/shared/src/statistics/compute-traffic-statistics.ts:275-319 | The sorted rows are in order for every consistent comparator. |
| `Statistics.EndpointKeyInjective` | packages/shared/src/statistics/compute-traffic-statistics.ts:122 | The text of method and path is the same for two endpoints exactly when they are the same endpoint. |
| `Statistics.Count` | packages/shared/src/statistics/compute-traffic-statistics.ts:95-137 | One pass counts the window, the errors, the latencies and exact tallies by method, status and endpoint. |
| `Statistics.Average` | packages/shared/src/statistics/compute-traffic-statistics.ts:232-243 | The mean times the number of samples is their sum; absent exactly when there are none. |
| `Statistics.SortMethodCounts` | packages/shared/src/statistics/compute-traffic-statistics.ts:275-284 | An exact tally by method, ordered by count and then by name. |
| `Statistics.SortStatusCounts` | packages/shared/src/statistics/compute-traffic-statistics.ts:290-299 | An exact tally by status, ordered by count and then by code. |
| `Statistics.SortEndpoints` | packages/shared/src/statistics/compute-traffic-statistics.ts:306-319 | At most `limit` endpoints, exactly counted and in order, and no omitted one outranks a listed one. |
| `Statistics.AggregateRecords` | packages/shared/src/statistics/compute-traffic-statistics.ts:88-149 | Every figure of the slice describes the records: totals, rate, mean, p95, error rate, tallies and top endpoints. |
| `Statistics.GroupByTunnel` | packages/shared/src/statistics/compute-traffic-statistics.ts:166-175 | One bucket for each tunnel that occurs, with exactly its records in order. |
| `Statistics.BuildTunnelStatistics` | packages/shared/src/statistics/compute-traffic-statistics.ts:160-201 | Each tunnel that occurs is described once, by its own records, busiest first. |
| `Statistics.TunnelsPartition` | packages/shared/src/statistics/compute-traffic-statistics.ts:160-201 | Per-tunnel totals and error counts add up to the overall ones. |
| `Statistics.CountsAddUp` | packages/shared/src/statistics/compute-traffic-statistics.ts:139-148 | Method counts sum to the total and status counts to the records that have a status. |
| `Statistics.ComputeTrafficStatistics` | packages/shared/src/statistics/compute-traffic-statistics.ts:22-63 | Refuses exactly a window that is not positive or a negative limit, and otherwise describes the records since the given time, overall and by tunnel, with the parts adding up. |
| `PercentEncoding.RoundTrip` | apps/cli/src/services/local-proxy.ts:237-239 | For every string percent-decoding undoes percent-encoding (section 2.1 of RFC 3986). |
| `PercentEncoding.OctetsOfOneCharacter` | apps/server/src/http-forward/request-mapper.ts:159-164 | The decoder accepts exactly the UTF-8 form of one character: no overlong form, surrogate or number out of range. |
| `CookieHeader.ParseCookieHeader` | apps/server/src/http-forward/request-mapper.ts:139-172 | The loop with its early errors is the specified left-to-right parse. |
| `CookieHeader.ParsedSerialized` | apps/cli/src/services/local-proxy.ts:236-246 | For every cookie map, in any property order, parsing its printed header fails exactly when a named cookie is too long, and otherwise gives all cookies but those named `""` or `__proto__`. |
| `CookieHeader.RoundTrip` | apps/server/src/http-forward/request-mapper.ts:139-172 | Printer and parser undo each other exactly on the maps whose names are usable and whose texts are within the bound. |
| `CookieHeader.ParsedSurvives` | apps/server/src/http-forward/request-mapper.ts:139-172 | Whatever public Cookie header was accepted, the header printed for the local target parses to the same cookies (section 4.2.1 of RFC 6265). |
| `RequestHeaders.MapHeaders` | apps/server/src/http-forward/request-mapper.ts:116-137 | Succeeds exactly when every header that travels is within the bound, and forwards exactly those that are not stripped. |
| `RequestHeaders.BuildRequestHeaders` | apps/cli/src/services/local-proxy.ts:177-205 | The target's own Host, the printed cookies, and every other header that is not hop-by-hop. |
| `RequestHeaders.HeadersArrive` | apps/cli/src/services/local-proxy.ts:177-205 | For every accepted public request the target gets every public header the edge does not strip, unchanged, and besides only its Host and a Cookie header that parses to the public cookies. |
| `Protocol.ParseHeadersObject` | packages/shared/src/types/parse-http-forwarding.ts:296-318 | The loop accepts exactly objects of strings and string arrays and keeps every entry but `__proto__`. |
| `Protocol.ParseCookiesObject` | packages/shared/src/types/parse-http-forwarding.ts:324-339 | The loop accepts exactly objects of strings and keeps every entry but `__proto__`. |
| `Protocol.HeadersRoundTrip` | packages/shared/src/types/parse-http-forwarding.ts:296-318 | A printed header map comes back without the one key that cannot be a property. |
| `Protocol.KindNamesDistinct` | packages/shared/src/types/protocol.ts:7-35 | The thirteen type names are found by themselves, so no two kinds share one. |
| `Protocol.CarriedParsed` | packages/shared/src/types/parse-protocol-message.ts:53-68 | An object of the right type that carries a message's fields, whatever else it has, parses to that message exactly when the message is well formed. |
| `Protocol.RoundTrip` | packages/shared/src/types/parse-protocol-message.ts:25-200 | For all thirteen kinds parsing the object of a message gives that message exactly when it is well formed. |
| `Protocol.AcceptedWellFormed` | packages/shared/src/types/parse-http-forwarding.ts:27-294 | Every accepted object yields a well-formed message of the kind it names. |
| `Protocol.ReparseIdempotent` | packages/shared/src/types/parse-protocol-message.ts:25-200 | Printing what was accepted and parsing it again changes nothing. |
| `Protocol.EncodingInjective` | packages/shared/src/types/parse-protocol-message.ts:25-200 | Two well-formed messages never share a wire form. |

## Left out

- DataPlane.StepInv: both directions deliver in order and are never cut; what happens to exchanges when the WebSocket drops is not part of this model, nor are send failures and the server's check that a frame comes from the tunnel's owner.
- DataPlane.RequestPreserved: request ids are taken to be fresh, as random ids are; `Coordinator` and `Forwarder` say what a reused id does.
- DataPlane.ResponseFinishes: an exchange is not claimed to end, because the timeout is dropped once the response has started.
- Coordinator.PendingExchange.Next: the generator asks for one chunk at a time, so the list of waiting consumers has at most one entry here.
- Base64.RoundTrip: the decoder skips characters outside the alphabet; only decoding of encoded bytes is relied on.
- Forwarder.RequestForwarder.HandleFrame: headers and body reach the local application as values; the HTTP client behind it is not modelled.
- TunnelManager.RunWellFormed: created and closed events are not claimed to balance, since a tunnel displaced by a save publishes nothing and a parked one can be closed twice.
- TunnelManager.StableReconnect: ids are taken to be minted with slugs of their own, and the clock not to run backwards.
- TunnelManager.TunnelManager.Open: the workspace and the anonymous session of a tunnel are one owner; the ownership store behind them is not modelled, and the message for an invalid port is shortened.
- TunnelRegistry.MemoryTunnelRepository.PurgeExpiredOrphans: the order in which expired tunnels are visited is left open.
- CliClient.RunSafe: callbacks, request headers, heartbeat pings and the settling of the promise that `disconnect` returns are left out; settling a waiter and its continuation are one step.
- DashboardClient.RunSafe: callbacks do not connect or disconnect, and message parsing is reduced to a ping or an update.
- Heartbeat.SilenceBounds: the timer fires exactly when due, and shutdown is not modelled.
- TrafficRecorder.RunInv: store operations are atomic and no record is evicted; overlapping saves of different ids can lose an index entry in the code, which reads and rewrites the order list across waits.
- TrafficRecorder.TrafficRecorder.RunNext: a handler that finds nothing to update and then saves is one atomic step, although another exchange's handler can run between the two in the code.
- TrafficStore.RunSurvivors: `clear` and `size` are left out, as they add nothing to the log's invariants.
- TrafficBody.ObserveBody: a consumer that stops early or a body that fails is not modelled.
- Storage.MemoryStorage.Get: values are immutable here, so the defensive copies are not modelled; neither is listing keys.
- Statistics.BuildTunnelStatistics: each tunnel carries the whole slice, including the per-minute rate the source leaves out of it.
- Statistics.Average: means and rates are exact real numbers, without floating-point rounding.
- Protocol.RoundTrip: JSON text, its number format and negative zero are not modelled; the messages for refused header and cookie maps do not name the key.
- RequestHeaders.MapHeaders: the set of stripped names is a parameter; the query map, the method and the body of an inbound request are not modelled.
- Lower-casing of names, hosts and slugs is that of ASCII letters; the few other letters that fold to ASCII ones are not modelled.
- Response headers: splitting off `Set-Cookie` at the local side is a plain copy and adds only easy members.
- Accounts, sign-in, workspaces, audit, the dashboard pages, prompts and the web framework's wiring are not part of this model.
- The event bus is an ordered list of events; its once-only subscriptions are left out.
