# silo-proxy: a verified model

silo-proxy lets a public server forward HTTP requests to agents that sit behind a firewall. Each agent
keeps one gRPC stream open; the server gives every registered agent its own HTTP server on a port from a
fixed range, turns requests into messages on the stream and matches the responses by id. This project
models the parts of the repository whose correctness depends on how several components and goroutines fit
together, in Dafny 4.11, and proves what they keep.

`dafny verify dfyconfig.toml` checks everything.

## How it is organised

**Ports, servers, connections.** `PoolSteps` is the port pool with the two halves of `Allocate` and
`Release` as separate steps of any number of callers. `ThreeLayer` puts the pool, the server manager and
the connection registry into one concurrent system: one event per action between two points where another
goroutine can interfere. Bind, serve, drain and staleness outcomes are free choices, a serve failure's
cleanup races with `StopAgentServer`, and calls arrive in any order, so the late `Deregister` of a replaced
handler is one of them. `RegistryInv`, `ServersInv`, `OwnersInv` and `LocksInv` hold the four parts of the
cross-layer invariant over small views of the state, `ThreeLayerInv` shows that every event keeps their
conjunction, `ThreeLayerTheorems` and `ThreeLayerProgress` draw the conclusions, and `ServerLives` follows each
server from its bind to its release, through failure and cleanup. `PortPool`, `AgentServers`
and `Connections` are the same three layers as classes, one call at a time, with the exact new state of
every call. `Uninterrupted` and `CallsAlone` tie the two views together: what an uninterrupted call's steps
are, and what every such run comes to; `CallsInterleaved` shows that with everything else going on in between a
call still does to the registry exactly what it does alone. `Handlers` adds the stream handlers behind the connections, from which
all `Deregister` calls come.

**Requests and responses.** `Correlation` is the path of a request from `SendRequestToAgent` through
queues, streams, agent goroutines and back to `HandleResponse`, again one event per action;
`CorrelationInv`, `CorrelationTokens` and `CorrelationTheorems` are its invariant, a conservation law for each
request id, and its theorems. `CorrelationOutcomes` says what a call comes to, `CorrelationQueues` what happens to
messages and calls that fail on the server's side, and `CorrelationComplete` that from every state in which an
agent is connected a new request can be answered with anything and the call then returns just that.

**Provision keys.** `KeyStore` is the store as a class, and its runs against a store that never cleans up.
`Provisioning` is the `Provision` handler as interleaved steps of any number of requests, with key
management going on at the same time, and an administrator writing and removing certificate files one by one;
`ProvisioningStore` shows that its keys are those of `KeyStore` and why requests are refused.

**Timing and formats.** `Staleness` (keep-alive against the stale sweep), `Backoff` (reconnect delays),
`StreamLoops` (the goroutines of one stream and their error channel), and `Codec` with `HeaderNames`,
`Decimal` and `TargetUrl` (HTTP messages as string maps). `Basics` is shared vocabulary.

A run is a sequence of events, each enabled where it happens; theorems quantify over all runs from the
initial state. Ids and key strings are fresh values, time is an integer (of nanoseconds where it matters), and
what Go leaves open (the order of ranging over a map, which ready case a select takes) is left open.

Where the code does less than one might hope it is modelled as it is, with runs that show it and the conditions
under which it happens:

- `Deregister` goes by agent id only, so a replaced handler's late exit removes its replacement
  (`LateExitHappens`, `SurvivesIff`).
- A send can meet a closed channel, a request's or a PONG's (`SendOnClosedHappens`, `SendOnClosedIff`,
  `PongOnClosedHappens`, `PongOnClosedIff`).
- One key can succeed twice if a file of its agent's certificate is removed between two racing requests
  (`KeySucceedsTwice`, `KeySucceedsTwiceOnlyIf`, `SucceedsAloneIff`).
- A request that fails after it has created the certificate leaves its key unused, and until a file of it is removed
  no other request of the agent can succeed (`LateFailureLocksOut`).
- Background cleanup can change `Revoke`'s answer (`RevokeCanTell`, `CleanupChangesRevokeIff`).
- The decoded path of a request is joined to the local URL as it is and decoded again (`TargetSurvivesIff`), and
  Content-Type is replaced (`ContentTypeSurvivesIff`).

## Model

| member | source | states |
|---|---|---|
| `PoolSteps.StepInv` | internal/api/http/port_manager.go:59-104 | every half of every `Allocate` and `Release`, by any caller and on any port, keeps the conservation invariant of the pool |
| `PoolSteps.Partition` | internal/api/http/port_manager.go:59-104 | after every interleaving each port of the range is in exactly one place: once in the channel, in the map, or in one caller's hands |
| `PoolSteps.NothingForeign` | internal/api/http/port_manager.go:59-104 | nothing outside the range is ever free, recorded or carried, whatever callers release |
| `PoolSteps.ReleaseNeverBlocks` | internal/api/http/port_manager.go:86-104 | the blocking send at the end of `Release` always has room, in every interleaving |
| `PoolSteps.QuietPoolIsFull` | internal/api/http/port_manager.go:59-104 | with nothing recorded and nobody inside, the channel is a permutation of the range |
| `PoolSteps.FirstInFirstOut` | internal/api/http/port_manager.go:59-104 | in every interleaving the ports taken so far followed by the free queue are the initial queue followed by the ports sent back, so no port overtakes another |
| `PoolSteps.OwnerStep` | internal/api/http/port_manager.go:59-104 | a port is recorded under an agent from the step that records it for that agent to the step that deletes it, and by no other step |
| `PortPool.NewPortManager` | internal/api/http/port_manager.go:24-54 | succeeds exactly for 1 <= start <= end <= 65535, with every port of the range free in ascending order |
| `PortPool.PortManager.constructor` | internal/api/http/port_manager.go:35-46 | the fill loop leaves exactly the range in the channel, within its capacity |
| `PortPool.PortManager.Allocate` | internal/api/http/port_manager.go:59-81 | fails exactly if the channel is empty; otherwise moves its head to the map under the agent |
| `PortPool.PortManager.Release` | internal/api/http/port_manager.go:86-104 | a recorded port goes to the end of the channel, an unrecorded one changes nothing |
| `PortPool.AllocateIsItsSteps` | internal/api/http/port_manager.go:59-81 | the method is its steps run without interruption |
| `PortPool.ReleaseIsItsSteps` | internal/api/http/port_manager.go:86-104 | the method is its steps run without interruption, for recorded and unrecorded ports |
| `PortPool.TriesDiffer` | internal/api/http/agent_server_manager.go:73-92 | three take-and-put-back attempts on n free ports see min(3, n) different ports |
| `PortPool.RotatedSlices` | internal/api/http/agent_server_manager.go:73-92 | k such attempts rotate the queue by k |
| `AgentServers.AgentServerManager.StartAgentServer` | internal/api/http/agent_server_manager.go:59-150 | for every outcome of the binds: success after k failures leaves the k-fold rotation without its head; three failures leave servers and allocations as they were, having tried min(3, n) different ports; exhaustion and an existing server change nothing |
| `AgentServers.AgentServerManager.Install` | internal/api/http/agent_server_manager.go:94-108 | the bound port's server joins the map and restores the match between servers and allocations |
| `AgentServers.AgentServerManager.StopAgentServer` | internal/api/http/agent_server_manager.go:155-201 | removes the server and puts its port at the end of the queue, or reports that there is none and changes nothing |
| `AgentServers.AgentServerManager.ServeFailed` | internal/api/http/agent_server_manager.go:122-132 | cleans up exactly if the map still holds this very server object |
| `AgentServers.AgentServerManager.Shutdown` | internal/api/http/agent_server_manager.go:228-249 | no server and no allocation is left, and the free queue is a permutation of the range |
| `Connections.ConnectionManager.Register` | internal/grpc/server/connection_manager.go:67-128 | retires the old connection in every case; then fails exactly if no port is free or all three binds fail; the new connection carries the first port that could be bound |
| `Connections.ConnectionManager.Join` | internal/grpc/server/connection_manager.go:90-127 | its second half, for an agent with no connection left: a failed start changes no connection, a successful one adds exactly this |
| `Connections.ConnectionManager.Deregister` | internal/grpc/server/connection_manager.go:130-161 | retires the agent's connection and stops its server, and touches no other |
| `Connections.ConnectionManager.Disconnect` | internal/grpc/server/connection_manager.go:134-146 | cancels, closes once and stops the server of this connection only |
| `Connections.ConnectionManager.SendToAgent` | internal/grpc/server/connection_manager.go:163-181 | queues the message at the end unless the agent is unknown or 100 messages are waiting |
| `Connections.ConnectionManager.UpdateLastSeen` | internal/grpc/server/connection_manager.go:183-191 | is the `Received` step of `Staleness` |
| `Connections.ConnectionManager.RemoveStaleConnections` | internal/grpc/server/connection_manager.go:256-284 | retires exactly the stale connections, stops exactly their servers, leaves the others untouched, and is the `Sweep` step of `Staleness` |
| `Connections.ConnectionManager.RetireStale` | internal/grpc/server/connection_manager.go:261-283 | its loop, in whatever order it visits the map |
| `Connections.ConnectionManager.Stop` | internal/grpc/server/connection_manager.go:212-240 | retires every connection, stops every server and puts every port back |
| `Connections.ConnectionManager.DisconnectAll` | internal/grpc/server/connection_manager.go:218-231 | its first loop closes every connection exactly once |
| `Connections.ConnectionManager.SetAgentServerManager` | internal/grpc/server/connection_manager.go:61-65 | any manager is taken, also a second one; the invariant carries over exactly if every server it runs belongs to a registered connection on the same port |
| `ThreeLayerInv.StepInv` | internal/api/http/agent_server_manager.go:59-201 | every step of registration, replacement, removal, sweep, shutdown and serve-failure cleanup, in every interleaving, keeps the cross-layer invariant |
| `ThreeLayerInv.ReleaseFindsItsRecord` | internal/api/http/port_manager.go:86-98 | whoever is inside `Release` finds its port recorded under its own agent |
| `ThreeLayerInv.NeverExists` | internal/api/http/agent_server_manager.go:64-66 | when `StartAgentServer` is called from `Register`, no server of that agent exists |
| `ThreeLayerTheorems.OneOwner` | internal/api/http/agent_server_manager.go:59-201 | in every reachable state each recorded port belongs to exactly one live, stopping or starting server and is recorded under its agent |
| `ThreeLayerTheorems.ReleasedOnce` | internal/api/http/agent_server_manager.go:111-201 | each server's port stays recorded until it is released, which happens at most once, also when failure cleanup and `StopAgentServer` race; a server is live exactly while it is in the map |
| `ThreeLayerTheorems.NoForeignRelease` | internal/api/http/agent_server_manager.go:111-201 | a release, however late, removes its own agent's record and no other |
| `ThreeLayerTheorems.ServersAreRegistered` | internal/grpc/server/connection_manager.go:67-161 | whenever the registry's mutex is free, every running server belongs to a registered open connection with the same non-zero port |
| `ThreeLayerTheorems.WhyRegisterFails` | internal/grpc/server/connection_manager.go:90-101 | "server already exists" is unreachable; exhaustion is reported only with an empty pool and no failed bind, the other failure only after exactly three failed binds |
| `ThreeLayerTheorems.CurrentOrRetired` | internal/grpc/server/connection_manager.go:72-88 | every connection ever created is current (in the map, context live, channel open) or retired (out of the map, cancelled, closed exactly once), never both |
| `ThreeLayerTheorems.RetiredForever` | internal/grpc/server/connection_manager.go:130-161 | retirement is permanent: no later run changes a retired connection or puts it back |
| `ThreeLayerTheorems.ShutdownFindsNothing` | internal/api/http/agent_server_manager.go:228-249 | after any history, when `Stop` comes to shut the server manager down its first loop has left no server and no connection, so that loop has nothing to do |
| `ThreeLayerTheorems.StopReleasesEverything` | internal/grpc/server/connection_manager.go:212-240 | after any history, when `Stop` returns no connection and no server is left, every server ever started has released its port exactly once, and the free queue is a permutation of the whole range |
| `ThreeLayerProgress.LockOrder` | internal/grpc/server/connection_manager.go:67-101 | whoever waits for a mutex holds only earlier ones in the order registry, servers, ports |
| `ThreeLayerProgress.NoCircularWait` | internal/api/http/agent_server_manager.go:124-132 | no chain of callers, each waiting for a mutex the next one holds, closes on itself |
| `ThreeLayerProgress.SomethingMoves` | internal/api/http/port_manager.go:86-98 | unless all calls have returned and all failed servers are cleaned up, some step is enabled; the send in `Release` is never what is missing |
| `ThreeLayerProgress.ReleasedAtRest` | internal/api/http/agent_server_manager.go:111-201 | in every reachable state at rest each server ever started is in the map with its port recorded, or has released it exactly once |
| `ThreeLayerProgress.WorkShrinks` | internal/api/http/agent_server_manager.go:59-201 | every step of work already begun brings its end strictly closer |
| `ThreeLayerProgress.NoDeadlock` | internal/grpc/server/connection_manager.go:67-284 | after every history: no circular wait, something can move unless all is at rest, and a finite sequence of steps reaches rest |
| `ServerLives.LifeCycle` | internal/api/http/agent_server_manager.go:94-201 | after every history each event changes each server in exactly the way named for it: bound, taken out of the map by a stop or by its own cleanup, released, gone; the map holds exactly the live ones |
| `ServerLives.ServingEnds` | internal/api/http/agent_server_manager.go:111-124 | after every history a serving server can return, which only ends its goroutine, or fail, after which it stays in the map and its cleanup can run as soon as the mutex is free |
| `ServerLives.CleanUpActs` | internal/api/http/agent_server_manager.go:122-132 | after every history, whoever else is where, the cleanup of a failed server takes it out of the map and begins to release its port exactly if the map still holds this server, and otherwise does nothing |
| `ServerLives.StopActs` | internal/api/http/agent_server_manager.go:155-173 | after every history `StopAgentServer` takes out its agent's server, if there is one, and goes on to drain exactly that |
| `ServerLives.CleanedUp` | internal/api/http/agent_server_manager.go:111-134 | after every history in which a server was cleaned up it is out of the map, and once its goroutine has ended its port has been released exactly once, unless a stop came first and is about to release it |
| `ServerLives.FailedAtRest` | internal/api/http/agent_server_manager.go:111-201 | at rest every server that ever failed is out of the map, has released its port exactly once and its goroutine has ended |
| `Handlers.PathIsRun` | internal/grpc/server/stream_handler.go:24-70 | the system in which every `Deregister` comes from the handler of one registration is a system of `ThreeLayer`, so all of the above holds of it |
| `Handlers.LateExitHappens` | internal/grpc/server/stream_handler.go:42-45 | there is a run in which an agent joins twice and the first handler's exit removes the second connection, with nothing wrong with its stream |
| `Handlers.LateExitCloses` | internal/grpc/server/connection_manager.go:130-134 | once an outstanding handler of the same agent has deregistered, the connection is closed, whatever else happens |
| `Handlers.ReplacementNeverSurvives` | internal/grpc/server/connection_manager.go:72-88 | a connection that replaced another is not current once the replaced connection's handler has deregistered |
| `Handlers.Joins` | internal/grpc/server/connection_manager.go:103-114 | a registration leaves its connection current, its handler running and the mutex free |
| `Handlers.SurvivesIff` | internal/grpc/server/stream_handler.go:37-70 | absent another registration, a stale sweep, `Stop` and failure of its own stream, and once the agent's other handlers have deregistered, a connection is still current if and only if none of them was outstanding when it was registered |
| `CallsAlone.OneNext` | internal/grpc/server/connection_manager.go:67-284 | two steps that the call inside the registry's mutex can take are the same, unless both are bind outcomes or visits of a loop over a map |
| `CallsAlone.RegisterAlone` | internal/grpc/server/connection_manager.go:67-128 | every registration that runs in the concurrent system without interruption ends in the servers and the queue of free ports that the classes specify for the outcomes its binds had, with the old connection retired and the new one current |
| `Uninterrupted.RegisterReturns` | internal/grpc/server/connection_manager.go:67-128 | for any outcomes of the binds there is such a run |
| `CallsAlone.RegisterAloneUnmanaged` | internal/grpc/server/connection_manager.go:90-114 | likewise for every registration without a server manager: port 0, no server, the pool untouched |
| `CallsAlone.DeregisterAlone` | internal/grpc/server/connection_manager.go:130-161 | likewise for every removal |
| `Uninterrupted.DeregisterReturns` | internal/grpc/server/connection_manager.go:130-161 | and there is such a run |
| `CallsAlone.SweepAlone` | internal/grpc/server/connection_manager.go:256-284 | every uninterrupted sweep, in whatever order, looks at every connection; exactly those it finds stale are retired and gone and exactly their servers stopped |
| `Uninterrupted.SweepReturns` | internal/grpc/server/connection_manager.go:256-284 | whatever agents it is to find stale, there is such a run |
| `CallsAlone.StopAlone` | internal/grpc/server/connection_manager.go:212-240 | every uninterrupted `Stop`, in whatever order, ends as the class's does |
| `Uninterrupted.StopReturns` | internal/grpc/server/connection_manager.go:212-240 | and there is such a run |
| `CallsAlone.FailureAlone` | internal/api/http/agent_server_manager.go:111-134 | every uninterrupted cleanup of a failed server ends as the class's `ServeFailed`, which acts exactly if the map still holds this server |
| `Uninterrupted.FailureReturns` | internal/api/http/agent_server_manager.go:111-134 | and there is such a run |
| `CallsAlone.ServerStarts` | internal/grpc/server/connection_manager.go:90-114 | for every range there is a run after which an agent has a server on the first port and a current connection with that port |
| `CallsInterleaved.RegisterInterleaved` | internal/grpc/server/connection_manager.go:67-128 | whatever happens between its steps, a registration retires the agent's old connection and then adds exactly one new one; only if its last step is a failure of `StartAgentServer` it adds none and leaves no server; no other entry or connection changes |
| `CallsInterleaved.DeregisterInterleaved` | internal/grpc/server/connection_manager.go:130-161 | whatever happens between its steps, a removal retires and forgets the agent's connection and no other, and leaves the agent no server |
| `CallsInterleaved.SweepInterleaved` | internal/grpc/server/connection_manager.go:256-284 | whatever happens between its steps, a sweep looks at every connection and retires and forgets exactly those it finds stale |
| `CorrelationInv.StepInv` | internal/grpc/server/server.go:130-172 | every step of calls, connections and agents keeps the correlation invariant |
| `CorrelationTheorems.ResponseIsFaithful` | internal/grpc/server/server.go:130-155 | if a call returns a response, it carries the request's id; the call was started, then an agent of the addressed id produced the response by handling exactly that request, then it was received on a stream registered under that id |
| `CorrelationTheorems.PendingIsExact` | internal/grpc/server/server.go:131-141 | the pending map holds exactly the ids of the calls in flight, and no two calls share an id |
| `CorrelationTheorems.ChannelsHoldOwnResponse` | internal/grpc/server/server.go:131-155 | a response channel holds at most one message, with its own call's id |
| `CorrelationTheorems.HandleResponseNeverBlocks` | internal/grpc/server/server.go:157-172 | after its lookup `HandleResponse` always finds the channel empty and stores the response, also if the call has returned meanwhile, so its default branch is never taken; no other call is touched |
| `CorrelationTheorems.OneHandlerPerCall` | internal/grpc/server/server.go:157-172 | at most one `HandleResponse` is ever under way for a call |
| `CorrelationTheorems.TakenUpOnce` | internal/grpc/client/client.go:322-336 | over all agents and all their streams a request is taken up by at most one goroutine |
| `CorrelationTokens.StepLoses` | internal/grpc/server/server.go:130-172 | for each id, no step makes a second token of it on its way from call to agent and back to the call's channel; only a fresh id makes one |
| `CorrelationTokens.AtMostOneToken` | internal/grpc/server/server.go:130-172 | so in every run there is at most one per id |
| `CorrelationTheorems.ResultIsFinal` | internal/grpc/server/server.go:145-154 | once a call has an outcome, no later run changes it |
| `CorrelationOutcomes.TakeReturns` | internal/grpc/server/server.go:147-149 | a waiting call with a response in its channel can take it and then returns exactly that response |
| `CorrelationOutcomes.ReturnsIff` | internal/grpc/server/server.go:143-154 | after every history a call returns a response if and only if it has taken one from its channel |
| `CorrelationOutcomes.ReturnsWhatWasDelivered` | internal/grpc/server/server.go:143-172 | and then it is the response that `HandleResponse` put into its channel earlier in the history |
| `CorrelationOutcomes.AnswerIsQueued` | internal/grpc/client/client.go:87-94 | after every history the agent's goroutine puts exactly one response, with its request's id and its own body, at the end of the send channel if fewer than 100 messages wait there, and otherwise leaves the channel as it is |
| `CorrelationComplete.AnswerArrives` | internal/grpc/client/client.go:338-362 | from every reachable state in which an agent with a registered stream has taken up a waiting call's request there is, for every answer, a run in which the call returns exactly that answer |
| `CorrelationComplete.RoundTrip` | internal/grpc/server/server.go:130-172 | from every reachable state in which an agent is connected with its send loop running, a new request with any fresh id can be answered with anything, and the call returns exactly that |
| `CorrelationComplete.AgentConnects` | internal/grpc/server/stream_handler.go:24-57 | there is such a state |
| `CorrelationQueues.FailsIff` | internal/grpc/server/server.go:143-154 | after every history a call has ended without a response if and only if its agent was not connected at the lookup, its send failed, or its wait ended |
| `CorrelationQueues.SendOutcomes` | internal/grpc/server/connection_manager.go:163-181 | a call that has looked up its connection can queue its request exactly if that connection is still current and fewer than 100 messages wait, can time out in any case, and can meet the cancelled context or the closed channel exactly if the connection is no longer current |
| `CorrelationQueues.CallCanReturn` | internal/grpc/server/server.go:137-154 | after every history each call can return within three steps of its own and leaves nothing pending; a waiting one by its timeout, also with a response in its channel |
| `CorrelationQueues.HandedAsQueued` | internal/grpc/server/stream_handler.go:98-117 | what a stream has been handed, what is in hand and what is queued are together exactly the requests and PONGs that the history queued on the connection, in that order |
| `CorrelationQueues.PongOnce` | internal/grpc/server/stream_handler.go:119-134 | a PING's PONG is queued or given up once in a history |
| `CorrelationQueues.NothingAfterLoop` | internal/grpc/server/stream_handler.go:98-117 | once the send loop has seen `done` or a failed write, nothing more is handed to the stream |
| `CorrelationQueues.HeldCanBeLost` | internal/grpc/client/client.go:266-294 | after every history a response in the hand of an agent's send loop can be lost with the loop: nothing goes on any wire, no call changes, and its goroutine does not answer again |
| `CorrelationTheorems.HandedIsPrefix` | internal/grpc/server/stream_handler.go:98-117 | what a stream has been handed is a prefix of what was queued on its connection; the rest is in the send loop's hand and a queue of at most 100 |
| `CorrelationTheorems.AnsweredOnce` | internal/grpc/client/client.go:338-362 | in every run each received request gets exactly one attempted response when its goroutine is done, written to a stream at most once, by whichever send loop |
| `CorrelationTheorems.QueuedAnswersMatch` | internal/grpc/client/client.go:87-94 | every response waiting at an agent has its request's id and occurs once |
| `CorrelationTheorems.SendOnClosedIff` | internal/grpc/server/connection_manager.go:163-181 | a send can meet a closed channel exactly if the connection looked up is no longer the agent's current one |
| `CorrelationTheorems.SendOnClosedHappens` | internal/grpc/server/connection_manager.go:163-181 | there is such a run |
| `CorrelationTheorems.PongOnClosedIff` | internal/grpc/server/stream_handler.go:119-134 | the same for a PONG, which the stream's receive loop sends |
| `CorrelationTheorems.PongOnClosedHappens` | internal/grpc/server/stream_handler.go:119-134 | there is such a run |
| `KeyStore.Keys.Create` | internal/provision/key_store.go:41-64 | adds an unused key that expires after the store's lifetime |
| `KeyStore.Keys.Validate` | internal/provision/key_store.go:66-81 | accepts exactly the keys that are there, unused and not expired, and returns the key as stored; otherwise the error in the order missing, used, expired |
| `KeyStore.Keys.MarkUsed` | internal/provision/key_store.go:83-89 | sets the flag of this key only, and does nothing for a key that is gone |
| `KeyStore.Keys.Revoke` | internal/provision/key_store.go:91-103 | removes exactly the agent's keys and says whether there were any |
| `KeyStore.Keys.List` | internal/provision/key_store.go:105-121 | shows once, with its agent and its two times, every key that is live when the clock is read for it, and no other |
| `KeyStore.Keys.Cleanup` | internal/provision/key_store.go:137-152 | keeps exactly the live keys and counts the others |
| `KeyStore.CleanupIsUnobservable` | internal/provision/key_store.go:66-152 | cleanups inserted anywhere in a run change neither which keys are accepted nor what is listed |
| `KeyStore.SimulationStep` | internal/provision/key_store.go:41-152 | each operation keeps the relation to a store that never cleans up and shows the same |
| `KeyStore.WhatCleanupChanges` | internal/provision/key_store.go:66-81 | a verdict differs from that of a store that never cleans up exactly for keys cleaned up, which are refused either way |
| `KeyStore.RevokeDiffersIff` | internal/provision/key_store.go:91-103 | `Revoke`'s answer differs from that of a store that never cleans up exactly if the agent has keys there and cleanup has taken all of them, which are dead |
| `KeyStore.CleanupChangesRevokeIff` | internal/provision/key_store.go:91-152 | a cleanup changes `Revoke`'s answer exactly for an agent that has keys, all of them dead |
| `KeyStore.RevokeCanTell` | internal/provision/key_store.go:91-152 | there is such an agent |
| `KeyStore.AcceptedIff` | internal/provision/key_store.go:66-152 | after any run a key is accepted exactly if it was created, has not been used or revoked since, and is within its lifetime |
| `KeyStore.ListedIff` | internal/provision/key_store.go:105-121 | after any run `List` shows a key, as it was created, exactly if it is accepted in that sense when the clock is read for it |
| `KeyStore.GoneForever` | internal/provision/key_store.go:66-152 | a key once used, expired or revoked is never accepted again |
| `Provisioning.StepInv` | internal/api/http/handler/provision.go:95-146 | every step of every request, every file an administrator writes or removes, and key management keep the provisioning invariant |
| `Provisioning.SuccessesAreBounded` | internal/api/http/handler/provision.go:95-146 | for any number of racing requests, at most one more request per agent creates a certificate than files of it were removed, and every success is one of those |
| `Provisioning.BoundIsMet` | internal/cert/service.go:197-210 | for every n there is a run with n removals and n + 1 successes |
| `Provisioning.RemovalBetween` | internal/cert/generate.go:161-175 | between the moments at which two creators for one agent each found a file missing, a file of the agent was removed |
| `Provisioning.OneSuccess` | internal/api/http/handler/provision.go:95-146 | without a removal two successful requests for one agent are the same request |
| `Provisioning.KeySucceedsTwiceOnlyIf` | internal/api/http/handler/provision.go:95-146 | if a key succeeds twice, a file of the agent was removed strictly between the two tests that found one missing, and the later request passed its check before the first marked the key, or the store no longer held the key at that mark |
| `Provisioning.SucceedsAloneIff` | internal/api/http/handler/provision.go:95-146 | a request before the certificate mutex, with the mutex free and whatever other requests of its key have done, can still succeed by its own steps if and only if a file of the certificate is missing and what it has yet to check of its key holds |
| `Provisioning.AllRecorded` | internal/api/http/handler/provision.go:95-138 | the times a request has recorded are those of its own check, test and mark in the run |
| `Provisioning.KeySucceedsTwice` | internal/api/http/handler/provision.go:95-146 | with one removal between two racing requests one key does succeed twice |
| `Provisioning.UsedByCreator` | internal/cert/generate.go:161-175 | a key is marked used only by a request that created the certificate of the key's agent |
| `Provisioning.LateFailureLocksOut` | internal/api/http/handler/provision.go:117-138 | a request can fail after it has created the certificate: its key stays unmarked, and, if no file was removed since, no other request of the agent still before the mutex can succeed by its own steps |
| `Provisioning.EarlyFailureRecovers` | internal/cert/generate.go:140-175 | a request can fail between the two files: the mutex is free again, files and keys are as they were, and another validated request of the agent can still succeed if and only if a file is missing |
| `ProvisioningStore.StoreStep` | internal/provision/key_store.go:41-152 | each event does to the keys what the operation of `KeyStore` does, and every other event nothing |
| `ProvisioningStore.StoreRun` | internal/provision/key_store.go:41-152 | so after every run the keys are those of the store after the same operations |
| `ProvisioningStore.LookUpVerdict` | internal/provision/key_store.go:66-72 | the lookup lets a request on exactly if the store's verdict on its key is not "not found" |
| `ProvisioningStore.CheckVerdict` | internal/provision/key_store.go:74-81 | the check lets it on exactly if the key is then neither used nor expired, and, while the store holds the key, exactly if the store accepts it |
| `ProvisioningStore.WhyFailed` | internal/api/http/handler/provision.go:95-136 | every failed request failed at one step of its own: 401 because the store did not hold the key or it was used or expired, 409 because both files exist, 500 because creating or encoding failed |
| `ProvisioningStore.WasLookedUp` | internal/api/http/handler/provision.go:95-100 | whoever got past the lookup made it while the store held the key |
| `ProvisioningStore.RevokedIsRefused` | internal/provision/key_store.go:91-103 | a request that looks its key up after the key's agent was revoked ends, and stays, refused with 401 |
| `ProvisioningStore.FilesAreAsLastWritten` | internal/cert/service.go:197-210 | a certificate file is there exactly if it was written since it was last removed |
| `Staleness.SurvivesExactly` | internal/grpc/server/connection_manager.go:256-284 | a connection left alone survives a run exactly if every sweep comes at most 120 s after the agent's last message |
| `Staleness.RegisteredSurvivesIff` | internal/grpc/server/connection_manager.go:103-114 | after any history an agent registered and left alone since is there exactly if every sweep since came at most 120 s after its last message or its registration |
| `Staleness.RemovedStaysAway` | internal/grpc/server/connection_manager.go:183-191 | a removed agent stays away until it registers again, whatever still arrives on its old stream |
| `Staleness.NeverSwept` | internal/grpc/server/connection_manager.go:183-191 | messages at most 120 s apart keep a connection from every sweep |
| `Staleness.PingsKeepAlive` | internal/grpc/client/client.go:296-320 | pings sent every 30 s and each delayed by at most 90 s keep it alive |
| `Staleness.LatePingIsTooLate` | internal/grpc/client/client.go:296-320 | with any delay beyond 90 s a sweep can remove it |
| `Staleness.SweptInTime` | internal/grpc/server/connection_manager.go:242-284 | with sweeps at most 30 s apart a silent connection is swept no later than 150 s after it was last seen, and stays away |
| `Backoff.Client.IncreaseReconnectDelay` | internal/grpc/client/client.go:213-218 | the delay goes from min(2^k, 30) s to min(2^(k+1), 30) s |
| `Backoff.Client.ConnectionLoop` | internal/grpc/client/client.go:96-138 | the waits and connects of the loop over every sequence of failures, connects and stops |
| `Backoff.WaitsSinceConnect` | internal/grpc/client/client.go:96-138 | the k-th wait since the start or the last connect lasts min(2^k, 30) s |
| `Backoff.TotalSinceConnect` | internal/grpc/client/client.go:96-138 | n such waits last 2^n - 1 s for n <= 5 and 31 + 30(n - 5) s beyond |
| `Backoff.OneWaitPerTurn` | internal/grpc/client/client.go:96-138 | the loop waits exactly once for every turn that comes to its end, and logs one entry for every wait and every connect |
| `StreamLoops.NeverBlocked` | internal/grpc/client/client.go:220-320 | in every interleaving, with one channel slot per loop (3 at the agent, 2 at the server) no loop ever blocks on its error, also after `done` is closed |
| `StreamLoops.BlocksIff` | internal/grpc/client/client.go:220-231 | one slot per loop is exactly what is needed |
| `StreamLoops.BothNeverBlocked` | internal/grpc/client/client.go:220-231 | in particular the agent's three loops with three slots and the server's two with two |
| `StreamLoops.FirstErrorEnds` | internal/grpc/server/stream_handler.go:59-69 | the main routine stops waiting with the first error it takes or with the context, once, and then closes `done`; `done` is closed exactly if it has |
| `StreamLoops.AgentReturnsOnError` | internal/grpc/client/client.go:220-231 | the agent's main routine returns only after an error of one of its loops |
| `StreamLoops.ServerEndsQuietly` | internal/grpc/server/stream_handler.go:59-106 | the server's can return, and all its loops with it, without any error |
| `StreamLoops.OncePerLoop` | internal/grpc/server/stream_handler.go:53-117 | each loop reports at most once and `done` is closed at most once |
| `StreamLoops.FinishAll` | internal/grpc/server/stream_handler.go:59-117 | once `done` is closed every loop can finish, one step each |
| `HeaderNames.CanonicalTwice` | internal/grpc/client/request_handler.go:50-55 | the canonical form `Header.Set` stores is its own canonical form |
| `HeaderNames.CanonicalAt` | internal/grpc/client/request_handler.go:50-55 | in the canonical form each letter is upper case at the start and after a hyphen and lower case elsewhere, other characters stay, and a name with a character that is not a token character stays as it is |
| `Decimal.PrintThenParse` | internal/api/http/handler/proxy.go:82-87 | printing a status and parsing it gives it back, for every 64-bit integer and no other |
| `Codec.FixedKeysApart` | internal/api/http/handler/proxy.go:53-67 | no header can overwrite a fixed metadata entry |
| `Codec.FirstValues` | internal/api/http/handler/proxy.go:46-51 | the first value of every header that has one |
| `Codec.AddHeaders` | internal/api/http/handler/proxy.go:65-67 | the loop adds one prefixed entry per header and leaves the fixed entries alone |
| `Codec.EncodeRequest` | internal/api/http/handler/proxy.go:46-67 | the entries "method", "path", "query" and "content_type", one entry "header_" + name per header with a value, and nothing else |
| `Codec.DecodeRequest` | internal/grpc/client/request_handler.go:31-59 | method, path and query are read back; every "header_" entry sets the header of its canonical name, in whatever order, and every header comes from such an entry or is Content-Type set from a non-empty content type |
| `Codec.EncodeResponse` | internal/grpc/client/request_handler.go:77-90 | the entry "status_code", one entry "header_" + name per header with a value, and nothing else |
| `Codec.CollectHeaders` | internal/grpc/client/request_handler.go:50-55 | in every order of ranging over the map: each entry that names a header sets it, and each header set comes from such an entry |
| `Codec.DecodeResponse` | internal/api/http/handler/proxy.go:82-97 | the status, 200 if missing or malformed; every other non-empty entry sets its header |
| `Codec.RequestThroughAgent` | internal/grpc/client/request_handler.go:31-59 | for canonical names the agent rebuilds method, path, query and the first value of every header, except that a non-empty content type becomes the value of Content-Type |
| `Codec.ContentTypeSurvivesIff` | internal/grpc/client/request_handler.go:57-59 | Content-Type survives exactly if the separate entry is empty or equal to it |
| `Codec.ResponseThroughServer` | internal/api/http/handler/proxy.go:82-97 | the server rebuilds the status and exactly the non-empty first values, if and only if no such value stands under the empty name |
| `Codec.FailureThroughServer` | internal/grpc/client/client.go:338-357 | a failed local request reaches the client as status 502 with the message in a header Error |
| `TargetUrl.TargetSurvivesIff` | internal/grpc/client/request_handler.go:31-48 | for a local URL of a scheme, a host name and perhaps a port: host, path and query survive being joined and parsed exactly if the path is empty or starts with a slash and has no '?', '#', '%' or control character, and the query has no '#' or control character |
| `TargetUrl.PathIsDecoded` | internal/grpc/client/request_handler.go:35-48 | otherwise clean, the path arrives decoded a second time, and a malformed escape makes the request fail |
| `TargetUrl.EscapedDecodes` | internal/grpc/client/request_handler.go:35-48 | what that decoding undoes: it gives back every string of bytes of which each was escaped as % and two hexadecimal digits |
| `TargetUrl.ControlFails` | internal/grpc/client/request_handler.go:45-48 | a control character in path or query, with no '#' in them, makes the request fail |
| `TargetUrl.HashCutsOff` | internal/grpc/client/request_handler.go:35-48 | from a '#' in the path on everything is dropped, the query too, unless a malformed escape in it makes the request fail |

## Left out

- gRPC transport, TLS, sockets and `http.Server` itself: only the outcomes of bind, serve, drain, send and receive appear, as free choices.
- X.509, RSA, PEM and zip creation; JWT, bcrypt, users, SQL; configuration, routers, loggers and `main` functions: wrappers and plumbing. Of certificates only the existence of the two files is modelled.
- The CSR design in docs/cert-provisioning: no such code exists; the handler that exists is modelled.
- `GetAllocations`, `GetAllServers`, `ListConnections` and `GetConnection`: read-only copies or lookups of a map under its mutex.
- `ValidateAgentID`, the pagination clamps and `ParseCommaSeparated`: checks and splits of one request parameter or configuration value, with no state.
- `server.go`, `stream_handler.go`, the agent's message loops, the `Provision` handler and the certificate files are modelled on values, as events of a state machine, and not as classes: each of their methods blocks in the middle while others run, so what they promise is about interleavings. Update in place shows only as the new state of an event.
- A second `ConnectionManager.Stop`, which in Go panics on closing `stopCh` again, is allowed in `ThreeLayer` and harmless there.
- Registry calls after `Stop` are allowed in every model, as in the code.
- Connections.ConnectionManager.SendToAgent: without interference the context is live and the channel open, so the third outcome of the select does not occur; all outcomes are events of `Correlation`.
- Backoff.Client.ConnectionLoop: runs over a finite sequence of turns, since the loop itself ends only when the client is stopped; connecting and streaming take no time in it.
- `body` in `Correlation` stands for a message's payload and metadata; `Codec` says what happens to the metadata.
- Response headers that middleware sets before the handler, and values of a header after the first (which the code drops), are not part of `Codec`.
- Administrators' creation and deletion of certificates are modelled as writes and removals of single files at any time, which includes what their handlers do.
- TargetUrl.TargetSurvivesIff: stops at the parsed URL; how `net/http` writes it to the wire is not modelled. The local URL is a scheme, a host name and perhaps a port; paths, user names, IPv6 literals and escapes in it are not covered.
- What a send on a closed channel does next: in Go it panics, which the HTTP side recovers from and a stream's receive loop does not. In `Correlation` the send just fails and the run goes on, so the model has every run up to the panic, and more.
- Handlers: a registration that fails has no handler, as in the code; what a handler does with its messages is in `Correlation`.
