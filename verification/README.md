# Verified model of rathole-with-proxy

This project models the stateful core of the repository and proves properties of whole
runs of it. `dafny verify dfyconfig.toml` checks everything (Dafny 4.11).

| file | what it models |
|---|---|
| `Basics.dfy` | options, results, byte strings, the idealised digest |
| `MultiMap.dfy` | the two-key registry: a class whose two tables hold pointers to shared heap items |
| `Config.dfy` | configuration records and their validation |
| `Reload.dfy` | the configuration watcher: events from two versions, replayed on the server's and the client's tables |
| `Server.dfy` | the server's service table and registry, updated in place |
| `Client.dfy` | the client's table of running services, updated in place |
| `Sessions.dfy` | control-channel handshakes and reloads interleaved at every `await` |
| `LiveReload.dfy` | reloads handled while handshakes go on |
| `ServerTasks.dfy` | those handshakes and reloads running on the server's tables, step by step |
| `TcpPool.dfy` | the TCP connection pool: listener, pool loop, control channel and client |
| `UdpFraming.dfy` | UDP packets framed on a byte stream |
| `UdpForwarders.dfy` | the client's port map, its per-visitor forwarders and the task that writes their replies |
| `Health.dfy` | health marks, hysteresis, counters and averages |
| `Routing.dfy` | ranking of tunnels and the routing choice |
| `Correlation.dfy` | matching responses to pending requests |

## How it is modelled

- The registry, the configuration loops, the server and client tables, the health map and
  the byte streams are classes and methods in the source's own shape, each proved against
  a specification function; the lemmas then speak about that function.
- Tasks that interleave (`Sessions`, `TcpPool`, `UdpForwarders`, `Correlation`) are
  transition systems. A step is what one task does from one `await` to the next, and a
  lock held across an `await` excludes the steps it excludes in the source. `Possible`
  and `After` describe arbitrary finite runs. A class runs the same tasks in place on the
  shared queues, maps and tables, one method per task and section
  (`ServerTasks.Tasks`, `TcpPool.TcpSession`, `UdpForwarders.DataChannel`,
  `Correlation.PendingResponses`): each method is proved to take exactly one step of the
  system, and the `Run` of each class executes any possible run and ends where `After` says.
- Hypotheses: a digest determines its preimage; nonces and request ids are fresh (they are
  guards of the steps that draw them); a handler's future may be dropped at any await when
  its visitor closes the connection; clocks, I/O results and random values are
  parameters; averages are exact reals.

## Main results

- Registry: `MultiMaps.RunAndDrop` (refines a set of triples; each box freed once).
- Reload: `Reload.WatchConfig`, `Reload.ServerReload`, `Reload.ClientReload` and, on the real
  tables, `Servers.Server.FollowFile` (a diff replayed in any order reproduces the target and
  keeps exactly the unchanged channels); with handshakes in between,
  `LiveReload.FollowUnderLoad`, `LiveReload.ReloadUnderLoad` and `LiveReload.KeptUnderLoad`.
- Sessions: `Sessions.RegistryAfterAnyRun`, `Sessions.InsertSucceeds`,
  `Sessions.NothingSurvivesAReload`, `Sessions.ReplacedKeyIsDead`, and on the real tables
  `ServerTasks.Tasks.Run`.
- Pool: `TcpPool.PoolAfterAnyRun` (first come first served, exclusive channels, the ledger),
  `TcpPool.SettledSession` and `TcpPool.PairableExactlyBelowBound` (progress, with the exact bound),
  `TcpPool.ChannelsNeverWait` (the channel queue never fills), `TcpPool.StoppedIsOver` and
  `TcpPool.ShutdownEnds` (a dropped session winds down for good).
- UDP: `UdpFraming.FramesRoundTripExactly`, `UdpForwarders.ForwardersAfterAnyRun`,
  `UdpForwarders.EndsExactly`, `UdpForwarders.StuckExactly`.
- Health and routing: `Health.StatusFollowsHistory`, `Health.StampIsLastDecision`, `Health.ChangesAreApart`,
  `Health.CountersAreTrailingRuns`, `Health.FailuresNeverHelp`,
  `Health.LatencyIsConvexCombination`, `Routing.CloudExactlyWhenAllCritical`,
  `Routing.CloudDespiteHealthyMatch`.
- Requests: `Correlation.CorrelationAfterAnyRun`, `Correlation.StatusIsRight`.

## Findings

Where the code, its tests and its documentation disagree, the model follows the code.

- A registered control channel can outlive its configuration: a handshake that looked up
  before a reload and committed after it leaves the old configuration registered
  (`Sessions.StaleChannelIsReachable`). `Sessions.RegistryAfterAnyRun` gives the exact
  condition: the service's entry was updated after the handshake read it if and only if a
  reload of the service is midway, or the handshake read before the last update and filed
  its channel after that update's reload had completed; every other channel has the table's
  configuration. (An entry that is changed and changed back is overtaken too, though the
  channel then agrees with it by accident.)
- The UDP loop of the client keeps its first read guard while it asks for a second one
  (rathole/src/client.rs:297 and :333), and the lock serves requests in order. If a
  forwarder queues for the write lock in between, neither ever moves again; the same
  happens when the loop delivers into the full inbox of a forwarder that is queued.
  `UdpForwarders.StuckExactly` gives the exact condition;
  `UdpForwarders.StuckIsReachable` and `UdpForwarders.StuckDeliveringIsReachable` are runs
  that meet it, one for each way.
- A finished forwarder's entry is still in the port map if and only if it returned through
  `?` (`UdpForwarders.ForwardersAfterAnyRun`); its visitor is then never served again
  (`UdpForwarders.LeftBehindForGood`), and a run gets there
  (`UdpForwarders.LeftBehindIsReachable`).
- The test at rathole/src/proxy.rs:816-819 expects that a Critical tunnel is never chosen;
  it is chosen exactly when every match is Critical (`Routing.CriticalOnlyIfAllAre`,
  `Routing.CriticalIsChosen`).
- The test at rathole/src/proxy.rs:829-840 expects Warning after a first failure; a
  fresh entry stays Normal unless a whole hysteresis period passes inside that one call
  (`Health.FirstFailure`).
- The comment at rathole/src/proxy.rs:39 calls `last_transition` the last time the status
  changed. It fails in two ways, and `Health.StampMovesExactly` shows that there is no third:
  a failure stamps again without any change if a whole period has passed and the tunnel is
  already where the failure would move it (`Health.RestampedWarning`), and a health update
  that changes the status never stamps (rathole/src/main.rs:140-143), so that a failure can
  change it again at once (`Health.UnstampedRecovery`).
- A call whose visitor closes the connection leaves its id in the pending-response map,
  exactly as long as no response with that id arrives (`Correlation.CorrelationAfterAnyRun`,
  `Correlation.LeftoverIsReachable`).
- The ranking ignores staleness, so a request can go to the cloud although a healthy
  tunnel matches; for a request during which nothing changes,
  `Routing.CloudDespiteHealthyMatch` says exactly when. The cloud cookie
  of README.md section 6.5 is not implemented and is not modelled.
- rathole/src/lib.rs:88-113 does not connect the watcher's events to the running server or
  client; the reload theorems are about the watcher and the handlers composed.

## Model

| member | source | states |
|---|---|---|
| MultiMaps.MultiMap.Insert | rathole/src/multi_map.rs:58-69 | fails exactly when either key is taken and then changes nothing; otherwise adds one triple in one newly boxed item |
| MultiMaps.MultiMap.Find1 | rathole/src/multi_map.rs:22-40 | a lookup compares only keys inside live items and finds the entry if there is one |
| MultiMaps.MultiMap.Find2 | rathole/src/multi_map.rs:22-40 | the same for the second table |
| MultiMaps.MultiMap.Get1 | rathole/src/multi_map.rs:71-75 | answers with the triple's value, or None exactly if no triple has the key |
| MultiMaps.MultiMap.Get2 | rathole/src/multi_map.rs:83-87 | the same by the second key |
| MultiMaps.MultiMap.Get1Mut | rathole/src/multi_map.rs:77-81 | the borrow is the live item itself, shared with the other table |
| MultiMaps.MultiMap.GetMut2 | rathole/src/multi_map.rs:89-93 | the same by the second key |
| MultiMaps.MultiMap.Write1 | rathole/src/multi_map.rs:77-81 | assigning through the borrow changes exactly the value of that key's triple |
| MultiMaps.MultiMap.Remove1 | rathole/src/multi_map.rs:95-100 | returns the value and removes exactly that triple from both tables, freeing its item |
| MultiMaps.MultiMap.Remove2 | rathole/src/multi_map.rs:102-107 | the same by the second key |
| MultiMaps.MultiMap.Drop | rathole/src/multi_map.rs:110-117 | afterwards every item ever boxed has been freed, by a removal or here, never by both |
| MultiMaps.MultiMap.ContentsUnique | rathole/src/multi_map.rs:12-15 | the representation never holds two triples with a common key |
| MultiMaps.RemovalByEitherKey | rathole/src/multi_map.rs:95-107 | removing by one key also removes the other, and takes one triple only |
| MultiMaps.LookupIsFunctional | rathole/src/multi_map.rs:83-87 | a key has one answer |
| MultiMaps.FiledIsFound | rathole/src/multi_map.rs:58-87 | a triple filed is what both its keys resolve to, and no other key notices |
| MultiMaps.WriteSeenThroughOtherKey | rathole/src/multi_map.rs:77-93 | a write through get1_mut is what get2 then returns, and no other key notices |
| MultiMaps.RunAndDrop | rathole/src/multi_map.rs:51-117 | any sequence of calls is answered as by the set of triples, keys stay unique throughout, and there is one box per successful insertion, one freed per successful removal, and the rest, each once, by Drop |
| Configs.ValidateServerConfig | rathole/src/config.rs:276-291 | accepted exactly when every service has a token or there is a default and the transport is usable; each service then carries its key as name, keeps a token of its own and gets the default only without, and nothing else changes |
| Configs.ValidateClientConfig | rathole/src/config.rs:293-311 | the same for clients; a service keeps a retry interval of its own and gets the client's only without |
| Configs.TransportRefusedExactly | rathole/src/config.rs:313-345 | each error of the transport check, by the settings that cause it |
| Configs.FromParsed | rathole/src/config.rs:261-273 | accepts exactly files with a server or a client section in which each section is acceptable, and establishes that names equal keys and tokens are set |
| Configs.CompletionIsIdempotent | rathole/src/config.rs:276-311 | a completed configuration is accepted again and completing it changes nothing |
| Reload.DiffReachesTarget | rathole/src/config_watcher.rs:253-263 | a difference replayed in any order turns the old table into the new one |
| Reload.InstanceEventsExactly | rathole/src/config_watcher.rs:242-264 | whatever the hash map's iteration orders, the events are exactly the deleted and the new or changed services |
| Reload.CalculateServerEvents | rathole/src/config_watcher.rs:242-264 | None exactly unless the new section is the old one but for its services, else exactly the service changes |
| Reload.CalculateClientEvents | rathole/src/config_watcher.rs:242-264 | the same for the client section |
| Reload.CalculateEvents | rathole/src/config_watcher.rs:205-239 | None exactly for equal versions, one General event exactly when anything but the services of a section differs, else the whole difference of both sections |
| Reload.ServerReload | rathole/src/server.rs:226-247 | replaying a difference in any order yields exactly the new table, keeps the channel of every unchanged service and drops that of every changed or deleted one, and moves no other |
| Reload.ClientReload | rathole/src/client.rs:148-167 | replaying a difference in any order leaves exactly the new services running, unchanged ones on the handle they had |
| Reload.VersionsExactly | rathole/src/config_watcher.rs:171-198 | one more content of the file adds a version exactly if it is acceptable, completed |
| Reload.WatchConfig | rathole/src/config_watcher.rs:171-198 | over any sequence of file versions, a General event is sent exactly if some accepted pair needs a restart; otherwise replaying all events ends in the tables of the last version, and a channel survives exactly if its service never changed |
| Servers.Server.GenerateServiceHashmap | rathole/src/server.rs:109-117 | the table holds each service under the digest of its name |
| Servers.Server.constructor | rathole/src/server.rs:121-132 | a new server has its configuration's table and an empty registry |
| Servers.Server.UpdateService | rathole/src/server.rs:229-239 | the first half of a reload changes only that service's entry |
| Servers.Server.DropChannel | rathole/src/server.rs:234-242 | the second half removes exactly that service's channel |
| Servers.Server.HandleHotReload | rathole/src/server.rs:226-247 | updates the table and drops the service's channel; events for the client or a restart are ignored |
| Servers.Server.FileChannel | rathole/src/server.rs:351-356 | files the new channel; the discarded insert fails exactly if either key is taken |
| ServerTasks.Tasks.constructor | rathole/src/server.rs:121-132 | no handshake, no reload, an empty registry and the configuration's table |
| ServerTasks.Tasks.Greet | rathole/src/server.rs:288-299 | a handshake of its own for each client that says hello |
| ServerTasks.Tasks.ReadService | rathole/src/server.rs:301-312 | remembers the configuration read, or ends for an unknown service |
| ServerTasks.Tasks.CheckAnswer | rathole/src/server.rs:314-331 | goes on exactly for the digest of the token and this handshake's nonce |
| ServerTasks.Tasks.DropPrevious | rathole/src/server.rs:333-344 | takes the write lock and removes exactly the service's previous channel |
| ServerTasks.Tasks.Conclude | rathole/src/server.rs:346-357 | after the awaited acknowledgement files the handshake's own channel, or none if it was not delivered, and frees the lock |
| ServerTasks.Tasks.Commit | rathole/src/server.rs:333-357 | the whole section replaces the service's channel, or leaves the service without one |
| ServerTasks.Tasks.BeginReload | rathole/src/server.rs:229-239 | updates the table entry; only adding keeps the services lock |
| ServerTasks.Tasks.FinishReload | rathole/src/server.rs:233-242 | drops the service's channel once the registry's lock is free |
| ServerTasks.Tasks.Run | rathole/src/server.rs:226-360 | any interleaving of these sections on the pointer-based registry ends in the state the transition system says, with its invariant |
| ServerTasks.Tasks.ControlHandshake | rathole/src/server.rs:277-360 | an unknown service and a wrong answer are refused without touching the registry; a right answer files the channel under the session key if the acknowledgement goes out |
| Servers.Server.Resolve | rathole/src/server.rs:369-384 | a data channel's key finds the channel filed under it or nothing |
| Servers.Server.Shutdown | rathole/src/server.rs:220-221 | every item of the old registry is freed |
| Servers.Server.FollowFile | rathole/src/server.rs:212-247 | watcher and handler composed on the real tables end in step with the last version of the file |
| LiveReload.TableFollowsEvents | rathole/src/server.rs:226-312 | in any run the service table is what the changes handled make of it, whatever handshakes do |
| LiveReload.FollowerInStep | rathole/src/server.rs:226-360 | after events handled under load: the table they make, and a channel without its configuration only for a service some event is about, and only if it was overtaken |
| LiveReload.ReloadUnderLoad | rathole/src/server.rs:226-360 | the difference of two versions, in any order and with any handshakes in between, ends in the new version's table; only services that differ are touched |
| LiveReload.DropsExactly | rathole/src/server.rs:226-344 | a channel goes exactly when a handshake of its service commits or a reload of its service completes |
| LiveReload.KeptUnderLoad | rathole/src/server.rs:226-360 | through any run whose changes leave its service alone, a channel stays registered exactly as long as no handshake of the service commits |
| LiveReload.FollowUnderLoad | rathole/src/config_watcher.rs:171-198 | whatever the watcher sends, every run that handles it in order ends in step with the last version, and it touches exactly the services that changed on the way |
| Clients.Client.StartAll | rathole/src/client.rs:109-118 | starts one control channel of its own for each configured service |
| Clients.Client.HandleHotReload | rathole/src/client.rs:148-167 | starts or drops one service |
| Clients.Client.ReloadTo | rathole/src/client.rs:148-167 | after a reload exactly the new services run, unchanged ones on the control channel they had |
| Sessions.InsertSucceeds | rathole/src/server.rs:339-356 | with fresh nonces the discarded answer of insert is always Ok |
| Sessions.StepKeepsInv | rathole/src/server.rs:226-360 | every step of handshakes and reloads keeps the invariant |
| Sessions.RegistryAfterAnyRun | rathole/src/server.rs:226-360 | after any interleaving: one channel per service and per key, each under its own handshake's key; a channel is overtaken by an update exactly if a reload is midway or its handshake looked up before the update and committed after its reload; any other equals the table |
| Sessions.GoneForGood | rathole/src/server.rs:339-356 | a dropped channel never comes back |
| Sessions.NothingSurvivesAReload | rathole/src/server.rs:226-247 | a channel registered when a reload of its service completes is gone at every later time |
| Sessions.DataChannelReachesItsSession | rathole/src/server.rs:362-387 | a session's key reaches that session's control channel, or nothing exactly if it is no longer filed |
| Sessions.ReplacedKeyIsDead | rathole/src/server.rs:335-344 | the key of a replaced session resolves to nothing for ever |
| Sessions.HonestClientIsAccepted | rathole/src/client.rs:439-446 | client and server agree on the session key exactly if they hold the same token |
| Sessions.OnlyTokenHoldersRegister | rathole/src/server.rs:318-333 | in any run a handshake gets past validation only if its client answered with the digest of the token and this handshake's nonce |
| Sessions.FailedExactly | rathole/src/server.rs:301-360 | in any run a handshake has failed exactly if its client hung up, asked for an unknown service, answered wrongly or could not be told, or the service is an HTTP one |
| Sessions.FailedIsOver | rathole/src/server.rs:321-331 | a failed handshake takes no step any more, so a wrong answer is final |
| Sessions.LockExcludes | rathole/src/server.rs:333-357 | while a handshake holds the write lock, nobody else changes the registry |
| Sessions.LookupWaitsExactly | rathole/src/server.rs:229-242 | in any run a handshake waits for the service table exactly while a service is being added |
| Sessions.CommitOutcome | rathole/src/server.rs:339-356 | without fresh nonces: the new channel is filed exactly if no other service's channel has its key, else the service is left without one |
| Sessions.StaleChannelIsReachable | rathole/src/server.rs:301-356 | a run that leaves a channel with an outdated configuration registered and no reload in progress |
| TcpPool.StepKeepsInv | rathole/src/server.rs:511-660 | every step of every task keeps order, exclusiveness and the ledger |
| TcpPool.PoolAfterAnyRun | rathole/src/server.rs:417-660 | after any interleaving: the i-th visitor served is the i-th accepted, no channel serves two, and requests + commands + opening + lost + queued (or in hand) = pool size + visitors not yet paired |
| TcpPool.ChannelsNeverWait | rathole/src/server.rs:369-380 | in every run the channel queue holds at most pool size + visitor queue + 2 channels, under half its capacity, so a handshake never waits for room while it holds the registry's guard |
| TcpPool.PairsOnlyGrow | rathole/src/server.rs:641-645 | a pairing is never undone |
| TcpPool.PipelineMoves | rathole/src/server.rs:516-656 | while a visitor waits below the loss bound some task can take a helpful step |
| TcpPool.StepWeight | rathole/src/server.rs:516-656 | every helpful step uses up remaining work; a setback adds at most five units |
| TcpPool.SettlingIsBounded | rathole/src/server.rs:516-656 | runs without new visitors are bounded by the work left and the setbacks met |
| TcpPool.SettledSession | rathole/src/server.rs:638-656 | a settled session has paired everyone, or has lost exactly pool size + waiting channels |
| TcpPool.CanStillPair | rathole/src/server.rs:638-656 | below the bound the oldest waiting visitor can be paired by helpful steps alone |
| TcpPool.StarvedForGood | rathole/src/server.rs:638-656 | with nothing underway nobody is paired without a new visitor, in any run |
| TcpPool.PairableExactlyBelowBound | rathole/src/server.rs:638-656 | the loss bound is exact, both ways |
| TcpPool.DownExactly | rathole/src/server.rs:511-660 | in any run a task is down exactly if some step broke out of its loop |
| TcpPool.StoppedIsOver | rathole/src/server.rs:511-660 | after the listener, the pool or the control channel has left its loop, no later step of the run is its |
| TcpPool.Tally | rathole/src/server.rs:511-660 | visitors, pairs, requests, commands and losses are what the steps of the run add up to |
| TcpPool.CommandsInOrder | rathole/src/client.rs:506-520 | until a write fails the client reads the commands taken up in order, none skipped, and starts one data channel per CreateDataChannel |
| TcpPool.EveryChannelHasAPlace | rathole/src/server.rs:511-660 | in any run a started data channel is opening, lost, broken, queued, in hand or serving |
| TcpPool.ShutdownEnds | rathole/src/server.rs:538-656 | with the handle dropped the closing steps are bounded, and when none is left all three tasks are down |
| TcpPool.WindsDown | rathole/src/server.rs:538-656 | a run to that end from any state, with no visitor accepted |
| TcpPool.TcpSession.constructor | rathole/src/server.rs:411-428 | a new session has eight requests queued and nothing else |
| TcpPool.TcpSession.ListenerTurn | rathole/src/server.rs:583-620 | the listener's code takes exactly one listener step, or is blocked |
| TcpPool.TcpSession.PoolTurn | rathole/src/server.rs:638-656 | the pool loop's code takes exactly one pool step, or is blocked |
| TcpPool.TcpSession.ControlTurn | rathole/src/server.rs:511-547 | the control channel's code takes exactly one step, or is blocked |
| TcpPool.TcpSession.ClientTurn | rathole/src/client.rs:506-520 | each CreateDataChannel starts one data channel, heartbeats none |
| TcpPool.TcpSession.ChannelTurn | rathole/src/server.rs:369-384 | a data channel that arrives is queued, waits for room, or is lost |
| TcpPool.TcpSession.Run | rathole/src/server.rs:411-660 | the tasks' code in any order ends where the run does, with its invariant |
| UdpFraming.HeaderRoundTrip | rathole/src/protocol.rs:61-66 | a header decodes to the address and length it encodes, in 12 or 24 bytes |
| UdpFraming.LayoutExample | rathole/src/protocol.rs:61-87 | the byte layout of one frame, spelled out |
| UdpFraming.LayoutExampleV6 | rathole/src/protocol.rs:61-87 | the same for an IPv6 address |
| UdpFraming.DecodesExactly | rathole/src/protocol.rs:114-134 | which bytes are a header, and that bytes after it make no difference |
| UdpFraming.CutFrameFails | rathole/src/protocol.rs:114-134 | a connection that ends in the middle of a frame yields no packet for it |
| UdpFraming.CutExactly | rathole/src/server.rs:693-700 | a datagram is received up to its first 2048 bytes |
| UdpFraming.ParseOfFrame | rathole/src/protocol.rs:75-134 | what a reader makes of any frame, oversized ones included |
| UdpFraming.FramesRoundTripExactly | rathole/src/protocol.rs:75-134 | a stream of frames reads back as written, to the last byte, if and only if every payload is under 65536 bytes |
| UdpFraming.Stream.WriteSlice | rathole/src/protocol.rs:93-112 | appends exactly one frame |
| UdpFraming.Stream.ReadTraffic | rathole/src/protocol.rs:114-134 | takes exactly one packet off the stream, or fails on a short stream or a bad header |
| UdpFraming.Stream.ReadAllTraffic | rathole/src/client.rs:291-296 | the reading loop returns what parsing the stream gives |
| UdpFraming.ForwardInbound | rathole/src/server.rs:693-700 | the server's loop writes one frame for each datagram as received |
| UdpFraming.Relay | rathole/src/server.rs:693-700 | whatever datagrams come in, the client reads exactly them, cut only by the receive buffer |
| UdpForwarders.StepKeepsInv | rathole/src/client.rs:277-391 | every step keeps the port map, the order of payloads and replies, the addresses and the queue bounds right |
| UdpForwarders.ForwardersAfterAnyRun | rathole/src/client.rs:257-391 | after any interleaving: one unfinished forwarder per address; a finished one still has its entry exactly if it returned with an error; each forwarder got all its visitor's packets of the stream in order; each reply carries the address of the packet that opened the socket; and the replies written are the first answers the service gave in this run, in order and once each, all but those on the line until a write fails |
| UdpForwarders.RemovesOnlyItsOwn | rathole/src/client.rs:386-387 | the address removed is still mapped to the forwarder removing it |
| UdpForwarders.AnswersAreRead | rathole/src/client.rs:356-376 | a forwarder has read exactly the answers its service gave in the run, and passed on as many payloads as its socket took |
| UdpForwarders.PacketsAreRead | rathole/src/client.rs:291-296 | the packets are exactly those of the run, in order |
| UdpForwarders.LoopsEnd | rathole/src/client.rs:277-296 | the loop has ended exactly if the stream did, the writing task exactly if a write failed |
| UdpForwarders.EndsExactly | rathole/src/client.rs:356-390 | in any run a forwarder erred exactly if its socket refused a payload or it queued a reply after a failed write; it left its loop, or removed itself, exactly if it took that step |
| UdpForwarders.GuardExcludes | rathole/src/client.rs:297-336 | while the main loop holds a guard no forwarder changes the port map |
| UdpForwarders.FailedConnectGivesUp | rathole/src/client.rs:314-336 | without a socket the packet is given up and nothing else changes |
| UdpForwarders.LeftBehindForGood | rathole/src/client.rs:356-377 | after an error return the entry stays and no forwarder ever runs for that visitor again |
| UdpForwarders.LeftBehindIsReachable | rathole/src/client.rs:356-359 | a run that leaves a visitor behind |
| UdpForwarders.StuckForGood | rathole/src/client.rs:297-336 | once stuck, the main loop never reads another packet |
| UdpForwarders.StuckExactly | rathole/src/client.rs:297-376 | in the middle of a packet the main loop can go on, with no failure to help it, unless it holds a guard that the forwarder it depends on is queued behind; waiting for a slot for a reply is never for ever |
| UdpForwarders.StuckIsReachable | rathole/src/client.rs:297-391 | a run that ends stuck between the two lookups |
| UdpForwarders.StuckDeliveringIsReachable | rathole/src/client.rs:333-391 | a run that ends stuck delivering into a full inbox |
| UdpForwarders.DataChannel.ReadPacket | rathole/src/client.rs:291-296 | reads a packet or ends with the stream |
| UdpForwarders.DataChannel.MainTurn | rathole/src/client.rs:297-336 | the loop's code takes exactly one step, or is blocked |
| UdpForwarders.DataChannel.ToServiceArm | rathole/src/client.rs:356-362 | passes the oldest payload on, or ends by error |
| UdpForwarders.DataChannel.FromServiceArm | rathole/src/client.rs:364-374 | takes one reply in hand, cut to the buffer, or leaves the loop on an error |
| UdpForwarders.DataChannel.SendReply | rathole/src/client.rs:376 | queues the reply once there is a slot, waits while there is none, or ends by error once nobody writes |
| UdpForwarders.DataChannel.Leave | rathole/src/client.rs:380-390 | leaves the loop, and later removes the entry |
| UdpForwarders.DataChannel.WriterTurn | rathole/src/client.rs:277-289 | takes one reply off the queue or writes it out; a failed write ends the task and drops the queue |
| UdpForwarders.DataChannel.Run | rathole/src/client.rs:257-391 | the tasks' code in any order ends where the run does, with its invariant |
| Health.HealthData.MarkTunnelSuccess | rathole/src/proxy.rs:141-172 | changes only this tunnel's entry, to what the transition function says |
| Health.HealthData.MarkTunnelFailure | rathole/src/proxy.rs:175-204 | the same for a failure |
| Health.HealthData.HealthUpdate | rathole/src/main.rs:127-146 | changes only this tunnel's status and update stamp |
| Health.HealthData.Record | rathole/src/proxy.rs:139-204 | after any interleaving each tunnel's entry is what its own events alone make of it |
| Health.CountersAreTrailingRuns | rathole/src/proxy.rs:148-149 | the counters are the lengths of the latest unbroken runs, capped at the u32 maximum, and at most one is not zero |
| Health.TrailingExactly | rathole/src/proxy.rs:148-149 | a run is at least k long exactly if the latest k marks are all of its kind |
| Health.MarksAloneCount | rathole/src/main.rs:140-143 | health updates change nothing but the status and the update stamp |
| Health.StampIsLastDecision | rathole/src/proxy.rs:139-204 | `last_transition` is the time of the latest mark in the history that decided on the status, or of the entry's making |
| Health.StatusFollowsHistory | rathole/src/proxy.rs:162-203 | exactly when a mark changes the status and to what, in terms of the history alone |
| Health.CriticalExactly | rathole/src/proxy.rs:189-195 | a mark makes a tunnel Critical exactly at the fifth failure in a row or later, ten seconds after the period began |
| Health.NormalExactly | rathole/src/proxy.rs:162-172 | a mark makes a Warning tunnel Normal exactly at the third success in a row or later, after the same period |
| Health.StampsWithoutChange | rathole/src/proxy.rs:189-203 | exactly when a mark moves the transition stamp and not the status |
| Health.ChangesWithoutStamp | rathole/src/main.rs:140-143 | the status changes and the stamp does not exactly if a health update changes it |
| Health.StampMovesExactly | rathole/src/proxy.rs:139-204 | for every event: the stamp moves exactly when the status changes, if and only if the event is neither such a failure nor such an update |
| Health.RestampedWarning | rathole/src/proxy.rs:189-203 | a history stamped later than its latest status change |
| Health.UnstampedRecovery | rathole/src/main.rs:140-143 | a history whose two latest status changes left the stamp at the entry's making |
| Health.StampsAreLatest | rathole/src/proxy.rs:146-181 | the stamps are those of the latest event and latest marks |
| Health.OnlyUpdatesLeaveCritical | rathole/src/hardware.rs:12-22 | Critical is left only by a health update and only to Normal |
| Health.TransitionStamp | rathole/src/proxy.rs:167-201 | a status change by a mark comes a full hysteresis period after the entry was made and is never later than the stamp |
| Health.ChangesAreApart | rathole/src/proxy.rs:71-204 | any two status changes by marks on one tunnel are at least the hysteresis period apart |
| Health.FirstFailure | rathole/src/proxy.rs:175-204 | a first failure warns exactly if the hysteresis period passes within the call |
| Health.RateOfEntry | rathole/src/proxy.rs:160-186 | the entry's error rate is the fold of its marks |
| Health.RateStaysBelowOne | rathole/src/proxy.rs:160-186 | the error rate stays in [0, 1) |
| Health.RateAfterFailures | rathole/src/proxy.rs:186 | n failures from e give 1 - (1 - e) * 0.8^n |
| Health.RateAfterSuccesses | rathole/src/proxy.rs:160 | n successes from e give e * 0.9^n |
| Health.FailuresNeverHelp | rathole/src/proxy.rs:160-186 | turning successes of a history into failures never lowers the error rate |
| Health.LatencyIsAverage | rathole/src/proxy.rs:152-157 | the entry's latency is the rolling average of the samples reported |
| Health.WeightsAreConvex | rathole/src/proxy.rs:152-157 | the weights of the samples are positive and add up to one |
| Health.LatencyIsConvexCombination | rathole/src/proxy.rs:152-157 | the latency is the samples' weighted sum with such weights |
| Health.LatencyWithinSamples | rathole/src/proxy.rs:152-157 | it lies between the smallest and the largest sample |
| Routing.CompareIsLexicographic | rathole/src/proxy.rs:335-364 | better exactly by a healthier status, then a lower error rate, then a lower latency; an unknown tunnel counts as Warning, 0.5 and 9999 |
| Routing.CompareIsTotalPreorder | rathole/src/proxy.rs:330-365 | the comparator is a total preorder |
| Routing.SortBy | rathole/src/proxy.rs:330-365 | the sorted candidates are the same ones, in order, and those that rank the same stay as listed |
| Routing.MatchesExactly | rathole/src/proxy.rs:316-319 | a tunnel matches exactly if it is the name itself or the name, a dash and anything |
| Routing.ChooseBestTunnel | rathole/src/proxy.rs:305-374 | a registered match that no registered match beats in status, then error rate, then latency; or None exactly if nothing matches |
| Routing.CriticalOnlyIfAllAre | rathole/src/proxy.rs:335-354 | the choice is Critical exactly if every match is |
| Routing.CriticalIsChosen | rathole/src/proxy.rs:335-354 | a Critical tunnel that is the only match is the choice |
| Routing.SubdomainOf | rathole/src/proxy.rs:220 | the part of the host before its first dot |
| Routing.RouteRequest | rathole/src/proxy.rs:226-296 | whatever changes between its three reads: a usable cookie wins; else a tunnel that ranked first and is still healthy when checked; else the cloud |
| Routing.RouteIsJustified | rathole/src/proxy.rs:226-296 | the tunnel used was registered when looked up and healthy when checked; the cloud despite a match means a tunnel at least as good was not |
| Routing.HealthyExactly | rathole/src/proxy.rs:240-272 | healthy is what is unknown, or not Critical and updated less than thirty seconds ago |
| Routing.CookieSticks | rathole/src/proxy.rs:230-261 | the tunnel of the cookie is used exactly as long as it is registered and healthy |
| Routing.CloudExactlyWhenAllCritical | rathole/src/proxy.rs:263-295 | when nothing changes during a request, without a usable cookie or a stale match: to the cloud exactly when every match is Critical or there is none |
| Routing.CloudDespiteHealthyMatch | rathole/src/proxy.rs:263-295 | when nothing changes during a request that has a healthy match: to the cloud exactly when a least match is stale |
| Routing.StaleFavourite | rathole/src/proxy.rs:263-295 | such a request |
| Correlation.SenderNeverDropped | rathole/src/proxy.rs:453-458 | the dropped-sender branch is never taken |
| Correlation.StepKeepsInv | rathole/src/proxy.rs:376-467 | every step keeps the correlation invariant |
| Correlation.CorrelationAfterAnyRun | rathole/src/proxy.rs:376-467 | after any interleaving a call is answered with the first response bearing its id, one that waits has it as soon as it has arrived, and a call that is over left its id exactly if it was abandoned or failed between registration and send and nothing with that id has come |
| Correlation.OutcomeIsFinal | rathole/src/proxy.rs:426-466 | the outcome of a call that is over, and the one response it may carry, never changes |
| Correlation.StatusIsRight | rathole/src/proxy.rs:391-466 | in any run a call that ended did so with Gateway Timeout exactly if it timed out, Bad Gateway exactly if the tunnel refused it, Bad Request or Internal Server Error exactly if its body or encoding failed, and an answer exactly if it received one |
| Correlation.StagesBySteps | rathole/src/proxy.rs:391-466 | how far a call has come, by the steps the run took for it |
| Correlation.CallsAreRegistered | rathole/src/proxy.rs:382-389 | the calls are those registered in the run, in order |
| Correlation.ArrivalsAreRecorded | rathole/src/main.rs:147-153 | the responses are those that arrived in the run |
| Correlation.FirstSinceExactly | rathole/src/main.rs:147-153 | the response due is the earliest with that id since the call registered |
| Correlation.LeftUntilAnswered | rathole/src/proxy.rs:376-467 | an id left behind stays through any run until a response with it arrives |
| Correlation.LeftoverIsReachable | rathole/src/proxy.rs:425-467 | a run that leaves the id of an abandoned call |
| Correlation.PendingResponses.RegisterCall | rathole/src/proxy.rs:382-389 | files the call's sender under its id |
| Correlation.PendingResponses.Prepare | rathole/src/proxy.rs:391-412 | a body that cannot be read or a message that cannot be encoded ends the call with its id still in the map |
| Correlation.PendingResponses.Send | rathole/src/proxy.rs:415-419 | waits if the tunnel took the message, else turns to cleaning up |
| Correlation.PendingResponses.Await | rathole/src/proxy.rs:425-466 | a response in hand wins over an expired timer |
| Correlation.PendingResponses.CleanAfterError | rathole/src/proxy.rs:420-464 | takes the id out and ends the call, after a timeout and a refusal each with the status `StatusIsRight` gives it |
| Correlation.PendingResponses.Drop | rathole/src/proxy.rs:425-467 | dropping the handler's future takes the receiver and leaves the map alone |
| Correlation.PendingResponses.HandleResponse | rathole/src/main.rs:147-153 | takes the sender out and delivers the response in one step |
| Correlation.PendingResponses.Run | rathole/src/proxy.rs:376-467 | the handlers' code in any order ends where the run does, with its invariant |

## Left out

- The `tunnel` handler of `main.rs`, tunnel registration and cleanup, JWT and login: no clean claim holds of the cleanup, and the handler repeats the correlation pattern without its clean-up.
- The second half of `run_udp_connection_pool` (frames from the client to the visitors): the same framing in the other direction; the pool takes one channel and has no ledger.
- The fixed-length readers of `protocol.rs` for hello, auth, ack and commands: messages are values in `Sessions` and `TcpPool`; their byte round trips would add only easy members, and a half-read command dropped by `select!` is not modelled.
- `ServiceType::Http`: making its handle panics in the source; a handshake for it ends without a channel.
- Retrying to bind a listener, accept errors, backoff and heartbeats' timing: they delay steps and change no state; heartbeats are steps that may happen at any time.
- Shutting down the server as a step of `Sessions`: `Servers.Server.Shutdown` covers what it does to the registry.
- Header and body conversion, cookie text, Redis and the cloud request: plumbing; the cloud is one outcome.
- Health thresholds of `hardware.rs`: an update sets Normal or Critical, whichever the hardware says.
- Floating-point rounding and NaN: averages and keys are exact reals.
- IPv6 flow labels and scope ids: not on the wire.
- Servers.Server.FollowFile: no handshake runs between two events here; with handshakes in between it is `LiveReload.FollowUnderLoad`, over the steps that `ServerTasks.Tasks` takes on the same tables.
- Servers.Server.Resolve: the read guard it runs under is then kept while the channel is queued; that wait is `TcpPool.ChannelsNeverWait`, about one session with its own handle.
- TcpPool.TcpSession.ChannelTurn: the lookup of the key is a flag here; that the key finds this session's handle exactly while it is registered is `Sessions.DataChannelReachesItsSession`.
- Routing.SortBy: the library's sort is given a body here.
