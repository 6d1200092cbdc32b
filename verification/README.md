# The servicebroker and the DSI wire path, verified

A Dafny model of two parts of the DSI framework, with proofs about them.

**The servicebroker** keeps a registry of servers and clients and wakes those who wait for
changes. One dispatcher runs request handlers, connection cleanup, and the pulses and job
results of a parent broker (the master). All of them change the same tables: a sorted server
list, a client list, four notification lists, pools of notifications set at the master, and
each connection's ID lists. Much of the work happens in destructors. The model has one
function per handler (`BrokerSpec`), an invariant that every handler keeps
(`BrokerInv` to `BrokerMaster`), theorems about every run (`BrokerTheorems`, `BrokerExact`,
`BrokerConsent` on who withdraws a notification, `BrokerOwners` on who owns a server,
`BrokerWatch` on shared pools of watchers, `BrokerStrand` on pools of waiting clients, and
`BrokerGrants` on lost grants; `BrokerCalm` serves these three), what each event does to tables and
lists, told without the handlers' functions (`BrokerEffects`, `BrokerWaits`, `BrokerRegistry`,
`BrokerSession`), who is told of the end of a client (`BrokerFarewell`), and the object itself with
mutable fields and loops, proved to compute the same steps (`Servicebroker.dfy`). Beside it stand the reference-counted pool of pulse sockets
(`PulseChannels`), the job queue with the worker thread that serves it (`Jobs`), and the
intrusive list (`Slist.dfy`).

**The DSI wire path** writes typed values aligned into a growing buffer, cuts the message into
packets, puts it together and reads the values back: the UTF-8 codec (`Utf8`), the format
(`Wire`), the reader on arbitrary bytes (`WireReader`), what comes back (`WireRoundTrip`), the
stream objects (`Streams`), packets (`Packets`), whole messages (`Transport`) and vector
attributes with partial updates (`Attributes`).

## How to read it

- IDs are fresh naturals. Allocation succeeds. A channel is a reliable ordered byte stream.
  Padding, and memory behind a buffer's data, is arbitrary.
- The tables are modelled as in the default build, without the server cache; the run-time
  switch for it is taken as off.
- Configuration and operating system answers (local and forwarded services, group membership,
  expression matching, whether a connect succeeds) are parameters of the model.
- The broker's histories (`past`, and `granted`, `cleared`, `lent`, `steady`, `session` of the link) are
  not part of the program: they record what was handed out, pulsed, withdrawn and granted, so
  that the theorems can speak about it. `lent` holds what was granted to client and list
  notifications and has had no clear job since.
- `SPartyID::operator==` compares local IDs only. Pools and attached clients are found with it;
  servers, sweeps and removals compare whole IDs.
- The broker machine takes two facts about the master's link from `Jobs`: results arrive in the
  order of pushing, and a successful result arrives only within a session. The link flag itself
  may change between any two handlers.
- A master's answer has the shape of the request: as many IDs as a batch has entries, and the
  cookies it was sent. Connection numbers are positive and not reused while in use.
- A scalar travels as its bit pattern, least significant byte first. A map is written in the
  order its iterator visits it; the model allows any order.

## What the proofs found

- Disconnect pools are found by the local ID alone, and every broker counts its servers from
  500001. A client that waits for the end of <8.500001> while another waits for <7.500001> is
  pulsed when <7.500001> ends, and the master is never asked about <8.500001>: `OneForTwo`,
  `BothForOne`; `WatchedIff` and `WatchedAlwaysIff` give the exact condition.
- Those who wait for the end of a client are told when it detaches or its own connection closes. When
  its server unregisters, or the server's connection closes, the client vanishes without a pulse, and
  nobody is told afterwards either (`WaitsForNothing`); who waits for a client that only shares its
  local ID with an attached one waits for nothing, too. `ForsakenIff` and `ForsakenAlwaysIff` are the
  exact conditions.
- Attached clients are found by the local ID as well, so a detach may not reach the master and a wait for a
  client's end may not be answered (`DetachReachesMasterIff`, `DetachPulsedIff`).
- A notification without a pool has its own ID cleared at the master, not the one the master
  granted: `GrantLost` is a run that loses an ID, `EchoedGrantsKept` and `UnechoedGrantIsLost` say
  when that happens.
- A slave that reuses a server ID gives a server two owners (`ReusedIdsClash`) or, after one
  unregistration, none (`ReusedIdOrphans`); `SlaveKeepsOwnedIff` and `OwnershipAlwaysIff` are the
  exact conditions. Everything else the model claims of runs holds with reused IDs as well.
- Pools of waiting clients are not counted: when one client gives up, the pool goes, and another
  one that shares it keeps the dead pool's ID, and forwarding passes over it (`WaiterStranded`,
  `StrandedSkipped`); `StrandedIff` and `StrandedAlwaysIff` are the exact conditions.
- A message of several packets delivers sizeof(EventInfo) bytes more than were meant: at the end
  of a data message, in the middle of a control message (`ArrivesExactlyIff`). These bytes may lie
  behind the end of the buffer (`FlushInsideIff`, `TightBuffer`).
- The map reader adds to its target and uses one key and one value object for all entries, so a
  map whose values hold maps keeps keys of the entry before: `SurvivesIff` gives the exact
  condition, `StaleKeysReturn` an instance. An attribute of map type that is read over its old
  value keeps old keys in the same way (`RoundTripIff`).
- The variant reader's table is off at the IDs 9 and 10 (`VariantSurvives`).
- Attribute updates carry a 16-bit count; longer ones do not arrive, or arrive in part
  (`FollowsIff`). Deleting a longer rest erases a reversed range of iterators, or less than the
  rest (`DeleteRestIff`).
- The comment on `powerOf2` speaks of a power of two and of double the static buffer; the code
  starts at the static size itself and doubles that (`PowerOf2`).

## Model

| member | source | states |
|---|---|---|
| `BrokerTheorems.NoWakeupIsLost` | src/servicebroker/Servicebroker.cpp:189-240 | After every run of handlers no active server-available notification matches a registered server (same name, same major, requested minor not above the offered one). |
| `BrokerTheorems.ClientIntegrity` | src/servicebroker/Servicebroker.cpp:2941-2964 | After every run, whatever IDs the slaves sent, each attached client names a registered server and a live connection that lists the client, and client IDs are distinct. |
| `BrokerOwners.RegistryIntegrity` | src/servicebroker/Servicebroker.cpp:2941-2964 | After every run in which no slave reused a server ID, server IDs are distinct, each registered server is owned by exactly one live connection, and connections list registered servers only. |
| `BrokerOwners.OwnershipAlwaysIff` | src/servicebroker/Servicebroker.cpp:1607-1719 | Over all runs: every registered server has exactly one owner at every handler boundary, also after any server is unregistered there, exactly when no slave ever reused a server ID. So any reuse shows, at once or one unregistration later, as two owners or none. |
| `BrokerTheorems.CloseLeavesNothing` | src/servicebroker/ClientSpecificData.cpp:28-95 | After every run that ends with closing a connection, none of the four lists holds a notification it registered, no client is attached through it, and it is gone; although std::remove only shifts the ID list and destructors rewrite it during the sweep. |
| `BrokerTheorems.PoolsExactAndLeakFree` | src/servicebroker/NotificationPool.cpp:44-68 | After every run each disconnect pool's refcount is the number of notifications carrying its ID and is positive, no two pools are found by the same lookup, and while the link held every ID the master granted to a pool is in a live pool or has a clear job. |
| `BrokerTheorems.WatchersAreSound` | src/servicebroker/Servicebroker.cpp:1004-1068 | After every run each disconnect notification watches a registered server, or a foreign one and is in a live master pool that monitors a server with the same local ID; `WatchedIff` says when it is that very server. |
| `BrokerTheorems.MasterLossLeavesLocalWatchers` | src/servicebroker/Servicebroker.cpp:2382-2410 | Right after handleMasterDisconnected every remaining disconnect notification watches a registered server. |
| `BrokerTheorems.NotificationsConserved` | src/servicebroker/NotificationList.cpp:35-223 | After every run every notification ID handed out is listed, was pulsed, or was withdrawn (`WithdrawnByOwner` says by whom); only list-change notifications are pulsed twice; nothing listed elsewhere was pulsed or withdrawn. |
| `BrokerConsent.WithdrawnByOwner` | src/servicebroker/NotificationList.cpp:340-368 | After every run each withdrawn notification was cleared by a request of the connection that registered it, or went when that connection closed. |
| `BrokerConsent.StepConsent` | src/servicebroker/Servicebroker.cpp:1294-1316 | No event changes who registered a notification, and none but a clear request or the close of its owner withdraws one. |
| `BrokerTheorems.TableStaysSorted` | src/servicebroker/ServerList.cpp:63-88 | After every run, whatever IDs the slaves sent, the server table is strictly descending by name, so the binary search is right at every call. |
| `BrokerTheorems.StepKeepsInv` | src/servicebroker/Servicebroker.cpp:2559-2885 | Every event that the dispatcher handles, a slave's registration with reused IDs included, keeps the invariant (lists, book, hosts, pulses, pools, cookies, leaks, wake-ups, watchers, table order, clients). |
| `BrokerTheorems.RunKeepsInv` | src/servicebroker/Servicebroker.cpp:2559-2885 | The invariant holds at every handler boundary of every run from the initial state; nothing is asked of slaves. |
| `BrokerWatch.WatchedIff` | src/servicebroker/NotificationPool.cpp:143-156 | For every reachable state and every event: if every pooled watcher is in a pool that monitors the server it watches, that stays so exactly when the event is not a disconnect request that joins a pool while a live pool monitors another server with the same local ID. |
| `BrokerWatch.WatchedAlwaysIff` | src/servicebroker/Servicebroker.cpp:1004-1068 | Over whole runs: every pooled watcher is in its own server's pool at every handler boundary exactly when no such request ever came. |
| `BrokerWatch.JoinExact` | src/servicebroker/Servicebroker.cpp:1026-1045 | The pool that a watcher joins monitors its server exactly when no live pool monitors another server with that local ID. |
| `BrokerWatch.WaitingReached` | src/servicebroker/Servicebroker.cpp:1004-1068 | A four-event run of broker 5 ends with one client waiting for the end of <7.500001>. |
| `BrokerWatch.OneForTwo` | include/dsi/private/servicebroker.h:59-62 | Waiting for <8.500001> then joins the pool of <7.500001>, and no job asks the master about <8.500001>. |
| `BrokerWatch.BothForOne` | src/servicebroker/NotificationPool.cpp:143-156 | From there the end of <7.500001> pulses both watchers. |
| `BrokerGrants.EchoedGrantsKept` | src/servicebroker/Notification.cpp:67-84 | In every run whose answers to client and list notifications grant the notification's own ID, nothing the master granted is lost while the link holds: a pool keeps or clears its ID, and an ID granted to a notification is with that notification until a clear job for it is queued. |
| `BrokerGrants.StepLosesNone` | src/servicebroker/Servicebroker.cpp:2039-2103 | Every event, with such an answer if it is one, keeps that property. |
| `BrokerGrants.UnechoedGrantIsLost` | src/servicebroker/Servicebroker.cpp:2039-2103 | After every run that ends with an answer granting an ID nobody holds, clearing the notification is possible, and the ID is then lost, with the link up, exactly when it is not the notification's own. |
| `BrokerGrants.LossIff` | src/servicebroker/Notification.cpp:67-84 | The same for a single state: the answer followed by the clear request loses the granted ID exactly when it differs from the notification's ID, because the destructor clears the latter. |
| `BrokerGrants.GrantLost` | src/servicebroker/Notification.cpp:76-80 | A six-event run after which the granted ID 77 is held by nobody and no clear job was queued for it. |
| `BrokerCalm.StepCalm` | src/servicebroker/Servicebroker.cpp:2559-2885 | Every event that joins no disconnect pool, stores no granted ID and leaves the link alone: no watcher gets a pool, no pool another target, new pools get new IDs, nothing new is lent, and what a client or list notification was granted stays with it unless a clear job for the notification's ID was queued. |
| `BrokerExact.SweepExact` | src/servicebroker/NotificationList.cpp:35-114 | A trigger pass that erases while it iterates visits every entry once and in order: the list it leaves and the pulses it sends equal a one-line-per-entry reference definition. |
| `BrokerExact.WokenOrSilenced` | src/servicebroker/NotificationList.cpp:55-114 | When a server is announced, every waiting client that accepts it is pulsed if it may know of the server, else kept and made inactive. |
| `BrokerExact.RegistrationBatches` | src/servicebroker/Servicebroker.cpp:1546-1589 | The registration batches concatenate to the unforwarded, non-local, forwardable servers in list order, have 1 to 32 entries, only the last is short, and a second call changes nothing. |
| `BrokerExact.NotificationBatches` | src/servicebroker/Servicebroker.cpp:1813-1865 | Every new pool is announced exactly once, in batches of 1 to 32 of which only the last is short; no two pools have the same target; a second call changes nothing. |
| `BrokerExact.CloseSparesOthers` | src/servicebroker/ClientSpecificData.cpp:28-95 | Closing a connection leaves every notification of another connection in its list unless it watched one of the closing connection's servers or clients. |
| `BrokerOwners.StepKeepsOwned` | src/servicebroker/Servicebroker.cpp:2559-2885 | Every event, with unused IDs if it is a slave's registration, keeps distinct IDs and single ownership. |
| `BrokerOwners.RemoteKeepsOwnedIff` | src/servicebroker/Servicebroker.cpp:1640-1700 | One server of a slave keeps ownership exactly when it is refused or no registered server has its ID. |
| `BrokerOwners.SlaveKeepsOwnedIff` | src/servicebroker/Servicebroker.cpp:1607-1719 | A slave's whole registration keeps ownership exactly when every server that is taken brings an ID not in use, which can be read off the tables before the call; if not, two registered servers have the same ID at once. |
| `BrokerOwners.OrphanLeft` | src/servicebroker/Servicebroker.cpp:385-438 | Where two servers have one ID and one owner, its unregistering that ID leaves a server that no connection owns. |
| `BrokerOwners.ReusedIdsClash` | src/servicebroker/Servicebroker.cpp:1607-1719 | A six-event run after which two connections own <7.1>. |
| `BrokerOwners.ReusedIdOrphans` | src/servicebroker/Servicebroker.cpp:385-438 | A seven-event run, in which a slave sends <7.1> twice under two names and unregisters it once, after which a server is left that no connection owns. |
| `BrokerStrand.StrandedIff` | src/servicebroker/Servicebroker.cpp:1833-1854 | For every reachable state and every event: if every active waiting notification in a pool has a live pool that waits for its interface, that stays so exactly when the event is not a clear request or a close that withdraws one notification and leaves an active one in the same pool. |
| `BrokerStrand.StrandedAlwaysIff` | src/servicebroker/NotificationPool.cpp:44-68 | Over whole runs: nobody waits in a dead pool at any handler boundary exactly when no such clear request or close ever came. |
| `BrokerStrand.EraseWaiting` | src/servicebroker/Notification.cpp:67-76 | Erasing one waiting notification removes its pool, whoever else is in it, because forwarding never counted them; all other pools stay. |
| `BrokerStrand.TriggerStrandsNone` | src/servicebroker/NotificationList.cpp:55-155 | A trigger pass for an offer or a pool pulses every active notification of a pool or none, so it strands nobody. |
| `BrokerStrand.StrandedSkipped` | src/servicebroker/Servicebroker.cpp:1828-1834 | Forwarding passes over a notification that has a pool ID, whether that pool lives or not. |
| `BrokerStrand.WaiterStranded` | src/servicebroker/Servicebroker.cpp:1813-1865 | A six-event run after which a client still waits, the link is up, its pool is gone, and forwarding changes nothing. |
| `BrokerExact.DetachReachesMasterIff` | src/servicebroker/Servicebroker.cpp:931-978 | A detach is passed on to the connected master exactly when the connection does not list the client or no client attached here shares its local ID. |
| `BrokerExact.DetachPulsedIff` | src/servicebroker/Servicebroker.cpp:1242-1291 | Where the master is not asked, waiting for a client's end is answered at once exactly when no client attached here shares the local ID. |
| `BrokerEffects.AvailablePulse` | src/servicebroker/NotificationList.cpp:136-153 | The master's server-available pulse for a pool, in any state: every active waiting notification of that pool is pulsed, in order, and leaves the list; no other is pulsed or leaves; the other lists, the servers, clients and connections stay. |
| `BrokerEffects.DisconnectPulse` | src/servicebroker/Servicebroker.cpp:2428-2454 | The same for the master's server-disconnect pulse and those who watch a server. |
| `BrokerEffects.ClientEndPulse` | src/servicebroker/Servicebroker.cpp:2457-2472 | The master reports the end of the client that a notification waits for: everybody who waits for that client is pulsed, in order, and leaves; the others stay. |
| `BrokerEffects.ClientEndUnknown` | src/servicebroker/Servicebroker.cpp:2457-2472 | A report under an ID that nobody waits with changes nothing. |
| `BrokerEffects.ListChangePulse` | src/servicebroker/Servicebroker.cpp:2475-2479 | A reported list change pulses the notification with that ID, if it is listed and active, and nothing else happens; it stays. |
| `BrokerEffects.AttachGrants` | src/servicebroker/Servicebroker.cpp:520-568 | If a registered server has the name, the major version and a sufficient minor version, and admits the connection (open to anybody, or this node and root or a member of the group), there is exactly one more client: of that server and that connection, under a local ID that no attached client has, extended by the broker ID in tree mode and by the server's otherwise; the connection lists it and nothing else changes. |
| `BrokerEffects.AttachRefused` | src/servicebroker/Servicebroker.cpp:455-517 | If the description is malformed, no server fits or the one that fits does not admit the connection, nobody is attached; only an absent, foreign, forwardable interface is asked for at the connected master. |
| `BrokerEffects.CheckedIff` | src/servicebroker/Servicebroker.cpp:142-186 | The check of a description accepts exactly names of printable ASCII characters with a version other than 0.0. |
| `BrokerEffects.DetachWakes` | src/servicebroker/Servicebroker.cpp:931-978 | Detaching a client that the connection lists, while some attached client has its local ID: everybody who waits for its end is pulsed, in order, and leaves, nobody else does; the client leaves the table and the connection's list, and all others stay in both. |
| `BrokerEffects.DetachForwards` | src/servicebroker/Servicebroker.cpp:931-978 | Any other detach pulses nobody and detaches nobody; the connected master is asked to detach that ID and the connection forgets it. |
| `BrokerWaits.WatchRegistered` | src/servicebroker/Servicebroker.cpp:1004-1068 | Watching a server that is registered here: one more watcher under the next ID, without a pool or a pulse. |
| `BrokerWaits.WatchShared` | src/servicebroker/Servicebroker.cpp:1026-1045 | A foreign server, the master connected, a live pool for that local ID: the watcher is in that pool, which counts one more; the master is not asked. |
| `BrokerWaits.WatchAsked` | src/servicebroker/Servicebroker.cpp:1035-1058 | No such pool: the watcher is alone in a new one, and the master is asked about that server under the pool's ID. |
| `BrokerWaits.WatchMissing` | src/servicebroker/Servicebroker.cpp:1004-1068 | A server that is neither here nor to be watched at the master: the new watcher is pulsed at once, then all others of that server; none of them is left. |
| `BrokerWaits.EndAsked` | src/servicebroker/Servicebroker.cpp:1242-1291 | Waiting for the end of a foreign client while the master is connected: one more entry, and the master is asked under its ID. |
| `BrokerWaits.EndAwaited` | src/servicebroker/Servicebroker.cpp:1242-1291 | Otherwise, with some attached client of that local ID: one more entry, nobody is pulsed. |
| `BrokerWaits.EndMissing` | src/servicebroker/Servicebroker.cpp:1242-1291 | Without one: the new notification is pulsed at once, then all who wait for that client; none of them is left. |
| `BrokerWaits.ListWatched` | src/servicebroker/Servicebroker.cpp:1458-1514 | Watching the list: one more entry, which is pulsed at once exactly when its expression matches a registered server the client may see, and the connected master is asked under its ID. |
| `BrokerWaits.WishAnswered` | src/servicebroker/Servicebroker.cpp:1106-1140 | Waiting for an interface that a registered server offers, by a client that may know of it: a new ID is handed out and is pulsed at once; no other is pulsed, and no list changes. |
| `BrokerWaits.WishDenied` | src/servicebroker/Servicebroker.cpp:1106-1122 | If the client may not know of the server nothing happens; if it may but cannot be reached, an ID is used up. |
| `BrokerWaits.WishKept` | src/servicebroker/Servicebroker.cpp:1140-1162 | Nothing fits and the master is not to be asked: the client waits under the next ID. |
| `BrokerWaits.WishForwards` | src/servicebroker/Servicebroker.cpp:1140-1162 | Nothing fits a foreign interface while the master is connected: the client waits, in a pool for just that interface if it may be forwarded, and each new pool is announced to the master. |
| `BrokerWaits.WishesInTurn` | src/servicebroker/Servicebroker.cpp:1165-1239 | A request for several interfaces does what requests for each of them do in order. |
| `BrokerWaits.ForwardPlaces` | src/servicebroker/Servicebroker.cpp:1813-1865 | Forwarding leaves every waiting notification that may be forwarded in a live pool for its interface, all others untouched, and every new pool announced; nothing else changes. |
| `BrokerRegistry.RegisterEnters` | src/servicebroker/Servicebroker.cpp:189-240 | A description that passes the check, from a client of this node, under a free name: the server enters under the next ID, its connection lists it; every waiting client it satisfies is pulsed if it may know of it and silenced otherwise, then everybody who watches the list and whom it concerns is pulsed, in order; nobody else is. |
| `BrokerSession.RegistrationTells` | src/servicebroker/Servicebroker.cpp:1546-1589 | Such a server, if it may be forwarded while the master is connected, is pending afterwards and in a registration job. |
| `BrokerRegistry.RegisterRefused` | src/servicebroker/Servicebroker.cpp:189-240 | A taken name, a malformed description or a client of another node: no server enters, nobody is pulsed. |
| `BrokerRegistry.ServersInTurn` | src/servicebroker/Servicebroker.cpp:292-334 | A registration of several servers does what one of each does in order, and then the master hears of them. |
| `BrokerRegistry.MasterHears` | src/servicebroker/Servicebroker.cpp:1546-1589 | With the master connected every forwardable server without master ID is pending afterwards and in a registration job, and all others stay as they were. |
| `BrokerRegistry.RemoteEnters` | src/servicebroker/Servicebroker.cpp:1640-1700 | A slave's server with a free name and a foreign ID enters under the ID that was sent, or one made from the connection number for a standard slave of broker 1000, open to anybody, and wakes those who wait as above. |
| `BrokerRegistry.RemoteRefused` | src/servicebroker/Servicebroker.cpp:1640-1700 | A taken name, a malformed description, no channel, the broker's own ID, or a standard slave elsewhere: nothing changes. |
| `BrokerRegistry.UnregisterWakes` | src/servicebroker/Servicebroker.cpp:385-438 | A connection unregisters one of its servers: all who watch it are pulsed, in order, and leave, then all who watch the list without expression; the first server with the ID goes, with all its clients and nobody else's; and the connected master is told, if it knows the server. |
| `BrokerRegistry.UnregisterForeign` | src/servicebroker/Servicebroker.cpp:385-438 | A server that the connection does not list cannot be unregistered: nothing changes. |
| `BrokerRegistry.CloseWakes` | src/servicebroker/ClientSpecificData.cpp:28-95 | A connection closes: exactly those who watch one of its servers or wait for one of its clients are pulsed, in this order, then, if it had servers, those who watch the list; all these and its own entries leave the lists; all others stay. |
| `BrokerRegistry.CloseEmpties` | src/servicebroker/ClientSpecificData.cpp:28-95 | Its clients go, and its servers with all clients of theirs; the other clients, servers and connections stay. |
| `BrokerRegistry.CloseTells` | src/servicebroker/ClientSpecificData.cpp:28-95 | The connected master hears of each of its clients, and of each of its servers that the master knows. |
| `BrokerSession.ConnectedTells` | src/servicebroker/Servicebroker.cpp:2370-2379 | The connected pulse: with the link up every forwardable server is in a registration job, and every forwardable waiting client in an announced pool for its interface; nothing else changes. |
| `BrokerSession.DisconnectedWakes` | src/servicebroker/Servicebroker.cpp:2382-2418 | The disconnected pulse: exactly those who watch a foreign server that is not here, and those who wait for a foreign client, are pulsed in this order and leave; no pool is left, and neither a server nor a waiting client has an ID at the master. |
| `BrokerSession.ClearTakesIt` | src/servicebroker/Servicebroker.cpp:1294-1316 | A clear request takes exactly the entries with that ID if the connection lists it, pulses nobody, and changes nothing otherwise. |
| `BrokerSession.AnswerIgnored` | src/servicebroker/Servicebroker.cpp:1868-2259 | A failed job, and an answer to a detach, an unregistration or a clear, change nothing but that the job is done with. |
| `BrokerSession.AnswerAttach` | src/servicebroker/Servicebroker.cpp:1884-1918 | A client attached at the master is added to the list of the connection that asked, if that is still there. |
| `BrokerSession.GrantKept` | src/servicebroker/Servicebroker.cpp:2015-2037 | An ID granted to a pool is noted in the pool with that cookie and in no other; if there is none, it is cleared at the connected master. |
| `BrokerSession.GrantsInTurn` | src/servicebroker/Servicebroker.cpp:1985-2013 | The IDs of a batch are taken one after the other, invalid ones are passed over. |
| `BrokerSession.AnswerKept` | src/servicebroker/Servicebroker.cpp:2039-2103 | An ID granted to a client or list notification is noted there and nowhere else; if it is gone, the ID is cleared at the connected master. |
| `BrokerSession.ServerAnswered` | src/servicebroker/Servicebroker.cpp:2105-2136 | The answer about a server is noted in the first server of that local ID that waits for one, unless it was refused; if none does, the connected master is told that the server is gone. |
| `BrokerFarewell.ForsakenIff` | src/servicebroker/Servicebroker.cpp:1242-1291 | For every reachable state and every event: if everybody who waits for the end of a client waits for one that is attached here or that the master was asked about, that stays so exactly when the event is not a wait for a client that only shares its local ID with an attached one, nor the unregistration of a server, or the close of its connection, while somebody else waits for one of its clients without the master. |
| `BrokerFarewell.ForsakenAlwaysIff` | src/servicebroker/Servicebroker.cpp:931-978 | Over whole runs: that holds at every handler boundary exactly when no such event ever came. |
| `BrokerFarewell.UnregisterIff` | src/servicebroker/Servicebroker.cpp:385-438 | The condition for an unregistration. |
| `BrokerFarewell.CloseIff` | src/servicebroker/ClientSpecificData.cpp:28-95 | The condition for a close. |
| `BrokerFarewell.NotifyDetachIff` | src/servicebroker/Servicebroker.cpp:1242-1291 | The condition for a new wait. |
| `BrokerFarewell.WaitsForNothing` | src/servicebroker/ClientList.cpp:33-47 | An eight-event run after which a server is gone with its client, while somebody still waits for the end of that client and was not pulsed. |
| `BrokerSweep.SweepKeeps` | src/servicebroker/NotificationList.cpp:35-172 | A whole pass with its destructors keeps the invariant, spares everything its rule keeps, and leaves only what the rule keeps. |
| `BrokerSweep.EraseKeepsCore` | src/servicebroker/Notification.cpp:55-87 | Erasing one entry, with the destructor's effects on host list, pool and job queue, keeps lists, book, pool counts, cookies and the no-leak property. |
| `BrokerPools.PoolAllKeeps` | src/servicebroker/Servicebroker.cpp:1813-1865 | Giving every waiting notification to a pool keeps the invariant, and the new pools are exactly the announced items, with consecutive IDs. |
| `BrokerPools.JoinKeepsCore` | src/servicebroker/Servicebroker.cpp:1035-1058 | Attaching the newest disconnect notification to a new pool, or to one found by the server's local ID, keeps the counts exact. |
| `BrokerPools.GrantKeepsCore` | src/servicebroker/Servicebroker.cpp:2015-2037 | The master's answer is stored in the live pool, or cleared if the pool died before the reply; either way nothing granted is lost. |
| `BrokerPools.ChunksPartition` | src/servicebroker/Servicebroker.cpp:1546-1589 | Batches concatenate to the input, have 1 to 32 entries, and only the last is short. |
| `BrokerRequests.AnnounceInv` | src/servicebroker/Servicebroker.cpp:189-240 | Inserting a server with an unused name and any ID, noting its owner and waking its clients keeps the invariant. |
| `BrokerRequests.UnregisterInv` | src/servicebroker/Servicebroker.cpp:385-438 | Unregistering keeps the invariant; the clients of that ID are gone afterwards, and so is the server unless another one had the same ID. |
| `BrokerRequests.AttachInv` | src/servicebroker/Servicebroker.cpp:520-568 | Every attach keeps the invariant; what it does is said by `AttachGrants` and `AttachRefused`. |
| `BrokerRequests.DetachInv` | src/servicebroker/Servicebroker.cpp:931-978 | Detaching a client, looked up by its local ID and removed by its whole one, keeps the invariant; a client the connection lists is gone afterwards. `DetachWakes` says who is pulsed. |
| `BrokerRequests.NotifyDisconnectInv` | src/servicebroker/Servicebroker.cpp:1004-1068 | Registering a disconnect notification, with a pool found by local ID or an immediate pulse, keeps the invariant. |
| `BrokerRest.NotifyAvailableExInv` | src/servicebroker/Servicebroker.cpp:1165-1239 | Registering server-available notifications keeps the invariant: a server that is already there answers at once. |
| `BrokerRest.NotifyDetachInv` | src/servicebroker/Servicebroker.cpp:1242-1291 | Registering a client-detach notification, whose client is looked up by local ID, keeps the invariant. |
| `BrokerRest.NotifyListInv` | src/servicebroker/Servicebroker.cpp:1458-1514 | Registering a list notification, with or without expression, keeps the invariant. |
| `BrokerClose.ClearInv` | src/servicebroker/Servicebroker.cpp:1294-1316 | Clearing a notification keeps the invariant although the host forgets the ID first and the destructor again. |
| `BrokerClose.CloseInv` | src/servicebroker/ClientSpecificData.cpp:28-95 | Closing a connection keeps the invariant and leaves no notification of the connection in any list. |
| `BrokerMaster.MasterConnectedInv` | src/servicebroker/Servicebroker.cpp:2370-2379 | handleMasterConnected keeps the invariant. |
| `BrokerMaster.MasterDisconnectedInv` | src/servicebroker/Servicebroker.cpp:2382-2418 | handleMasterDisconnected keeps the invariant, and afterwards every disconnect notification watches a registered server. |
| `BrokerMaster.ReportInv` | src/servicebroker/Servicebroker.cpp:1868-2259 | Every kind of finished job keeps the invariant. |
| `ServerTable.FindByName` | src/servicebroker/ServerList.cpp:84-88 | On a descending table the binary search returns an entry exactly when a linear scan finds one, and the same one. |
| `ServerTable.FindByVersion` | src/servicebroker/ServerList.cpp:70-81 | Lookup by description equals the scan for name, major and a sufficient minor version. |
| `ServerTable.LowerBound` | src/servicebroker/ServerList.cpp:27-31 | std::lower_bound with the descending strcmp order returns the boundary between greater and not greater names. |
| `ServerTable.Add` | src/servicebroker/ServerList.cpp:63-67 | The entry is inserted at the place a scan would choose. |
| `ServerTable.RemoveById` | src/servicebroker/ServerList.cpp:139-149 | The first entry with the ID is removed, and nothing else. |
| `ServerTable.InsertKeepsOrder` | src/servicebroker/ServerList.cpp:63-67 | A guarded insertion keeps the table strictly descending. |
| `ServerTable.RemoveKeepsOrder` | src/servicebroker/ServerList.cpp:139-149 | A removal keeps the order, and with distinct IDs the ID is gone afterwards. |
| `ServicebrokerClass.ShiftOut` | src/servicebroker/ClientSpecificData.hpp:98-102 | std::remove without erase: kept elements move to the front, length and tail stay. |
| `ServicebrokerClass.Servicebroker.SweepList` | src/servicebroker/NotificationList.cpp:35-172 | The loop that sends and erases in place computes the pass of the machine. |
| `ServicebrokerClass.Servicebroker.PulseList` | src/servicebroker/NotificationList.cpp:175-202 | triggerAll pulses the matching list notifications in order and removes none. |
| `ServicebrokerClass.Servicebroker.EraseClientsOf` | src/servicebroker/ClientList.cpp:33-47 | Erasing in place leaves exactly the clients of other servers. |
| `ServicebrokerClass.Servicebroker.EraseClient` | src/servicebroker/ClientList.cpp:20-30 | The first client with the ID is erased. |
| `ServicebrokerClass.Servicebroker.RegisterInterfacesMaster` | src/servicebroker/Servicebroker.cpp:1546-1589 | The batch loop emits the chunks of the unforwarded servers and marks them pending. |
| `ServicebrokerClass.Servicebroker.ForwardAvailableNotifications` | src/servicebroker/Servicebroker.cpp:1813-1865 | The batch loop gives every notification a pool and announces the new pools in chunks. |
| `ServicebrokerClass.Servicebroker.AddLocalServer` | src/servicebroker/Servicebroker.cpp:189-240 | addInterface computes its step and keeps the object valid. |
| `ServicebrokerClass.Servicebroker.HandleRegisterSlave` | src/servicebroker/Servicebroker.cpp:1607-1719 | handleRegisterMasterInterface computes its step and keeps the object valid for whatever IDs the slave sends; ownership survives it exactly when every server it takes brings an unused ID. |
| `ServicebrokerClass.Servicebroker.HandleUnregister` | src/servicebroker/Servicebroker.cpp:385-438 | handleUnregisterInterface computes its step and keeps the object valid; the clients of a server of the connection are gone, and with distinct IDs so is the server. |
| `ServicebrokerClass.Servicebroker.HandleAttach` | src/servicebroker/Servicebroker.cpp:520-568 | handleAttachLocalInterface and the job for the master compute the step of `AttachGrants` and `AttachRefused`. |
| `ServicebrokerClass.Servicebroker.HandleDetach` | src/servicebroker/Servicebroker.cpp:931-978 | handleDetachInterface computes the step of `DetachWakes` and `DetachForwards` and keeps the object valid; afterwards no attached client has the ID, if the connection listed it. |
| `ServicebrokerClass.Servicebroker.HandleNotifyAvailable` | src/servicebroker/Servicebroker.cpp:1096-1162 | handleNotifyServerAvailable computes its step and keeps the object valid. |
| `ServicebrokerClass.Servicebroker.HandleNotifyList` | src/servicebroker/Servicebroker.cpp:1458-1514 | handleNotifyInterfaceListMatch and handleNotifyInterfaceListChange compute their step. |
| `ServicebrokerClass.Servicebroker.HandleClear` | src/servicebroker/Servicebroker.cpp:1294-1316 | handleClearNofification computes its step and keeps the object valid; afterwards no list holds the ID, if it was the connection's. |
| `ServicebrokerClass.Servicebroker.HandleClose` | src/servicebroker/ClientSpecificData.cpp:28-95 | ClientSpecificData::clear computes its step. |
| `ServicebrokerClass.Servicebroker.HandleMasterDisconnected` | src/servicebroker/Servicebroker.cpp:2382-2418 | handleMasterDisconnected computes its step. |
| `ServicebrokerClass.Servicebroker.HandleJobFinished` | src/servicebroker/Servicebroker.cpp:1868-2259 | handleJobFinished computes its step for every kind of job. |
| `ServicebrokerClass.Servicebroker.Dispatch` | src/servicebroker/Servicebroker.cpp:2559-2885 | Every event takes the object from a valid state to the machine's next state, which is valid again; so the theorems about runs, and what each event is said to do, hold of the object. |
| `PulseChannels.SocketsConserved` | src/servicebroker/PulseChannelManager.cpp:109-148 | After every run of creations, moving copies, lazy connects and destructions each pooled descriptor counts exactly its live holders, keys and descriptors are unique, nothing held is closed, and opens exceed closes by one exactly while pooled. |
| `PulseChannels.ClosedByTheLastHolder` | src/servicebroker/Notification.cpp:55-62 | A step closes a descriptor exactly when it destroys the last object holding it. |
| `PulseChannels.ConnectShares` | src/servicebroker/PulseChannelManager.cpp:109-120 | Connecting to a key in the pool hands out its descriptor, which counts one more; nothing is opened. |
| `PulseChannels.ConnectOpens` | src/servicebroker/PulseChannelManager.cpp:257-356 | Connecting to a new key opens a descriptor, which enters the pool with one reference; a failure changes nothing. |
| `PulseChannels.Destroyed` | src/servicebroker/PulseChannelManager.cpp:137-148 | Destroying a holder takes one reference, or the entry, which is then closed; an object without descriptor changes nothing in the pool. |
| `PulseChannels.MoveInv` | src/servicebroker/Notification.cpp:90-121 | A moving copy hands the descriptor over and keeps every count. |
| `PulseChannels.ConnectInv` | src/servicebroker/Notification.cpp:157-208 | A lazy connect, new or shared or failed, keeps the invariant. |
| `PulseChannels.DestroyInv` | src/servicebroker/Notification.cpp:55-87 | A destruction keeps the invariant. |
| `Jobs.JobsConserved` | src/servicebroker/WorkerThread.cpp:64-121 | Under every interleaving of dispatcher and worker, pushed jobs = reported jobs, then the one in hand, then the queued ones, as sequences; the k-th report is about the k-th push. |
| `Jobs.ReportedOnce` | src/servicebroker/MasterAdapter.cpp:197-240 | With distinct jobs none is reported twice, and none is both reported and queued. |
| `Jobs.SuccessOnlyInSession` | src/servicebroker/WorkerThread.cpp:78-117 | A job is reported successful only after a connected pulse with no disconnected pulse in between. |
| `Jobs.AlwaysInv` | src/servicebroker/WorkerThread.cpp:64-121 | At every point of every interleaving the worker's place determines link flag and session, and the jobs are conserved; `Connects` says how a session starts. |
| `Jobs.Connects` | src/servicebroker/WorkerThread.cpp:82-93 | From the connect, three yes answers (connection, authentication, identification) and the next turn end at the top of the loop with the link up and the connected pulse; each no answer ends there with the link down and no pulse. |
| `Jobs.LoopStarts` | src/servicebroker/WorkerThread.cpp:73-98 | The loop starts active and as timed out; each round goes to the jobs if the link is up and to the reconnect otherwise; the wait notes whether it timed out. |
| `Jobs.HeadServed` | src/servicebroker/WorkerThread.cpp:95-117 | With the link up the head of the queue is reported, as done exactly when it was answered and accepted; the link is dropped, and the end of the session told, exactly when there was no answer. |
| `Jobs.QueueServed` | src/servicebroker/WorkerThread.cpp:97-117 | With nothing queued the worker waits; after a wait that timed out it pings, and drops the link exactly when the ping is not answered. |
| `Jobs.PendingFail` | src/servicebroker/MasterAdapter.cpp:205-218 | Without a link the worker's turns report every queued job failed, in order, and then connect: the reports of `RemovePending`. |
| `Jobs.PendingRun` | src/servicebroker/MasterAdapter.cpp:221-240 | With the link up the worker's turns send the reports of `ExecutePending`, leave the same queue, and end where its result says. |
| `Jobs.Stops` | src/servicebroker/WorkerThread.cpp:119-120 | Once stopped the worker leaves at the top of its loop, with the link down and a last disconnected pulse. |
| `Jobs.ReportedOkIff` | src/servicebroker/WorkerThread.cpp:64-121 | Over all runs: the k-th job pushed is reported by one turn of the worker, and as done exactly when that turn came in a session, with the link up, and the job was answered and accepted. |
| `Jobs.DroppedIff` | src/servicebroker/WorkerThread.cpp:95-117 | Over all runs: the worker is about to drop the link exactly when its last turn was a job or a ping that was not answered. |
| `Jobs.JobQueue.Push` | src/servicebroker/JobQueue.cpp:119-138 | The linked queue refines appending to a sequence of length mSize. |
| `Jobs.JobQueue.Pop` | src/servicebroker/JobQueue.cpp:141-161 | The linked queue refines taking the head; the popped job's link is null. |
| `Jobs.RemovePending` | src/servicebroker/MasterAdapter.cpp:205-218 | Every queued job is reported failed, in order, and the queue is empty. |
| `Jobs.ExecutePending` | src/servicebroker/MasterAdapter.cpp:221-240 | Jobs are run and reported in order, each as done exactly when it was answered and accepted, up to the first link failure; the rest stays queued; the result tells whether the link held. |
| `IntrusiveList.Slist.Erase` | src/common/Slist.hpp:696-720 | erase refines deleting one element, nulls its link, and returns the position behind it. |
| `IntrusiveList.Slist.Insert` | src/common/Slist.hpp:743-767 | insert puts the element before the position, or last when the position is not in the list. |
| `IntrusiveList.Slist.RemoveIf` | src/common/Slist.hpp:801-814 | remove_if refines filter, nulls the links of what it drops, and terminates. |
| `IntrusiveList.Slist.Reverse` | src/common/Slist.hpp:833-852 | reverse refines reversal and keeps the ring closed. |
| `IntrusiveList.Slist.HookAfter` | src/common/Slist.hpp:128-134 | Hooking keeps the ring closed and free of repetitions. |
| `IntrusiveList.Slist.UnhookNext` | src/common/Slist.hpp:137-144 | Unhooking keeps the ring and nulls the removed link. |
| `IntrusiveList.Slist.PushFront` | src/common/Slist.hpp:626-631 | push_front puts the element first. |
| `IntrusiveList.Slist.Size` | src/common/Slist.hpp:687-693 | Walking round the ring counts the elements. |
| `Utf8.RoundTrip` | src/base/utf8.cpp:11-137 | Decoding an encoded wide string returns it exactly when every character is in 0..0x10FFFF. |
| `Utf8.ShortestForm` | src/base/utf8.cpp:107-134 | The encoder emits the one sequence of the grammar in section 4 of RFC 3629 (with surrogates admitted) whose value is the character. |
| `Utf8.ReencodesExactly` | src/base/utf8.cpp:11-70 | For any bytes, decoding and encoding again gives the bytes back exactly when they are well-formed. |
| `Utf8.CutShort` | src/base/utf8.cpp:11-70 | A sequence with too few following bytes becomes one question mark at the end of the input and before an ASCII character, and disappears before the first byte of another sequence. |
| `Utf8.StrayByte` | src/base/utf8.cpp:30-63 | A following byte without a first one, and a byte from 0xF8 on, becomes a question mark, and decoding goes on behind it. |
| `Utf8.RunBounded` | src/base/utf8.cpp:19-67 | On any bytes there are no more characters than bytes, and every value is below 2^21. |
| `Utf8.ToUtf8` | src/base/utf8.cpp:73-137 | The two loops emit the encoding, and exactly the reserved number of bytes. |
| `Utf8.FromUtf8` | src/base/utf8.cpp:11-70 | The loop computes the decoding within the reserved length. |
| `Wire.Pad` | include/dsi/COStream.hpp:90-90 | The padding is less than the size and reaches the next multiple. |
| `Wire.FormatOf` | include/dsi/COStream.hpp:83-262 | The format byte by byte: flags, sizes, counts and IDs are four bytes at the next multiple of four, least significant first; contents, elements and pairs follow at once and in order. |
| `Wire.TwoBytesFormat` | include/dsi/COStream.hpp:83-100 | A two-byte number lies at the next even offset, least significant byte first. |
| `Wire.ImageExtends` | include/dsi/CIStream.hpp:134-155 | Bytes that follow a value in a message have no effect on it. |
| `WireReader.ReadSafe` | include/dsi/CIStream.hpp:134-182 | One read of any type on any bytes: nothing happens after an error, the offset never goes back, stays inside the data while there is no error, and passes the end by less than one alignment. |
| `WireReader.ReadsAreSafe` | include/dsi/CIStream.hpp:134-182 | The same for every sequence of reads: the first error is final. |
| `WireReader.ReadScalar` | include/dsi/CIStream.hpp:134-155 | A successful read ends inside the data. |
| `WireReader.ShortReads` | include/dsi/CIStream.hpp:134-155 | Where the data ends too early for a number, or for the contents of a string, the target keeps what it held, the error is set, and the offset stops where the missing bytes would be. |
| `WireReader.NoCount` | src/base/CIStream.cpp:31-56 | A string whose size is missing or zero is cleared, with the error set in the first case only. |
| `WireRoundTrip.ReadBack` | include/dsi/CIStream.hpp:280-378 | Wherever an item lies and whatever follows it, the reader ends without error at the writer's offset and leaves in the target the item merged over what the target held. |
| `WireRoundTrip.SurvivesIff` | include/dsi/CIStream.hpp:359-378 | What the target then holds is the value written exactly when every map in it has all keys of the map that the same object held before, because the map reader adds to its target and uses one value object for all entries. |
| `WireRoundTrip.RoundTripIff` | include/dsi/CIStream.hpp:322-378 | Reading into an object that holds anything, fresh or an attribute's older value, returns the value written, without error and at the same offset, exactly under that condition. |
| `WireRoundTrip.TidyRoundTrip` | include/dsi/CIStream.hpp:341-378 | Every value of a type without maps directly inside map values comes back, for all nestings of scalars, bools, strings, vectors, maps and variants. |
| `WireRoundTrip.TwoInnerMaps` | include/dsi/CIStream.hpp:366-375 | A map of two maps comes back exactly when the second has all keys of the first. |
| `WireRoundTrip.StaleKeysReturn` | include/dsi/CIStream.hpp:366-375 | A concrete loss: {1: {10: 1}, 2: {20: 2}} does not come back. |
| `WireRoundTrip.VariantSurvives` | include/dsi/CIStream.hpp:280-338 | A variant whose content comes back does so itself exactly when its ID is not 9 or 10. |
| `WireRoundTrip.WideRead` | src/base/CIStream.cpp:31-56 | A wide string is read back from its counted UTF-8 bytes and terminating zero. |
| `WireRoundTrip.ScalarRead` | include/dsi/CIStream.hpp:134-155 | A scalar is read back from behind its padding. |
| `Streams.PowerOf2` | src/base/CBuffer.cpp:19-27 | Terminates with the least doubling of the static size that is large enough. |
| `Streams.OutStream.SetCapacity` | src/base/CBuffer.cpp:30-63 | Only grows, to the calculator's answer, and keeps all data across the switch from static to heap memory. |
| `Streams.OutStream.WriteScalar` | include/dsi/COStream.hpp:83-100 | The scalar lies aligned behind everything written before, which is unchanged, within the capacity. |
| `Streams.OutStream.WriteBytes` | include/dsi/COStream.hpp:103-113 | The bytes are appended; nothing before them changes. |
| `Streams.OutStream.Write` | include/dsi/COStream.hpp:116-262 | For every value of every type: the earlier bytes are unchanged, the size is the computed end, and the bytes hold the value. |
| `Streams.OutStream.WriteVector` | include/dsi/COStream.hpp:232-245 | The vector writer's loop leaves the image of the vector. |
| `Streams.OutStream.WriteMap` | include/dsi/COStream.hpp:248-262 | The map writer's loop leaves the image of the map. |
| `Streams.OutStream.WriteCounted` | src/base/COStream.cpp:14-26 | A length, then exactly that many bytes. |
| `Streams.InStream.ReadWideChars` | src/base/CIStream.cpp:31-56 | The wide string reader computes the counted read and the decoding. |
| `Streams.InStream.Get` | include/dsi/CIStream.hpp:322-378 | The readers with their loops compute the read of every type into any target. |
| `Packets.Arrives` | src/base/CRequestReader.cpp:59-152 | Every flushed message is reassembled to a stated body, and the channel is left exactly at what followed the message; asked only that the memory flush reads exists. |
| `Packets.ArrivesExactlyIff` | src/base/CRequestWriter.cpp:141-174 | What the receiver gets is what the sender meant exactly when the message fits one packet; otherwise it is sizeof(EventInfo) bytes longer, and what a data message meant is a prefix of it. |
| `Packets.FlushInsideIff` | src/base/CRequestWriter.cpp:73-177 | Every byte flush sends lies in the buffer exactly when it is a control message, fits one packet, or the capacity leaves sizeof(EventInfo) bytes behind the payload. |
| `Packets.DeliveredFromReads` | src/base/CRequestWriter.cpp:73-177 | What arrives is EventInfo and then exactly the ranges of the buffer that this speaks of. |
| `Packets.HeaderRoundTrip` | include/dsi/DSI.hpp:93-107 | The 40 header bytes carry flags and length unchanged. |
| `Packets.HeaderLayout` | include/dsi/DSI.hpp:93-107 | Where the fields lie: flags at byte 28 and length at byte 32, least significant byte first, between the addressing and the reserved bytes. |
| `Packets.PacketsSent` | src/base/CRequestWriter.cpp:73-177 | Cut at its headers, what flush sends is one packet if everything fits, else full packets and a last one; every header is the message's but for its length and the flag for more, which all but the last have; the bodies make up the event info and the payload, and in several packets sizeof(EventInfo) bytes more, spelled out by offset. |
| `Packets.Flush` | src/base/CRequestWriter.cpp:73-177 | flush sends the first packet and the packets of the loop, for every message whose buffer holds what is read. |
| `Packets.FlushRest` | src/base/CRequestWriter.cpp:141-174 | The loop, which compares a payload offset with a length that counts EventInfo, sends exactly those packets. |
| `Packets.ReceiveMessage` | src/base/CRequestReader.cpp:59-152 | receiveAll returns the reassembled body and leaves the rest of the channel, or fails when the channel runs dry; an empty packet's flags end the loop only after a packet with data has made the reader's own header the current one. |
| `Transport.EndToEnd` | src/base/CRequestWriter.cpp:73-177 | For every list of values, every payload length and any further traffic, the receiver reads exactly the values written, and ends at the payload's size. |
| `Transport.SendAndReceive` | src/base/CRequestWriter.cpp:73-177 | The same with the writer, channel and reader objects, from the writer's own buffer; only where flush reads on behind it does arbitrary memory follow. |
| `Transport.TightBuffer` | src/base/CBuffer.cpp:30-63 | A vector of 8106 bytes leaves size 8110 and capacity 8112, so that flush reads behind the buffer. |
| `Transport.ListReads` | include/dsi/CIStream.hpp:134-378 | A list of values is read back one after the other with agreeing offsets. |
| `Attributes.ReplicasConverge` | include/dsi/private/attributes.hpp:33-106 | After every run of valid COMPLETE, INSERT, REPLACE and DELETE updates, all sent over one channel in any number of packets and received one after the other, the client's vector is the server's and the channel is left at what follows. |
| `Attributes.UpdateConverges` | include/dsi/private/attributes.hpp:33-77 | One update: the client's edit turns a copy of the server's old vector into a copy of its new one, without error. |
| `Attributes.UpdateIs` | include/dsi/private/attributes.hpp:85-106 | What is sent for a valid update is its type, position, count and exactly the new elements. |
| `Attributes.ApplyMirrors` | include/dsi/private/attributes.hpp:46-67 | The client's edit of a copy of the server's vector gives a copy of the server's result; `SetEdits` and `ApplyEdits` say which elements are where. |
| `Attributes.SetEdits` | include/dsi/private/attributes.hpp:192-229 | The server's edit, element by element: COMPLETE is the new vector; INSERT puts the new elements before the position and moves the rest up; REPLACE overwrites from the position on; DELETE moves the elements behind position and count down; all others keep their value. It is possible exactly when that place lies inside the vector. |
| `Attributes.ApplyEdits` | include/dsi/private/attributes.hpp:46-67 | The same, element by element, for the client's edit. |
| `Attributes.EditedOnce` | include/dsi/private/attributes.hpp:46-67 | An edit so described has one result. |
| `Attributes.FollowsIff` | include/dsi/private/attributes.hpp:192-229 | A complete update, insertion or replacement of any length makes the client's vector the server's exactly when its length fits the 16-bit count or, for a replacement, a nonnegative truncated count leaves out only elements that do not change. |
| `Attributes.SentIs` | include/dsi/private/attributes.hpp:85-106 | What is sent for such an update: a prefix of the new elements as long as the truncated count says, or a negative size. |
| `Attributes.DeleteRestIff` | include/dsi/private/attributes.hpp:215-219 | For every vector and position, deleting with a negative count deletes all the rest exactly when the rest fits the 16-bit count; from 32768 to 65535 elements the iterators passed to erase are reversed, and otherwise at least 65536 elements stay. |
| `Attributes.ServerAttribute.Set` | include/dsi/private/attributes.hpp:192-229 | set leaves the new elements at the position and all others in order: inserted before it, overwritten from it on, or taken out from it on (DELETE, value[i] for i below the position and value[i + count] from there); position and count are returned as used, truncated to 16 bits. |
| `Attributes.ReadPartialAttribute` | include/dsi/private/attributes.hpp:33-77 | Whatever bytes are read: if they hold a type, position, count and elements, the client's vector is edited likewise element by element, or the edit lies outside the vector; if not, the vector stays, or a value was out of range. |
| `Attributes.WritePartialAttribute` | include/dsi/private/attributes.hpp:85-106 | The bytes hold the update's items behind everything written before. |

## Left out

- Attach-extended requests and the server cache: the default build never fills the pending-job map, so the path is not complete in the source.
- Reference counts of server-available pools: forwarding assigns the pool ID without counting; only disconnect pools are claimed to be exactly counted, and BrokerStrand says what follows for the others.
- Exactness of a connection's notification ID list: std::remove without erase leaves old IDs behind, so only "no live ID is lost" and "every ID was the connection's own" are claimed.
- Partial-transfer helpers for sockets: sendAll and recvAll are taken as specifications.
- CServer, CClient, connection state machines and CCommEngine's caches: response state lives in generated stubs, and cache invalidation is not complete.
- Sockets, poll, timers, credentials, HTTP, command line, logging, tracing, statistics and the replies to requests: they change no table.
- Regular expressions, group lookups and configuration parsing: abstract predicates of the model.
- Node, process and channel numbers, pulse codes and implementation versions in the broker's tables: no table operation depends on them.
- Wrap-around of 32-bit IDs: counters are unbounded naturals.
- Jobs that come back for a connection that has been closed: the answer to an attach is then ignored.
- BrokerTheorems.PoolsExactAndLeakFree: speaks of the IDs the master grants to pools; what a master grants to client-detach and list notifications is the matter of BrokerGrants.
- BrokerOwners.RegistryIntegrity: asks that no slave reused a server ID, because it is false otherwise (BrokerOwners.OwnershipAlwaysIff, BrokerOwners.ReusedIdsClash, BrokerOwners.ReusedIdOrphans).
- WireRoundTrip.VariantSurvives: speaks of a variant read on its own; a variant with ID 9 or 10 deep inside a map may be overwritten by a later entry, so no equivalence is claimed there.
- Maps keyed by types that contain maps: the format's theorems ask for key types without maps.
- Raw access to a stream (gptr, glen, gbump): it does not look at the error and can move the offset after one.
- Packets.Flush: a read behind the end of the buffer has no meaning in C++, so what flush sends is stated for buffers that hold what it reads; Packets.FlushInsideIff says which do.
- Packets.FlushRest: the same; what the loop reads lies inside the buffer exactly when Packets.FlushInsideIff says so.
- IntrusiveList.Slist.Erase: asks for a position inside the list; the documentation calls erasing end() an error, and the code then breaks the ring.
- Attributes.ReplicasConverge: UPDATE_NONE and indices outside the vector are not valid updates; what the iterators do there is undefined.
- Locking of the job queue: push and pop are single actions of the interleaving.
