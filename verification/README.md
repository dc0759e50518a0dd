# Verification of the gateway

A Dafny model of the gateway, its credential store and its SDKs, with proofs. The gateway is one
event loop: every WebSocket message, HTTP route, timer tick and socket close is one atomic step over
shared maps. The model follows that shape. Each component appears twice:

* as **functions on values** (`CredentialStore`, `Session`, `RateLimit`, `Relay`, `Http`, `Stream`, `Client`,
  `Lifecycle`, `Backend`, `Fleet`): what each operation does to the state, over which the lemmas about whole runs are
  stated;
* as **classes updated in place** (`GatewayStorage`, `Gateway`, `Limiter`, `Direction`, `HttpBridge`,
  `HttpChannelServer`, `HttpExchange`, `GatewayChannel`, `GatewayClient`, `GatewayBackend`): the handlers with their
  loops, each proved to do exactly what the function says.

| file | content |
|---|---|
| `Basics.dfy` | optional values, duplicate-free lists, maps and sets |
| `Store.dfy`, `StoreProofs.dfy`, `Storage.dfy` | credentials and backend identities |
| `Tokens.dfy` | when a token is accepted, how long it lives, what may be issued |
| `Session.dfy` | the session machine: peers, leases, channels, tickets, topics, all handlers, steps and runs |
| `SessionProofs.dfy`, `SessionSteps.dfy` | the invariant and every step's preservation of it |
| `SessionHistory.dfy`, `SessionFrames.dfy` | two-state facts: what may change between two moments of a run |
| `SessionHands.dfy`, `Slot.dfy` | how a backend's lease changes hands, and who is told |
| `SessionTheorems.dfy`, `SessionLive.dfy` | what these say about whole runs |
| `Decisions.dfy`, `ChannelDecisions.dfy` | when a hello, heartbeat, dial, publication or proxied request is granted, and what it changes |
| `Entitlement.dfy`, `Reach.dfy` | whose connections a revocation closes, and what is within a peer's reach |
| `Notifications.dfy` | who is shown the registry after each step, and who is told that a channel ended |
| `Views.dfy` | snapshots, discovery, replies, and that nothing beyond reach shows |
| `GatewayParts.dfy`, `Gateway.dfy` | the gateway in place |
| `RateLimit.dfy`, `Relay.dfy` | the fixed-window limiter and the per-channel byte bucket |
| `Http.dfy`, `Stream.dfy` | HTTP over a channel, and streamed bodies on the Python side |
| `Controls.dfy`, `Answers.dfy` | control requests and their answers, and that the gateway answers each once |
| `Client.dfy`, `ClientConnects.dfy` | the client SDK: operations, connections, and when it may connect |
| `Lifecycle.dfy`, `Backend.dfy`, `Fleet.dfy` | the backend SDKs: one life, one connection attempt, many instances |

Ids and tokens are fresh abstract values; a token stands for its hash, which is taken to be injective. Times are
parameters of the steps. Messages a step sends are collected in a multiset; `channel_closed` notices are kept apart.

The conditions in the theorems of `Tokens`, `Decisions`, `ChannelDecisions`, `Entitlement`, `Reach` and `Notifications`
are written in records' fields, message contents and literal constants, not with the predicates by which the operations
decide, so that a wrong condition in one of those contradicts a theorem.

## Findings

Properties that turned out to hold only in part are stated with what breaks them:

* "The client end of every channel, and every subscriber, is a live peer" is kept by every step but one: an expired
  lease removes the holder's session and strands the channels in which it is the *client* of another backend, and its
  subscriptions there (`SessionLive.ClientsStayLiveExactlyUnlessStranded`,
  `SessionLive.SubscribersStayLiveExactlyUnlessStranded`, and a run from an empty gateway in
  `SessionLive.StrandingIsReachable`). The invariant therefore speaks of live clients only.
* A rate limit of 0 still admits the first call of every window and no other one. The tight bound for a limit L
  is 2L - 1 admissions, and 1 for a limit of 0, in any interval as long as the window
  (`RateLimit.WindowBoundIsTight`).
* A caller that comes back exactly after `Retry-After` seconds (section 10.2.3 of RFC 9110) is refused once more when
  the remaining time was a whole number of seconds (`RateLimit.RetryAfterIsEnough`).
* The byte limiter and backpressure share one pause flag. A drain tick lifts a rate pause within its window exactly
  when the receiver has drained while a rate timer that is not due is running (`Relay.DrainTimerLiftsTheRatePause`);
  then the bound fails for every limit (`Relay.DrainingOverruns`), and as long as no pause is lifted early it holds
  however congested the receiver is (`Relay.RateIsBounded`).
* Bulk revocation would depend on the order of the ids if an access credential could be the parent of another one
  (`StoreProofs.ChainsWouldMakeOrderMatter`); the store's invariant excludes that.
* A backend called `*`, or one with a comma in its name, would share a snapshot with another scope
  (`Views.UncleanIdsWouldCollide`).
* A body frame fed behind the end of a request body undoes the sticky end (`Stream.EndIsStickyExactlyWhenWellFed`).
* An answer settles its own control operation exactly when no other request is unanswered on the connection it came on
  (`Client.AnswerIsOwnExactlyWhenNothingIsStale`). After a timeout the late reply of one operation settles the next
  one (`ClientConnects.LateAnswerSettlesTheNextOperation`).
* Without any timeout a late close event does it too: `close()` leaves the old socket's listeners on, so that its
  close event moves a client that has connected again on to a third socket, while the second stays open and its
  replies are still routed (`ClientConnects.LateCloseSettlesTheNextOperation`). A `connect()` that dials is safe
  exactly at rest - no close event to come, no attempt under way, no retry pending - or if the client does not retry
  (`ClientConnects.ConnectKeepsAnswersExactlyAtRest`), and what a caller has to watch for that is exact as well
  (`ClientConnects.CallersAreCarefulExactlyWhenCautious`).
* A data connection lost in the middle of an HTTP answer looks to the client like the answer's end
  (`Http.LostConnectionLooksComplete`): a clean end carries the whole answer exactly if all its frames came in before
  the close (`Http.CleanEndIsWholeExactlyWhenAllCameIn`).
* Once the failure bucket is spent, a dead cached token is refused as `RATE_LIMITED`, and the SDK does not exchange a
  new one (`Backend.RecoveryNeedsAnUnspentBucket`).
* Owner replacements are not bounded by connects and drops alone: an accepted hello whose `peer_ready` is not seen in
  time is retried without any close event, and one connect and one drop can be followed by any number of replacements
  (`Fleet.FlapsWithoutBound`). They are bounded by connects, drops and such lapses together
  (`Fleet.ReplacementsAreBounded`), and by connects and drops in every run without lapses
  (`Fleet.PunctualReplacementsAreBounded`).
* Overlapping `connect()` calls of one instance can leave open a connection the instance has forgotten
  (`Fleet.OverlappingConnectsLoseTheInstance`): a further `connect()` is safe exactly when none of the instance's
  hellos is on its way (`Fleet.ConnectIsSafeExactlyWhenIdle`). TypeScript checks nothing; Python checks its socket and
  its retry loop, which a first attempt that has not dialled yet has not set
  (`Lifecycle.OverlappingConnectsBreakOneLife`).
* In TypeScript a retry pending at `close()` survives and attacks the connection of a later `connect()`
  (`Lifecycle.PendingRetryBreaksOneLife`). What a caller can see guarantees one life exactly if each of its calls was
  made with none of its calls unsettled, and in TypeScript with nothing up, no retrying and no earlier `close()`
  during retrying (`Lifecycle.CallersKeepOneLifeExactlyWhenCautious`).

## Model

| member | source | states |
|---|---|---|
| StoreProofs.ApplyKeepsInv | src/storage.ts:435-719 | every store operation keeps: tokens and backend ids unique, at most one access row per enrollment, exactly access rows have parents, an unrevoked access row has a present unrevoked parent with its namespace and backend, an unrevoked bound credential has its identity row in its namespace |
| StoreProofs.RunKeepsInv | src/storage.ts:435-719 | the same over every sequence of operations that draws fresh ids and tokens |
| StoreProofs.CollapseLeavesOne | src/storage.ts:213-228 | the migration leaves one access row per enrollment that had any, an unrevoked one if there was one, touches nothing else and is idempotent |
| StoreProofs.CollapseEstablishesInv | src/storage.ts:213-230 | a store that satisfies the invariant but for duplicate access rows satisfies all of it after the migration |
| StoreProofs.RejectionIsPermanent | src/storage.ts:495-518 | once a drawn token is refused it is refused at every later time of every run, although an exchange clears `revokedAt` on the access row |
| StoreProofs.RevocationOrderIrrelevant | src/storage.ts:689-692 | revoking a list of ids, parents and children mixed, in any order, gives the store in which exactly the active requested rows and their active children are revoked |
| StoreProofs.InvMeansFlat | src/storage.ts:638-673 | access credentials are never parents, which is what order independence needs |
| StoreProofs.ChainsWouldMakeOrderMatter | src/storage.ts:602-628 | with a chain of three credentials the two orders differ |
| StoreProofs.ApplyKeepsKnown | src/server.ts:754-778 | a known backend stays known, in its namespace, unless it is the one being forgotten |
| Tokens.ResolvesExactlyWhileValid | src/storage.ts:495-518 | a token resolves to a row iff the row carries it, is unrevoked and not past its expiry, and its parent, if it has one, is present, unrevoked and not past its own |
| Tokens.TokensDieOnTime | src/storage.ts:86-90 | over every run of the store: a token handed out by an issue or an exchange is refused in every later state at every time after its lifetime, the one asked for or by default 15,552,000,000 ms for a device and 86,400,000 ms for an exchanged token |
| Tokens.RotationRetiresTheOldToken | src/storage.ts:638-673 | the previous token of an access row is refused from the exchange on, in every later state of every run |
| Tokens.IssuesExactly | src/server.ts:665-722 | what the issue route grants, in fields: devices and enrollments only, a backend only for an enrollment and only an existing one of its namespace, a scope only for a device and only non-empty and of existing backends; and the row and the identity it makes |
| Tokens.LegacyIdsAreStable | src/storage.ts:307-353 | over every run a legacy key keeps the id it was given unless that backend is forgotten, and different keys have different ids |
| Storage.GatewayStorage.constructor | src/storage.ts:237-255 | an empty store satisfies the invariant |
| Storage.GatewayStorage.AllocateEpoch | src/storage.ts:269-286 | the new epoch is larger than every one before |
| Storage.GatewayStorage.GetOrCreateBackendId | src/storage.ts:307-353 | the id stored for the legacy key, or the drawn one, stored now with no sighting; nothing else changes |
| Storage.GatewayStorage.GetBackendIdentity | src/storage.ts:372-375 | an identity of that backend, or none exists |
| Storage.GatewayStorage.IsKnownBackend | src/server.ts:411-413 | whether the backend has an identity in that namespace |
| Storage.GatewayStorage.TouchBackendIdentity | src/storage.ts:394-411 | the loop stamps exactly the rows of that backend with the time and, if given, the credential |
| Storage.GatewayStorage.CreateCredential | src/storage.ts:435-489 | the new row field by field, its expiry in literal milliseconds, and a new identity for an enrollment issued without one |
| Storage.GatewayStorage.GetCredentialByHash | src/storage.ts:520-527 | the row with that token, or none exists |
| Storage.GatewayStorage.FindValidCredential | src/storage.ts:495-518 | in fields: a row with that token is found iff one exists that is unrevoked and unexpired, as is its parent if it has one; it is stamped as used, and nothing else changes |
| Storage.GatewayStorage.BindBackendCredential | src/storage.ts:566-584 | true iff an unrevoked unbound enrollment; binds it and its unrevoked children |
| Storage.GatewayStorage.SetAllowedBackends | src/storage.ts:586-600 | true iff an unrevoked device credential; sets its scope |
| Storage.GatewayStorage.RevokeCredential | src/storage.ts:602-628 | returns, without duplicates, exactly the rows that went from unrevoked to revoked |
| Storage.GatewayStorage.RevokeCredentials | src/storage.ts:689-692 | one after the other, yet the store is that of revoking the set; returns exactly the active requested rows and their active children |
| Storage.GatewayStorage.ExchangeAccessCredential | src/storage.ts:638-673 | the enrollment's one access row under a new token, created or rotated in place |
| Storage.GatewayStorage.FindAccessCredential | src/storage.ts:675-687 | the enrollment's access row, or none exists |
| Storage.GatewayStorage.PurgeRevokedCredentials | src/storage.ts:701-719 | deletes exactly the revoked (and requested) rows and returns them without duplicates |
| Storage.GatewayStorage.ForgetBackend | src/server.ts:754-778 | deletes the identity iff it exists, is offline, and no unrevoked enrollment is bound to it and no unrevoked unbound credential registered it last |
| SessionSteps.StepKeepsSound | src/server.ts:1585-1873 | every step keeps the whole session invariant: coherence of leases, registry, peers and identities; channels anchored to the current lease; the ticket and pairing machine; notices and wirings accounted for; topics within their epoch; channel caps |
| SessionSteps.RunKeepsSound | src/server.ts:1585-1873 | the same over every run that draws fresh ids |
| SessionTheorems.EveryRunIsSound | src/server.ts:1040-1873 | every state reachable from an empty gateway over a sound store satisfies the invariant |
| SessionTheorems.LeasesAgree | src/server.ts:1585-1683 | lease keys equal registry keys; a lease's holder is a live peer carrying that backend id and epoch; the presence has the same epoch and the holder's namespace; the identity exists there; whoever has a backend id is its lease holder |
| SessionTheorems.LeasesSucceed | src/server.ts:1645-1657 | between any two moments of a run a backend's lease is the same or has a strictly larger epoch |
| Decisions.HellosAdmitExactly | src/server.ts:1585-1624 | a hello is admitted iff its token is that of a row in force, in the namespace declared, with version 4, for a backend no device row, and a backend id or an instance id; otherwise nobody joins, nothing is sent and no lease changes |
| Decisions.RefusalsAre | src/server.ts:1585-1624 | the error of each refused hello, in the order of the checks |
| Decisions.AdmissionSeats | src/server.ts:1645-1663 | an admitted backend holds, claims and is registered under the next epoch of the backend its row is bound to or its legacy key maps to; a client changes no lease and claims nothing; both count as having answered the last ping |
| Decisions.AdmissionIsRecorded | src/server.ts:1657-1659 | the identity of the backend carries the time of the admission and the enrollment behind the credential |
| Decisions.NewcomersAreGreeted | src/server.ts:1666-1670 | whoever is admitted is sent exactly one `peer_ready`, with what it claims |
| Decisions.LeasesExpireExactly | src/server.ts:1462-1467 | a lease check ends the lease iff its last heartbeat is more than 30,000 ms old, and no other lease; its holder and no other peer is removed then |
| Decisions.HeartbeatsCountExactly | src/server.ts:1718-1729 | a heartbeat refreshes lease and presence and is acknowledged iff its sender holds the lease under that epoch; any other changes nothing |
| Decisions.PingsDropExactlyTheSilent | src/server.ts:1455-1460 | a ping removes the peer iff it has not answered since the last one; an answer is remembered |
| Decisions.ExpiryIsRecorded | src/server.ts:1777-1794 | on expiry exactly the identities of that backend are marked as seen now |
| Decisions.GoingIsRecorded | src/server.ts:1796-1816 | so they are when the holder of the lease disconnects, by a closed socket or by silence |
| SessionHistory.StepEvolves | src/server.ts:1057-1103 | no step changes a channel's identity or deadline, empties a filled leg, unwires a channel, changes a fate, withdraws a notice or lowers an epoch |
| SessionHistory.RunEvolves | src/server.ts:1057-1103 | the same between any two moments of a run |
| SessionFrames.StepRemembers | src/server.ts:1163-1176 | every step: no used ticket comes back, no used peer id comes back, no peer gets another identity or a new claim; no step but a hello allocates an epoch or closes anybody with 4001 |
| SessionFrames.StepIsTame | src/server.ts:1777-1816 | every step but opening, subscribing, disconnecting and expiry: nobody leaves and no channel or subscription is added |
| SessionFrames.StepIsMute | src/server.ts:1693-1755 | no step but the three control requests sends anybody a reply to one of them or an error |
| SessionHands.OnlyHelloAllocates | src/storage.ts:269-286 | no step but a hello allocates an epoch |
| SessionHands.HandsChangeOnlyAtHello | src/server.ts:1645-1657 | after any step a backend's lease is the one it was, gone, or that of the peer this step admitted as the backend |
| SessionHands.TakeoverClosesThePredecessor | src/server.ts:1645-1653 | an admitted backend's predecessor is sent close code 4001, is closed for sending and has lost its claim |
| SessionHands.StepsMoveTheSlot | src/server.ts:1585-1873 | projected on any one backend, every step of the gateway leaves the lease, frees it, or gives it to the hello's connection: the slot the fleet of SDKs runs on |
| SessionHands.ReplacedAreTold | src/server.ts:1849-1873 | in every step exactly the open connections whose lease passes to the hello's connection are closed with 4001, once |
| SessionTheorems.ReplacementClosesTheHolder | src/server.ts:1849-1873 | the replaced holder loses its claim and is closed with 4001, in the private-use range of section 7.4.2 of RFC 6455; nobody else is closed |
| SessionTheorems.RegistrationNeedsACredential | src/server.ts:1585-1657 | a lease changes hands at a hello only for a usable backend credential of the declared namespace, to its own bound backend, and to the newcomer |
| Entitlement.OpenPeersAreEntitled | src/server.ts:1603-1642 | in every reachable state the credential of every open peer is present and unrevoked, the peer's namespace is that credential's, and its scope that credential's if it is a device and none otherwise |
| Entitlement.RevocationClosesExactly | src/server.ts:837-847 | an administrative revocation sends one close frame 1008 to exactly the open peers whose credential was unrevoked and is on the list, or is an access row of one on the list, and closes them; nobody else is closed or sent anything |
| Entitlement.RescopingClosesExactly | src/server.ts:808-834 | a change of scope is accepted iff the row is an unrevoked device and the scope, if any, is non-empty and of existing backends of its namespace; then the same of exactly that device's open peers |
| Entitlement.OtherOperationsCloseNobody | src/server.ts:665-908 | no other administrative operation closes a peer or sends anything |
| SessionTheorems.ChannelsBelongToTheLease | src/server.ts:1201-1236 | each channel's backend, epoch and backend peer are exactly the current lease, and a live client has that backend in its namespace and, if scoped, in its scope |
| SessionTheorems.ChannelsDieWithTheirEpoch | src/server.ts:1091-1095 | once a backend's lease has changed or gone, every channel of the old one has ended |
| SessionTheorems.TeardownIsFinal | src/server.ts:1057-1089 | a channel ends once, for one reason, and never comes back |
| SessionTheorems.ToldAndWiredAtMostOnce | src/server.ts:1057-1161 | each end is told at most once that the channel closed; a channel is wired at most once, and one that was wired has both legs (the backend's, for an internal one), or had them when it ended |
| Notifications.EveryEndIsToldOnce | src/server.ts:1057-1089 | in every reachable state, of every channel that has ended, each end whose peer is still connected has been told exactly once, with the reason it ended for |
| ChannelDecisions.ChannelsEndExactly | src/server.ts:1219-1249 | the steps about single channels end a channel iff: its backend peer rejects it, one of its ends closes it, its timer is due and running, a leg closes once it is wired, or an internal one's HTTP side goes; and what goes with it, who is told, and why |
| ChannelDecisions.OpeningIssues | src/server.ts:1218-1236 | the two tickets of a new channel, each for its own leg, to the client and to the holder alone, good for the ticket TTL, and a channel with both legs empty and its timer running |
| ChannelDecisions.DialsAreAcceptedExactly | src/server.ts:1163-1176 | a dial is accepted iff its ticket is outstanding, names this channel, which lives, and is not past its time; the ticket is gone either way |
| ChannelDecisions.CleanupDropsExactlyTheStale | src/server.ts:279-281 | the cleanup drops exactly the tickets past their time |
| ChannelDecisions.SocketsFillLegs | src/server.ts:1177-1197 | a socket fills its own leg of a channel that still lives; wired and its timer stopped from the moment both legs are there, or the backend's for an internal channel |
| SessionTheorems.CapsHold | src/server.ts:1049-1055 | no peer is the client of more channels than allowed, and no backend serves more internal HTTP channels than that |
| SessionTheorems.TicketsAreOneTime | src/server.ts:1163-1176 | an accepted ticket names an empty leg of a live channel and is the only one for it; once presented, accepted or not, it is never accepted again in the rest of any run |
| SessionTheorems.LegsAreFilledOnce | src/server.ts:1177-1197 | a filled leg keeps its socket as long as the channel lives |
| SessionTheorems.PairingTimeoutDecides | src/server.ts:1219-1230 | an unwired channel's timer is running; firing, it ends the channel as timed out iff it is unwired |
| SessionTheorems.TimerDecides | src/server.ts:1219-1230 | after its pairing timer has fired a channel is wired or gone for the rest of the run |
| SessionTheorems.OpenedIsDue | src/server.ts:1210-1230 | a channel's pairing timer is set to the ticket TTL after its opening |
| SessionTheorems.WiredOrGoneByTheDeadline | src/server.ts:1219-1230 | in runs on a clock, timers never early and at most some lateness behind: once anything happens later than the ticket TTL plus that lateness after its opening, a channel is wired or gone for good |
| SessionTheorems.DisconnectLeavesNothing | src/server.ts:1796-1816 | after a disconnect no session, lease, channel end or subscription of the peer is left |
| SessionTheorems.ExpiryLeavesClientEnds | src/server.ts:1777-1794 | lease expiry leaves the holder's client channels and its subscriptions at other backends |
| SessionLive.ClientsStayLiveExactlyUnlessStranded | src/server.ts:1777-1816 | if every client end is a live peer, it is so after a step iff the step is not the expiry of a lease whose holder is the client of another backend's channel |
| SessionLive.SubscribersStayLiveExactlyUnlessStranded | src/server.ts:1777-1816 | the same of subscribers: iff the step is not the expiry of a lease whose holder is subscribed at another backend |
| SessionLive.StrandingIsReachable | src/server.ts:1777-1794 | a run of five steps from an empty gateway that strands a client end and a subscriber |
| SessionTheorems.TopicsLiveWithTheLease | src/server.ts:1366-1434 | subscriptions and retained payloads exist for leased backends only, were accepted in the current epoch, and are at most 64 per backend |
| SessionTheorems.DeliveriesStayInReach | src/server.ts:1405-1423 | a publication is sent once to exactly the open subscribers when its sender owns the backend, to nobody otherwise, and each of them has the backend in its namespace and, if scoped, in its scope |
| SessionTheorems.RelayStaysInReach | src/server.ts:1739-1753 | a directed message is passed on only for the current owner, in its own name, to one live peer with that backend in its namespace and scope |
| ChannelDecisions.RelaysExactly | src/server.ts:1739-1752 | it is passed on iff the sender holds the lease it speaks for and the named peer is there and has the backend in its namespace and scope |
| ChannelDecisions.RetainsExactly | src/server.ts:1405-1423 | a publication replaces the retained payload iff it is the holder's, asks for it, has a payload, and the topic has one already or the backend fewer than 64 |
| ChannelDecisions.UnsubscribesExactly | src/server.ts:1399-1402 | an unsubscribe removes exactly this subscription |
| ChannelDecisions.ProxyStatusesAre | src/server.ts:914-962 | when a proxied request is answered 401, 429, 502 or let through, in fields |
| ChannelDecisions.ProxiesExactly | src/server.ts:914-962 | a request let through opens one internal channel, to the lease's holder, with one ticket; any other opens none and tells nobody |
| Reach.ViewsShowExactlyWhatIsInReach | src/server.ts:395-409 | whatever any step shows anybody, as a snapshot or in `peer_ready`, holds exactly the backends registered in that peer's namespace and, if it has a scope, named there, each as registered |
| Reach.SnapshotsAreSent | src/server.ts:1735-1737 | a request for a snapshot gets exactly one |
| Reach.OpensExactlyInReach | src/server.ts:1201-1236 | a `channel_open` is answered offline unless the backend is registered in the peer's namespace and scope, then rate limited at the cap, and otherwise granted; the channel exists iff granted |
| Reach.SubscribesExactlyInReach | src/server.ts:1377-1390 | a `topic_subscribe` is acknowledged and entered iff the backend is registered in the peer's namespace and scope, else answered offline |
| Notifications.AdmissionShowsTheOthers | src/server.ts:1672-1674 | on a backend's admission every other open peer is shown its own view with the new presence, once; on a client's nobody is |
| Notifications.DisconnectShowsTheOthers | src/server.ts:1796-1816 | when the holder of a lease goes, every other open peer is shown its own view without that backend, once; when anybody else goes nobody is shown anything |
| Notifications.ExpiryShowsEverybody | src/server.ts:1777-1794 | on expiry every open peer is shown its own view without the backend, once |
| Notifications.PollShowsEverybody | src/server.ts:1470-1474 | the periodic push shows every open peer its own view, once |
| Notifications.OtherStepsShowNobody | src/server.ts:1822-1836 | no other step shows anybody a snapshot, except a peer that asks, its own |
| SessionTheorems.ClaimsAreNotRegained | src/server.ts:1838-1873 | over every run: a peer's claim never changes, and once lost is lost for good |
| SessionTheorems.OnlyOwnersAct | src/server.ts:1838-1843 | a peer that has lost its lease, or never had one, can for the rest of the run neither publish, nor relay, nor keep a lease alive |
| Views.ScopeKeyInjective | src/server.ts:1822-1836 | two peers share a memoised snapshot only if they have the same namespace and scope |
| Views.UncleanIdsWouldCollide | src/server.ts:1822-1836 | a backend called `*` or with a comma in its name would share a key with another scope |
| Views.DiscoveryAgreesWithRegistry | src/server.ts:490-507 | the backends discovery marks online are exactly those registered in the credential's namespace and scope, with the presence's last-seen time |
| Views.DiscoveryListsWhatIsInReach | src/server.ts:490-507 | discovery lists exactly the identities in the namespace and scope, once each, online ones first, then by last seen |
| Views.OpenAnswersOnce | src/server.ts:1201-1236 | a channel_open is answered by exactly one reply or error, and the holder is offered the channel iff it is granted |
| Views.SubscribeAnswersOnce | src/server.ts:1377-1397 | a topic_subscribe is answered by exactly one reply or error, and the retained payload if there is one |
| Views.UnsubscribeAnswersOnce | src/server.ts:1399-1402 | a topic_unsubscribe is answered exactly once |
| Answers.OneAnswerPerRequest | src/server.ts:1201-1402 | every step of the gateway sends an open peer exactly one answer, which fits, if it handles a control request of this peer, and none otherwise: the other end of what `Client` runs on |
| Views.LateSubscriberGetsTheCurrentPayload | src/server.ts:1391-1396 | a late subscriber gets exactly the last retained payload accepted in the current epoch |
| Views.AnswersDependOnSlice | src/server.ts:1201-1217 | if two sound states agree on a peer and on what it may reach, its replies and its snapshot are the same; beyond reach every answer is that of a backend that does not exist |
| Views.DiscoveryDependsOnSlice | src/server.ts:490-507 | identities and presences beyond reach leave the discovery list unchanged |
| Gateway.Gateway.CountChannelsForPeer | src/server.ts:1049-1055 | the number of channels that peer is an end of |
| Gateway.Gateway.TeardownChannel | src/server.ts:1057-1089 | the channel and its tickets go and both ends that are there are told; an unknown channel changes nothing |
| Gateway.Gateway.CloseChannelsForBackend | src/server.ts:1091-1095 | the loop has the effect of closing all the backend's channels at once |
| Gateway.Gateway.CloseChannelsForPeer | src/server.ts:1097-1103 | the loop has the effect of closing all the peer's channels at once |
| Gateway.Gateway.HandleChannelOpen | src/server.ts:1201-1236 | refusals in order (offline, or outside the namespace or scope; too many), else channel, two tickets, offer and reply |
| Gateway.Gateway.HandleChannelReject | src/server.ts:1238-1242 | only the backend end can reject |
| Gateway.Gateway.HandleChannelClose | src/server.ts:1244-1249 | only an end of the channel can close it |
| Gateway.Gateway.HandleProxyRequest | src/server.ts:914-962 | 401, 429, 502, 429 in that order, else an internal channel with one ticket, offered to the holder |
| Gateway.Gateway.OpenInternal | src/server.ts:1256-1281 | the internal channel has no client leg and one ticket |
| Gateway.Gateway.HandleChannelUpgrade | src/server.ts:1163-1176 | the ticket is consumed before any check; accepted iff it names the channel, the channel lives and it is not expired |
| Gateway.Gateway.FillLeg | src/server.ts:1184-1197 | the leg that completes the pair wires the channel, once |
| Gateway.Gateway.AttachSocket | src/server.ts:1177-1197 | a socket whose channel is gone by now is dropped; else its leg is filled and the channel wired when complete |
| Gateway.Gateway.OnPairingTimeout | src/server.ts:1219-1230 | the timer's effect |
| Gateway.Gateway.OnLegClosed | src/server.ts:1152-1153 | a closed leg of a wired channel ends it |
| Gateway.Gateway.HandleTopicSubscribe | src/server.ts:1377-1397 | in reach, by namespace and scope: subscribed, acknowledged, given the retained payload; else answered offline |
| Gateway.Gateway.HandleTopicUnsubscribe | src/server.ts:1399-1402 | unsubscribed and acknowledged, also when nothing was subscribed |
| Gateway.Gateway.HandleTopicPublish | src/server.ts:1405-1423 | by the current owner only: retained within the cap, delivered to every subscriber still there |
| Gateway.Gateway.RemoveTopicSubscriptionsForPeer | src/server.ts:1425-1429 | the nested loop removes the peer from every subscriber set and changes nothing else |
| Gateway.Gateway.VisibleRegistry | src/server.ts:407-409 | the filter loop computes exactly the presences in the peer's namespace and, if scoped, in its scope |
| Gateway.Gateway.BroadcastRegistrySnapshot | src/server.ts:1822-1836 | the memoised loop sends every other open peer exactly its own visible registry |
| Gateway.Gateway.HandleBackendHeartbeat | src/server.ts:1718-1730 | by the current owner with the current epoch only: lease and presence refreshed, acknowledged |
| Gateway.Gateway.HandleRequestRegistrySnapshot | src/server.ts:1735-1737 | answered with the peer's own view |
| Gateway.Gateway.HandleBackendServerMessage | src/server.ts:1739-1753 | passed on only by the current owner, to a named live peer that may reach it |
| Gateway.Gateway.IsCurrentBackendOwner | src/server.ts:1838-1843 | whether the peer holds the current lease of its backend |
| Gateway.Gateway.HandleBackendLeaseExpired | src/server.ts:1777-1794 | channels, topics, presence and lease go, everybody hears of it, the holder is removed |
| Gateway.Gateway.HandlePeerDisconnect | src/server.ts:1796-1816 | an owner's channels close first with their own reason; then everything else of the peer goes |
| Gateway.Gateway.HandleBackendOwnerReplaced | src/server.ts:1849-1873 | the old epoch's channels, topics and lease go; the holder is closed with 4001 and loses its claim |
| Gateway.Gateway.SeatBackend | src/server.ts:1645-1663 | a new epoch, the predecessor out, lease and presence in |
| Gateway.Gateway.ResolveBackendIdentity | src/server.ts:362-381 | a bound credential is its backend; a legacy one resolves through its key |
| Gateway.Gateway.JudgePeerHello | src/server.ts:1585-1627 | the hello's checks in order, with the error of the first that fails |
| Gateway.Gateway.HandlePeerHello | src/server.ts:1585-1683 | the whole hello: verdict, registration, reply, broadcast |
| Gateway.Gateway.LeaseCheck | src/server.ts:1462-1467 | after the sweep exactly the leases that were not stale are left, untouched, and the invariant holds |
| Gateway.Gateway.PingSweep | src/server.ts:1455-1460 | after the sweep exactly the peers that had answered are left, each waiting again, and the invariant holds |
| Gateway.Gateway.CleanupTickets | src/server.ts:279-281 | drops exactly the expired tickets |
| Gateway.Gateway.ClosePeersOf | src/server.ts:837-847 | closes exactly the live peers on those credentials, each told 1008 once; which credentials those are is `Entitlement.RevocationClosesExactly` |
| Gateway.Gateway.OnSocketClose | src/server.ts:1508-1513 | a closed control socket disconnects its peer |
| RateLimit.KeysAreIndependent | src/server.ts:214-282 | in any mixture of keys and cleanups, a key gets the answers of a limiter that serves it alone and never cleans up |
| RateLimit.WindowBound | src/server.ts:214-229 | at most 2L - 1 admissions (1 if L is 0) in any closed interval as long as the window, for every nondecreasing sequence of calls |
| RateLimit.EveryRunIsBounded | src/server.ts:214-282 | the same bound for a key of a mixed run with cleanups |
| RateLimit.WindowBoundIsTight | src/server.ts:214-229 | for every limit and window a schedule reaches the bound; a limit of 0 admits the first call of a window and, like a limit of 1, refuses the next |
| RateLimit.RetryAfterIsEnough | src/server.ts:231-235 | for a caller refused after any run of calls and cleanups on a positive clock: the announced wait is between one second and the window; a later caller is admitted; one exactly then is refused iff the remaining time was a positive whole number of seconds |
| RateLimit.TenantsAreIsolated | src/server.ts:262-270 | with the ceiling per IP off, a tenant's answers depend on its own requests only |
| RateLimit.IpRefusalIsFree | src/server.ts:262-266 | refused by the IP iff there is a ceiling and its running window is spent, which costs no tenant anything; else by the tenant iff the tenant's is, charged either way; what each bucket holds afterwards |
| RateLimit.Limiter.CheckLimit | src/server.ts:214-229 | in fields: admits iff there is no window, it is over, or it has room; opens a new window of full length or counts the call either way |
| RateLimit.Limiter.Cleanup | src/server.ts:272-278 | removes exactly the entries whose window is over |
| RateLimit.RefuseProxyRequest | src/server.ts:262-270 | the bucket that refuses, IP first, and what both buckets are charged |
| Relay.RelayIsFaithful | src/server.ts:1111-1161 | whatever the timers do, frames delivered are a prefix of the frames sent, flags kept, frames from before pairing included; bytes relayed equal the bucket plus what window resets forgave |
| Relay.RateIsBounded | src/server.ts:1116-1141 | with frames no larger than the limit R, a receiver as congested as it likes, and no rate pause lifted before its window ends, the bucket stays within R + M and the bytes of T ms since the first frame within R(T/1000 + 1) + M, the window being 1000 ms |
| Relay.RatePausesLastAtMostASecond | src/server.ts:1122-1140 | in every reachable state a frame pauses the sender and starts one rate timer, due later than now and at most 1000 ms from now, iff more than the limit has been relayed in the window |
| Relay.PausesEnd | src/server.ts:1135-1149 | in every reachable state a paused sender has a rate or drain timer running, and firing resumes it, a drain timer once the receiver has drained or gone; a congested receiver pauses the sender |
| Relay.ApartRateIsBounded | src/server.ts:1135-1149 | in particular when no drain tick finds the receiver drained while a rate timer is running |
| Relay.DrainTimerLiftsTheRatePause | src/server.ts:1135-1149 | in every reachable state a timer lifts a rate pause within its window iff the sender is paused, a rate timer not yet due is running, and the receiver has drained if the timer is the drain timer |
| Relay.DrainingOverruns | src/server.ts:1135-1149 | for every limit a run from the start in which a drain tick lets three times the limit through at once |
| Relay.Direction.OnMessage | src/server.ts:1119-1151 | forward, account, and pause also when the receiver's send buffer holds more than 4 MiB |
| Relay.Direction.Account | src/server.ts:1122-1140 | in fields: before the window ends add, after it carry the overshoot into one that ends 1000 ms from now; pause above the limit and start a timer for the end of the window |
| Relay.Direction.OnRateTimer | src/server.ts:1135-1140 | resumes unconditionally |
| Relay.Direction.OnDrainTick | src/server.ts:1142-1149 | resumes once the receiver has drained to 1 MiB or is gone |
| Http.RoundTrip | packages/backend/src/index.ts:279-314 | for every splitting of the body and every handler: called once, with the exact request; the client gets the exact body, and the status if in 100..599, else 502; 500 if the handler throws |
| Http.RequestsArriveExactly | src/server.ts:1283-1310 | the bridge's frames decode to the request, whatever the chunks |
| Http.AnswersArriveExactly | src/server.ts:1317-1359 | the handler's answer, all of it in before the socket closes, reaches the client byte for byte, with the handler's status if that is a whole number in 100..599, else 502 |
| Http.EndsHonestly | src/server.ts:1310-1359 | before a head the client gets 504 on a timeout and 502 otherwise; after it a clean end iff the backend's socket closed, broken or not, else a visible cut |
| Http.EndsExactly | src/server.ts:1310-1359 | in every run: which events end a request and which do not; the first text frame is the head, with its status if a whole number in 100..599 and else 502; after it body frames add to the body and nothing else changes anything |
| Http.CleanEndIsWholeExactlyWhenAllCameIn | src/server.ts:1345-1352 | when the socket closes, broken or not, after some frames of an answer: a clean end with the head's status, and the body is the whole answer iff all the answer's frames had come in |
| Http.LostConnectionLooksComplete | src/server.ts:1345-1352 | a run in which the connection is lost between two chunks and the client sees a complete answer without the second |
| Http.StreamingIsExact | src/server.ts:1335-1342 | while the channel lives the client has exactly the body bytes that came in |
| Http.Concat | packages/backend/src/index.ts:532-538 | the array filled chunk by chunk is the concatenation |
| Http.HttpBridge.OnMessage | src/server.ts:1317-1344 | one response frame's effect, in fields: the head's status if a whole number in 100..599 and else 502, 502 for a first frame that is not text, body bytes appended |
| Http.HttpBridge.OnClose | src/server.ts:1345-1357 | the backend's close ends an answered request and fails an unanswered one |
| Http.HttpBridge.TeardownResponse | src/server.ts:1063-1075 | an unanswered request gets 504 or 502, an answer under way is destroyed |
| Http.HttpChannelServer.OnMessage | packages/backend/src/index.ts:283-297 | the request is handed out at the end frame, with the concatenated body |
| Stream.EndIsStickyExactlyWhenWellFed | packages/python/src/zclaudia_gateway/http.py:109-119 | for every number of readers the end marker is sticky iff no chunk was fed behind an end |
| Stream.ReceiversShareTheBody | packages/python/src/zclaudia_gateway/asgi.py:64-78 | with any number of concurrent receivers the chunks are handed out once each in fed order, the end of the body is reported at most once and after all of them, a disconnect only after one and after the end; after the end no receiver waits at the queue, after a disconnect none waits at all |
| Stream.IterationYieldsThenEnds | packages/python/src/zclaudia_gateway/channel.py:113-193 | the iterator yields the frames in order (at most 64 from before the consumer registered) and then ends, also if the channel closed before that |
| Stream.PythonRoundTrip | packages/python/src/zclaudia_gateway/http.py:259-295 | the buffered Python handler: same round trip as the TypeScript one, the status if a whole number in 100..599, else 502 |
| Stream.OneExchangePerChannel | packages/python/src/zclaudia_gateway/http.py:174-225 | whatever frames come in, the exchange is that of the first head, with exactly the chunks and ends behind it in order; frames before it are skipped |
| Stream.BufferedArrivesExactly | packages/python/src/zclaudia_gateway/http.py:174-225 | the handler sees the exact request, an empty method or path replaced by its default; when the channel ends first it is not called, nothing is answered, and the client gets 502 |
| Stream.HttpExchange.ReadChunk | packages/python/src/zclaudia_gateway/http.py:109-119 | takes the head of the queue; puts an end marker back |
| Stream.HttpExchange.Start | packages/python/src/zclaudia_gateway/http.py:132-138 | the head goes out at most once |
| Stream.HttpExchange.Write | packages/python/src/zclaudia_gateway/http.py:140-146 | refused before the start; an empty chunk sends nothing |
| Stream.HttpExchange.CollectBody | packages/python/src/zclaudia_gateway/http.py:121-128 | the loop collects the chunks before the first end marker |
| Stream.HttpExchange.BufferedRequest | packages/python/src/zclaudia_gateway/http.py:267-278 | the request, unless the client is gone |
| Stream.GatewayChannel.OnFrame | packages/python/src/zclaudia_gateway/channel.py:113-126 | to the consumer, or to the early buffer while it has room |
| Stream.GatewayChannel.MarkClosed | packages/python/src/zclaudia_gateway/channel.py:135-140 | one end marker for a registered consumer, once |
| Stream.GatewayChannel.Iterate | packages/python/src/zclaudia_gateway/channel.py:168-184 | registering flushes the early frames, and ends right there on a closed channel |
| Client.OperationsAreSerial | packages/client/src/index.ts:274-309 | in every run, with any number of connections, late close events and user closes: at most one operation is in progress; operations settle in the order issued, none twice, never by the answer to a later one |
| Client.SettledOnce | packages/client/src/index.ts:274-289 | a settled operation stays as it settled |
| Client.WithoutTimeoutsAnswersMatch | packages/client/src/index.ts:291-309 | in runs without timeouts in which each `connect()` that dials finds no close event to come, no attempt under way and no retry pending, every answered operation is settled by the answer to exactly that operation |
| Client.AnswerIsOwnExactlyWhenNothingIsStale | packages/client/src/index.ts:274-289 | in every run, the answer that settles the pending operation is its own iff its request is the only one unanswered on the connection the answer came on |
| ClientConnects.LateAnswerSettlesTheNextOperation | packages/client/src/index.ts:297-300 | a run in which the late reply of the first operation settles the second |
| ClientConnects.ConnectKeepsAnswersExactlyAtRest | packages/client/src/index.ts:189-235 | in every state with all answers right so far: after a `connect()` that dials they stay right, whatever follows without timeouts and with further connects at rest, iff it was made at rest or the client does not retry |
| ClientConnects.LateCloseSettlesTheNextOperation | packages/client/src/index.ts:356-389 | a run from a new client, without timeouts, in which the close event of a socket closed earlier makes an answer settle another operation |
| ClientConnects.CallersAreCarefulExactlyWhenCautious | packages/client/src/index.ts:356-389 | what a caller has seen guarantees that each `connect()` was made at rest iff each was made with no attempt under way, all close events seen, no retry pending, and no earlier `close()` while one was |
| Client.GatewayClient.StartConnect | packages/client/src/index.ts:189-199 | nothing while connected or connecting; else a new socket, current at once, whatever is left of earlier ones |
| Client.GatewayClient.HandshakeDone | packages/client/src/index.ts:224-232 | connected, and the socket is listened to from now on |
| Client.GatewayClient.OnRetryTimer | packages/client/src/index.ts:373-380 | dials, unless closed by the user |
| Client.GatewayClient.RunNext | packages/client/src/index.ts:292-305 | the next operation is sent on the current socket, or rejected without a connection |
| Client.GatewayClient.RouteMessage | packages/client/src/index.ts:237-289 | a reply of the kind waited for settles the pending operation, an error fails it, anything else is dropped |
| Client.GatewayClient.OnTimeout | packages/client/src/index.ts:297-300 | the pending operation fails, and its request stays unanswered |
| Client.GatewayClient.HandleClose | packages/client/src/index.ts:356-371 | any socket's close event fails the pending operation, clears the current socket and, unless closed by the user or told not to retry, schedules a retry if it was connected or connecting |
| Client.GatewayClient.Close | packages/client/src/index.ts:382-389 | shut and without a socket; the old socket is still listened to |
| Backend.EstablishIsBounded | packages/backend/src/index.ts:332-347 | at most one exchange and two handshakes; a cached token only more than 60,000 ms before its expiry; refused authentication exactly when the exchange was refused with 401 or 403 or an uncached credential was unauthorized |
| Backend.CacheFollowsExchanges | packages/backend/src/index.ts:332-407 | which tokens are shown and what is cached afterwards, for every sequence of replies; the outcome is that of the last handshake |
| Backend.ExchangeAnswersAre | src/server.ts:891-911 | the exchange is granted iff the token is that of an enrollment in force, with the lifetime asked for or 86,400,000 ms; 403 for another row, 401 or 429 for none |
| Backend.ExchangedTokenResolves | src/storage.ts:638-673 | a token just exchanged is accepted, as the enrollment's access credential with its namespace and backend |
| Backend.GoodEnrollmentIsNeverRefused | packages/backend/src/index.ts:332-347 | composed with store and hello: with a good enrollment and an unspent bucket, and any operations of others between the calls that neither exchange this enrollment nor revoke it or its access credential, never refused authentication, whatever was cached and wherever the network breaks; connected when it does not and nothing usable is cached |
| Backend.RecoveryNeedsAnUnspentBucket | src/server.ts:1594-1599 | a dead cached token is replaced iff the failure bucket is not spent |
| Lifecycle.EveryRunHasOneLife | packages/backend/src/index.ts:316-330 | connected, connecting, waiting to retry, or none of these, and a connected instance shows no error: in every run of either SDK in which each `connect()` and `start()` finds the instance at rest |
| Lifecycle.StepKeepsOneLife | packages/python/src/zclaudia_gateway/backend.py:384-396 | every step of either SDK keeps this, a `connect()` or `start()` iff it finds nothing up, under way or pending |
| Lifecycle.CallersKeepOneLifeExactlyWhenCautious | packages/python/src/zclaudia_gateway/backend.py:370-410 | over all runs of either SDK: every run with the same visible events keeps to one life throughout iff each `connect()` and `start()` was made with no call of the caller unsettled and, in TypeScript, nothing up, no retrying seen, and no earlier `close()` during retrying |
| Lifecycle.OverlappingConnectsBreakOneLife | packages/python/src/zclaudia_gateway/backend.py:384-396 | a Python run of two `connect()` calls, the second before the first has dialled: both pass the check and two attempts are under way |
| Lifecycle.PendingRetryBreaksOneLife | packages/backend/src/index.ts:453-465 | a TypeScript run in which a retry pending at `close()` fires into the next connection |
| Lifecycle.ReplacedStaysDown | packages/python/src/zclaudia_gateway/backend.py:683-694 | a replaced instance stays down, with no retry pending and nothing under way, until it is connected or started again |
| Lifecycle.LastErrorFollowsAttempts | packages/backend/src/index.ts:316-330 | over every run with each `connect()` and `start()` at rest, `lastError` and the connection are what the events alone tell: connect and success clear it, a failed attempt sets it, 4001 on the connection that is up sets it to replaced, a drop and close() keep it |
| Backend.GatewayBackend.HandleClose | packages/backend/src/index.ts:435-451 | stale sockets ignored, 4001 stands down, otherwise retry unless closed or told not to |
| Backend.GatewayBackend.NextCredential | packages/backend/src/index.ts:469-500 | the credential itself, the cached token, or an exchange that refills the cache |
| Backend.GatewayBackend.EstablishOnce | packages/backend/src/index.ts:332-347 | the attempt and its one retry, with what is left in the cache |
| Fleet.ReplacementsAreBounded | packages/backend/src/index.ts:435-465 | over any run of any number of instances sharing a credential, retrying or not, second handshakes, lost closes and late hellos included: fewer replacements than connects, drops and lapses together |
| Fleet.PunctualReplacementsAreBounded | packages/backend/src/index.ts:435-465 | fewer than connects and drops alone in every run in which no accepted attempt fails |
| Fleet.AcceptedHoldOrHear | packages/backend/src/index.ts:435-451 | in every run, an accepted connection its SDK still listens on holds the lease or has a close on its way, and never both |
| Fleet.ClosedStaysDown | packages/backend/src/index.ts:453-465 | over every run, an instance closed while none of its hellos is on its way dials nothing more until it is connected again |
| Fleet.DropsAreRetried | packages/backend/src/index.ts:435-451 | from its `connect()` to its `close()`, over every run, an instance that loses the connection it is on redials iff it retries and was not replaced |
| Fleet.GivenUpHellosTakeTheLease | packages/backend/src/index.ts:349-407 | in every state, the hello of an attempt that is given up may still be accepted: it takes the lease, a connected predecessor is closed with 4001, and nobody listens on it |
| Fleet.LapsesAreCounted | packages/backend/src/index.ts:349-407 | no accepted attempt failed in a run iff its count of lapses has not changed |
| Fleet.FlapsWithoutBound | packages/backend/src/index.ts:453-465 | for every n a run with one connect, one drop and n replacements |
| Fleet.OneInstanceStays | packages/python/src/zclaudia_gateway/backend.py:670-711 | with k connects, each while none of the instance's hellos is on its way, second handshakes included, and no losses at most k - 1 replacements, and once everything is delivered exactly k - 1 and exactly one instance connected, the one holding the lease |
| Fleet.ConnectIsSafeExactlyWhenIdle | packages/backend/src/index.ts:316-366 | a further `connect()` always ends with one instance connected iff none of the instance's hellos is on its way |
| Fleet.OverlappingConnectsLoseTheInstance | packages/backend/src/index.ts:316-366 | a run of two overlapping connects that ends with an open connection its instance has forgotten |

## Left out

- Express, WebSocket, SQLite and asyncio internals, CORS, cookies, origin checks, audit logging, shutdown: plumbing over libraries.
- The SQLite branch of the storage: the in-memory branch is modelled; the migration is modelled as what its query keeps.
- Names, capabilities, device and instance ids of peers and presences, recovery tokens, push notifications and the admin UI: carried along, never decided on.
- Hashing, random bytes and JSON text: tokens and ids are fresh values, frames are datatypes with a text/binary flag; the header allowlist is not modelled, headers are carried whole.
- The order of messages within one step and of entries in a map: `sent` and `notices` are multisets, maps have no insertion order; loops over maps are proved for every order.
- Records in maps are values replaced as a whole, not objects shared by reference.
- Which timer fires first when several are due, and how late a timer may be: lateness is a parameter where a theorem speaks of deadlines.
- Connection counts per IP, the authentication timeout before a hello, malformed hellos, and malformed or unknown messages, each answered with one `INVALID_MESSAGE` error: one-branch checks before the modelled steps.
- The Python streaming handler's grace period and cancellation, and the ASGI `send` side: the receiving side and the exchange are modelled; `receive` is modelled on values because its calls interleave at every await.
- The client's topic handlers, resubscription and channel objects: control operations are modelled, resubscription is one more of them.
- Backoff delays: a retry is a timer without a length.
- `close()` racing a handshake in the backend SDKs: the code does not settle it, so `Lifecycle.Event` lets `close()` happen between attempts only. What overlapping attempts do to the `socket` field is modelled in `Fleet`; `Lifecycle` follows one life up to the first step that breaks it.
- Python's `connect()` after `start()` and the reverse: the code refuses to mix them; `Lifecycle` allows it, as its theorems do not need the refusal.
- What a client sends on a socket whose handshake is not done, which takes a `connect()` made too early: it is taken to go nowhere.
- Whether a socket that is closing still delivers control messages: socket libraries differ, so `Client` lets them arrive until the close event.
- Gateway.Gateway.BroadcastRegistrySnapshot: requires namespaces without the unit separator and scope ids that are non-empty, comma-free and not `*`, as the source assumes of its generated ids; the methods that admit or remove peers keep this.
- Storage.GatewayStorage.FindValidCredential: requires tokens to be unique, which the store's invariant provides; with duplicates the source would take the first in insertion order.
- Gateway.Gateway.HandlePeerHello: whether the failure bucket is spent is a parameter; the bucket itself is `RateLimit.Limiter`.
- Http.EndsHonestly: for steps taken while the channel is in the gateway's table; the source does not check this in the bridge's message handler.
- The order in which an SDK sees `peer_ready` and a close of the same connection: `Fleet` takes them in the order they were sent.
