/**
 The gateway's session machine as values: peers, registry, leases, channels,
 tickets and topics, and what each handler makes of them. Every handler is one
 atomic step. The last fields of the state are history: what was sent to whom
 (`channel_closed` notices apart from the rest), how each closed channel ended, how often each channel was wired, and
 the last retained publication accepted for each topic.
 */
module Session {
  import opened Basics
  import opened CredentialStore
  import Slot

  type PeerId = nat
  type ChannelId = nat
  type TicketToken = nat
  type Socket = nat
  type Topic = string
  type Payload = nat

  const MAX_RETAINED_TOPICS := 64
  const LEASE_TTL := 30_000
  const CLOSE_REPLACED := Slot.CLOSE_REPLACED
  const CLOSE_POLICY := 1008
  const PROTOCOL_VERSION := 4

  datatype Claim = Claim(backendId: BackendId, epoch: nat)

  /** `open` is whether the gateway may still send on the peer's socket. */
  datatype Peer = Peer(namespace: Namespace, credential: CredentialId, scope: Option<seq<BackendId>>,
                       claim: Option<Claim>, alive: bool, open: bool)

  datatype Lease = Lease(epoch: nat, holder: PeerId, heartbeatAt: int)

  datatype Presence = Presence(namespace: Namespace, epoch: nat, connectedAt: int, lastSeenAt: int)

  datatype End = ClientEnd | BackendEnd

  /**
   `client` is None for an internal HTTP channel, whose client end is the gateway itself. `armed`: the pairing timer
   runs, to fire at `due`.
   */
  datatype Channel = Channel(
    backendId: BackendId, epoch: nat, client: Option<PeerId>, backend: PeerId,
    clientLeg: Option<Socket>, backendLeg: Option<Socket>,
    wired: bool, armed: bool, tickets: set<TicketToken>, due: int)
  {
    function Leg(end: End): Option<Socket> { if end == ClientEnd then clientLeg else backendLeg }
    function PeerAt(end: End): Option<PeerId> { if end == ClientEnd then client else Some(backend) }
    predicate Complete() { backendLeg.Some? && (client.None? || clientLeg.Some?) }
    predicate Consistent() { (wired <==> Complete()) && (armed <==> !wired) && (client.None? ==> clientLeg.None?) }
  }

  datatype Ticket = Ticket(channel: ChannelId, end: End, expiresAt: int)

  /** An upgrade whose ticket is consumed and whose socket is not attached yet. */
  datatype Dial = Dial(channel: ChannelId, end: End)

  datatype Reason = Closed | Rejected | TimedOut | EpochChanged | BackendOffline

  datatype Fate = Fate(channel: Channel, reason: Reason)

  datatype ErrorCode = InvalidMessage | ProtocolVersionMismatch | Unauthorized | Offline | RateLimited

  type Registry = map<BackendId, Presence>

  datatype Message =
    | PeerReady(claim: Option<Claim>, items: Registry)
    | Snapshot(items: Registry)
    | Error(code: ErrorCode)
    | HeartbeatAck(epoch: nat)
    | ChannelReady(channel: ChannelId, ticket: TicketToken)
    | ChannelOffer(channel: ChannelId, ticket: TicketToken, source: Option<PeerId>)
    | Subscribed(backendId: BackendId, topic: Topic)
    | Unsubscribed(backendId: BackendId, topic: Topic)
    | TopicMessage(backendId: BackendId, topic: Topic, payload: Option<Payload>)
    | Relayed(backendId: BackendId, payload: Option<Payload>)
    | CloseFrame(status: nat)

  datatype Envelope = Envelope(to: PeerId, msg: Message)

  /** A `channel_closed` message, with the end of the channel it was sent for. */
  datatype Notice = Notice(to: PeerId, channel: ChannelId, end: End, reason: Reason)

  datatype Config = Config(maxChannels: nat, ticketTtl: nat)

  datatype State = State(
    config: Config,
    store: Store,
    peers: map<PeerId, Peer>,
    leases: map<BackendId, Lease>,
    registry: Registry,
    channels: map<ChannelId, Channel>,
    tickets: map<TicketToken, Ticket>,
    dials: set<Dial>,
    subs: map<BackendId, map<Topic, set<PeerId>>>,
    retained: map<BackendId, map<Topic, Payload>>,
    sent: multiset<Envelope>,
    notices: multiset<Notice>,
    fates: map<ChannelId, Fate>,
    wirings: multiset<ChannelId>,
    published: map<(BackendId, Topic), (nat, Payload)>,
    usedPeers: set<PeerId>,
    usedTickets: set<TicketToken>)

  function Initial(config: Config, store: Store): State {
    State(config, store, map[], map[], map[], map[], map[], {}, map[], map[], multiset{}, multiset{}, map[],
          multiset{}, map[], {}, {})
  }

  // ---- Reach and views -----------------------------------------------------

  predicate CanReach(namespace: Namespace, scope: Option<seq<BackendId>>, target: Namespace, backendId: BackendId) {
    target == namespace && (scope.Some? ==> backendId in scope.value)
  }

  predicate PeerReaches(s: State, p: PeerId, backendId: BackendId)
    requires p in s.peers
  {
    backendId in s.registry
    && CanReach(s.peers[p].namespace, s.peers[p].scope, s.registry[backendId].namespace, backendId)
  }

  function Visible(registry: Registry, namespace: Namespace, scope: Option<seq<BackendId>>): Registry {
    map b | b in registry && CanReach(namespace, scope, registry[b].namespace, b) :: registry[b]
  }

  predicate Open(s: State, p: PeerId) { p in s.peers && s.peers[p].open }

  function Send(s: State, p: PeerId, msg: Message): State {
    if Open(s, p) then s.(sent := s.sent + multiset{Envelope(p, msg)}) else s
  }

  function Snapshots(s: State, except: Option<PeerId>): set<Envelope> {
    set p | p in s.peers && s.peers[p].open && except != Some(p)
      :: Envelope(p, Snapshot(Visible(s.registry, s.peers[p].namespace, s.peers[p].scope)))
  }

  function Broadcast(s: State, except: Option<PeerId>): State {
    s.(sent := s.sent + multiset(Snapshots(s, except)))
  }

  function CloseSocket(s: State, p: PeerId, status: nat): State {
    if Open(s, p) then Send(s, p, CloseFrame(status)).(peers := s.peers[p := s.peers[p].(open := false)]) else s
  }

  /** Disconnect every live peer that authenticated with one of these credentials. */
  function CloseCredentials(s: State, ids: set<CredentialId>): State {
    s.(sent := s.sent + multiset(set p | p in s.peers && s.peers[p].open && s.peers[p].credential in ids
                                   :: Envelope(p, CloseFrame(CLOSE_POLICY))),
       peers := map p | p in s.peers ::
         if s.peers[p].credential in ids then s.peers[p].(open := false) else s.peers[p])
  }

  // ---- Channels ------------------------------------------------------------

  function ChannelsOf(s: State, backendId: BackendId): set<ChannelId> {
    set c | c in s.channels && s.channels[c].backendId == backendId
  }

  function ChannelsAt(s: State, p: PeerId): set<ChannelId> {
    set c | c in s.channels && (s.channels[c].client == Some(p) || s.channels[c].backend == p)
  }

  function TicketsOf(s: State, dead: set<ChannelId>): set<TicketToken> {
    set c, t | c in dead && c in s.channels && t in s.channels[c].tickets :: t
  }

  /** One notice per end of each closed channel whose peer can still be told. */
  function Notices(s: State, dead: set<ChannelId>, reason: Reason): set<Notice> {
    set c, e: End | c in dead && c in s.channels && s.channels[c].PeerAt(e).Some?
      && Open(s, s.channels[c].PeerAt(e).value)
      :: Notice(s.channels[c].PeerAt(e).value, c, e, reason)
  }

  function CloseChannels(s: State, dead: set<ChannelId>, reason: Reason): State {
    s.(channels := s.channels - dead,
       tickets := s.tickets - TicketsOf(s, dead),
       notices := s.notices + multiset(Notices(s, dead, reason)),
       fates := s.fates + map c | c in dead && c in s.channels :: Fate(s.channels[c], reason))
  }

  datatype OpenVerdict = Refuse(code: ErrorCode) | Grant(epoch: nat, holder: PeerId)

  function ChannelVerdict(s: State, p: PeerId, target: BackendId): OpenVerdict
    requires p in s.peers
  {
    if target !in s.registry || target !in s.leases || s.leases[target].holder !in s.peers || !PeerReaches(s, p, target)
    then Refuse(Offline)
    else if |ChannelsAt(s, p)| >= s.config.maxChannels then Refuse(RateLimited)
    else Grant(s.leases[target].epoch, s.leases[target].holder)
  }

  datatype ChannelDraw = ChannelDraw(channel: ChannelId, clientTicket: TicketToken, backendTicket: TicketToken)

  /** A channel nobody has dialled yet. */
  function Undialled(target: BackendId, epoch: nat, client: Option<PeerId>, holder: PeerId, tickets: set<TicketToken>,
                     due: int): Channel
  {
    Channel(target, epoch, client, holder, None, None, false, true, tickets, due)
  }

  function AddChannel(s: State, target: BackendId, client: Option<PeerId>, holder: PeerId, epoch: nat,
                      draw: ChannelDraw, now: int): State
  {
    var due := now + s.config.ticketTtl;
    var backendTicket := map[draw.backendTicket := Ticket(draw.channel, BackendEnd, due)];
    var clientTicket := map[draw.clientTicket := Ticket(draw.channel, ClientEnd, due)];
    var issued := if client.Some? then clientTicket + backendTicket else backendTicket;
    s.(channels := s.channels[draw.channel := Undialled(target, epoch, client, holder, issued.Keys, due)],
       tickets := s.tickets + issued,
       usedTickets := s.usedTickets + issued.Keys)
  }

  function OpenChannel(s: State, p: PeerId, target: BackendId, draw: ChannelDraw, now: int): State
    requires p in s.peers
  {
    match ChannelVerdict(s, p, target)
    case Refuse(code) => Send(s, p, Error(code))
    case Grant(epoch, holder) =>
      var t := AddChannel(s, target, Some(p), holder, epoch, draw, now);
      Send(Send(t, holder, ChannelOffer(draw.channel, draw.backendTicket, Some(p))),
           p, ChannelReady(draw.channel, draw.clientTicket))
  }

  function RejectChannel(s: State, p: PeerId, c: ChannelId): State {
    if c in s.channels && s.channels[c].backend == p then CloseChannels(s, {c}, Rejected) else s
  }

  function CloseChannel(s: State, p: PeerId, c: ChannelId): State {
    if c in s.channels && (s.channels[c].client == Some(p) || s.channels[c].backend == p)
      then CloseChannels(s, {c}, Closed) else s
  }

  /** HTTP status of a proxied request before a channel exists for it; 0 = a channel was opened. */
  ghost function ProxyStatus(s: State, token: Token, target: BackendId, limited: bool, now: int): nat {
    var id := Resolve(s.store, token, now);
    if id.None? then 401
    else if limited then 429
    else if target !in s.leases || target !in s.registry
            || !CanReach(s.store.credentials[id.value].namespace, s.store.credentials[id.value].scope,
                         s.registry[target].namespace, target)
            || s.leases[target].holder !in s.peers
    then 502
    else if |ChannelsAt(s, s.leases[target].holder)| >= s.config.maxChannels then 429
    else 0
  }

  ghost function Proxy(s: State, token: Token, target: BackendId, limited: bool, draw: ChannelDraw, now: int): State {
    var t := s.(store := FindValid(s.store, token, now));
    if ProxyStatus(s, token, target, limited, now) != 0 then t
    else
      var lease := s.leases[target];
      Send(AddChannel(t, target, None, lease.holder, lease.epoch, draw, now),
           lease.holder, ChannelOffer(draw.channel, draw.backendTicket, None))
  }

  // ---- Dialling: consume the ticket, then attach the socket ----------------

  predicate DialAccepted(s: State, token: TicketToken, c: ChannelId, now: int) {
    token in s.tickets && c in s.channels && s.tickets[token].channel == c && now <= s.tickets[token].expiresAt
  }

  /** The ticket is gone even when the dial is refused. */
  function ConsumeTicket(s: State, token: TicketToken, c: ChannelId, now: int): State {
    s.(tickets := s.tickets - {token},
       dials := if DialAccepted(s, token, c, now) then s.dials + {Dial(c, s.tickets[token].end)} else s.dials)
  }

  /** The channel once a leg has its socket; the leg that completes it wires it and stops its pairing timer. */
  function WithLeg(ch: Channel, end: End, socket: Socket): Channel {
    var held := if end == ClientEnd then ch.(clientLeg := Some(socket)) else ch.(backendLeg := Some(socket));
    if held.Complete() && !held.wired then held.(wired := true, armed := false) else held
  }

  /** The socket of a channel that was torn down meanwhile is dropped. */
  function Attach(s: State, dial: Dial, socket: Socket): State {
    if dial in s.dials && dial.channel in s.channels then
      var ch := WithLeg(s.channels[dial.channel], dial.end, socket);
      s.(dials := s.dials - {dial},
         channels := s.channels[dial.channel := ch],
         wirings := if ch.wired && !s.channels[dial.channel].wired then s.wirings + multiset{dial.channel}
           else s.wirings)
    else s.(dials := s.dials - {dial})
  }

  function PairingTimeout(s: State, c: ChannelId): State {
    if c in s.channels && s.channels[c].armed then CloseChannels(s, {c}, TimedOut) else s
  }

  /** A timer never fires early. */
  predicate TimerDue(s: State, c: ChannelId, now: int) { c in s.channels && s.channels[c].due <= now }

  function LegClosed(s: State, c: ChannelId): State {
    if c in s.channels && s.channels[c].wired then CloseChannels(s, {c}, Closed) else s
  }

  /** The HTTP side of an internal channel went away, or one of the bridge's timers fired. */
  function HttpGone(s: State, c: ChannelId, reason: Reason): State {
    if c in s.channels && s.channels[c].client.None? then CloseChannels(s, {c}, reason) else s
  }

  function DropStaleTickets(s: State, now: int): State {
    s.(tickets := map t | t in s.tickets && now <= s.tickets[t].expiresAt :: s.tickets[t])
  }

  // ---- Topics --------------------------------------------------------------

  function SubscribersOf(s: State, backendId: BackendId, topic: Topic): set<PeerId> {
    if backendId in s.subs && topic in s.subs[backendId] then s.subs[backendId][topic] else {}
  }

  function TopicsOf<T>(m: map<BackendId, map<Topic, T>>, backendId: BackendId): map<Topic, T> {
    if backendId in m then m[backendId] else map[]
  }

  function Subscribe(s: State, p: PeerId, backendId: BackendId, topic: Topic): State
    requires p in s.peers
  {
    if !PeerReaches(s, p, backendId) then Send(s, p, Error(Offline))
    else
      var t := s.(subs := s.subs[backendId :=
                                 TopicsOf(s.subs, backendId)[topic := SubscribersOf(s, backendId, topic) + {p}]]);
      var u := Send(t, p, Subscribed(backendId, topic));
      if topic in TopicsOf(s.retained, backendId)
      then Send(u, p, TopicMessage(backendId, topic, Some(s.retained[backendId][topic]))) else u
  }

  function Unsubscribe(s: State, p: PeerId, backendId: BackendId, topic: Topic): State {
    var t := if backendId in s.subs && topic in s.subs[backendId]
             then s.(subs := s.subs[backendId := s.subs[backendId][topic := s.subs[backendId][topic] - {p}]]) else s;
    Send(t, p, Unsubscribed(backendId, topic))
  }

  /** A live peer holding the current lease of the backend it registered. */
  predicate IsOwner(s: State, p: PeerId) {
    && p in s.peers && s.peers[p].claim.Some?
    && s.peers[p].claim.value.backendId in s.leases
    && s.leases[s.peers[p].claim.value.backendId].holder == p
    && s.leases[s.peers[p].claim.value.backendId].epoch == s.peers[p].claim.value.epoch
  }

  function Retain(s: State, claim: Claim, topic: Topic, payload: Payload): State {
    var topics := TopicsOf(s.retained, claim.backendId);
    if |topics| >= MAX_RETAINED_TOPICS && topic !in topics
    then s.(retained := s.retained[claim.backendId := topics])
    else s.(retained := s.retained[claim.backendId := topics[topic := payload]],
            published := s.published[(claim.backendId, topic) := (claim.epoch, payload)])
  }

  function Deliveries(s: State, backendId: BackendId, topic: Topic, payload: Option<Payload>): set<Envelope> {
    set p | p in SubscribersOf(s, backendId, topic)
      && Open(s, p) :: Envelope(p, TopicMessage(backendId, topic, payload))
  }

  function Publish(s: State, p: PeerId, topic: Topic, payload: Option<Payload>, retain: bool): State {
    if !IsOwner(s, p) then s
    else
      var claim := s.peers[p].claim.value;
      var t := if retain && payload.Some? then Retain(s, claim, topic, payload.value) else s;
      t.(sent := t.sent + multiset(Deliveries(s, claim.backendId, topic, payload)))
  }

  function Forgotten(subs: map<BackendId, map<Topic, set<PeerId>>>, p: PeerId): map<BackendId, map<Topic,
    set<PeerId>>> {
    map b | b in subs :: map t | t in subs[b] :: subs[b][t] - {p}
  }

  // ---- Leases --------------------------------------------------------------

  /** Everything that lives and dies with a lease goes; the holder stays connected, without a claim. */
  function EndLease(s: State, backendId: BackendId, reason: Reason): State
    requires backendId in s.leases
  {
    var holder := s.leases[backendId].holder;
    var t := CloseChannels(s, ChannelsOf(s, backendId), reason);
    t.(leases := t.leases - {backendId},
       registry := t.registry - {backendId},
       subs := t.subs - {backendId},
       retained := t.retained - {backendId},
       peers := if holder in t.peers then t.peers[holder := t.peers[holder].(claim := None)] else t.peers)
  }

  function RemovePeer(s: State, p: PeerId): State {
    s.(peers := s.peers - {p})
  }

  function TouchBackend(s: State, backendId: BackendId, root: Option<CredentialId>, now: int): State {
    s.(store := TouchIdentity(s.store, backendId, root, now))
  }

  function ReplaceOwner(s: State, backendId: BackendId): State
    requires backendId in s.leases
  {
    CloseSocket(EndLease(s, backendId, EpochChanged), s.leases[backendId].holder, CLOSE_REPLACED)
  }

  function ExpireLease(s: State, backendId: BackendId, now: int): State
    requires backendId in s.leases
  {
    var told := Broadcast(EndLease(s, backendId, BackendOffline), None);
    RemovePeer(TouchBackend(told, backendId, None, now), s.leases[backendId].holder)
  }

  predicate LeaseStale(s: State, backendId: BackendId, now: int) {
    backendId in s.leases && now - s.leases[backendId].heartbeatAt > LEASE_TTL
  }

  function CheckLease(s: State, backendId: BackendId, now: int): State {
    if LeaseStale(s, backendId, now) then ExpireLease(s, backendId, now) else s
  }

  /** The end of the peer's lease, if it owns one. */
  function Abdicate(s: State, p: PeerId, now: int): State {
    if IsOwner(s, p) then
      var b := s.peers[p].claim.value.backendId;
      TouchBackend(Broadcast(EndLease(s, b, BackendOffline), Some(p)), b, None, now)
    else s
  }

  /** Everything else of a peer: the channels it is an end of, its subscriptions, the session itself. */
  function Depart(s: State, p: PeerId, claim: Option<Claim>): State {
    var u := CloseChannels(s, ChannelsAt(s, p), Closed);
    var v := u.(subs := Forgotten(u.subs, p));
    var w := if claim.Some? then v.(subs := v.subs - {claim.value.backendId},
                                    retained := v.retained - {claim.value.backendId}) else v;
    RemovePeer(w, p)
  }

  function Disconnect(s: State, p: PeerId, now: int): State {
    if p in s.peers then Depart(Abdicate(s, p, now), p, s.peers[p].claim) else s
  }

  function SocketClosed(s: State, p: PeerId, now: int): State {
    if p in s.peers then Disconnect(s.(peers := s.peers[p := s.peers[p].(open := false)]), p, now) else s
  }

  /** One peer's turn in the ping sweep: silent since the last sweep means gone. */
  function PingPeer(s: State, p: PeerId, now: int): State {
    if p !in s.peers then s
    else if !s.peers[p].alive then Disconnect(s, p, now)
    else s.(peers := s.peers[p := s.peers[p].(alive := false)])
  }

  function Pong(s: State, p: PeerId): State {
    if p in s.peers then s.(peers := s.peers[p := s.peers[p].(alive := true)]) else s
  }

  function Heartbeat(s: State, p: PeerId, epoch: nat, now: int): State {
    if !IsOwner(s, p) || s.peers[p].claim.value.epoch != epoch then s
    else
      var b := s.peers[p].claim.value.backendId;
      var t := s.(leases := s.leases[b := s.leases[b].(heartbeatAt := now)]);
      var u := if b in t.registry then t.(registry := t.registry[b := t.registry[b].(lastSeenAt := now)]) else t;
      Send(u, p, HeartbeatAck(epoch))
  }

  function RequestSnapshot(s: State, p: PeerId): State
    requires p in s.peers
  {
    Send(s, p, Snapshot(Visible(s.registry, s.peers[p].namespace, s.peers[p].scope)))
  }

  /** The directed fallback: an owner's message to one named peer that may reach it. */
  function Relay(s: State, p: PeerId, backendId: BackendId, target: Option<PeerId>, payload: Option<Payload>): State {
    if IsOwner(s, p) && s.peers[p].claim.value.backendId == backendId && target.Some? && target.value in s.peers
       && CanReach(s.peers[target.value].namespace, s.peers[target.value].scope, s.peers[p].namespace, backendId)
    then Send(s, target.value, Relayed(backendId, payload)) else s
  }

  // ---- Hello ---------------------------------------------------------------

  datatype Hello = Hello(token: Token, namespace: Namespace, backend: bool, version: int,
                         instanceId: Option<string>, environment: string)

  datatype HelloVerdict = Denied(error: ErrorCode) | Admitted(credential: CredentialId)

  /** The checks in the order the gateway makes them; `spent` is whether the failure bucket is. */
  ghost function JudgeHello(store: Store, h: Hello, spent: bool, now: int): HelloVerdict {
    var id := Resolve(store, h.token, now);
    if id.None? then Denied(if spent then RateLimited else Unauthorized)
    else
      var c := store.credentials[id.value];
      if c.namespace != h.namespace then Denied(Unauthorized)
      else if h.backend && c.kind == Device then Denied(Unauthorized)
      else if h.version != PROTOCOL_VERSION then Denied(ProtocolVersionMismatch)
      else if h.backend && c.backendId.None? && h.instanceId.None? then Denied(InvalidMessage)
      else Admitted(id.value)
  }

  function RegistrationKey(h: Hello): IdentityKey {
    Legacy(h.namespace, if h.instanceId.Some? then h.instanceId.value else "", h.environment)
  }

  /** The backend a hello registers as: the credential's own, or the legacy identity. */
  function RegisteredId(store: Store, c: Credential, h: Hello, draw: Draw): BackendId {
    if c.backendId.Some? then c.backendId.value else LegacyId(store, RegistrationKey(h), draw.backendId)
  }

  function RegisteredStore(store: Store, c: Credential, h: Hello, draw: Draw, now: int): Store {
    if c.backendId.Some? then store else GetOrCreateBackendId(store, RegistrationKey(h), draw.backendId, now)
  }

  /** The newest connection gets the lease, under a new epoch. */
  function GrantLease(s: State, p: PeerId, backendId: BackendId, namespace: Namespace, root: CredentialId,
                      now: int): State
  {
    var t := s.(store := AllocateEpoch(s.store));
    var u := if backendId in t.leases then ReplaceOwner(t, backendId) else t;
    var epoch := t.store.maxEpoch;
    u.(leases := u.leases[backendId := Lease(epoch, p, now)],
       store := TouchIdentity(u.store, backendId, Some(root), now),
       registry := u.registry[backendId := Presence(namespace, epoch, now, now)])
  }

  function AddPeer(s: State, p: PeerId, peer: Peer): State {
    Send(s.(peers := s.peers[p := peer], usedPeers := s.usedPeers + {p}),
         p, PeerReady(peer.claim, Visible(s.registry, peer.namespace, peer.scope)))
  }

  function Admit(s: State, h: Hello, id: CredentialId, p: PeerId, draw: Draw, now: int): State
    requires id in s.store.credentials
  {
    var c := s.store.credentials[id];
    var scope := if c.kind == Device then c.scope else None;
    if !h.backend then AddPeer(s, p, Peer(h.namespace, id, scope, None, true, true))
    else
      var b := RegisteredId(s.store, c, h, draw);
      var root := if c.parent.Some? then c.parent.value else id;
      var t := GrantLease(s.(store := RegisteredStore(s.store, c, h, draw, now)), p, b, h.namespace, root, now);
      Broadcast(AddPeer(t, p, Peer(h.namespace, id, scope, Some(Claim(b, t.leases[b].epoch)), true, true)), Some(p))
  }

  ghost function Greet(s: State, h: Hello, spent: bool, p: PeerId, draw: Draw, now: int): State {
    var t := s.(store := FindValid(s.store, h.token, now));
    match JudgeHello(s.store, h, spent, now)
    case Denied(_) => t
    case Admitted(id) => Admit(t, h, id, p, draw, now)
  }

  // ---- Admin routes --------------------------------------------------------

  predicate AdminOp(op: Op) {
    op.Issue? || op.Exchange? || op.Authenticate? || op.Bind? || op.Rescope? || op.Revoke? || op.Purge? || op.Forget?
  }

  /** The live peers a store operation disconnects: those on a rescoped or newly revoked credential. */
  ghost function Disconnected(before: Store, op: Op, after: Store): set<CredentialId> {
    if op.Rescope? && op.id in before.credentials && before.credentials[op.id].kind == Device
      && before.credentials[op.id].Active()
       && ScopeKnown(before, op.scope, before.credentials[op.id].namespace) then {op.id}
    else if op.Revoke? then set k | k in before.credentials && k in after.credentials
                                    && before.credentials[k].Active() && !after.credentials[k].Active()
    else {}
  }

  ghost function Administer(s: State, op: Op): State {
    var asked := if op.Forget? then op.(online := op.backendId in s.registry) else op;
    var after := Apply(s.store, asked);
    CloseCredentials(s.(store := after), Disconnected(s.store, op, after))
  }

  // ---- Steps and runs ------------------------------------------------------

  datatype Action =
    | DoHello(h: Hello, spent: bool, p: PeerId, draw: Draw, now: int)
    | DoHeartbeat(p: PeerId, epoch: nat, now: int)
    | DoSnapshot(p: PeerId)
    | DoRelay(p: PeerId, backendId: BackendId, target: Option<PeerId>, payload: Option<Payload>)
    | DoOpen(p: PeerId, backendId: BackendId, ids: ChannelDraw, now: int)
    | DoReject(p: PeerId, channel: ChannelId)
    | DoClose(p: PeerId, channel: ChannelId)
    | DoSubscribe(p: PeerId, backendId: BackendId, topic: Topic)
    | DoUnsubscribe(p: PeerId, backendId: BackendId, topic: Topic)
    | DoPublish(p: PeerId, topic: Topic, payload: Option<Payload>, retain: bool)
    | DoProxy(token: Token, backendId: BackendId, limited: bool, ids: ChannelDraw, now: int)
    | DoDial(ticket: TicketToken, channel: ChannelId, now: int)
    | DoAttach(dial: Dial, socket: Socket)
    | DoAbortDial(dial: Dial)
    | DoPairingTimeout(channel: ChannelId, now: int)
    | DoLegClosed(channel: ChannelId)
    | DoHttpGone(channel: ChannelId, reason: Reason)
    | DoTicketCleanup(now: int)
    | DoPing(p: PeerId, now: int)
    | DoPong(p: PeerId)
    | DoSocketClosed(p: PeerId, now: int)
    | DoCheckLease(backendId: BackendId, now: int)
    | DoPoll
    | DoAdmin(op: Op)

  predicate AboutOneChannel(a: Action) {
    || a.DoOpen? || a.DoReject? || a.DoClose? || a.DoProxy?
    || a.DoAttach? || a.DoPairingTimeout? || a.DoLegClosed? || a.DoHttpGone?
  }

  predicate AboutAnOwner(a: Action) {
    a.DoHello? || a.DoHeartbeat? || a.DoPublish? || a.DoRelay? || a.DoCheckLease? || a.DoAdmin?
  }

  /** Messages of peers that are gone are dropped by the router. */
  ghost function ChannelStep(s: State, a: Action): State
    requires AboutOneChannel(a)
  {
    match a
    case DoOpen(p, target, ids, now) => if p in s.peers then OpenChannel(s, p, target, ids, now) else s
    case DoReject(p, c) => if p in s.peers then RejectChannel(s, p, c) else s
    case DoClose(p, c) => if p in s.peers then CloseChannel(s, p, c) else s
    case DoProxy(token, target, limited, ids, now) => Proxy(s, token, target, limited, ids, now)
    case DoAttach(dial, socket) => Attach(s, dial, socket)
    case DoPairingTimeout(c, now) => if TimerDue(s, c, now) then PairingTimeout(s, c) else s
    case DoLegClosed(c) => LegClosed(s, c)
    case DoHttpGone(c, reason) => HttpGone(s, c, reason)
  }

  ghost function OwnerStep(s: State, a: Action): State
    requires AboutAnOwner(a)
  {
    match a
    case DoHello(h, spent, p, draw, now) => Greet(s, h, spent, p, draw, now)
    case DoHeartbeat(p, epoch, now) => Heartbeat(s, p, epoch, now)
    case DoRelay(p, backendId, target, payload) => Relay(s, p, backendId, target, payload)
    case DoPublish(p, topic, payload, retain) => Publish(s, p, topic, payload, retain)
    case DoCheckLease(backendId, now) => CheckLease(s, backendId, now)
    case DoAdmin(op) => if AdminOp(op) then Administer(s, op) else s
  }

  ghost function PeerStep(s: State, a: Action): State
    requires !AboutOneChannel(a) && !AboutAnOwner(a)
  {
    match a
    case DoSnapshot(p) => if p in s.peers then RequestSnapshot(s, p) else s
    case DoSubscribe(p, backendId, topic) => if p in s.peers then Subscribe(s, p, backendId, topic) else s
    case DoUnsubscribe(p, backendId, topic) => if p in s.peers then Unsubscribe(s, p, backendId, topic) else s
    case DoDial(ticket, c, now) => ConsumeTicket(s, ticket, c, now)
    case DoAbortDial(dial) => s.(dials := s.dials - {dial})
    case DoTicketCleanup(now) => DropStaleTickets(s, now)
    case DoPing(p, now) => PingPeer(s, p, now)
    case DoPong(p) => Pong(s, p)
    case DoSocketClosed(p, now) => SocketClosed(s, p, now)
    case DoPoll => Broadcast(s, None)
  }

  ghost function Step(s: State, a: Action): State {
    if AboutOneChannel(a) then ChannelStep(s, a) else if AboutAnOwner(a) then OwnerStep(s, a) else PeerStep(s, a)
  }

  predicate FreshChannel(s: State, d: ChannelDraw) {
    && d.channel !in s.channels && d.channel !in s.fates && (forall e: End :: Dial(d.channel, e) !in s.dials)
    && d.clientTicket !in s.usedTickets && d.backendTicket !in s.usedTickets && d.clientTicket != d.backendTicket
  }

  /** The random values a step draws were not drawn before. */
  predicate Fresh(s: State, a: Action) {
    && (a.DoHello? ==> a.p !in s.usedPeers && FreshDraw(s.store, a.draw))
    && (a.DoOpen? || a.DoProxy? ==> FreshChannel(s, a.ids))
    && (a.DoAdmin? ==> DrawsFresh(s.store, a.op))
  }

  ghost predicate GatewayRun(s: State, actions: seq<Action>)
    decreases |actions|
  {
    actions == [] || (Fresh(s, actions[0]) && GatewayRun(Step(s, actions[0]), actions[1..]))
  }

  ghost function Reached(s: State, actions: seq<Action>): State
    decreases |actions|
  {
    if actions == [] then s else Reached(Step(s, actions[0]), actions[1..])
  }
}
