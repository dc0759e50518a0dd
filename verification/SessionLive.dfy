/**
 Whether the client ends of channels, and the subscribers of topics, are live peers: a property the gateway keeps at
 every step but one.
 */
module SessionLive {
  import opened Basics
  import opened CredentialStore
  import opened StoreProofs
  import opened Session
  import opened SessionProofs
  import opened SessionSteps
  import opened SessionHistory
  import opened SessionFrames
  import opened SessionTheorems
  import opened SessionHands

  ghost predicate ClientsLive(s: State) {
    forall c :: c in s.channels && s.channels[c].client.Some? ==> s.channels[c].client.value in s.peers
  }

  type Subs = map<BackendId, map<Topic, set<PeerId>>>

  predicate In(subs: Subs, b: BackendId, topic: Topic, p: PeerId) {
    b in subs && topic in subs[b] && p in subs[b][topic]
  }

  ghost predicate SubscribersLive(s: State) {
    forall b, topic, p :: In(s.subs, b, topic, p) ==> p in s.peers
  }

  /** The step expires the lease of a backend whose holder is the client of another backend's channel. */
  ghost predicate StrandsClients(s: State, a: Action) {
    && a.DoCheckLease? && LeaseStale(s, a.backendId, a.now)
    && exists c :: c in s.channels && s.channels[c].client == Some(s.leases[a.backendId].holder)
                   && s.channels[c].backendId != a.backendId
  }

  /** The step expires the lease of a backend whose holder is subscribed to another backend's topic. */
  ghost predicate StrandsSubscribers(s: State, a: Action) {
    && a.DoCheckLease? && LeaseStale(s, a.backendId, a.now)
    && exists b, topic :: b != a.backendId && In(s.subs, b, topic, s.leases[a.backendId].holder)
  }

  // ---- Steps that add ------------------------------------------------------

  /** The new channel's client, if it has one, is live. */
  ghost predicate AddsLive(s: State, t: State) {
    && t.peers.Keys == s.peers.Keys && t.subs == s.subs
    && forall c :: c in t.channels ==> (c in s.channels && t.channels[c] == s.channels[c])
                                       || (t.channels[c].client.Some? ==> t.channels[c].client.value in t.peers)
  }

  lemma OpeningAddsLive(s: State, p: PeerId, target: BackendId, draw: ChannelDraw, now: int)
    requires p in s.peers
    ensures AddsLive(s, OpenChannel(s, p, target, draw, now))
  {
    hide ChannelVerdict, Send, AddsLive, AddChannel;
    match ChannelVerdict(s, p, target)
    case Refuse(code) => SendingAddsLive(s, s, p, Error(code));
    case Grant(epoch, holder) =>
      var t := AddChannel(s, target, Some(p), holder, epoch, draw, now);
      var offer := ChannelOffer(draw.channel, draw.backendTicket, Some(p));
      AddingAddsLive(s, target, Some(p), holder, epoch, draw, now);
      SendingAddsLive(s, t, holder, offer);
      SendingAddsLive(s, Send(t, holder, offer), p, ChannelReady(draw.channel, draw.clientTicket));
  }

  lemma AddingAddsLive(s: State, target: BackendId, client: Option<PeerId>, holder: PeerId, epoch: nat,
                       draw: ChannelDraw, now: int)
    requires client.Some? ==> client.value in s.peers
    ensures AddsLive(s, AddChannel(s, target, client, holder, epoch, draw, now))
  {
  }

  lemma SendingAddsLive(s: State, t: State, p: PeerId, msg: Message)
    requires s == t || AddsLive(s, t)
    ensures AddsLive(s, Send(t, p, msg))
  {
  }

  lemma ProxyAddsLive(s: State, token: Token, target: BackendId, limited: bool, draw: ChannelDraw, now: int)
    ensures AddsLive(s, Proxy(s, token, target, limited, draw, now))
  {
    hide ProxyStatus, Send, AddChannel, FindValid;
    var t := s.(store := FindValid(s.store, token, now));
    if ProxyStatus(s, token, target, limited, now) == 0 {
      StatusMeansLeased(s, token, target, limited, now);
      var lease := s.leases[target];
      var u := AddChannel(t, target, None, lease.holder, lease.epoch, draw, now);
      AddingAddsLive(t, target, None, lease.holder, lease.epoch, draw, now);
      SendingAddsLive(t, u, lease.holder, ChannelOffer(draw.channel, draw.backendTicket, None));
    }
  }

  lemma OneMoreSubscriber(subs: Subs, b: BackendId, topic: Topic, had: set<PeerId>, p: PeerId)
    requires forall q :: q in had ==> In(subs, b, topic, q)
    ensures forall x, k, q :: In(subs[b := TopicsOf(subs, b)[topic := had + {p}]], x, k, q) ==>
              In(subs, x, k, q) || q == p
  {
  }

  lemma SendingKeepsSubs(s: State, p: PeerId, msg: Message)
    ensures var t := Send(s, p, msg);
      && t.peers == s.peers && t.channels == s.channels && t.subs == s.subs && t.leases == s.leases
      && t.registry == s.registry
  {
  }

  lemma SubscribingKeepsLive(s: State, p: PeerId, b: BackendId, topic: Topic)
    requires p in s.peers
    ensures var t := Subscribe(s, p, b, topic);
      && t.peers == s.peers && t.channels == s.channels
      && forall x, k, q :: In(t.subs, x, k, q) ==> In(s.subs, x, k, q) || q == p
  {
    hide PeerReaches, Send, In;
    SendingKeepsSubs(s, p, Error(Offline));
    var had := SubscribersOf(s, b, topic);
    var t := s.(subs := s.subs[b := TopicsOf(s.subs, b)[topic := had + {p}]]);
    assert forall q :: q in had ==> In(s.subs, b, topic, q) by { SubscribersAreIn(s, b, topic); }
    OneMoreSubscriber(s.subs, b, topic, had, p);
    var told := Session.Subscribed(b, topic);
    SendingKeepsSubs(t, p, told);
    if topic in TopicsOf(s.retained, b) {
      SendingKeepsSubs(Send(t, p, told), p, TopicMessage(b, topic, Some(s.retained[b][topic])));
    }
  }

  lemma SubscribersAreIn(s: State, b: BackendId, topic: Topic)
    ensures forall q :: q in SubscribersOf(s, b, topic) ==> In(s.subs, b, topic, q)
  {
  }

  // ---- Steps that remove a peer --------------------------------------------

  lemma DepartureKeepsLive(s: State, p: PeerId, claim: Option<Claim>)
    ensures ClientsLive(s) ==> ClientsLive(Depart(s, p, claim))
    ensures SubscribersLive(s) ==> SubscribersLive(Depart(s, p, claim))
  {
    hide Notices, TicketsOf;
    var t := Depart(s, p, claim);
    assert t.channels == s.channels - ChannelsAt(s, p);
    assert t.peers == s.peers - {p};
    hide ClientsLive;
    assert forall b, k, q :: In(t.subs, b, k, q) ==> In(s.subs, b, k, q) && q != p;
  }

  lemma TameKeepsLive(s: State, t: State)
    requires Tame(s, t)
    ensures ClientsLive(s) ==> ClientsLive(t)
    ensures SubscribersLive(s) ==> SubscribersLive(t)
  {
    assert forall b, k, q :: In(t.subs, b, k, q) ==> In(s.subs, b, k, q);
  }

  lemma DisconnectKeepsLive(s: State, p: PeerId, now: int)
    ensures ClientsLive(s) ==> ClientsLive(Disconnect(s, p, now))
    ensures SubscribersLive(s) ==> SubscribersLive(Disconnect(s, p, now))
  {
    hide Abdicate, Depart, ClientsLive, SubscribersLive, Calm, Remembers, Tame;
    if p in s.peers {
      AbdicationIsGentle(s, p, now);
      TameKeepsLive(s, Abdicate(s, p, now));
      DepartureKeepsLive(Abdicate(s, p, now), p, s.peers[p].claim);
    }
  }

  lemma LivenessKeepsLive(s: State, p: PeerId, now: int)
    ensures ClientsLive(s) ==> ClientsLive(SocketClosed(s, p, now)) && ClientsLive(PingPeer(s, p, now))
    ensures SubscribersLive(s) ==> SubscribersLive(SocketClosed(s, p, now)) && SubscribersLive(PingPeer(s, p, now))
  {
    hide Disconnect, ClientsLive, SubscribersLive, Calm, Remembers, Tame;
    DisconnectKeepsLive(s, p, now);
    if p in s.peers {
      var peer := s.peers[p];
      FlagIsGentle(s, p, peer.alive, false);
      FlagIsGentle(s, p, false, peer.open);
      TameKeepsLive(s, s.(peers := s.peers[p := peer.(open := false)]));
      TameKeepsLive(s, s.(peers := s.peers[p := peer.(alive := false)]));
      DisconnectKeepsLive(s.(peers := s.peers[p := peer.(open := false)]), p, now);
    }
  }

  /** What expiry makes of peers, channels and subscriptions. */
  lemma ExpiryIs(s: State, b: BackendId, now: int)
    requires b in s.leases
    ensures var t := ExpireLease(s, b, now);
      && t.peers.Keys == s.peers.Keys - {s.leases[b].holder} && t.subs == s.subs - {b}
      && t.channels == s.channels - ChannelsOf(s, b)
  {
    hide Notices, TicketsOf, Snapshots, ChannelsOf;
  }

  lemma ExpiryStrands(s: State, b: BackendId, now: int)
    requires LeaseStale(s, b, now)
    ensures var t, holder := CheckLease(s, b, now), s.leases[b].holder;
      && (ClientsLive(s) ==>
            (ClientsLive(t) <==>
             !exists c :: c in s.channels && s.channels[c].client == Some(holder) && s.channels[c].backendId != b))
      && (SubscribersLive(s) ==>
            (SubscribersLive(t) <==> !exists x, k :: x != b && In(s.subs, x, k, holder)))
  {
    hide ExpireLease;
    var t, holder := CheckLease(s, b, now), s.leases[b].holder;
    ExpiryIs(s, b, now);
    assert forall c :: c in t.channels <==> c in s.channels && s.channels[c].backendId != b;
    assert forall x, k, q :: In(t.subs, x, k, q) <==> x != b && In(s.subs, x, k, q);
  }

  // ---- Exactly when --------------------------------------------------------

  /**
   "Every client end is a live peer" is kept by every step, except that an expiring lease strands the channels in
   which its holder is the client of another backend.
   */
  lemma ClientsStayLiveExactlyUnlessStranded(s: State, a: Action)
    requires Fresh(s, a) && ClientsLive(s)
    ensures ClientsLive(Step(s, a)) <==> !StrandsClients(s, a)
  {
    StepKeepsLive(s, a);
  }

  /** The same of subscriptions. */
  lemma SubscribersStayLiveExactlyUnlessStranded(s: State, a: Action)
    requires Fresh(s, a) && SubscribersLive(s)
    ensures SubscribersLive(Step(s, a)) <==> !StrandsSubscribers(s, a)
  {
    StepKeepsLive(s, a);
  }

  lemma AddedKeepLive(s: State, t: State)
    requires AddsLive(s, t)
    ensures ClientsLive(s) ==> ClientsLive(t)
    ensures SubscribersLive(s) ==> SubscribersLive(t)
  {
    assert forall b, k, q :: In(t.subs, b, k, q) ==> In(s.subs, b, k, q);
  }

  lemma StepKeepsLive(s: State, a: Action)
    requires Fresh(s, a)
    ensures ClientsLive(s) ==> (ClientsLive(Step(s, a)) <==> !StrandsClients(s, a))
    ensures SubscribersLive(s) ==> (SubscribersLive(Step(s, a)) <==> !StrandsSubscribers(s, a))
  {
    hide ClientsLive, SubscribersLive, Tame, AddsLive, OpenChannel, Proxy, Subscribe, SocketClosed, PingPeer,
         CheckLease;
    if !Untame(a) {
      hide Step;
      StepIsTame(s, a);
      TameKeepsLive(s, Step(s, a));
    } else {
      match a {
        case DoOpen(p, target, ids, now) =>
          if p in s.peers {
            OpeningAddsLive(s, p, target, ids, now);
            AddedKeepLive(s, OpenChannel(s, p, target, ids, now));
          }
        case DoProxy(token, target, limited, ids, now) =>
          ProxyAddsLive(s, token, target, limited, ids, now);
          AddedKeepLive(s, Proxy(s, token, target, limited, ids, now));
        case DoSubscribe(p, b, topic) => if p in s.peers { SubscribedKeepLive(s, p, b, topic); }
        case DoPing(p, now) => LivenessKeepsLive(s, p, now);
        case DoSocketClosed(p, now) => LivenessKeepsLive(s, p, now);
        case DoCheckLease(b, now) => if LeaseStale(s, b, now) { ExpiryStrands(s, b, now); }
          else { FreshLeaseStays(s, b, now); }
      }
    }
  }

  lemma FreshLeaseStays(s: State, b: BackendId, now: int)
    requires !LeaseStale(s, b, now)
    ensures CheckLease(s, b, now) == s
  {
  }

  lemma SubscribedKeepLive(s: State, p: PeerId, b: BackendId, topic: Topic)
    requires p in s.peers
    ensures ClientsLive(s) ==> ClientsLive(Subscribe(s, p, b, topic))
    ensures SubscribersLive(s) ==> SubscribersLive(Subscribe(s, p, b, topic))
  {
    hide Subscribe;
    SubscribingKeepsLive(s, p, b, topic);
  }

  // ---- A run that strands both ---------------------------------------------

  lemma UnusedName(used: set<BackendId>) returns (name: BackendId)
    ensures name !in used
  {
    var n := UnusedNumber(set b | b in used :: |b|);
    name := seq(n, _ => 'x');
    assert name in used ==> |name| in (set b | b in used :: |b|);
  }

  lemma UnusedDraw(store: Store) returns (d: Draw)
    ensures FreshDraw(store, d)
  {
    var id := UnusedNumber(store.draws.ids);
    var token := UnusedNumber(store.draws.tokens);
    var name := UnusedName(store.draws.backends);
    d := Draw(id, token, name);
  }

  lemma UnusedChannel(s: State) returns (d: ChannelDraw)
    ensures FreshChannel(s, d)
  {
    var dialled := set x | x in s.dials :: x.channel;
    var c := UnusedNumber(s.channels.Keys + s.fates.Keys + dialled);
    var first := UnusedNumber(s.usedTickets);
    var second := UnusedNumber(s.usedTickets + {first});
    d := ChannelDraw(c, first, second);
    assert forall e: End :: Dial(c, e) in s.dials ==> Dial(c, e).channel in dialled;
  }

  /** An enrollment credential that may register, unexpired for ever. */
  predicate Enrolled(store: Store, id: CredentialId, token: Token, namespace: Namespace, b: BackendId) {
    && id in store.credentials && store.credentials[id].kind == Enrollment && store.credentials[id].token == token
    && store.credentials[id].namespace == namespace && store.credentials[id].backendId == Some(b)
    && store.credentials[id].revokedAt.None? && store.credentials[id].expiresAt.None?
    && store.credentials[id].parent.None?
  }

  function HelloOf(token: Token, namespace: Namespace): Hello {
    Hello(token, namespace, true, PROTOCOL_VERSION, None, "")
  }

  lemma EnrolledIsAdmitted(store: Store, id: CredentialId, token: Token, namespace: Namespace, b: BackendId, now: int)
    requires TokensUnique(store) && Enrolled(store, id, token, namespace, b)
    ensures JudgeHello(store, HelloOf(token, namespace), false, now) == Admitted(id)
    ensures forall k, x, n, c :: Enrolled(store, k, x, n, c) ==> Enrolled(FindValid(store, token, now), k, x, n, c)
  {
    assert Holds(store, id, token);
  }

  /** What the hello of an enrolled backend makes of a state. */
  lemma EnrolledRegisters(s: State, id: CredentialId, token: Token, namespace: Namespace, b: BackendId, p: PeerId,
                          draw: Draw, now: int)
    requires TokensUnique(s.store) && Enrolled(s.store, id, token, namespace, b)
    ensures var t := Greet(s, HelloOf(token, namespace), false, p, draw, now);
      && b in t.leases && t.leases == s.leases[b := Lease(t.leases[b].epoch, p, now)]
      && p in t.peers && t.peers[p].namespace == namespace && t.peers[p].scope == None
      && forall k, x, n, c :: Enrolled(s.store, k, x, n, c) ==> Enrolled(t.store, k, x, n, c)
  {
    var h := HelloOf(token, namespace);
    EnrolledIsAdmitted(s.store, id, token, namespace, b, now);
    var seen := s.(store := FindValid(s.store, token, now));
    hide Admit, FindValid, JudgeHello;
    BackendMoves(seen, h, id, p, draw, now, p);
    AdmissionIs(seen, h, id, p, draw, now);
  }

  lemma AdmissionIs(s: State, h: Hello, id: CredentialId, p: PeerId, draw: Draw, now: int)
    requires id in s.store.credentials && h.backend && s.store.credentials[id].backendId.Some?
    requires s.store.credentials[id].kind != Device
    ensures var t := Admit(s, h, id, p, draw, now);
      && t.store.credentials == s.store.credentials
      && p in t.peers && t.peers[p].namespace == h.namespace && t.peers[p].scope == None
  {
    hide GrantLease, Broadcast, Visible, Admit;
    AdmitIs(s, h, id, p, draw, now);
    var c := s.store.credentials[id];
    var root := if c.parent.Some? then c.parent.value else id;
    var b := RegisteredId(s.store, c, h, draw);
    GrantKeepsRows(s, p, b, h.namespace, root, now);
    var t := GrantLease(s, p, b, h.namespace, root, now);
    assert s.(store := RegisteredStore(s.store, c, h, draw, now)) == s;
    JoinedIs(t, p, Peer(h.namespace, id, None, Some(Claim(b, t.leases[b].epoch)), true, true));
  }

  lemma JoinedIs(s: State, p: PeerId, peer: Peer)
    ensures var t := Broadcast(AddPeer(s, p, peer), Some(p));
      t.store == s.store && t.peers == s.peers[p := peer]
  {
    hide Visible, Snapshots;
  }

  lemma GrantKeepsRows(s: State, p: PeerId, b: BackendId, namespace: Namespace, root: CredentialId, now: int)
    ensures GrantLease(s, p, b, namespace, root, now).store.credentials == s.store.credentials
  {
    hide EndLease;
    var t := s.(store := AllocateEpoch(s.store));
    if b in t.leases { EndingKeepsStore(t, b, EpochChanged); }
  }

  lemma EndingKeepsStore(s: State, b: BackendId, reason: Reason)
    requires b in s.leases
    ensures EndLease(s, b, reason).store == s.store
  {
    hide Notices, TicketsOf, ChannelsOf;
  }

  function TwoBackends(): seq<Op> {
    [Issue(Enrollment, "n", Never, None, None, Draw(1, 1, "a"), 0),
     Issue(Enrollment, "n", Never, None, None, Draw(2, 2, "b"), 0)]
  }

  lemma TwoAreEnrolled()
    ensures var store := After(EMPTY, TwoBackends());
      Inv(store) && Enrolled(store, 1, 1, "n", "a") && Enrolled(store, 2, 2, "n", "b")
  {
    var ops := TwoBackends();
    EmptyStoreInv();
    hide Inv;
    var first, last := Apply(EMPTY, ops[0]), Apply(Apply(EMPTY, ops[0]), ops[1]);
    assert ops[1..] == [ops[1]] && ops[1..][1..] == [];
    assert After(EMPTY, ops) == last;
    assert CredentialStore.Run(EMPTY, ops);
    RunKeepsInv(EMPTY, ops);
  }

  /** Both backends are registered, and the first one's peer can reach the second. */
  ghost predicate BothUp(s: State, p: PeerId, q: PeerId) {
    && Sound(s) && ClientsLive(s) && s.channels == map[] && s.config.maxChannels > 0
    && "a" in s.leases && s.leases["a"].holder == p && s.leases["a"].heartbeatAt == 0
    && "b" in s.leases && s.leases["b"].holder == q
    && p in s.peers && PeerReaches(s, p, "b")
  }

  /** The first backend alone. */
  ghost predicate OneUp(s: State, p: PeerId) {
    && Sound(s) && ClientsLive(s) && s.channels == map[] && s.config.maxChannels > 0
    && "a" in s.leases && s.leases["a"].holder == p && s.leases["a"].heartbeatAt == 0
    && p in s.peers && s.peers[p].namespace == "n" && s.peers[p].scope == None
    && Enrolled(s.store, 2, 2, "n", "b")
  }

  lemma SoundBasics(s: State)
    requires Sound(s)
    ensures TokensUnique(s.store) && s.peers.Keys <= s.usedPeers
  {
    assert Coherent(s);
    hide Sound;
  }

  lemma HelloFrames(s: State, a: Action)
    requires Sound(s) && ClientsLive(s) && Fresh(s, a) && a.DoHello? && s.channels == map[]
    ensures var t := Step(s, a);
      && Sound(t) && ClientsLive(t) && t.channels == map[] && t.config == s.config
      && (forall p :: p in s.peers ==> p in t.peers && t.peers[p].namespace == s.peers[p].namespace
                                       && t.peers[p].scope == s.peers[p].scope)
  {
    hide Step, Sound, Fresh;
    var t := Step(s, a);
    StepKeepsSound(s, a);
    StepIsTame(s, a);
    StepRemembers(s, a);
    StepEvolves(s, a);
    SoundBasics(s);
    TameKeepsLive(s, t);
  }

  lemma FirstUp(s: State) returns (a: Action)
    requires Sound(s) && ClientsLive(s) && s.channels == map[] && s.config.maxChannels > 0
    requires Enrolled(s.store, 1, 1, "n", "a") && Enrolled(s.store, 2, 2, "n", "b")
    ensures a.DoHello? && Fresh(s, a) && OneUp(Step(s, a), a.p)
  {
    hide Sound, Enrolled, ClientsLive, Step, FreshDraw, Greet;
    var p := UnusedNumber(s.usedPeers);
    var draw := UnusedDraw(s.store);
    a := DoHello(HelloOf(1, "n"), false, p, draw, 0);
    SoundBasics(s);
    HelloFrames(s, a);
    HelloStep(s, a);
    EnrolledRegisters(s, 1, 1, "n", "a", p, draw, 0);
  }

  lemma SecondUp(s: State, p: PeerId) returns (a: Action)
    requires OneUp(s, p)
    ensures a.DoHello? && Fresh(s, a) && BothUp(Step(s, a), p, a.p)
  {
    hide Sound, Enrolled, ClientsLive, Step, FreshDraw, Greet;
    var q := UnusedNumber(s.usedPeers);
    var draw := UnusedDraw(s.store);
    a := DoHello(HelloOf(2, "n"), false, q, draw, 0);
    SoundBasics(s);
    HelloFrames(s, a);
    HelloStep(s, a);
    EnrolledRegisters(s, 2, 2, "n", "b", q, draw, 0);
    HolderIsRegistered(Step(s, a), "b");
  }

  lemma HolderIsRegistered(s: State, b: BackendId)
    requires Sound(s) && b in s.leases
    ensures b in s.registry && s.leases[b].holder in s.peers
    ensures s.registry[b].namespace == s.peers[s.leases[b].holder].namespace
  {
    assert Held(s, b);
    hide Sound;
  }

  ghost predicate HasClient(s: State, p: PeerId, b: BackendId) {
    exists c :: c in s.channels && s.channels[c].client == Some(p) && s.channels[c].backendId == b
  }

  /** The first backend's peer opens a channel to the second backend and subscribes to one of its topics. */
  lemma Involved(s: State, p: PeerId, q: PeerId) returns (open: Action, t: State, subscribe: Action)
    requires BothUp(s, p, q)
    ensures Fresh(s, open) && t == Step(s, open) && Fresh(t, subscribe)
    ensures var u := Step(t, subscribe);
      && "a" in u.leases && LeaseStale(u, "a", LEASE_TTL + 1) && u.leases["a"].holder == p
      && In(u.subs, "b", "t", p)
      && HasClient(u, p, "b")
  {
    hide Sound, ClientsLive, FreshChannel;
    var ids := UnusedChannel(s);
    open, subscribe := DoOpen(p, "b", ids, 0), DoSubscribe(p, "b", "t");
    t := Step(s, open);
    HolderIsRegistered(s, "b");
    OpenGranted(s, p, "b", ids, 0);
    hide OpenChannel, Subscribe;
    SubscribeGranted(t, p, "b", "t");
    assert ids.channel in Step(t, subscribe).channels;
  }

  lemma OpenGranted(s: State, p: PeerId, target: BackendId, draw: ChannelDraw, now: int)
    requires p in s.peers && s.channels == map[] && s.config.maxChannels > 0
    requires target in s.leases && target in s.registry && s.leases[target].holder in s.peers
    requires PeerReaches(s, p, target)
    ensures var t := OpenChannel(s, p, target, draw, now);
      && t.leases == s.leases && t.registry == s.registry && t.peers == s.peers
      && draw.channel in t.channels && t.channels[draw.channel].client == Some(p)
      && t.channels[draw.channel].backendId == target
  {
    hide PeerReaches, Send, AddChannel, ChannelsAt;
    NoChannelsAt(s, p);
    var epoch, holder := s.leases[target].epoch, s.leases[target].holder;
    var t := AddChannel(s, target, Some(p), holder, epoch, draw, now);
    AddedIs(s, target, Some(p), holder, epoch, draw, now);
    var offer := ChannelOffer(draw.channel, draw.backendTicket, Some(p));
    SendingKeepsSubs(t, holder, offer);
    SendingKeepsSubs(Send(t, holder, offer), p, ChannelReady(draw.channel, draw.clientTicket));
  }

  lemma NoChannelsAt(s: State, p: PeerId)
    requires s.channels == map[]
    ensures |ChannelsAt(s, p)| == 0
  {
  }

  lemma AddedIs(s: State, target: BackendId, client: Option<PeerId>, holder: PeerId, epoch: nat, draw: ChannelDraw,
                now: int)
    ensures var t := AddChannel(s, target, client, holder, epoch, draw, now);
      && t.leases == s.leases && t.registry == s.registry && t.peers == s.peers
      && draw.channel in t.channels && t.channels[draw.channel].client == client
      && t.channels[draw.channel].backendId == target
  {
  }

  lemma SubscribeGranted(s: State, p: PeerId, b: BackendId, topic: Topic)
    requires p in s.peers && PeerReaches(s, p, b)
    ensures var t := Subscribe(s, p, b, topic);
      t.leases == s.leases && t.channels == s.channels && In(t.subs, b, topic, p)
  {
    hide PeerReaches, Send, SubscribersOf;
    var t := s.(subs := s.subs[b := TopicsOf(s.subs, b)[topic := SubscribersOf(s, b, topic) + {p}]]);
    var told := Session.Subscribed(b, topic);
    SendingKeepsSubs(t, p, told);
    if topic in TopicsOf(s.retained, b) {
      SendingKeepsSubs(Send(t, p, told), p, TopicMessage(b, topic, Some(s.retained[b][topic])));
    }
  }

  lemma GoesOn(s: State, a: Action, t: State, rest: seq<Action>)
    requires Fresh(s, a) && t == Step(s, a) && GatewayRun(t, rest)
    ensures GatewayRun(s, [a] + rest) && Session.Reached(s, [a] + rest) == Session.Reached(t, rest)
  {
    hide Step, Fresh;
    assert ([a] + rest)[1..] == rest;
  }

  /** From an empty gateway over a store with two enrollments, five steps strand a client end and a subscriber. */
  lemma StrandingIsReachable() returns (config: Config, store: Store, actions: seq<Action>)
    ensures Inv(store) && GatewayRun(Initial(config, store), actions)
    ensures var t := Session.Reached(Initial(config, store), actions); !ClientsLive(t) && !SubscribersLive(t)
  {
    hide *;
    config, store := Config(1, 30_000), After(EMPTY, TwoBackends());
    Started(config, store);
    var s0 := Initial(config, store);
    var a1 := FirstUp(s0);
    var s1 := Step(s0, a1);
    var a2 := SecondUp(s1, a1.p);
    var s2 := Step(s1, a2);
    var a3, s3, a4 := Involved(s2, a1.p, a2.p);
    var s4 := Step(s3, a4);
    var a5 := DoCheckLease("a", LEASE_TTL + 1);
    StrandedNow(s4, a1.p, a5);
    Stops(Step(s4, a5));
    GoesOn(s4, a5, Step(s4, a5), []);
    assert [a5] + [] == [a5];
    GoesOn(s3, a4, s4, [a5]);
    GoesOn(s2, a3, s3, [a4] + [a5]);
    GoesOn(s1, a2, s2, [a3] + ([a4] + [a5]));
    GoesOn(s0, a1, s1, [a2] + ([a3] + ([a4] + [a5])));
    actions := [a1] + ([a2] + ([a3] + ([a4] + [a5])));
  }

  lemma Started(config: Config, store: Store)
    requires store == After(EMPTY, TwoBackends()) && config.maxChannels > 0
    ensures Inv(store) && Enrolled(store, 1, 1, "n", "a") && Enrolled(store, 2, 2, "n", "b")
    ensures var s := Initial(config, store);
      && Sound(s) && ClientsLive(s) && s.channels == map[] && s.config.maxChannels > 0 && s.store == store
  {
    hide Sound, Inv, Enrolled, After, TwoBackends;
    TwoAreEnrolled();
    InitiallySound(config, store);
  }

  lemma Stops(s: State)
    ensures GatewayRun(s, []) && Session.Reached(s, []) == s
  {
  }

  lemma StrandedNow(s: State, p: PeerId, a: Action)
    requires a == DoCheckLease("a", LEASE_TTL + 1) && "a" in s.leases && LeaseStale(s, "a", a.now)
             && s.leases["a"].holder == p
    requires In(s.subs, "b", "t", p)
    requires HasClient(s, p, "b")
    ensures Fresh(s, a) && !ClientsLive(Step(s, a)) && !SubscribersLive(Step(s, a))
  {
    hide ExpireLease;
    var t := CheckLease(s, "a", a.now);
    ExpiryIs(s, "a", a.now);
    var c :| c in s.channels && s.channels[c].client == Some(p) && s.channels[c].backendId == "b";
    assert c in t.channels && p !in t.peers;
    assert In(t.subs, "b", "t", p);
  }
}
