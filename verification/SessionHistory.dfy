/** Two-state facts: how the gateway's state may change from any moment of a run to any later one. */
module SessionHistory {
  import opened Basics
  import opened CredentialStore
  import opened StoreProofs
  import opened Session
  import opened SessionProofs
  import opened SessionSteps

  /** A channel keeps its identity and its deadline; a leg that has its socket keeps it, and wired stays wired. */
  predicate Grown(a: Channel, b: Channel) {
    && b.backendId == a.backendId && b.epoch == a.epoch && b.client == a.client && b.backend == a.backend
       && b.due == a.due
    && (a.clientLeg.Some? ==> b.clientLeg == a.clientLeg)
    && (a.backendLeg.Some? ==> b.backendLeg == a.backendLeg)
    && (a.wired ==> b.wired)
  }

  predicate SameTenure(a: Lease, b: Lease) { a.epoch == b.epoch && a.holder == b.holder }

  predicate LeaseEvolves(s: State, t: State, b: BackendId)
    requires b in t.leases
  {
    (b in s.leases && SameTenure(s.leases[b], t.leases[b])) || t.leases[b].epoch > s.store.maxEpoch
  }

  predicate ChannelEvolves(s: State, t: State, c: ChannelId)
    requires c in s.channels
  {
    (c in t.channels && Grown(s.channels[c], t.channels[c]))
      || (c in t.fates && Grown(s.channels[c], t.fates[c].channel))
  }

  /**
   The configuration is fixed, epochs only grow, and a lease is either the one that was there or has an epoch never
   seen before.
   Channels only fill up until they end; what has ended stays ended, for the same reason.
   */
  ghost predicate Evolves(s: State, t: State) {
    && s.store.maxEpoch <= t.store.maxEpoch && t.config == s.config
    && s.notices <= t.notices
    && (forall b :: b in t.leases ==> LeaseEvolves(s, t, b))
    && (forall c :: c in s.fates ==> c in t.fates && t.fates[c] == s.fates[c])
    && (forall c :: c in s.channels ==> ChannelEvolves(s, t, c))
  }

  lemma EvolvesTrans(s: State, t: State, u: State)
    requires Evolves(s, t) && Evolves(t, u)
    ensures Evolves(s, u)
  {
    forall b | b in u.leases ensures LeaseEvolves(s, u, b) {
      assert LeaseEvolves(t, u, b);
      assert b in t.leases ==> LeaseEvolves(s, t, b);
    }
    forall c | c in s.channels ensures ChannelEvolves(s, u, c) {
      assert ChannelEvolves(s, t, c);
      assert c in t.channels ==> ChannelEvolves(t, u, c);
    }
  }

  /** No channel, fate or notice is touched, and no lease changes hands. */
  lemma QuietEvolves(s: State, t: State)
    requires s.store.maxEpoch <= t.store.maxEpoch && t.config == s.config
    requires t.channels == s.channels && t.fates == s.fates && t.notices == s.notices
    requires forall b :: b in t.leases ==> b in s.leases && SameTenure(s.leases[b], t.leases[b])
    ensures Evolves(s, t)
  {
    assert forall c :: c in s.channels ==> Grown(s.channels[c], t.channels[c]);
  }

  lemma CloseChannelsEvolves(s: State, dead: set<ChannelId>, reason: Reason)
    requires s.channels.Keys !! s.fates.Keys
    ensures Evolves(s, CloseChannels(s, dead, reason))
    ensures CloseChannels(s, dead, reason).store == s.store && CloseChannels(s, dead, reason).leases == s.leases
  {
    hide Notices;
    var t := CloseChannels(s, dead, reason);
    forall c | c in s.channels ensures ChannelEvolves(s, t, c) {
      assert Grown(s.channels[c], s.channels[c]);
    }
  }

  lemma EndLeaseEvolves(s: State, backendId: BackendId, reason: Reason)
    requires backendId in s.leases && s.channels.Keys !! s.fates.Keys
    ensures Evolves(s, EndLease(s, backendId, reason))
    ensures EndLease(s, backendId, reason).store == s.store
  {
    hide Evolves, CloseChannels, ChannelsOf;
    var mid := CloseChannels(s, ChannelsOf(s, backendId), reason);
    CloseChannelsEvolves(s, ChannelsOf(s, backendId), reason);
    QuietEvolves(mid, EndLease(s, backendId, reason));
    EvolvesTrans(s, mid, EndLease(s, backendId, reason));
  }

  lemma BroadcastEvolves(s: State, except: Option<PeerId>)
    ensures Evolves(s, Broadcast(s, except))
  {
    hide Evolves, Snapshots;
    QuietEvolves(s, Broadcast(s, except));
  }

  lemma SendEvolves(s: State, p: PeerId, msg: Message)
    ensures Evolves(s, Send(s, p, msg))
  {
    hide Evolves;
    QuietEvolves(s, Send(s, p, msg));
  }

  lemma TouchEvolves(s: State, backendId: BackendId, root: Option<CredentialId>, now: int)
    ensures Evolves(s, TouchBackend(s, backendId, root, now))
  {
    hide Evolves;
    QuietEvolves(s, TouchBackend(s, backendId, root, now));
  }

  lemma ExpireEvolves(s: State, backendId: BackendId, now: int)
    requires Sound(s) && backendId in s.leases
    ensures Evolves(s, ExpireLease(s, backendId, now))
  {
    hide Coherent, Anchored, Ticketed, Paired, Followed, Retained, Capped, Evolves, EndLease, Broadcast, TouchBackend;
    var a := EndLease(s, backendId, BackendOffline);
    var b := Broadcast(a, None);
    var c := TouchBackend(b, backendId, None, now);
    EndLeaseEvolves(s, backendId, BackendOffline);
    BroadcastEvolves(a, None);
    TouchEvolves(b, backendId, None, now);
    QuietEvolves(c, RemovePeer(c, s.leases[backendId].holder));
    EvolvesTrans(s, a, b);
    EvolvesTrans(s, b, c);
    EvolvesTrans(s, c, RemovePeer(c, s.leases[backendId].holder));
  }

  lemma AbdicateEvolves(s: State, p: PeerId, now: int)
    requires s.channels.Keys !! s.fates.Keys
    ensures Evolves(s, Abdicate(s, p, now))
  {
    hide Evolves, EndLease, Broadcast, TouchBackend;
    if IsOwner(s, p) {
      var backendId := s.peers[p].claim.value.backendId;
      var a := EndLease(s, backendId, BackendOffline);
      var b := Broadcast(a, Some(p));
      EndLeaseEvolves(s, backendId, BackendOffline);
      BroadcastEvolves(a, Some(p));
      TouchEvolves(b, backendId, None, now);
      EvolvesTrans(s, a, b);
      EvolvesTrans(s, b, TouchBackend(b, backendId, None, now));
    } else {
      QuietEvolves(s, s);
    }
  }

  lemma DepartEvolves(s: State, p: PeerId, claim: Option<Claim>)
    requires s.channels.Keys !! s.fates.Keys
    ensures Evolves(s, Depart(s, p, claim))
  {
    hide Evolves, CloseChannels, ChannelsAt, Forgotten;
    CloseChannelsEvolves(s, ChannelsAt(s, p), Closed);
    var u := CloseChannels(s, ChannelsAt(s, p), Closed);
    QuietEvolves(u, Depart(s, p, claim));
    EvolvesTrans(s, u, Depart(s, p, claim));
  }

  lemma DisconnectEvolves(s: State, p: PeerId, now: int)
    requires Sound(s)
    ensures Evolves(s, Disconnect(s, p, now))
  {
    hide Evolves, Abdicate, Depart;
    if p in s.peers {
      AbdicateKeepsSound(s, p, now);
      EndedApart(s);
      EndedApart(Abdicate(s, p, now));
      hide Sound;
      AbdicateEvolves(s, p, now);
      DepartEvolves(Abdicate(s, p, now), p, s.peers[p].claim);
      EvolvesTrans(s, Abdicate(s, p, now), Disconnect(s, p, now));
    } else {
      QuietEvolves(s, s);
    }
  }

  lemma EndedApart(s: State)
    requires Sound(s)
    ensures s.channels.Keys !! s.fates.Keys && Inv(s.store) && Ticketed(s)
  {
    assert Accounted(s) && Coherent(s);
    hide Sound, Ticketed;
  }

  lemma PeerFlagsEvolve(s: State, p: PeerId, now: int)
    requires Sound(s)
    ensures Evolves(s, SocketClosed(s, p, now)) && Evolves(s, PingPeer(s, p, now)) && Evolves(s, Pong(s, p))
  {
    hide Sound, Evolves, Disconnect, SocketClosed;
    DisconnectEvolves(s, p, now);
    SocketCloseEvolves(s, p, now);
    if p in s.peers {
      FlagEvolves(s, p, false, s.peers[p].open);
      FlagEvolves(s, p, true, s.peers[p].open);
    } else {
      QuietEvolves(s, s);
    }
  }

  lemma FlagEvolves(s: State, p: PeerId, alive: bool, open: bool)
    requires p in s.peers
    ensures Evolves(s, s.(peers := s.peers[p := s.peers[p].(alive := alive, open := open)]))
  {
    hide Evolves;
    QuietEvolves(s, s.(peers := s.peers[p := s.peers[p].(alive := alive, open := open)]));
  }

  lemma SocketCloseEvolves(s: State, p: PeerId, now: int)
    requires Sound(s)
    ensures Evolves(s, SocketClosed(s, p, now))
  {
    hide Sound, Evolves, Disconnect;
    if p in s.peers {
      var peer := s.peers[p];
      var closing := s.(peers := s.peers[p := peer.(open := false)]);
      FlagKeepsSound(s, p, peer.alive, false);
      FlagEvolves(s, p, peer.alive, false);
      DisconnectEvolves(closing, p, now);
      EvolvesTrans(s, closing, Disconnect(closing, p, now));
    } else {
      QuietEvolves(s, s);
    }
  }

  lemma GrantEvolves(s: State, p: PeerId, b: BackendId, namespace: Namespace, root: CredentialId, now: int)
    requires s.channels.Keys !! s.fates.Keys
    ensures Evolves(s, GrantLease(s, p, b, namespace, root, now))
  {
    hide Evolves, EndLease;
    var t := s.(store := AllocateEpoch(s.store));
    QuietEvolves(s, t);
    var u := t;
    if b in t.leases {
      var a := EndLease(t, b, EpochChanged);
      EndLeaseEvolves(t, b, EpochChanged);
      QuietEvolves(a, ReplaceOwner(t, b));
      EvolvesTrans(t, a, ReplaceOwner(t, b));
      u := ReplaceOwner(t, b);
    } else {
      QuietEvolves(t, t);
    }
    EvolvesTrans(s, t, u);
    NewEpochEvolves(s, u, GrantLease(s, p, b, namespace, root, now), b);
  }

  /** A lease granted under an epoch above everything seen so far. */
  lemma NewEpochEvolves(s: State, u: State, t: State, b: BackendId)
    requires Evolves(s, u) && u.store.maxEpoch <= t.store.maxEpoch && t.config == u.config
    requires t.channels == u.channels && t.fates == u.fates && t.notices == u.notices
    requires b in t.leases && t.leases == u.leases[b := t.leases[b]] && t.leases[b].epoch > s.store.maxEpoch
    ensures Evolves(s, t)
  {
    forall x | x in t.leases ensures LeaseEvolves(s, t, x) {
      assert x != b ==> x in u.leases && LeaseEvolves(s, u, x);
    }
    forall c | c in s.channels ensures ChannelEvolves(s, t, c) { assert ChannelEvolves(s, u, c); }
  }

  lemma AdmitEvolves(s: State, h: Hello, id: CredentialId, p: PeerId, draw: Draw, now: int)
    requires s.channels.Keys !! s.fates.Keys && id in s.store.credentials
    ensures Evolves(s, Admit(s, h, id, p, draw, now))
  {
    hide Evolves, GrantLease, Broadcast, Visible;
    if !h.backend {
      QuietEvolves(s, Admit(s, h, id, p, draw, now));
    } else {
      var c := s.store.credentials[id];
      var r := s.(store := RegisteredStore(s.store, c, h, draw, now));
      QuietEvolves(s, r);
      AdmitBackendEvolves(s, r, h, id, p, draw, now);
      EvolvesTrans(s, r, Admit(s, h, id, p, draw, now));
    }
  }

  lemma AdmitBackendEvolves(s: State, r: State, h: Hello, id: CredentialId, p: PeerId, draw: Draw, now: int)
    requires s.channels.Keys !! s.fates.Keys && id in s.store.credentials && h.backend
    requires r == s.(store := RegisteredStore(s.store, s.store.credentials[id], h, draw, now))
    ensures Evolves(r, Admit(s, h, id, p, draw, now))
  {
    hide Evolves, GrantLease, Broadcast, Visible, RegisteredStore, RegisteredId;
    var c := s.store.credentials[id];
    var scope := if c.kind == Device then c.scope else None;
    var b := RegisteredId(s.store, c, h, draw);
    var root := if c.parent.Some? then c.parent.value else id;
    var g := GrantLease(r, p, b, h.namespace, root, now);
    GrantEvolves(r, p, b, h.namespace, root, now);
    GrantLeaseGrants(r, p, b, h.namespace, root, now);
    var joined := AddPeer(g, p, Peer(h.namespace, id, scope, Some(Claim(b, g.leases[b].epoch)), true, true));
    QuietEvolves(g, joined);
    BroadcastEvolves(joined, Some(p));
    EvolvesTrans(r, g, joined);
    EvolvesTrans(r, joined, Broadcast(joined, Some(p)));
  }

  lemma GrantLeaseGrants(s: State, p: PeerId, b: BackendId, namespace: Namespace, root: CredentialId, now: int)
    ensures GrantLease(s, p, b, namespace, root, now).leases == s.leases[b := Lease(s.store.maxEpoch + 1, p, now)]
  {
    hide CloseChannels, TouchIdentity;
    var t := s.(store := AllocateEpoch(s.store));
    if b in t.leases {
      CloseChannelsPeers(t, ChannelsOf(t, b), EpochChanged);
      assert ReplaceOwner(t, b).leases == s.leases - {b};
    }
  }

  lemma AddChannelEvolves(s: State, target: BackendId, client: Option<PeerId>, holder: PeerId, epoch: nat,
                          draw: ChannelDraw, now: int)
    requires draw.channel !in s.channels
    ensures Evolves(s, AddChannel(s, target, client, holder, epoch, draw, now))
  {
    var t := AddChannel(s, target, client, holder, epoch, draw, now);
    assert t.channels == s.channels[draw.channel := t.channels[draw.channel]] && t.leases == s.leases;
    hide AddChannel;
    forall c | c in s.channels ensures ChannelEvolves(s, t, c) {
      assert Grown(s.channels[c], t.channels[c]);
    }
  }

  lemma OpenEvolves(s: State, p: PeerId, target: BackendId, draw: ChannelDraw, now: int)
    requires p in s.peers && draw.channel !in s.channels
    ensures Evolves(s, OpenChannel(s, p, target, draw, now))
  {
    hide Evolves, AddChannel, Send;
    match ChannelVerdict(s, p, target) {
      case Refuse(code) => SendEvolves(s, p, Error(code));
      case Grant(epoch, holder) =>
        var t := AddChannel(s, target, Some(p), holder, epoch, draw, now);
        var u := Send(t, holder, ChannelOffer(draw.channel, draw.backendTicket, Some(p)));
        AddChannelEvolves(s, target, Some(p), holder, epoch, draw, now);
        SendEvolves(t, holder, ChannelOffer(draw.channel, draw.backendTicket, Some(p)));
        SendEvolves(u, p, ChannelReady(draw.channel, draw.clientTicket));
        EvolvesTrans(s, t, u);
        EvolvesTrans(s, u, Send(u, p, ChannelReady(draw.channel, draw.clientTicket)));
    }
  }

  lemma ProxyEvolves(s: State, token: Token, target: BackendId, limited: bool, draw: ChannelDraw, now: int)
    requires draw.channel !in s.channels
    ensures Evolves(s, Proxy(s, token, target, limited, draw, now))
  {
    hide Evolves, AddChannel, Send, Resolve;
    var t := s.(store := FindValid(s.store, token, now));
    QuietEvolves(s, t);
    if ProxyStatus(s, token, target, limited, now) == 0 {
      var lease := s.leases[target];
      var u := AddChannel(t, target, None, lease.holder, lease.epoch, draw, now);
      var offer := ChannelOffer(draw.channel, draw.backendTicket, None);
      AddChannelEvolves(t, target, None, lease.holder, lease.epoch, draw, now);
      SendEvolves(u, lease.holder, offer);
      EvolvesTrans(s, t, u);
      EvolvesTrans(s, u, Send(u, lease.holder, offer));
    }
  }

  lemma WithLegGrows(ch: Channel, end: End, socket: Socket)
    requires ch.Leg(end).None?
    ensures Grown(ch, WithLeg(ch, end, socket))
  {
  }

  lemma OneChannelEvolves(s: State, t: State, c: ChannelId)
    requires c in s.channels && c in t.channels && Grown(s.channels[c], t.channels[c])
    requires t.channels == s.channels[c := t.channels[c]] && t.fates == s.fates && t.notices == s.notices
    requires t.leases == s.leases && t.store == s.store && t.config == s.config
    ensures Evolves(s, t)
  {
    forall d | d in s.channels ensures ChannelEvolves(s, t, d) {
      assert d != c ==> t.channels[d] == s.channels[d];
    }
  }

  lemma DialledIsOk(s: State, dial: Dial)
    requires Ticketed(s)
    ensures dial in s.dials ==> DialOk(s, dial)
  {
  }

  lemma AttachFields(s: State, dial: Dial, socket: Socket)
    requires dial in s.dials && dial.channel in s.channels
    ensures var t := Attach(s, dial, socket);
      && t.config == s.config && t.store == s.store && t.notices == s.notices && t.leases == s.leases
         && t.fates == s.fates
      && t.channels == s.channels[dial.channel := WithLeg(s.channels[dial.channel], dial.end, socket)]
  {
    hide WithLeg;
    var ch := WithLeg(s.channels[dial.channel], dial.end, socket);
    if ch.wired && !s.channels[dial.channel].wired {
    } else {
    }
  }

  lemma DroppedFields(s: State, dial: Dial, socket: Socket)
    requires dial !in s.dials || dial.channel !in s.channels
    ensures Attach(s, dial, socket) == s.(dials := s.dials - {dial})
  {
  }

  lemma AttachEvolves(s: State, dial: Dial, socket: Socket)
    requires Ticketed(s)
    ensures Evolves(s, Attach(s, dial, socket))
  {
    hide Ticketed, WithLeg, Evolves, Grown, Attach;
    DialledIsOk(s, dial);
    var t := Attach(s, dial, socket);
    if dial in s.dials && dial.channel in s.channels {
      AttachFields(s, dial, socket);
      WithLegGrows(s.channels[dial.channel], dial.end, socket);
      OneChannelEvolves(s, t, dial.channel);
    } else {
      DroppedFields(s, dial, socket);
      QuietEvolves(s, t);
    }
  }

  lemma CloseOneEvolves(s: State, p: PeerId, c: ChannelId, reason: Reason)
    requires s.channels.Keys !! s.fates.Keys
    ensures Evolves(s, RejectChannel(s, p, c)) && Evolves(s, CloseChannel(s, p, c)) && Evolves(s, PairingTimeout(s, c))
    ensures Evolves(s, LegClosed(s, c)) && Evolves(s, HttpGone(s, c, reason))
  {
    hide Evolves, CloseChannels;
    QuietEvolves(s, s);
    CloseChannelsEvolves(s, {c}, Session.Rejected);
    CloseChannelsEvolves(s, {c}, Closed);
    CloseChannelsEvolves(s, {c}, TimedOut);
    CloseChannelsEvolves(s, {c}, reason);
  }

  lemma GreetEvolves(s: State, h: Hello, spent: bool, p: PeerId, draw: Draw, now: int)
    requires s.channels.Keys !! s.fates.Keys
    ensures Evolves(s, Greet(s, h, spent, p, draw, now))
  {
    hide Evolves, Admit;
    var t := s.(store := FindValid(s.store, h.token, now));
    QuietEvolves(s, t);
    match JudgeHello(s.store, h, spent, now) {
      case Denied(_) =>
      case Admitted(id) =>
        AdmitEvolves(t, h, id, p, draw, now);
        EvolvesTrans(s, t, Admit(t, h, id, p, draw, now));
    }
  }

  lemma AdministerEvolves(s: State, op: Op)
    requires Inv(s.store)
    ensures Evolves(s, Administer(s, op))
  {
    ApplyKeepsEpochs(s.store, if op.Forget? then op.(online := op.backendId in s.registry) else op);
    hide Evolves, Apply, Inv, Disconnected;
    QuietEvolves(s, Administer(s, op));
  }

  lemma HeartbeatEvolves(s: State, p: PeerId, epoch: nat, now: int)
    ensures Evolves(s, Heartbeat(s, p, epoch, now))
  {
    hide Evolves, Send;
    if IsOwner(s, p) && s.peers[p].claim.value.epoch == epoch {
      var b := s.peers[p].claim.value.backendId;
      var t := s.(leases := s.leases[b := s.leases[b].(heartbeatAt := now)]);
      var u := if b in t.registry then t.(registry := t.registry[b := t.registry[b].(lastSeenAt := now)]) else t;
      QuietEvolves(s, u);
      SendEvolves(u, p, HeartbeatAck(epoch));
      EvolvesTrans(s, u, Send(u, p, HeartbeatAck(epoch)));
    } else {
      QuietEvolves(s, s);
    }
  }

  lemma SubscribeEvolves(s: State, p: PeerId, backendId: BackendId, topic: Topic)
    requires p in s.peers
    ensures Evolves(s, Subscribe(s, p, backendId, topic))
  {
    hide Evolves, SubscribersOf, PeerReaches, Send;
    SendEvolves(s, p, Error(Offline));
    var t := s.(subs := s.subs[backendId := TopicsOf(s.subs,
                                                     backendId)[topic := SubscribersOf(s, backendId, topic) + {p}]]);
    var u := Send(t, p, Subscribed(backendId, topic));
    QuietEvolves(s, t);
    SendEvolves(t, p, Subscribed(backendId, topic));
    EvolvesTrans(s, t, u);
    if topic in TopicsOf(s.retained, backendId) {
      var late := TopicMessage(backendId, topic, Some(s.retained[backendId][topic]));
      SendEvolves(u, p, late);
      EvolvesTrans(s, u, Send(u, p, late));
    }
  }

  lemma UnsubscribeEvolves(s: State, p: PeerId, backendId: BackendId, topic: Topic)
    ensures Evolves(s, Unsubscribe(s, p, backendId, topic))
  {
    hide Evolves, Send;
    var t := if backendId in s.subs && topic in s.subs[backendId]
             then s.(subs := s.subs[backendId := s.subs[backendId][topic := s.subs[backendId][topic] - {p}]]) else s;
    QuietEvolves(s, t);
    SendEvolves(t, p, Unsubscribed(backendId, topic));
    EvolvesTrans(s, t, Send(t, p, Unsubscribed(backendId, topic)));
  }

  lemma PublishEvolves(s: State, p: PeerId, topic: Topic, payload: Option<Payload>, retain: bool)
    ensures Evolves(s, Publish(s, p, topic, payload, retain))
  {
    hide Evolves, Deliveries, Retain;
    if IsOwner(s, p) && retain && payload.Some? { RetainOnly(s, s.peers[p].claim.value, topic, payload.value); }
    QuietEvolves(s, Publish(s, p, topic, payload, retain));
  }

  lemma CheckLeaseEvolves(s: State, backendId: BackendId, now: int)
    requires Sound(s)
    ensures Evolves(s, CheckLease(s, backendId, now))
  {
    EndedApart(s);
    hide Sound, Evolves, ExpireLease;
    QuietEvolves(s, s);
    if LeaseStale(s, backendId, now) { ExpireEvolves(s, backendId, now); }
  }

  lemma ChannelStepEvolves(s: State, a: Action)
    requires s.channels.Keys !! s.fates.Keys && Ticketed(s) && Fresh(s, a) && AboutOneChannel(a)
    ensures Evolves(s, ChannelStep(s, a))
  {
    hide Ticketed, Evolves, OpenChannel, RejectChannel, CloseChannel, Proxy, Attach, PairingTimeout, LegClosed,
         HttpGone;
    QuietEvolves(s, s);
    match a {
      case DoOpen(p, target, ids, now) => if p in s.peers { OpenEvolves(s, p, target, ids, now); }
      case DoReject(p, c) => CloseOneEvolves(s, p, c, Closed);
      case DoClose(p, c) => CloseOneEvolves(s, p, c, Closed);
      case DoProxy(token, target, limited, ids, now) => ProxyEvolves(s, token, target, limited, ids, now);
      case DoAttach(dial, socket) => AttachEvolves(s, dial, socket);
      case DoPairingTimeout(c, now) => CloseOneEvolves(s, 0, c, Closed);
      case DoLegClosed(c) => CloseOneEvolves(s, 0, c, Closed);
      case DoHttpGone(c, reason) => CloseOneEvolves(s, 0, c, reason);
    }
  }

  lemma OwnerStepEvolves(s: State, a: Action)
    requires Sound(s) && Fresh(s, a) && AboutAnOwner(a)
    ensures Evolves(s, OwnerStep(s, a))
  {
    EndedApart(s);
    hide Sound, Evolves, Greet, Heartbeat, Relay, Publish, CheckLease, Administer;
    QuietEvolves(s, s);
    match a {
      case DoHello(h, spent, p, draw, now) => GreetEvolves(s, h, spent, p, draw, now);
      case DoHeartbeat(p, epoch, now) => HeartbeatEvolves(s, p, epoch, now);
      case DoRelay(p, backendId, target, payload) => RelayEvolves(s, p, backendId, target, payload);
      case DoPublish(p, topic, payload, retain) => PublishEvolves(s, p, topic, payload, retain);
      case DoCheckLease(backendId, now) => CheckLeaseEvolves(s, backendId, now);
      case DoAdmin(op) => if AdminOp(op) { AdministerEvolves(s, op); }
    }
  }

  lemma RelayEvolves(s: State, p: PeerId, backendId: BackendId, target: Option<PeerId>, payload: Option<Payload>)
    ensures Evolves(s, Relay(s, p, backendId, target, payload))
  {
    hide Evolves, Send, CanReach;
    QuietEvolves(s, s);
    if target.Some? { SendEvolves(s, target.value, Relayed(backendId, payload)); }
  }

  lemma TicketsEvolve(s: State, ticket: TicketToken, c: ChannelId, dial: Dial, now: int)
    ensures Evolves(s, ConsumeTicket(s, ticket, c, now)) && Evolves(s, DropStaleTickets(s, now))
    ensures Evolves(s, s.(dials := s.dials - {dial}))
  {
    hide Evolves, DialAccepted;
    QuietEvolves(s, ConsumeTicket(s, ticket, c, now));
    QuietEvolves(s, DropStaleTickets(s, now));
    QuietEvolves(s, s.(dials := s.dials - {dial}));
  }

  lemma SnapshotEvolves(s: State, p: PeerId)
    requires p in s.peers
    ensures Evolves(s, RequestSnapshot(s, p))
  {
    hide Evolves, Send, Visible;
    SendEvolves(s, p, Snapshot(Visible(s.registry, s.peers[p].namespace, s.peers[p].scope)));
  }

  lemma PeerStepEvolves(s: State, a: Action)
    requires Sound(s) && !AboutOneChannel(a) && !AboutAnOwner(a)
    ensures Evolves(s, PeerStep(s, a))
  {
    EndedApart(s);
    hide Sound, Evolves, RequestSnapshot, Subscribe, Unsubscribe, ConsumeTicket, DropStaleTickets, PingPeer, Pong,
         SocketClosed, Broadcast;
    QuietEvolves(s, s);
    match a {
      case DoSnapshot(p) => if p in s.peers { SnapshotEvolves(s, p); }
      case DoSubscribe(p, backendId, topic) => if p in s.peers { SubscribeEvolves(s, p, backendId, topic); }
      case DoUnsubscribe(p, backendId, topic) => UnsubscribeEvolves(s, p, backendId, topic);
      case DoDial(ticket, c, now) => TicketsEvolve(s, ticket, c, Dial(c, ClientEnd), now);
      case DoAbortDial(dial) => TicketsEvolve(s, 0, 0, dial, 0);
      case DoTicketCleanup(now) => TicketsEvolve(s, 0, 0, Dial(0, ClientEnd), now);
      case DoPing(p, now) => PeerFlagsEvolve(s, p, now);
      case DoPong(p) => PeerFlagsEvolve(s, p, 0);
      case DoSocketClosed(p, now) => PeerFlagsEvolve(s, p, now);
      case DoPoll => BroadcastEvolves(s, None);
    }
  }

  lemma StepEvolves(s: State, a: Action)
    requires Sound(s) && Fresh(s, a)
    ensures Evolves(s, Step(s, a))
  {
    EndedApart(s);
    hide Sound, Ticketed, Evolves, Inv, Fresh, ChannelStep, OwnerStep, PeerStep, AboutOneChannel, AboutAnOwner;
    if AboutOneChannel(a) {
      ChannelStepEvolves(s, a);
    } else if AboutAnOwner(a) {
      OwnerStepEvolves(s, a);
    } else {
      PeerStepEvolves(s, a);
    }
  }

  lemma {:induction false} RunEvolves(s: State, actions: seq<Action>)
    requires Sound(s) && GatewayRun(s, actions)
    ensures Evolves(s, Reached(s, actions)) && Sound(Reached(s, actions))
    decreases |actions|
  {
    hide Sound, Step, Fresh, Evolves;
    if actions == [] {
      QuietEvolves(s, s);
    } else {
      StepKeepsSound(s, actions[0]);
      StepEvolves(s, actions[0]);
      RunEvolves(Step(s, actions[0]), actions[1..]);
      EvolvesTrans(s, Step(s, actions[0]), Reached(s, actions));
    }
  }
}
