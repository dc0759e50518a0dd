/** What a peer may see and use, in the fields of the state: its namespace, narrowed by its scope, and nothing else. */
module Reach {
  import opened Basics
  import opened CredentialStore
  import opened Session
  import opened SessionProofs
  import opened SessionSteps
  import opened SessionFrames
  import opened Views
  import opened Answers
  import opened Entitlement

  // ---- Views that were sent ------------------------------------------------

  predicate IsView(msg: Message) { msg.Snapshot? || msg.PeerReady? }

  /** Nobody was shown anything. */
  ghost predicate Unseen(s: State, t: State) { forall e: Envelope :: IsView(e.msg) ==> t.sent[e] == s.sent[e] }

  /** A view that was sent is the peer's own, of the registry as it is afterwards. */
  ghost predicate Shown(s: State, t: State, e: Envelope) {
    && IsView(e.msg) && e.to in s.peers + t.peers
    && var peer := (s.peers + t.peers)[e.to];
       e.msg.items == Visible(t.registry, peer.namespace, peer.scope)
  }

  lemma UnseenTrans(s: State, t: State, u: State)
    requires Unseen(s, t) && Unseen(t, u)
    ensures Unseen(s, u)
  {
  }

  lemma SendingIsUnseen(s: State, p: PeerId, msg: Message)
    requires !IsView(msg)
    ensures Unseen(s, Send(s, p, msg))
  {
    SendAdds(s, p, msg);
    hide Send;
    assert forall e: Envelope :: IsView(e.msg) ==> multiset{Envelope(p, msg)}[e] == 0;
  }

  lemma SameMailIsUnseen(s: State, t: State)
    requires t.sent == s.sent
    ensures Unseen(s, t)
  {
  }

  lemma MailIsUnseen(s: State, t: State, news: set<Envelope>)
    requires t.sent == s.sent + multiset(news) && forall e :: e in news ==> !IsView(e.msg)
    ensures Unseen(s, t)
  {
    assert forall e: Envelope :: IsView(e.msg) ==> multiset(news)[e] == 0;
  }

  // ---- Steps that show nothing ---------------------------------------------

  lemma ClosingIsUnseen(s: State, dead: set<ChannelId>, reason: Reason)
    ensures var t := CloseChannels(s, dead, reason);
      Unseen(s, t) && t.sent == s.sent && t.peers == s.peers && t.registry == s.registry
  {
    hide Notices, TicketsOf;
  }

  lemma EndingIsUnseen(s: State, p: PeerId, c: ChannelId, reason: Reason)
    ensures Unseen(s, RejectChannel(s, p, c)) && Unseen(s, CloseChannel(s, p, c)) && Unseen(s, PairingTimeout(s, c))
    ensures Unseen(s, LegClosed(s, c)) && Unseen(s, HttpGone(s, c, reason))
  {
    ClosingIsUnseen(s, {c}, Session.Rejected);
    ClosingIsUnseen(s, {c}, Closed);
    ClosingIsUnseen(s, {c}, TimedOut);
    ClosingIsUnseen(s, {c}, reason);
    SameMailIsUnseen(s, s);
    hide CloseChannels, Unseen;
  }

  lemma AttachingIsUnseen(s: State, dial: Dial, socket: Socket)
    ensures Unseen(s, Attach(s, dial, socket))
  {
    hide WithLeg;
    if dial in s.dials && dial.channel in s.channels {
      var ch := WithLeg(s.channels[dial.channel], dial.end, socket);
      var wirings := if ch.wired && !s.channels[dial.channel].wired then s.wirings + multiset{dial.channel}
                     else s.wirings;
      assert Attach(s, dial, socket) == s.(dials := s.dials - {dial}, channels := s.channels[dial.channel := ch],
                                           wirings := wirings);
    } else {
    }
  }

  lemma OpeningIsUnseen(s: State, p: PeerId, target: BackendId, draw: ChannelDraw, now: int)
    requires p in s.peers
    ensures Unseen(s, OpenChannel(s, p, target, draw, now))
  {
    hide ChannelVerdict, Send, AddChannel, Unseen;
    match ChannelVerdict(s, p, target)
    case Refuse(code) => SendingIsUnseen(s, p, Error(code));
    case Grant(epoch, holder) =>
      var t := AddChannel(s, target, Some(p), holder, epoch, draw, now);
      var offer, ready := ChannelOffer(draw.channel, draw.backendTicket, Some(p)),
          ChannelReady(draw.channel, draw.clientTicket);
      AddChannelIsSilent(s, target, Some(p), holder, epoch, draw, now);
      SameMailIsUnseen(s, t);
      SendingIsUnseen(t, holder, offer);
      SendingIsUnseen(Send(t, holder, offer), p, ready);
      UnseenTrans(s, t, Send(t, holder, offer));
      UnseenTrans(s, Send(t, holder, offer), Send(Send(t, holder, offer), p, ready));
  }

  lemma ProxyIsUnseen(s: State, token: Token, target: BackendId, limited: bool, draw: ChannelDraw, now: int)
    ensures Unseen(s, Proxy(s, token, target, limited, draw, now))
  {
    hide FindValid, ProxyStatus, Send, AddChannel, Unseen;
    var t := s.(store := FindValid(s.store, token, now));
    SameMailIsUnseen(s, t);
    if ProxyStatus(s, token, target, limited, now) == 0 {
      StatusMeansLeased(s, token, target, limited, now);
      var lease := s.leases[target];
      var u, offer := AddChannel(t, target, None, lease.holder, lease.epoch, draw, now),
          ChannelOffer(draw.channel, draw.backendTicket, None);
      AddChannelIsSilent(t, target, None, lease.holder, lease.epoch, draw, now);
      SameMailIsUnseen(t, u);
      SendingIsUnseen(u, lease.holder, offer);
      UnseenTrans(s, t, u);
      UnseenTrans(s, u, Send(u, lease.holder, offer));
    }
  }

  lemma ChannelStepIsUnseen(s: State, a: Action)
    requires AboutOneChannel(a)
    ensures Unseen(s, ChannelStep(s, a))
  {
    SameMailIsUnseen(s, s);
    hide OpenChannel, Proxy, RejectChannel, CloseChannel, PairingTimeout, LegClosed, HttpGone, Attach, Unseen;
    match a {
      case DoOpen(p, target, ids, now) => if p in s.peers { OpeningIsUnseen(s, p, target, ids, now); }
      case DoProxy(token, target, limited, ids, now) => ProxyIsUnseen(s, token, target, limited, ids, now);
      case DoReject(p, c) => EndingIsUnseen(s, p, c, Closed);
      case DoClose(p, c) => EndingIsUnseen(s, p, c, Closed);
      case DoAttach(dial, socket) => AttachingIsUnseen(s, dial, socket);
      case DoPairingTimeout(c, _) => EndingIsUnseen(s, 0, c, Closed);
      case DoLegClosed(c) => EndingIsUnseen(s, 0, c, Closed);
      case DoHttpGone(c, reason) => EndingIsUnseen(s, 0, c, reason);
    }
  }

  lemma SubscribingIsUnseen(s: State, p: PeerId, b: BackendId, topic: Topic)
    requires p in s.peers
    ensures Unseen(s, Subscribe(s, p, b, topic))
  {
    hide PeerReaches, SubscribersOf, Send, Unseen;
    var t := s.(subs := s.subs[b := TopicsOf(s.subs, b)[topic := SubscribersOf(s, b, topic) + {p}]]);
    var u := Send(t, p, Subscribed(b, topic));
    SendingIsUnseen(s, p, Error(Offline));
    SameMailIsUnseen(s, t);
    SendingIsUnseen(t, p, Subscribed(b, topic));
    UnseenTrans(s, t, u);
    if topic in TopicsOf(s.retained, b) {
      var late := TopicMessage(b, topic, Some(s.retained[b][topic]));
      SendingIsUnseen(u, p, late);
      UnseenTrans(s, u, Send(u, p, late));
    }
  }

  lemma UnsubscribingIsUnseen(s: State, p: PeerId, b: BackendId, topic: Topic)
    ensures Unseen(s, Unsubscribe(s, p, b, topic))
  {
    hide Send, Unseen;
    var t := if b in s.subs && topic in s.subs[b]
             then s.(subs := s.subs[b := s.subs[b][topic := s.subs[b][topic] - {p}]]) else s;
    SameMailIsUnseen(s, t);
    SendingIsUnseen(t, p, Unsubscribed(b, topic));
    UnseenTrans(s, t, Send(t, p, Unsubscribed(b, topic)));
  }

  lemma TicketsAreUnseen(s: State, ticket: TicketToken, c: ChannelId, now: int, p: PeerId)
    ensures Unseen(s, ConsumeTicket(s, ticket, c, now)) && Unseen(s, DropStaleTickets(s, now)) && Unseen(s, Pong(s, p))
  {
    hide DialAccepted;
  }

  lemma HeartbeatIsUnseen(s: State, p: PeerId, epoch: nat, now: int)
    ensures Unseen(s, Heartbeat(s, p, epoch, now))
  {
    hide Send, Unseen;
    SameMailIsUnseen(s, s);
    if IsOwner(s, p) && s.peers[p].claim.value.epoch == epoch {
      var b := s.peers[p].claim.value.backendId;
      var t := s.(leases := s.leases[b := s.leases[b].(heartbeatAt := now)]);
      var u := if b in t.registry then t.(registry := t.registry[b := t.registry[b].(lastSeenAt := now)]) else t;
      SameMailIsUnseen(s, u);
      SendingIsUnseen(u, p, HeartbeatAck(epoch));
      UnseenTrans(s, u, Send(u, p, HeartbeatAck(epoch)));
    }
  }

  lemma RelayingIsUnseen(s: State, p: PeerId, b: BackendId, target: Option<PeerId>, payload: Option<Payload>)
    ensures Unseen(s, Relay(s, p, b, target, payload))
  {
    hide Send, CanReach, Unseen;
    SameMailIsUnseen(s, s);
    if target.Some? { SendingIsUnseen(s, target.value, Relayed(b, payload)); }
  }

  lemma PublishingIsUnseen(s: State, p: PeerId, topic: Topic, payload: Option<Payload>, retain: bool)
    ensures Unseen(s, Publish(s, p, topic, payload, retain))
  {
    SameMailIsUnseen(s, s);
    hide Unseen;
    if IsOwner(s, p) {
      var claim := s.peers[p].claim.value;
      var t := if retain && payload.Some? then Retain(s, claim, topic, payload.value) else s;
      var news := Deliveries(s, claim.backendId, topic, payload);
      MailIsUnseen(s, t.(sent := t.sent + multiset(news)), news) by {
        hide Deliveries;
        DeliveriesAreNoViews(s, claim.backendId, topic, payload);
      }
    }
  }

  lemma DeliveriesAreNoViews(s: State, b: BackendId, topic: Topic, payload: Option<Payload>)
    ensures forall e :: e in Deliveries(s, b, topic, payload) ==> !IsView(e.msg)
  {
  }

  lemma AdministeringIsUnseen(s: State, op: Op)
    ensures Unseen(s, Administer(s, op))
  {
    var asked := if op.Forget? then op.(online := op.backendId in s.registry) else op;
    var after := Apply(s.store, asked);
    hide Apply, Disconnected, CloseCredentials;
    ClosedCredentialsAre(s.(store := after), Disconnected(s.store, op, after));
  }

  // ---- Steps that show -----------------------------------------------------

  lemma BroadcastShows(s: State, except: Option<PeerId>, e: Envelope)
    requires IsView(e.msg) && Broadcast(s, except).sent[e] > s.sent[e]
    ensures e.to in s.peers && e.msg == Snapshot(Visible(s.registry, s.peers[e.to].namespace, s.peers[e.to].scope))
  {
    hide Visible;
    assert e in Snapshots(s, except);
  }

  /**
   The views of a state are also those of one with the same registry and, where they are still there, the same peers.
   */
  lemma ShownStays(s: State, t: State, u: State, e: Envelope)
    requires Shown(t, t, e) && u.registry == t.registry && t.peers.Keys <= s.peers.Keys + u.peers.Keys
    requires forall p :: p in t.peers && p in s.peers ==> SameEyes(t.peers[p], s.peers[p])
    requires forall p :: p in t.peers && p in u.peers ==> SameEyes(t.peers[p], u.peers[p])
    ensures Shown(s, u, e)
  {
    hide Visible;
  }

  predicate SameEyes(a: Peer, b: Peer) { a.namespace == b.namespace && a.scope == b.scope }

  /** The same people in the same registry. */
  predicate SameScene(s: State, t: State) {
    && t.registry == s.registry && t.peers.Keys <= s.peers.Keys
    && forall p :: p in t.peers ==> SameEyes(s.peers[p], t.peers[p])
  }

  lemma ToldShows(s: State, except: Option<PeerId>, e: Envelope)
    requires IsView(e.msg) && Broadcast(s, except).sent[e] > s.sent[e]
    ensures Shown(s, s, e)
  {
    BroadcastShows(s, except, e);
    hide Visible, Broadcast;
  }

  /** The end of a lease: nobody hears of it yet, and nobody else has changed. */
  lemma LeaseEnds(s: State, b: BackendId, reason: Reason)
    requires b in s.leases
    ensures var t := EndLease(s, b, reason);
      && t.sent == s.sent && t.peers.Keys == s.peers.Keys && t.registry == s.registry - {b}
      && forall p :: p in s.peers ==> SameEyes(s.peers[p], t.peers[p])
  {
    hide CloseChannels, ChannelsOf;
    ClosingIsUnseen(s, ChannelsOf(s, b), reason);
  }

  lemma ExpiryShows(s: State, b: BackendId, now: int, e: Envelope)
    requires IsView(e.msg) && CheckLease(s, b, now).sent[e] > s.sent[e]
    ensures Shown(s, CheckLease(s, b, now), e)
  {
    hide EndLease, Broadcast, TouchIdentity, Shown;
    var ended := EndLease(s, b, BackendOffline);
    LeaseEnds(s, b, BackendOffline);
    BroadcastIs(ended, None);
    ToldShows(ended, None, e);
    ShownStays(s, ended, CheckLease(s, b, now), e);
  }

  lemma BroadcastIs(s: State, except: Option<PeerId>)
    ensures Broadcast(s, except) == s.(sent := Broadcast(s, except).sent)
  {
    hide Snapshots;
  }

  lemma DepartureIs(s: State, p: PeerId, claim: Option<Claim>)
    ensures var t := Depart(s, p, claim); t.sent == s.sent && t.registry == s.registry && t.peers == s.peers - {p}
  {
    hide CloseChannels, ChannelsAt, Forgotten;
    ClosingIsUnseen(s, ChannelsAt(s, p), Closed);
  }

  lemma DisconnectShows(s: State, p: PeerId, now: int, e: Envelope)
    requires IsView(e.msg) && Disconnect(s, p, now).sent[e] > s.sent[e]
    ensures Shown(s, Disconnect(s, p, now), e)
  {
    hide EndLease, Broadcast, TouchIdentity, Shown, Depart;
    var t := Abdicate(s, p, now);
    DepartureIs(t, p, s.peers[p].claim);
    var b := s.peers[p].claim.value.backendId;
    var ended := EndLease(s, b, BackendOffline);
    LeaseEnds(s, b, BackendOffline);
    BroadcastIs(ended, Some(p));
    ToldShows(ended, Some(p), e);
    ShownStays(s, ended, Disconnect(s, p, now), e);
  }

  lemma LivenessShows(s: State, p: PeerId, now: int, e: Envelope)
    requires IsView(e.msg)
    ensures PingPeer(s, p, now).sent[e] > s.sent[e] ==> Shown(s, PingPeer(s, p, now), e)
    ensures SocketClosed(s, p, now).sent[e] > s.sent[e] ==> Shown(s, SocketClosed(s, p, now), e)
  {
    hide Disconnect, Visible;
    if PingPeer(s, p, now).sent[e] > s.sent[e] { DisconnectShows(s, p, now, e); }
    if SocketClosed(s, p, now).sent[e] > s.sent[e] {
      DisconnectShows(s.(peers := s.peers[p := s.peers[p].(open := false)]), p, now, e);
    }
  }

  lemma RequestShows(s: State, p: PeerId, e: Envelope)
    requires p in s.peers && IsView(e.msg) && RequestSnapshot(s, p).sent[e] > s.sent[e]
    ensures Shown(s, RequestSnapshot(s, p), e)
  {
    hide Visible;
  }

  lemma ReplacingIsUnseen(s: State, b: BackendId)
    requires b in s.leases
    ensures Unseen(s, ReplaceOwner(s, b))
  {
    hide EndLease, Send, Unseen;
    var ended, holder := EndLease(s, b, EpochChanged), s.leases[b].holder;
    LeaseEnds(s, b, EpochChanged);
    SameMailIsUnseen(s, ended);
    if Open(ended, holder) {
      var told := Send(ended, holder, CloseFrame(CLOSE_REPLACED));
      SendingIsUnseen(ended, holder, CloseFrame(CLOSE_REPLACED));
      UnseenTrans(s, ended, told);
      SameMailIsUnseen(told, ReplaceOwner(s, b));
      UnseenTrans(s, told, ReplaceOwner(s, b));
    }
  }

  lemma GrantingIsUnseen(s: State, p: PeerId, b: BackendId, namespace: Namespace, root: CredentialId, now: int)
    ensures Unseen(s, GrantLease(s, p, b, namespace, root, now))
  {
    hide ReplaceOwner, Unseen;
    var t := s.(store := AllocateEpoch(s.store));
    var u := if b in t.leases then ReplaceOwner(t, b) else t;
    SameMailIsUnseen(s, t);
    if b in t.leases {
      ReplacingIsUnseen(t, b);
      UnseenTrans(s, t, u);
    }
    SameMailIsUnseen(u, GrantLease(s, p, b, namespace, root, now));
    UnseenTrans(s, u, GrantLease(s, p, b, namespace, root, now));
  }

  lemma JoiningShows(s: State, p: PeerId, peer: Peer, e: Envelope)
    requires IsView(e.msg)
    ensures AddPeer(s, p, peer).sent[e] > s.sent[e] ==> Shown(s, AddPeer(s, p, peer), e)
    ensures AddPeer(s, p, peer).registry == s.registry
    ensures AddPeer(s, p, peer).peers == s.peers[p := peer]
  {
    hide Visible;
    var t := s.(peers := s.peers[p := peer], usedPeers := s.usedPeers + {p});
    var ready := PeerReady(peer.claim, Visible(s.registry, peer.namespace, peer.scope));
    SendAdds(t, p, ready);
    SendKeepsRegistry(t, p, ready);
    hide Send;
  }

  lemma SendKeepsRegistry(s: State, p: PeerId, msg: Message)
    ensures Send(s, p, msg).registry == s.registry
  {
  }

  /** The newcomer is shown the registry when it joins, the others right afterwards. */
  lemma WelcomeShows(s: State, t: State, p: PeerId, peer: Peer, e: Envelope)
    requires IsView(e.msg) && Unseen(s, t) && p !in s.peers
    ensures var u := AddPeer(t, p, peer);
      && (u.sent[e] > s.sent[e] ==> Shown(s, u, e))
      && (Broadcast(u, Some(p)).sent[e] > s.sent[e] ==> Shown(s, Broadcast(u, Some(p)), e))
  {
    var u := AddPeer(t, p, peer);
    JoiningShows(t, p, peer, e);
    BroadcastIs(u, Some(p));
    hide AddPeer, Broadcast, Visible;
    if u.sent[e] > s.sent[e] { assert Shown(t, u, e); }
    if Broadcast(u, Some(p)).sent[e] > u.sent[e] { ToldShows(u, Some(p), e); }
  }

  lemma AdmittingShows(s: State, h: Hello, id: CredentialId, p: PeerId, draw: Draw, now: int, e: Envelope)
    requires id in s.store.credentials && p !in s.peers
    requires IsView(e.msg) && Admit(s, h, id, p, draw, now).sent[e] > s.sent[e]
    ensures Shown(s, Admit(s, h, id, p, draw, now), e)
  {
    SeatingKeepsRows(s, h, id, p, draw, now);
    hide GrantLease, AddPeer, Broadcast, RegisteredStore, RegisteredId, Shown, Unseen;
    var c := s.store.credentials[id];
    var scope := if c.kind == Device then c.scope else None;
    if h.backend {
      var b, root := RegisteredId(s.store, c, h, draw), if c.parent.Some? then c.parent.value else id;
      var ready := s.(store := RegisteredStore(s.store, c, h, draw, now));
      var t := GrantLease(ready, p, b, h.namespace, root, now);
      SameMailIsUnseen(s, ready);
      GrantingIsUnseen(ready, p, b, h.namespace, root, now);
      UnseenTrans(s, ready, t);
      WelcomeShows(s, t, p, Peer(h.namespace, id, scope, Some(Claim(b, t.leases[b].epoch)), true, true), e);
    } else {
      SameMailIsUnseen(s, s);
      WelcomeShows(s, s, p, Peer(h.namespace, id, scope, None, true, true), e);
    }
  }

  lemma GreetingShows(s: State, h: Hello, spent: bool, p: PeerId, draw: Draw, now: int, e: Envelope)
    requires p !in s.peers && IsView(e.msg) && Greet(s, h, spent, p, draw, now).sent[e] > s.sent[e]
    ensures Shown(s, Greet(s, h, spent, p, draw, now), e)
  {
    HelloIs(s, h, spent, p, draw, now);
    hide Admit, FindValid, JudgeHello, Shown, Greet, Step;
    var seen := s.(store := FindValid(s.store, h.token, now));
    if JudgeHello(s.store, h, spent, now).Admitted? {
      AdmittingShows(seen, h, JudgeHello(s.store, h, spent, now).credential, p, draw, now, e);
      SeenAlike(s, seen, Greet(s, h, spent, p, draw, now), e);
    }
  }

  lemma SeenAlike(s: State, t: State, u: State, e: Envelope)
    requires Shown(t, u, e) && t.peers == s.peers
    ensures Shown(s, u, e)
  {
    hide Visible;
  }

  lemma PeerStepShows(s: State, a: Action, e: Envelope)
    requires !AboutOneChannel(a) && !AboutAnOwner(a) && IsView(e.msg) && PeerStep(s, a).sent[e] > s.sent[e]
    ensures Shown(s, PeerStep(s, a), e)
  {
    hide RequestSnapshot, Subscribe, Unsubscribe, ConsumeTicket, DropStaleTickets, PingPeer, Pong, SocketClosed,
         Broadcast, Shown;
    match a {
      case DoSnapshot(p) => RequestShows(s, p, e);
      case DoSubscribe(p, b, topic) => SubscribingIsUnseen(s, p, b, topic);
      case DoUnsubscribe(p, b, topic) => UnsubscribingIsUnseen(s, p, b, topic);
      case DoDial(ticket, c, now) => TicketsAreUnseen(s, ticket, c, now, 0);
      case DoAbortDial(_) =>
      case DoTicketCleanup(now) => TicketsAreUnseen(s, 0, 0, now, 0);
      case DoPing(p, now) => LivenessShows(s, p, now, e);
      case DoPong(p) => TicketsAreUnseen(s, 0, 0, 0, p);
      case DoSocketClosed(p, now) => LivenessShows(s, p, now, e);
      case DoPoll =>
        BroadcastIs(s, None);
        ToldShows(s, None, e);
        ShownStays(s, s, Broadcast(s, None), e);
    }
  }

  lemma OwnerStepShows(s: State, a: Action, e: Envelope)
    requires AboutAnOwner(a) && IsView(e.msg) && OwnerStep(s, a).sent[e] > s.sent[e]
    requires a.DoHello? ==> a.p !in s.peers
    ensures Shown(s, OwnerStep(s, a), e)
  {
    hide Heartbeat, Relay, Publish, CheckLease, Administer, Greet, Shown;
    match a {
      case DoHello(h, spent, p, draw, now) => GreetingShows(s, h, spent, p, draw, now, e);
      case DoHeartbeat(p, epoch, now) => HeartbeatIsUnseen(s, p, epoch, now);
      case DoRelay(p, b, target, payload) => RelayingIsUnseen(s, p, b, target, payload);
      case DoPublish(p, topic, payload, retain) => PublishingIsUnseen(s, p, topic, payload, retain);
      case DoCheckLease(b, now) => ExpiryShows(s, b, now, e);
      case DoAdmin(op) => AdministeringIsUnseen(s, op);
    }
  }

  lemma StepShows(s: State, a: Action, e: Envelope)
    requires IsView(e.msg) && Step(s, a).sent[e] > s.sent[e] && (a.DoHello? ==> a.p !in s.peers)
    ensures Shown(s, Step(s, a), e)
  {
    hide ChannelStep, OwnerStep, PeerStep, Shown;
    if AboutOneChannel(a) {
      ChannelStepIsUnseen(s, a);
    } else if AboutAnOwner(a) {
      OwnerStepShows(s, a, e);
    } else {
      PeerStepShows(s, a, e);
    }
  }

  /**
   Whatever a step of a reachable gateway shows anybody, as a snapshot or on admission, holds exactly the backends
   registered in that peer's namespace and, if it has a scope, named there, each as it is registered.
   */
  lemma ViewsShowExactlyWhatIsInReach(s: State, a: Action, e: Envelope, b: BackendId)
    requires Sound(s) && Fresh(s, a) && (e.msg.Snapshot? || e.msg.PeerReady?) && Step(s, a).sent[e] > s.sent[e]
    ensures var t := Step(s, a);
      && (e.to in t.peers || e.to in s.peers)
      && var peer := if e.to in t.peers then t.peers[e.to] else s.peers[e.to];
      && (b in e.msg.items <==>
            b in t.registry && t.registry[b].namespace == peer.namespace
            && (peer.scope == None || b in peer.scope.value))
      && (b in e.msg.items ==> e.msg.items[b] == t.registry[b])
  {
    PeersWereUsed(s);
    hide Sound, Step;
    StepShows(s, a, e);
  }

  /** Asking for a snapshot gets exactly one. */
  lemma SnapshotsAreSent(s: State, p: PeerId) returns (e: Envelope)
    requires p in s.peers && s.peers[p].open
    ensures e.to == p && e.msg.Snapshot? && Step(s, DoSnapshot(p)).sent == s.sent + multiset{e}
  {
    e := Envelope(p, Snapshot(Visible(s.registry, s.peers[p].namespace, s.peers[p].scope)));
    hide Visible;
  }

  // ---- What may be used ----------------------------------------------------

  lemma ReachIs(s: State, p: PeerId, b: BackendId)
    requires p in s.peers
    ensures PeerReaches(s, p, b) <==>
            && b in s.registry && s.registry[b].namespace == s.peers[p].namespace
            && (s.peers[p].scope == None || b in s.peers[p].scope.value)
  {
  }

  lemma ChannelsOfPeer(s: State, p: PeerId)
    ensures ChannelsAt(s, p)
            == set c | c in s.channels && (s.channels[c].client == Some(p) || s.channels[c].backend == p)
  {
  }

  lemma RefusedIs(s: State, p: PeerId, b: BackendId)
    requires p in s.peers
    ensures ChannelVerdict(s, p, b).Grant? ==>
              PeerReaches(s, p, b) && |ChannelsAt(s, p)| < s.config.maxChannels && b in s.leases
              && ChannelVerdict(s, p, b) == Grant(s.leases[b].epoch, s.leases[b].holder)
  {
    hide PeerReaches, ChannelsAt;
  }

  lemma SendKeepsTables(s: State, p: PeerId, msg: Message)
    ensures Send(s, p, msg).channels == s.channels && Send(s, p, msg).subs == s.subs
    ensures Send(s, p, msg).retained == s.retained
  {
  }

  lemma AddedIs(s: State, target: BackendId, client: Option<PeerId>, holder: PeerId, epoch: nat, draw: ChannelDraw,
                now: int)
    ensures var t := AddChannel(s, target, client, holder, epoch, draw, now);
      && draw.channel in t.channels && t.channels[draw.channel].client == client
      && t.channels[draw.channel].backendId == target && t.channels[draw.channel].backend == holder
  {
  }

  /**
   The answer to an open and to a subscribe, from the registry, the peer's namespace and scope, and its channels
   alone.
   */
  lemma RepliesFollowReach(s: State, p: PeerId, b: BackendId, topic: Topic, draw: ChannelDraw)
    requires Sound(s) && p in s.peers
    ensures var reach := && b in s.registry && s.registry[b].namespace == s.peers[p].namespace
                         && (s.peers[p].scope == None || b in s.peers[p].scope.value);
      var mine := set c | c in s.channels && (s.channels[c].client == Some(p) || s.channels[c].backend == p);
      && OpenReply(s, p, b, draw) == (if !reach then Error(Offline)
                                      else if |mine| >= s.config.maxChannels then Error(RateLimited)
                                      else ChannelReady(draw.channel, draw.clientTicket))
      && SubscribeReply(s, p, b, topic)[0] == (if reach then Subscribed(b, topic) else Error(Offline))
  {
    ReachIs(s, p, b);
    ChannelsOfPeer(s, p);
    VerdictOf(s, p, b);
    RefusedIs(s, p, b);
    hide Sound, ChannelVerdict, PeerReaches, ChannelsAt;
  }

  lemma AnswersAre(m: Message)
    ensures IsAnswer(m) <==> m.ChannelReady? || m.Subscribed? || m.Unsubscribed? || m.Error?
  {
  }

  lemma NewChannel(s: State, p: PeerId, b: BackendId, draw: ChannelDraw, now: int)
    requires Fresh(s, DoOpen(p, b, draw, now))
    ensures draw.channel !in s.channels
  {
  }

  /**
   What an open peer is answered to a `channel_open`: offline unless the backend is registered in its namespace and in
   its scope, refused beyond the cap, and otherwise the ticket; and then the channel is there, for this peer.
   */
  lemma OpensExactlyInReach(s: State, p: PeerId, b: BackendId, draw: ChannelDraw, now: int, m: Message)
    requires Sound(s) && p in s.peers && s.peers[p].open && Fresh(s, DoOpen(p, b, draw, now))
    requires m.ChannelReady? || m.Subscribed? || m.Unsubscribed? || m.Error?
    ensures var t := Step(s, DoOpen(p, b, draw, now));
      var reach := && b in s.registry && s.registry[b].namespace == s.peers[p].namespace
                   && (s.peers[p].scope == None || b in s.peers[p].scope.value);
      var mine := set c | c in s.channels && (s.channels[c].client == Some(p) || s.channels[c].backend == p);
      var answer := if !reach then Error(Offline)
                    else if |mine| >= s.config.maxChannels then Error(RateLimited)
                    else ChannelReady(draw.channel, draw.clientTicket);
      && t.sent[Envelope(p, m)] == s.sent[Envelope(p, m)] + (if m == answer then 1 else 0)
      && (draw.channel in t.channels <==> reach && |mine| < s.config.maxChannels)
      && (draw.channel in t.channels ==>
            t.channels[draw.channel].client == Some(p) && t.channels[draw.channel].backendId == b
            && b in s.leases && t.channels[draw.channel].backend == s.leases[b].holder)
  {
    hide Sound, Fresh, OpenChannel, OpenReply, Step, IsAnswer;
    RepliesFollowReach(s, p, b, "", draw);
    RequestsAreHandled(s, DoOpen(p, b, draw, now));
    Opening(s, p, b, draw, now, p);
    NewChannel(s, p, b, draw, now);
    OpenedChannel(s, p, b, draw, now);
    AnswersAre(m);
  }

  lemma OpenedChannel(s: State, p: PeerId, b: BackendId, draw: ChannelDraw, now: int)
    requires p in s.peers && draw.channel !in s.channels
    ensures var t := OpenChannel(s, p, b, draw, now);
      && (draw.channel in t.channels <==> OpenReply(s, p, b, draw).ChannelReady?)
      && (draw.channel in t.channels ==>
            t.channels[draw.channel].client == Some(p) && t.channels[draw.channel].backendId == b
            && b in s.leases && t.channels[draw.channel].backend == s.leases[b].holder)
  {
    hide ChannelVerdict, Send, AddChannel, ChannelsAt, PeerReaches;
    RefusedIs(s, p, b);
    match ChannelVerdict(s, p, b)
    case Refuse(code) => SendKeepsTables(s, p, Error(code));
    case Grant(epoch, holder) =>
      var t := AddChannel(s, b, Some(p), holder, epoch, draw, now);
      var offer := ChannelOffer(draw.channel, draw.backendTicket, Some(p));
      AddedIs(s, b, Some(p), holder, epoch, draw, now);
      SendKeepsTables(t, holder, offer);
      SendKeepsTables(Send(t, holder, offer), p, ChannelReady(draw.channel, draw.clientTicket));
  }

  /** The same of a subscription: acknowledged and entered in reach, refused as offline beyond it. */
  lemma SubscribesExactlyInReach(s: State, p: PeerId, b: BackendId, topic: Topic, m: Message)
    requires p in s.peers && s.peers[p].open
    requires m.ChannelReady? || m.Subscribed? || m.Unsubscribed? || m.Error?
    ensures var t := Step(s, DoSubscribe(p, b, topic));
      var reach := && b in s.registry && s.registry[b].namespace == s.peers[p].namespace
                   && (s.peers[p].scope == None || b in s.peers[p].scope.value);
      && t.sent[Envelope(p, m)]
         == s.sent[Envelope(p, m)] + (if m == (if reach then Subscribed(b, topic) else Error(Offline)) then 1 else 0)
      && (reach ==> b in t.subs && topic in t.subs[b] && p in t.subs[b][topic])
      && (!reach ==> t.subs == s.subs)
  {
    hide Step, Subscribe, PeerReaches, SubscribeReply, IsAnswer;
    RequestsAreHandled(s, DoSubscribe(p, b, topic));
    Subscribing(s, p, b, topic, p);
    SubscribedTopic(s, p, b, topic);
    ReachIs(s, p, b);
    FirstReplyIs(s, p, b, topic);
    AnswersAre(m);
  }

  lemma FirstReplyIs(s: State, p: PeerId, b: BackendId, topic: Topic)
    requires p in s.peers
    ensures SubscribeReply(s, p, b, topic)[0] == if PeerReaches(s, p, b) then Subscribed(b, topic) else Error(Offline)
  {
    hide PeerReaches;
  }

  lemma SubscribedTopic(s: State, p: PeerId, b: BackendId, topic: Topic)
    requires p in s.peers
    ensures var t := Subscribe(s, p, b, topic);
      && (PeerReaches(s, p, b) ==> b in t.subs && topic in t.subs[b] && p in t.subs[b][topic])
      && (!PeerReaches(s, p, b) ==> t.subs == s.subs)
  {
    hide PeerReaches, SubscribersOf, Send;
    var t := s.(subs := s.subs[b := TopicsOf(s.subs, b)[topic := SubscribersOf(s, b, topic) + {p}]]);
    var u := Send(t, p, Subscribed(b, topic));
    SendKeepsTables(s, p, Error(Offline));
    SendKeepsTables(t, p, Subscribed(b, topic));
    if topic in TopicsOf(s.retained, b) { SendKeepsTables(u, p, TopicMessage(b, topic, Some(s.retained[b][topic]))); }
  }
}
