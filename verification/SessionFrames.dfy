/** What the handlers leave alone besides the invariant: four relations between the states before and after. */
module SessionFrames {
  import opened Basics
  import opened CredentialStore
  import opened Session

  /** How often the gateway has closed q's socket with code 4001. */
  function Dismissals(s: State, q: PeerId): nat { s.sent[Envelope(q, CloseFrame(4001))] }

  /** No epoch is allocated, nobody is admitted, and nobody is closed with 4001. */
  ghost predicate Calm(s: State, t: State) {
    t.store.maxEpoch == s.store.maxEpoch && t.usedPeers == s.usedPeers
    && forall q :: Dismissals(t, q) == Dismissals(s, q)
  }

  /** The messages that answer a control request. */
  predicate IsAnswer(msg: Message) { msg.ChannelReady? || msg.Subscribed? || msg.Unsubscribed? || msg.Error? }

  /** No control request is answered. */
  ghost predicate Mute(s: State, t: State) {
    forall e: Envelope :: IsAnswer(e.msg) ==> t.sent[e] == s.sent[e]
  }

  /** The same person, who may have lost a claim or the connection but has not got one. */
  predicate NoPromotion(a: Peer, b: Peer) {
    && b.namespace == a.namespace && b.credential == a.credential && b.scope == a.scope
    && (b.claim == a.claim || b.claim.None?) && (b.open ==> a.open)
  }

  /** Peers and tickets are drawn once: neither comes back, and no peer gets another identity or a new claim. */
  ghost predicate Remembers(s: State, t: State) {
    && s.usedTickets <= t.usedTickets && s.usedPeers <= t.usedPeers
    && (forall k :: k in t.tickets ==> k in s.tickets || k !in s.usedTickets)
    && (forall p :: p in t.peers ==> (p in s.peers && NoPromotion(s.peers[p], t.peers[p])) || p !in s.usedPeers)
  }

  /** Nobody leaves, and no channel or subscription is added. */
  ghost predicate Tame(s: State, t: State) {
    && s.peers.Keys <= t.peers.Keys
    && (forall c :: c in t.channels ==> c in s.channels && t.channels[c].client == s.channels[c].client
                                        && t.channels[c].backendId == s.channels[c].backendId)
    && (forall b, k, p :: b in t.subs && k in t.subs[b] && p in t.subs[b][k] ==>
                            b in s.subs && k in s.subs[b] && p in s.subs[b][k])
  }

  ghost predicate Civil(s: State, t: State) { Calm(s, t) && Remembers(s, t) }

  ghost predicate Discreet(s: State, t: State) { Calm(s, t) && Mute(s, t) && Remembers(s, t) }

  ghost predicate Gentle(s: State, t: State) { Calm(s, t) && Mute(s, t) && Remembers(s, t) && Tame(s, t) }

  lemma CalmTrans(s: State, t: State, u: State)
    requires Calm(s, t) && Calm(t, u)
    ensures Calm(s, u)
  {
  }

  lemma MuteTrans(s: State, t: State, u: State)
    requires Mute(s, t) && Mute(t, u)
    ensures Mute(s, u)
  {
  }

  lemma CivilTrans(s: State, t: State, u: State)
    requires Civil(s, t) && Civil(t, u)
    ensures Civil(s, u)
  {
    hide Calm, Remembers;
    CalmTrans(s, t, u);
    RemembersTrans(s, t, u);
  }

  lemma RemembersTrans(s: State, t: State, u: State)
    requires Remembers(s, t) && Remembers(t, u)
    ensures Remembers(s, u)
  {
  }

  lemma TameTrans(s: State, t: State, u: State)
    requires Tame(s, t) && Tame(t, u)
    ensures Tame(s, u)
  {
  }

  lemma DiscreetTrans(s: State, t: State, u: State)
    requires Discreet(s, t) && Discreet(t, u)
    ensures Discreet(s, u)
  {
    hide Calm, Mute, Remembers;
    CalmTrans(s, t, u);
    MuteTrans(s, t, u);
    RemembersTrans(s, t, u);
  }

  lemma GentleTrans(s: State, t: State, u: State)
    requires Gentle(s, t) && Gentle(t, u)
    ensures Gentle(s, u)
  {
    hide Calm, Mute, Remembers, Tame;
    CalmTrans(s, t, u);
    MuteTrans(s, t, u);
    RemembersTrans(s, t, u);
    TameTrans(s, t, u);
  }

  lemma StillIsGentle(s: State)
    ensures Gentle(s, s)
  {
  }

  // ---- The pieces handlers are made of -------------------------------------

  lemma SendIsGentle(s: State, p: PeerId, msg: Message)
    requires msg != CloseFrame(CLOSE_REPLACED) && !IsAnswer(msg)
    ensures Gentle(s, Send(s, p, msg))
  {
    hide Gentle;
    StillIsGentle(s);
    SaidIsGentle(s, p, msg);
  }

  lemma SaidIsGentle(s: State, p: PeerId, msg: Message)
    requires msg != CloseFrame(CLOSE_REPLACED) && !IsAnswer(msg)
    ensures Gentle(s, s.(sent := s.sent + multiset{Envelope(p, msg)}))
  {
    var t := s.(sent := s.sent + multiset{Envelope(p, msg)});
    assert Remembers(s, t) && Tame(s, t);
    hide Remembers, Tame;
    assert forall q :: multiset{Envelope(p, msg)}[Envelope(q, CloseFrame(CLOSE_REPLACED))] == 0;
    assert forall e: Envelope :: IsAnswer(e.msg) ==> multiset{Envelope(p, msg)}[e] == 0;
  }

  lemma AnsweringIsCivil(s: State, p: PeerId, msg: Message)
    requires IsAnswer(msg)
    ensures Civil(s, Send(s, p, msg)) && Tame(s, Send(s, p, msg))
  {
    var t := s.(sent := s.sent + multiset{Envelope(p, msg)});
    assert Remembers(s, t) && Tame(s, t) && Remembers(s, s) && Tame(s, s);
    hide Remembers, Tame;
    assert forall q :: multiset{Envelope(p, msg)}[Envelope(q, CloseFrame(CLOSE_REPLACED))] == 0;
  }

  lemma BroadcastIsGentle(s: State, except: Option<PeerId>)
    ensures Gentle(s, Broadcast(s, except))
  {
    var news := Snapshots(s, except);
    assert GentleMail(news);
    hide Snapshots, GentleMail, Gentle;
    MailIsGentle(s, news);
  }

  lemma StoreIsGentle(s: State, store: Store)
    requires store.maxEpoch == s.store.maxEpoch
    ensures Gentle(s, s.(store := store))
  {
  }

  lemma TouchIsGentle(s: State, b: BackendId, root: Option<CredentialId>, now: int)
    ensures Gentle(s, TouchBackend(s, b, root, now))
  {
    StoreIsGentle(s, TouchIdentity(s.store, b, root, now));
  }

  lemma ClosingIsGentle(s: State, dead: set<ChannelId>, reason: Reason)
    ensures Gentle(s, CloseChannels(s, dead, reason))
  {
    hide Notices, TicketsOf;
  }

  lemma EndLeaseIsGentle(s: State, b: BackendId, reason: Reason)
    requires b in s.leases
    ensures Gentle(s, EndLease(s, b, reason))
  {
    hide CloseChannels, ChannelsOf;
    var mid := CloseChannels(s, ChannelsOf(s, b), reason);
    ClosingIsGentle(s, ChannelsOf(s, b), reason);
    hide Gentle;
    LosingIsGentle(mid, b, s.leases[b].holder);
    GentleTrans(s, mid, EndLease(s, b, reason));
  }

  lemma LosingIsGentle(s: State, b: BackendId, holder: PeerId)
    ensures Gentle(s, s.(leases := s.leases - {b}, registry := s.registry - {b}, subs := s.subs - {b},
                         retained := s.retained - {b},
                         peers := if holder in s.peers then s.peers[holder := s.peers[holder].(claim := None)]
                           else s.peers))
  {
  }

  lemma RemovalIsDiscreet(s: State, p: PeerId)
    ensures Discreet(s, RemovePeer(s, p))
  {
  }

  lemma FlagIsGentle(s: State, p: PeerId, alive: bool, open: bool)
    requires p in s.peers && (open ==> s.peers[p].open)
    ensures Gentle(s, s.(peers := s.peers[p := s.peers[p].(alive := alive, open := open)]))
  {
  }

  // ---- Channels ------------------------------------------------------------

  lemma AddingIsDiscreet(s: State, target: BackendId, client: Option<PeerId>, holder: PeerId, epoch: nat,
                         draw: ChannelDraw, now: int)
    requires draw.clientTicket !in s.usedTickets && draw.backendTicket !in s.usedTickets
    ensures Discreet(s, AddChannel(s, target, client, holder, epoch, draw, now))
  {
  }

  lemma OpeningIsCivil(s: State, p: PeerId, target: BackendId, draw: ChannelDraw, now: int)
    requires p in s.peers && FreshChannel(s, draw)
    ensures Civil(s, OpenChannel(s, p, target, draw, now))
  {
    hide ChannelVerdict, Send, AddChannel, Calm, Mute, Remembers, Tame;
    match ChannelVerdict(s, p, target)
    case Refuse(code) => AnsweringIsCivil(s, p, Error(code));
    case Grant(epoch, holder) =>
      var t := AddChannel(s, target, Some(p), holder, epoch, draw, now);
      var offer := ChannelOffer(draw.channel, draw.backendTicket, Some(p));
      var ready := ChannelReady(draw.channel, draw.clientTicket);
      AddingIsDiscreet(s, target, Some(p), holder, epoch, draw, now);
      SendIsGentle(t, holder, offer);
      AnsweringIsCivil(Send(t, holder, offer), p, ready);
      CivilTrans(s, t, Send(t, holder, offer));
      CivilTrans(s, Send(t, holder, offer), Send(Send(t, holder, offer), p, ready));
  }

  lemma ProxyIsDiscreet(s: State, token: Token, target: BackendId, limited: bool, draw: ChannelDraw, now: int)
    requires FreshChannel(s, draw)
    ensures Discreet(s, Proxy(s, token, target, limited, draw, now))
  {
    hide ProxyStatus, Send, AddChannel, Calm, Mute, Remembers, Tame, FindValid;
    var t := s.(store := FindValid(s.store, token, now));
    FindValidKeepsEpoch(s.store, token, now);
    StoreIsGentle(s, t.store);
    if ProxyStatus(s, token, target, limited, now) == 0 {
      StatusMeansLeased(s, token, target, limited, now);
      var lease := s.leases[target];
      var u := AddChannel(t, target, None, lease.holder, lease.epoch, draw, now);
      var offer := ChannelOffer(draw.channel, draw.backendTicket, None);
      AddingIsDiscreet(t, target, None, lease.holder, lease.epoch, draw, now);
      SendIsGentle(u, lease.holder, offer);
      DiscreetTrans(s, t, u);
      DiscreetTrans(s, u, Send(u, lease.holder, offer));
    }
  }

  lemma StatusMeansLeased(s: State, token: Token, target: BackendId, limited: bool, now: int)
    requires ProxyStatus(s, token, target, limited, now) == 0
    ensures target in s.leases
  {
  }

  lemma FindValidKeepsEpoch(s: Store, token: Token, now: int)
    ensures FindValid(s, token, now).maxEpoch == s.maxEpoch
  {
  }

  lemma CloseOneIsGentle(s: State, p: PeerId, c: ChannelId, reason: Reason)
    ensures Gentle(s, RejectChannel(s, p, c)) && Gentle(s, CloseChannel(s, p, c))
    ensures Gentle(s, PairingTimeout(s, c)) && Gentle(s, LegClosed(s, c)) && Gentle(s, HttpGone(s, c, reason))
  {
    hide CloseChannels, Gentle;
    StillIsGentle(s);
    ClosingIsGentle(s, {c}, Session.Rejected);
    ClosingIsGentle(s, {c}, Closed);
    ClosingIsGentle(s, {c}, TimedOut);
    ClosingIsGentle(s, {c}, reason);
  }

  lemma AttachIsGentle(s: State, dial: Dial, socket: Socket)
    ensures Gentle(s, Attach(s, dial, socket))
  {
    if dial in s.dials && dial.channel in s.channels {
      WithLegKeepsEnds(s.channels[dial.channel], dial.end, socket);
    }
    hide WithLeg;
  }

  lemma WithLegKeepsEnds(ch: Channel, end: End, socket: Socket)
    ensures WithLeg(ch, end, socket).client == ch.client && WithLeg(ch, end, socket).backendId == ch.backendId
  {
  }

  lemma ChannelStepIsDiscreet(s: State, a: Action)
    requires AboutOneChannel(a) && Fresh(s, a)
    ensures Civil(s, ChannelStep(s, a)) && (!a.DoOpen? ==> Discreet(s, ChannelStep(s, a)))
    ensures !a.DoOpen? && !a.DoProxy? ==> Gentle(s, ChannelStep(s, a))
  {
    hide OpenChannel, RejectChannel, CloseChannel, Proxy, Attach, PairingTimeout, LegClosed, HttpGone;
    hide Calm, Mute, Remembers, Tame;
    StillIsGentle(s);
    match a {
      case DoOpen(p, target, ids, now) => if p in s.peers { OpeningIsCivil(s, p, target, ids, now); }
      case DoReject(p, c) => CloseOneIsGentle(s, p, c, Closed);
      case DoClose(p, c) => CloseOneIsGentle(s, p, c, Closed);
      case DoProxy(token, target, limited, ids, now) => ProxyIsDiscreet(s, token, target, limited, ids, now);
      case DoAttach(dial, socket) => AttachIsGentle(s, dial, socket);
      case DoPairingTimeout(c, now) => CloseOneIsGentle(s, 0, c, Closed);
      case DoLegClosed(c) => CloseOneIsGentle(s, 0, c, Closed);
      case DoHttpGone(c, reason) => CloseOneIsGentle(s, 0, c, reason);
    }
  }

  // ---- Peers and topics ----------------------------------------------------

  lemma AbdicationIsGentle(s: State, p: PeerId, now: int)
    ensures Gentle(s, Abdicate(s, p, now))
  {
    hide EndLease, Broadcast, TouchBackend, Gentle;
    StillIsGentle(s);
    if IsOwner(s, p) {
      var b := s.peers[p].claim.value.backendId;
      var ended := EndLease(s, b, BackendOffline);
      var told := Broadcast(ended, Some(p));
      EndLeaseIsGentle(s, b, BackendOffline);
      BroadcastIsGentle(ended, Some(p));
      TouchIsGentle(told, b, None, now);
      GentleTrans(s, ended, told);
      GentleTrans(s, told, TouchBackend(told, b, None, now));
    }
  }

  lemma DepartureIsDiscreet(s: State, p: PeerId, claim: Option<Claim>)
    ensures Discreet(s, Depart(s, p, claim))
  {
    hide CloseChannels, ChannelsAt, Forgotten, Calm, Mute, Remembers, Tame, RemovePeer;
    var u := CloseChannels(s, ChannelsAt(s, p), Closed);
    ClosingIsGentle(s, ChannelsAt(s, p), Closed);
    var v := u.(subs := Forgotten(u.subs, p));
    var w := if claim.Some? then v.(subs := v.subs - {claim.value.backendId},
                                    retained := v.retained - {claim.value.backendId}) else v;
    TopicsAreDiscreet(u, w.subs, w.retained);
    RemovalIsDiscreet(w, p);
    DiscreetTrans(s, u, w);
    DiscreetTrans(s, w, RemovePeer(w, p));
  }

  lemma TopicsAreDiscreet(s: State, subs: map<BackendId, map<Topic, set<PeerId>>>,
                          retained: map<BackendId, map<Topic, Payload>>)
    ensures Discreet(s, s.(subs := subs, retained := retained)) && Discreet(s, s.(subs := subs))
  {
  }

  lemma DisconnectIsDiscreet(s: State, p: PeerId, now: int)
    ensures Discreet(s, Disconnect(s, p, now))
  {
    hide Abdicate, Depart, Calm, Mute, Remembers, Tame;
    StillIsGentle(s);
    if p in s.peers {
      AbdicationIsGentle(s, p, now);
      DepartureIsDiscreet(Abdicate(s, p, now), p, s.peers[p].claim);
      DiscreetTrans(s, Abdicate(s, p, now), Disconnect(s, p, now));
    }
  }

  lemma LivenessIsDiscreet(s: State, p: PeerId, now: int)
    ensures Discreet(s, SocketClosed(s, p, now)) && Discreet(s, PingPeer(s, p, now)) && Gentle(s, Pong(s, p))
  {
    hide Disconnect, Calm, Mute, Remembers, Tame;
    StillIsGentle(s);
    DisconnectIsDiscreet(s, p, now);
    if p in s.peers {
      var peer := s.peers[p];
      var closing := s.(peers := s.peers[p := peer.(open := false)]);
      FlagIsGentle(s, p, peer.alive, false);
      FlagIsGentle(s, p, false, peer.open);
      FlagIsGentle(s, p, true, peer.open);
      DisconnectIsDiscreet(closing, p, now);
      DiscreetTrans(s, closing, Disconnect(closing, p, now));
    }
  }

  lemma ExpiryIsDiscreet(s: State, b: BackendId, now: int)
    ensures Discreet(s, CheckLease(s, b, now))
  {
    hide EndLease, Broadcast, TouchBackend, RemovePeer, Calm, Mute, Remembers, Tame;
    StillIsGentle(s);
    if LeaseStale(s, b, now) {
      var ended := EndLease(s, b, BackendOffline);
      var told := Broadcast(ended, None);
      var touched := TouchBackend(told, b, None, now);
      EndLeaseIsGentle(s, b, BackendOffline);
      BroadcastIsGentle(ended, None);
      TouchIsGentle(told, b, None, now);
      RemovalIsDiscreet(touched, s.leases[b].holder);
      DiscreetTrans(s, ended, told);
      DiscreetTrans(s, told, touched);
      DiscreetTrans(s, touched, RemovePeer(touched, s.leases[b].holder));
    }
  }

  lemma SubscribingIsCivil(s: State, p: PeerId, b: BackendId, topic: Topic)
    requires p in s.peers
    ensures Civil(s, Subscribe(s, p, b, topic))
  {
    hide SubscribersOf, PeerReaches, Send, Calm, Mute, Remembers, Tame;
    AnsweringIsCivil(s, p, Error(Offline));
    var t := s.(subs := s.subs[b := TopicsOf(s.subs, b)[topic := SubscribersOf(s, b, topic) + {p}]]);
    var u := Send(t, p, Subscribed(b, topic));
    TopicsAreDiscreet(s, t.subs, s.retained);
    AnsweringIsCivil(t, p, Subscribed(b, topic));
    CivilTrans(s, t, u);
    if topic in TopicsOf(s.retained, b) {
      var late := TopicMessage(b, topic, Some(s.retained[b][topic]));
      SendIsGentle(u, p, late);
      CivilTrans(s, u, Send(u, p, late));
    }
  }

  lemma UnsubscribingIsCivil(s: State, p: PeerId, b: BackendId, topic: Topic)
    ensures Civil(s, Unsubscribe(s, p, b, topic)) && Tame(s, Unsubscribe(s, p, b, topic))
  {
    hide Send;
    var t := if b in s.subs && topic in s.subs[b]
             then s.(subs := s.subs[b := s.subs[b][topic := s.subs[b][topic] - {p}]]) else s;
    assert Civil(s, t) && Tame(s, t);
    hide Civil, Tame;
    AnsweringIsCivil(t, p, Unsubscribed(b, topic));
    CivilTrans(s, t, Send(t, p, Unsubscribed(b, topic)));
    TameTrans(s, t, Send(t, p, Unsubscribed(b, topic)));
  }

  lemma FewerTicketsIsGentle(s: State, tickets: map<TicketToken, Ticket>, dials: set<Dial>)
    requires tickets.Keys <= s.tickets.Keys
    ensures Gentle(s, s.(tickets := tickets, dials := dials))
  {
  }

  lemma TicketsAreGentle(s: State, ticket: TicketToken, c: ChannelId, dial: Dial, now: int)
    ensures Gentle(s, ConsumeTicket(s, ticket, c, now)) && Gentle(s, DropStaleTickets(s, now))
    ensures Gentle(s, s.(dials := s.dials - {dial}))
  {
    hide DialAccepted, Gentle;
    FewerTicketsIsGentle(s, ConsumeTicket(s, ticket, c, now).tickets, ConsumeTicket(s, ticket, c, now).dials);
    FewerTicketsIsGentle(s, DropStaleTickets(s, now).tickets, s.dials);
    FewerTicketsIsGentle(s, s.tickets, s.dials - {dial});
  }

  lemma SnapshotIsGentle(s: State, p: PeerId)
    requires p in s.peers
    ensures Gentle(s, RequestSnapshot(s, p))
  {
    hide Gentle, Send, Visible;
    SendIsGentle(s, p, Snapshot(Visible(s.registry, s.peers[p].namespace, s.peers[p].scope)));
  }

  lemma PeerStepIsDiscreet(s: State, a: Action)
    requires !AboutOneChannel(a) && !AboutAnOwner(a)
    ensures Civil(s, PeerStep(s, a)) && (!a.DoSubscribe? && !a.DoUnsubscribe? ==> Discreet(s, PeerStep(s, a)))
    ensures !a.DoSubscribe? && !a.DoPing? && !a.DoSocketClosed? ==> Tame(s, PeerStep(s, a))
  {
    hide RequestSnapshot, Subscribe, Unsubscribe, ConsumeTicket, DropStaleTickets, PingPeer, Pong, SocketClosed,
         Broadcast;
    hide Calm, Mute, Remembers, Tame;
    StillIsGentle(s);
    match a {
      case DoSnapshot(p) => if p in s.peers { SnapshotIsGentle(s, p); }
      case DoSubscribe(p, b, topic) => if p in s.peers { SubscribingIsCivil(s, p, b, topic); }
      case DoUnsubscribe(p, b, topic) => UnsubscribingIsCivil(s, p, b, topic);
      case DoDial(ticket, c, now) => TicketsAreGentle(s, ticket, c, Dial(c, ClientEnd), now);
      case DoAbortDial(dial) => TicketsAreGentle(s, 0, 0, dial, 0);
      case DoTicketCleanup(now) => TicketsAreGentle(s, 0, 0, Dial(0, ClientEnd), now);
      case DoPing(p, now) => LivenessIsDiscreet(s, p, now);
      case DoPong(p) => LivenessIsDiscreet(s, p, 0);
      case DoSocketClosed(p, now) => LivenessIsDiscreet(s, p, now);
      case DoPoll => BroadcastIsGentle(s, None);
    }
  }

  // ---- Owners --------------------------------------------------------------

  lemma HeartbeatIsGentle(s: State, p: PeerId, epoch: nat, now: int)
    ensures Gentle(s, Heartbeat(s, p, epoch, now))
  {
    hide Send, Calm, Mute, Remembers, Tame;
    StillIsGentle(s);
    if IsOwner(s, p) && s.peers[p].claim.value.epoch == epoch {
      var b := s.peers[p].claim.value.backendId;
      var t := s.(leases := s.leases[b := s.leases[b].(heartbeatAt := now)]);
      var u := if b in t.registry then t.(registry := t.registry[b := t.registry[b].(lastSeenAt := now)]) else t;
      LeasesAreGentle(s, u.leases, u.registry);
      SendIsGentle(u, p, HeartbeatAck(epoch));
      GentleTrans(s, u, Send(u, p, HeartbeatAck(epoch)));
    }
  }

  lemma LeasesAreGentle(s: State, leases: map<BackendId, Lease>, registry: Registry)
    ensures Gentle(s, s.(leases := leases, registry := registry)) && Gentle(s, s.(leases := leases))
  {
  }

  lemma RelayingIsGentle(s: State, p: PeerId, b: BackendId, target: Option<PeerId>, payload: Option<Payload>)
    ensures Gentle(s, Relay(s, p, b, target, payload))
  {
    hide Gentle, Send, CanReach;
    StillIsGentle(s);
    if target.Some? { SendIsGentle(s, target.value, Relayed(b, payload)); }
  }

  lemma PublishingIsGentle(s: State, p: PeerId, topic: Topic, payload: Option<Payload>, retain: bool)
    ensures Gentle(s, Publish(s, p, topic, payload, retain))
  {
    hide Calm, Mute, Remembers, Tame, Deliveries, Retain, GentleMail;
    StillIsGentle(s);
    if IsOwner(s, p) {
      var claim := s.peers[p].claim.value;
      var t := if retain && payload.Some? then Retain(s, claim, topic, payload.value) else s;
      if retain && payload.Some? { RetainingIsGentle(s, claim, topic, payload.value); }
      var news := Deliveries(s, claim.backendId, topic, payload);
      DeliveriesAreMail(s, claim.backendId, topic, payload);
      MailIsGentle(t, news);
      GentleTrans(s, t, t.(sent := t.sent + multiset(news)));
    }
  }

  /** Envelopes none of which is a dismissal or an answer. */
  ghost predicate GentleMail(news: set<Envelope>) {
    forall e :: e in news ==> e.msg != CloseFrame(CLOSE_REPLACED) && !IsAnswer(e.msg)
  }

  lemma DeliveriesAreMail(s: State, b: BackendId, topic: Topic, payload: Option<Payload>)
    ensures GentleMail(Deliveries(s, b, topic, payload))
  {
  }

  lemma MailIsGentle(s: State, news: set<Envelope>)
    requires GentleMail(news)
    ensures Gentle(s, s.(sent := s.sent + multiset(news)))
  {
    var t := s.(sent := s.sent + multiset(news));
    assert Remembers(s, t) && Tame(s, t);
    hide Remembers, Tame;
    assert forall q :: Envelope(q, CloseFrame(CLOSE_REPLACED)) !in news;
    assert forall e: Envelope :: IsAnswer(e.msg) ==> e !in news;
  }

  lemma RetainingIsGentle(s: State, claim: Claim, topic: Topic, payload: Payload)
    ensures Gentle(s, Retain(s, claim, topic, payload))
  {
    hide Gentle;
    var topics := TopicsOf(s.retained, claim.backendId);
    var full := s.retained[claim.backendId := topics];
    PublishedIsGentle(s, full, s.published);
    PublishedIsGentle(s, s.retained[claim.backendId := topics[topic := payload]],
                      s.published[(claim.backendId, topic) := (claim.epoch, payload)]);
  }

  lemma PublishedIsGentle(s: State, retained: map<BackendId, map<Topic, Payload>>,
                          published: map<(BackendId, Topic), (nat, Payload)>)
    ensures Gentle(s, s.(retained := retained, published := published)) && Gentle(s, s.(retained := retained))
  {
  }

  lemma PolicyClosesAreGentle(s: State, ids: set<CredentialId>)
    ensures Gentle(s, s.(sent := CloseCredentials(s, ids).sent))
  {
    hide Gentle;
    var news := set p | p in s.peers && s.peers[p].open && s.peers[p].credential in ids
                  :: Envelope(p, CloseFrame(CLOSE_POLICY));
    assert GentleMail(news);
    assert CloseCredentials(s, ids).sent == s.sent + multiset(news);
    hide CloseCredentials, GentleMail;
    MailIsGentle(s, news);
  }

  lemma ShutPeersAreGentle(s: State, peers: map<PeerId, Peer>)
    requires peers.Keys == s.peers.Keys && forall p :: p in peers ==> NoPromotion(s.peers[p], peers[p])
    ensures Gentle(s, s.(peers := peers))
  {
  }

  lemma PolicyClosesKeepPeople(s: State, ids: set<CredentialId>)
    ensures var t := CloseCredentials(s, ids);
      && t == s.(sent := t.sent).(peers := t.peers)
      && t.peers.Keys == s.peers.Keys && forall p :: p in t.peers ==> NoPromotion(s.peers[p], t.peers[p])
  {
  }

  lemma CloseCredentialsIsGentle(s: State, ids: set<CredentialId>)
    ensures Gentle(s, CloseCredentials(s, ids))
  {
    hide Gentle, CloseCredentials, NoPromotion;
    var t := CloseCredentials(s, ids);
    PolicyClosesAreGentle(s, ids);
    PolicyClosesKeepPeople(s, ids);
    ShutPeersAreGentle(s.(sent := t.sent), t.peers);
    GentleTrans(s, s.(sent := t.sent), t);
  }

  lemma {:induction false} RevokingKeepsEpoch(s: Store, ids: seq<CredentialId>, now: int)
    ensures RevokeCredentials(s, ids, now).maxEpoch == s.maxEpoch
    decreases |ids|
  {
    if ids != [] { RevokingKeepsEpoch(RevokeCredential(s, ids[0], now), ids[1..], now); }
  }

  lemma AdminKeepsEpoch(s: Store, op: Op)
    requires AdminOp(op)
    ensures Apply(s, op).maxEpoch == s.maxEpoch
  {
    hide Resolve, Usable, ScopeKnown, Known, InUse, LiveFamily, AccessOf, Expiry;
    if op.Revoke? { RevokingKeepsEpoch(s, op.ids, op.now); }
    hide RevokeCredentials;
  }

  lemma AdministeringIsGentle(s: State, op: Op)
    requires AdminOp(op)
    ensures Gentle(s, Administer(s, op))
  {
    hide Apply, Gentle, Disconnected, CloseCredentials;
    var asked := if op.Forget? then op.(online := op.backendId in s.registry) else op;
    var after := Apply(s.store, asked);
    var t := s.(store := after);
    AdminKeepsEpoch(s.store, asked);
    StoreIsGentle(s, after);
    CloseCredentialsIsGentle(t, Disconnected(s.store, op, after));
    GentleTrans(s, t, Administer(s, op));
  }

  lemma OwnerStepIsDiscreet(s: State, a: Action)
    requires AboutAnOwner(a) && !a.DoHello?
    ensures Discreet(s, OwnerStep(s, a))
    ensures !a.DoCheckLease? ==> Gentle(s, OwnerStep(s, a))
  {
    hide Heartbeat, Relay, Publish, CheckLease, Administer, Calm, Mute, Remembers, Tame;
    StillIsGentle(s);
    match a {
      case DoHeartbeat(p, epoch, now) => HeartbeatIsGentle(s, p, epoch, now);
      case DoRelay(p, b, target, payload) => RelayingIsGentle(s, p, b, target, payload);
      case DoPublish(p, topic, payload, retain) => PublishingIsGentle(s, p, topic, payload, retain);
      case DoCheckLease(b, now) => ExpiryIsDiscreet(s, b, now);
      case DoAdmin(op) => if AdminOp(op) { AdministeringIsGentle(s, op); }
    }
  }

  // ---- Hellos --------------------------------------------------------------

  /** What a hello does: no request is answered, no ticket or person changes, no channel or subscription is added. */
  ghost predicate Kindly(s: State, t: State) { Mute(s, t) && Remembers(s, t) && Tame(s, t) }

  lemma KindlyTrans(s: State, t: State, u: State)
    requires Kindly(s, t) && Kindly(t, u)
    ensures Kindly(s, u)
  {
    hide Mute, Remembers, Tame;
    MuteTrans(s, t, u);
    RemembersTrans(s, t, u);
    TameTrans(s, t, u);
  }

  lemma HelloStoreIsKindly(s: State, store: Store)
    ensures Kindly(s, s.(store := store))
  {
  }

  lemma SpeakingIsKindly(s: State, p: PeerId, status: nat)
    ensures Kindly(s, s.(sent := s.sent + multiset{Envelope(p, CloseFrame(status))}))
  {
    var t := s.(sent := s.sent + multiset{Envelope(p, CloseFrame(status))});
    assert Remembers(s, t) && Tame(s, t);
    hide Remembers, Tame;
    assert forall e: Envelope :: IsAnswer(e.msg) ==> multiset{Envelope(p, CloseFrame(status))}[e] == 0;
  }

  lemma CloseSocketIsKindly(s: State, p: PeerId, status: nat)
    ensures Kindly(s, CloseSocket(s, p, status))
  {
    hide Calm, Mute, Remembers, Tame;
    StillIsGentle(s);
    if Open(s, p) {
      var told := s.(sent := s.sent + multiset{Envelope(p, CloseFrame(status))});
      SpeakingIsKindly(s, p, status);
      FlagIsGentle(told, p, s.peers[p].alive, false);
      KindlyTrans(s, told, CloseSocket(s, p, status));
    }
  }

  lemma ReplacingIsKindly(s: State, b: BackendId)
    requires b in s.leases
    ensures Kindly(s, ReplaceOwner(s, b))
  {
    hide EndLease, CloseSocket, Calm, Mute, Remembers, Tame;
    var ended := EndLease(s, b, EpochChanged);
    EndLeaseIsGentle(s, b, EpochChanged);
    CloseSocketIsKindly(ended, s.leases[b].holder, CLOSE_REPLACED);
    KindlyTrans(s, ended, ReplaceOwner(s, b));
  }

  lemma SeatingIsKindly(s: State, leases: map<BackendId, Lease>, store: Store, registry: Registry)
    ensures Kindly(s, s.(leases := leases, store := store, registry := registry))
  {
  }

  lemma GrantingIsKindly(s: State, p: PeerId, b: BackendId, namespace: Namespace, root: CredentialId, now: int)
    ensures Kindly(s, GrantLease(s, p, b, namespace, root, now))
  {
    hide ReplaceOwner, Kindly, TouchIdentity;
    var t := s.(store := AllocateEpoch(s.store));
    HelloStoreIsKindly(s, t.store);
    var u := if b in t.leases then ReplaceOwner(t, b) else t;
    if b in t.leases {
      ReplacingIsKindly(t, b);
      KindlyTrans(s, t, u);
    }
    var granted := GrantLease(s, p, b, namespace, root, now);
    SeatingIsKindly(u, granted.leases, granted.store, granted.registry);
    KindlyTrans(s, u, granted);
  }

  lemma JoiningIsKindly(s: State, p: PeerId, peer: Peer)
    requires p !in s.usedPeers
    ensures Kindly(s, AddPeer(s, p, peer))
  {
    hide Send, Visible, Calm, GentleMail;
    var t := s.(peers := s.peers[p := peer], usedPeers := s.usedPeers + {p});
    assert Kindly(s, t);
    hide Mute, Remembers, Tame;
    SendIsGentle(t, p, PeerReady(peer.claim, Visible(s.registry, peer.namespace, peer.scope)));
    KindlyTrans(s, t, AddPeer(s, p, peer));
  }

  lemma AdmittingIsKindly(s: State, h: Hello, id: CredentialId, p: PeerId, draw: Draw, now: int)
    requires id in s.store.credentials && p !in s.usedPeers
    ensures Kindly(s, Admit(s, h, id, p, draw, now))
  {
    hide GrantLease, AddPeer, Broadcast, RegisteredStore, RegisteredId, Calm, Mute, Remembers, Tame;
    var c := s.store.credentials[id];
    var scope := if c.kind == Device then c.scope else None;
    if !h.backend {
      JoiningIsKindly(s, p, Peer(h.namespace, id, scope, None, true, true));
    } else {
      var b := RegisteredId(s.store, c, h, draw);
      var root := if c.parent.Some? then c.parent.value else id;
      var ready := s.(store := RegisteredStore(s.store, c, h, draw, now));
      var t := GrantLease(ready, p, b, h.namespace, root, now);
      HelloStoreIsKindly(s, ready.store);
      GrantingIsKindly(ready, p, b, h.namespace, root, now);
      KindlyTrans(s, ready, t);
      GrantLeaseKeepsUsed(ready, p, b, h.namespace, root, now);
      var joined := AddPeer(t, p, Peer(h.namespace, id, scope, Some(Claim(b, t.leases[b].epoch)), true, true));
      JoiningIsKindly(t, p, Peer(h.namespace, id, scope, Some(Claim(b, t.leases[b].epoch)), true, true));
      BroadcastIsGentle(joined, Some(p));
      KindlyTrans(s, t, joined);
      KindlyTrans(s, joined, Broadcast(joined, Some(p)));
    }
  }

  lemma GrantLeaseKeepsUsed(s: State, p: PeerId, b: BackendId, namespace: Namespace, root: CredentialId, now: int)
    ensures GrantLease(s, p, b, namespace, root, now).usedPeers == s.usedPeers
    ensures b in GrantLease(s, p, b, namespace, root, now).leases
  {
    hide CloseChannels, TouchIdentity;
    var t := s.(store := AllocateEpoch(s.store));
    if b in t.leases { assert CloseChannels(t, ChannelsOf(t, b), EpochChanged).usedPeers
                      == s.usedPeers by { ClosingKeepsUsed(t, b); } }
  }

  lemma ClosingKeepsUsed(s: State, b: BackendId)
    ensures CloseChannels(s, ChannelsOf(s, b), EpochChanged).usedPeers == s.usedPeers
  {
    hide Notices, TicketsOf, ChannelsOf;
  }

  lemma GreetingIsKindly(s: State, h: Hello, spent: bool, p: PeerId, draw: Draw, now: int)
    requires p !in s.usedPeers
    ensures Kindly(s, Greet(s, h, spent, p, draw, now))
  {
    hide Admit, Kindly, FindValid;
    var t := s.(store := FindValid(s.store, h.token, now));
    HelloStoreIsKindly(s, t.store);
    match JudgeHello(s.store, h, spent, now)
    case Denied(_) =>
    case Admitted(id) =>
      FindValidKeepsIds(s.store, h.token, now, id);
      AdmittingIsKindly(t, h, id, p, draw, now);
      KindlyTrans(s, t, Admit(t, h, id, p, draw, now));
  }

  lemma FindValidKeepsIds(s: Store, token: Token, now: int, id: CredentialId)
    requires id in s.credentials
    ensures id in FindValid(s, token, now).credentials
  {
  }

  // ---- Every step ----------------------------------------------------------

  /** Peers and tickets are remembered by every step; only hellos are not calm. */
  lemma StepRemembers(s: State, a: Action)
    requires Fresh(s, a)
    ensures Remembers(s, Step(s, a))
    ensures !a.DoHello? ==> Calm(s, Step(s, a))
  {
    hide ChannelStep, PeerStep, Greet, Calm, Mute, Remembers, Tame;
    if AboutOneChannel(a) {
      ChannelStepIsDiscreet(s, a);
    } else if a.DoHello? {
      GreetingIsKindly(s, a.h, a.spent, a.p, a.draw, a.now);
    } else if AboutAnOwner(a) {
      OwnerStepIsDiscreet(s, a);
    } else {
      PeerStepIsDiscreet(s, a);
    }
  }

  predicate Asks(a: Action) { a.DoOpen? || a.DoSubscribe? || a.DoUnsubscribe? }

  /** Only the control requests are answered. */
  lemma StepIsMute(s: State, a: Action)
    requires Fresh(s, a) && !Asks(a)
    ensures Mute(s, Step(s, a))
  {
    hide ChannelStep, PeerStep, Greet, Calm, Mute, Remembers, Tame;
    if AboutOneChannel(a) {
      ChannelStepIsDiscreet(s, a);
    } else if a.DoHello? {
      GreetingIsKindly(s, a.h, a.spent, a.p, a.draw, a.now);
    } else if AboutAnOwner(a) {
      OwnerStepIsDiscreet(s, a);
    } else {
      PeerStepIsDiscreet(s, a);
    }
  }

  predicate Untame(a: Action) {
    a.DoOpen? || a.DoProxy? || a.DoSubscribe? || a.DoPing? || a.DoSocketClosed? || a.DoCheckLease?
  }

  lemma StepIsTame(s: State, a: Action)
    requires Fresh(s, a) && !Untame(a)
    ensures Tame(s, Step(s, a))
  {
    hide ChannelStep, PeerStep, Greet, Calm, Mute, Remembers, Tame;
    if AboutOneChannel(a) {
      ChannelStepIsDiscreet(s, a);
    } else if a.DoHello? {
      GreetingIsKindly(s, a.h, a.spent, a.p, a.draw, a.now);
    } else if AboutAnOwner(a) {
      OwnerStepIsDiscreet(s, a);
    } else {
      PeerStepIsDiscreet(s, a);
    }
  }
}
