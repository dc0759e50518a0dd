/** Whose connections are open: those of present, unrevoked credentials, with the reach these give. */
module Entitlement {
  import opened Basics
  import opened CredentialStore
  import opened StoreProofs
  import opened Session
  import opened SessionProofs
  import opened SessionSteps
  import opened SessionFrames

  // ---- What becomes of a credential ----------------------------------------

  /** The same credential, as far as a connection made with it goes. */
  predicate SameReach(a: Credential, b: Credential) {
    b.namespace == a.namespace && b.kind == a.kind && b.scope == a.scope && (a.Active() ==> b.Active())
  }

  ghost predicate RowsStay(s: Store, t: Store) {
    forall id :: id in s.credentials ==> id in t.credentials && SameReach(s.credentials[id], t.credentials[id])
  }

  lemma RowsStayTrans(s: Store, t: Store, u: Store)
    requires RowsStay(s, t) && RowsStay(t, u)
    ensures RowsStay(s, u)
  {
  }

  lemma LookupKeepsRows(s: Store, token: Token, now: int)
    ensures RowsStay(s, FindValid(s, token, now))
  {
  }

  /** What revoking a list of ids does to each row, whatever their order: the unrevoked of the list and its children. */
  lemma RevokedRow(s: Store, ids: seq<CredentialId>, now: int, id: CredentialId)
    requires Inv(s) && id in s.credentials
    ensures var t, row := RevokeCredentials(s, ids, now), s.credentials[id];
      && t.credentials.Keys == s.credentials.Keys
      && t.credentials[id] == if row.revokedAt == None && (id in ids || (row.parent.Some? && row.parent.value in ids))
                              then row.(revokedAt := Some(now)) else row
  {
    InvMeansFlat(s);
    RevocationOrderIrrelevant(s, ids, now);
  }

  /** An unrevoked row a store operation does not disconnect stays as it is. */
  lemma OperationKeepsRow(s: Store, op: Op, id: CredentialId)
    requires Inv(s) && DrawsFresh(s, op) && AdminOp(op) && id in s.credentials && s.credentials[id].Active()
    requires id !in Disconnected(s, op, Apply(s, op))
    ensures id in Apply(s, op).credentials && SameReach(s.credentials[id], Apply(s, op).credentials[id])
  {
    match op
    case Exchange(token, ttl, draw, now) => ExchangeKeepsRow(s, token, ttl, draw, now, id);
    case Revoke(ids, now) => RevokedRow(s, ids, now, id);
    case Authenticate(token, now) => LookupKeepsRows(s, token, now);
    case _ =>
  }

  lemma ExchangeKeepsRow(s: Store, token: Token, ttl: Ttl, draw: Draw, now: int, id: CredentialId)
    requires Inv(s) && FreshDraw(s, draw) && id in s.credentials && s.credentials[id].Active()
    ensures var t := ExchangeRoute(s, token, ttl, draw, now);
      id in t.credentials && SameReach(s.credentials[id], t.credentials[id])
  {
    LookupKeepsRows(s, token, now);
    var e, seen := Resolve(s, token, now), FindValid(s, token, now);
    if e.Some? && AccessOf(seen, e.value) == Some(id) { assert AccessRow(seen, id, e.value); }
  }

  // ---- Steps other than administration -------------------------------------

  lemma BroadcastKeepsStore(s: State, except: Option<PeerId>)
    ensures Broadcast(s, except).store == s.store
  {
    hide Snapshots;
  }

  lemma EndingKeepsStore(s: State, b: BackendId, reason: Reason)
    requires b in s.leases
    ensures EndLease(s, b, reason).store == s.store
  {
    hide CloseChannels, ChannelsOf;
    ClosingKeepsStore(s, ChannelsOf(s, b), reason);
  }

  lemma ReplacingKeepsStore(s: State, b: BackendId)
    requires b in s.leases
    ensures ReplaceOwner(s, b).store == s.store
  {
    hide EndLease, Send;
    var ended, holder := EndLease(s, b, EpochChanged), s.leases[b].holder;
    EndingKeepsStore(s, b, EpochChanged);
    SendKeepsStore(ended, holder, CloseFrame(CLOSE_REPLACED));
  }

  lemma SendKeepsStore(s: State, p: PeerId, msg: Message)
    ensures Send(s, p, msg).store == s.store && Send(s, p, msg).peers == s.peers
  {
  }

  lemma AddingKeepsStore(s: State, target: BackendId, client: Option<PeerId>, holder: PeerId, epoch: nat,
                         draw: ChannelDraw, now: int)
    ensures AddChannel(s, target, client, holder, epoch, draw, now).store == s.store
  {
  }

  lemma OpeningKeepsStore(s: State, p: PeerId, target: BackendId, draw: ChannelDraw, now: int)
    requires p in s.peers
    ensures OpenChannel(s, p, target, draw, now).store == s.store
  {
    hide ChannelVerdict, Send, AddChannel;
    match ChannelVerdict(s, p, target)
    case Refuse(code) => SendKeepsStore(s, p, Error(code));
    case Grant(epoch, holder) =>
      var t := AddChannel(s, target, Some(p), holder, epoch, draw, now);
      var offer := ChannelOffer(draw.channel, draw.backendTicket, Some(p));
      AddingKeepsStore(s, target, Some(p), holder, epoch, draw, now);
      SendKeepsStore(t, holder, offer);
      SendKeepsStore(Send(t, holder, offer), p, ChannelReady(draw.channel, draw.clientTicket));
  }

  lemma ProxyKeepsRows(s: State, token: Token, target: BackendId, limited: bool, draw: ChannelDraw, now: int)
    ensures RowsStay(s.store, Proxy(s, token, target, limited, draw, now).store)
  {
    LookupKeepsRows(s.store, token, now);
    hide FindValid, RowsStay, ProxyStatus, Send, AddChannel;
    if ProxyStatus(s, token, target, limited, now) == 0 {
      StatusMeansLeased(s, token, target, limited, now);
      var t, lease := s.(store := FindValid(s.store, token, now)), s.leases[target];
      AddingKeepsStore(t, target, None, lease.holder, lease.epoch, draw, now);
      SendKeepsStore(AddChannel(t, target, None, lease.holder, lease.epoch, draw, now), lease.holder,
                     ChannelOffer(draw.channel, draw.backendTicket, None));
    }
  }

  lemma ClosingKeepsStore(s: State, dead: set<ChannelId>, reason: Reason)
    ensures CloseChannels(s, dead, reason).store == s.store
  {
    hide Notices, TicketsOf;
  }

  lemma EndingOneKeepsStore(s: State, p: PeerId, c: ChannelId, reason: Reason)
    ensures RejectChannel(s, p, c).store == s.store && CloseChannel(s, p, c).store == s.store
    ensures PairingTimeout(s, c).store == s.store && LegClosed(s, c).store == s.store
    ensures HttpGone(s, c, reason).store == s.store
  {
    hide CloseChannels;
    ClosingKeepsStore(s, {c}, Session.Rejected);
    ClosingKeepsStore(s, {c}, Closed);
    ClosingKeepsStore(s, {c}, TimedOut);
    ClosingKeepsStore(s, {c}, reason);
  }

  lemma AttachingKeepsStore(s: State, dial: Dial, socket: Socket)
    ensures Attach(s, dial, socket).store == s.store
  {
    hide WithLeg;
    if dial in s.dials && dial.channel in s.channels {
      var ch := WithLeg(s.channels[dial.channel], dial.end, socket);
      var wirings := if ch.wired && !s.channels[dial.channel].wired then s.wirings + multiset{dial.channel}
                     else s.wirings;
      assert Attach(s, dial, socket) == s.(dials := s.dials - {dial}, channels := s.channels[dial.channel := ch],
                                           wirings := wirings);
    } else {
    }
  }

  lemma ChannelStepKeepsRows(s: State, a: Action)
    requires AboutOneChannel(a)
    ensures RowsStay(s.store, ChannelStep(s, a).store)
  {
    SameRowsStay(s.store, s.store);
    hide OpenChannel, Proxy, RejectChannel, CloseChannel, PairingTimeout, LegClosed, HttpGone, Attach, RowsStay;
    match a {
      case DoOpen(p, target, ids, now) => if p in s.peers { OpeningKeepsStore(s, p, target, ids, now); }
      case DoProxy(token, target, limited, ids, now) => ProxyKeepsRows(s, token, target, limited, ids, now);
      case DoReject(p, c) => EndingOneKeepsStore(s, p, c, Closed);
      case DoClose(p, c) => EndingOneKeepsStore(s, p, c, Closed);
      case DoAttach(dial, socket) => AttachingKeepsStore(s, dial, socket);
      case DoPairingTimeout(c, _) => EndingOneKeepsStore(s, 0, c, Closed);
      case DoLegClosed(c) => EndingOneKeepsStore(s, 0, c, Closed);
      case DoHttpGone(c, reason) => EndingOneKeepsStore(s, 0, c, reason);
    }
  }

  lemma DisconnectKeepsRows(s: State, p: PeerId, now: int)
    ensures Disconnect(s, p, now).store.credentials == s.store.credentials
  {
    hide CloseChannels, EndLease, Broadcast, Snapshots, Forgotten, ChannelsAt;
    if p in s.peers {
      if IsOwner(s, p) {
        var b := s.peers[p].claim.value.backendId;
        EndingKeepsStore(s, b, BackendOffline);
        BroadcastKeepsStore(EndLease(s, b, BackendOffline), Some(p));
      }
      var t := Abdicate(s, p, now);
      assert t.store.credentials == s.store.credentials;
      hide Abdicate;
      ClosingKeepsStore(t, ChannelsAt(t, p), Closed);
    }
  }

  lemma SubscribingKeepsStore(s: State, p: PeerId, b: BackendId, topic: Topic)
    requires p in s.peers
    ensures Subscribe(s, p, b, topic).store == s.store
  {
    hide PeerReaches, SubscribersOf, Send;
    var t := s.(subs := s.subs[b := TopicsOf(s.subs, b)[topic := SubscribersOf(s, b, topic) + {p}]]);
    var u := Send(t, p, Subscribed(b, topic));
    SendKeepsStore(s, p, Error(Offline));
    SendKeepsStore(t, p, Subscribed(b, topic));
    if topic in TopicsOf(s.retained, b) { SendKeepsStore(u, p, TopicMessage(b, topic, Some(s.retained[b][topic]))); }
  }

  lemma UnsubscribingKeepsStore(s: State, p: PeerId, b: BackendId, topic: Topic)
    ensures Unsubscribe(s, p, b, topic).store == s.store
  {
    hide Send;
    var t := if b in s.subs && topic in s.subs[b]
             then s.(subs := s.subs[b := s.subs[b][topic := s.subs[b][topic] - {p}]]) else s;
    SendKeepsStore(t, p, Unsubscribed(b, topic));
  }

  lemma RequestKeepsStore(s: State, p: PeerId)
    requires p in s.peers
    ensures RequestSnapshot(s, p).store == s.store
  {
    hide Visible;
  }

  lemma TicketsKeepStore(s: State, ticket: TicketToken, c: ChannelId, now: int)
    ensures ConsumeTicket(s, ticket, c, now).store == s.store && DropStaleTickets(s, now).store == s.store
    ensures Broadcast(s, None).store == s.store
  {
    hide DialAccepted, Snapshots;
  }

  lemma LivenessKeepsRows(s: State, p: PeerId, now: int)
    ensures PingPeer(s, p, now).store.credentials == s.store.credentials && Pong(s, p).store == s.store
    ensures SocketClosed(s, p, now).store.credentials == s.store.credentials
  {
    hide Disconnect;
    DisconnectKeepsRows(s, p, now);
    if p in s.peers { DisconnectKeepsRows(s.(peers := s.peers[p := s.peers[p].(open := false)]), p, now); }
  }

  lemma PeerStepKeepsRows(s: State, a: Action)
    requires !AboutOneChannel(a) && !AboutAnOwner(a)
    ensures PeerStep(s, a).store.credentials == s.store.credentials
  {
    hide RequestSnapshot, Subscribe, Unsubscribe, ConsumeTicket, DropStaleTickets, PingPeer, Pong, SocketClosed,
         Broadcast;
    match a {
      case DoSnapshot(p) => if p in s.peers { RequestKeepsStore(s, p); }
      case DoSubscribe(p, b, topic) => if p in s.peers { SubscribingKeepsStore(s, p, b, topic); }
      case DoUnsubscribe(p, b, topic) => UnsubscribingKeepsStore(s, p, b, topic);
      case DoDial(ticket, c, now) => TicketsKeepStore(s, ticket, c, now);
      case DoTicketCleanup(now) => TicketsKeepStore(s, 0, 0, now);
      case DoPing(p, now) => LivenessKeepsRows(s, p, now);
      case DoPong(p) => LivenessKeepsRows(s, p, 0);
      case DoSocketClosed(p, now) => LivenessKeepsRows(s, p, now);
      case DoPoll => TicketsKeepStore(s, 0, 0, 0);
      case DoAbortDial(_) =>
    }
  }

  lemma OwnerStepKeepsRows(s: State, a: Action)
    requires AboutAnOwner(a) && !a.DoHello? && !a.DoAdmin?
    ensures OwnerStep(s, a).store.credentials == s.store.credentials
  {
    hide CheckLease, Heartbeat, Relay, Publish;
    match a {
      case DoHeartbeat(p, epoch, now) => HeartbeatKeepsRows(s, p, epoch, now);
      case DoRelay(p, b, target, payload) => MailKeepsRows(s, p, b, target, "", payload, false);
      case DoPublish(p, topic, payload, retain) => MailKeepsRows(s, p, "", None, topic, payload, retain);
      case DoCheckLease(b, now) => ExpiryKeepsRows(s, b, now);
    }
  }

  lemma HeartbeatKeepsRows(s: State, p: PeerId, epoch: nat, now: int)
    ensures Heartbeat(s, p, epoch, now).store.credentials == s.store.credentials
  {
    hide Send;
    if IsOwner(s, p) && s.peers[p].claim.value.epoch == epoch {
      var b := s.peers[p].claim.value.backendId;
      var t := s.(leases := s.leases[b := s.leases[b].(heartbeatAt := now)]);
      var u := if b in t.registry then t.(registry := t.registry[b := t.registry[b].(lastSeenAt := now)]) else t;
      SendKeepsStore(u, p, HeartbeatAck(epoch));
    }
  }

  lemma MailKeepsRows(s: State, p: PeerId, b: BackendId, target: Option<PeerId>, topic: Topic, payload: Option<Payload>,
                      retain: bool)
    ensures Relay(s, p, b, target, payload).store == s.store
    ensures Publish(s, p, topic, payload, retain).store == s.store
  {
    hide CanReach, Deliveries;
  }

  lemma ExpiryKeepsRows(s: State, b: BackendId, now: int)
    ensures CheckLease(s, b, now).store.credentials == s.store.credentials
  {
    hide EndLease, Broadcast;
    if b in s.leases {
      EndingKeepsStore(s, b, BackendOffline);
      BroadcastKeepsStore(EndLease(s, b, BackendOffline), None);
    }
  }

  lemma GrantKeepsRows(s: State, p: PeerId, b: BackendId, namespace: Namespace, root: CredentialId, now: int)
    ensures GrantLease(s, p, b, namespace, root, now).store.credentials == s.store.credentials
  {
    hide ReplaceOwner;
    if b in s.leases { ReplacingKeepsStore(s.(store := AllocateEpoch(s.store)), b); }
  }

  /** A backend gets the lease first, then joins. */
  lemma SeatingKeepsRows(s: State, h: Hello, id: CredentialId, p: PeerId, draw: Draw, now: int)
    requires id in s.store.credentials
    ensures var c := s.store.credentials[id];
      var b, root := RegisteredId(s.store, c, h, draw), if c.parent.Some? then c.parent.value else id;
      var t := GrantLease(s.(store := RegisteredStore(s.store, c, h, draw, now)), p, b, h.namespace, root, now);
      t.store.credentials == s.store.credentials && t.usedPeers == s.usedPeers && b in t.leases
  {
    hide GrantLease, RegisteredId, RegisteredStore;
    var c := s.store.credentials[id];
    var b, root := RegisteredId(s.store, c, h, draw), if c.parent.Some? then c.parent.value else id;
    var ready := s.(store := RegisteredStore(s.store, c, h, draw, now));
    RegisteringKeepsRows(s.store, c, h, draw, now);
    GrantKeepsRows(ready, p, b, h.namespace, root, now);
    GrantLeaseKeepsUsed(ready, p, b, h.namespace, root, now);
  }

  /** Admission changes no row, and lets exactly the newcomer in, as its credential says. */
  lemma AdmittingIs(s: State, h: Hello, id: CredentialId, p: PeerId, draw: Draw, now: int)
    requires id in s.store.credentials
    ensures var t, c := Admit(s, h, id, p, draw, now), s.store.credentials[id];
      && t.store.credentials == s.store.credentials && t.usedPeers == s.usedPeers + {p} && p in t.peers
      && t.peers[p].credential == id && t.peers[p].namespace == h.namespace
      && t.peers[p].scope == (if c.kind == Device then c.scope else None)
  {
    SeatingKeepsRows(s, h, id, p, draw, now);
    hide GrantLease, AddPeer, Broadcast, RegisteredId, RegisteredStore;
    var c := s.store.credentials[id];
    var scope := if c.kind == Device then c.scope else None;
    if h.backend {
      var b, root := RegisteredId(s.store, c, h, draw), if c.parent.Some? then c.parent.value else id;
      var t := GrantLease(s.(store := RegisteredStore(s.store, c, h, draw, now)), p, b, h.namespace, root, now);
      JoiningIs(t, p, Peer(h.namespace, id, scope, Some(Claim(b, t.leases[b].epoch)), true, true));
    } else {
      JoiningIs(s, p, Peer(h.namespace, id, scope, None, true, true));
    }
  }

  lemma JoiningIs(s: State, p: PeerId, peer: Peer)
    ensures var t := AddPeer(s, p, peer);
      && t.store == s.store && t.usedPeers == s.usedPeers + {p} && p in t.peers && t.peers[p] == peer
      && Broadcast(t, Some(p)) == t.(sent := Broadcast(t, Some(p)).sent)
  {
    hide Visible, Snapshots;
  }

  lemma RegisteringKeepsRows(store: Store, c: Credential, h: Hello, draw: Draw, now: int)
    ensures RegisteredStore(store, c, h, draw, now).credentials == store.credentials
  {
  }

  lemma StepKeepsRows(s: State, a: Action)
    requires !a.DoAdmin? && !a.DoHello?
    ensures RowsStay(s.store, Step(s, a).store)
  {
    hide ChannelStep, OwnerStep, PeerStep, RowsStay;
    if AboutOneChannel(a) {
      ChannelStepKeepsRows(s, a);
    } else {
      SameRowsStay(s.store, Step(s, a).store) by {
        if AboutAnOwner(a) { OwnerStepKeepsRows(s, a); } else { PeerStepKeepsRows(s, a); }
      }
    }
  }

  lemma SameRowsStay(s: Store, t: Store)
    requires t.credentials == s.credentials
    ensures RowsStay(s, t)
  {
  }

  // ---- Every open connection -----------------------------------------------

  /** The peer's credential is there and unrevoked, and the peer has the reach it gives. */
  predicate Carries(store: Store, peer: Peer) {
    && peer.credential in store.credentials
    && var c := store.credentials[peer.credential];
       c.Active() && peer.namespace == c.namespace && peer.scope == (if c.kind == Device then c.scope else None)
  }

  predicate Entitled(s: State) { forall p :: p in s.peers && s.peers[p].open ==> Carries(s.store, s.peers[p]) }

  /** Everybody open was so before. */
  predicate NobodyNew(s: State, t: State) {
    forall p :: p in t.peers && t.peers[p].open ==>
                  p in s.peers && s.peers[p].open && NoPromotion(s.peers[p], t.peers[p])
  }

  lemma RowsStayEntitled(s: State, t: State)
    requires Entitled(s) && NobodyNew(s, t) && RowsStay(s.store, t.store)
    ensures Entitled(t)
  {
  }

  lemma PeersWereUsed(s: State)
    requires Sound(s)
    ensures s.peers.Keys <= s.usedPeers && Inv(s.store)
  {
    hide Held, Anchored, Ticketed, Paired, Accounted, Followed, Retained, Capped, Inv;
  }

  lemma CalmStepsAddNobody(s: State, a: Action)
    requires Sound(s) && Fresh(s, a) && !a.DoHello?
    ensures NobodyNew(s, Step(s, a))
  {
    hide Sound, Step, Fresh;
    StepKeepsSound(s, a);
    StepRemembers(s, a);
    PeersWereUsed(s);
    PeersWereUsed(Step(s, a));
  }

  /** Who is let in has an unrevoked credential of the namespace it declares. */
  lemma AdmittedIs(store: Store, h: Hello, spent: bool, now: int)
    requires JudgeHello(store, h, spent, now).Admitted?
    ensures var id, seen := JudgeHello(store, h, spent, now).credential, FindValid(store, h.token, now);
      && id in store.credentials && store.credentials[id].Active() && store.credentials[id].namespace == h.namespace
      && id in seen.credentials && SameReach(store.credentials[id], seen.credentials[id])
  {
    LookupKeepsRows(store, h.token, now);
    hide FindValid;
  }

  lemma NewcomersAside(s: State, t: State, p: PeerId)
    requires Remembers(s, t) && t.peers.Keys <= s.usedPeers + {p}
    ensures forall q :: q in t.peers && q != p ==> q in s.peers && NoPromotion(s.peers[q], t.peers[q])
  {
  }

  lemma NewcomerEntitled(s: State, t: State, p: PeerId)
    requires Entitled(s) && RowsStay(s.store, t.store) && p in t.peers && Carries(t.store, t.peers[p])
    requires forall q :: q in t.peers && q != p ==> q in s.peers && NoPromotion(s.peers[q], t.peers[q])
    ensures Entitled(t)
  {
    forall q | q in t.peers && t.peers[q].open && q != p ensures Carries(t.store, t.peers[q]) {
      assert NoPromotion(s.peers[q], t.peers[q]);
    }
  }

  lemma HelloIs(s: State, h: Hello, spent: bool, p: PeerId, draw: Draw, now: int)
    ensures Step(s, DoHello(h, spent, p, draw, now)) == Greet(s, h, spent, p, draw, now)
    ensures var seen := s.(store := FindValid(s.store, h.token, now));
      match JudgeHello(s.store, h, spent, now)
      case Denied(_) => Greet(s, h, spent, p, draw, now) == seen
      case Admitted(id) =>
        id in seen.store.credentials && Greet(s, h, spent, p, draw, now) == Admit(seen, h, id, p, draw, now)
  {
    if JudgeHello(s.store, h, spent, now).Admitted? { AdmittedIs(s.store, h, spent, now); }
    hide Admit, FindValid, JudgeHello;
  }

  lemma GreetingKeepsEntitled(s: State, h: Hello, spent: bool, p: PeerId, draw: Draw, now: int)
    requires Sound(s) && Entitled(s) && Fresh(s, DoHello(h, spent, p, draw, now))
    ensures Entitled(Greet(s, h, spent, p, draw, now))
  {
    var a := DoHello(h, spent, p, draw, now);
    HelloIs(s, h, spent, p, draw, now);
    hide Greet, Sound, Step, Fresh, Admit, FindValid, JudgeHello, Entitled, Remembers, RowsStay, Carries, NoPromotion;
    StepKeepsSound(s, a);
    StepRemembers(s, a);
    PeersWereUsed(s);
    PeersWereUsed(Step(s, a));
    LookupKeepsRows(s.store, h.token, now);
    var seen := s.(store := FindValid(s.store, h.token, now));
    var verdict := JudgeHello(s.store, h, spent, now);
    if verdict.Admitted? {
      var id, t := verdict.credential, Admit(seen, h, verdict.credential, p, draw, now);
      AdmittedIs(s.store, h, spent, now);
      AdmittingIs(seen, h, id, p, draw, now);
      SameRowsStay(seen.store, t.store);
      RowsStayTrans(s.store, seen.store, t.store);
      NewcomersAside(s, t, p);
      NewcomerCarries(s.store.credentials[id], t.store, t.peers[p], h.namespace);
      NewcomerEntitled(s, t, p);
    } else {
      SamePeersEntitled(s, seen);
    }
  }

  lemma NewcomerCarries(c: Credential, store: Store, peer: Peer, namespace: Namespace)
    requires c.Active() && c.namespace == namespace && peer.credential in store.credentials
    requires SameReach(c, store.credentials[peer.credential]) && peer.namespace == namespace
    requires var d := store.credentials[peer.credential]; peer.scope == (if d.kind == Device then d.scope else None)
    ensures Carries(store, peer)
  {
  }

  lemma SamePeersEntitled(s: State, t: State)
    requires Entitled(s) && t.peers == s.peers && RowsStay(s.store, t.store)
    ensures Entitled(t)
  {
  }

  /** Of everything sent and every connection, only these peers' changes. */
  ghost predicate ShutOut(s: State, t: State, ids: set<CredentialId>) {
    && t.peers.Keys == s.peers.Keys
    && (forall p :: p in s.peers ==>
          t.peers[p] == s.peers[p].(open := s.peers[p].open && s.peers[p].credential !in ids))
    && (forall p :: p in s.peers ==>
          t.sent[Envelope(p, CloseFrame(1008))]
          == s.sent[Envelope(p, CloseFrame(1008))]
             + if s.peers[p].open && s.peers[p].credential in ids then 1 else 0)
    && (forall e: Envelope :: e.msg != CloseFrame(1008) || e.to !in s.peers ==> t.sent[e] == s.sent[e])
  }

  lemma ClosedCredentialsAre(s: State, ids: set<CredentialId>)
    ensures CloseCredentials(s, ids).store == s.store && ShutOut(s, CloseCredentials(s, ids), ids)
  {
    var news := set p | p in s.peers && s.peers[p].open && s.peers[p].credential in ids
                  :: Envelope(p, CloseFrame(CLOSE_POLICY));
    assert CloseCredentials(s, ids).sent == s.sent + multiset(news);
    assert forall p :: Envelope(p, CloseFrame(1008)) in news <==>
                         p in s.peers && s.peers[p].open && s.peers[p].credential in ids;
  }

  lemma AdministeringKeepsEntitled(s: State, op: Op)
    requires Inv(s.store) && Entitled(s) && AdminOp(op) && DrawsFresh(s.store, op)
    ensures Entitled(Administer(s, op))
  {
    hide Inv;
    var asked := if op.Forget? then op.(online := op.backendId in s.registry) else op;
    var after := Apply(s.store, asked);
    var gone, t := Disconnected(s.store, op, after), Administer(s, op);
    ClosedCredentialsAre(s.(store := after), gone);
    hide CloseCredentials, Apply;
    assert gone == Disconnected(s.store, asked, after);
    hide Disconnected;
    forall p | p in t.peers && t.peers[p].open ensures Carries(t.store, t.peers[p]) {
      assert Carries(s.store, s.peers[p]);
      OperationKeepsRow(s.store, asked, s.peers[p].credential);
    }
  }

  lemma StepKeepsEntitled(s: State, a: Action)
    requires Sound(s) && Entitled(s) && Fresh(s, a)
    ensures Entitled(Step(s, a))
  {
    hide Sound, ChannelStep, PeerStep, Greet, Administer, Entitled, RowsStay, NobodyNew;
    if a.DoHello? {
      GreetingKeepsEntitled(s, a.h, a.spent, a.p, a.draw, a.now);
    } else if a.DoAdmin? {
      if AdminOp(a.op) {
        PeersWereUsed(s);
        AdministeringKeepsEntitled(s, a.op);
      }
    } else {
      CalmStepsAddNobody(s, a);
      StepKeepsRows(s, a);
      RowsStayEntitled(s, Step(s, a));
    }
  }

  lemma {:induction false} RunKeepsEntitled(s: State, actions: seq<Action>)
    requires Sound(s) && Entitled(s) && GatewayRun(s, actions)
    ensures Entitled(Reached(s, actions))
    decreases |actions|
  {
    if actions != [] {
      hide Step, Fresh, Sound, Entitled;
      StepKeepsSound(s, actions[0]);
      StepKeepsEntitled(s, actions[0]);
      RunKeepsEntitled(Step(s, actions[0]), actions[1..]);
    }
  }

  /**
   In every reachable state, whoever the gateway still sends to has a credential that is present and unrevoked, and its
   namespace and scope are those of that credential; only a device has a scope.
   */
  lemma OpenPeersAreEntitled(config: Config, store: Store, actions: seq<Action>, p: PeerId)
    requires Inv(store) && GatewayRun(Initial(config, store), actions)
    ensures var t := Reached(Initial(config, store), actions);
      p in t.peers && t.peers[p].open ==>
        && t.peers[p].credential in t.store.credentials
        && t.store.credentials[t.peers[p].credential].revokedAt == None
        && t.peers[p].namespace == t.store.credentials[t.peers[p].credential].namespace
        && t.peers[p].scope == (if t.store.credentials[t.peers[p].credential].kind == Device
                                then t.store.credentials[t.peers[p].credential].scope else None)
  {
    InitiallySound(config, store);
    hide Sound, GatewayRun, Reached;
    RunKeepsEntitled(Initial(config, store), actions);
  }

  // ---- Who is disconnected -------------------------------------------------

  lemma AdministeringCloses(s: State, op: Op)
    requires AdminOp(op) && !op.Forget?
    ensures var t := Step(s, DoAdmin(op));
      t.store == Apply(s.store, op) && ShutOut(s, t, Disconnected(s.store, op, Apply(s.store, op)))
  {
    hide Apply, Disconnected, CloseCredentials;
    ClosedCredentialsAre(s.(store := Apply(s.store, op)), Disconnected(s.store, op, Apply(s.store, op)));
  }

  lemma RevokedAre(s: Store, ids: seq<CredentialId>, now: int, id: CredentialId)
    requires Inv(s)
    ensures var after := Apply(s, Revoke(ids, now));
      id in Disconnected(s, Revoke(ids, now), after) <==>
      && id in s.credentials && s.credentials[id].revokedAt == None
      && (id in ids || (s.credentials[id].parent.Some? && s.credentials[id].parent.value in ids))
    ensures var after := Apply(s, Revoke(ids, now));
      id in Disconnected(s, Revoke(ids, now), after) ==>
        id in after.credentials && after.credentials[id].revokedAt == Some(now)
  {
    if id in s.credentials { RevokedRow(s, ids, now, id); }
    hide Inv, RevokeCredentials;
  }

  lemma RescopedAre(s: Store, id: CredentialId, scope: Option<seq<BackendId>>)
    ensures var op := Rescope(id, scope);
      var accepted := && id in s.credentials && s.credentials[id].kind == Device
                      && s.credentials[id].revokedAt == None
                      && ScopeKnown(s, scope, s.credentials[id].namespace);
      && Disconnected(s, op, Apply(s, op)) == (if accepted then {id} else {})
      && (accepted ==> id in Apply(s, op).credentials && Apply(s, op).credentials[id].scope == scope)
      && (!accepted ==> Apply(s, op) == s)
  {
    hide ScopeKnown;
  }

  /**
   An administrative revocation sends one close frame 1008 to exactly the open peers whose credential was unrevoked
   and is on the list, or is an access credential exchanged from one that is, closes them, and tells nobody else
   anything.
   */
  lemma RevocationClosesExactly(s: State, ids: seq<CredentialId>, now: int, p: PeerId)
    requires Inv(s.store) && p in s.peers
    ensures var t, id := Step(s, DoAdmin(Revoke(ids, now))), s.peers[p].credential;
      var hit := && s.peers[p].open && id in s.store.credentials && s.store.credentials[id].revokedAt == None
                 && (id in ids
                     || (s.store.credentials[id].parent.Some? && s.store.credentials[id].parent.value in ids));
      && t.peers.Keys == s.peers.Keys && t.peers[p] == s.peers[p].(open := s.peers[p].open && !hit)
      && (hit ==> id in t.store.credentials && t.store.credentials[id].revokedAt == Some(now))
      && t.sent[Envelope(p, CloseFrame(1008))] == s.sent[Envelope(p, CloseFrame(1008))] + (if hit then 1 else 0)
      && (forall e: Envelope :: e.msg != CloseFrame(1008) || e.to !in s.peers ==> t.sent[e] == s.sent[e])
  {
    hide Inv, Step, Apply, Disconnected, ShutOut;
    AdministeringCloses(s, Revoke(ids, now));
    RevokedAre(s.store, ids, now, s.peers[p].credential);
    ClosedAt(s, Step(s, DoAdmin(Revoke(ids, now))),
             Disconnected(s.store, Revoke(ids, now), Apply(s.store, Revoke(ids, now))), p);
  }

  lemma ClosedAt(s: State, t: State, ids: set<CredentialId>, p: PeerId)
    requires ShutOut(s, t, ids) && p in s.peers
    ensures var hit := s.peers[p].open && s.peers[p].credential in ids;
      && t.peers.Keys == s.peers.Keys && t.peers[p] == s.peers[p].(open := s.peers[p].open && !hit)
      && t.sent[Envelope(p, CloseFrame(1008))] == s.sent[Envelope(p, CloseFrame(1008))] + (if hit then 1 else 0)
      && (forall e: Envelope :: e.msg != CloseFrame(1008) || e.to !in s.peers ==> t.sent[e] == s.sent[e])
  {
  }

  /** Changing a device's scope does the same to the open peers of that device, if it is accepted. */
  lemma RescopingClosesExactly(s: State, id: CredentialId, scope: Option<seq<BackendId>>, p: PeerId)
    requires p in s.peers
    ensures var t := Step(s, DoAdmin(Rescope(id, scope)));
      var accepted := && id in s.store.credentials && s.store.credentials[id].kind == Device
                      && s.store.credentials[id].revokedAt == None
                      && (scope.Some? ==>
                            scope.value != []
                            && forall b :: b in scope.value ==>
                                 exists key :: key in s.store.identities && s.store.identities[key].backendId == b
                                   && s.store.identities[key].namespace == s.store.credentials[id].namespace);
      var hit := accepted && s.peers[p].open && s.peers[p].credential == id;
      && t.peers.Keys == s.peers.Keys && t.peers[p] == s.peers[p].(open := s.peers[p].open && !hit)
      && (accepted ==> id in t.store.credentials && t.store.credentials[id].scope == scope)
      && (!accepted ==> t.store == s.store)
      && t.sent[Envelope(p, CloseFrame(1008))] == s.sent[Envelope(p, CloseFrame(1008))] + (if hit then 1 else 0)
      && (forall e: Envelope :: e.msg != CloseFrame(1008) || e.to !in s.peers ==> t.sent[e] == s.sent[e])
  {
    hide Inv, Step, Apply, Disconnected, ShutOut, ScopeKnown, Known;
    AdministeringCloses(s, Rescope(id, scope));
    RescopedAre(s.store, id, scope);
    if id in s.store.credentials { ScopeKnownIs(s.store, scope, s.store.credentials[id].namespace); }
    ClosedAt(s, Step(s, DoAdmin(Rescope(id, scope))),
             Disconnected(s.store, Rescope(id, scope), Apply(s.store, Rescope(id, scope))), p);
  }

  lemma ScopeKnownIs(s: Store, scope: Option<seq<BackendId>>, namespace: Namespace)
    ensures ScopeKnown(s, scope, namespace) <==>
            (scope.Some? ==>
               scope.value != []
               && forall b :: b in scope.value ==>
                    exists key :: key in s.identities && s.identities[key].backendId == b
                      && s.identities[key].namespace == namespace)
  {
    if scope.Some? {
      forall b | b in scope.value
        ensures Known(s, b, namespace) <==>
                exists key :: key in s.identities && s.identities[key].backendId == b
                  && s.identities[key].namespace == namespace
      {
        assert forall key :: NamedBy(s, key, b) <==> key in s.identities && s.identities[key].backendId == b;
      }
    }
  }

  /** No other administrative operation disconnects anybody or sends anything. */
  lemma OtherOperationsCloseNobody(s: State, op: Op)
    requires AdminOp(op) && !op.Revoke? && !op.Rescope?
    ensures var t := Step(s, DoAdmin(op)); t.peers == s.peers && t.sent == s.sent
  {
    hide Apply;
    var asked := if op.Forget? then op.(online := op.backendId in s.registry) else op;
    ClosingNobody(s.(store := Apply(s.store, asked)));
    hide CloseCredentials;
  }

  lemma ClosingNobody(s: State)
    ensures CloseCredentials(s, {}) == s
  {
    assert CloseCredentials(s, {}).sent == s.sent;
    assert CloseCredentials(s, {}).peers == s.peers;
  }
}
