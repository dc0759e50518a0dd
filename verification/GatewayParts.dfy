/** What the gateway's loops add up to, map by map, and how the maps make up a step on the whole state. */
module GatewayParts {
  import opened Basics
  import opened CredentialStore
  import opened Session
  import opened SessionProofs
  import opened Views

  // ---- What the loops add up to --------------------------------------------

  type Channels = map<ChannelId, Channel>

  type Subs = map<BackendId, map<Topic, set<PeerId>>>

  type Retention = map<BackendId, map<Topic, Payload>>

  function OpenPeers(peers: map<PeerId, Peer>): set<PeerId> {
    set p | p in peers && peers[p].open
  }

  function Mail(open: set<PeerId>, p: PeerId, msg: Message): multiset<Envelope> {
    if p in open then multiset{Envelope(p, msg)} else multiset{}
  }

  function Holding(channels: Channels, backendId: BackendId): set<ChannelId> {
    set c | c in channels && channels[c].backendId == backendId
  }

  function Touching(channels: Channels, p: PeerId): set<ChannelId> {
    set c | c in channels && (channels[c].client == Some(p) || channels[c].backend == p)
  }

  function Tokens(channels: Channels, dead: set<ChannelId>): set<TicketToken> {
    set c, t | c in dead && c in channels && t in channels[c].tickets :: t
  }

  function Told(open: set<PeerId>, c: ChannelId, ch: Channel, end: End, reason: Reason): multiset<Notice> {
    if ch.PeerAt(end).Some? && ch.PeerAt(end).value in open
    then multiset{Notice(ch.PeerAt(end).value, c, end, reason)} else multiset{}
  }

  function ToldAbout(open: set<PeerId>, channels: Channels, dead: set<ChannelId>, reason: Reason): set<Notice> {
    set c, e: End | c in dead && c in channels && channels[c].PeerAt(e).Some? && channels[c].PeerAt(e).value in open
      :: Notice(channels[c].PeerAt(e).value, c, e, reason)
  }

  function AllTold(open: set<PeerId>, channels: Channels, dead: set<ChannelId>, reason: Reason): multiset<Notice> {
    multiset(ToldAbout(open, channels, dead, reason))
  }

  function FatesOf(channels: Channels, dead: set<ChannelId>, reason: Reason): map<ChannelId, Fate> {
    map c | c in dead && c in channels :: Fate(channels[c], reason)
  }

  lemma TokensMore(channels: Channels, done: set<ChannelId>, c: ChannelId)
    requires c in channels
    ensures Tokens(channels, done + {c}) == Tokens(channels, done) + channels[c].tickets
  {
  }

  lemma AllToldMore(open: set<PeerId>, channels: Channels, done: set<ChannelId>, c: ChannelId, reason: Reason)
    requires c in channels && c !in done
    ensures AllTold(open, channels, done + {c}, reason)
            == AllTold(open, channels, done, reason) + Told(open, c, channels[c], ClientEnd, reason)
              + Told(open, c, channels[c], BackendEnd, reason)
  {
    var ch := channels[c];
    var client, backend := ToldSet(open, c, ch, ClientEnd, reason), ToldSet(open, c, ch, BackendEnd, reason);
    var before, after := ToldAbout(open, channels, done, reason), ToldAbout(open, channels, done + {c}, reason);
    assert forall n :: n in before ==> n.channel in done;
    forall n ensures n in after <==> n in before || n in client || n in backend {
      if n in after && n !in before { assert n.channel == c; assert n.end == ClientEnd || n.end == BackendEnd; }
    }
    assert after == before + client + backend;
  }

  function ToldSet(open: set<PeerId>, c: ChannelId, ch: Channel, end: End, reason: Reason): (r: set<Notice>)
    ensures multiset(r) == Told(open, c, ch, end, reason)
    ensures forall n :: n in r <==>
              ch.PeerAt(end).Some? && ch.PeerAt(end).value in open && n == Notice(ch.PeerAt(end).value, c, end, reason)
  {
    if ch.PeerAt(end).Some? && ch.PeerAt(end).value in open then {Notice(ch.PeerAt(end).value, c, end, reason)} else {}
  }

  lemma FatesMore(channels: Channels, done: set<ChannelId>, c: ChannelId, reason: Reason)
    requires c in channels
    ensures FatesOf(channels, done + {c}, reason) == FatesOf(channels, done, reason)[c := Fate(channels[c], reason)]
  {
  }

  lemma NothingToClose(open: set<PeerId>, channels: Channels, reason: Reason)
    ensures Tokens(channels, {}) == {} && AllTold(open, channels, {}, reason) == multiset{}
            && FatesOf(channels, {}, reason) == map[]
  {
    assert ToldAbout(open, channels, {}, reason) == {};
  }

  /** Scopes and namespaces the memo key can tell apart. */
  predicate CleanPeers(peers: map<PeerId, Peer>) {
    forall p :: p in peers ==> CleanView(peers[p].namespace, peers[p].scope)
  }

  function Audience(peers: map<PeerId, Peer>, except: Option<PeerId>): set<PeerId> {
    set p | p in peers && except != Some(p)
  }

  function SnapshotFor(peers: map<PeerId, Peer>, registry: Registry, p: PeerId): Registry
    requires p in peers
  {
    Visible(registry, peers[p].namespace, peers[p].scope)
  }

  function SnapshotMail(peers: map<PeerId, Peer>, registry: Registry, to: set<PeerId>): set<Envelope> {
    set p | p in to && p in peers && peers[p].open :: Envelope(p, Snapshot(SnapshotFor(peers, registry, p)))
  }

  lemma SnapshotMailMore(peers: map<PeerId, Peer>, registry: Registry, done: set<PeerId>, p: PeerId)
    requires p in peers && p !in done
    ensures multiset(SnapshotMail(peers, registry, done + {p}))
            == multiset(SnapshotMail(peers, registry, done))
              + Mail(OpenPeers(peers), p, Snapshot(SnapshotFor(peers, registry, p)))
  {
    hide Visible;
    var a, b := SnapshotMail(peers, registry, done), SnapshotMail(peers, registry, done + {p});
    assert forall e :: e in a ==> e.to in done;
    if peers[p].open {
      assert b == a + {Envelope(p, Snapshot(SnapshotFor(peers, registry, p)))};
    } else {
      assert b == a;
    }
  }

  lemma NoSnapshotMail(peers: map<PeerId, Peer>, registry: Registry)
    ensures multiset(SnapshotMail(peers, registry, {})) == multiset{}
  {
    assert SnapshotMail(peers, registry, {}) == {};
  }

  /** What is memoised under a key is what every peer with that key would be shown. */
  predicate MemoHolds(memo: map<string, Registry>, peers: map<PeerId, Peer>, registry: Registry) {
    forall q :: q in peers && ScopeKey(peers[q].namespace, peers[q].scope) in memo ==>
      memo[ScopeKey(peers[q].namespace, peers[q].scope)] == SnapshotFor(peers, registry, q)
  }

  lemma MemoMore(memo: map<string, Registry>, peers: map<PeerId, Peer>, registry: Registry, p: PeerId)
    requires CleanPeers(peers) && MemoHolds(memo, peers, registry) && p in peers
    ensures MemoHolds(memo[ScopeKey(peers[p].namespace, peers[p].scope) := SnapshotFor(peers, registry, p)], peers,
                      registry)
  {
    hide Visible, ScopeKey;
    var key := ScopeKey(peers[p].namespace, peers[p].scope);
    forall q | q in peers && ScopeKey(peers[q].namespace, peers[q].scope) == key
      ensures SnapshotFor(peers, registry, q) == SnapshotFor(peers, registry, p)
    {
      ScopeKeyInjective(peers[p].namespace, peers[p].scope, peers[q].namespace, peers[q].scope);
    }
  }

  function FanOut(open: set<PeerId>, to: set<PeerId>, msg: Message): set<Envelope> {
    set p | p in to && p in open :: Envelope(p, msg)
  }

  lemma FanOutMore(open: set<PeerId>, done: set<PeerId>, p: PeerId, msg: Message)
    requires p !in done
    ensures multiset(FanOut(open, done + {p}, msg)) == multiset(FanOut(open, done, msg)) + Mail(open, p, msg)
  {
    var a, b := FanOut(open, done, msg), FanOut(open, done + {p}, msg);
    assert forall e :: e in a ==> e.to in done;
    if p in open {
      assert b == a + {Envelope(p, msg)};
    } else {
      assert b == a;
    }
  }

  lemma NoFanOut(open: set<PeerId>, msg: Message)
    ensures multiset(FanOut(open, {}, msg)) == multiset{}
  {
    assert FanOut(open, {}, msg) == {};
  }

  lemma NoMemo(peers: map<PeerId, Peer>, registry: Registry)
    ensures MemoHolds(map[], peers, registry)
  {
  }

  lemma MemoisedView(memo: map<string, Registry>, peers: map<PeerId, Peer>, registry: Registry, p: PeerId)
    requires MemoHolds(memo, peers, registry) && p in peers && ScopeKey(peers[p].namespace, peers[p].scope) in memo
    ensures memo[ScopeKey(peers[p].namespace, peers[p].scope)] == SnapshotFor(peers, registry, p)
  {
  }

  // ---- From the maps to the state ------------------------------------------

  lemma SendIs(s: State, t: State, p: PeerId, msg: Message)
    requires t == s.(sent := s.sent + Mail(OpenPeers(s.peers), p, msg))
    ensures t == Send(s, p, msg)
  {
  }

  lemma CloseIs(s: State, t: State, dead: set<ChannelId>, reason: Reason)
    requires t == s.(channels := s.channels - dead, tickets := s.tickets - Tokens(s.channels, dead),
                     notices := s.notices + AllTold(OpenPeers(s.peers), s.channels, dead, reason),
                     fates := s.fates + FatesOf(s.channels, dead, reason))
    ensures t == CloseChannels(s, dead, reason)
  {
    assert Tokens(s.channels, dead) == TicketsOf(s, dead);
    assert ToldAbout(OpenPeers(s.peers), s.channels, dead, reason) == Notices(s, dead, reason);
    hide Tokens, TicketsOf, ToldAbout, Notices;
  }

  lemma CloseOneIs(s: State, t: State, c: ChannelId, reason: Reason)
    requires c in s.channels
    requires t == s.(channels := s.channels - {c}, tickets := s.tickets - s.channels[c].tickets,
                     notices := s.notices + Told(OpenPeers(s.peers), c, s.channels[c], ClientEnd, reason)
                                          + Told(OpenPeers(s.peers), c, s.channels[c], BackendEnd, reason),
                     fates := s.fates[c := Fate(s.channels[c], reason)])
    ensures t == CloseChannels(s, {c}, reason)
  {
    hide Tokens, Told, AllTold, FatesOf, OpenPeers, CloseChannels;
    NothingToClose(OpenPeers(s.peers), s.channels, reason);
    TokensMore(s.channels, {}, c);
    AllToldMore(OpenPeers(s.peers), s.channels, {}, c, reason);
    FatesMore(s.channels, {}, c, reason);
    assert {} + {c} == {c};
    assert s.fates + map[c := Fate(s.channels[c], reason)] == s.fates[c := Fate(s.channels[c], reason)];
    CloseIs(s, t, {c}, reason);
  }

  lemma OpenIs(s: State, t: State, p: PeerId, target: BackendId, draw: ChannelDraw, now: int)
    requires p in s.peers && ChannelVerdict(s, p, target).Grant?
    requires var verdict, due := ChannelVerdict(s, p, target), now + s.config.ticketTtl;
      t == s.(channels := s.channels[draw.channel := Undialled(target, verdict.epoch, Some(p), verdict.holder,
                                                               {draw.clientTicket, draw.backendTicket}, due)],
              tickets := s.tickets[draw.clientTicket := Ticket(draw.channel, ClientEnd, due)]
                                  [draw.backendTicket := Ticket(draw.channel, BackendEnd, due)],
              usedTickets := s.usedTickets + {draw.clientTicket, draw.backendTicket},
              sent := s.sent + Mail(OpenPeers(s.peers), verdict.holder,
                                    ChannelOffer(draw.channel, draw.backendTicket, Some(p)))
                             + Mail(OpenPeers(s.peers), p, ChannelReady(draw.channel, draw.clientTicket)))
    ensures t == OpenChannel(s, p, target, draw, now)
  {
    hide ChannelVerdict, Mail, OpenPeers, Send, AddChannel;
    var verdict := ChannelVerdict(s, p, target);
    var offer, ready := ChannelOffer(draw.channel, draw.backendTicket, Some(p)),
        ChannelReady(draw.channel, draw.clientTicket);
    var u := s.(channels := t.channels, tickets := t.tickets, usedTickets := t.usedTickets);
    AddIs(s, u, target, p, verdict.holder, verdict.epoch, draw, now);
    var v := u.(sent := s.sent + Mail(OpenPeers(s.peers), verdict.holder, offer));
    SendIs(u, v, verdict.holder, offer);
    SendIs(v, t, p, ready);
  }

  lemma AddIs(s: State, t: State, target: BackendId, p: PeerId, holder: PeerId, epoch: nat, draw: ChannelDraw, now: int)
    requires var due := now + s.config.ticketTtl;
      t == s.(channels := s.channels[draw.channel := Undialled(target, epoch, Some(p), holder,
                                                               {draw.clientTicket, draw.backendTicket}, due)],
              tickets := s.tickets[draw.clientTicket := Ticket(draw.channel, ClientEnd, due)]
                                  [draw.backendTicket := Ticket(draw.channel, BackendEnd, due)],
              usedTickets := s.usedTickets + {draw.clientTicket, draw.backendTicket})
    ensures t == AddChannel(s, target, Some(p), holder, epoch, draw, now)
  {
    var due := now + s.config.ticketTtl;
    var a, b := Ticket(draw.channel, ClientEnd, due), Ticket(draw.channel, BackendEnd, due);
    MergeTwo(s.tickets, draw.clientTicket, a, draw.backendTicket, b);
  }

  lemma TouchingIs(s: State, p: PeerId)
    ensures ChannelsAt(s, p) == Touching(s.channels, p)
  {
  }

  lemma ProxyIs(s: State, t: State, token: Token, target: BackendId, draw: ChannelDraw, now: int)
    requires target in s.leases && ProxyStatus(s, token, target, false, now) == 0
    requires var lease := s.leases[target];
      t == s.(store := FindValid(s.store, token, now),
              channels := s.channels[draw.channel :=
                                     Undialled(target, lease.epoch, None, lease.holder, {draw.backendTicket},
                                                               now + s.config.ticketTtl)],
              tickets := s.tickets[draw.backendTicket := Ticket(draw.channel, BackendEnd, now + s.config.ticketTtl)],
              usedTickets := s.usedTickets + {draw.backendTicket},
              sent := s.sent + Mail(OpenPeers(s.peers), lease.holder,
                                    ChannelOffer(draw.channel, draw.backendTicket, None)))
    ensures t == Proxy(s, token, target, false, draw, now)
  {
    hide ProxyStatus, FindValid, Mail, OpenPeers, Send, AddChannel;
    var lease, ticket := s.leases[target], Ticket(draw.channel, BackendEnd, now + s.config.ticketTtl);
    var seen := s.(store := FindValid(s.store, token, now));
    var u := t.(sent := s.sent);
    AddInternalIs(seen, u, target, lease.holder, lease.epoch, draw, now);
    SendIs(u, t, lease.holder, ChannelOffer(draw.channel, draw.backendTicket, None));
  }

  lemma AddInternalIs(s: State, t: State, target: BackendId, holder: PeerId, epoch: nat, draw: ChannelDraw, now: int)
    requires t == s.(channels := s.channels[draw.channel := Undialled(target, epoch, None, holder, {draw.backendTicket},
                                                                      now + s.config.ticketTtl)],
                     tickets := s.tickets[draw.backendTicket :=
                                          Ticket(draw.channel, BackendEnd, now + s.config.ticketTtl)],
                     usedTickets := s.usedTickets + {draw.backendTicket})
    ensures t == AddChannel(s, target, None, holder, epoch, draw, now)
  {
    var ticket := Ticket(draw.channel, BackendEnd, now + s.config.ticketTtl);
    assert map[draw.backendTicket := ticket].Keys == {draw.backendTicket};
    MergeOne(s.tickets, draw.backendTicket, ticket);
  }

  function WithSubscriber(subs: Subs, b: BackendId, topic: Topic, p: PeerId): Subs {
    var topics := TopicsOf(subs, b);
    subs[b := topics[topic := (if topic in topics then topics[topic] else {}) + {p}]]
  }

  lemma SubscribeIs(s: State, t: State, p: PeerId, b: BackendId, topic: Topic)
    requires p in s.peers && PeerReaches(s, p, b)
    requires var held, open := TopicsOf(s.retained, b), OpenPeers(s.peers);
      t == s.(subs := WithSubscriber(s.subs, b, topic, p),
              sent := s.sent + Mail(open, p, Subscribed(b, topic))
                             + if topic in held then Mail(open, p, TopicMessage(b, topic, Some(held[topic])))
                               else multiset{})
    ensures t == Subscribe(s, p, b, topic)
  {
    hide Mail, OpenPeers, Send, PeerReaches;
    var u := s.(subs := t.subs);
    var v := u.(sent := s.sent + Mail(OpenPeers(s.peers), p, Subscribed(b, topic)));
    SendIs(u, v, p, Subscribed(b, topic));
    if topic in TopicsOf(s.retained, b) {
      SendIs(v, t, p, TopicMessage(b, topic, Some(s.retained[b][topic])));
    } else {
    }
  }

  function Followers(subs: Subs, b: BackendId, topic: Topic): set<PeerId> {
    if b in subs && topic in subs[b] then subs[b][topic] else {}
  }

  lemma NotPublished(s: State, p: PeerId, topic: Topic, payload: Option<Payload>, retain: bool)
    requires !IsOwner(s, p)
    ensures s == Publish(s, p, topic, payload, retain)
  {
  }

  predicate HasRoom(topics: map<Topic, Payload>, topic: Topic) { |topics| < MAX_RETAINED_TOPICS || topic in topics }

  function RetainedWith(retained: Retention, claim: Claim, topic: Topic, payload: Payload): Retention {
    var topics := TopicsOf(retained, claim.backendId);
    retained[claim.backendId := if HasRoom(topics, topic) then topics[topic := payload] else topics]
  }

  function PublishedWith(retained: Retention, published: map<(BackendId, Topic), (nat, Payload)>,
                         claim: Claim, topic: Topic, payload: Payload): map<(BackendId, Topic), (nat, Payload)> {
    if HasRoom(TopicsOf(retained, claim.backendId), topic)
    then published[(claim.backendId, topic) := (claim.epoch, payload)] else published
  }

  lemma PublishIs(s: State, t: State, p: PeerId, topic: Topic, payload: Option<Payload>, retain: bool)
    requires IsOwner(s, p)
    requires var claim, keep := s.peers[p].claim.value, retain && payload.Some?;
      t == s.(retained := if keep then RetainedWith(s.retained, claim, topic, payload.value) else s.retained,
              published := if keep then PublishedWith(s.retained, s.published, claim, topic, payload.value)
                else s.published,
              sent := s.sent + multiset(FanOut(OpenPeers(s.peers), Followers(s.subs, claim.backendId, topic),
                                               TopicMessage(claim.backendId, topic, payload))))
    ensures t == Publish(s, p, topic, payload, retain)
  {
    hide Retain, RetainedWith, PublishedWith, OpenPeers, FanOut, Followers, Deliveries;
    var claim := s.peers[p].claim.value;
    DeliveriesAre(s, claim.backendId, topic, payload);
    if retain && payload.Some? {
      RetainIs(s, claim, topic, payload.value);
    } else {
    }
  }

  lemma DeliveriesAre(s: State, b: BackendId, topic: Topic, payload: Option<Payload>)
    ensures FanOut(OpenPeers(s.peers), Followers(s.subs, b, topic), TopicMessage(b, topic, payload))
            == Deliveries(s, b, topic, payload)
  {
  }

  lemma RetainIs(s: State, claim: Claim, topic: Topic, payload: Payload)
    ensures Retain(s, claim, topic, payload)
            == s.(retained := RetainedWith(s.retained, claim, topic, payload),
                  published := PublishedWith(s.retained, s.published, claim, topic, payload))
  {
  }

  /** What a proxied request of an accepted credential is answered, without the rate limit. */
  function ReachStatus(s: State, c: Credential, target: BackendId): nat {
    if target !in s.leases || target !in s.registry
       || !CanReach(c.namespace, c.scope, s.registry[target].namespace, target)
       || s.leases[target].holder !in s.peers
    then 502
    else if |ChannelsAt(s, s.leases[target].holder)| >= s.config.maxChannels then 429
    else 0
  }

  lemma StatusIs(s: State, token: Token, target: BackendId, limited: bool, now: int)
    ensures var id := Resolve(s.store, token, now);
      ProxyStatus(s, token, target, limited, now)
      == if id.None? then 401 else if limited then 429 else ReachStatus(s, s.store.credentials[id.value], target)
  {
    hide ChannelsAt, Usable;
  }

  lemma SameReach(s: State, t: State, token: Token, id: CredentialId, target: BackendId, now: int)
    requires Resolve(s.store, token, now) == Some(id) && t == s.(store := FindValid(s.store, token, now))
    ensures id in t.store.credentials && ReachStatus(t, t.store.credentials[id], target)
            == ReachStatus(s, s.store.credentials[id], target)
    ensures ReachStatus(s, s.store.credentials[id], target) == 0 ==> target in s.leases
  {
    hide Usable, CanReach;
    var holder := if target in s.leases then s.leases[target].holder else 0;
    assert ChannelsAt(t, holder) == ChannelsAt(s, holder);
    hide ChannelsAt;
  }

  lemma NotProxied(s: State, t: State, token: Token, target: BackendId, limited: bool, draw: ChannelDraw, now: int)
    requires ProxyStatus(s, token, target, limited, now) != 0 && t == s.(store := FindValid(s.store, token, now))
    ensures t == Proxy(s, token, target, limited, draw, now)
  {
    hide ProxyStatus, FindValid;
  }

  lemma OwnersClaim(s: State, p: PeerId)
    ensures IsOwner(s, p) ==> p in s.peers && s.peers[p].claim.Some?
  {
  }

  // ---- The end of a lease --------------------------------------------------

  function Unclaimed(peers: map<PeerId, Peer>, p: PeerId): map<PeerId, Peer> {
    if p in peers then peers[p := peers[p].(claim := None)] else peers
  }

  lemma EndLeaseIs(s: State, t: State, b: BackendId, reason: Reason)
    requires b in s.leases
    requires var dead := Holding(s.channels, b);
      t == s.(channels := s.channels - dead, tickets := s.tickets - Tokens(s.channels, dead),
              notices := s.notices + AllTold(OpenPeers(s.peers), s.channels, dead, reason),
              fates := s.fates + FatesOf(s.channels, dead, reason),
              leases := s.leases - {b}, registry := s.registry - {b}, subs := s.subs - {b},
                retained := s.retained - {b},
              peers := Unclaimed(s.peers, s.leases[b].holder))
    ensures t == EndLease(s, b, reason)
  {
    assert Holding(s.channels, b) == ChannelsOf(s, b);
    hide Tokens, AllTold, FatesOf, OpenPeers, CloseChannels, Holding, ChannelsOf;
    var u := t.(leases := s.leases, registry := s.registry, subs := s.subs, retained := s.retained, peers := s.peers);
    CloseIs(s, u, Holding(s.channels, b), reason);
  }

  lemma BroadcastIs(s: State, t: State, except: Option<PeerId>)
    requires t == s.(sent := s.sent + multiset(SnapshotMail(s.peers, s.registry, Audience(s.peers, except))))
    ensures t == Broadcast(s, except)
  {
    hide Visible;
    assert SnapshotMail(s.peers, s.registry, Audience(s.peers, except)) == Snapshots(s, except);
    hide SnapshotMail, Audience, Snapshots;
  }

  /** Claims do not show in snapshots. */
  lemma SameSnapshots(peers: map<PeerId, Peer>, registry: Registry, except: Option<PeerId>, p: PeerId)
    ensures SnapshotMail(Unclaimed(peers, p), registry, Audience(Unclaimed(peers, p), except))
            == SnapshotMail(peers, registry, Audience(peers, except))
  {
    hide Visible;
    assert Audience(Unclaimed(peers, p), except) == Audience(peers, except);
    assert forall q :: q in peers ==> SnapshotFor(Unclaimed(peers, p), registry, q) == SnapshotFor(peers, registry, q);
  }

  lemma UnclaimedAndGone(peers: map<PeerId, Peer>, p: PeerId)
    ensures Unclaimed(peers, p) - {p} == peers - {p}
    ensures OpenPeers(Unclaimed(peers, p)) == OpenPeers(peers)
  {
  }

  lemma ExpireIs(s: State, t: State, b: BackendId, now: int)
    requires b in s.leases
    requires var dead, holder := Holding(s.channels, b), s.leases[b].holder;
      t == s.(channels := s.channels - dead, tickets := s.tickets - Tokens(s.channels, dead),
              notices := s.notices + AllTold(OpenPeers(s.peers), s.channels, dead, BackendOffline),
              fates := s.fates + FatesOf(s.channels, dead, BackendOffline),
              leases := s.leases - {b}, registry := s.registry - {b}, subs := s.subs - {b},
                retained := s.retained - {b},
              sent := s.sent + multiset(SnapshotMail(s.peers, s.registry - {b}, Audience(s.peers, None))),
              store := TouchIdentity(s.store, b, None, now), peers := s.peers - {holder})
    ensures t == ExpireLease(s, b, now)
  {
    hide Tokens, AllTold, FatesOf, OpenPeers, EndLease, Holding, Broadcast, SnapshotMail, Audience, TouchIdentity,
         Unclaimed;
    var holder := s.leases[b].holder;
    var peers := Unclaimed(s.peers, holder);
    var ended := t.(sent := s.sent, store := s.store, peers := peers);
    EndLeaseIs(s, ended, b, BackendOffline);
    SameSnapshots(s.peers, s.registry - {b}, None, holder);
    var told := ended.(sent := t.sent);
    BroadcastIs(ended, told, None);
    UnclaimedAndGone(s.peers, holder);
  }

  /** The owner's part of a disconnect, up to what the rest of the disconnect clears anyway. */
  lemma AbdicateIs(s: State, mid: State, p: PeerId, now: int)
    requires IsOwner(s, p)
    requires var b := s.peers[p].claim.value.backendId;
      var dead := Holding(s.channels, b);
      mid == s.(channels := s.channels - dead, tickets := s.tickets - Tokens(s.channels, dead),
                notices := s.notices + AllTold(OpenPeers(s.peers), s.channels, dead, BackendOffline),
                fates := s.fates + FatesOf(s.channels, dead, BackendOffline),
                leases := s.leases - {b}, registry := s.registry - {b},
                sent := s.sent + multiset(SnapshotMail(s.peers, s.registry - {b}, Audience(s.peers, Some(p)))),
                store := TouchIdentity(s.store, b, None, now))
    ensures var b := s.peers[p].claim.value.backendId;
      mid.(subs := mid.subs - {b}, retained := mid.retained - {b}, peers := Unclaimed(mid.peers, p))
        == Abdicate(s, p, now)
  {
    hide Tokens, AllTold, FatesOf, OpenPeers, EndLease, Holding, Broadcast, SnapshotMail, Audience, TouchIdentity,
         Unclaimed;
    var b := s.peers[p].claim.value.backendId;
    var ended := mid.(sent := s.sent, store := s.store, subs := s.subs - {b}, retained := s.retained - {b},
                      peers := Unclaimed(s.peers, p));
    EndLeaseIs(s, ended, b, BackendOffline);
    SameSnapshots(s.peers, s.registry - {b}, Some(p), p);
    BroadcastIs(ended, ended.(sent := mid.sent), Some(p));
  }

  /** What the rest of a disconnect makes of the state, whether the owner's part came before or not. */
  lemma DepartIs(s: State, t: State, p: PeerId, claim: Option<Claim>)
    requires var dead := Touching(s.channels, p);
      t == s.(channels := s.channels - dead, tickets := s.tickets - Tokens(s.channels, dead),
              notices := s.notices + AllTold(OpenPeers(s.peers), s.channels, dead, Closed),
              fates := s.fates + FatesOf(s.channels, dead, Closed),
              subs := if claim.Some? then Forgotten(s.subs, p) - {claim.value.backendId} else Forgotten(s.subs, p),
              retained := if claim.Some? then s.retained - {claim.value.backendId} else s.retained,
              peers := s.peers - {p})
    ensures t == Depart(s, p, claim)
  {
    TouchingIs(s, p);
    hide Tokens, AllTold, FatesOf, OpenPeers, CloseChannels, Touching, ChannelsAt, Forgotten;
    var u := t.(subs := s.subs, retained := s.retained, peers := s.peers);
    CloseIs(s, u, Touching(s.channels, p), Closed);
  }

  lemma ForgottenCommutes(subs: Subs, p: PeerId, b: BackendId)
    ensures Forgotten(subs - {b}, p) - {b} == Forgotten(subs, p) - {b}
  {
  }

  /** The state after the owner's part: what it leaves for later is the topics and the claim. */
  predicate LeftLease(s: State, mid: State, p: PeerId, now: int)
    requires p in s.peers
  {
    mid.peers == s.peers
    && if IsOwner(s, p)
       then var b := s.peers[p].claim.value.backendId;
         mid.(subs := mid.subs - {b}, retained := mid.retained - {b}, peers := Unclaimed(mid.peers, p))
           == Abdicate(s, p, now)
       else mid == s
  }

  lemma DisconnectIs(s: State, mid: State, t: State, p: PeerId, now: int)
    requires p in s.peers && LeftLease(s, mid, p, now)
    requires var claim, dead := s.peers[p].claim, Touching(mid.channels, p);
      t == mid.(channels := mid.channels - dead, tickets := mid.tickets - Tokens(mid.channels, dead),
                notices := mid.notices + AllTold(OpenPeers(mid.peers), mid.channels, dead, Closed),
                fates := mid.fates + FatesOf(mid.channels, dead, Closed),
                subs := if claim.Some? then Forgotten(mid.subs, p) - {claim.value.backendId}
                  else Forgotten(mid.subs, p),
                retained := if claim.Some? then mid.retained - {claim.value.backendId} else mid.retained,
                peers := mid.peers - {p})
    ensures t == Disconnect(s, p, now)
  {
    hide Tokens, AllTold, FatesOf, OpenPeers, Touching, Forgotten, Abdicate, Depart, Unclaimed;
    var claim := s.peers[p].claim;
    NotOwner(s, p, now);
    OwnersClaim(s, p);
    hide IsOwner;
    if IsOwner(s, p) {
      var b := claim.value.backendId;
      var u := mid.(subs := mid.subs - {b}, retained := mid.retained - {b}, peers := Unclaimed(mid.peers, p));
      UnclaimedAndGone(s.peers, p);
      ForgottenCommutes(mid.subs, p, b);
      assert mid.retained - {b} - {b} == mid.retained - {b};
      DepartIs(u, t, p, claim);
    } else {
      DepartIs(s, t, p, claim);
    }
  }

  lemma NotOwner(s: State, p: PeerId, now: int)
    ensures !IsOwner(s, p) ==> Abdicate(s, p, now) == s
  {
  }

  // ---- Registration --------------------------------------------------------

  function Dismissed(peers: map<PeerId, Peer>, p: PeerId): map<PeerId, Peer> {
    if p in peers then peers[p := peers[p].(claim := None, open := false)] else peers
  }

  lemma ReplaceIs(s: State, t: State, b: BackendId)
    requires b in s.leases
    requires var dead, holder := Holding(s.channels, b), s.leases[b].holder;
      t == s.(channels := s.channels - dead, tickets := s.tickets - Tokens(s.channels, dead),
              notices := s.notices + AllTold(OpenPeers(s.peers), s.channels, dead, EpochChanged),
              fates := s.fates + FatesOf(s.channels, dead, EpochChanged),
              leases := s.leases - {b}, registry := s.registry - {b}, subs := s.subs - {b},
                retained := s.retained - {b},
              peers := Dismissed(s.peers, holder),
              sent := s.sent + Mail(OpenPeers(s.peers), holder, CloseFrame(CLOSE_REPLACED)))
    ensures t == ReplaceOwner(s, b)
  {
    hide Tokens, AllTold, FatesOf, OpenPeers, EndLease, Holding, Mail, Send;
    var holder := s.leases[b].holder;
    var ended := t.(peers := Unclaimed(s.peers, holder), sent := s.sent);
    EndLeaseIs(s, ended, b, EpochChanged);
    UnclaimedAndGone(s.peers, holder);
    SendIs(ended, ended.(sent := t.sent), holder, CloseFrame(CLOSE_REPLACED));
    DismissedIs(s.peers, holder);
    if !Open(ended, holder) { NoMail(s.peers, holder, CloseFrame(CLOSE_REPLACED)); }
  }

  lemma DismissedIs(peers: map<PeerId, Peer>, p: PeerId)
    ensures p in peers && peers[p].open ==>
              Dismissed(peers, p) == Unclaimed(peers, p)[p := Unclaimed(peers, p)[p].(open := false)]
    ensures !(p in peers && peers[p].open) ==> Dismissed(peers, p) == Unclaimed(peers, p)
  {
  }

  lemma OneLessIsClean(peers: map<PeerId, Peer>, p: PeerId)
    requires CleanPeers(peers)
    ensures CleanPeers(peers - {p})
  {
    hide CleanView;
  }

  lemma DismissedIsClean(peers: map<PeerId, Peer>, p: PeerId)
    requires CleanPeers(peers)
    ensures CleanPeers(Dismissed(peers, p))
  {
    hide CleanView;
  }

  lemma MailToOpen(peers: map<PeerId, Peer>, p: PeerId, msg: Message)
    requires p in peers && peers[p].open
    ensures Mail(OpenPeers(peers), p, msg) == multiset{Envelope(p, msg)}
  {
  }

  lemma NoMail(peers: map<PeerId, Peer>, p: PeerId, msg: Message)
    requires !(p in peers && peers[p].open)
    ensures Mail(OpenPeers(peers), p, msg) == multiset{}
  {
  }

  /** The predecessor's registry entry is overwritten rather than removed first. */
  lemma GrantIs(s: State, mid: State, t: State, p: PeerId, b: BackendId, namespace: Namespace, root: CredentialId,
                now: int)
    requires if b in s.leases then mid.(registry := mid.registry - {b}) == ReplaceOwner(s, b) else mid == s
    requires mid.registry == s.registry
    requires var epoch := s.store.maxEpoch + 1;
      t == mid.(leases := mid.leases[b := Lease(epoch, p, now)],
                store := TouchIdentity(AllocateEpoch(s.store), b, Some(root), now),
                registry := s.registry[b := Presence(namespace, epoch, now, now)])
    ensures t == GrantLease(s, p, b, namespace, root, now)
  {
    hide TouchIdentity, EndLease, Send;
    var epoch := s.store.maxEpoch + 1;
    assert (s.registry - {b})[b := Presence(namespace, epoch, now, now)]
           == s.registry[b := Presence(namespace, epoch, now, now)];
    var draws := s.(store := AllocateEpoch(s.store));
    if b in s.leases { ReplaceIgnoresStore(s, b, AllocateEpoch(s.store)); }
    hide ReplaceOwner;
  }

  lemma ReplaceIgnoresStore(s: State, b: BackendId, store: Store)
    requires b in s.leases
    ensures ReplaceOwner(s.(store := store), b) == ReplaceOwner(s, b).(store := store)
  {
    var t := s.(store := store);
    assert ChannelsOf(t, b) == ChannelsOf(s, b);
    var dead := ChannelsOf(s, b);
    assert TicketsOf(t, dead) == TicketsOf(s, dead);
    assert Notices(t, dead, EpochChanged) == Notices(s, dead, EpochChanged);
    hide Notices, TicketsOf, ChannelsOf;
  }

  lemma AddPeerIs(s: State, t: State, p: PeerId, peer: Peer)
    requires peer.open
    requires t == s.(peers := s.peers[p := peer], usedPeers := s.usedPeers + {p},
                     sent := s.sent + multiset{Envelope(p,
                                                        PeerReady(peer.claim, Visible(s.registry, peer.namespace,
                                                              peer.scope)))})
    ensures t == AddPeer(s, p, peer)
  {
    hide Visible;
  }

  lemma BroadcastAfter(s: State, t: State, p: PeerId)
    requires t == s.(sent := s.sent + multiset(SnapshotMail(s.peers, s.registry, Audience(s.peers, Some(p)))))
    ensures t == Broadcast(s, Some(p))
  {
    hide SnapshotMail, Audience, Broadcast;
    BroadcastIs(s, t, Some(p));
  }

  /** Credentials whose peers the memo key can tell apart. */
  predicate CleanCredentials(credentials: map<CredentialId, Credential>) {
    forall id :: id in credentials ==> CleanView(credentials[id].namespace, PeerScope(credentials[id]))
  }

  function PeerScope(c: Credential): Option<seq<BackendId>> { if c.kind == Device then c.scope else None }

  lemma DeniedIs(s: State, t: State, h: Hello, spent: bool, p: PeerId, draw: Draw, now: int)
    requires JudgeHello(s.store, h, spent, now).Denied? && t == s.(store := FindValid(s.store, h.token, now))
    ensures t == Greet(s, h, spent, p, draw, now)
  {
    hide JudgeHello, FindValid;
  }

  lemma AdmittedIs(s: State, seen: State, t: State, h: Hello, spent: bool, p: PeerId, draw: Draw, now: int,
                   id: CredentialId)
    requires JudgeHello(s.store, h, spent, now) == Admitted(id) && seen == s.(store := FindValid(s.store, h.token, now))
    requires id in seen.store.credentials && t == Admit(seen, h, id, p, draw, now)
    ensures t == Greet(s, h, spent, p, draw, now)
  {
    hide JudgeHello, FindValid, Admit;
  }

  lemma FindValidKeeps(s: Store, token: Token, now: int)
    ensures var t := FindValid(s, token, now);
      && t.credentials.Keys == s.credentials.Keys
      && (forall id :: id in s.credentials ==>
            t.credentials[id] == s.credentials[id].(lastUsedAt := t.credentials[id].lastUsedAt))
    ensures CleanCredentials(s.credentials) ==> CleanCredentials(FindValid(s, token, now).credentials)
    ensures var id := Resolve(s, token, now); id.Some? ==> id.value in s.credentials
  {
    hide Usable, CleanView;
  }

  // ---- Revocation ----------------------------------------------------------

  /** The peers as they are once those of some set on these credentials have been closed. */
  function ClosedFor(peers: map<PeerId, Peer>, ids: set<CredentialId>, done: set<PeerId>): map<PeerId, Peer> {
    map p | p in peers :: if p in done && peers[p].credential in ids then peers[p].(open := false) else peers[p]
  }

  function Affected(peers: map<PeerId, Peer>, ids: set<CredentialId>, done: set<PeerId>): set<PeerId> {
    set p | p in done && p in peers && peers[p].credential in ids
  }

  lemma CloseCredentialsIs(s: State, t: State, ids: set<CredentialId>)
    requires t == s.(peers := ClosedFor(s.peers, ids, s.peers.Keys),
                     sent := s.sent + multiset(FanOut(OpenPeers(s.peers), Affected(s.peers, ids, s.peers.Keys),
                                                      CloseFrame(CLOSE_POLICY))))
    ensures t == CloseCredentials(s, ids)
  {
    var told := FanOut(OpenPeers(s.peers), Affected(s.peers, ids, s.peers.Keys), CloseFrame(CLOSE_POLICY));
    assert told == set p | p in s.peers && s.peers[p].open
           && s.peers[p].credential in ids :: Envelope(p, CloseFrame(CLOSE_POLICY));
    assert t.peers == CloseCredentials(s, ids).peers;
    hide FanOut, OpenPeers, Affected, ClosedFor;
  }

  lemma ClosedForMore(peers: map<PeerId, Peer>, ids: set<CredentialId>, done: set<PeerId>, p: PeerId)
    requires p in peers && p !in done
    ensures p in ClosedFor(peers, ids, done) && ClosedFor(peers, ids, done)[p] == peers[p]
    ensures p !in Affected(peers, ids, done)
    ensures peers[p].credential in ids ==>
              && ClosedFor(peers, ids, done + {p}) == ClosedFor(peers, ids, done)[p := peers[p].(open := false)]
              && Affected(peers, ids, done + {p}) == Affected(peers, ids, done) + {p}
    ensures peers[p].credential !in ids ==>
              ClosedFor(peers, ids, done + {p}) == ClosedFor(peers, ids, done)
                && Affected(peers, ids, done + {p}) == Affected(peers, ids, done)
  {
  }

  lemma NobodyClosed(peers: map<PeerId, Peer>, ids: set<CredentialId>)
    ensures ClosedFor(peers, ids, {}) == peers && Affected(peers, ids, {}) == {}
  {
  }
}
