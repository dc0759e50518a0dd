/** The gateway in place: maps updated by handlers, loops and sweeps, each proved against the step on values. */
module Gateway {
  import opened Basics
  import opened CredentialStore
  import opened Storage
  import opened Session
  import opened SessionProofs
  import opened Views
  import opened GatewayParts

  class Gateway {
    const config: Config
    const storage: GatewayStorage
    var peers: map<PeerId, Peer>
    var leases: map<BackendId, Lease>
    var registry: Registry
    var channels: Channels
    var tickets: map<TicketToken, Ticket>
    var dials: set<Dial>
    var subs: map<BackendId, map<Topic, set<PeerId>>>
    var retained: map<BackendId, map<Topic, Payload>>
    var sent: multiset<Envelope>
    var notices: multiset<Notice>
    ghost var fates: map<ChannelId, Fate>
    ghost var wirings: multiset<ChannelId>
    ghost var published: map<(BackendId, Topic), (nat, Payload)>
    ghost var usedPeers: set<PeerId>
    ghost var usedTickets: set<TicketToken>

    ghost function View(): State
      reads this, storage
    {
      State(config, storage.View(), peers, leases, registry, channels, tickets, dials, subs, retained,
            sent, notices, fates, wirings, published, usedPeers, usedTickets)
    }

    constructor (config: Config, storage: GatewayStorage)
      ensures View() == Initial(config, storage.View()) && this.config == config && this.storage == storage
    {
      this.config, this.storage := config, storage;
      peers, leases, registry, channels, tickets, dials := map[], map[], map[], map[], map[], {};
      subs, retained, sent, notices := map[], map[], multiset{}, multiset{};
      fates, wirings, published, usedPeers, usedTickets := map[], multiset{}, map[], {}, {};
    }

    lemma Shown()
      ensures var s := View();
        && s.config == config && s.store == storage.View() && s.peers == peers && s.leases == leases
           && s.registry == registry
        && s.channels == channels && s.tickets == tickets && s.dials == dials && s.subs == subs
           && s.retained == retained
        && s.sent == sent && s.notices == notices && s.fates == fates && s.wirings == wirings
           && s.published == published
        && s.usedPeers == usedPeers && s.usedTickets == usedTickets
    {
    }

    method SendToWs(p: PeerId, msg: Message)
      modifies `sent
      ensures sent == old(sent) + Mail(OpenPeers(peers), p, msg)
    {
      if p in peers && peers[p].open { sent := sent + multiset{Envelope(p, msg)}; }
    }

    // ---- Channels ----------------------------------------------------------

    method CountChannelsForPeer(p: PeerId) returns (count: nat)
      ensures count == |Touching(channels, p)|
    {
      count := 0;
      ghost var mine := Touching(channels, p);
      var todo := channels.Keys;
      while todo != {}
        invariant todo <= channels.Keys
        invariant count == |mine - todo|
        decreases todo
      {
        var c :| c in todo;
        if channels[c].client == Some(p) || channels[c].backend == p {
          assert mine - (todo - {c}) == mine - todo + {c};
          count := count + 1;
        } else {
          assert mine - (todo - {c}) == mine - todo;
        }
        todo := todo - {c};
      }
      assert mine - todo == mine;
    }

    method DropTickets(tokens: set<TicketToken>)
      modifies `tickets
      ensures tickets == old(tickets) - tokens
    {
      var todo := tokens;
      while todo != {}
        invariant todo <= tokens
        invariant tickets == old(tickets) - (tokens - todo)
        decreases todo
      {
        var token :| token in todo;
        tickets := tickets - {token};
        todo := todo - {token};
      }
    }

    /** The channel's end is told that it closed, if that peer is still there. */
    method TellEnd(c: ChannelId, ch: Channel, end: End, reason: Reason)
      modifies `notices
      ensures notices == old(notices) + Told(OpenPeers(peers), c, ch, end, reason)
    {
      var to := ch.PeerAt(end);
      if to.Some? && to.value in peers && peers[to.value].open {
        notices := notices + multiset{Notice(to.value, c, end, reason)};
      }
    }

    /** What closing these channels does to the four maps that know about them. */
    twostate predicate HaveClosed(dead: set<ChannelId>, reason: Reason)
      reads this
    {
      && channels == old(channels) - dead
      && tickets == old(tickets) - Tokens(old(channels), dead)
      && notices == old(notices) + AllTold(OpenPeers(old(peers)), old(channels), dead, reason)
      && fates == old(fates) + FatesOf(old(channels), dead, reason)
    }

    method TeardownChannel(c: ChannelId, reason: Reason)
      modifies `channels, `tickets, `notices, `fates
      ensures c in old(channels) ==>
                && channels == old(channels) - {c}
                && tickets == old(tickets) - old(channels)[c].tickets
                && notices == old(notices) + Told(OpenPeers(peers), c, old(channels)[c], ClientEnd, reason)
                              + Told(OpenPeers(peers), c, old(channels)[c], BackendEnd, reason)
                && fates == old(fates)[c := Fate(old(channels)[c], reason)]
      ensures c !in old(channels) ==> unchanged(this)
    {
      hide Told, OpenPeers;
      if c !in channels { return; }
      var ch := channels[c];
      channels := channels - {c};
      DropTickets(ch.tickets);
      TellEnd(c, ch, ClientEnd, reason);
      TellEnd(c, ch, BackendEnd, reason);
      fates := fates[c := Fate(ch, reason)];
    }

    method CloseChannelsForBackend(backendId: BackendId, reason: Reason)
      modifies `channels, `tickets, `notices, `fates
      ensures HaveClosed(Holding(old(channels), backendId), reason)
    {
      hide Told, OpenPeers, AllTold, Tokens, FatesOf;
      ghost var done: set<ChannelId> := {};
      ghost var all, open := channels, OpenPeers(peers);
      var todo := channels.Keys;
      NothingToClose(open, all, reason);
      while todo != {}
        invariant todo <= all.Keys && done == Holding(all, backendId) - todo
        invariant channels == all - done && tickets == old(tickets) - Tokens(all, done)
        invariant notices == old(notices) + AllTold(open, all, done, reason)
                  && fates == old(fates) + FatesOf(all, done, reason)
        decreases todo
      {
        var c :| c in todo;
        todo := todo - {c};
        if channels[c].backendId == backendId {
          TeardownChannel(c, reason);
          TokensMore(all, done, c);
          AllToldMore(open, all, done, c, reason);
          FatesMore(all, done, c, reason);
          done := done + {c};
        }
      }
      assert done == Holding(all, backendId);
    }

    method CloseChannelsForPeer(p: PeerId)
      modifies `channels, `tickets, `notices, `fates
      ensures HaveClosed(Touching(old(channels), p), Closed)
    {
      hide Told, OpenPeers, AllTold, Tokens, FatesOf;
      ghost var done: set<ChannelId> := {};
      ghost var all, open := channels, OpenPeers(peers);
      var todo := channels.Keys;
      NothingToClose(open, all, Closed);
      while todo != {}
        invariant todo <= all.Keys && done == Touching(all, p) - todo
        invariant channels == all - done && tickets == old(tickets) - Tokens(all, done)
        invariant notices == old(notices) + AllTold(open, all, done, Closed)
                  && fates == old(fates) + FatesOf(all, done, Closed)
        decreases todo
      {
        var c :| c in todo;
        todo := todo - {c};
        if channels[c].client == Some(p) || channels[c].backend == p {
          TeardownChannel(c, Closed);
          TokensMore(all, done, c);
          AllToldMore(open, all, done, c, Closed);
          FatesMore(all, done, c, Closed);
          done := done + {c};
        }
      }
      assert done == Touching(all, p);
    }

    // ---- Registry and topics -----------------------------------------------

    method VisibleRegistry(namespace: Namespace, scope: Option<seq<BackendId>>) returns (items: Registry)
      ensures items == Visible(registry, namespace, scope)
      ensures forall b :: b in items <==>
                b in registry && registry[b].namespace == namespace && (scope == None || b in scope.value)
      ensures forall b :: b in items ==> items[b] == registry[b]
    {
      items := map[];
      var todo := registry.Keys;
      while todo != {}
        invariant todo <= registry.Keys
        invariant items == map b | b in registry && b !in todo
                  && CanReach(namespace, scope, registry[b].namespace, b) :: registry[b]
        decreases todo
      {
        var b :| b in todo;
        todo := todo - {b};
        if registry[b].namespace == namespace && (scope.Some? ==> b in scope.value) {
          items := items[b := registry[b]];
        }
      }
    }

    /** Each peer is sent its own view; a view is computed once per namespace and scope. */
    method BroadcastRegistrySnapshot(except: Option<PeerId>)
      requires CleanPeers(peers)
      modifies `sent
      ensures sent == old(sent) + multiset(SnapshotMail(peers, registry, Audience(peers, except)))
    {
      hide SnapshotMail, Mail, Visible, ScopeKey, OpenPeers, MemoHolds;
      var perScope: map<string, Registry> := map[];
      var todo := peers.Keys;
      ghost var done: set<PeerId> := {};
      NoSnapshotMail(peers, registry);
      NoMemo(peers, registry);
      while todo != {}
        invariant todo <= peers.Keys && done == Audience(peers, except) - todo
        invariant MemoHolds(perScope, peers, registry)
        invariant sent == old(sent) + multiset(SnapshotMail(peers, registry, done))
        decreases todo
      {
        var p :| p in todo;
        todo := todo - {p};
        if except != Some(p) {
          var key := ScopeKey(peers[p].namespace, peers[p].scope);
          if key !in perScope {
            var items := VisibleRegistry(peers[p].namespace, peers[p].scope);
            MemoMore(perScope, peers, registry, p);
            perScope := perScope[key := items];
          }
          MemoisedView(perScope, peers, registry, p);
          SendToWs(p, Snapshot(perScope[key]));
          SnapshotMailMore(peers, registry, done, p);
          done := done + {p};
        }
      }
      assert done == Audience(peers, except);
    }

    method RemoveTopicSubscriptionsForPeer(p: PeerId)
      modifies `subs
      ensures subs == Forgotten(old(subs), p)
    {
      var todo := subs.Keys;
      while todo != {}
        invariant subs.Keys == old(subs).Keys && todo <= subs.Keys
        invariant forall b :: b in subs ==> subs[b] == if b in todo then old(subs)[b] else Forgotten(old(subs), p)[b]
        decreases todo
      {
        var b :| b in todo;
        todo := todo - {b};
        var topics := ForgetIn(subs[b], p);
        subs := subs[b := topics];
      }
    }

    static method ForgetIn(topics: map<Topic, set<PeerId>>, p: PeerId) returns (left: map<Topic, set<PeerId>>)
      ensures left == map t | t in topics :: topics[t] - {p}
    {
      left := topics;
      var todo := topics.Keys;
      while todo != {}
        invariant left.Keys == topics.Keys && todo <= topics.Keys
        invariant forall t :: t in left ==> left[t] == if t in todo then topics[t] else topics[t] - {p}
        decreases todo
      {
        var t :| t in todo;
        todo := todo - {t};
        left := left[t := left[t] - {p}];
      }
    }

    /** One message to each subscriber that is still there. */
    method Deliver(to: set<PeerId>, msg: Message)
      modifies `sent
      ensures sent == old(sent) + multiset(FanOut(OpenPeers(peers), to, msg))
    {
      hide Mail, FanOut, OpenPeers;
      var todo := to;
      ghost var done: set<PeerId> := {};
      NoFanOut(OpenPeers(peers), msg);
      while todo != {}
        invariant todo <= to && done == to - todo
        invariant sent == old(sent) + multiset(FanOut(OpenPeers(peers), done, msg))
        decreases todo
      {
        var p :| p in todo;
        todo := todo - {p};
        SendToWs(p, msg);
        FanOutMore(OpenPeers(peers), done, p, msg);
        done := done + {p};
      }
      assert done == to;
    }

    // ---- Channel messages --------------------------------------------------

    method HandleChannelReject(p: PeerId, c: ChannelId)
      modifies this
      ensures View() == RejectChannel(old(View()), p, c)
    {
      hide CloseChannels, Told, OpenPeers;
      if c !in channels || channels[c].backend != p { return; }
      TeardownChannel(c, Rejected);
      CloseOneIs(old(View()), View(), c, Rejected);
    }

    method HandleChannelClose(p: PeerId, c: ChannelId)
      modifies this
      ensures View() == CloseChannel(old(View()), p, c)
    {
      hide CloseChannels, Told, OpenPeers;
      if c !in channels { return; }
      if channels[c].client != Some(p) && channels[c].backend != p { return; }
      TeardownChannel(c, Closed);
      CloseOneIs(old(View()), View(), c, Closed);
    }

    method OnPairingTimeout(c: ChannelId)
      modifies this
      ensures View() == PairingTimeout(old(View()), c)
    {
      hide CloseChannels, Told, OpenPeers;
      if c !in channels || !channels[c].armed { return; }
      TeardownChannel(c, TimedOut);
      CloseOneIs(old(View()), View(), c, TimedOut);
    }

    method IssueChannelTicket(c: ChannelId, end: End, token: TicketToken, now: int)
      modifies `tickets, `usedTickets
      ensures tickets == old(tickets)[token := Ticket(c, end, now + config.ticketTtl)]
      ensures usedTickets == old(usedTickets) + {token}
    {
      tickets := tickets[token := Ticket(c, end, now + config.ticketTtl)];
      usedTickets := usedTickets + {token};
    }

    method JudgeChannelOpen(p: PeerId, target: BackendId) returns (verdict: OpenVerdict)
      requires p in peers
      ensures verdict == ChannelVerdict(View(), p, target)
      ensures verdict.Grant? ==>
                target in registry && registry[target].namespace == peers[p].namespace
                && (peers[p].scope == None || target in peers[p].scope.value)
    {
      hide Touching, ChannelsAt;
      TouchingIs(View(), p);
      if target !in registry || target !in leases || leases[target].holder !in peers
         || !CanReach(peers[p].namespace, peers[p].scope, registry[target].namespace, target) {
        return Refuse(Offline);
      }
      var count := CountChannelsForPeer(p);
      if count >= config.maxChannels { return Refuse(RateLimited); }
      return Grant(leases[target].epoch, leases[target].holder);
    }

    method HandleChannelOpen(p: PeerId, target: BackendId, draw: ChannelDraw, now: int)
      requires p in peers
      modifies this
      ensures channels == old(channels)
              || (target in old(registry) && old(registry)[target].namespace == old(peers)[p].namespace
                  && (old(peers)[p].scope == None || target in old(peers)[p].scope.value))
      ensures View() == OpenChannel(old(View()), p, target, draw, now)
    {
      hide Mail, OpenPeers, ChannelVerdict;
      var verdict := JudgeChannelOpen(p, target);
      match verdict
      case Refuse(code) =>
        SendToWs(p, Error(code));
        SendIs(old(View()), View(), p, Error(code));
      case Grant(epoch, holder) =>
        GrantChannel(p, target, epoch, holder, draw, now);
        OpenIs(old(View()), View(), p, target, draw, now);
    }

    method GrantChannel(p: PeerId, target: BackendId, epoch: nat, holder: PeerId, draw: ChannelDraw, now: int)
      modifies `channels, `tickets, `usedTickets, `sent
      ensures channels == old(channels)[draw.channel := Undialled(target, epoch, Some(p), holder,
                                                                  {draw.clientTicket, draw.backendTicket},
                                                                  now + config.ticketTtl)]
      ensures tickets == old(tickets)[draw.clientTicket := Ticket(draw.channel, ClientEnd, now + config.ticketTtl)]
                                     [draw.backendTicket := Ticket(draw.channel, BackendEnd, now + config.ticketTtl)]
      ensures usedTickets == old(usedTickets) + {draw.clientTicket, draw.backendTicket}
      ensures sent == old(sent) + Mail(OpenPeers(peers), holder,
                                       ChannelOffer(draw.channel, draw.backendTicket, Some(p)))
                                + Mail(OpenPeers(peers), p, ChannelReady(draw.channel, draw.clientTicket))
    {
      hide Mail, OpenPeers;
      IssueChannelTicket(draw.channel, ClientEnd, draw.clientTicket, now);
      IssueChannelTicket(draw.channel, BackendEnd, draw.backendTicket, now);
      channels := channels[draw.channel := Undialled(target, epoch, Some(p), holder,
                                                     {draw.clientTicket, draw.backendTicket},
                                                     now + config.ticketTtl)];
      SendToWs(holder, ChannelOffer(draw.channel, draw.backendTicket, Some(p)));
      SendToWs(p, ChannelReady(draw.channel, draw.clientTicket));
    }

    // ---- HTTP proxying -----------------------------------------------------

    method JudgeProxy(id: CredentialId, target: BackendId) returns (status: nat)
      requires id in storage.credentials
      ensures status == ReachStatus(View(), storage.credentials[id], target)
    {
      hide Touching, ChannelsAt;
      if target !in leases { return 502; }
      if target !in registry { return 502; }
      var c := storage.credentials[id];
      if !CanReach(c.namespace, c.scope, registry[target].namespace, target) { return 502; }
      var holder := leases[target].holder;
      if holder !in peers { return 502; }
      TouchingIs(View(), holder);
      var count := CountChannelsForPeer(holder);
      if count >= config.maxChannels { return 429; }
      return 0;
    }

    /** Answers with a status, or opens an internal channel (0). */
    method HandleProxyRequest(token: Token, target: BackendId, limited: bool, draw: ChannelDraw, now: int)
      returns (status: nat)
      requires TokensUnique(storage.View())
      modifies this, storage`credentials
      ensures status == ProxyStatus(old(View()), token, target, limited, now)
      ensures View() == Proxy(old(View()), token, target, limited, draw, now)
    {
      hide Mail, OpenPeers, ProxyStatus, FindValid, Proxy;
      status := JudgeProxyRequest(token, target, limited, now);
      if status != 0 {
        NotProxied(old(View()), View(), token, target, limited, draw, now);
      } else {
        OpenInternal(target, draw, now);
        ProxyIs(old(View()), View(), token, target, draw, now);
      }
    }

    method JudgeProxyRequest(token: Token, target: BackendId, limited: bool, now: int) returns (status: nat)
      requires TokensUnique(storage.View())
      modifies storage`credentials
      ensures status == ProxyStatus(old(View()), token, target, limited, now)
      ensures storage.View() == FindValid(old(storage.View()), token, now)
      ensures status == 0 ==> target in leases && !limited
    {
      hide ReachStatus, Resolve, FindValid, ProxyStatus;
      ghost var before := View();
      StatusIs(before, token, target, limited, now);
      var auth := storage.FindValidCredential(token, now);
      if auth.None? { return 401; }
      if limited { return 429; }
      SameReach(before, View(), token, auth.value, target, now);
      status := JudgeProxy(auth.value, target);
    }

    method OpenInternal(target: BackendId, draw: ChannelDraw, now: int)
      requires target in leases
      modifies `channels, `tickets, `usedTickets, `sent
      ensures channels == old(channels)[draw.channel :=
                Undialled(target, leases[target].epoch, None, leases[target].holder, {draw.backendTicket},
                          now + config.ticketTtl)]
      ensures tickets == old(tickets)[draw.backendTicket := Ticket(draw.channel, BackendEnd, now + config.ticketTtl)]
      ensures usedTickets == old(usedTickets) + {draw.backendTicket}
      ensures sent == old(sent) + Mail(OpenPeers(peers), leases[target].holder,
                                       ChannelOffer(draw.channel, draw.backendTicket, None))
    {
      var lease := leases[target];
      IssueChannelTicket(draw.channel, BackendEnd, draw.backendTicket, now);
      channels := channels[draw.channel := Undialled(target, lease.epoch, None, lease.holder, {draw.backendTicket},
                                                     now + config.ticketTtl)];
      SendToWs(lease.holder, ChannelOffer(draw.channel, draw.backendTicket, None));
    }

    // ---- Dialling ----------------------------------------------------------

    method HandleChannelUpgrade(token: TicketToken, c: ChannelId, now: int) returns (accepted: bool)
      modifies `tickets, `dials
      ensures accepted == DialAccepted(old(View()), token, c, now)
      ensures View() == ConsumeTicket(old(View()), token, c, now)
    {
      if token !in tickets {
        assert tickets - {token} == tickets;
        return false;
      }
      var ticket := tickets[token];
      tickets := tickets - {token};
      if c !in channels || ticket.channel != c || now > ticket.expiresAt { return false; }
      dials := dials + {Dial(c, ticket.end)};
      return true;
    }

    /**
     The leg that completes the pair wires the channel and stops its timer; an internal channel needs the backend's
     only.
     */
    static method FillLeg(ch: Channel, end: End, socket: Socket) returns (filled: Channel, wires: bool)
      ensures filled == WithLeg(ch, end, socket) && wires == (filled.wired && !ch.wired)
    {
      filled := if end == ClientEnd then ch.(clientLeg := Some(socket)) else ch.(backendLeg := Some(socket));
      wires := false;
      if filled.client.None? && filled.backendLeg.Some? && !filled.wired {
        wires := true;
      } else if filled.clientLeg.Some? && filled.backendLeg.Some? && !filled.wired {
        wires := true;
      }
      if wires { filled := filled.(wired := true, armed := false); }
    }

    /** The upgrade is through; the channel may be gone by now, and then the socket is dropped. */
    method AttachSocket(dial: Dial, socket: Socket)
      requires dial in dials
      modifies `dials, `channels, `wirings
      ensures View() == Attach(old(View()), dial, socket)
    {
      hide WithLeg;
      dials := dials - {dial};
      if dial.channel !in channels { return; }
      var filled, wires := FillLeg(channels[dial.channel], dial.end, socket);
      if wires { wirings := wirings + multiset{dial.channel}; }
      channels := channels[dial.channel := filled];
    }

    method OnLegClosed(c: ChannelId)
      modifies this
      ensures View() == LegClosed(old(View()), c)
    {
      hide CloseChannels, Told, OpenPeers;
      if c !in channels || !channels[c].wired { return; }
      TeardownChannel(c, Closed);
      CloseOneIs(old(View()), View(), c, Closed);
    }

    // ---- Topics ------------------------------------------------------------

    method HandleTopicSubscribe(p: PeerId, b: BackendId, topic: Topic)
      requires p in peers
      modifies `subs, `sent
      ensures View() == Subscribe(old(View()), p, b, topic)
      ensures subs != old(subs) ==>
                b in registry && registry[b].namespace == peers[p].namespace
                && (peers[p].scope == None || b in peers[p].scope.value)
    {
      hide Mail, OpenPeers;
      if b !in registry || !CanReach(peers[p].namespace, peers[p].scope, registry[b].namespace, b) {
        SendToWs(p, Error(Offline));
        SendIs(old(View()), View(), p, Error(Offline));
        return;
      }
      AddSubscriber(p, b, topic);
      SendToWs(p, Subscribed(b, topic));
      if b in retained && topic in retained[b] { SendToWs(p, TopicMessage(b, topic, Some(retained[b][topic]))); }
      SubscribeIs(old(View()), View(), p, b, topic);
    }

    method AddSubscriber(p: PeerId, b: BackendId, topic: Topic)
      modifies `subs
      ensures subs == WithSubscriber(old(subs), b, topic, p)
    {
      var topics := if b in subs then subs[b] else map[];
      var members := if topic in topics then topics[topic] else {};
      subs := subs[b := topics[topic := members + {p}]];
    }

    method HandleTopicUnsubscribe(p: PeerId, b: BackendId, topic: Topic)
      modifies `subs, `sent
      ensures View() == Unsubscribe(old(View()), p, b, topic)
    {
      hide Mail, OpenPeers, Send;
      if b in subs && topic in subs[b] { subs := subs[b := subs[b][topic := subs[b][topic] - {p}]]; }
      ghost var t := View();
      SendToWs(p, Unsubscribed(b, topic));
      SendIs(t, View(), p, Unsubscribed(b, topic));
    }

    method IsCurrentBackendOwner(p: PeerId) returns (owner: bool)
      ensures owner == IsOwner(View(), p)
    {
      if p !in peers || peers[p].claim.None? { return false; }
      var claim := peers[p].claim.value;
      owner := claim.backendId in leases && leases[claim.backendId].holder == p
        && leases[claim.backendId].epoch == claim.epoch;
    }

    method HandleTopicPublish(p: PeerId, topic: Topic, payload: Option<Payload>, retain: bool)
      modifies `retained, `published, `sent
      ensures View() == Publish(old(View()), p, topic, payload, retain)
    {
      hide OpenPeers, FanOut, IsOwner, RetainedWith, PublishedWith;
      var owner := IsCurrentBackendOwner(p);
      if owner {
        OwnersClaim(View(), p);
        PublishFor(peers[p].claim.value, topic, payload, retain);
        PublishIs(old(View()), View(), p, topic, payload, retain);
      } else {
        NotPublished(View(), p, topic, payload, retain);
      }
    }

    method PublishFor(claim: Claim, topic: Topic, payload: Option<Payload>, retain: bool)
      modifies `retained, `published, `sent
      ensures var keep := retain && payload.Some?;
        && retained == (if keep then RetainedWith(old(retained), claim, topic, payload.value) else old(retained))
        && published == (if keep then PublishedWith(old(retained), old(published), claim, topic, payload.value)
                         else old(published))
      ensures sent == old(sent) + multiset(FanOut(OpenPeers(peers), Followers(subs, claim.backendId, topic),
                                                  TopicMessage(claim.backendId, topic, payload)))
    {
      hide OpenPeers, FanOut, RetainedWith, PublishedWith;
      if retain && payload.Some? { Keep(claim, topic, payload.value); }
      var to := if claim.backendId in subs && topic in subs[claim.backendId] then subs[claim.backendId][topic] else {};
      Deliver(to, TopicMessage(claim.backendId, topic, payload));
    }

    method Keep(claim: Claim, topic: Topic, payload: Payload)
      modifies `retained, `published
      ensures retained == RetainedWith(old(retained), claim, topic, payload)
      ensures published == PublishedWith(old(retained), old(published), claim, topic, payload)
    {
      var topics := if claim.backendId in retained then retained[claim.backendId] else map[];
      if |topics| >= MAX_RETAINED_TOPICS && topic !in topics {
        retained := retained[claim.backendId := topics];
      } else {
        retained := retained[claim.backendId := topics[topic := payload]];
        published := published[(claim.backendId, topic) := (claim.epoch, payload)];
      }
    }

    // ---- Heartbeats, snapshots, directed messages --------------------------

    method HandleBackendHeartbeat(p: PeerId, epoch: nat, now: int)
      modifies `leases, `registry, `sent
      ensures View() == Heartbeat(old(View()), p, epoch, now)
    {
      hide OpenPeers, Mail, Send;
      var owner := IsCurrentBackendOwner(p);
      if !owner || peers[p].claim.value.epoch != epoch { return; }
      var b := peers[p].claim.value.backendId;
      leases := leases[b := leases[b].(heartbeatAt := now)];
      if b in registry { registry := registry[b := registry[b].(lastSeenAt := now)]; }
      ghost var t := View();
      SendToWs(p, HeartbeatAck(epoch));
      SendIs(t, View(), p, HeartbeatAck(epoch));
    }

    method HandleRequestRegistrySnapshot(p: PeerId)
      requires p in peers
      modifies `sent
      ensures View() == RequestSnapshot(old(View()), p)
    {
      hide OpenPeers, Mail, Visible;
      var items := VisibleRegistry(peers[p].namespace, peers[p].scope);
      SendToWs(p, Snapshot(items));
      SendIs(old(View()), View(), p, Snapshot(items));
    }

    method HandleBackendServerMessage(p: PeerId, b: BackendId, target: Option<PeerId>, payload: Option<Payload>)
      modifies `sent
      ensures View() == Relay(old(View()), p, b, target, payload)
    {
      hide OpenPeers, Mail;
      var owner := IsCurrentBackendOwner(p);
      if !owner || peers[p].claim.value.backendId != b || target.None? || target.value !in peers { return; }
      if !CanReach(peers[target.value].namespace, peers[target.value].scope, peers[p].namespace, b) { return; }
      SendToWs(target.value, Relayed(b, payload));
      SendIs(old(View()), View(), target.value, Relayed(b, payload));
    }

    // ---- Leases ------------------------------------------------------------

    method RemoveTopicsForBackend(b: BackendId)
      modifies `subs, `retained
      ensures subs == old(subs) - {b} && retained == old(retained) - {b}
    {
      subs := subs - {b};
      retained := retained - {b};
    }

    method HandleBackendLeaseExpired(b: BackendId, now: int)
      requires CleanPeers(peers) && b in leases
      modifies this, storage`identities
      ensures View() == ExpireLease(old(View()), b, now)
      ensures leases == old(leases) - {b} && peers == old(peers) - {old(leases)[b].holder}
      ensures CleanPeers(peers)
    {
      hide AllTold, OpenPeers, Tokens, FatesOf, Holding, SnapshotMail, Audience, ExpireLease, TouchIdentity, CleanView,
           View;
      ghost var s := View();
      Shown();
      var holder := leases[b].holder;
      CloseLeaseDown(b, BackendOffline, None);
      storage.TouchBackendIdentity(b, None, now);
      peers := peers - {holder};
      Expired(s, b, now);
    }

    lemma Expired(s: State, b: BackendId, now: int)
      requires b in s.leases
      requires s.config == config && s.dials == dials && s.wirings == wirings && s.published == published
      requires s.usedPeers == usedPeers && s.usedTickets == usedTickets
      requires var dead := Holding(s.channels, b);
        && channels == s.channels - dead && tickets == s.tickets - Tokens(s.channels, dead)
        && notices == s.notices + AllTold(OpenPeers(s.peers), s.channels, dead, BackendOffline)
        && fates == s.fates + FatesOf(s.channels, dead, BackendOffline)
      requires subs == s.subs - {b} && retained == s.retained - {b}
      requires registry == s.registry - {b} && leases == s.leases - {b}
      requires sent == s.sent + multiset(SnapshotMail(s.peers, s.registry - {b}, Audience(s.peers, None)))
      requires storage.View() == TouchIdentity(s.store, b, None, now)
      requires peers == s.peers - {s.leases[b].holder}
      ensures View() == ExpireLease(s, b, now)
    {
      hide AllTold, OpenPeers, Tokens, FatesOf, Holding, SnapshotMail, Audience, ExpireLease, TouchIdentity;
      ExpireIs(s, View(), b, now);
    }

    /** Everything bound to the lease goes, and everybody but the exception hears of the shorter registry. */
    method CloseLeaseDown(b: BackendId, reason: Reason, except: Option<PeerId>)
      requires CleanPeers(peers)
      modifies `channels, `tickets, `notices, `fates, `subs, `retained, `registry, `sent, `leases
      ensures HaveClosed(Holding(old(channels), b), reason)
      ensures subs == old(subs) - {b} && retained == old(retained) - {b}
      ensures registry == old(registry) - {b} && leases == old(leases) - {b}
      ensures sent == old(sent) + multiset(SnapshotMail(peers, registry, Audience(peers, except)))
    {
      hide AllTold, OpenPeers, Tokens, FatesOf, Holding, SnapshotMail, Audience;
      CloseChannelsForBackend(b, reason);
      RemoveTopicsForBackend(b);
      registry := registry - {b};
      BroadcastRegistrySnapshot(except);
      leases := leases - {b};
    }

    // ---- Disconnects -------------------------------------------------------

    method HandlePeerDisconnect(p: PeerId, now: int)
      requires CleanPeers(peers)
      modifies this, storage`identities
      ensures View() == Disconnect(old(View()), p, now)
      ensures peers == old(peers) - {p} && CleanPeers(peers)
    {
      hide View, Disconnect, LeftLease, CleanPeers, AllTold, OpenPeers, Tokens, FatesOf, Touching, Forgotten;
      ghost var s := View();
      Shown();
      OneLessIsClean(peers, p);
      if p in peers {
        var claim := peers[p].claim;
        LeaveLease(p, now);
        ghost var mid := View();
        Shown();
        LeaveRest(p, claim);
        Departed(s, mid, p, now);
      } else {
        NobodyLeaves(s, p, now);
        assert peers - {p} == peers;
      }
    }

    lemma NobodyLeaves(s: State, p: PeerId, now: int)
      requires p !in s.peers
      ensures Disconnect(s, p, now) == s
    {
    }

    lemma Departed(s: State, mid: State, p: PeerId, now: int)
      requires p in s.peers && LeftLease(s, mid, p, now)
      requires mid.config == config && mid.dials == dials && mid.wirings == wirings && mid.published == published
      requires mid.usedPeers == usedPeers && mid.usedTickets == usedTickets && mid.store == storage.View()
      requires mid.leases == leases && mid.registry == registry && mid.sent == sent
      requires var dead, claim := Touching(mid.channels, p), s.peers[p].claim;
        && channels == mid.channels - dead && tickets == mid.tickets - Tokens(mid.channels, dead)
        && notices == mid.notices + AllTold(OpenPeers(mid.peers), mid.channels, dead, Closed)
        && fates == mid.fates + FatesOf(mid.channels, dead, Closed)
        && subs == (if claim.Some? then Forgotten(mid.subs, p) - {claim.value.backendId} else Forgotten(mid.subs, p))
        && retained == (if claim.Some? then mid.retained - {claim.value.backendId} else mid.retained)
        && peers == mid.peers - {p}
      ensures View() == Disconnect(s, p, now)
    {
      hide AllTold, OpenPeers, Tokens, FatesOf, Touching, Forgotten, Disconnect, LeftLease;
      DisconnectIs(s, mid, View(), p, now);
    }

    /** The owner's channels close first, so that they carry the right reason; then everybody else hears of it. */
    method LeaveLease(p: PeerId, now: int)
      requires CleanPeers(peers) && p in peers
      modifies `channels, `tickets, `notices, `fates, `registry, `sent, `leases, storage`identities
      ensures LeftLease(old(View()), View(), p, now)
    {
      hide View, IsOwner, LeftLease, AllTold, OpenPeers, Tokens, FatesOf, Holding, SnapshotMail, Audience,
           TouchIdentity, CleanView;
      ghost var s := View();
      Shown();
      var owner := IsCurrentBackendOwner(p);
      OwnersClaim(s, p);
      if owner {
        var b := peers[p].claim.value.backendId;
        WithdrawLease(b, p);
        storage.TouchBackendIdentity(b, None, now);
        Abdicated(s, p, now);
      } else {
        NoLeaseToLeave(s, p, now);
      }
    }

    method WithdrawLease(b: BackendId, p: PeerId)
      requires CleanPeers(peers)
      modifies `channels, `tickets, `notices, `fates, `registry, `sent, `leases
      ensures HaveClosed(Holding(old(channels), b), BackendOffline)
      ensures registry == old(registry) - {b} && leases == old(leases) - {b}
      ensures sent == old(sent) + multiset(SnapshotMail(peers, registry, Audience(peers, Some(p))))
    {
      hide AllTold, OpenPeers, Tokens, FatesOf, Holding, SnapshotMail, Audience, CleanView;
      CloseChannelsForBackend(b, BackendOffline);
      registry := registry - {b};
      BroadcastRegistrySnapshot(Some(p));
      leases := leases - {b};
    }

    lemma NoLeaseToLeave(s: State, p: PeerId, now: int)
      requires p in s.peers && !IsOwner(s, p)
      ensures LeftLease(s, s, p, now)
    {
    }

    lemma Abdicated(s: State, p: PeerId, now: int)
      requires IsOwner(s, p)
      requires s.config == config && s.dials == dials && s.wirings == wirings && s.published == published
      requires s.usedPeers == usedPeers && s.usedTickets == usedTickets && s.peers == peers
      requires s.subs == subs && s.retained == retained
      requires var b := s.peers[p].claim.value.backendId;
        var dead := Holding(s.channels, b);
        && channels == s.channels - dead && tickets == s.tickets - Tokens(s.channels, dead)
        && notices == s.notices + AllTold(OpenPeers(s.peers), s.channels, dead, BackendOffline)
        && fates == s.fates + FatesOf(s.channels, dead, BackendOffline)
        && registry == s.registry - {b} && leases == s.leases - {b}
        && sent == s.sent + multiset(SnapshotMail(s.peers, s.registry - {b}, Audience(s.peers, Some(p))))
        && storage.View() == TouchIdentity(s.store, b, None, now)
      ensures LeftLease(s, View(), p, now)
    {
      hide AllTold, OpenPeers, Tokens, FatesOf, Holding, SnapshotMail, Audience, TouchIdentity, Abdicate, Unclaimed;
      AbdicateIs(s, View(), p, now);
    }

    method LeaveRest(p: PeerId, claim: Option<Claim>)
      modifies `channels, `tickets, `notices, `fates, `subs, `retained, `peers
      ensures channels == old(channels) - Touching(old(channels), p)
      ensures tickets == old(tickets) - Tokens(old(channels), Touching(old(channels), p))
      ensures notices == old(notices) + AllTold(OpenPeers(old(peers)), old(channels), Touching(old(channels), p),
                                                Closed)
      ensures fates == old(fates) + FatesOf(old(channels), Touching(old(channels), p), Closed)
      ensures subs == if claim.Some? then Forgotten(old(subs), p) - {claim.value.backendId} else Forgotten(old(subs), p)
      ensures retained == if claim.Some? then old(retained) - {claim.value.backendId} else old(retained)
      ensures peers == old(peers) - {p}
    {
      hide AllTold, OpenPeers, Tokens, FatesOf, Touching, Forgotten;
      CloseChannelsForPeer(p);
      RemoveTopicSubscriptionsForPeer(p);
      if claim.Some? { RemoveTopicsForBackend(claim.value.backendId); }
      peers := peers - {p};
    }

    // ---- Hello -------------------------------------------------------------

    /** The predecessor's channels, topics and lease go; it is told with its own close code and stays a peer. */
    method HandleBackendOwnerReplaced(b: BackendId)
      requires b in leases
      modifies `channels, `tickets, `notices, `fates, `subs, `retained, `leases, `peers, `sent
      ensures HaveClosed(Holding(old(channels), b), EpochChanged)
      ensures subs == old(subs) - {b} && retained == old(retained) - {b} && leases == old(leases) - {b}
      ensures peers == Dismissed(old(peers), old(leases)[b].holder)
      ensures sent == old(sent) + Mail(OpenPeers(old(peers)), old(leases)[b].holder, CloseFrame(4001))
    {
      hide AllTold, Tokens, FatesOf, Holding, OpenPeers, Mail;
      var holder := leases[b].holder;
      CloseChannelsForBackend(b, EpochChanged);
      RemoveTopicsForBackend(b);
      leases := leases - {b};
      SendToWs(holder, CloseFrame(CLOSE_REPLACED));
      if holder in peers { peers := peers[holder := peers[holder].(claim := None, open := false)]; }
    }

    /** A new epoch, the predecessor out, the lease and the presence in. */
    method SeatBackend(p: PeerId, b: BackendId, namespace: Namespace, root: CredentialId, now: int) returns (epoch: nat)
      modifies `channels, `tickets, `notices, `fates, `subs, `retained, `leases, `peers, `sent, `registry
      modifies storage
      ensures epoch == old(storage.maxEpoch) + 1 && storage.credentials == old(storage.credentials)
      ensures storage.View() == TouchIdentity(AllocateEpoch(old(storage.View())), b, Some(root), now)
      ensures registry == old(registry)[b := Presence(namespace, epoch, now, now)]
      ensures b in old(leases) ==>
                && HaveClosed(Holding(old(channels), b), EpochChanged)
                && subs == old(subs) - {b} && retained == old(retained) - {b}
                && peers == Dismissed(old(peers), old(leases)[b].holder)
                && sent == old(sent) + Mail(OpenPeers(old(peers)), old(leases)[b].holder, CloseFrame(CLOSE_REPLACED))
                && leases == (old(leases) - {b})[b := Lease(epoch, p, now)]
      ensures b !in old(leases) ==>
                && unchanged(`channels) && unchanged(`tickets) && unchanged(`notices) && unchanged(`fates)
                && unchanged(`subs) && unchanged(`retained) && unchanged(`peers) && unchanged(`sent)
                && leases == old(leases)[b := Lease(epoch, p, now)]
    {
      hide AllTold, Tokens, FatesOf, Holding, OpenPeers, Mail, Dismissed, TouchIdentity;
      epoch := storage.AllocateEpoch();
      if b in leases { HandleBackendOwnerReplaced(b); }
      leases := leases[b := Lease(epoch, p, now)];
      storage.TouchBackendIdentity(b, Some(root), now);
      registry := registry[b := Presence(namespace, epoch, now, now)];
    }

    method Register(p: PeerId, b: BackendId, namespace: Namespace, root: CredentialId, now: int) returns (epoch: nat)
      modifies `channels, `tickets, `notices, `fates, `subs, `retained, `leases, `peers, `sent, `registry
      modifies storage
      ensures View() == GrantLease(old(View()), p, b, namespace, root, now)
      ensures b in leases && leases[b].epoch == epoch && storage.credentials == old(storage.credentials)
      ensures CleanPeers(old(peers)) ==> CleanPeers(peers)
    {
      hide CleanPeers, View, AllTold, Tokens, FatesOf, Holding, OpenPeers, Mail, Dismissed, TouchIdentity, GrantLease;
      ghost var s := View();
      Shown();
      epoch := SeatBackend(p, b, namespace, root, now);
      Registered(s, p, b, namespace, root, now);
      if b in s.leases && CleanPeers(s.peers) { DismissedIsClean(s.peers, s.leases[b].holder); }
    }

    lemma Registered(s: State, p: PeerId, b: BackendId, namespace: Namespace, root: CredentialId, now: int)
      requires s.config == config && s.dials == dials && s.wirings == wirings && s.published == published
      requires s.usedPeers == usedPeers && s.usedTickets == usedTickets
      requires b in s.leases ==>
                 var dead, holder := Holding(s.channels, b), s.leases[b].holder;
                 && channels == s.channels - dead && tickets == s.tickets - Tokens(s.channels, dead)
                 && notices == s.notices + AllTold(OpenPeers(s.peers), s.channels, dead, EpochChanged)
                 && fates == s.fates + FatesOf(s.channels, dead, EpochChanged)
                 && subs == s.subs - {b} && retained == s.retained - {b} && peers == Dismissed(s.peers, holder)
                 && sent == s.sent + Mail(OpenPeers(s.peers), holder, CloseFrame(CLOSE_REPLACED))
                 && leases == (s.leases - {b})[b := Lease(s.store.maxEpoch + 1, p, now)]
      requires b !in s.leases ==>
                 && channels == s.channels && tickets == s.tickets && notices == s.notices && fates == s.fates
                 && subs == s.subs && retained == s.retained && peers == s.peers && sent == s.sent
                 && leases == s.leases[b := Lease(s.store.maxEpoch + 1, p, now)]
      requires registry == s.registry[b := Presence(namespace, s.store.maxEpoch + 1, now, now)]
      requires storage.View() == TouchIdentity(AllocateEpoch(s.store), b, Some(root), now)
      ensures View() == GrantLease(s, p, b, namespace, root, now)
    {
      hide AllTold, Tokens, FatesOf, Holding, OpenPeers, Mail, Dismissed, TouchIdentity, GrantLease, ReplaceOwner;
      var t := View();
      if b in s.leases {
        var mid := t.(store := s.store, leases := s.leases - {b}, registry := s.registry);
        ReplaceIs(s, mid.(registry := s.registry - {b}), b);
        GrantIs(s, mid, t, p, b, namespace, root, now);
      } else {
        GrantIs(s, s, t, p, b, namespace, root, now);
      }
    }

    method Welcome(p: PeerId, peer: Peer)
      requires peer.open
      modifies `peers, `usedPeers, `sent
      ensures View() == AddPeer(old(View()), p, peer)
      ensures peers == old(peers)[p := peer]
    {
      hide AddPeer, Visible, Mail, OpenPeers;
      peers := peers[p := peer];
      usedPeers := usedPeers + {p};
      var items := VisibleRegistry(peer.namespace, peer.scope);
      SendToWs(p, PeerReady(peer.claim, items));
      MailToOpen(peers, p, PeerReady(peer.claim, items));
      AddPeerIs(old(View()), View(), p, peer);
    }

    method Announce(p: PeerId)
      requires CleanPeers(peers)
      modifies `sent
      ensures View() == Broadcast(old(View()), Some(p))
    {
      hide Broadcast, SnapshotMail, Audience, CleanView;
      BroadcastRegistrySnapshot(Some(p));
      BroadcastAfter(old(View()), View(), p);
    }

    /** A backend's own identity, or the one its legacy instance was given, made up now if it is new. */
    method ResolveBackendIdentity(c: Credential, h: Hello, draw: Draw, now: int) returns (b: BackendId)
      modifies storage
      ensures b == RegisteredId(old(storage.View()), c, h, draw)
      ensures storage.View() == RegisteredStore(old(storage.View()), c, h, draw, now)
      ensures storage.credentials == old(storage.credentials)
    {
      if c.backendId.Some? { return c.backendId.value; }
      b := storage.GetOrCreateBackendId(RegistrationKey(h), draw.backendId, now);
    }

    method AdmitPeer(h: Hello, id: CredentialId, p: PeerId, draw: Draw, now: int)
      requires id in storage.credentials && CleanPeers(peers)
      requires CleanView(h.namespace, PeerScope(storage.credentials[id]))
      modifies this, storage
      ensures View() == Admit(old(View()), h, id, p, draw, now)
      ensures CleanPeers(peers)
    {
      hide CleanView;
      var scope := PeerScope(storage.credentials[id]);
      if h.backend {
        AdmitBackend(h, id, p, draw, now);
      } else {
        hide View, AddPeer;
        ghost var s := View();
        Shown();
        Welcome(p, Peer(h.namespace, id, scope, None, true, true));
      }
    }

    method AdmitBackend(h: Hello, id: CredentialId, p: PeerId, draw: Draw, now: int)
      requires h.backend && id in storage.credentials && CleanPeers(peers)
      requires CleanView(h.namespace, PeerScope(storage.credentials[id]))
      modifies this, storage
      ensures View() == Admit(old(View()), h, id, p, draw, now)
      ensures CleanPeers(peers)
    {
      hide View, CleanView, AddPeer, GrantLease, Broadcast, RegisteredStore, RegisteredId;
      ghost var s := View();
      Shown();
      var c := storage.credentials[id];
      var b := ResolveBackendIdentity(c, h, draw, now);
      StoreMoved(s);
      var epoch := Register(p, b, h.namespace, if c.parent.Some? then c.parent.value else id, now);
      Shown();
      Welcome(p, Peer(h.namespace, id, PeerScope(c), Some(Claim(b, epoch)), true, true));
      Announce(p);
    }

    lemma StoreMoved(s: State)
      requires s.config == config && s.peers == peers && s.leases == leases && s.registry == registry
      requires s.channels == channels && s.tickets == tickets && s.dials == dials && s.subs == subs
               && s.retained == retained
      requires s.sent == sent && s.notices == notices && s.fates == fates && s.wirings == wirings
               && s.published == published
      requires s.usedPeers == usedPeers && s.usedTickets == usedTickets
      ensures View() == s.(store := storage.View())
    {
    }

    /** The verdict as the gateway reaches it, check by check; the presented token counts as used when it resolves. */
    method JudgePeerHello(h: Hello, spent: bool, now: int) returns (verdict: HelloVerdict)
      requires TokensUnique(storage.View())
      modifies storage`credentials
      ensures verdict == JudgeHello(old(storage.View()), h, spent, now)
      ensures storage.View() == FindValid(old(storage.View()), h.token, now)
      ensures verdict.Admitted? ==>
                && verdict.credential in storage.credentials && verdict.credential in old(storage.credentials)
                && old(storage.credentials)[verdict.credential].namespace == h.namespace
    {
      hide Usable, FindValid;
      FindValidKeeps(storage.View(), h.token, now);
      var auth := storage.FindValidCredential(h.token, now);
      if auth.None? { return Denied(if spent then RateLimited else Unauthorized); }
      var c := storage.credentials[auth.value];
      if c.namespace != h.namespace { return Denied(Unauthorized); }
      if h.backend && c.kind == Device { return Denied(Unauthorized); }
      if h.version != PROTOCOL_VERSION { return Denied(ProtocolVersionMismatch); }
      if h.backend && c.backendId.None? && h.instanceId.None? { return Denied(InvalidMessage); }
      return Admitted(auth.value);
    }

    method HandlePeerHello(h: Hello, spent: bool, p: PeerId, draw: Draw, now: int) returns (verdict: HelloVerdict)
      requires TokensUnique(storage.View()) && CleanPeers(peers) && CleanCredentials(storage.credentials)
      modifies this, storage
      ensures verdict == JudgeHello(old(storage.View()), h, spent, now)
      ensures View() == Greet(old(View()), h, spent, p, draw, now)
      ensures CleanPeers(peers)
    {
      hide View, CleanView, Admit, JudgeHello, FindValid, Greet;
      ghost var s := View();
      Shown();
      FindValidKeeps(storage.View(), h.token, now);
      verdict := JudgePeerHello(h, spent, now);
      StoreMoved(s);
      ghost var seen := View();
      if verdict.Admitted? {
        AdmitPeer(h, verdict.credential, p, draw, now);
        AdmittedIs(s, seen, View(), h, spent, p, draw, now, verdict.credential);
      } else {
        DeniedIs(s, seen, h, spent, p, draw, now);
      }
    }

    // ---- Sweeps ------------------------------------------------------------

    /** After the sweep no stale lease is left, the others are untouched, and the invariant still holds. */
    method LeaseCheck(now: int)
      requires CleanPeers(peers) && Sound(View())
      modifies this, storage`identities
      ensures Sound(View()) && CleanPeers(peers)
      ensures forall b :: b in leases <==> b in old(leases) && now - old(leases)[b].heartbeatAt <= 30_000
      ensures forall b :: b in leases ==> leases[b] == old(leases)[b]
    {
      hide View, Sound, CleanView, ExpireLease;
      var todo := leases.Keys;
      while todo != {}
        invariant CleanPeers(peers) && Sound(View())
        invariant todo <= leases.Keys
        invariant forall b :: b in leases <==>
                    b in old(leases) && (b in todo || now - old(leases)[b].heartbeatAt <= LEASE_TTL)
        invariant forall b :: b in leases ==> leases[b] == old(leases)[b]
        decreases todo
      {
        var b :| b in todo;
        todo := todo - {b};
        if now - leases[b].heartbeatAt > LEASE_TTL {
          Shown();
          ExpireKeepsSound(View(), b, now);
          HandleBackendLeaseExpired(b, now);
        }
      }
    }

    /** After the sweep exactly the peers that answered since the last one are left, each with a new question open. */
    method PingSweep(now: int)
      requires CleanPeers(peers) && Sound(View())
      modifies this, storage`identities
      ensures Sound(View()) && CleanPeers(peers)
      ensures forall p :: p in peers <==> p in old(peers) && old(peers)[p].alive
      ensures forall p :: p in peers ==> !peers[p].alive
    {
      hide View, Sound, CleanView, Disconnect;
      var todo := peers.Keys;
      while todo != {}
        invariant CleanPeers(peers) && Sound(View())
        invariant todo <= peers.Keys <= old(peers).Keys
        invariant forall p :: p in todo ==> peers[p].alive == old(peers)[p].alive
        invariant forall p :: p in peers <==> p in old(peers) && (p in todo || old(peers)[p].alive)
        invariant forall p :: p in peers && p !in todo ==> !peers[p].alive
        decreases todo
      {
        var p :| p in todo;
        todo := todo - {p};
        Shown();
        if !peers[p].alive {
          DisconnectKeepsSound(View(), p, now);
          HandlePeerDisconnect(p, now);
        } else {
          FlagKeepsSound(View(), p, false, peers[p].open);
          AskAlive(p);
        }
      }
    }

    method AskAlive(p: PeerId)
      requires p in peers
      modifies `peers
      ensures View() == old(View()).(peers := old(peers)[p := old(peers)[p].(alive := false)])
      ensures peers == old(peers)[p := old(peers)[p].(alive := false)]
    {
      peers := peers[p := peers[p].(alive := false)];
    }

    method CleanupTickets(now: int)
      modifies `tickets
      ensures View() == DropStaleTickets(old(View()), now)
    {
      var todo := tickets.Keys;
      while todo != {}
        invariant todo <= old(tickets).Keys
        invariant tickets == map t | t in old(tickets)
                  && (t in todo || now <= old(tickets)[t].expiresAt) :: old(tickets)[t]
        decreases todo
      {
        var t :| t in todo;
        if now > tickets[t].expiresAt { tickets := tickets - {t}; }
        todo := todo - {t};
      }
    }

    // ---- Sockets and credentials -------------------------------------------

    method OnSocketClose(p: PeerId, now: int)
      requires CleanPeers(peers)
      modifies this, storage`identities
      ensures View() == SocketClosed(old(View()), p, now)
      ensures CleanPeers(peers)
    {
      if p !in peers { return; }
      HangUp(p);
      HandlePeerDisconnect(p, now);
    }

    method HangUp(p: PeerId)
      requires p in peers
      modifies `peers
      ensures View() == old(View()).(peers := old(peers)[p := old(peers)[p].(open := false)])
      ensures CleanPeers(old(peers)) ==> CleanPeers(peers)
    {
      hide CleanView;
      peers := peers[p := peers[p].(open := false)];
    }

    method OnPong(p: PeerId)
      modifies `peers
      ensures View() == Pong(old(View()), p)
    {
      if p in peers { peers := peers[p := peers[p].(alive := true)]; }
    }

    /** Every live peer that authenticated with one of these credentials is closed. */
    method ClosePeersOf(ids: set<CredentialId>)
      modifies `peers, `sent
      ensures View() == CloseCredentials(old(View()), ids)
    {
      hide View, FanOut, OpenPeers, Affected, ClosedFor, Mail;
      ghost var s := View();
      Shown();
      CloseAll(ids);
      ClosedNow(s, ids);
    }

    lemma ClosedNow(s: State, ids: set<CredentialId>)
      requires s.config == config && s.store == storage.View() && s.leases == leases && s.registry == registry
      requires s.channels == channels && s.tickets == tickets && s.dials == dials && s.subs == subs
               && s.retained == retained
      requires s.notices == notices && s.fates == fates && s.wirings == wirings && s.published == published
      requires s.usedPeers == usedPeers && s.usedTickets == usedTickets
      requires peers == ClosedFor(s.peers, ids, s.peers.Keys)
      requires sent == s.sent + multiset(FanOut(OpenPeers(s.peers), Affected(s.peers, ids, s.peers.Keys),
                                                CloseFrame(CLOSE_POLICY)))
      ensures View() == CloseCredentials(s, ids)
    {
      hide FanOut, OpenPeers, Affected, ClosedFor;
      CloseCredentialsIs(s, View(), ids);
    }

    method CloseAll(ids: set<CredentialId>)
      modifies `peers, `sent
      ensures peers == ClosedFor(old(peers), ids, old(peers).Keys)
      ensures sent == old(sent) + multiset(FanOut(OpenPeers(old(peers)), Affected(old(peers), ids, old(peers).Keys),
                                                  CloseFrame(1008)))
    {
      hide FanOut, Affected, ClosedFor;
      var todo := peers.Keys;
      ghost var before, done: set<PeerId> := peers, {};
      NobodyClosed(before, ids);
      NoFanOut(OpenPeers(before), CloseFrame(CLOSE_POLICY));
      while todo != {}
        invariant todo <= before.Keys && done == before.Keys - todo
        invariant peers == ClosedFor(before, ids, done)
        invariant sent == old(sent) + multiset(FanOut(OpenPeers(before), Affected(before, ids, done),
                                                      CloseFrame(CLOSE_POLICY)))
        decreases todo
      {
        var p :| p in todo;
        todo := todo - {p};
        ClosedForMore(before, ids, done, p);
        FanOutMore(OpenPeers(before), Affected(before, ids, done), p, CloseFrame(CLOSE_POLICY));
        if peers[p].credential in ids {
          if peers[p].open { sent := sent + multiset{Envelope(p, CloseFrame(CLOSE_POLICY))}; }
          peers := peers[p := peers[p].(open := false)];
        }
        done := done + {p};
      }
      assert done == before.Keys;
    }
  }
}
