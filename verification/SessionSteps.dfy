/** The remaining handlers keep the invariant, and so does every run; then what the invariant means for runs. */
module SessionSteps {
  import opened Basics
  import opened CredentialStore
  import opened StoreProofs
  import opened Session
  import opened SessionProofs

  // ---- Registration --------------------------------------------------------

  /** A peer that was never seen before arrives, alone or as the first holder of a lease nobody holds. */
  ghost predicate Arrival(s: State, t: State, p: PeerId, peer: Peer, now: int) {
    && p !in s.usedPeers
    && t == s.(peers := s.peers[p := peer], usedPeers := s.usedPeers + {p}, leases := t.leases, registry := t.registry)
    && (if peer.claim.Some? then
          var b := peer.claim.value.backendId;
          && b !in s.leases && peer.claim.value.epoch == s.store.maxEpoch
          && t.leases == s.leases[b := Lease(s.store.maxEpoch, p, now)]
          && t.registry == s.registry[b := Presence(peer.namespace, s.store.maxEpoch, now, now)]
        else t.leases == s.leases && t.registry == s.registry)
  }

  lemma ArrivalCoherent(s: State, t: State, p: PeerId, peer: Peer, now: int)
    requires Coherent(s) && Arrival(s, t, p, peer, now)
    requires peer.claim.Some? ==> Known(s.store, peer.claim.value.backendId, peer.namespace)
    ensures Coherent(t)
  {
    hide Inv, Known;
    assert p !in s.peers;
    forall b | b in t.leases ensures Held(t, b) { assert b in s.leases ==> Held(s, b); }
    forall q | q in t.peers && t.peers[q].claim.Some? ensures IsOwner(t, q) { assert q in s.peers ==> IsOwner(s, q); }
  }

  lemma ArrivalReach(s: State, t: State, p: PeerId, peer: Peer, now: int, q: PeerId, b: BackendId)
    requires Arrival(s, t, p, peer, now) && b in s.leases && Reachable(s, q, b)
    ensures Reachable(t, q, b)
  {
  }

  lemma ArrivalAnchored(s: State, t: State, p: PeerId, peer: Peer, now: int)
    requires Anchored(s) && Arrival(s, t, p, peer, now)
    ensures Anchored(t)
  {
    hide Reachable;
    forall c | c in t.channels ensures AnchoredAt(t, t.channels[c]) {
      var ch := s.channels[c];
      assert AnchoredAt(s, ch);
      if ch.client.Some? { ArrivalReach(s, t, p, peer, now, ch.client.value, ch.backendId); }
    }
  }

  lemma ArrivalFollowed(s: State, t: State, p: PeerId, peer: Peer, now: int)
    requires Followed(s) && Arrival(s, t, p, peer, now)
    ensures Followed(t)
  {
    hide Reachable;
    forall b, k, q | b in t.subs && k in t.subs[b] && q in t.subs[b][k] ensures Reachable(t, q, b) {
      ArrivalReach(s, t, p, peer, now, q, b);
    }
  }

  lemma ArrivalRetained(s: State, t: State, p: PeerId, peer: Peer, now: int)
    requires Retained(s) && Arrival(s, t, p, peer, now)
    requires peer.claim.Some? ==> forall k :: k in s.published ==> s.published[k].0 < s.store.maxEpoch
    ensures Retained(t)
  {
    forall b, k | b in t.leases ensures Stored(t, b, k) == CurrentPublication(t, b, k, t.leases[b].epoch) {
      if b in s.leases {
        assert Stored(s, b, k) == CurrentPublication(s, b, k, s.leases[b].epoch);
      } else {
        assert b !in s.retained && Stored(t, b, k).None?;
      }
    }
  }

  lemma ArrivalKeepsSound(s: State, t: State, p: PeerId, peer: Peer, now: int)
    requires Sound(s) && Arrival(s, t, p, peer, now)
    requires peer.claim.Some? ==>
               && Known(s.store, peer.claim.value.backendId, peer.namespace)
               && forall k :: k in s.published ==> s.published[k].0 < s.store.maxEpoch
    ensures Sound(t)
  {
    hide Coherent, Anchored, Ticketed, Paired, Accounted, Followed, Retained, Capped, Known;
    ArrivalCoherent(s, t, p, peer, now);
    ArrivalAnchored(s, t, p, peer, now);
    TicketedFrame(s, t);
    PairedFrame(s, t);
    AccountedFrame(s, t);
    ArrivalFollowed(s, t, p, peer, now);
    ArrivalRetained(s, t, p, peer, now);
    CappedFrame(s, t);
  }

  lemma AddPeerKeepsSound(s: State, p: PeerId, peer: Peer)
    requires Sound(s) && p !in s.usedPeers && peer.claim.None?
    ensures Sound(AddPeer(s, p, peer))
  {
    hide Sound;
    var t := s.(peers := s.peers[p := peer], usedPeers := s.usedPeers + {p});
    ArrivalKeepsSound(s, t, p, peer, 0);
    SendKeepsSound(t, p, PeerReady(peer.claim, Visible(s.registry, peer.namespace, peer.scope)));
  }

  lemma BumpEpoch(s: State)
    requires Sound(s)
    ensures Sound(s.(store := AllocateEpoch(s.store)))
    ensures forall k :: k in s.published ==> s.published[k].0 < s.store.maxEpoch + 1
  {
    hide Sound, Apply;
    PublishedByNow(s);
    NextEpochIs(s.store);
    NamedStoreChange(s, NextEpoch);
  }

  lemma NextEpochIs(s: Store)
    ensures Apply(s, NextEpoch) == AllocateEpoch(s)
  {
  }

  lemma PublishedByNow(s: State)
    requires Sound(s)
    ensures forall k :: k in s.published ==> s.published[k].0 <= s.store.maxEpoch
  {
    assert Retained(s);
    hide Sound, Stored, CurrentPublication;
  }

  lemma ReplaceLeavesHistory(s: State, backendId: BackendId)
    requires backendId in s.leases
    ensures ReplaceOwner(s, backendId).store == s.store
    ensures ReplaceOwner(s, backendId).published == s.published
    ensures ReplaceOwner(s, backendId).usedPeers == s.usedPeers
    ensures ReplaceOwner(s, backendId).registry == s.registry - {backendId}
  {
    hide Notices, TicketsOf, ChannelsOf;
  }

  /** The newest connection wins: after the old holder is out, the lease goes to the arriving peer. */
  lemma RegisterKeepsSound(s: State, p: PeerId, b: BackendId, peer: Peer, root: CredentialId, now: int)
    requires Sound(s) && p !in s.usedPeers && Known(s.store, b, peer.namespace)
    requires peer.claim == Some(Claim(b, s.store.maxEpoch + 1))
    ensures GrantLease(s, p, b, peer.namespace, root, now).leases[b].epoch == s.store.maxEpoch + 1
    ensures Sound(AddPeer(GrantLease(s, p, b, peer.namespace, root, now), p, peer))
  {
    BumpEpoch(s);
    SameIdentitiesSameKnown(s.store, AllocateEpoch(s.store));
    hide Sound, Known, ReplaceOwner, TouchIdentity, CredentialStore.Inv;
    var t := s.(store := AllocateEpoch(s.store));
    var u := t;
    if b in t.leases {
      ReplaceKeepsSound(t, b);
      ReplaceLeavesHistory(t, b);
      u := ReplaceOwner(t, b);
    }
    RegisterOverNobody(u, p, b, peer, root, now);
    var v := u.(leases := u.leases[b := Lease(u.store.maxEpoch, p, now)],
                store := TouchIdentity(u.store, b, Some(root), now),
                registry := u.registry[b := Presence(peer.namespace, u.store.maxEpoch, now, now)]);
    assert GrantLease(s, p, b, peer.namespace, root, now) == v;
  }

  lemma RegisterOverNobody(u: State, p: PeerId, b: BackendId, peer: Peer, root: CredentialId, now: int)
    requires Sound(u) && p !in u.usedPeers && Known(u.store, b, peer.namespace) && b !in u.leases
    requires peer.claim == Some(Claim(b, u.store.maxEpoch))
    requires forall k :: k in u.published ==> u.published[k].0 < u.store.maxEpoch
    ensures
      var v := u.(leases := u.leases[b := Lease(u.store.maxEpoch, p, now)],
                  store := TouchIdentity(u.store, b, Some(root), now),
                  registry := u.registry[b := Presence(peer.namespace, u.store.maxEpoch, now, now)]);
      Sound(AddPeer(v, p, peer))
  {
    TouchedStaysKnown(u.store, b, peer.namespace, Some(root), now);
    hide Sound, Known;
    TouchKeepsSound(u, b, Some(root), now);
    var w := TouchBackend(u, b, Some(root), now);
    var t := w.(peers := w.peers[p := peer], usedPeers := w.usedPeers + {p},
                leases := w.leases[b := Lease(w.store.maxEpoch, p, now)],
                registry := w.registry[b := Presence(peer.namespace, w.store.maxEpoch, now, now)]);
    ArrivalKeepsSound(w, t, p, peer, now);
    SendKeepsSound(t, p, PeerReady(peer.claim, Visible(t.registry, peer.namespace, peer.scope)));
  }

  lemma TouchedStaysKnown(s: Store, b: BackendId, namespace: Namespace, root: Option<CredentialId>, now: int)
    requires Known(s, b, namespace)
    ensures Known(TouchIdentity(s, b, root, now), b, namespace)
    ensures TouchIdentity(s, b, root, now).maxEpoch == s.maxEpoch
  {
    var key :| NamedBy(s, key, b) && s.identities[key].namespace == namespace;
    assert NamedBy(TouchIdentity(s, b, root, now), key, b);
  }

  /** A credential that passed the checks names a backend that has an identity row in the hello's namespace. */
  lemma AdmittedIsKnown(s: Store, c: Credential, h: Hello, draw: Draw, now: int)
    requires Inv(s) && FreshDraw(s, draw) && (exists id :: id in s.credentials && s.credentials[id] == c)
    requires c.Active() && c.namespace == h.namespace
    ensures Inv(RegisteredStore(s, c, h, draw, now))
    ensures RegisteredStore(s, c, h, draw, now).maxEpoch == s.maxEpoch
    ensures Known(RegisteredStore(s, c, h, draw, now), RegisteredId(s, c, h, draw), h.namespace)
    ensures forall b, n :: Known(s, b, n) ==> Known(RegisteredStore(s, c, h, draw, now), b, n)
  {
    var t := RegisteredStore(s, c, h, draw, now);
    if c.backendId.None? {
      ApplyKeepsInv(s, Register(RegistrationKey(h), draw, now));
      assert NamedBy(t, RegistrationKey(h), RegisteredId(s, c, h, draw));
      assert Matches(RegistrationKey(h), t.identities[RegistrationKey(h)]);
    }
    forall b, n | Known(s, b, n) ensures Known(t, b, n) {
      var key :| NamedBy(s, key, b) && s.identities[key].namespace == n;
      assert NamedBy(t, key, b) && t.identities[key].namespace == n;
    }
  }

  lemma ResolvedIsUsable(s: Store, token: Token, now: int)
    requires Resolve(s, token, now).Some?
    ensures Resolve(s, token, now).value in s.credentials && s.credentials[Resolve(s, token, now).value].Active()
  {
  }

  lemma AdmitKeepsSound(s: State, h: Hello, id: CredentialId, p: PeerId, draw: Draw, now: int)
    requires Sound(s) && p !in s.usedPeers && FreshDraw(s.store, draw)
    requires id in s.store.credentials && s.store.credentials[id].Active()
             && s.store.credentials[id].namespace == h.namespace
    ensures Sound(Admit(s, h, id, p, draw, now))
  {
    var c := s.store.credentials[id];
    var scope := if c.kind == Device then c.scope else None;
    if !h.backend {
      hide Sound, AddPeer, GrantLease, RegisteredStore, RegisteredId, Broadcast;
      AddPeerKeepsSound(s, p, Peer(h.namespace, id, scope, None, true, true));
    } else {
      AdmittedIsKnown(s.store, c, h, draw, now);
      hide Sound, Known, AddPeer, GrantLease, Broadcast, RegisteredStore, RegisteredId, Inv;
      RegisteredKeepsSound(s, c, h, draw, now);
      AdmitBackendKeepsSound(s, h, id, p, draw, now);
    }
  }

  lemma AdmitBackendKeepsSound(s: State, h: Hello, id: CredentialId, p: PeerId, draw: Draw, now: int)
    requires p !in s.usedPeers && h.backend && id in s.store.credentials
    requires var r := s.(store := RegisteredStore(s.store, s.store.credentials[id], h, draw, now));
      Sound(r) && Known(r.store, RegisteredId(s.store, s.store.credentials[id], h, draw), h.namespace)
    ensures Sound(Admit(s, h, id, p, draw, now))
  {
    hide Sound, Known, AddPeer, GrantLease, Broadcast, RegisteredStore, RegisteredId;
    var c := s.store.credentials[id];
    var scope := if c.kind == Device then c.scope else None;
    var b := RegisteredId(s.store, c, h, draw);
    var root := if c.parent.Some? then c.parent.value else id;
    var r := s.(store := RegisteredStore(s.store, c, h, draw, now));
    var peer := Peer(h.namespace, id, scope, Some(Claim(b, r.store.maxEpoch + 1)), true, true);
    RegisterKeepsSound(r, p, b, peer, root, now);
    BroadcastKeepsSound(AddPeer(GrantLease(r, p, b, h.namespace, root, now), p, peer), Some(p));
  }

  lemma RegisteredKeepsSound(s: State, c: Credential, h: Hello, draw: Draw, now: int)
    requires Sound(s) && Inv(RegisteredStore(s.store, c, h, draw, now))
    requires RegisteredStore(s.store, c, h, draw, now).maxEpoch == s.store.maxEpoch
    requires forall b, n :: Known(s.store, b, n) ==> Known(RegisteredStore(s.store, c, h, draw, now), b, n)
    ensures Sound(s.(store := RegisteredStore(s.store, c, h, draw, now)))
  {
    hide RegisteredStore, CredentialStore.Inv, Known;
    StoreChangeKeepsSound(s, RegisteredStore(s.store, c, h, draw, now));
  }

  lemma GreetKeepsSound(s: State, h: Hello, spent: bool, p: PeerId, draw: Draw, now: int)
    requires Sound(s) && p !in s.usedPeers && FreshDraw(s.store, draw)
    ensures Sound(Greet(s, h, spent, p, draw, now))
  {
    hide Sound, Admit;
    NamedStoreChange(s, Authenticate(h.token, now));
    var t := s.(store := FindValid(s.store, h.token, now));
    match JudgeHello(s.store, h, spent, now) {
      case Denied(_) =>
      case Admitted(id) =>
        ResolvedIsUsable(s.store, h.token, now);
        AdmitKeepsSound(t, h, id, p, draw, now);
    }
  }

  // ---- Opening and dialling channels ---------------------------------------

  /** What a handler has checked before it adds a channel. */
  ghost predicate Openable(s: State, target: BackendId, client: Option<PeerId>) {
    && target in s.leases && s.leases[target].holder in s.peers
    && (client.Some? ==> client.value in s.peers && PeerReaches(s, client.value, target)
                         && |ChannelsAt(s, client.value)| < s.config.maxChannels)
    && (client.None? ==> |ChannelsAt(s, s.leases[target].holder)| < s.config.maxChannels)
  }

  lemma AddChannelCapped(s: State, target: BackendId, client: Option<PeerId>, draw: ChannelDraw, now: int)
    requires Capped(s) && Openable(s, target, client) && FreshChannel(s, draw)
    ensures Capped(AddChannel(s, target, client, s.leases[target].holder, s.leases[target].epoch, draw, now))
  {
    var holder := s.leases[target].holder;
    var t := AddChannel(s, target, client, holder, s.leases[target].epoch, draw, now);
    forall p: PeerId ensures |ClientChannels(t, p)| <= t.config.maxChannels
      && |InternalChannels(t, p)| <= t.config.maxChannels {
      AddChannelCounts(s, t, draw.channel, p);
      SubsetSize(ClientChannels(s, p), ChannelsAt(s, p));
      SubsetSize(InternalChannels(s, p), ChannelsAt(s, p));
    }
  }

  lemma AddChannelCounts(s: State, t: State, c: ChannelId, p: PeerId)
    requires c in t.channels && c !in s.channels && t.channels == s.channels[c := t.channels[c]]
    ensures |ClientChannels(t, p)| == |ClientChannels(s, p)| + (if t.channels[c].client == Some(p) then 1 else 0)
    ensures |InternalChannels(t, p)| == |InternalChannels(s, p)|
            + (if t.channels[c].client.None? && t.channels[c].backend == p then 1 else 0)
  {
    hide ClientChannels, InternalChannels;
    ClientCounts(s, t, c, p);
    InternalCounts(s, t, c, p);
  }

  lemma ClientCounts(s: State, t: State, c: ChannelId, p: PeerId)
    requires c in t.channels && c !in s.channels && t.channels == s.channels[c := t.channels[c]]
    ensures |ClientChannels(t, p)| == |ClientChannels(s, p)| + (if t.channels[c].client == Some(p) then 1 else 0)
  {
    if t.channels[c].client == Some(p) {
      assert ClientChannels(t, p) == ClientChannels(s, p) + {c};
    } else {
      assert ClientChannels(t, p) == ClientChannels(s, p);
    }
  }

  lemma InternalCounts(s: State, t: State, c: ChannelId, p: PeerId)
    requires c in t.channels && c !in s.channels && t.channels == s.channels[c := t.channels[c]]
    ensures |InternalChannels(t, p)| == |InternalChannels(s, p)|
            + (if t.channels[c].client.None? && t.channels[c].backend == p then 1 else 0)
  {
    if t.channels[c].client.None? && t.channels[c].backend == p {
      assert InternalChannels(t, p) == InternalChannels(s, p) + {c};
    } else {
      assert InternalChannels(t, p) == InternalChannels(s, p);
    }
  }

  /**
   The tickets a new channel brings: one for the backend leg and, unless the client end is the gateway, one for the
   client's.
   */
  ghost predicate NewTickets(s: State, t: State, draw: ChannelDraw, client: Option<PeerId>) {
    && t.dials == s.dials
    && draw.channel in t.channels && t.channels == s.channels[draw.channel := t.channels[draw.channel]]
    && (var ch := t.channels[draw.channel];
        && ch.clientLeg.None? && ch.backendLeg.None? && ch.client == client
        && ch.tickets == (if client.Some? then {draw.clientTicket, draw.backendTicket} else {draw.backendTicket})
        && t.usedTickets == s.usedTickets + ch.tickets)
    && (forall k :: k in s.tickets ==> k in t.tickets && t.tickets[k] == s.tickets[k])
    && (forall k :: k in t.tickets && k !in s.tickets ==>
          && t.tickets[k].channel == draw.channel
             && t.tickets[k].end == (if k == draw.backendTicket then BackendEnd else ClientEnd)
          && (k == draw.backendTicket || (k == draw.clientTicket && client.Some?)))
  }

  lemma AddChannelFields(s: State, target: BackendId, client: Option<PeerId>, holder: PeerId, epoch: nat,
                         draw: ChannelDraw, now: int)
    ensures var t, due := AddChannel(s, target, client, holder, epoch, draw, now), now + s.config.ticketTtl;
      && t.dials == s.dials && draw.channel in t.channels
      && t.channels == s.channels[draw.channel := t.channels[draw.channel]]
      && t.tickets == (if client.Some? then s.tickets[draw.clientTicket := Ticket(draw.channel, ClientEnd, due)]
                       else s.tickets)
                      [draw.backendTicket := Ticket(draw.channel, BackendEnd, due)]
  {
    var due := now + s.config.ticketTtl;
    var a, b := Ticket(draw.channel, ClientEnd, due), Ticket(draw.channel, BackendEnd, due);
    MergeTwo(s.tickets, draw.clientTicket, a, draw.backendTicket, b);
    MergeOne(s.tickets, draw.backendTicket, b);
  }

  lemma AddChannelRecord(s: State, target: BackendId, client: Option<PeerId>, holder: PeerId, epoch: nat,
                         draw: ChannelDraw, now: int)
    ensures var t := AddChannel(s, target, client, holder, epoch, draw, now);
      && draw.channel in t.channels
      && var ch := t.channels[draw.channel];
         && ch.clientLeg.None? && ch.backendLeg.None? && ch.client == client
         && ch.tickets == (if client.Some? then {draw.clientTicket, draw.backendTicket} else {draw.backendTicket})
         && t.usedTickets == s.usedTickets + ch.tickets
  {
    var due := now + s.config.ticketTtl;
    var a, b := Ticket(draw.channel, ClientEnd, due), Ticket(draw.channel, BackendEnd, due);
    MergeTwo(s.tickets, draw.clientTicket, a, draw.backendTicket, b);
    assert map[draw.backendTicket := b].Keys == {draw.backendTicket};
  }

  lemma AddChannelNewTickets(s: State, target: BackendId, client: Option<PeerId>, holder: PeerId, epoch: nat,
                             draw: ChannelDraw, now: int)
    requires s.tickets.Keys <= s.usedTickets && FreshChannel(s, draw)
    ensures NewTickets(s, AddChannel(s, target, client, holder, epoch, draw, now), draw, client)
  {
    hide AddChannel;
    AddChannelFields(s, target, client, holder, epoch, draw, now);
    AddChannelRecord(s, target, client, holder, epoch, draw, now);
  }

  lemma AddChannelTicketed(s: State, target: BackendId, client: Option<PeerId>, holder: PeerId, epoch: nat,
                           draw: ChannelDraw, now: int)
    requires Ticketed(s) && FreshChannel(s, draw)
    ensures Ticketed(AddChannel(s, target, client, holder, epoch, draw, now))
  {
    assert s.tickets.Keys <= s.usedTickets;
    var t := AddChannel(s, target, client, holder, epoch, draw, now);
    AddChannelNewTickets(s, target, client, holder, epoch, draw, now);
    assert t.fates == s.fates;
    hide AddChannel;
    forall d | d in s.dials ensures d.channel != draw.channel && DialOk(t, d) {
      assert DialOk(s, d) && d == Dial(d.channel, d.end);
    }
    AddedTicketsOk(s, t, draw, client);
  }

  lemma AddedTicketsOk(s: State, t: State, draw: ChannelDraw, client: Option<PeerId>)
    requires Ticketed(s) && FreshChannel(s, draw) && NewTickets(s, t, draw, client)
    requires forall d :: d in s.dials ==> d.channel != draw.channel && DialOk(t, d)
    ensures Ticketed(t)
  {
    hide DialOk;
    forall k | k in t.tickets ensures TicketOk(t, k) {
      if k in s.tickets { assert TicketOk(s, k); }
    }
    forall k, u | k in t.tickets && u in t.tickets && SameLeg(t.tickets[k], t.tickets[u]) ensures k == u {
      assert k in s.tickets ==> TicketOk(s, k);
      assert u in s.tickets ==> TicketOk(s, u);
    }
  }

  lemma AddChannelAccounted(s: State, target: BackendId, client: Option<PeerId>, holder: PeerId, epoch: nat,
                            draw: ChannelDraw, now: int)
    requires Accounted(s) && FreshChannel(s, draw)
    ensures Accounted(AddChannel(s, target, client, holder, epoch, draw, now))
  {
    var t := AddChannel(s, target, client, holder, epoch, draw, now);
    assert forall c :: TimesWired(t, c) == TimesWired(s, c);
  }

  lemma AddChannelAnchored(s: State, target: BackendId, client: Option<PeerId>, draw: ChannelDraw, now: int)
    requires s.peers.Keys <= s.usedPeers && Anchored(s) && Paired(s) && Openable(s, target, client)
             && FreshChannel(s, draw)
    ensures Anchored(AddChannel(s, target, client, s.leases[target].holder, s.leases[target].epoch, draw, now))
    ensures Paired(AddChannel(s, target, client, s.leases[target].holder, s.leases[target].epoch, draw, now))
  {
    var t := AddChannel(s, target, client, s.leases[target].holder, s.leases[target].epoch, draw, now);
    assert forall p, b :: Reachable(s, p, b) ==> Reachable(t, p, b);
    forall c | c in t.channels ensures AnchoredAt(t, t.channels[c]) {
      assert c in s.channels ==> AnchoredAt(s, s.channels[c]);
    }
  }

  lemma AddChannelKeepsSound(s: State, target: BackendId, client: Option<PeerId>, draw: ChannelDraw, now: int)
    requires Sound(s) && Openable(s, target, client) && FreshChannel(s, draw)
    ensures Sound(AddChannel(s, target, client, s.leases[target].holder, s.leases[target].epoch, draw, now))
  {
    assert s.peers.Keys <= s.usedPeers;
    hide Coherent, Anchored, Ticketed, Paired, Accounted, Followed, Retained, Capped;
    var t := AddChannel(s, target, client, s.leases[target].holder, s.leases[target].epoch, draw, now);
    CoherentFrame(s, t);
    AddChannelAnchored(s, target, client, draw, now);
    AddChannelTicketed(s, target, client, s.leases[target].holder, s.leases[target].epoch, draw, now);
    AddChannelAccounted(s, target, client, s.leases[target].holder, s.leases[target].epoch, draw, now);
    FollowedFrame(s, t);
    RetainedFrame(s, t);
    AddChannelCapped(s, target, client, draw, now);
  }

  lemma OpenKeepsSound(s: State, p: PeerId, target: BackendId, draw: ChannelDraw, now: int)
    requires Sound(s) && p in s.peers && FreshChannel(s, draw)
    ensures Sound(OpenChannel(s, p, target, draw, now))
  {
    hide Sound, AddChannel, Send;
    match ChannelVerdict(s, p, target) {
      case Refuse(code) => SendKeepsSound(s, p, Error(code));
      case Grant(epoch, holder) =>
        AddChannelKeepsSound(s, target, Some(p), draw, now);
        var t := AddChannel(s, target, Some(p), holder, epoch, draw, now);
        SendKeepsSound(t, holder, ChannelOffer(draw.channel, draw.backendTicket, Some(p)));
        SendKeepsSound(Send(t, holder, ChannelOffer(draw.channel, draw.backendTicket, Some(p))), p,
                       ChannelReady(draw.channel, draw.clientTicket));
    }
  }

  lemma ProxyKeepsSound(s: State, token: Token, target: BackendId, limited: bool, draw: ChannelDraw, now: int)
    requires Sound(s) && FreshChannel(s, draw)
    ensures Sound(Proxy(s, token, target, limited, draw, now))
  {
    hide Sound, AddChannel, Send, CredentialStore.Resolve;
    NamedStoreChange(s, Authenticate(token, now));
    var t := s.(store := FindValid(s.store, token, now));
    if ProxyStatus(s, token, target, limited, now) == 0 {
      assert ChannelsAt(t, s.leases[target].holder) == ChannelsAt(s, s.leases[target].holder);
      AddChannelKeepsSound(t, target, None, draw, now);
      SendKeepsSound(AddChannel(t, target, None, s.leases[target].holder, s.leases[target].epoch, draw, now),
                     s.leases[target].holder, ChannelOffer(draw.channel, draw.backendTicket, None));
    }
  }

  lemma CloseOneKeepsSound(s: State, p: PeerId, c: ChannelId, reason: Reason)
    requires Sound(s)
    ensures Sound(RejectChannel(s, p, c)) && Sound(CloseChannel(s, p, c)) && Sound(PairingTimeout(s, c))
    ensures Sound(LegClosed(s, c)) && Sound(HttpGone(s, c, reason))
  {
    hide Sound, CloseChannels;
    if c in s.channels {
      CloseChannelsKeepsSound(s, {c}, Session.Rejected);
      CloseChannelsKeepsSound(s, {c}, Closed);
      CloseChannelsKeepsSound(s, {c}, TimedOut);
      CloseChannelsKeepsSound(s, {c}, reason);
    }
  }

  /** Nothing changed but tickets, dials and legs. */
  lemma DiallingKeepsSound(s: State, t: State)
    requires Sound(s) && t == s.(tickets := t.tickets, dials := t.dials) && Ticketed(t)
    ensures Sound(t)
  {
    hide Coherent, Anchored, Ticketed, Paired, Accounted, Followed, Retained, Capped;
    CoherentFrame(s, t);
    AnchoredFrame(s, t);
    PairedFrame(s, t);
    AccountedFrame(s, t);
    FollowedFrame(s, t);
    RetainedFrame(s, t);
    CappedFrame(s, t);
  }

  lemma ConsumeTicketed(s: State, token: TicketToken, c: ChannelId, now: int)
    requires Ticketed(s)
    ensures Ticketed(ConsumeTicket(s, token, c, now))
  {
    var t := ConsumeTicket(s, token, c, now);
    forall k | k in t.tickets ensures TicketOk(t, k) {
      assert TicketOk(s, k);
      assert token in s.tickets ==> !SameLeg(s.tickets[k], s.tickets[token]);
    }
    forall d | d in t.dials ensures DialOk(t, d) {
      if d in s.dials { assert DialOk(s, d); } else { assert TicketOk(s, token); }
    }
  }

  lemma FewerTicketsTicketed(s: State, t: State)
    requires Ticketed(s) && t == s.(tickets := t.tickets, dials := t.dials) && t.dials <= s.dials
    requires forall k :: k in t.tickets ==> k in s.tickets && t.tickets[k] == s.tickets[k]
    ensures Ticketed(t)
  {
    forall k | k in t.tickets ensures TicketOk(t, k) { assert TicketOk(s, k); }
    forall d | d in t.dials ensures DialOk(t, d) { assert DialOk(s, d); }
  }

  lemma DialKeepsSound(s: State, token: TicketToken, c: ChannelId, dial: Dial, now: int)
    requires Sound(s)
    ensures Sound(ConsumeTicket(s, token, c, now)) && Sound(s.(dials := s.dials - {dial}))
            && Sound(DropStaleTickets(s, now))
  {
    assert Ticketed(s);
    hide Sound, Ticketed;
    ConsumeTicketed(s, token, c, now);
    FewerTicketsTicketed(s, s.(dials := s.dials - {dial}));
    FewerTicketsTicketed(s, DropStaleTickets(s, now));
    DiallingKeepsSound(s, ConsumeTicket(s, token, c, now));
    DiallingKeepsSound(s, s.(dials := s.dials - {dial}));
    DiallingKeepsSound(s, DropStaleTickets(s, now));
  }

  lemma AttachTicketed(s: State, dial: Dial, socket: Socket)
    requires Ticketed(s) && dial in s.dials && dial.channel in s.channels
    ensures Ticketed(Attach(s, dial, socket))
  {
    var t := Attach(s, dial, socket);
    assert forall c :: c in s.channels ==> t.channels[c].tickets == s.channels[c].tickets;
    forall k | k in t.tickets ensures TicketOk(t, k) { assert TicketOk(s, k); }
    forall d | d in t.dials ensures DialOk(t, d) { assert DialOk(s, d) && d != dial; }
  }

  lemma AttachPaired(s: State, dial: Dial, socket: Socket)
    requires Paired(s) && Ticketed(s) && dial in s.dials && dial.channel in s.channels
    ensures Paired(Attach(s, dial, socket))
  {
    assert DialOk(s, dial);
    hide Ticketed, DialOk;
  }

  lemma AttachAccounted(s: State, dial: Dial, socket: Socket)
    requires Accounted(s) && Paired(s) && dial in s.dials && dial.channel in s.channels
    ensures Accounted(Attach(s, dial, socket))
  {
    var t := Attach(s, dial, socket);
    forall c ensures t.wirings[c] == TimesWired(t, c) {
      assert s.wirings[c] == TimesWired(s, c);
      assert c in s.channels ==> s.channels[c].Consistent();
    }
    assert forall n :: Justified(s, n) ==> Justified(t, n);
  }

  lemma AttachOthers(s: State, dial: Dial, socket: Socket)
    requires Anchored(s) && Capped(s) && dial in s.dials && dial.channel in s.channels
    ensures Anchored(Attach(s, dial, socket)) && Capped(Attach(s, dial, socket))
  {
    var t := Attach(s, dial, socket);
    assert forall p, b :: Reachable(s, p, b) ==> Reachable(t, p, b);
    forall c | c in t.channels ensures AnchoredAt(t, t.channels[c]) { assert AnchoredAt(s, s.channels[c]); }
    FewerChannelsCapped(s, t);
  }

  lemma AttachKeepsSound(s: State, dial: Dial, socket: Socket)
    requires Sound(s)
    ensures Sound(Attach(s, dial, socket))
  {
    hide Coherent, Anchored, Ticketed, Paired, Accounted, Followed, Retained, Capped, WithLeg;
    if dial in s.dials && dial.channel in s.channels {
      var t := Attach(s, dial, socket);
      CoherentFrame(s, t);
      AttachOthers(s, dial, socket);
      AttachTicketed(s, dial, socket);
      AttachPaired(s, dial, socket);
      AttachAccounted(s, dial, socket);
      FollowedFrame(s, t);
      RetainedFrame(s, t);
    } else {
      DialKeepsSound(s, 0, 0, dial, 0);
    }
  }

  // ---- Topics --------------------------------------------------------------

  lemma SubscribeFollowed(s: State, p: PeerId, backendId: BackendId, topic: Topic)
    requires s.leases.Keys == s.registry.Keys && Followed(s) && Reachable(s, p, backendId) && backendId in s.registry
    ensures Followed(s.(subs := s.subs[backendId :=
                                       TopicsOf(s.subs, backendId)[topic := SubscribersOf(s, backendId, topic) + {p}]]))
  {
    var t := s.(subs := s.subs[backendId :=
                               TopicsOf(s.subs, backendId)[topic := SubscribersOf(s, backendId, topic) + {p}]]);
    forall b, k, q | b in t.subs && k in t.subs[b] && q in t.subs[b][k] ensures Reachable(t, q, b) {
      if !(b == backendId && q == p) {
        assert b in s.subs && k in s.subs[b] && q in s.subs[b][k];
      }
      assert Reachable(s, q, b);
    }
  }

  lemma SubscribeKeepsSound(s: State, p: PeerId, backendId: BackendId, topic: Topic)
    requires Sound(s) && p in s.peers
    ensures Sound(Subscribe(s, p, backendId, topic))
  {
    if !PeerReaches(s, p, backendId) {
      SendKeepsSound(s, p, Error(Offline));
    } else {
      assert Reachable(s, p, backendId);
      SubscribeFollowed(s, p, backendId, topic);
      hide Sound, Followed, Send;
      var t := s.(subs := s.subs[backendId :=
                                 TopicsOf(s.subs, backendId)[topic := SubscribersOf(s, backendId, topic) + {p}]]);
      SubsChangeKeepsSound(s, t.subs);
      SendKeepsSound(t, p, Subscribed(backendId, topic));
      if topic in TopicsOf(s.retained, backendId) {
        SendKeepsSound(Send(t, p, Subscribed(backendId, topic)), p,
                       TopicMessage(backendId, topic, Some(s.retained[backendId][topic])));
      }
    }
  }

  lemma UnsubscribeFollowed(s: State, p: PeerId, backendId: BackendId, topic: Topic)
    requires Followed(s) && backendId in s.subs && topic in s.subs[backendId]
    ensures Followed(s.(subs := s.subs[backendId := s.subs[backendId][topic := s.subs[backendId][topic] - {p}]]))
  {
    var t := s.(subs := s.subs[backendId := s.subs[backendId][topic := s.subs[backendId][topic] - {p}]]);
    forall b, k, q | b in t.subs && k in t.subs[b] && q in t.subs[b][k] ensures Reachable(t, q, b) {
      assert b in s.subs && k in s.subs[b] && q in s.subs[b][k] && Reachable(s, q, b);
    }
  }

  lemma UnsubscribeKeepsSound(s: State, p: PeerId, backendId: BackendId, topic: Topic)
    requires Sound(s)
    ensures Sound(Unsubscribe(s, p, backendId, topic))
  {
    if backendId in s.subs && topic in s.subs[backendId] {
      UnsubscribeFollowed(s, p, backendId, topic);
      hide Sound, Followed, Send;
      var t := s.(subs := s.subs[backendId := s.subs[backendId][topic := s.subs[backendId][topic] - {p}]]);
      SubsChangeKeepsSound(s, t.subs);
      SendKeepsSound(t, p, Unsubscribed(backendId, topic));
    } else {
      hide Sound, Send;
      SendKeepsSound(s, p, Unsubscribed(backendId, topic));
    }
  }

  /** Publishing under the current epoch makes the payload the current one, or - at the cap - changes nothing. */
  lemma RetainRetained(s: State, claim: Claim, topic: Topic, payload: Payload)
    requires Retained(s) && claim.backendId in s.leases && s.leases[claim.backendId].epoch == claim.epoch
    requires claim.epoch <= s.store.maxEpoch
    ensures Retained(Retain(s, claim, topic, payload))
  {
    var t := Retain(s, claim, topic, payload);
    var topics := TopicsOf(s.retained, claim.backendId);
    if |topics| >= MAX_RETAINED_TOPICS && topic !in topics {
      assert t.retained == s.retained;
      RetainedFrame(s, t);
    } else {
      assert |topics[topic := payload]| <= MAX_RETAINED_TOPICS;
      forall b, k | b in t.leases ensures Stored(t, b, k) == CurrentPublication(t, b, k, t.leases[b].epoch) {
        StoredElsewhere(s, t, claim, topic, payload, b, k);
      }
    }
  }

  lemma StoredElsewhere(s: State, t: State, claim: Claim, topic: Topic, payload: Payload, b: BackendId, k: Topic)
    requires Retained(s) && b in s.leases && t.leases == s.leases
    requires b == claim.backendId ==> s.leases[b].epoch == claim.epoch
    requires t.retained == s.retained[claim.backendId := TopicsOf(s.retained, claim.backendId)[topic := payload]]
    requires t.published == s.published[(claim.backendId, topic) := (claim.epoch, payload)]
    ensures Stored(t, b, k) == CurrentPublication(t, b, k, t.leases[b].epoch)
  {
    assert Stored(s, b, k) == CurrentPublication(s, b, k, s.leases[b].epoch);
    hide Retained;
    if b == claim.backendId && k == topic {
      assert t.published[(b, k)] == (claim.epoch, payload);
    } else {
      assert (b, k) != (claim.backendId, topic);
      assert Stored(t, b, k) == Stored(s, b, k);
    }
  }

  lemma RetainOnly(s: State, claim: Claim, topic: Topic, payload: Payload)
    ensures var t := Retain(s, claim, topic, payload); t == s.(retained := t.retained, published := t.published)
  {
    hide TopicsOf;
    if |TopicsOf(s.retained, claim.backendId)| >= MAX_RETAINED_TOPICS
      && topic !in TopicsOf(s.retained, claim.backendId) {
    } else {
    }
  }

  lemma RetainKeepsSound(s: State, claim: Claim, topic: Topic, payload: Payload)
    requires Sound(s) && claim.backendId in s.leases && s.leases[claim.backendId].epoch == claim.epoch
    ensures Sound(Retain(s, claim, topic, payload))
  {
    assert Held(s, claim.backendId);
    hide Coherent, Held, Anchored, Ticketed, Paired, Accounted, Followed, Retained, Capped, Retain;
    RetainOnly(s, claim, topic, payload);
    var t := Retain(s, claim, topic, payload);
    CoherentFrame(s, t);
    AnchoredFrame(s, t);
    TicketedFrame(s, t);
    PairedFrame(s, t);
    AccountedFrame(s, t);
    FollowedFrame(s, t);
    RetainRetained(s, claim, topic, payload);
    CappedFrame(s, t);
  }

  lemma PublishKeepsSound(s: State, p: PeerId, topic: Topic, payload: Option<Payload>, retain: bool)
    requires Sound(s)
    ensures Sound(Publish(s, p, topic, payload, retain))
  {
    hide Sound, Retain, Deliveries;
    if IsOwner(s, p) {
      var claim := s.peers[p].claim.value;
      var t := s;
      if retain && payload.Some? {
        RetainKeepsSound(s, claim, topic, payload.value);
        t := Retain(s, claim, topic, payload.value);
      }
      SayingKeepsSound(t, t.(sent := t.sent + multiset(Deliveries(s, claim.backendId, topic, payload))));
    }
  }

  // ---- Heartbeats, relays, administration ----------------------------------

  /** Leases and presences may be refreshed without changing hands. */
  ghost predicate OnlyRefreshed(s: State, t: State) {
    && t == s.(leases := t.leases, registry := t.registry)
    && t.leases.Keys == s.leases.Keys && t.registry.Keys == s.registry.Keys
    && (forall b :: b in s.leases ==>
          t.leases[b].epoch == s.leases[b].epoch && t.leases[b].holder == s.leases[b].holder)
    && (forall b :: b in s.registry ==>
          t.registry[b].epoch == s.registry[b].epoch && t.registry[b].namespace == s.registry[b].namespace)
  }

  lemma RefreshReach(s: State, t: State)
    requires OnlyRefreshed(s, t) && Anchored(s) && Followed(s)
    ensures Anchored(t) && Followed(t)
  {
    assert forall p, b :: Reachable(s, p, b) ==> Reachable(t, p, b);
    forall c | c in t.channels ensures AnchoredAt(t, t.channels[c]) { assert AnchoredAt(s, s.channels[c]); }
  }

  lemma RefreshCoherent(s: State, t: State)
    requires OnlyRefreshed(s, t) && Coherent(s) && Retained(s)
    ensures Coherent(t) && Retained(t)
  {
    hide Inv, Known;
    forall b | b in t.leases ensures Held(t, b) { assert Held(s, b); }
    assert forall p :: IsOwner(s, p) ==> IsOwner(t, p);
    forall b, k | b in t.leases ensures Stored(t, b, k) == CurrentPublication(t, b, k, t.leases[b].epoch) {
      assert Stored(s, b, k) == CurrentPublication(s, b, k, s.leases[b].epoch);
    }
  }

  lemma HeartbeatKeepsSound(s: State, p: PeerId, epoch: nat, now: int)
    requires Sound(s)
    ensures Sound(Heartbeat(s, p, epoch, now))
  {
    hide Coherent, Anchored, Ticketed, Paired, Accounted, Followed, Retained, Capped, Send;
    if IsOwner(s, p) && s.peers[p].claim.value.epoch == epoch {
      var b := s.peers[p].claim.value.backendId;
      var t := s.(leases := s.leases[b := s.leases[b].(heartbeatAt := now)]);
      var u := if b in t.registry then t.(registry := t.registry[b := t.registry[b].(lastSeenAt := now)]) else t;
      assert OnlyRefreshed(s, u);
      RefreshCoherent(s, u);
      RefreshReach(s, u);
      TicketedFrame(s, u);
      PairedFrame(s, u);
      AccountedFrame(s, u);
      CappedFrame(s, u);
      SendKeepsSound(u, p, HeartbeatAck(epoch));
    }
  }

  lemma AdministerKeepsSound(s: State, op: Op)
    requires Sound(s) && AdminOp(op) && DrawsFresh(s.store, op)
    ensures Sound(Administer(s, op))
  {
    var asked := if op.Forget? then op.(online := op.backendId in s.registry) else op;
    assert s.leases.Keys == s.registry.Keys;
    hide Sound, Apply, Disconnected;
    NamedStoreChange(s, asked);
    var t := s.(store := Apply(s.store, asked));
    var ids := Disconnected(s.store, op, t.store);
    CloseCredentialsKeepsSound(t, ids);
  }

  lemma CloseCredentialsKeepsSound(s: State, ids: set<CredentialId>)
    requires Sound(s)
    ensures Sound(CloseCredentials(s, ids))
  {
    hide Sound;
    SayingKeepsSound(s, CloseCredentials(s, ids));
  }

  // ---- Every step, every run -----------------------------------------------

  lemma ChannelStepKeepsSound(s: State, a: Action)
    requires Sound(s) && Fresh(s, a) && AboutOneChannel(a)
    ensures Sound(ChannelStep(s, a))
  {
    hide Sound, OpenChannel, RejectChannel, CloseChannel, Proxy, Attach, PairingTimeout, LegClosed, HttpGone;
    match a {
      case DoOpen(p, target, ids, now) => if p in s.peers { OpenKeepsSound(s, p, target, ids, now); }
      case DoReject(p, c) => CloseOneKeepsSound(s, p, c, Closed);
      case DoClose(p, c) => CloseOneKeepsSound(s, p, c, Closed);
      case DoProxy(token, target, limited, ids, now) => ProxyKeepsSound(s, token, target, limited, ids, now);
      case DoAttach(dial, socket) => AttachKeepsSound(s, dial, socket);
      case DoPairingTimeout(c, now) => CloseOneKeepsSound(s, 0, c, Closed);
      case DoLegClosed(c) => CloseOneKeepsSound(s, 0, c, Closed);
      case DoHttpGone(c, reason) => CloseOneKeepsSound(s, 0, c, reason);
    }
  }

  lemma OwnerStepKeepsSound(s: State, a: Action)
    requires Sound(s) && Fresh(s, a) && AboutAnOwner(a)
    ensures Sound(OwnerStep(s, a))
  {
    hide Sound, Greet, Heartbeat, Relay, Publish, CheckLease, Administer;
    match a {
      case DoHello(h, spent, p, draw, now) => GreetKeepsSound(s, h, spent, p, draw, now);
      case DoHeartbeat(p, epoch, now) => HeartbeatKeepsSound(s, p, epoch, now);
      case DoRelay(p, backendId, target, payload) => RelayKeepsSound(s, p, backendId, target, payload);
      case DoPublish(p, topic, payload, retain) => PublishKeepsSound(s, p, topic, payload, retain);
      case DoCheckLease(backendId, now) => CheckLeaseKeepsSound(s, backendId, now);
      case DoAdmin(op) => if AdminOp(op) { AdministerKeepsSound(s, op); }
    }
  }

  lemma CheckLeaseKeepsSound(s: State, backendId: BackendId, now: int)
    requires Sound(s)
    ensures Sound(CheckLease(s, backendId, now))
  {
    hide Sound, ExpireLease;
    if LeaseStale(s, backendId, now) { ExpireKeepsSound(s, backendId, now); }
  }

  lemma PeerStepKeepsSound(s: State, a: Action)
    requires Sound(s) && !AboutOneChannel(a) && !AboutAnOwner(a)
    ensures Sound(PeerStep(s, a))
  {
    hide Sound, RequestSnapshot, Subscribe, Unsubscribe, ConsumeTicket, DropStaleTickets, PingPeer, Pong, SocketClosed,
         Broadcast;
    match a {
      case DoSnapshot(p) => if p in s.peers { SnapshotKeepsSound(s, p); }
      case DoSubscribe(p, backendId, topic) => if p in s.peers { SubscribeKeepsSound(s, p, backendId, topic); }
      case DoUnsubscribe(p, backendId, topic) => UnsubscribeKeepsSound(s, p, backendId, topic);
      case DoDial(ticket, c, now) => DialKeepsSound(s, ticket, c, Dial(c, ClientEnd), now);
      case DoAbortDial(dial) => DialKeepsSound(s, 0, 0, dial, 0);
      case DoTicketCleanup(now) => DialKeepsSound(s, 0, 0, Dial(0, ClientEnd), now);
      case DoPing(p, now) => SocketClosedKeepsSound(s, p, now);
      case DoPong(p) => SocketClosedKeepsSound(s, p, 0);
      case DoSocketClosed(p, now) => SocketClosedKeepsSound(s, p, now);
      case DoPoll => BroadcastKeepsSound(s, None);
    }
  }

  lemma StepKeepsSound(s: State, a: Action)
    requires Sound(s) && Fresh(s, a)
    ensures Sound(Step(s, a))
  {
    hide Sound, Fresh, ChannelStep, OwnerStep, PeerStep, AboutOneChannel, AboutAnOwner;
    if AboutOneChannel(a) {
      ChannelStepKeepsSound(s, a);
    } else if AboutAnOwner(a) {
      OwnerStepKeepsSound(s, a);
    } else {
      PeerStepKeepsSound(s, a);
    }
  }

  lemma SnapshotKeepsSound(s: State, p: PeerId)
    requires Sound(s) && p in s.peers
    ensures Sound(RequestSnapshot(s, p))
  {
    hide Sound, Send;
    SendKeepsSound(s, p, Snapshot(Visible(s.registry, s.peers[p].namespace, s.peers[p].scope)));
  }

  lemma RelayKeepsSound(s: State, p: PeerId, backendId: BackendId, target: Option<PeerId>, payload: Option<Payload>)
    requires Sound(s)
    ensures Sound(Relay(s, p, backendId, target, payload))
  {
    hide Sound, Send;
    if target.Some? { SendKeepsSound(s, target.value, Relayed(backendId, payload)); }
  }

  lemma {:induction false} RunKeepsSound(s: State, actions: seq<Action>)
    requires Sound(s) && GatewayRun(s, actions)
    ensures Sound(Reached(s, actions))
    decreases |actions|
  {
    hide Sound, Step, Fresh;
    if actions != [] {
      StepKeepsSound(s, actions[0]);
      RunKeepsSound(Step(s, actions[0]), actions[1..]);
    }
  }
}
