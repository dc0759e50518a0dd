/** What the gateway keeps at every step of every run. */
module SessionProofs {
  import opened Basics
  import opened CredentialStore
  import opened StoreProofs
  import opened Session

  // ---- The invariant -------------------------------------------------------

  /** The lease of a backend is held by a live peer that claims exactly it, and its identity is known. */
  ghost predicate Held(s: State, b: BackendId)
    requires b in s.leases && b in s.registry
  {
    && s.leases[b].holder in s.peers
    && s.peers[s.leases[b].holder].claim == Some(Claim(b, s.leases[b].epoch))
    && s.registry[b].epoch == s.leases[b].epoch
    && s.registry[b].namespace == s.peers[s.leases[b].holder].namespace
    && s.leases[b].epoch <= s.store.maxEpoch
    && Known(s.store, b, s.registry[b].namespace)
  }

  /** Leases, registry, peers and identities agree; in particular every claim is the current lease. */
  ghost predicate Coherent(s: State) {
    && Inv(s.store)
    && s.leases.Keys == s.registry.Keys
    && s.peers.Keys <= s.usedPeers
    && (forall b :: b in s.leases ==> Held(s, b))
    && (forall p :: p in s.peers && s.peers[p].claim.Some? ==> IsOwner(s, p))
  }

  ghost predicate AnchoredAt(s: State, ch: Channel) {
    && ch.backendId in s.leases && ch.epoch == s.leases[ch.backendId].epoch
       && ch.backend == s.leases[ch.backendId].holder
    && (ch.client.Some? ==> Reachable(s, ch.client.value, ch.backendId))
  }

  /** A peer that was admitted once, and that may reach the backend as long as it is live. */
  ghost predicate Reachable(s: State, p: PeerId, b: BackendId) {
    p in s.usedPeers && (p in s.peers ==> PeerReaches(s, p, b))
  }

  /** Every channel belongs to the current lease of its backend, and a live client may reach that backend. */
  ghost predicate Anchored(s: State) {
    forall c :: c in s.channels ==> AnchoredAt(s, s.channels[c])
  }

  predicate SameLeg(a: Ticket, b: Ticket) { a.channel == b.channel && a.end == b.end }

  /** The leg is empty, and it is a leg that gets dialled at all. */
  predicate AwaitsDial(s: State, c: ChannelId, end: End) {
    c in s.channels && s.channels[c].Leg(end).None? && (end == ClientEnd ==> s.channels[c].client.Some?)
  }

  ghost predicate TicketOk(s: State, t: TicketToken)
    requires t in s.tickets
  {
    && AwaitsDial(s, s.tickets[t].channel, s.tickets[t].end)
    && t in s.channels[s.tickets[t].channel].tickets
    && Dial(s.tickets[t].channel, s.tickets[t].end) !in s.dials
  }

  ghost predicate DialOk(s: State, d: Dial) {
    AwaitsDial(s, d.channel, d.end) || (d.channel !in s.channels && d.channel in s.fates)
  }

  /** Each leg of a channel is waiting for at most one of: an outstanding ticket, a dial in progress, its socket. */
  ghost predicate Ticketed(s: State) {
    && s.tickets.Keys <= s.usedTickets
    && (forall t :: t in s.tickets ==> TicketOk(s, t))
    && (forall t, u :: t in s.tickets && u in s.tickets && SameLeg(s.tickets[t], s.tickets[u]) ==> t == u)
    && (forall d :: d in s.dials ==> DialOk(s, d))
    && (forall c :: c in s.channels ==> s.channels[c].tickets <= s.usedTickets)
    && (forall c, d, t ::
          c in s.channels && d in s.channels && t in s.channels[c].tickets && t in s.channels[d].tickets ==> c == d)
  }

  /**
   A channel is wired exactly when both its legs are there, and its pairing timer runs exactly until then; so it was
   for a channel that has ended, when it ended.
   */
  ghost predicate Paired(s: State) {
    && (forall c :: c in s.channels ==> s.channels[c].Consistent())
    && (forall c :: c in s.fates ==> s.fates[c].channel.Consistent())
  }

  function TimesWired(s: State, c: ChannelId): nat {
    if c in s.channels then (if s.channels[c].wired then 1 else 0)
    else if c in s.fates then (if s.fates[c].channel.wired then 1 else 0)
    else 0
  }

  predicate Justified(s: State, n: Notice) {
    n.channel in s.fates && s.fates[n.channel].reason == n.reason
      && s.fates[n.channel].channel.PeerAt(n.end) == Some(n.to)
  }

  /** Channels end once, are wired at most once, and each end is told at most once, with the true reason. */
  ghost predicate Accounted(s: State) {
    && s.channels.Keys !! s.fates.Keys
    && (forall c :: s.wirings[c] == TimesWired(s, c))
    && (forall n :: n in s.notices ==> s.notices[n] == 1 && Justified(s, n))
  }

  /** Subscriptions exist for leased backends only, and a live subscriber may reach the backend. */
  ghost predicate Followed(s: State) {
    && s.subs.Keys <= s.leases.Keys
    && (forall b, t, p :: b in s.subs && t in s.subs[b] && p in s.subs[b][t] ==> Reachable(s, p, b))
  }

  /** The last retained publication accepted for a topic, if it was accepted under this epoch. */
  ghost function CurrentPublication(s: State, b: BackendId, t: Topic, epoch: nat): Option<Payload> {
    if (b, t) in s.published && s.published[(b, t)].0 == epoch then Some(s.published[(b, t)].1) else None
  }

  function Stored(s: State, b: BackendId, t: Topic): Option<Payload> {
    if t in TopicsOf(s.retained, b) then Some(TopicsOf(s.retained, b)[t]) else None
  }

  /** Retained payloads exist for leased backends only: exactly the last one accepted in the current epoch. */
  ghost predicate Retained(s: State) {
    && s.retained.Keys <= s.leases.Keys
    && (forall b :: b in s.retained ==> |s.retained[b]| <= MAX_RETAINED_TOPICS)
    && (forall k :: k in s.published ==> s.published[k].0 <= s.store.maxEpoch)
    && (forall b, t :: b in s.leases ==> Stored(s, b, t) == CurrentPublication(s, b, t, s.leases[b].epoch))
  }

  function ClientChannels(s: State, p: PeerId): set<ChannelId> {
    set c | c in s.channels && s.channels[c].client == Some(p)
  }

  function InternalChannels(s: State, p: PeerId): set<ChannelId> {
    set c | c in s.channels && s.channels[c].client.None? && s.channels[c].backend == p
  }

  ghost predicate Capped(s: State) {
    && (forall p :: |ClientChannels(s, p)| <= s.config.maxChannels)
    && (forall p :: |InternalChannels(s, p)| <= s.config.maxChannels)
  }

  ghost predicate Sound(s: State) {
    Coherent(s) && Anchored(s) && Ticketed(s) && Paired(s) && Accounted(s) && Followed(s) && Retained(s) && Capped(s)
  }

  lemma InitiallySound(config: Config, store: Store)
    requires Inv(store)
    ensures Sound(Initial(config, store))
  {
  }

  // ---- Frames --------------------------------------------------------------

  predicate SamePerson(a: Peer, b: Peer) {
    a.namespace == b.namespace && a.credential == b.credential && a.scope == b.scope && a.claim == b.claim
  }

  /** The same peers, up to their liveness flags. */
  ghost predicate SamePeople(s: State, t: State) {
    && t.peers.Keys == s.peers.Keys && t.usedPeers == s.usedPeers
    && forall p :: p in s.peers ==> SamePerson(s.peers[p], t.peers[p])
  }

  lemma CoherentFrame(s: State, t: State)
    requires Coherent(s) && t.store == s.store && t.leases == s.leases && t.registry == s.registry && SamePeople(s, t)
    ensures Coherent(t)
  {
    hide Inv, Known;
    forall b | b in t.leases ensures Held(t, b) { assert Held(s, b); }
    assert forall p :: IsOwner(s, p) ==> IsOwner(t, p);
  }

  lemma CoherentStore(s: State, store: Store)
    requires Coherent(s) && Inv(store) && s.store.maxEpoch <= store.maxEpoch
    requires forall b :: b in s.leases && b in s.registry ==> Known(store, b, s.registry[b].namespace)
    ensures Coherent(s.(store := store))
  {
    hide Inv, Known;
    var t := s.(store := store);
    forall b | b in t.leases ensures Held(t, b) { assert Held(s, b); }
    assert forall p :: IsOwner(s, p) ==> IsOwner(t, p);
  }

  lemma AnchoredFrame(s: State, t: State)
    requires Anchored(s) && t.channels == s.channels && t.leases == s.leases && t.registry == s.registry
             && SamePeople(s, t)
    ensures Anchored(t)
  {
    assert forall p, b :: Reachable(s, p, b) ==> Reachable(t, p, b);
    assert forall c :: c in s.channels ==> AnchoredAt(s, s.channels[c]);
  }

  lemma TicketedFrame(s: State, t: State)
    requires Ticketed(s) && t.channels == s.channels && t.tickets == s.tickets && t.dials == s.dials
    requires t.fates == s.fates && t.usedTickets == s.usedTickets
    ensures Ticketed(t)
  {
    assert forall k :: k in s.tickets ==> TicketOk(s, k);
    assert forall d :: DialOk(s, d) ==> DialOk(t, d);
  }

  lemma PairedFrame(s: State, t: State)
    requires Paired(s) && t.channels == s.channels && t.fates == s.fates
    ensures Paired(t)
  {
  }

  lemma AccountedFrame(s: State, t: State)
    requires Accounted(s) && t.channels == s.channels && t.fates == s.fates && t.wirings == s.wirings
             && t.notices == s.notices
    ensures Accounted(t)
  {
    assert forall c :: TimesWired(t, c) == TimesWired(s, c);
    assert forall n :: Justified(t, n) == Justified(s, n);
  }

  lemma FollowedFrame(s: State, t: State)
    requires Followed(s) && t.subs == s.subs && t.leases == s.leases && t.registry == s.registry && SamePeople(s, t)
    ensures Followed(t)
  {
    assert forall p, b :: Reachable(s, p, b) ==> Reachable(t, p, b);
  }

  lemma RetainedFrame(s: State, t: State)
    requires Retained(s) && t.retained == s.retained && t.published == s.published && t.leases == s.leases
    requires s.store.maxEpoch <= t.store.maxEpoch
    ensures Retained(t)
  {
    forall b, k | b in t.leases ensures Stored(t, b, k) == CurrentPublication(t, b, k, t.leases[b].epoch) {
      assert Stored(s, b, k) == CurrentPublication(s, b, k, s.leases[b].epoch);
    }
  }

  lemma CappedFrame(s: State, t: State)
    requires Capped(s) && t.config == s.config && t.channels == s.channels
    ensures Capped(t)
  {
    assert forall p :: ClientChannels(t, p) == ClientChannels(s, p) && InternalChannels(t, p) == InternalChannels(s, p);
  }

  /** Nothing changed but liveness flags, and what was said (except about channels ending). */
  ghost predicate OnlySaid(s: State, t: State) {
    t == s.(sent := t.sent, peers := t.peers) && SamePeople(s, t)
  }

  lemma SayingKeepsSound(s: State, t: State)
    requires Sound(s) && OnlySaid(s, t)
    ensures Sound(t)
  {
    hide Coherent, Anchored, Ticketed, Paired, Accounted, Followed, Retained, Capped;
    CoherentFrame(s, t);
    AnchoredFrame(s, t);
    TicketedFrame(s, t);
    PairedFrame(s, t);
    AccountedFrame(s, t);
    FollowedFrame(s, t);
    RetainedFrame(s, t);
    CappedFrame(s, t);
  }

  lemma SendOnlySays(s: State, p: PeerId, msg: Message)
    ensures OnlySaid(s, Send(s, p, msg))
  {
    if Open(s, p) {
    } else {
    }
  }

  lemma BroadcastOnlySays(s: State, except: Option<PeerId>)
    ensures OnlySaid(s, Broadcast(s, except))
  {
  }

  lemma StoreChangeKeepsSound(s: State, store: Store)
    requires Sound(s) && Inv(store) && s.store.maxEpoch <= store.maxEpoch
    requires forall b :: b in s.leases && b in s.registry ==> Known(store, b, s.registry[b].namespace)
    ensures Sound(s.(store := store))
  {
    hide Coherent, Anchored, Ticketed, Paired, Accounted, Followed, Retained, Capped;
    var t := s.(store := store);
    CoherentStore(s, store);
    AnchoredFrame(s, t);
    TicketedFrame(s, t);
    PairedFrame(s, t);
    AccountedFrame(s, t);
    FollowedFrame(s, t);
    RetainedFrame(s, t);
    CappedFrame(s, t);
  }

  // ---- Closing channels ----------------------------------------------------

  lemma CloseChannelsAccounted(s: State, dead: set<ChannelId>, reason: Reason)
    requires Accounted(s) && dead <= s.channels.Keys
    ensures Accounted(CloseChannels(s, dead, reason))
  {
    var t := CloseChannels(s, dead, reason);
    var news := Notices(s, dead, reason);
    forall n | n in t.notices ensures t.notices[n] == 1 && Justified(t, n) {
      assert t.notices[n] == s.notices[n] + multiset(news)[n];
      if n in news {
        assert n.channel in s.channels && !Justified(s, n);
      } else {
        assert n in s.notices && Justified(s, n);
      }
    }
    assert forall c :: TimesWired(t, c) == TimesWired(s, c);
  }

  lemma CloseChannelsKeepsSound(s: State, dead: set<ChannelId>, reason: Reason)
    requires Sound(s) && dead <= s.channels.Keys
    ensures Sound(CloseChannels(s, dead, reason))
  {
    hide Coherent, Anchored, Ticketed, Paired, Accounted, Followed, Retained, Capped;
    var t := CloseChannels(s, dead, reason);
    CoherentFrame(s, t);
    FewerChannelsAnchored(s, t);
    CloseChannelsTicketed(s, dead, reason);
    CloseChannelsPaired(s, dead, reason);
    CloseChannelsAccounted(s, dead, reason);
    FollowedFrame(s, t);
    RetainedFrame(s, t);
    FewerChannelsCapped(s, t);
  }

  ghost predicate FewerChannels(s: State, t: State) {
    forall c :: c in t.channels ==> c in s.channels && t.channels[c] == s.channels[c]
  }

  lemma FewerChannelsAnchored(s: State, t: State)
    requires Anchored(s) && FewerChannels(s, t) && t.leases == s.leases && t.registry == s.registry && SamePeople(s, t)
    ensures Anchored(t)
  {
    assert forall p, b :: Reachable(s, p, b) ==> Reachable(t, p, b);
    forall c | c in t.channels ensures AnchoredAt(t, t.channels[c]) { assert AnchoredAt(s, s.channels[c]); }
  }

  lemma CloseChannelsPaired(s: State, dead: set<ChannelId>, reason: Reason)
    requires Paired(s)
    ensures Paired(CloseChannels(s, dead, reason))
  {
    hide Notices, TicketsOf;
  }

  lemma CloseChannelsTicketed(s: State, dead: set<ChannelId>, reason: Reason)
    requires Ticketed(s) && dead <= s.channels.Keys
    ensures Ticketed(CloseChannels(s, dead, reason))
  {
    hide Notices;
    var t := CloseChannels(s, dead, reason);
    forall k | k in t.tickets ensures TicketOk(t, k) {
      assert TicketOk(s, k);
      assert s.tickets[k].channel in dead ==> k in TicketsOf(s, dead);
    }
    forall d | d in t.dials ensures DialOk(t, d) { assert DialOk(s, d); }
  }

  lemma FewerChannelsCapped(s: State, t: State)
    requires Capped(s) && t.config == s.config
    requires forall c :: c in t.channels ==>
               c in s.channels && t.channels[c].client == s.channels[c].client
                 && t.channels[c].backend == s.channels[c].backend
    ensures Capped(t)
  {
    forall p ensures |ClientChannels(t, p)| <= t.config.maxChannels
      && |InternalChannels(t, p)| <= t.config.maxChannels {
      SubsetSize(ClientChannels(t, p), ClientChannels(s, p));
      SubsetSize(InternalChannels(t, p), InternalChannels(s, p));
    }
  }

  // ---- Leases --------------------------------------------------------------

  /** What becomes of the peers when the holder of a lease loses its claim. */
  ghost predicate Disowned(s: State, t: State, backendId: BackendId) {
    && backendId in s.leases && s.leases[backendId].holder in s.peers
    && t.usedPeers == s.usedPeers
    && t.leases == s.leases - {backendId} && t.registry == s.registry - {backendId}
    && t.peers == s.peers[s.leases[backendId].holder := s.peers[s.leases[backendId].holder].(claim := None)]
  }

  lemma EndLeaseCoherent(s: State, t: State, backendId: BackendId)
    requires Coherent(s) && Disowned(s, t, backendId) && t.store == s.store
    ensures Coherent(t)
  {
    hide Inv, Known;
    forall b | b in t.leases ensures Held(t, b) { assert Held(s, b); }
    forall p | p in t.peers && t.peers[p].claim.Some? ensures IsOwner(t, p) { assert IsOwner(s, p); }
  }

  lemma DisownedReach(s: State, t: State, backendId: BackendId, p: PeerId, b: BackendId)
    requires Disowned(s, t, backendId) && b != backendId && Reachable(s, p, b)
    ensures Reachable(t, p, b)
  {
  }

  /** After the backend's channels are closed, dropping its lease leaves no channel behind. */
  lemma EndLeaseAnchored(s: State, t: State, backendId: BackendId)
    requires Anchored(s) && Disowned(s, t, backendId) && ChannelsOf(s, backendId) == {} && t.channels == s.channels
    ensures Anchored(t)
  {
    hide Reachable;
    forall c | c in t.channels ensures AnchoredAt(t, t.channels[c]) {
      var ch := s.channels[c];
      assert AnchoredAt(s, ch) && c !in ChannelsOf(s, backendId);
      if ch.client.Some? { DisownedReach(s, t, backendId, ch.client.value, ch.backendId); }
    }
  }

  lemma EndLeaseFollowed(s: State, t: State, backendId: BackendId)
    requires Followed(s) && Disowned(s, t, backendId) && t.subs == s.subs - {backendId}
    ensures Followed(t)
  {
    hide Reachable;
    forall b, k, p | b in t.subs && k in t.subs[b] && p in t.subs[b][k] ensures Reachable(t, p, b) {
      assert s.subs[b] == t.subs[b];
      DisownedReach(s, t, backendId, p, b);
    }
  }

  lemma EndLeaseRetained(s: State, t: State, backendId: BackendId)
    requires Retained(s) && t.leases == s.leases - {backendId} && t.published == s.published && t.store == s.store
    requires t.retained == s.retained - {backendId}
    ensures Retained(t)
  {
    forall b, k | b in t.leases ensures Stored(t, b, k) == CurrentPublication(t, b, k, t.leases[b].epoch) {
      assert Stored(s, b, k) == CurrentPublication(s, b, k, s.leases[b].epoch);
    }
  }

  lemma EndLeaseShape(s: State, backendId: BackendId, reason: Reason)
    requires Coherent(s) && backendId in s.leases
    ensures
      var mid := CloseChannels(s, ChannelsOf(s, backendId), reason);
      var t := EndLease(s, backendId, reason);
      && Disowned(mid, t, backendId) && ChannelsOf(mid, backendId) == {}
      && t == mid.(leases := t.leases, registry := t.registry, peers := t.peers,
                   subs := mid.subs - {backendId}, retained := mid.retained - {backendId})
    ensures s.leases[backendId].holder in s.peers
    ensures EndLease(s, backendId, reason).peers[s.leases[backendId].holder].claim.None?
    ensures EndLease(s, backendId, reason).leases == s.leases - {backendId}
    ensures EndLease(s, backendId, reason).peers.Keys == s.peers.Keys
  {
    assert Held(s, backendId);
    hide Coherent, Held, Notices, TicketsOf;
  }

  lemma EndLeaseKeepsSound(s: State, backendId: BackendId, reason: Reason)
    requires Sound(s) && backendId in s.leases
    ensures Sound(EndLease(s, backendId, reason))
    ensures s.leases[backendId].holder in s.peers
    ensures EndLease(s, backendId, reason).peers[s.leases[backendId].holder].claim.None?
    ensures EndLease(s, backendId, reason).leases == s.leases - {backendId}
    ensures EndLease(s, backendId, reason).peers.Keys == s.peers.Keys
  {
    hide Coherent, Anchored, Ticketed, Paired, Accounted, Followed, Retained, Capped, EndLease, CloseChannels,
         ChannelsOf;
    EndLeaseShape(s, backendId, reason);
    assert ChannelsOf(s, backendId) <= s.channels.Keys by { ChannelsOfAreChannels(s, backendId); }
    var mid := CloseChannels(s, ChannelsOf(s, backendId), reason);
    CloseChannelsKeepsSound(s, ChannelsOf(s, backendId), reason);
    var t := EndLease(s, backendId, reason);
    EndLeaseCoherent(mid, t, backendId);
    EndLeaseAnchored(mid, t, backendId);
    EndLeaseFollowed(mid, t, backendId);
    EndLeaseRetained(mid, t, backendId);
    TicketedFrame(mid, t);
    PairedFrame(mid, t);
    AccountedFrame(mid, t);
    CappedFrame(mid, t);
  }

  lemma ChannelsOfAreChannels(s: State, backendId: BackendId)
    ensures ChannelsOf(s, backendId) <= s.channels.Keys
  {
  }

  lemma RemovePeerCoherent(s: State, p: PeerId)
    requires Coherent(s) && (p in s.peers ==> s.peers[p].claim.None?)
    ensures Coherent(RemovePeer(s, p))
  {
    hide Inv, Known;
    var t := RemovePeer(s, p);
    forall b | b in t.leases ensures Held(t, b) { assert Held(s, b); }
    assert forall q :: q in t.peers && IsOwner(s, q) ==> IsOwner(t, q);
  }

  lemma RemovePeerReach(s: State, p: PeerId)
    requires Anchored(s) && Followed(s)
    ensures Anchored(RemovePeer(s, p)) && Followed(RemovePeer(s, p))
  {
    var t := RemovePeer(s, p);
    assert forall q, b :: Reachable(s, q, b) ==> Reachable(t, q, b);
    forall c | c in t.channels ensures AnchoredAt(t, t.channels[c]) { assert AnchoredAt(s, s.channels[c]); }
  }

  lemma RemovePeerKeepsSound(s: State, p: PeerId)
    requires Sound(s) && (p in s.peers ==> s.peers[p].claim.None?)
    ensures Sound(RemovePeer(s, p))
  {
    hide Coherent, Anchored, Ticketed, Paired, Accounted, Followed, Retained, Capped;
    var t := RemovePeer(s, p);
    RemovePeerCoherent(s, p);
    RemovePeerReach(s, p);
    RetainedFrame(s, t);
    TicketedFrame(s, t);
    PairedFrame(s, t);
    AccountedFrame(s, t);
    CappedFrame(s, t);
  }

  lemma NamedStoreChange(s: State, op: Op)
    requires Sound(s) && DrawsFresh(s.store, op) && (op.Forget? ==> op.online || op.backendId !in s.leases)
    ensures Sound(s.(store := Apply(s.store, op)))
    ensures s.store.maxEpoch <= Apply(s.store, op).maxEpoch
  {
    ApplyKeepsInv(s.store, op);
    ApplyKeepsEpochs(s.store, op);
    forall b | b in s.leases && b in s.registry ensures Known(Apply(s.store, op), b, s.registry[b].namespace) {
      ApplyKeepsKnown(s.store, op, b, s.registry[b].namespace);
    }
    StoreChangeKeepsSound(s, Apply(s.store, op));
  }

  lemma TouchKeepsSound(s: State, backendId: BackendId, root: Option<CredentialId>, now: int)
    requires Sound(s)
    ensures Sound(TouchBackend(s, backendId, root, now))
    ensures TouchBackend(s, backendId, root, now).peers == s.peers
    ensures TouchBackend(s, backendId, root, now).leases == s.leases
  {
    hide Sound;
    NamedStoreChange(s, Touch(backendId, root, now));
  }

  lemma SendKeepsSound(s: State, p: PeerId, msg: Message)
    requires Sound(s)
    ensures Sound(Send(s, p, msg))
  {
    hide Sound;
    SendOnlySays(s, p, msg);
    SayingKeepsSound(s, Send(s, p, msg));
  }

  lemma BroadcastKeepsSound(s: State, except: Option<PeerId>)
    requires Sound(s)
    ensures Sound(Broadcast(s, except))
    ensures Broadcast(s, except).peers == s.peers && Broadcast(s, except).leases == s.leases
  {
    hide Sound;
    BroadcastOnlySays(s, except);
    SayingKeepsSound(s, Broadcast(s, except));
  }

  lemma CloseSocketKeepsSound(s: State, p: PeerId, status: nat)
    requires Sound(s)
    ensures Sound(CloseSocket(s, p, status))
    ensures CloseSocket(s, p, status).leases == s.leases
  {
    hide Sound;
    SayingKeepsSound(s, CloseSocket(s, p, status));
  }

  lemma FlagKeepsSound(s: State, p: PeerId, alive: bool, open: bool)
    requires Sound(s) && p in s.peers
    ensures Sound(s.(peers := s.peers[p := s.peers[p].(alive := alive, open := open)]))
  {
    hide Sound;
    SayingKeepsSound(s, s.(peers := s.peers[p := s.peers[p].(alive := alive, open := open)]));
  }

  lemma ReplaceKeepsSound(s: State, backendId: BackendId)
    requires Sound(s) && backendId in s.leases
    ensures Sound(ReplaceOwner(s, backendId))
    ensures ReplaceOwner(s, backendId).leases == s.leases - {backendId}
  {
    hide Sound, EndLease, CloseSocket;
    EndLeaseKeepsSound(s, backendId, EpochChanged);
    CloseSocketKeepsSound(EndLease(s, backendId, EpochChanged), s.leases[backendId].holder, CLOSE_REPLACED);
  }

  lemma ExpireKeepsSound(s: State, backendId: BackendId, now: int)
    requires Sound(s) && backendId in s.leases
    ensures Sound(ExpireLease(s, backendId, now))
  {
    hide Sound, EndLease, Broadcast, TouchBackend, RemovePeer;
    EndLeaseKeepsSound(s, backendId, BackendOffline);
    var ended := EndLease(s, backendId, BackendOffline);
    BroadcastKeepsSound(ended, None);
    TouchKeepsSound(Broadcast(ended, None), backendId, None, now);
    RemovePeerKeepsSound(TouchBackend(Broadcast(ended, None), backendId, None, now), s.leases[backendId].holder);
  }

  lemma SubsChangeKeepsSound(s: State, subs: map<BackendId, map<Topic, set<PeerId>>>)
    requires Sound(s) && Followed(s.(subs := subs))
    ensures Sound(s.(subs := subs))
  {
    hide Coherent, Anchored, Ticketed, Paired, Accounted, Followed, Retained, Capped;
    var t := s.(subs := subs);
    CoherentFrame(s, t);
    AnchoredFrame(s, t);
    TicketedFrame(s, t);
    PairedFrame(s, t);
    AccountedFrame(s, t);
    RetainedFrame(s, t);
    CappedFrame(s, t);
  }

  lemma ForgetSubscriberFollowed(s: State, p: PeerId)
    requires Followed(s)
    ensures Followed(s.(subs := Forgotten(s.subs, p)))
  {
    var t := s.(subs := Forgotten(s.subs, p));
    forall b, k, q | b in t.subs && k in t.subs[b] && q in t.subs[b][k] ensures Reachable(t, q, b) {
      assert q in s.subs[b][k] && Reachable(s, q, b);
    }
  }

  /** Topic state of a backend without a lease is already gone. */
  lemma NoLeaseNoTopics(s: State, backendId: BackendId)
    requires Followed(s) && Retained(s) && backendId !in s.leases
    ensures s.subs - {backendId} == s.subs && s.retained - {backendId} == s.retained
  {
    hide Known, Stored, CurrentPublication, PeerReaches;
  }

  lemma CloseChannelsPeers(s: State, dead: set<ChannelId>, reason: Reason)
    ensures CloseChannels(s, dead, reason).peers == s.peers && CloseChannels(s, dead, reason).leases == s.leases
  {
  }

  /** Once the peer owns nothing, everything else of it goes. */
  lemma DepartKeepsSound(s: State, p: PeerId, claim: Option<Claim>)
    requires Sound(s) && p in s.peers && s.peers[p].claim.None?
    requires claim.Some? ==> claim.value.backendId !in s.leases
    ensures Sound(Depart(s, p, claim))
  {
    hide Coherent, Anchored, Ticketed, Paired, Accounted, Followed, Retained, Capped, CloseChannels, RemovePeer,
         Forgotten;
    CloseChannelsKeepsSound(s, ChannelsAt(s, p), Closed);
    CloseChannelsPeers(s, ChannelsAt(s, p), Closed);
    var u := CloseChannels(s, ChannelsAt(s, p), Closed);
    ForgetSubscriberFollowed(u, p);
    SubsChangeKeepsSound(u, Forgotten(u.subs, p));
    var v := u.(subs := Forgotten(u.subs, p));
    if claim.Some? {
      NoLeaseNoTopics(v, claim.value.backendId);
      assert v == v.(subs := v.subs - {claim.value.backendId}, retained := v.retained - {claim.value.backendId});
    }
    RemovePeerKeepsSound(v, p);
  }

  lemma ClaimsAreOwned(s: State, p: PeerId)
    requires Coherent(s) && p in s.peers
    ensures s.peers[p].claim.Some? <==> IsOwner(s, p)
  {
  }

  lemma AbdicateKeepsSound(s: State, p: PeerId, now: int)
    requires Sound(s) && p in s.peers
    ensures Sound(Abdicate(s, p, now))
    ensures p in Abdicate(s, p, now).peers && Abdicate(s, p, now).peers[p].claim.None?
    ensures s.peers[p].claim.Some? ==> s.peers[p].claim.value.backendId !in Abdicate(s, p, now).leases
  {
    ClaimsAreOwned(s, p);
    hide Sound, EndLease, Broadcast, TouchBackend;
    if IsOwner(s, p) {
      var b := s.peers[p].claim.value.backendId;
      EndLeaseKeepsSound(s, b, BackendOffline);
      var ended := EndLease(s, b, BackendOffline);
      BroadcastKeepsSound(ended, Some(p));
      TouchKeepsSound(Broadcast(ended, Some(p)), b, None, now);
    }
  }

  lemma DisconnectKeepsSound(s: State, p: PeerId, now: int)
    requires Sound(s)
    ensures Sound(Disconnect(s, p, now))
  {
    hide Sound, Abdicate, Depart;
    if p in s.peers {
      AbdicateKeepsSound(s, p, now);
      DepartKeepsSound(Abdicate(s, p, now), p, s.peers[p].claim);
    }
  }

  lemma SocketClosedKeepsSound(s: State, p: PeerId, now: int)
    requires Sound(s)
    ensures Sound(SocketClosed(s, p, now)) && Sound(PingPeer(s, p, now)) && Sound(Pong(s, p))
  {
    hide Sound, Disconnect;
    if p in s.peers {
      var peer := s.peers[p];
      FlagKeepsSound(s, p, peer.alive, false);
      FlagKeepsSound(s, p, false, peer.open);
      FlagKeepsSound(s, p, true, peer.open);
      DisconnectKeepsSound(s.(peers := s.peers[p := peer.(open := false)]), p, now);
      DisconnectKeepsSound(s, p, now);
    }
  }
}
