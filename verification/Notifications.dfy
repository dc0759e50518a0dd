/** Who hears of what: registry snapshots after each step, and the notices of channels that have ended. */
module Notifications {
  import opened Basics
  import opened CredentialStore
  import opened Session
  import opened SessionProofs
  import opened SessionSteps
  import opened SessionHistory
  import opened SessionFrames
  import opened SessionTheorems
  import opened Views
  import opened Entitlement
  import opened Reach
  import opened Decisions

  // ---- Snapshots -----------------------------------------------------------

  /** What a peer may see of a registry. */
  function OwnView(registry: Registry, peer: Peer): Registry {
    map b | b in registry && registry[b].namespace == peer.namespace
            && (peer.scope == None || b in peer.scope.value) :: registry[b]
  }

  /** These peers were sent one snapshot each, of what they may see of this registry; nobody else was sent any. */
  ghost predicate ShownTo(s: State, t: State, audience: map<PeerId, Peer>, registry: Registry) {
    forall q, items ::
      t.sent[Envelope(q, Snapshot(items))]
      == s.sent[Envelope(q, Snapshot(items))]
         + if q in audience && items == OwnView(registry, audience[q]) then 1 else 0
  }

  function Listening(peers: map<PeerId, Peer>, except: Option<PeerId>): map<PeerId, Peer> {
    map q | q in peers && peers[q].open && except != Some(q) :: peers[q]
  }

  lemma BroadcastShowsAll(s: State, except: Option<PeerId>)
    ensures ShownTo(s, Broadcast(s, except), Listening(s.peers, except), s.registry)
  {
    forall q, items
      ensures Envelope(q, Snapshot(items)) in Snapshots(s, except) <==>
              q in s.peers && s.peers[q].open && except != Some(q) && items == OwnView(s.registry, s.peers[q])
    {
      if q in s.peers { OwnViewIs(s.registry, s.peers[q]); }
      hide Visible, OwnView;
    }
    hide Snapshots, OwnView;
  }

  lemma OwnViewIs(registry: Registry, peer: Peer)
    ensures OwnView(registry, peer) == Visible(registry, peer.namespace, peer.scope)
  {
  }

  lemma SilentIsToNobody(s: State, t: State, registry: Registry)
    requires t.sent == s.sent
    ensures ShownTo(s, t, map[], registry)
  {
  }

  lemma UnseenIsToNobody(s: State, t: State, registry: Registry)
    requires Unseen(s, t)
    ensures ShownTo(s, t, map[], registry)
  {
  }

  /** First nobody is shown anything, then these. */
  lemma ThenShown(s: State, t: State, u: State, audience: map<PeerId, Peer>, registry: Registry)
    requires ShownTo(s, t, map[], registry) && ShownTo(t, u, audience, registry)
    ensures ShownTo(s, u, audience, registry)
  {
    hide OwnView;
    forall q, items
      ensures u.sent[Envelope(q, Snapshot(items))]
              == s.sent[Envelope(q, Snapshot(items))]
                 + if q in audience && items == OwnView(registry, audience[q]) then 1 else 0
    {
      var nobody: map<PeerId, Peer> := map[];
      assert q !in nobody;
      assert ShownTo(s, t, nobody, registry);
    }
  }

  /** The same eyes see the same. */
  lemma SameAudience(s: State, t: State, xs: map<PeerId, Peer>, ys: map<PeerId, Peer>, registry: Registry)
    requires ShownTo(s, t, xs, registry) && ys.Keys == xs.Keys
    requires forall q :: q in xs ==> SameEyes(xs[q], ys[q])
    ensures ShownTo(s, t, ys, registry)
  {
    forall q | q in xs ensures OwnView(registry, xs[q]) == OwnView(registry, ys[q]) {
    }
    hide OwnView;
    forall q, items
      ensures t.sent[Envelope(q, Snapshot(items))]
              == s.sent[Envelope(q, Snapshot(items))]
                 + if q in ys && items == OwnView(registry, ys[q]) then 1 else 0
    {
      assert q in xs <==> q in ys;
    }
  }

  /** Everybody who is there, when polled. */
  lemma PollShowsEverybody(s: State)
    ensures ShownTo(s, Step(s, DoPoll), Listening(s.peers, None), s.registry)
  {
    hide Broadcast, ShownTo;
    BroadcastShowsAll(s, None);
  }

  /** Everybody who is there, when a lease expires: without that backend. */
  lemma ExpiryShowsEverybody(s: State, b: BackendId, now: int)
    requires b in s.leases && now - s.leases[b].heartbeatAt > 30_000
    ensures ShownTo(s, Step(s, DoCheckLease(b, now)), Listening(s.peers, None), s.registry - {b})
  {
    hide EndLease, Broadcast, TouchIdentity, ShownTo;
    var ended := EndLease(s, b, BackendOffline);
    LeaseEnds(s, b, BackendOffline);
    BroadcastShowsAll(ended, None);
    SilentIsToNobody(s, ended, ended.registry);
    ThenShown(s, ended, Broadcast(ended, None), Listening(ended.peers, None), ended.registry);
    EndedPeers(s, b, BackendOffline);
    SameAudience(s, Broadcast(ended, None), Listening(ended.peers, None), Listening(s.peers, None), ended.registry);
    SameMail(s, Broadcast(ended, None), Step(s, DoCheckLease(b, now)), Listening(s.peers, None), ended.registry);
  }

  lemma SameMail(s: State, t: State, u: State, audience: map<PeerId, Peer>, registry: Registry)
    requires ShownTo(s, t, audience, registry) && u.sent == t.sent
    ensures ShownTo(s, u, audience, registry)
  {
  }

  lemma EndedPeers(s: State, b: BackendId, reason: Reason)
    requires b in s.leases
    ensures var t := EndLease(s, b, reason);
      t.peers.Keys == s.peers.Keys && forall p :: p in s.peers ==> t.peers[p].open == s.peers[p].open
  {
    hide CloseChannels, ChannelsOf;
    ClosingIsUnseen(s, ChannelsOf(s, b), reason);
  }

  /** When a peer goes that held a lease, the others, without its backend; when it did not, nobody. */
  lemma LeavingShows(s: State, p: PeerId, now: int)
    requires p in s.peers
    ensures var t := Disconnect(s, p, now);
      && (!IsOwner(s, p) ==> ShownTo(s, t, map[], s.registry))
      && (IsOwner(s, p) ==>
            s.peers[p].claim.Some?
            && ShownTo(s, t, Listening(s.peers, Some(p)), s.registry - {s.peers[p].claim.value.backendId}))
  {
    hide EndLease, Broadcast, TouchIdentity, Depart, ShownTo;
    var t, left := Disconnect(s, p, now), Abdicate(s, p, now);
    DepartureIs(left, p, s.peers[p].claim);
    if IsOwner(s, p) {
      var b := s.peers[p].claim.value.backendId;
      var ended := EndLease(s, b, BackendOffline);
      LeaseEnds(s, b, BackendOffline);
      EndedPeers(s, b, BackendOffline);
      BroadcastShowsAll(ended, Some(p));
      SilentIsToNobody(s, ended, ended.registry);
      ThenShown(s, ended, Broadcast(ended, Some(p)), Listening(ended.peers, Some(p)), ended.registry);
      SameAudience(s, Broadcast(ended, Some(p)), Listening(ended.peers, Some(p)), Listening(s.peers, Some(p)),
                   ended.registry);
      SameMail(s, Broadcast(ended, Some(p)), t, Listening(s.peers, Some(p)), ended.registry);
    } else {
      SilentIsToNobody(s, t, s.registry);
    }
  }

  /**
   A peer goes when its socket closes, or in the ping sweep when it was silent: if it held a lease, everybody else who
   is there is shown the registry without its backend; if not, nobody is shown anything.
   */
  lemma DisconnectShowsTheOthers(s: State, p: PeerId, now: int, a: Action)
    requires Sound(s) && p in s.peers && (a == DoSocketClosed(p, now) || (a == DoPing(p, now) && !s.peers[p].alive))
    ensures var t, owner := Step(s, a), exists b :: b in s.leases && s.leases[b].holder == p;
      && (!owner ==> ShownTo(s, t, map[], s.registry))
      && (owner ==> s.peers[p].claim.Some?
                    && ShownTo(s, t, Listening(s.peers, Some(p)), s.registry - {s.peers[p].claim.value.backendId}))
  {
    hide Sound, Disconnect, IsOwner, ShownTo, OwnView;
    OwnersHold(s, p);
    if a.DoPing? {
      LeavingShows(s, p, now);
    } else {
      ClosedOwnerIsOwner(s, p);
      LeavingShows(s.(peers := s.peers[p := s.peers[p].(open := false)]), p, now);
      ClosedIsSilent(s, p, now);
    }
  }

  lemma ClosedOwnerIsOwner(s: State, p: PeerId)
    requires p in s.peers
    ensures IsOwner(s.(peers := s.peers[p := s.peers[p].(open := false)]), p) == IsOwner(s, p)
  {
  }

  lemma ClosedIsSilent(s: State, p: PeerId, now: int)
    requires p in s.peers
    ensures var mid := s.(peers := s.peers[p := s.peers[p].(open := false)]);
      && mid.sent == s.sent && mid.registry == s.registry
      && Step(s, DoSocketClosed(p, now)) == Disconnect(mid, p, now)
      && Listening(mid.peers, Some(p)) == Listening(s.peers, Some(p))
      && forall audience, registry, t ::
           ShownTo(mid, t, audience, registry) ==> ShownTo(s, t, audience, registry)
  {
    hide Disconnect, OwnView;
  }

  /** The others, when a backend is admitted, with its new presence; nobody, when a client is or nobody is. */
  lemma AdmissionShowsTheOthers(s: State, h: Hello, spent: bool, p: PeerId, draw: Draw, now: int)
    requires p !in s.peers
    ensures var t := Step(s, DoHello(h, spent, p, draw, now));
      ShownTo(s, t, if h.backend && p in t.peers then Listening(t.peers, Some(p)) else map[], t.registry)
  {
    hide Step, Greet, Admit, FindValid, JudgeHello, ShownTo, OwnView, Listening;
    HelloIs(s, h, spent, p, draw, now);
    var seen, t := s.(store := FindValid(s.store, h.token, now)), Step(s, DoHello(h, spent, p, draw, now));
    SilentIsToNobody(s, seen, t.registry);
    if JudgeHello(s.store, h, spent, now).Admitted? {
      var id := JudgeHello(s.store, h, spent, now).credential;
      AdmittingIs(seen, h, id, p, draw, now);
      if h.backend { BackendShows(seen, h, id, p, draw, now); } else { ClientShows(seen, h, id, p, draw, now); }
      ThenShown(s, seen, t, if h.backend then Listening(t.peers, Some(p)) else map[], t.registry);
    }
  }

  lemma JoiningShowsNobody(s: State, p: PeerId, peer: Peer, registry: Registry)
    ensures ShownTo(s, AddPeer(s, p, peer), map[], registry)
  {
    hide Visible, Send;
    var t := s.(peers := s.peers[p := peer], usedPeers := s.usedPeers + {p});
    var ready := PeerReady(peer.claim, Visible(s.registry, peer.namespace, peer.scope));
    SendAdds(t, p, ready);
    assert forall q, items :: multiset{Envelope(p, ready)}[Envelope(q, Snapshot(items))] == 0;
  }

  lemma ClientShows(s: State, h: Hello, id: CredentialId, p: PeerId, draw: Draw, now: int)
    requires id in s.store.credentials && !h.backend
    ensures ShownTo(s, Admit(s, h, id, p, draw, now), map[], Admit(s, h, id, p, draw, now).registry)
  {
    hide AddPeer, ShownTo;
    var c := s.store.credentials[id];
    var scope := if c.kind == Device then c.scope else None;
    JoiningShowsNobody(s, p, Peer(h.namespace, id, scope, None, true, true), Admit(s, h, id, p, draw, now).registry);
  }

  lemma WelcomeShowsTheOthers(s: State, t: State, p: PeerId, peer: Peer)
    requires Unseen(s, t)
    ensures var v := Broadcast(AddPeer(t, p, peer), Some(p)); ShownTo(s, v, Listening(v.peers, Some(p)), v.registry)
  {
    hide AddPeer, Broadcast, ShownTo, Unseen, Listening;
    var u, v := AddPeer(t, p, peer), Broadcast(AddPeer(t, p, peer), Some(p));
    UnseenIsToNobody(s, t, v.registry);
    JoiningShowsNobody(t, p, peer, v.registry);
    ThenShown(s, t, u, map[], v.registry);
    BroadcastShowsAll(u, Some(p));
    BroadcastTables(u, Some(p));
    ThenShown(s, u, v, Listening(u.peers, Some(p)), v.registry);
  }

  lemma BackendShows(s: State, h: Hello, id: CredentialId, p: PeerId, draw: Draw, now: int)
    requires id in s.store.credentials && h.backend
    ensures var t := Admit(s, h, id, p, draw, now); ShownTo(s, t, Listening(t.peers, Some(p)), t.registry)
  {
    hide Admit, AddPeer, Broadcast, ShownTo, Unseen, Listening;
    var t, peer := BackendJoins(s, h, id, p, draw, now);
    WelcomeShowsTheOthers(s, t, p, peer);
  }

  /** A peer that asks is shown its own view; no other step shows anybody anything. */
  lemma OtherStepsShowNobody(s: State, a: Action)
    requires !a.DoHello? && !a.DoPoll? && !a.DoPing? && !a.DoSocketClosed? && !a.DoCheckLease?
    ensures ShownTo(s, Step(s, a),
                    if a.DoSnapshot? && a.p in s.peers && s.peers[a.p].open then map[a.p := s.peers[a.p]] else map[],
                    s.registry)
  {
    if a.DoSnapshot? && a.p in s.peers && s.peers[a.p].open {
      OwnViewIs(s.registry, s.peers[a.p]);
      hide Visible, OwnView;
      assert Step(s, a).sent == s.sent + multiset{Envelope(a.p, Snapshot(OwnView(s.registry, s.peers[a.p])))};
    } else {
      hide Unseen, ShownTo, Step;
      QuietStepsShowNothing(s, a);
      UnseenIsToNobody(s, Step(s, a), s.registry);
    }
  }

  lemma QuietStepsShowNothing(s: State, a: Action)
    requires !a.DoHello? && !a.DoPoll? && !a.DoPing? && !a.DoSocketClosed? && !a.DoCheckLease?
    requires a.DoSnapshot? ==> !(a.p in s.peers && s.peers[a.p].open)
    ensures Unseen(s, Step(s, a))
  {
    forall e: Envelope | IsView(e.msg) ensures Step(s, a).sent[e] == s.sent[e] {
      hide ChannelStep, OwnerStep, PeerStep;
      if AboutOneChannel(a) {
        ChannelStepIsUnseen(s, a);
      } else if AboutAnOwner(a) {
        OwnerStepIsUnseen(s, a);
      } else {
        PeerStepIsUnseen(s, a);
      }
    }
  }

  lemma OwnerStepIsUnseen(s: State, a: Action)
    requires AboutAnOwner(a) && !a.DoHello? && !a.DoCheckLease?
    ensures Unseen(s, OwnerStep(s, a))
  {
    hide Heartbeat, Relay, Publish, Administer, Unseen;
    SameMailIsUnseen(s, s);
    match a {
      case DoHeartbeat(p, epoch, now) => HeartbeatIsUnseen(s, p, epoch, now);
      case DoRelay(p, b, target, payload) => RelayingIsUnseen(s, p, b, target, payload);
      case DoPublish(p, topic, payload, retain) => PublishingIsUnseen(s, p, topic, payload, retain);
      case DoAdmin(op) => AdministeringIsUnseen(s, op);
    }
  }

  lemma PeerStepIsUnseen(s: State, a: Action)
    requires !AboutOneChannel(a) && !AboutAnOwner(a) && !a.DoPoll? && !a.DoPing? && !a.DoSocketClosed?
    requires a.DoSnapshot? ==> !(a.p in s.peers && s.peers[a.p].open)
    ensures Unseen(s, PeerStep(s, a))
  {
    hide Subscribe, Unsubscribe, ConsumeTicket, DropStaleTickets, Pong, Visible;
    match a {
      case DoSnapshot(p) =>
      case DoSubscribe(p, b, topic) => if p in s.peers { SubscribingIsUnseen(s, p, b, topic); }
      case DoUnsubscribe(p, b, topic) => if p in s.peers { UnsubscribingIsUnseen(s, p, b, topic); }
      case DoDial(ticket, c, now) => TicketsAreUnseen(s, ticket, c, now, 0);
      case DoAbortDial(_) =>
      case DoTicketCleanup(now) => TicketsAreUnseen(s, 0, 0, now, 0);
      case DoPong(p) => TicketsAreUnseen(s, 0, 0, 0, p);
    }
  }

  // ---- Notices -------------------------------------------------------------

  /** Who is at this end, if connected, has the notice. */
  ghost predicate HasNotice(t: State, c: ChannelId, end: End)
    requires c in t.fates
  {
    var q := t.fates[c].channel.PeerAt(end);
    q.Some? && Session.Open(t, q.value) ==> Notice(q.value, c, end, t.fates[c].reason) in t.notices
  }

  predicate SameEnds(a: Channel, b: Channel) { a.client == b.client && a.backend == b.backend }

  /** The channel has ended with these ends, and both have their notices. */
  ghost predicate EndsTold(t: State, c: ChannelId, was: Channel)
    requires c in t.fates
  {
    SameEnds(t.fates[c].channel, was) && HasNotice(t, c, ClientEnd) && HasNotice(t, c, BackendEnd)
  }

  /** The channels that ended on the way were open before, and both ends who are still connected were told. */
  ghost predicate NewlyTold(s: State, t: State) {
    forall c :: c in t.fates && c !in s.fates ==> c in s.channels && EndsTold(t, c, s.channels[c])
  }

  /** No notice and no end is withdrawn, no channel is new or has other ends, and nobody has come. */
  ghost predicate Shrinks(s: State, t: State) {
    && (forall n :: n in s.notices ==> n in t.notices)
    && (forall c :: c in s.fates ==> c in t.fates && t.fates[c] == s.fates[c])
    && (forall c :: c in t.channels ==> c in s.channels && SameEnds(t.channels[c], s.channels[c]))
    && (forall p :: Session.Open(t, p) ==> Session.Open(s, p))
  }

  ghost predicate Reports(s: State, t: State) { NewlyTold(s, t) && Shrinks(s, t) }

  lemma ReportsTrans(s: State, t: State, u: State)
    requires Reports(s, t) && Reports(t, u)
    ensures Reports(s, u)
  {
    forall c | c in u.fates && c !in s.fates ensures c in s.channels && EndsTold(u, c, s.channels[c]) {
      if c in t.fates { assert EndsTold(t, c, s.channels[c]); } else { assert EndsTold(u, c, t.channels[c]); }
    }
  }

  /** Nothing happened to channels, and nobody came. */
  lemma QuietReports(s: State, t: State)
    requires t.notices == s.notices && t.fates == s.fates && t.channels == s.channels
    requires forall p :: Session.Open(t, p) ==> Session.Open(s, p)
    ensures Reports(s, t)
  {
  }

  lemma ClosingReports(s: State, dead: set<ChannelId>, reason: Reason)
    requires s.channels.Keys !! s.fates.Keys
    ensures Reports(s, CloseChannels(s, dead, reason))
    ensures CloseChannels(s, dead, reason).channels.Keys !! CloseChannels(s, dead, reason).fates.Keys
  {
    var t := CloseChannels(s, dead, reason);
    forall c, end: End | c in t.fates && c !in s.fates ensures HasNotice(t, c, end) {
      var q := s.channels[c].PeerAt(end);
      if q.Some? && Session.Open(t, q.value) { assert Notice(q.value, c, end, reason) in Notices(s, dead, reason); }
    }
    hide Notices, TicketsOf;
  }

  lemma EndLeaseReports(s: State, b: BackendId, reason: Reason)
    requires b in s.leases && s.channels.Keys !! s.fates.Keys
    ensures Reports(s, EndLease(s, b, reason))
    ensures EndLease(s, b, reason).channels.Keys !! EndLease(s, b, reason).fates.Keys
  {
    hide CloseChannels, ChannelsOf, Reports;
    var mid := CloseChannels(s, ChannelsOf(s, b), reason);
    ClosingReports(s, ChannelsOf(s, b), reason);
    ClosingIsUnseen(s, ChannelsOf(s, b), reason);
    QuietReports(mid, EndLease(s, b, reason));
    ReportsTrans(s, mid, EndLease(s, b, reason));
  }

  lemma BroadcastReports(s: State, except: Option<PeerId>)
    ensures Reports(s, Broadcast(s, except))
  {
    BroadcastIs(s, except);
    hide Broadcast;
    QuietReports(s, Broadcast(s, except));
  }

  lemma AbdicationReports(s: State, p: PeerId, now: int)
    requires s.channels.Keys !! s.fates.Keys
    ensures Reports(s, Abdicate(s, p, now))
    ensures Abdicate(s, p, now).channels.Keys !! Abdicate(s, p, now).fates.Keys
  {
    hide EndLease, Broadcast, TouchIdentity, Reports;
    QuietReports(s, s);
    if IsOwner(s, p) {
      var b := s.peers[p].claim.value.backendId;
      var ended := EndLease(s, b, BackendOffline);
      EndLeaseReports(s, b, BackendOffline);
      BroadcastIs(ended, Some(p));
      QuietReports(ended, Abdicate(s, p, now));
      ReportsTrans(s, ended, Abdicate(s, p, now));
    }
  }

  lemma DepartureReports(s: State, p: PeerId, claim: Option<Claim>)
    requires s.channels.Keys !! s.fates.Keys
    ensures Reports(s, Depart(s, p, claim))
  {
    hide CloseChannels, ChannelsAt, Forgotten, Reports;
    var mid := CloseChannels(s, ChannelsAt(s, p), Closed);
    ClosingReports(s, ChannelsAt(s, p), Closed);
    ClosingIsUnseen(s, ChannelsAt(s, p), Closed);
    QuietReports(mid, Depart(s, p, claim));
    ReportsTrans(s, mid, Depart(s, p, claim));
  }

  lemma DisconnectReports(s: State, p: PeerId, now: int)
    requires s.channels.Keys !! s.fates.Keys
    ensures Reports(s, Disconnect(s, p, now))
  {
    hide Abdicate, Depart, Reports;
    QuietReports(s, s);
    if p in s.peers {
      AbdicationReports(s, p, now);
      DepartureReports(Abdicate(s, p, now), p, s.peers[p].claim);
      ReportsTrans(s, Abdicate(s, p, now), Disconnect(s, p, now));
    }
  }

  lemma PingReports(s: State, p: PeerId, now: int)
    requires s.channels.Keys !! s.fates.Keys
    ensures Reports(s, PingPeer(s, p, now)) && Reports(s, Pong(s, p))
  {
    hide Disconnect, Reports;
    QuietReports(s, Pong(s, p));
    DisconnectReports(s, p, now);
    if p in s.peers { QuietReports(s, s.(peers := s.peers[p := s.peers[p].(alive := false)])); }
  }

  lemma ClosedSocketReports(s: State, p: PeerId, now: int)
    requires s.channels.Keys !! s.fates.Keys
    ensures Reports(s, SocketClosed(s, p, now))
  {
    hide Disconnect, Reports;
    if p in s.peers {
      var mid := s.(peers := s.peers[p := s.peers[p].(open := false)]);
      QuietReports(s, mid);
      DisconnectReports(mid, p, now);
      ReportsTrans(s, mid, Disconnect(mid, p, now));
    } else {
      QuietReports(s, s);
    }
  }

  lemma ExpiryReports(s: State, b: BackendId, now: int)
    requires s.channels.Keys !! s.fates.Keys
    ensures Reports(s, CheckLease(s, b, now))
  {
    hide EndLease, Broadcast, TouchIdentity, Reports;
    QuietReports(s, s);
    if b in s.leases {
      var ended := EndLease(s, b, BackendOffline);
      EndLeaseReports(s, b, BackendOffline);
      BroadcastIs(ended, None);
      QuietReports(ended, ExpireLease(s, b, now));
      ReportsTrans(s, ended, ExpireLease(s, b, now));
    }
  }

  lemma RefusingOneReports(s: State, p: PeerId, c: ChannelId)
    requires s.channels.Keys !! s.fates.Keys
    ensures Reports(s, RejectChannel(s, p, c)) && Reports(s, CloseChannel(s, p, c))
  {
    QuietReports(s, s);
    ClosingReports(s, {c}, Session.Rejected);
    ClosingReports(s, {c}, Closed);
    hide CloseChannels, Reports;
  }

  lemma EndingOneReports(s: State, c: ChannelId, reason: Reason)
    requires s.channels.Keys !! s.fates.Keys
    ensures Reports(s, PairingTimeout(s, c)) && Reports(s, LegClosed(s, c)) && Reports(s, HttpGone(s, c, reason))
  {
    QuietReports(s, s);
    ClosingReports(s, {c}, Closed);
    ClosingReports(s, {c}, TimedOut);
    ClosingReports(s, {c}, reason);
    hide CloseChannels, Reports;
  }

  lemma GrantReports(s: State, p: PeerId, b: BackendId, namespace: Namespace, root: CredentialId, now: int)
    requires s.channels.Keys !! s.fates.Keys
    ensures Reports(s, GrantLease(s, p, b, namespace, root, now))
  {
    hide EndLease, Reports, TouchIdentity, Send;
    var t := s.(store := AllocateEpoch(s.store));
    QuietReports(s, t);
    if b in s.leases {
      EndLeaseReports(t, b, EpochChanged);
      var ended, holder := EndLease(t, b, EpochChanged), s.leases[b].holder;
      ReportsTrans(s, t, ended);
      SendIsQuiet(ended, holder, CloseFrame(CLOSE_REPLACED));
      QuietReports(ended, GrantLease(s, p, b, namespace, root, now));
      ReportsTrans(s, ended, GrantLease(s, p, b, namespace, root, now));
    } else {
      QuietReports(s, GrantLease(s, p, b, namespace, root, now));
    }
  }

  lemma SendIsQuiet(s: State, p: PeerId, msg: Message)
    ensures var t := Send(s, p, msg);
      t.notices == s.notices && t.fates == s.fates && t.channels == s.channels && t.peers == s.peers
  {
  }

  // ---- Every step and every run --------------------------------------------

  lemma SendKeepsFates(s: State, p: PeerId, msg: Message)
    ensures Send(s, p, msg).fates == s.fates
  {
  }

  lemma OpeningKeepsFates(s: State, p: PeerId, b: BackendId, draw: ChannelDraw, now: int)
    requires p in s.peers
    ensures OpenChannel(s, p, b, draw, now).fates == s.fates
  {
    hide ChannelVerdict, Send, AddChannel;
    match ChannelVerdict(s, p, b)
    case Refuse(code) => SendKeepsFates(s, p, Error(code));
    case Grant(epoch, holder) =>
      var t := AddChannel(s, b, Some(p), holder, epoch, draw, now);
      var offer := ChannelOffer(draw.channel, draw.backendTicket, Some(p));
      AddingKeepsFates(s, b, Some(p), holder, epoch, draw, now);
      SendKeepsFates(t, holder, offer);
      SendKeepsFates(Send(t, holder, offer), p, ChannelReady(draw.channel, draw.clientTicket));
  }

  lemma ProxyKeepsFates(s: State, token: Token, b: BackendId, limited: bool, draw: ChannelDraw, now: int)
    ensures Proxy(s, token, b, limited, draw, now).fates == s.fates
  {
    hide FindValid, ProxyStatus, Send, AddChannel;
    var t := s.(store := FindValid(s.store, token, now));
    if ProxyStatus(s, token, b, limited, now) == 0 {
      StatusMeansLeased(s, token, b, limited, now);
      var lease := s.leases[b];
      AddingKeepsFates(t, b, None, lease.holder, lease.epoch, draw, now);
      SendKeepsFates(AddChannel(t, b, None, lease.holder, lease.epoch, draw, now), lease.holder,
                     ChannelOffer(draw.channel, draw.backendTicket, None));
    }
  }

  lemma AttachKeepsFates(s: State, dial: Dial, socket: Socket)
    ensures Attach(s, dial, socket).fates == s.fates
  {
    hide WithLeg;
    if dial in s.dials && dial.channel in s.channels {
      var ch := WithLeg(s.channels[dial.channel], dial.end, socket);
      var wirings := if ch.wired && !s.channels[dial.channel].wired then s.wirings + multiset{dial.channel}
                     else s.wirings;
      assert Attach(s, dial, socket) == s.(dials := s.dials - {dial}, channels := s.channels[dial.channel := ch],
                                           wirings := wirings);
    } else {
    }
  }

  lemma AddingKeepsFates(s: State, b: BackendId, client: Option<PeerId>, holder: PeerId, epoch: nat, draw: ChannelDraw,
                         now: int)
    ensures AddChannel(s, b, client, holder, epoch, draw, now).fates == s.fates
  {
  }

  lemma SameFatesTell(s: State, t: State)
    requires t.fates == s.fates
    ensures NewlyTold(s, t)
  {
  }

  lemma ChannelStepTells(s: State, a: Action)
    requires AboutOneChannel(a) && s.channels.Keys !! s.fates.Keys
    ensures NewlyTold(s, ChannelStep(s, a))
  {
    hide OpenChannel, Proxy, Attach, RejectChannel, CloseChannel, PairingTimeout, LegClosed, HttpGone;
    SameFatesTell(s, s);
    hide NewlyTold;
    match a {
      case DoOpen(p, b, draw, now) =>
        if p in s.peers { OpeningKeepsFates(s, p, b, draw, now); }
        SameFatesTell(s, ChannelStep(s, a));
      case DoProxy(token, b, limited, draw, now) =>
        ProxyKeepsFates(s, token, b, limited, draw, now);
        SameFatesTell(s, ChannelStep(s, a));
      case DoAttach(dial, socket) =>
        AttachKeepsFates(s, dial, socket);
        SameFatesTell(s, ChannelStep(s, a));
      case DoReject(p, c) => RefusingOneReports(s, p, c);
      case DoClose(p, c) => RefusingOneReports(s, p, c);
      case DoPairingTimeout(c, _) => EndingOneReports(s, c, Closed);
      case DoLegClosed(c) => EndingOneReports(s, c, Closed);
      case DoHttpGone(c, reason) => EndingOneReports(s, c, reason);
    }
  }

  lemma SubscribingKeepsFates(s: State, p: PeerId, b: BackendId, topic: Topic)
    requires p in s.peers
    ensures Subscribe(s, p, b, topic).fates == s.fates
  {
    hide PeerReaches, SubscribersOf, Send;
    var t := s.(subs := s.subs[b := TopicsOf(s.subs, b)[topic := SubscribersOf(s, b, topic) + {p}]]);
    var u := Send(t, p, Subscribed(b, topic));
    SendKeepsFates(s, p, Error(Offline));
    SendKeepsFates(t, p, Subscribed(b, topic));
    if topic in TopicsOf(s.retained, b) { SendKeepsFates(u, p, TopicMessage(b, topic, Some(s.retained[b][topic]))); }
  }

  lemma UnsubscribingKeepsFates(s: State, p: PeerId, b: BackendId, topic: Topic)
    ensures Unsubscribe(s, p, b, topic).fates == s.fates
  {
    hide Send;
    var t := if b in s.subs && topic in s.subs[b]
             then s.(subs := s.subs[b := s.subs[b][topic := s.subs[b][topic] - {p}]]) else s;
    SendKeepsFates(t, p, Unsubscribed(b, topic));
  }

  lemma SnapshotsKeepFates(s: State, p: PeerId)
    ensures Broadcast(s, None).fates == s.fates
    ensures p in s.peers ==> RequestSnapshot(s, p).fates == s.fates
  {
    BroadcastIs(s, None);
    hide Visible, Broadcast, Send;
    if p in s.peers {
      SendKeepsFates(s, p, Snapshot(Visible(s.registry, s.peers[p].namespace, s.peers[p].scope)));
    }
  }

  lemma PeerStepTells(s: State, a: Action)
    requires !AboutOneChannel(a) && !AboutAnOwner(a) && s.channels.Keys !! s.fates.Keys
    ensures NewlyTold(s, PeerStep(s, a))
  {
    if a.DoPing? || a.DoPong? || a.DoSocketClosed? {
      hide PingPeer, Pong, SocketClosed;
      if a.DoSocketClosed? {
        ClosedSocketReports(s, a.p, a.now);
      } else {
        PingReports(s, a.p, if a.DoPong? then 0 else a.now);
      }
    } else {
      PeerStepKeepsFates(s, a);
      hide PeerStep;
      SameFatesTell(s, PeerStep(s, a));
    }
  }

  lemma PeerStepKeepsFates(s: State, a: Action)
    requires !AboutOneChannel(a) && !AboutAnOwner(a) && !a.DoPing? && !a.DoPong? && !a.DoSocketClosed?
    ensures PeerStep(s, a).fates == s.fates
  {
    hide RequestSnapshot, Subscribe, Unsubscribe, Broadcast, DialAccepted;
    match a {
      case DoSnapshot(p) => SnapshotsKeepFates(s, p);
      case DoSubscribe(p, b, topic) => if p in s.peers { SubscribingKeepsFates(s, p, b, topic); }
      case DoUnsubscribe(p, b, topic) => UnsubscribingKeepsFates(s, p, b, topic);
      case DoPoll => SnapshotsKeepFates(s, 0);
      case _ =>
    }
  }

  lemma HeartbeatKeepsFates(s: State, p: PeerId, epoch: nat, now: int)
    ensures Heartbeat(s, p, epoch, now).fates == s.fates
  {
    hide Send;
    if IsOwner(s, p) && s.peers[p].claim.value.epoch == epoch {
      var b := s.peers[p].claim.value.backendId;
      var t := s.(leases := s.leases[b := s.leases[b].(heartbeatAt := now)]);
      var u := if b in t.registry then t.(registry := t.registry[b := t.registry[b].(lastSeenAt := now)]) else t;
      SendKeepsFates(u, p, HeartbeatAck(epoch));
    }
  }

  lemma RelayKeepsFates(s: State, p: PeerId, b: BackendId, target: Option<PeerId>, payload: Option<Payload>)
    ensures Relay(s, p, b, target, payload).fates == s.fates
  {
    hide Send, CanReach;
    if target.Some? { SendKeepsFates(s, target.value, Relayed(b, payload)); }
  }

  lemma PublishKeepsFates(s: State, p: PeerId, topic: Topic, payload: Option<Payload>, retain: bool)
    ensures Publish(s, p, topic, payload, retain).fates == s.fates
  {
    hide Deliveries, Retain;
    if IsOwner(s, p) && retain && payload.Some? { RetainOnly(s, s.peers[p].claim.value, topic, payload.value); }
  }

  lemma AdministeringKeepsFates(s: State, op: Op)
    ensures Administer(s, op).fates == s.fates
  {
    hide Apply, Disconnected;
  }

  lemma OwnerStepTells(s: State, a: Action)
    requires AboutAnOwner(a) && !a.DoHello? && s.channels.Keys !! s.fates.Keys
    ensures NewlyTold(s, OwnerStep(s, a))
  {
    if a.DoCheckLease? {
      hide CheckLease;
      ExpiryReports(s, a.backendId, a.now);
    } else {
      OwnerStepKeepsFates(s, a);
      hide OwnerStep;
      SameFatesTell(s, OwnerStep(s, a));
    }
  }

  lemma OwnerStepKeepsFates(s: State, a: Action)
    requires AboutAnOwner(a) && !a.DoHello? && !a.DoCheckLease?
    ensures OwnerStep(s, a).fates == s.fates
  {
    hide Heartbeat, Relay, Publish, Administer;
    match a {
      case DoHeartbeat(p, epoch, now) => HeartbeatKeepsFates(s, p, epoch, now);
      case DoRelay(p, b, target, payload) => RelayKeepsFates(s, p, b, target, payload);
      case DoPublish(p, topic, payload, retain) => PublishKeepsFates(s, p, topic, payload, retain);
      case DoAdmin(op) => if AdminOp(op) { AdministeringKeepsFates(s, op); }
    }
  }

  /** Every end of a channel is a peer that was admitted. */
  ghost predicate EndsUsed(s: State) {
    forall c :: c in s.channels ==>
      s.channels[c].backend in s.usedPeers
      && (s.channels[c].client.Some? ==> s.channels[c].client.value in s.usedPeers)
  }

  lemma SoundEndsUsed(s: State)
    requires Sound(s)
    ensures EndsUsed(s)
  {
    PeersWereUsed(s);
    forall c | c in s.channels
      ensures s.channels[c].backend in s.usedPeers
      ensures s.channels[c].client.Some? ==> s.channels[c].client.value in s.usedPeers
    {
      AnchoredChannel(s, c);
      HolderIsLive(s, s.channels[c].backendId);
      hide Sound;
    }
  }

  lemma JoiningTells(s: State, t: State, p: PeerId, peer: Peer)
    requires Reports(s, t) && EndsUsed(s) && p !in s.usedPeers
    ensures NewlyTold(s, AddPeer(t, p, peer)) && NewlyTold(s, Broadcast(AddPeer(t, p, peer), Some(p)))
  {
    JoinedIsQuiet(t, p, peer);
    hide AddPeer, Broadcast;
    var u, v := AddPeer(t, p, peer), Broadcast(AddPeer(t, p, peer), Some(p));
    forall c | c in t.fates && c !in s.fates ensures EndsTold(u, c, s.channels[c]) && EndsTold(v, c, s.channels[c]) {
      assert EndsTold(t, c, s.channels[c]);
    }
  }

  lemma JoinedIsQuiet(s: State, p: PeerId, peer: Peer)
    ensures var t, u := AddPeer(s, p, peer), Broadcast(AddPeer(s, p, peer), Some(p));
      && t.notices == s.notices && t.fates == s.fates && t.peers == s.peers[p := peer]
      && u.notices == s.notices && u.fates == s.fates && u.peers == s.peers[p := peer]
  {
    var mid := s.(peers := s.peers[p := peer], usedPeers := s.usedPeers + {p});
    SendIsQuiet(mid, p, PeerReady(peer.claim, Visible(s.registry, peer.namespace, peer.scope)));
    hide Send, Visible;
    BroadcastIs(AddPeer(s, p, peer), Some(p));
  }

  lemma AdmittingTells(s: State, h: Hello, id: CredentialId, p: PeerId, draw: Draw, now: int)
    requires id in s.store.credentials && EndsUsed(s) && p !in s.usedPeers && s.channels.Keys !! s.fates.Keys
    ensures NewlyTold(s, Admit(s, h, id, p, draw, now))
  {
    AdmitsAs(s, h, id, p, draw, now);
    hide GrantLease, RegisteredId, RegisteredStore, AddPeer, Broadcast, Admit, NewlyTold, Reports, EndsUsed;
    var c := s.store.credentials[id];
    var scope := if c.kind == Device then c.scope else None;
    if h.backend {
      var b, root := RegisteredId(s.store, c, h, draw), if c.parent.Some? then c.parent.value else id;
      var ready := s.(store := RegisteredStore(s.store, c, h, draw, now));
      var t := GrantLease(ready, p, b, h.namespace, root, now);
      QuietReports(s, ready);
      GrantReports(ready, p, b, h.namespace, root, now);
      ReportsTrans(s, ready, t);
      JoiningTells(s, t, p, Peer(h.namespace, id, scope, Some(Claim(b, t.leases[b].epoch)), true, true));
    } else {
      QuietReports(s, s);
      JoiningTells(s, s, p, Peer(h.namespace, id, scope, None, true, true));
    }
  }

  lemma GreetingTells(s: State, h: Hello, spent: bool, p: PeerId, draw: Draw, now: int)
    requires EndsUsed(s) && p !in s.usedPeers && s.channels.Keys !! s.fates.Keys
    ensures NewlyTold(s, Greet(s, h, spent, p, draw, now))
  {
    HelloIs(s, h, spent, p, draw, now);
    hide Admit, FindValid, JudgeHello, Greet, Step;
    var seen := s.(store := FindValid(s.store, h.token, now));
    if JudgeHello(s.store, h, spent, now).Admitted? {
      AdmittingTells(seen, h, JudgeHello(s.store, h, spent, now).credential, p, draw, now);
    }
  }

  lemma StepTells(s: State, a: Action)
    requires Sound(s) && Fresh(s, a)
    ensures NewlyTold(s, Step(s, a))
  {
    EndedApart(s);
    SoundEndsUsed(s);
    hide Sound, ChannelStep, PeerStep, Greet, NewlyTold, EndsUsed, Ticketed, Inv;
    if AboutOneChannel(a) {
      ChannelStepTells(s, a);
    } else if a.DoHello? {
      GreetingTells(s, a.h, a.spent, a.p, a.draw, a.now);
    } else if AboutAnOwner(a) {
      OwnerStepTells(s, a);
    } else {
      PeerStepTells(s, a);
    }
  }

  /** Every channel that has ended had admitted peers at its ends, and those who are still connected were told. */
  ghost predicate Heard(s: State) {
    forall c :: c in s.fates ==>
      && s.fates[c].channel.backend in s.usedPeers
      && (s.fates[c].channel.client.Some? ==> s.fates[c].channel.client.value in s.usedPeers)
      && HasNotice(s, c, ClientEnd) && HasNotice(s, c, BackendEnd)
  }

  /** Nobody who was there before comes back, and nobody else is who they are. */
  lemma NobodyComesBack(s: State, a: Action)
    requires Sound(s) && Fresh(s, a)
    ensures forall p :: p in s.usedPeers && Session.Open(Step(s, a), p) ==> Session.Open(s, p)
    ensures s.usedPeers <= Step(s, a).usedPeers
  {
    hide Sound, Step, Fresh;
    StepRemembers(s, a);
  }

  lemma OldFatesStay(s: State, a: Action)
    requires Sound(s) && Fresh(s, a)
    ensures var t := Step(s, a);
      (forall n :: n in s.notices ==> n in t.notices)
      && forall c :: c in s.fates ==> c in t.fates && t.fates[c] == s.fates[c]
  {
    hide Sound, Step, Fresh;
    StepEvolves(s, a);
    hide LeaseEvolves, ChannelEvolves;
  }

  lemma HeardGoesOn(s: State, t: State)
    requires Heard(s) && NewlyTold(s, t) && EndsUsed(s) && s.usedPeers <= t.usedPeers
    requires forall p :: p in s.usedPeers && Session.Open(t, p) ==> Session.Open(s, p)
    requires forall n :: n in s.notices ==> n in t.notices
    requires forall c :: c in s.fates ==> c in t.fates && t.fates[c] == s.fates[c]
    ensures Heard(t)
  {
    forall c | c in t.fates
      ensures t.fates[c].channel.backend in t.usedPeers
      ensures t.fates[c].channel.client.Some? ==> t.fates[c].channel.client.value in t.usedPeers
      ensures HasNotice(t, c, ClientEnd) && HasNotice(t, c, BackendEnd)
    {
      if c in s.fates {
        assert HasNotice(s, c, ClientEnd) && HasNotice(s, c, BackendEnd);
      } else {
        assert EndsTold(t, c, s.channels[c]);
      }
    }
  }

  lemma {:induction false} RunIsHeard(s: State, actions: seq<Action>)
    requires Sound(s) && Heard(s) && GatewayRun(s, actions)
    ensures Heard(Reached(s, actions))
    decreases |actions|
  {
    if actions != [] {
      hide Sound, Heard, Step, Fresh, EndsUsed, NewlyTold;
      StepKeepsSound(s, actions[0]);
      StepTells(s, actions[0]);
      SoundEndsUsed(s);
      NobodyComesBack(s, actions[0]);
      OldFatesStay(s, actions[0]);
      HeardGoesOn(s, Step(s, actions[0]));
      RunIsHeard(Step(s, actions[0]), actions[1..]);
    }
  }

  /**
   In every reachable state, of every channel that has ended, each end whose peer is still connected has been told so
   exactly once, with the reason it ended for.
   */
  lemma EveryEndIsToldOnce(config: Config, store: Store, actions: seq<Action>, c: ChannelId, end: End, q: PeerId)
    requires Inv(store) && GatewayRun(Initial(config, store), actions)
    ensures var t := Reached(Initial(config, store), actions);
      && c in t.fates && q in t.peers && t.peers[q].open
      && (if end == ClientEnd then t.fates[c].channel.client == Some(q) else t.fates[c].channel.backend == q)
      ==> t.notices[Notice(q, c, end, t.fates[c].reason)] == 1
  {
    InitiallySound(config, store);
    var s, t := Initial(config, store), Reached(Initial(config, store), actions);
    assert Heard(s);
    EveryRunIsSound(config, store, actions);
    hide Sound, GatewayRun, Reached, Heard;
    RunIsHeard(s, actions);
    if c in t.fates {
      var n := Notice(q, c, end, t.fates[c].reason);
      ToldAndWiredAtMostOnce(t, n, n, c);
      HeardOf(t, c, end);
    }
  }

  lemma HeardOf(s: State, c: ChannelId, end: End)
    requires Heard(s) && c in s.fates
    ensures HasNotice(s, c, end)
  {
  }
}
