/** What each handler decides, over its step and in the fields of the state alone, with the protocol's numbers. */
module Decisions {
  import opened Basics
  import opened CredentialStore
  import opened Session
  import opened SessionProofs
  import opened SessionSteps
  import opened SessionFrames
  import opened SessionHistory
  import opened SessionHands
  import opened SessionTheorems
  import opened Views
  import opened Entitlement
  import opened Reach
  import opened Tokens

  // ---- Hellos --------------------------------------------------------------

  /** A row that lets its bearer in at this time: unrevoked and unexpired, and so is the parent it may have. */
  predicate InForce(store: Store, id: CredentialId, now: int) {
    && id in store.credentials && store.credentials[id].revokedAt == None
    && (store.credentials[id].expiresAt == None || now <= store.credentials[id].expiresAt.value)
    && (store.credentials[id].parent.Some? ==>
          var p := store.credentials[id].parent.value;
          && p in store.credentials && store.credentials[p].revokedAt == None
          && (store.credentials[p].expiresAt == None || now <= store.credentials[p].expiresAt.value))
  }

  lemma ResolvedIs(store: Store, token: Token, now: int)
    requires TokensUnique(store)
    ensures var r := Resolve(store, token, now);
      && (r.Some? ==> InForce(store, r.value, now) && store.credentials[r.value].token == token)
      && (r.None? ==> forall id :: id in store.credentials && store.credentials[id].token == token ==>
            !InForce(store, id, now))
  {
    forall id ensures Resolve(store, token, now) == Some(id) <==>
                        InForce(store, id, now) && store.credentials[id].token == token
    {
      ResolvesExactlyWhileValid(store, token, now, id);
    }
    hide Resolve, InForce;
  }

  /**
   A hello is admitted exactly if its token is that of a row in force, in the namespace it declares, with protocol
   version 4; a backend's must not be a device's, and needs an instance id unless it is bound. Otherwise nobody is
   admitted, nothing is sent and no lease changes.
   */
  lemma HellosAdmitExactly(s: State, h: Hello, spent: bool, p: PeerId, draw: Draw, now: int)
    requires Inv(s.store) && p !in s.peers
    ensures var t := Step(s, DoHello(h, spent, p, draw, now));
      && (p in t.peers <==>
            exists id :: InForce(s.store, id, now) && s.store.credentials[id].token == h.token
              && s.store.credentials[id].namespace == h.namespace && h.version == 4
              && (h.backend ==> s.store.credentials[id].kind != Device
                                && (s.store.credentials[id].backendId.Some? || h.instanceId.Some?)))
      && (p !in t.peers ==>
            t.peers == s.peers && t.leases == s.leases && t.registry == s.registry && t.sent == s.sent)
  {
    hide Inv, Admit, FindValid, Resolve, Step, Greet, InForce;
    InvTokensUnique(s.store);
    HelloIs(s, h, spent, p, draw, now);
    ResolvedIs(s.store, h.token, now);
    UniqueToken(s.store, h.token, now);
    if JudgeHello(s.store, h, spent, now).Admitted? {
      var id := JudgeHello(s.store, h, spent, now).credential;
      AdmittingIs(s.(store := FindValid(s.store, h.token, now)), h, id, p, draw, now);
    }
  }

  /**
   Why a hello is refused, in the order of the checks: no row in force, reported as rate limited once the failure bucket
   is spent; another namespace, or a device that wants to be a backend; another version; no instance id where one is
   needed.
   */
  lemma RefusalsAre(store: Store, h: Hello, spent: bool, now: int, id: CredentialId)
    requires TokensUnique(store)
    ensures var verdict := JudgeHello(store, h, spent, now);
      && ((forall k :: InForce(store, k, now) ==> store.credentials[k].token != h.token) ==>
            verdict == Denied(if spent then RateLimited else Unauthorized))
      && (InForce(store, id, now) && store.credentials[id].token == h.token ==>
            var c := store.credentials[id];
            verdict == if c.namespace != h.namespace || (h.backend && c.kind == Device) then Denied(Unauthorized)
                       else if h.version != 4 then Denied(ProtocolVersionMismatch)
                       else if h.backend && c.backendId == None && h.instanceId == None then Denied(InvalidMessage)
                       else Admitted(id))
  {
    ResolvedIs(store, h.token, now);
    UniqueToken(store, h.token, now);
    hide Resolve, InForce;
  }

  lemma InvTokensUnique(store: Store)
    requires Inv(store)
    ensures TokensUnique(store)
  {
  }

  lemma UniqueToken(store: Store, token: Token, now: int)
    requires TokensUnique(store)
    ensures forall i, j | i in store.credentials && j in store.credentials ::
              store.credentials[i].token == token && store.credentials[j].token == token ==> i == j
    ensures forall id :: InForce(store, id, now) ==> id in store.credentials
  {
  }

  /**
   An admitted backend holds the lease of the backend its credential is bound to, or of the one its legacy identity has
   from now on, under the next epoch; it claims that lease and is registered in its namespace. One that is admitted as a
   client claims nothing and changes no lease. Either counts as having answered the last ping.
   */
  lemma AdmissionSeats(s: State, h: Hello, spent: bool, p: PeerId, draw: Draw, now: int) returns (b: BackendId)
    requires Inv(s.store) && p !in s.peers && p in Step(s, DoHello(h, spent, p, draw, now)).peers
    ensures var t := Step(s, DoHello(h, spent, p, draw, now));
      var id := t.peers[p].credential;
      && t.peers[p].open && t.peers[p].alive && id in s.store.credentials
      && (!h.backend ==> t.peers[p].claim == None && t.leases == s.leases && t.registry == s.registry)
      && (h.backend ==>
            && t.peers[p].claim == Some(Claim(b, s.store.maxEpoch + 1))
            && t.leases == s.leases[b := Lease(s.store.maxEpoch + 1, p, now)]
            && t.registry == s.registry[b := Presence(h.namespace, s.store.maxEpoch + 1, now, now)]
            && t.store.maxEpoch == s.store.maxEpoch + 1
            && (if s.store.credentials[id].backendId.Some? then s.store.credentials[id].backendId == Some(b)
                else h.instanceId.Some?
                     && var key := Legacy(h.namespace, h.instanceId.value, h.environment);
                        key in t.store.identities && t.store.identities[key].backendId == b
                        && (key in s.store.identities ==> s.store.identities[key].backendId == b)))
  {
    hide Inv, Admit, FindValid, Resolve, Step, Greet;
    HelloIs(s, h, spent, p, draw, now);
    var seen := s.(store := FindValid(s.store, h.token, now));
    var id := JudgeHello(s.store, h, spent, now).credential;
    AdmittingIs(seen, h, id, p, draw, now);
    LookupIs(s.store, h.token, now);
    b := AdmittedSeat(seen, h, id, p, draw, now);
  }

  /**
   Admission is recorded with the backend's identity: when, and with which credential, an exchanged one counting as the
   enrollment it came from.
   */
  lemma AdmissionIsRecorded(s: State, h: Hello, spent: bool, p: PeerId, draw: Draw, now: int, key: IdentityKey)
    requires Inv(s.store) && p !in s.peers && h.backend && p in Step(s, DoHello(h, spent, p, draw, now)).peers
    ensures var t := Step(s, DoHello(h, spent, p, draw, now));
      var id := t.peers[p].credential;
      && id in s.store.credentials && t.peers[p].claim.Some?
      && (key in t.store.identities && t.store.identities[key].backendId == t.peers[p].claim.value.backendId ==>
            && t.store.identities[key].lastSeenAt == Some(now)
            && t.store.identities[key].lastCredential
               == if s.store.credentials[id].parent.Some? then s.store.credentials[id].parent else Some(id))
  {
    hide Inv, Admit, FindValid, Resolve, Step, Greet, RegisteredId, RegisteredStore;
    HelloIs(s, h, spent, p, draw, now);
    var seen := s.(store := FindValid(s.store, h.token, now));
    var id := JudgeHello(s.store, h, spent, now).credential;
    AdmittingIs(seen, h, id, p, draw, now);
    LookupIs(s.store, h.token, now);
    BackendSeat(seen, h, id, p, draw, now);
    BackendMarks(seen, h, id, p, draw, now);
  }

  /** Whoever is admitted is told so, once, with what it claims. */
  lemma NewcomersAreGreeted(s: State, h: Hello, spent: bool, p: PeerId, draw: Draw, now: int) returns (items: Registry)
    requires p !in s.peers && p in Step(s, DoHello(h, spent, p, draw, now)).peers
    ensures var t := Step(s, DoHello(h, spent, p, draw, now));
      var e := Envelope(p, PeerReady(t.peers[p].claim, items));
      t.sent[e] == s.sent[e] + 1
  {
    hide Admit, FindValid, JudgeHello, Greet, Step, AddPeer, Broadcast;
    HelloIs(s, h, spent, p, draw, now);
    var seen := s.(store := FindValid(s.store, h.token, now));
    var id := JudgeHello(s.store, h, spent, now).credential;
    if h.backend {
      var t, peer := BackendJoins(seen, h, id, p, draw, now);
      items := Visible(t.registry, peer.namespace, peer.scope);
      JoinedMail(t, p, peer);
    } else {
      var c := seen.store.credentials[id];
      var peer := Peer(h.namespace, id, if c.kind == Device then c.scope else None, None, true, true);
      items := Visible(s.registry, peer.namespace, peer.scope);
      AdmitsAs(seen, h, id, p, draw, now);
      JoinedMail(seen, p, peer);
    }
  }

  /** A backend's admission is that of a peer, once it has the lease. */
  lemma BackendJoins(s: State, h: Hello, id: CredentialId, p: PeerId, draw: Draw, now: int)
    returns (t: State, peer: Peer)
    requires id in s.store.credentials && h.backend
    ensures Unseen(s, t) && peer.open && Admit(s, h, id, p, draw, now) == Broadcast(AddPeer(t, p, peer), Some(p))
  {
    hide GrantLease, RegisteredId, RegisteredStore, AddPeer, Broadcast, Unseen;
    var c := s.store.credentials[id];
    var b, root := RegisteredId(s.store, c, h, draw), if c.parent.Some? then c.parent.value else id;
    var ready := s.(store := RegisteredStore(s.store, c, h, draw, now));
    t := GrantLease(ready, p, b, h.namespace, root, now);
    SeatingKeepsRows(s, h, id, p, draw, now);
    peer := Peer(h.namespace, id, if c.kind == Device then c.scope else None, Some(Claim(b, t.leases[b].epoch)), true,
                 true);
    SameMailIsUnseen(s, ready);
    GrantingIsUnseen(ready, p, b, h.namespace, root, now);
    UnseenTrans(s, ready, t);
  }

  lemma JoinedMail(s: State, p: PeerId, peer: Peer)
    requires peer.open
    ensures var t := AddPeer(s, p, peer);
      var e := Envelope(p, PeerReady(peer.claim, Visible(s.registry, peer.namespace, peer.scope)));
      && t.sent[e] == s.sent[e] + 1 && Broadcast(t, Some(p)).sent[e] == t.sent[e]
      && t.peers == s.peers[p := peer] && Broadcast(t, Some(p)).peers == t.peers
  {
    hide Visible;
    var t := AddPeer(s, p, peer);
    var ready := PeerReady(peer.claim, Visible(s.registry, peer.namespace, peer.scope));
    assert Envelope(p, ready) !in Snapshots(t, Some(p));
  }

  lemma LookupIs(store: Store, token: Token, now: int)
    ensures var t := FindValid(store, token, now);
      && t.identities == store.identities && t.maxEpoch == store.maxEpoch
      && t.credentials.Keys == store.credentials.Keys
      && forall k :: k in store.credentials ==>
                       t.credentials[k].backendId == store.credentials[k].backendId
                       && t.credentials[k].parent == store.credentials[k].parent
  {
  }

  lemma AdmittedSeat(s: State, h: Hello, id: CredentialId, p: PeerId, draw: Draw, now: int) returns (b: BackendId)
    requires id in s.store.credentials && p !in s.peers
    requires h.backend ==> s.store.credentials[id].backendId.Some? || h.instanceId.Some?
    ensures var t, bound := Admit(s, h, id, p, draw, now), s.store.credentials[id].backendId;
      && p in t.peers && t.peers[p].open && t.peers[p].alive
      && (!h.backend ==> t.peers[p].claim == None && t.leases == s.leases && t.registry == s.registry)
      && (h.backend ==>
            && t.peers[p].claim == Some(Claim(b, s.store.maxEpoch + 1))
            && t.leases == s.leases[b := Lease(s.store.maxEpoch + 1, p, now)]
            && t.registry == s.registry[b := Presence(h.namespace, s.store.maxEpoch + 1, now, now)]
            && t.store.maxEpoch == s.store.maxEpoch + 1
            && (if bound.Some? then bound == Some(b)
                else h.instanceId.Some?
                     && var key := Legacy(h.namespace, h.instanceId.value, h.environment);
                        key in t.store.identities && t.store.identities[key].backendId == b
                        && (key in s.store.identities ==> s.store.identities[key].backendId == b)))
  {
    b := RegisteredId(s.store, s.store.credentials[id], h, draw);
    hide Admit, RegisteredId, RegisteredStore;
    if h.backend {
      BackendSeat(s, h, id, p, draw, now);
      RegisteredUnder(s.store, s.store.credentials[id], h, draw, now);
    } else {
      ClientSeat(s, h, id, p, draw, now);
    }
  }

  lemma ClientSeat(s: State, h: Hello, id: CredentialId, p: PeerId, draw: Draw, now: int)
    requires id in s.store.credentials && !h.backend
    ensures var t := Admit(s, h, id, p, draw, now);
      && p in t.peers && t.peers[p].open && t.peers[p].alive && t.peers[p].claim == None
      && t.leases == s.leases && t.registry == s.registry
  {
    hide AddPeer;
    var c := s.store.credentials[id];
    var scope := if c.kind == Device then c.scope else None;
    JoinedTables(s, p, Peer(h.namespace, id, scope, None, true, true));
  }

  lemma BackendSeat(s: State, h: Hello, id: CredentialId, p: PeerId, draw: Draw, now: int)
    requires id in s.store.credentials && h.backend
    ensures var t, c := Admit(s, h, id, p, draw, now), s.store.credentials[id];
      var b, stored := RegisteredId(s.store, c, h, draw), RegisteredStore(s.store, c, h, draw, now);
      && p in t.peers && t.peers[p].open && t.peers[p].alive && t.peers[p].claim == Some(Claim(b, stored.maxEpoch + 1))
      && t.leases == s.leases[b := Lease(stored.maxEpoch + 1, p, now)]
      && t.registry == s.registry[b := Presence(h.namespace, stored.maxEpoch + 1, now, now)]
      && t.store.maxEpoch == stored.maxEpoch + 1
  {
    var c := s.store.credentials[id];
    var b, stored := RegisteredId(s.store, c, h, draw), RegisteredStore(s.store, c, h, draw, now);
    hide GrantLease, RegisteredId, RegisteredStore, Admit;
    BackendTables(s, h, id, p, draw, now);
    SeatIs(s.(store := stored), p, b, h.namespace, if c.parent.Some? then c.parent.value else id, now);
  }

  lemma BackendMarks(s: State, h: Hello, id: CredentialId, p: PeerId, draw: Draw, now: int)
    requires id in s.store.credentials && h.backend
    ensures var t, c := Admit(s, h, id, p, draw, now), s.store.credentials[id];
      var b, stored := RegisteredId(s.store, c, h, draw), RegisteredStore(s.store, c, h, draw, now);
      && t.store.identities.Keys == stored.identities.Keys
      && (forall k :: k in stored.identities ==> t.store.identities[k].backendId == stored.identities[k].backendId)
      && (forall k :: k in stored.identities && stored.identities[k].backendId == b ==>
            t.store.identities[k].lastSeenAt == Some(now)
            && t.store.identities[k].lastCredential == if c.parent.Some? then c.parent else Some(id))
  {
    var c := s.store.credentials[id];
    var b, stored := RegisteredId(s.store, c, h, draw), RegisteredStore(s.store, c, h, draw, now);
    hide GrantLease, RegisteredId, RegisteredStore, Admit;
    BackendTables(s, h, id, p, draw, now);
    SeatMarks(s.(store := stored), p, b, h.namespace, if c.parent.Some? then c.parent.value else id, now);
  }

  lemma BackendTables(s: State, h: Hello, id: CredentialId, p: PeerId, draw: Draw, now: int)
    requires id in s.store.credentials && h.backend
    ensures var t, c := Admit(s, h, id, p, draw, now), s.store.credentials[id];
      var b, stored := RegisteredId(s.store, c, h, draw), RegisteredStore(s.store, c, h, draw, now);
      var root := if c.parent.Some? then c.parent.value else id;
      var u := GrantLease(s.(store := stored), p, b, h.namespace, root, now);
      && t.leases == u.leases && t.registry == u.registry && t.store == u.store && b in u.leases
      && p in t.peers && t.peers[p].open && t.peers[p].alive && t.peers[p].claim == Some(Claim(b, u.leases[b].epoch))
  {
    hide GrantLease, RegisteredId, RegisteredStore, AddPeer, Broadcast, Admit;
    AdmitsAs(s, h, id, p, draw, now);
    var c := s.store.credentials[id];
    var b, stored := RegisteredId(s.store, c, h, draw), RegisteredStore(s.store, c, h, draw, now);
    var root := if c.parent.Some? then c.parent.value else id;
    var scope := if c.kind == Device then c.scope else None;
    var t := GrantLease(s.(store := stored), p, b, h.namespace, root, now);
    var peer := Peer(h.namespace, id, scope, Some(Claim(b, t.leases[b].epoch)), true, true);
    JoinedTables(t, p, peer);
    BroadcastTables(AddPeer(t, p, peer), Some(p));
  }

  lemma BroadcastTables(s: State, except: Option<PeerId>)
    ensures var t := Broadcast(s, except);
      t.leases == s.leases && t.registry == s.registry && t.store == s.store && t.peers == s.peers
  {
    hide Snapshots;
  }

  /** What admission is made of. */
  lemma AdmitsAs(s: State, h: Hello, id: CredentialId, p: PeerId, draw: Draw, now: int)
    requires id in s.store.credentials
    ensures var c := s.store.credentials[id];
      var scope := if c.kind == Device then c.scope else None;
      && (!h.backend ==>
            Admit(s, h, id, p, draw, now) == AddPeer(s, p, Peer(h.namespace, id, scope, None, true, true)))
      && (h.backend ==>
            var b, root := RegisteredId(s.store, c, h, draw), if c.parent.Some? then c.parent.value else id;
            var t := GrantLease(s.(store := RegisteredStore(s.store, c, h, draw, now)), p, b, h.namespace, root, now);
            b in t.leases
            && Admit(s, h, id, p, draw, now)
               == Broadcast(AddPeer(t, p, Peer(h.namespace, id, scope, Some(Claim(b, t.leases[b].epoch)), true, true)),
                            Some(p)))
  {
    if h.backend { AdmitIs(s, h, id, p, draw, now); }
    hide GrantLease, AddPeer, Broadcast, RegisteredId, RegisteredStore;
  }

  lemma JoinedTables(s: State, p: PeerId, peer: Peer)
    ensures var t := AddPeer(s, p, peer);
      && t.leases == s.leases && t.registry == s.registry && t.store == s.store && t.peers == s.peers[p := peer]
  {
    hide Visible;
  }

  lemma RegisteredUnder(store: Store, c: Credential, h: Hello, draw: Draw, now: int)
    requires c.backendId.Some? || h.instanceId.Some?
    ensures var t, b := RegisteredStore(store, c, h, draw, now), RegisteredId(store, c, h, draw);
      && t.maxEpoch == store.maxEpoch
      && (if c.backendId.Some? then c.backendId == Some(b)
          else var key := Legacy(h.namespace, h.instanceId.value, h.environment);
               key in t.identities && t.identities[key].backendId == b
               && (key in store.identities ==> store.identities[key].backendId == b))
  {
  }

  lemma SeatIs(s: State, p: PeerId, b: BackendId, namespace: Namespace, root: CredentialId, now: int)
    ensures var t := GrantLease(s, p, b, namespace, root, now);
      && t.leases == s.leases[b := Lease(s.store.maxEpoch + 1, p, now)]
      && t.registry == s.registry[b := Presence(namespace, s.store.maxEpoch + 1, now, now)]
      && t.store.maxEpoch == s.store.maxEpoch + 1
  {
    GrantLeaseGrants(s, p, b, namespace, root, now);
    hide EndLease;
    var t := s.(store := AllocateEpoch(s.store));
    if b in t.leases {
      ReplacingKeepsStore(t, b);
      ReplacingLeaves(t, b);
      hide ReplaceOwner;
    }
  }

  lemma SeatMarks(s: State, p: PeerId, b: BackendId, namespace: Namespace, root: CredentialId, now: int)
    ensures var t := GrantLease(s, p, b, namespace, root, now);
      && t.store.identities.Keys == s.store.identities.Keys
      && (forall k :: k in s.store.identities ==>
            t.store.identities[k].backendId == s.store.identities[k].backendId)
      && (forall k :: k in s.store.identities && s.store.identities[k].backendId == b ==>
            t.store.identities[k].lastSeenAt == Some(now) && t.store.identities[k].lastCredential == Some(root))
  {
    GrantLeaseGrants(s, p, b, namespace, root, now);
    hide ReplaceOwner;
    var t := s.(store := AllocateEpoch(s.store));
    if b in t.leases { ReplacingKeepsStore(t, b); }
  }

  lemma ReplacingLeaves(s: State, b: BackendId)
    requires b in s.leases
    ensures ReplaceOwner(s, b).registry == s.registry - {b}
  {
    hide EndLease;
    LeaseEnds(s, b, EpochChanged);
  }

  // ---- Leases and liveness -------------------------------------------------

  /**
   A lease expires exactly if its last heartbeat is more than 30 seconds old; then its holder, and nobody else, goes.
   */
  lemma LeasesExpireExactly(s: State, b: BackendId, now: int)
    ensures var t := Step(s, DoCheckLease(b, now));
      && (b in t.leases <==> b in s.leases && now - s.leases[b].heartbeatAt <= 30_000)
      && (b in t.leases || b !in s.leases ==> t == s)
      && (forall other :: other in s.leases && other != b ==>
            other in t.leases && t.leases[other] == s.leases[other])
      && t.peers == if b in s.leases && b !in t.leases then s.peers - {s.leases[b].holder} else s.peers
  {
    hide Broadcast, TouchIdentity, CloseChannels;
    if b in s.leases {
      var ended := EndLease(s, b, BackendOffline);
      BroadcastIs(ended, None);
      EndedLeases(s, b, BackendOffline);
      hide EndLease;
    }
  }

  /** When a lease expires, its backend's identities are marked as seen now, and no others. */
  lemma ExpiryIsRecorded(s: State, b: BackendId, now: int)
    requires b in s.leases && now - s.leases[b].heartbeatAt > 30_000
    ensures Step(s, DoCheckLease(b, now)).store.identities
            == map k | k in s.store.identities :: if s.store.identities[k].backendId == b
                                                  then s.store.identities[k].(lastSeenAt := Some(now))
                                                  else s.store.identities[k]
  {
    ExpiryMarks(s, b, now);
    hide CheckLease;
  }

  /** So they are when its holder goes, because its socket closed or it was silent in the ping sweep. */
  lemma GoingIsRecorded(s: State, b: BackendId, now: int, a: Action)
    requires Coherent(s) && b in s.leases
    requires var p := s.leases[b].holder;
      p in s.peers && (a == DoSocketClosed(p, now) || (a == DoPing(p, now) && !s.peers[p].alive))
    ensures Step(s, a).store.identities
            == map k | k in s.store.identities :: if s.store.identities[k].backendId == b
                                                  then s.store.identities[k].(lastSeenAt := Some(now))
                                                  else s.store.identities[k]
  {
    var p := s.leases[b].holder;
    assert Held(s, b);
    assert IsOwner(s, p);
    hide Coherent, Step, IsOwner;
    if a.DoPing? { SilenceMarks(s, p, now); } else { ClosingMarks(s, p, now); }
  }

  lemma SilenceMarks(s: State, p: PeerId, now: int)
    requires IsOwner(s, p) && !s.peers[p].alive
    ensures Step(s, DoPing(p, now)).store.identities
            == Marked(s.store.identities, s.peers[p].claim.value.backendId, now)
  {
    hide Disconnect, Marked;
    DisconnectMarks(s, p, now);
  }

  lemma ClosingMarks(s: State, p: PeerId, now: int)
    requires IsOwner(s, p)
    ensures Step(s, DoSocketClosed(p, now)).store.identities
            == Marked(s.store.identities, s.peers[p].claim.value.backendId, now)
  {
    hide Disconnect, Marked;
    DisconnectMarks(s.(peers := s.peers[p := s.peers[p].(open := false)]), p, now);
  }

  lemma ExpiryMarks(s: State, b: BackendId, now: int)
    requires b in s.leases && now - s.leases[b].heartbeatAt > 30_000
    ensures CheckLease(s, b, now).store.identities == Marked(s.store.identities, b, now)
  {
    hide EndLease, Broadcast;
    EndingKeepsStore(s, b, BackendOffline);
    BroadcastTables(EndLease(s, b, BackendOffline), None);
  }

  function Marked(rows: map<IdentityKey, Identity>, b: BackendId, now: int): map<IdentityKey, Identity> {
    map k | k in rows :: if rows[k].backendId == b then rows[k].(lastSeenAt := Some(now)) else rows[k]
  }

  lemma DisconnectMarks(s: State, p: PeerId, now: int)
    requires IsOwner(s, p)
    ensures Disconnect(s, p, now).store.identities
            == Marked(s.store.identities, s.peers[p].claim.value.backendId, now)
  {
    hide EndLease, Broadcast, CloseChannels, ChannelsAt, Forgotten;
    var b := s.peers[p].claim.value.backendId;
    EndingKeepsStore(s, b, BackendOffline);
    BroadcastTables(EndLease(s, b, BackendOffline), Some(p));
    ClosingKeepsStore(Abdicate(s, p, now), ChannelsAt(Abdicate(s, p, now), p), Closed);
  }

  lemma EndedLeases(s: State, b: BackendId, reason: Reason)
    requires b in s.leases
    ensures EndLease(s, b, reason).leases == s.leases - {b}
    ensures EndLease(s, b, reason).peers - {s.leases[b].holder} == s.peers - {s.leases[b].holder}
  {
    hide CloseChannels;
    ClosingKeepsLeases(s, ChannelsOf(s, b), reason);
  }

  lemma ClosingKeepsLeases(s: State, dead: set<ChannelId>, reason: Reason)
    ensures CloseChannels(s, dead, reason).leases == s.leases && CloseChannels(s, dead, reason).peers == s.peers
  {
    hide Notices, TicketsOf;
  }

  /**
   A heartbeat counts exactly if its sender holds the lease under the epoch it names: then the lease and the presence
   are as of now, and it is acknowledged. Any other changes nothing.
   */
  lemma HeartbeatsCountExactly(s: State, p: PeerId, epoch: nat, now: int)
    requires Sound(s)
    ensures var t := Step(s, DoHeartbeat(p, epoch, now));
      var counts := exists b :: b in s.leases && s.leases[b].holder == p && s.leases[b].epoch == epoch;
      && (!counts ==> t == s)
      && (counts ==>
            && (forall b :: b in s.leases ==>
                  b in t.leases
                  && t.leases[b] == if s.leases[b].holder == p then Lease(epoch, p, now) else s.leases[b])
            && (forall b :: b in s.registry ==>
                  b in t.registry
                  && t.registry[b] == if b in s.leases && s.leases[b].holder == p
                                      then s.registry[b].(lastSeenAt := now) else s.registry[b])
            && t.sent == s.sent + (if p in s.peers && s.peers[p].open then multiset{Envelope(p, HeartbeatAck(epoch))}
                                   else multiset{}))
  {
    hide Sound, Step, Heartbeat, IsOwner;
    HoldersClaim(s, p);
    HeartbeatIs(s, p, epoch, now);
    if IsOwner(s, p) { OwnerHolds(s, p); }
  }

  lemma OwnerHolds(s: State, p: PeerId)
    requires IsOwner(s, p)
    ensures p in s.peers && s.peers[p].claim.Some?
    ensures var claim := s.peers[p].claim.value;
      claim.backendId in s.leases && s.leases[claim.backendId].holder == p
      && s.leases[claim.backendId].epoch == claim.epoch
  {
  }

  lemma HeartbeatIs(s: State, p: PeerId, epoch: nat, now: int)
    ensures var t := Step(s, DoHeartbeat(p, epoch, now));
      if !(IsOwner(s, p) && s.peers[p].claim.value.epoch == epoch) then t == s
      else
        var b := s.peers[p].claim.value.backendId;
        && t.leases == s.leases[b := s.leases[b].(heartbeatAt := now)]
        && t.registry == (if b in s.registry then s.registry[b := s.registry[b].(lastSeenAt := now)] else s.registry)
        && t.sent == s.sent + (if s.peers[p].open then multiset{Envelope(p, HeartbeatAck(epoch))} else multiset{})
  {
    hide Send;
    if IsOwner(s, p) && s.peers[p].claim.value.epoch == epoch {
      var b := s.peers[p].claim.value.backendId;
      var t := s.(leases := s.leases[b := s.leases[b].(heartbeatAt := now)]);
      var u := if b in t.registry then t.(registry := t.registry[b := t.registry[b].(lastSeenAt := now)]) else t;
      SendAdds(u, p, HeartbeatAck(epoch));
      SendKeepsRegistry(u, p, HeartbeatAck(epoch));
      SendKeepsLeases(u, p, HeartbeatAck(epoch));
    }
  }

  lemma SendKeepsLeases(s: State, p: PeerId, msg: Message)
    ensures Send(s, p, msg).leases == s.leases
  {
  }

  /** Whoever holds a lease claims it, and nobody holds two. */
  lemma HoldersClaim(s: State, p: PeerId)
    requires Sound(s)
    ensures forall b :: b in s.leases && s.leases[b].holder == p ==>
              IsOwner(s, p) && s.peers[p].claim == Some(Claim(b, s.leases[b].epoch))
  {
    forall b | b in s.leases && s.leases[b].holder == p
      ensures IsOwner(s, p) && s.peers[p].claim == Some(Claim(b, s.leases[b].epoch))
    {
      assert Held(s, b);
    }
  }

  /** The ping sweep drops exactly the peers that have not answered since the last one; an answer is remembered. */
  lemma PingsDropExactlyTheSilent(s: State, p: PeerId, q: PeerId, now: int)
    requires q in s.peers
    ensures var t := Step(s, DoPing(p, now));
      && (q in t.peers <==> p != q || s.peers[q].alive)
      && (p == q && q in t.peers ==> t.peers[q] == s.peers[q].(alive := false))
    ensures var t := Step(s, DoPong(p));
      q in t.peers && t.peers[q] == if p == q then s.peers[q].(alive := true) else s.peers[q]
  {
    hide Step, Pong, PingPeer;
    PingIs(s, p, now);
    PongIs(s, p);
  }

  lemma PingIs(s: State, p: PeerId, now: int)
    ensures var t := Step(s, DoPing(p, now));
      && t.peers.Keys == (if p in s.peers && !s.peers[p].alive then s.peers.Keys - {p} else s.peers.Keys)
      && (p in s.peers && s.peers[p].alive ==> t.peers == s.peers[p := s.peers[p].(alive := false)])
  {
    hide Disconnect;
    DisconnectedPeers(s, p, now);
  }

  lemma PongIs(s: State, p: PeerId)
    ensures Step(s, DoPong(p)).peers
            == if p in s.peers then s.peers[p := s.peers[p].(alive := true)] else s.peers
  {
  }

  lemma DisconnectedPeers(s: State, p: PeerId, now: int)
    ensures Disconnect(s, p, now).peers.Keys == s.peers.Keys - {p}
  {
    hide EndLease, Broadcast, TouchIdentity, Depart;
    if p in s.peers {
      var t := Abdicate(s, p, now);
      DepartureIs(t, p, s.peers[p].claim);
      if IsOwner(s, p) {
        var b := s.peers[p].claim.value.backendId;
        LeaseEnds(s, b, BackendOffline);
        BroadcastIs(EndLease(s, b, BackendOffline), Some(p));
      }
    }
  }
}
