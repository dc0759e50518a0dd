/**
 A backend's lease changes hands at a hello and nowhere else, and close code 4001 tells exactly those who lose it to a
 newcomer.
 */
module SessionHands {
  import opened Basics
  import opened CredentialStore
  import opened StoreProofs
  import opened Session
  import opened SessionFrames
  import opened SessionProofs
  import opened SessionSteps
  import opened SessionHistory
  import opened SessionTheorems
  import Slot

  /** Epochs are allocated by hellos only. */
  lemma OnlyHelloAllocates(s: State, a: Action)
    requires Fresh(s, a) && !a.DoHello?
    ensures Step(s, a).store.maxEpoch == s.store.maxEpoch
  {
    hide Step, Fresh, Remembers;
    StepRemembers(s, a);
  }

  /**
   In every sound state and for every step: a backend's lease is afterwards the one it was, or gone, or that of a
   peer that was admitted as this backend by this very step.
   */
  lemma HandsChangeOnlyAtHello(s: State, a: Action, b: BackendId)
    requires Sound(s) && Fresh(s, a) && b in Step(s, a).leases
    ensures var t := Step(s, a);
      (b in s.leases && SameTenure(s.leases[b], t.leases[b])) || (a.DoHello? && t.leases[b].holder == a.p)
  {
    hide Sound, Step, Fresh, SameTenure;
    var t := Step(s, a);
    StepKeepsSound(s, a);
    StepEvolves(s, a);
    EvolvedLease(s, t, b);
    LeaseEpochIsAllocated(t, b);
    if !a.DoHello? {
      OnlyHelloAllocates(s, a);
    } else if !(b in s.leases && SameTenure(s.leases[b], t.leases[b])) {
      HelloSeatsItsPeer(s, a, b);
    }
  }

  lemma EvolvedLease(s: State, t: State, b: BackendId)
    requires Evolves(s, t) && b in t.leases
    ensures (b in s.leases && SameTenure(s.leases[b], t.leases[b])) || t.leases[b].epoch > s.store.maxEpoch
  {
    assert LeaseEvolves(s, t, b);
  }

  lemma LeaseEpochIsAllocated(s: State, b: BackendId)
    requires Sound(s) && b in s.leases
    ensures s.leases[b].epoch <= s.store.maxEpoch
  {
    assert Held(s, b);
    hide Sound;
  }

  lemma HelloSeatsItsPeer(s: State, a: Action, b: BackendId)
    requires a.DoHello? && b in Step(s, a).leases && !(b in s.leases && SameTenure(s.leases[b], Step(s, a).leases[b]))
    ensures Step(s, a).leases[b].holder == a.p
  {
    hide Greet;
    RegistrationNeedsACredential(s, a.h, a.spent, a.p, a.draw, a.now, b);
  }

  // ---- The one who had it --------------------------------------------------

  lemma GrantTellsHolder(s: State, p: PeerId, b: BackendId, namespace: Namespace, root: CredentialId, now: int)
    requires b in s.leases && Open(s, s.leases[b].holder)
    ensures var t, holder := GrantLease(s, p, b, namespace, root, now), s.leases[b].holder;
      && Envelope(holder, CloseFrame(4001)) in t.sent
      && holder in t.peers && !t.peers[holder].open && t.peers[holder].claim.None?
  {
    var drawn := s.(store := AllocateEpoch(s.store));
    ReplaceTellsHolder(drawn, b);
    hide ReplaceOwner, TouchIdentity;
  }

  lemma ReplaceTellsHolder(s: State, b: BackendId)
    requires b in s.leases && Open(s, s.leases[b].holder)
    ensures var t, holder := ReplaceOwner(s, b), s.leases[b].holder;
      && Envelope(holder, CloseFrame(4001)) in t.sent
      && holder in t.peers && !t.peers[holder].open && t.peers[holder].claim.None?
  {
    hide Notices, TicketsOf, ChannelsOf;
  }

  lemma JoiningKeepsToldPeers(s: State, p: PeerId, peer: Peer, q: PeerId, e: Envelope)
    requires q != p && q in s.peers && e in s.sent
    ensures var t := Broadcast(AddPeer(s, p, peer), Some(p)); q in t.peers && t.peers[q] == s.peers[q] && e in t.sent
  {
    hide Visible, Snapshots;
  }

  /**
   When an admitted backend takes over a lease, the connection that had it is told by close code 4001, is closed
   for sending, and has lost its claim: it can neither publish nor keep a lease alive any more.
   */
  lemma TakeoverClosesThePredecessor(s: State, h: Hello, id: CredentialId, p: PeerId, draw: Draw, now: int)
    requires id in s.store.credentials && h.backend && p !in s.peers
    requires var b := RegisteredId(s.store, s.store.credentials[id], h, draw);
      b in s.leases && Open(s, s.leases[b].holder)
    ensures var b := RegisteredId(s.store, s.store.credentials[id], h, draw);
      var t, holder := Admit(s, h, id, p, draw, now), s.leases[b].holder;
      && Envelope(holder, CloseFrame(4001)) in t.sent
      && holder in t.peers && !t.peers[holder].open && t.peers[holder].claim.None?
  {
    hide GrantLease, AddPeer, Broadcast, RegisteredStore, RegisteredId, Admit;
    var c := s.store.credentials[id];
    var b := RegisteredId(s.store, c, h, draw);
    var root := if c.parent.Some? then c.parent.value else id;
    var ready := s.(store := RegisteredStore(s.store, c, h, draw, now));
    var holder := s.leases[b].holder;
    var t := GrantLease(ready, p, b, h.namespace, root, now);
    AdmitIs(s, h, id, p, draw, now);
    GrantTellsHolder(ready, p, b, h.namespace, root, now);
    GrantLeaseGrants(ready, p, b, h.namespace, root, now);
    var scope := if c.kind == Device then c.scope else None;
    JoiningKeepsToldPeers(t, p, Peer(h.namespace, id, scope, Some(Claim(b, t.leases[b].epoch)), true, true), holder,
                          Envelope(holder, CloseFrame(CLOSE_REPLACED)));
  }

  lemma AdmitIs(s: State, h: Hello, id: CredentialId, p: PeerId, draw: Draw, now: int)
    requires id in s.store.credentials && h.backend
    ensures var c := s.store.credentials[id];
      var b := RegisteredId(s.store, c, h, draw);
      var root := if c.parent.Some? then c.parent.value else id;
      var t := GrantLease(s.(store := RegisteredStore(s.store, c, h, draw, now)), p, b, h.namespace, root, now);
      var scope := if c.kind == Device then c.scope else None;
      b in t.leases
      && Admit(s, h, id, p, draw, now)
         == Broadcast(AddPeer(t, p, Peer(h.namespace, id, scope, Some(Claim(b, t.leases[b].epoch)), true, true)),
                      Some(p))
  {
    hide AddPeer, Broadcast, RegisteredStore, RegisteredId, GrantLease;
    var c := s.store.credentials[id];
    GrantLeaseGrants(s.(store := RegisteredStore(s.store, c, h, draw, now)), p, RegisteredId(s.store, c, h, draw),
                     h.namespace,
                     if c.parent.Some? then c.parent.value else id, now);
  }

  // ---- The lease as a slot -------------------------------------------------

  function Holder(s: State, b: BackendId): Option<PeerId> { if b in s.leases then Some(s.leases[b].holder) else None }

  /** What a step does to the lease of one backend. */
  ghost function MoveOf(s: State, a: Action, b: BackendId): Slot.Move {
    if a.DoHello? && Holder(Step(s, a), b) == Some(a.p) then Slot.Take(a.p)
    else if b in s.leases && b !in Step(s, a).leases then Slot.Release
    else Slot.Stutter
  }

  /** The backend this hello takes from q. */
  ghost predicate TakesFrom(s: State, a: Action, b: BackendId, q: PeerId) {
    Slot.Dismissed(Holder(s, b), MoveOf(s, a, b)) == Some(q)
  }

  /** Whether the step closes q's socket with code 4001, as often as 0 or 1. */
  predicate Dismisses(s: State, t: State, q: PeerId, once: bool) {
    Dismissals(t, q) == Dismissals(s, q) + if once then 1 else 0
  }

  lemma ReplacingDismisses(s: State, b: BackendId, q: PeerId)
    requires b in s.leases
    ensures Dismisses(s, ReplaceOwner(s, b), q, q == s.leases[b].holder && Open(s, q))
  {
    hide EndLease, Gentle;
    var ended := EndLease(s, b, EpochChanged);
    EndLeaseIsGentle(s, b, EpochChanged);
    EndingKeepsOpen(s, b, q);
    EndingKeepsOpen(s, b, s.leases[b].holder);
    assert Dismissals(ended, q) == Dismissals(s, q) by { GentleIsCalm(s, ended, q); }
    ClosingDismisses(ended, s.leases[b].holder, q);
  }

  lemma GentleIsCalm(s: State, t: State, q: PeerId)
    requires Gentle(s, t)
    ensures Dismissals(t, q) == Dismissals(s, q)
  {
    hide Remembers, Tame;
  }

  lemma EndingKeepsOpen(s: State, b: BackendId, q: PeerId)
    requires b in s.leases
    ensures Open(EndLease(s, b, EpochChanged), q) == Open(s, q)
  {
    hide Notices, TicketsOf, ChannelsOf;
  }

  lemma ClosingDismisses(s: State, p: PeerId, q: PeerId)
    ensures Dismisses(s, CloseSocket(s, p, CLOSE_REPLACED), q, q == p && Open(s, q))
  {
  }

  lemma GrantDismisses(s: State, p: PeerId, b: BackendId, namespace: Namespace, root: CredentialId, now: int, q: PeerId)
    ensures Dismisses(s, GrantLease(s, p, b, namespace, root, now), q, b in s.leases && q == s.leases[b].holder
                      && Open(s, q))
  {
    hide ReplaceOwner, TouchIdentity;
    var t := s.(store := AllocateEpoch(s.store));
    if b in t.leases { ReplacingDismisses(t, b, q); }
  }

  lemma JoiningDismisses(s: State, p: PeerId, peer: Peer, except: Option<PeerId>, q: PeerId)
    ensures Dismisses(s, AddPeer(s, p, peer), q, false)
            && Dismisses(s, Broadcast(AddPeer(s, p, peer), except), q, false)
    ensures AddPeer(s, p, peer).leases == s.leases && Broadcast(AddPeer(s, p, peer), except).leases == s.leases
  {
    hide Send, Visible, Broadcast, Gentle;
    var t := s.(peers := s.peers[p := peer], usedPeers := s.usedPeers + {p});
    var ready := PeerReady(peer.claim, Visible(s.registry, peer.namespace, peer.scope));
    SendIsGentle(t, p, ready);
    GentleIsCalm(t, Send(t, p, ready), q);
    BroadcastIsGentle(Send(t, p, ready), except);
    GentleIsCalm(Send(t, p, ready), Broadcast(Send(t, p, ready), except), q);
    SayingKeepsLeases(t, p, ready);
    BroadcastKeepsLeases(Send(t, p, ready), except);
  }

  lemma SayingKeepsLeases(s: State, p: PeerId, msg: Message)
    ensures Send(s, p, msg).leases == s.leases
  {
  }

  lemma BroadcastKeepsLeases(s: State, except: Option<PeerId>)
    ensures Broadcast(s, except).leases == s.leases
  {
    hide Snapshots;
  }

  /** The backend a hello takes, if it is admitted as one. */
  ghost function Seat(s: State, h: Hello, spent: bool, draw: Draw, now: int): Option<BackendId> {
    var seen := FindValid(s.store, h.token, now);
    match JudgeHello(s.store, h, spent, now)
    case Denied(_) => None
    case Admitted(id) =>
      if h.backend && id in seen.credentials then Some(RegisteredId(seen, seen.credentials[id], h, draw)) else None
  }

  lemma GreetingMoves(s: State, h: Hello, spent: bool, p: PeerId, draw: Draw, now: int, q: PeerId)
    ensures var t, seat := Greet(s, h, spent, p, draw, now), Seat(s, h, spent, draw, now);
      && (forall b :: seat != Some(b) ==> Holder(t, b) == Holder(s, b))
      && (seat.Some? ==> Holder(t, seat.value) == Some(p))
      && Dismisses(s, t, q, seat.Some? && Holder(s, seat.value) == Some(q) && Open(s, q))
  {
    hide Admit, FindValid;
    var t := s.(store := FindValid(s.store, h.token, now));
    match JudgeHello(s.store, h, spent, now)
    case Denied(_) =>
    case Admitted(id) =>
      FindValidKeepsIds(s.store, h.token, now, id);
      if h.backend { BackendMoves(t, h, id, p, draw, now, q); } else { ClientMoves(t, h, id, p, draw, now, q); }
  }

  lemma ClientMoves(s: State, h: Hello, id: CredentialId, p: PeerId, draw: Draw, now: int, q: PeerId)
    requires id in s.store.credentials && !h.backend
    ensures var t := Admit(s, h, id, p, draw, now); t.leases == s.leases && Dismisses(s, t, q, false)
  {
    hide AddPeer, GrantLease;
    var c := s.store.credentials[id];
    JoiningDismisses(s, p, Peer(h.namespace, id, if c.kind == Device then c.scope else None, None, true, true), None,
                     q);
  }

  lemma BackendMoves(s: State, h: Hello, id: CredentialId, p: PeerId, draw: Draw, now: int, q: PeerId)
    requires id in s.store.credentials && h.backend
    ensures var t, b := Admit(s, h, id, p, draw, now), RegisteredId(s.store, s.store.credentials[id], h, draw);
      && t.leases == s.leases[b := Lease(t.leases[b].epoch, p, now)]
      && Dismisses(s, t, q, b in s.leases && q == s.leases[b].holder && Open(s, q))
  {
    hide GrantLease, AddPeer, Broadcast, RegisteredStore, RegisteredId, Admit, Dismisses;
    var c := s.store.credentials[id];
    var b := RegisteredId(s.store, c, h, draw);
    var root := if c.parent.Some? then c.parent.value else id;
    var ready := s.(store := RegisteredStore(s.store, c, h, draw, now));
    var t := GrantLease(ready, p, b, h.namespace, root, now);
    AdmitIs(s, h, id, p, draw, now);
    GrantDismisses(ready, p, b, h.namespace, root, now, q);
    GrantLeaseGrants(ready, p, b, h.namespace, root, now);
    var scope := if c.kind == Device then c.scope else None;
    var peer := Peer(h.namespace, id, scope, Some(Claim(b, t.leases[b].epoch)), true, true);
    JoiningDismisses(t, p, peer, Some(p), q);
    var once := b in s.leases && q == s.leases[b].holder && Open(s, q);
    DismissesThen(s, ready, t, Broadcast(AddPeer(t, p, peer), Some(p)), q, once);
  }

  lemma DismissesThen(s: State, r: State, t: State, u: State, q: PeerId, once: bool)
    requires r.sent == s.sent && Dismisses(r, t, q, once) && Dismisses(t, u, q, false)
    ensures Dismisses(s, u, q, once)
  {
  }

  lemma HolderWasUsed(s: State, b: BackendId)
    requires Sound(s) && b in s.leases
    ensures s.leases[b].holder in s.usedPeers
  {
    assert Held(s, b);
    hide Sound;
  }

  /** For every backend, every step of the gateway stutters, frees the lease, or gives it to the hello's connection. */
  lemma StepsMoveTheSlot(s: State, a: Action, b: BackendId)
    requires Sound(s) && Fresh(s, a)
    ensures Holder(Step(s, a), b) == Slot.After(Holder(s, b), MoveOf(s, a, b))
  {
    hide Sound, Step, Fresh;
    if b in Step(s, a).leases { HandsChangeOnlyAtHello(s, a, b); }
  }

  /**
   And in every step, exactly those open connections are closed with 4001, once, whose lease passed to the hello's
   connection.
   */
  lemma ReplacedAreTold(s: State, a: Action, q: PeerId)
    requires Sound(s) && Fresh(s, a)
    ensures Dismisses(s, Step(s, a), q, Open(s, q) && exists b :: TakesFrom(s, a, b, q))
  {
    hide Sound, Remembers, Fresh, Step, TakesFrom;
    if a.DoHello? {
      var seat := Seat(s, a.h, a.spent, a.draw, a.now);
      HelloStep(s, a);
      GreetingMoves(s, a.h, a.spent, a.p, a.draw, a.now, q);
      forall b ensures TakesFrom(s, a, b, q) <==> seat == Some(b) && Holder(s, b) == Some(q) {
        TakenIsSeat(s, a, b, q);
      }
    } else {
      StepRemembers(s, a);
      forall b ensures !TakesFrom(s, a, b, q) { OnlyHelloTakes(s, a, b, q); }
    }
  }

  lemma OnlyHelloTakes(s: State, a: Action, b: BackendId, q: PeerId)
    requires !a.DoHello?
    ensures !TakesFrom(s, a, b, q)
  {
    hide Step;
  }

  lemma NewcomerIsNew(s: State, a: Action)
    requires Fresh(s, a) && a.DoHello?
    ensures a.p !in s.usedPeers
  {
    hide FreshDraw;
  }

  lemma TakenIsSeat(s: State, a: Action, b: BackendId, q: PeerId)
    requires Sound(s) && Fresh(s, a) && a.DoHello?
    ensures TakesFrom(s, a, b, q) <==> Seat(s, a.h, a.spent, a.draw, a.now) == Some(b) && Holder(s, b) == Some(q)
  {
    hide Sound, Step, Fresh, Seat, Greet, Dismisses;
    if b in s.leases { HolderWasUsed(s, b); }
    NewcomerIsNew(s, a);
    HelloStep(s, a);
    GreetingMoves(s, a.h, a.spent, a.p, a.draw, a.now, q);
  }

  lemma HelloStep(s: State, a: Action)
    requires a.DoHello?
    ensures Step(s, a) == Greet(s, a.h, a.spent, a.p, a.draw, a.now)
  {
    hide Greet;
  }
}
