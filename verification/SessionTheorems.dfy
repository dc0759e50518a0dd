/** What the invariant and the two-state facts say about whole runs of the gateway. */
module SessionTheorems {
  import opened Basics
  import opened CredentialStore
  import opened Session
  import opened SessionProofs
  import opened SessionSteps
  import opened SessionHistory
  import opened SessionFrames

  // ---- Leases --------------------------------------------------------------

  lemma {:induction false} RunRemembers(s: State, actions: seq<Action>)
    requires GatewayRun(s, actions)
    ensures Remembers(s, Reached(s, actions))
    decreases |actions|
  {
    if actions != [] {
      hide Step, Fresh, Remembers;
      StepRemembers(s, actions[0]);
      RunRemembers(Step(s, actions[0]), actions[1..]);
      RemembersTrans(s, Step(s, actions[0]), Reached(s, actions));
    }
  }

  /** Every reachable state is coherent, epoch-safe and within its caps. */
  lemma EveryRunIsSound(config: Config, store: Store, actions: seq<Action>)
    requires Inv(store) && GatewayRun(Initial(config, store), actions)
    ensures Sound(Reached(Initial(config, store), actions))
  {
    InitiallySound(config, store);
    hide Sound, Inv;
    RunKeepsSound(Initial(config, store), actions);
  }

  /**
   What a sound state says about leases: they match the registry; each is held by a live peer that claims exactly
   it, in the presence's namespace, under an allocated epoch; the backend has an identity row there; and whoever
   claims a backend holds its lease.
   */
  lemma LeasesAgree(config: Config, store: Store, actions: seq<Action>, b: BackendId, p: PeerId)
    requires Inv(store) && GatewayRun(Initial(config, store), actions)
    ensures var t := Reached(Initial(config, store), actions);
      && t.leases.Keys == t.registry.Keys
      && (b in t.leases ==>
            && t.leases[b].holder in t.peers
            && t.peers[t.leases[b].holder].claim == Some(Claim(b, t.leases[b].epoch))
            && t.registry[b].epoch == t.leases[b].epoch <= t.store.maxEpoch
            && t.registry[b].namespace == t.peers[t.leases[b].holder].namespace
            && exists key :: NamedBy(t.store, key, b) && t.store.identities[key].namespace == t.registry[b].namespace)
      && (p in t.peers && t.peers[p].claim.Some? ==> IsOwner(t, p))
  {
    EveryRunIsSound(config, store, actions);
    hide GatewayRun, Reached, IsOwner;
    LeaseIsHeld(Reached(Initial(config, store), actions), b, p);
  }

  lemma LeaseIsHeld(t: State, b: BackendId, p: PeerId)
    requires Sound(t)
    ensures t.leases.Keys == t.registry.Keys && (b in t.leases ==> Held(t, b))
    ensures p in t.peers && t.peers[p].claim.Some? ==> IsOwner(t, p)
  {
    assert Coherent(t);
    hide Held, Anchored, Ticketed, Paired, Accounted, Followed, Retained, Capped, IsOwner;
  }

  /**
   Every channel of every reachable state belongs to the current lease of its backend, and a live client may reach it.
   */
  lemma ChannelsBelongToTheLease(config: Config, store: Store, actions: seq<Action>, c: ChannelId)
    requires Inv(store) && GatewayRun(Initial(config, store), actions)
    ensures var t := Reached(Initial(config, store), actions);
      c in t.channels ==>
        && t.channels[c].backendId in t.leases
        && t.channels[c].epoch == t.leases[t.channels[c].backendId].epoch
        && t.channels[c].backend == t.leases[t.channels[c].backendId].holder
        && (t.channels[c].client.Some? && t.channels[c].client.value in t.peers ==>
              var peer, b := t.peers[t.channels[c].client.value], t.channels[c].backendId;
              b in t.registry && t.registry[b].namespace == peer.namespace
              && (peer.scope == None || b in peer.scope.value))
  {
    EveryRunIsSound(config, store, actions);
    hide GatewayRun, Reached, Sound;
    var t := Reached(Initial(config, store), actions);
    if c in t.channels { AnchoredChannel(t, c); }
  }

  /** No peer is the client of more channels than allowed, and no backend serves more proxied requests than that. */
  lemma CapsHold(config: Config, store: Store, actions: seq<Action>, p: PeerId)
    requires Inv(store) && GatewayRun(Initial(config, store), actions)
    ensures var t := Reached(Initial(config, store), actions);
      |ClientChannels(t, p)| <= config.maxChannels && |InternalChannels(t, p)| <= config.maxChannels
  {
    EveryRunIsSound(config, store, actions);
    InitiallySound(config, store);
    ConfigIsFixed(Initial(config, store), actions);
    hide GatewayRun, Reached;
    WithinCaps(Reached(Initial(config, store), actions), p);
  }

  lemma WithinCaps(t: State, p: PeerId)
    requires Sound(t)
    ensures |ClientChannels(t, p)| <= t.config.maxChannels && |InternalChannels(t, p)| <= t.config.maxChannels
  {
    assert Capped(t);
    hide Coherent, Anchored, Ticketed, Paired, Accounted, Followed, Retained;
  }

  lemma ConfigIsFixed(s: State, actions: seq<Action>)
    requires Sound(s) && GatewayRun(s, actions)
    ensures Reached(s, actions).config == s.config
  {
    hide Sound, GatewayRun, Reached;
    RunEvolves(s, actions);
    hide LeaseEvolves, ChannelEvolves;
  }

  /** Subscriptions and retained payloads exist for leased backends only, and no backend retains more than 64. */
  lemma TopicsLiveWithTheLease(config: Config, store: Store, actions: seq<Action>, b: BackendId)
    requires Inv(store) && GatewayRun(Initial(config, store), actions)
    ensures var t := Reached(Initial(config, store), actions);
      && (b in t.subs || b in t.retained ==> b in t.leases)
      && (b in t.retained ==> |t.retained[b]| <= 64)
      && (b in t.retained ==> forall topic :: topic in t.retained[b] ==>
            (b, topic) in t.published && t.published[(b, topic)] == (t.leases[b].epoch, t.retained[b][topic]))
  {
    EveryRunIsSound(config, store, actions);
    hide GatewayRun, Reached;
    TopicsLeased(Reached(Initial(config, store), actions), b);
  }

  lemma TopicsLeased(t: State, b: BackendId)
    requires Sound(t)
    ensures b in t.subs || b in t.retained ==> b in t.leases
    ensures b in t.retained ==> |t.retained[b]| <= 64
    ensures b in t.retained ==> forall topic :: topic in t.retained[b] ==>
              (b, topic) in t.published && t.published[(b, topic)] == (t.leases[b].epoch, t.retained[b][topic])
  {
    assert Followed(t) && Retained(t);
    hide Coherent, Anchored, Ticketed, Paired, Accounted, Capped;
    if b in t.retained {
      forall topic | topic in t.retained[b]
        ensures (b, topic) in t.published && t.published[(b, topic)] == (t.leases[b].epoch, t.retained[b][topic])
      {
        assert Stored(t, b, topic) == CurrentPublication(t, b, topic, t.leases[b].epoch);
      }
    }
  }

  /** A backend's successive leases have strictly growing epochs: the same epoch means the same holder. */
  lemma LeasesSucceed(s: State, actions: seq<Action>, b: BackendId)
    requires Sound(s) && GatewayRun(s, actions)
    requires b in s.leases && b in Reached(s, actions).leases
    ensures var t := Reached(s, actions);
      SameTenure(s.leases[b], t.leases[b]) || t.leases[b].epoch > s.leases[b].epoch
  {
    assert Held(s, b);
    hide Sound, GatewayRun, Reached;
    RunEvolves(s, actions);
    assert LeaseEvolves(s, Reached(s, actions), b);
  }

  // ---- Channels over a run -------------------------------------------------

  /** No channel outlives its lease: once the backend has another epoch, or none, the channel has ended. */
  lemma ChannelsDieWithTheirEpoch(s: State, actions: seq<Action>, c: ChannelId)
    requires Sound(s) && GatewayRun(s, actions) && c in s.channels
    ensures var t, ch := Reached(s, actions), s.channels[c];
      !(ch.backendId in t.leases && SameTenure(t.leases[ch.backendId], s.leases[ch.backendId])) ==>
        c in t.fates && c !in t.channels
  {
    var t, ch := Reached(s, actions), s.channels[c];
    assert AnchoredAt(s, ch);
    hide Sound, GatewayRun, Reached;
    RunEvolves(s, actions);
    assert ChannelEvolves(s, t, c);
    if c in t.channels { AnchoredChannel(t, c); }
    EndedApart(t);
  }

  lemma AnchoredChannel(s: State, c: ChannelId)
    requires Sound(s) && c in s.channels
    ensures AnchoredAt(s, s.channels[c])
  {
  }

  /** A channel ends once: its fate never changes, and it never comes back. */
  lemma TeardownIsFinal(s: State, actions: seq<Action>, c: ChannelId)
    requires Sound(s) && GatewayRun(s, actions) && c in s.fates
    ensures c in Reached(s, actions).fates && Reached(s, actions).fates[c] == s.fates[c]
            && c !in Reached(s, actions).channels
  {
    hide Sound, GatewayRun, Reached;
    RunEvolves(s, actions);
    EndedApart(Reached(s, actions));
  }

  /**
   Each end of a channel is told at most once that it closed; a channel is wired at most once, and one that was has
   both its legs, or had them when it ended.
   */
  lemma ToldAndWiredAtMostOnce(s: State, m: Notice, n: Notice, c: ChannelId)
    requires Sound(s)
    ensures m in s.notices && n in s.notices && m.channel == n.channel && m.end == n.end ==> m == n && s.notices[m] == 1
    ensures s.wirings[c] <= 1
    ensures s.wirings[c] == 1 ==>
              || (c in s.channels && s.channels[c].Complete())
              || (c in s.fates && s.fates[c].channel.Complete())
  {
    assert Accounted(s) && Paired(s);
    hide Sound;
    assert m in s.notices ==> Justified(s, m);
    assert n in s.notices ==> Justified(s, n);
    assert c in s.channels ==> s.channels[c].Consistent();
    assert c in s.fates ==> s.fates[c].channel.Consistent();
  }

  /** A leg that has its socket keeps it for as long as the channel lives. */
  lemma LegsAreFilledOnce(s: State, actions: seq<Action>, c: ChannelId, end: End)
    requires Sound(s) && GatewayRun(s, actions)
    requires c in s.channels && s.channels[c].Leg(end).Some? && c in Reached(s, actions).channels
    ensures Reached(s, actions).channels[c].Leg(end) == s.channels[c].Leg(end)
  {
    hide Sound, GatewayRun, Reached;
    RunEvolves(s, actions);
    assert ChannelEvolves(s, Reached(s, actions), c);
    EndedApart(Reached(s, actions));
  }

  /** An unwired channel's timer is running; when it fires, the channel ends as timed out unless it is wired. */
  lemma PairingTimeoutDecides(s: State, c: ChannelId)
    requires Sound(s)
    ensures c in s.channels && !s.channels[c].wired ==>
              s.channels[c].armed && c in PairingTimeout(s, c).fates
                && PairingTimeout(s, c).fates[c] == Fate(s.channels[c], TimedOut)
    ensures c in PairingTimeout(s, c).channels <==> c in s.channels && s.channels[c].wired
    ensures c in PairingTimeout(s, c).channels ==> PairingTimeout(s, c).channels[c] == s.channels[c]
    ensures c in s.fates ==> c in PairingTimeout(s, c).fates
  {
    assert c in s.channels ==> s.channels[c].Consistent() by { assert Paired(s); }
    hide Sound, Notices, TicketsOf;
  }

  /** So once its timer has fired, a channel is wired or gone, for the rest of the run. */
  lemma TimerDecides(s: State, c: ChannelId, later: seq<Action>)
    requires Sound(s) && (c in s.channels || c in s.fates) && GatewayRun(PairingTimeout(s, c), later)
    ensures Decided(Reached(PairingTimeout(s, c), later), c)
  {
    hide Sound, GatewayRun, Reached, PairingTimeout;
    PairingTimeoutDecides(s, c);
    CloseOneKeepsSound(s, 0, c, Closed);
    DecidedForGood(PairingTimeout(s, c), c, later);
  }

  // ---- Deadlines -----------------------------------------------------------

  /** Wired, or gone. */
  predicate Decided(s: State, c: ChannelId) { c in s.channels ==> s.channels[c].wired }

  lemma DecidedForGood(s: State, c: ChannelId, later: seq<Action>)
    requires Sound(s) && (c in s.channels || c in s.fates) && Decided(s, c) && GatewayRun(s, later)
    ensures Decided(Reached(s, later), c)
  {
    hide Sound, GatewayRun, Reached;
    var t := Reached(s, later);
    RunEvolves(s, later);
    EndedApart(t);
    assert c in s.channels ==> ChannelEvolves(s, t, c);
    assert c in s.fates ==> c in t.fates;
  }

  /** A step and the time it happens at. */
  datatype Timed = At(now: int, action: Action)

  /** A step that reads the clock reads the time it happens at. */
  predicate Timely(e: Timed) {
    match e.action
    case DoHello(_, _, _, _, now) => now == e.now
    case DoHeartbeat(_, _, now) => now == e.now
    case DoOpen(_, _, _, now) => now == e.now
    case DoProxy(_, _, _, _, now) => now == e.now
    case DoDial(_, _, now) => now == e.now
    case DoPairingTimeout(_, now) => now == e.now
    case DoTicketCleanup(now) => now == e.now
    case DoPing(_, now) => now == e.now
    case DoSocketClosed(_, now) => now == e.now
    case DoCheckLease(_, now) => now == e.now
    case _ => true
  }

  /** No running timer is overtaken: later than `late` after it is due nothing happens but timers firing. */
  predicate Waits(s: State, e: Timed, late: nat) {
    e.action.DoPairingTimeout? || forall c :: c in s.channels && s.channels[c].armed ==>
      e.now <= s.channels[c].due + late
  }

  /** Runs on a clock that does not go backwards, with timers at most `late` behind. */
  ghost predicate TimedRun(s: State, clock: int, events: seq<Timed>, late: nat)
    decreases |events|
  {
    events == [] ||
    (clock <= events[0].now && Timely(events[0]) && Fresh(s, events[0].action) && Waits(s, events[0], late)
     && TimedRun(Step(s, events[0].action), events[0].now, events[1..], late))
  }

  function ActionsOf(events: seq<Timed>): (r: seq<Action>)
    ensures |r| == |events|
  {
    if events == [] then [] else [events[0].action] + ActionsOf(events[1..])
  }

  lemma {:induction false} TimedRunsAreRuns(s: State, clock: int, events: seq<Timed>, late: nat)
    requires TimedRun(s, clock, events, late)
    ensures GatewayRun(s, ActionsOf(events))
    decreases |events|
  {
    hide Step, Fresh, Waits, Timely;
    if events != [] { TimedRunsAreRuns(Step(s, events[0].action), events[0].now, events[1..], late); }
  }

  /** Some step other than a timer happens later than this. */
  predicate BusyAfter(events: seq<Timed>, time: int) {
    exists k :: 0 <= k < |events| && !events[k].action.DoPairingTimeout? && events[k].now > time
  }

  lemma {:induction false} DueIsDecisive(s: State, clock: int, events: seq<Timed>, late: nat, c: ChannelId)
    requires Sound(s) && TimedRun(s, clock, events, late) && c in s.channels
    requires BusyAfter(events, s.channels[c].due + late)
    ensures Decided(Reached(s, ActionsOf(events)), c)
    decreases |events|
  {
    hide Sound, Step, Fresh, Timely;
    var e := events[0];
    var t := Step(s, e.action);
    StepKeepsSound(s, e.action);
    StepEvolves(s, e.action);
    assert ChannelEvolves(s, t, c);
    EndedApart(t);
    TimedRunsAreRuns(t, e.now, events[1..], late);
    if !e.action.DoPairingTimeout? && e.now > s.channels[c].due + late {
      assert s.channels[c].Consistent() by { SoundIsPaired(s, c); }
      DecidedForGood(t, c, ActionsOf(events[1..]));
    } else if c in t.channels {
      var k :| 0 <= k < |events| && !events[k].action.DoPairingTimeout? && events[k].now > s.channels[c].due + late;
      assert events[1..][k - 1] == events[k];
      DueIsDecisive(t, e.now, events[1..], late, c);
    } else {
      DecidedForGood(t, c, ActionsOf(events[1..]));
    }
  }

  lemma SoundIsPaired(s: State, c: ChannelId)
    requires Sound(s) && c in s.channels
    ensures s.channels[c].Consistent()
  {
    assert Paired(s);
    hide Sound;
  }

  /** A channel that this step adds, and the time its pairing timer is set to. */
  lemma OpenedIsDue(s: State, a: Action, c: ChannelId)
    requires Fresh(s, a) && (a.DoOpen? || a.DoProxy?) && c !in s.channels && c in Step(s, a).channels
    ensures c == a.ids.channel && Step(s, a).channels[c].due == a.now + s.config.ticketTtl
  {
    hide OpenChannel, Proxy;
    match a
    case DoOpen(p, target, ids, now) => if p in s.peers { OpenIsDue(s, p, target, ids, now, c); }
    case DoProxy(token, target, limited, ids, now) => ProxyIsDue(s, token, target, limited, ids, now, c);
  }

  lemma SendingKeepsChannels(s: State, p: PeerId, msg: Message)
    ensures Send(s, p, msg).channels == s.channels
  {
  }

  lemma OpenIsDue(s: State, p: PeerId, target: BackendId, draw: ChannelDraw, now: int, c: ChannelId)
    requires p in s.peers && c !in s.channels && c in OpenChannel(s, p, target, draw, now).channels
    ensures c == draw.channel && OpenChannel(s, p, target, draw, now).channels[c].due == now + s.config.ticketTtl
  {
    hide ChannelVerdict, Send;
    match ChannelVerdict(s, p, target)
    case Refuse(code) => SendingKeepsChannels(s, p, Error(code));
    case Grant(epoch, holder) =>
      var t := AddChannel(s, target, Some(p), holder, epoch, draw, now);
      var offer := ChannelOffer(draw.channel, draw.backendTicket, Some(p));
      SendingKeepsChannels(t, holder, offer);
      SendingKeepsChannels(Send(t, holder, offer), p, ChannelReady(draw.channel, draw.clientTicket));
  }

  lemma ProxyIsDue(s: State, token: Token, target: BackendId, limited: bool, draw: ChannelDraw, now: int, c: ChannelId)
    requires c !in s.channels && c in Proxy(s, token, target, limited, draw, now).channels
    ensures c == draw.channel
    ensures Proxy(s, token, target, limited, draw, now).channels[c].due == now + s.config.ticketTtl
  {
    hide ProxyStatus, Send, FindValid;
    if ProxyStatus(s, token, target, limited, now) == 0 {
      StatusMeansLeased(s, token, target, limited, now);
      var t, lease := s.(store := FindValid(s.store, token, now)), s.leases[target];
      var u := AddChannel(t, target, None, lease.holder, lease.epoch, draw, now);
      SendingKeepsChannels(u, lease.holder, ChannelOffer(draw.channel, draw.backendTicket, None));
    }
  }

  /**
   A channel opened at some time has been wired or has ended once anything but a timer happens more than the ticket TTL
   after it (and `late` more, in runs whose timers may be that much behind), and so it stays.
   */
  lemma WiredOrGoneByTheDeadline(s: State, a: Action, later: seq<Timed>, late: nat)
    requires Sound(s) && Fresh(s, a) && (a.DoOpen? || a.DoProxy?) && TimedRun(Step(s, a), a.now, later, late)
    requires a.ids.channel in Step(s, a).channels && BusyAfter(later, a.now + s.config.ticketTtl + late)
    ensures Decided(Reached(Step(s, a), ActionsOf(later)), a.ids.channel)
  {
    hide Sound, Step, TimedRun, BusyAfter, Reached, FreshDraw;
    StepKeepsSound(s, a);
    OpenedIsDue(s, a, a.ids.channel);
    DueIsDecisive(Step(s, a), a.now, later, late, a.ids.channel);
  }

  /** A ticket opens one leg of one live channel, and is presented once: no later dial with it is ever accepted. */
  lemma TicketsAreOneTime(s: State, token: TicketToken, c: ChannelId, now: int, later: seq<Action>)
    requires Sound(s) && token in s.tickets && GatewayRun(Step(s, DoDial(token, c, now)), later)
    ensures DialAccepted(s, token, c, now) ==>
              && AwaitsDial(s, c, s.tickets[token].end) && Dial(c, s.tickets[token].end) !in s.dials
              && forall other :: other in s.tickets && SameLeg(s.tickets[other], s.tickets[token]) ==> other == token
    ensures forall again: int, d :: !DialAccepted(Reached(Step(s, DoDial(token, c, now)), later), token, d, again)
  {
    hide Sound, GatewayRun, Reached, Step;
    TicketIsOk(s, token);
    DialStep(s, token, c, now);
    RunRemembers(ConsumeTicket(s, token, c, now), later);
  }

  lemma TicketIsOk(s: State, token: TicketToken)
    requires Sound(s) && token in s.tickets
    ensures TicketOk(s, token) && token in s.usedTickets
    ensures forall other :: other in s.tickets && SameLeg(s.tickets[other], s.tickets[token]) ==> other == token
  {
    assert Ticketed(s);
    hide Sound;
  }

  lemma DialStep(s: State, token: TicketToken, c: ChannelId, now: int)
    ensures Step(s, DoDial(token, c, now)) == ConsumeTicket(s, token, c, now)
  {
    hide ConsumeTicket;
  }

  // ---- Disconnects and expiry ----------------------------------------------

  lemma DepartLeavesNothing(s: State, p: PeerId, claim: Option<Claim>)
    ensures var t := Depart(s, p, claim);
      && p !in t.peers && ChannelsAt(t, p) == {}
      && (forall b, k :: b in t.subs && k in t.subs[b] ==> p !in t.subs[b][k])
  {
    hide Notices, TicketsOf;
    var t := Depart(s, p, claim);
    assert t.channels == s.channels - ChannelsAt(s, p);
    assert forall b, k :: b in t.subs && k in t.subs[b] ==> t.subs[b][k] == s.subs[b][k] - {p};
  }

  /** After a disconnect nothing of the peer is left: no session, lease, subscription or end of a channel. */
  lemma DisconnectLeavesNothing(s: State, p: PeerId, now: int)
    requires Sound(s) && p in s.peers
    ensures var t := Disconnect(s, p, now);
      && p !in t.peers
      && (forall b :: b in t.leases ==> t.leases[b].holder != p)
      && ChannelsAt(t, p) == {}
      && (forall b, k :: b in t.subs && k in t.subs[b] ==> p !in t.subs[b][k])
  {
    hide Abdicate, Depart, ChannelsAt;
    var t := Disconnect(s, p, now);
    DepartLeavesNothing(Abdicate(s, p, now), p, s.peers[p].claim);
    DisconnectKeepsSound(s, p, now);
    forall b | b in t.leases ensures t.leases[b].holder != p { HolderIsLive(t, b); }
  }

  lemma HolderIsLive(s: State, b: BackendId)
    requires Sound(s) && b in s.leases
    ensures s.leases[b].holder in s.peers
  {
    assert Held(s, b);
    hide Sound;
  }

  /**
   Lease expiry is not as thorough: it removes the holder's session but leaves the channels in which
   that holder is the client of another backend, and its subscriptions there. So "the client end of
   every channel is a live peer" does not hold, and the invariant claims reach for live clients only.
   */
  lemma ExpiryLeavesClientEnds(s: State, b: BackendId, c: ChannelId, now: int)
    requires Sound(s) && b in s.leases && c in s.channels
    requires s.channels[c].client == Some(s.leases[b].holder) && s.channels[c].backendId != b
    ensures var t := ExpireLease(s, b, now);
      c in t.channels && t.channels[c].client == s.channels[c].client && t.channels[c].client.value !in t.peers
    ensures forall other, k ::
              other in s.subs && other != b && k in s.subs[other] && s.leases[b].holder in s.subs[other][k] ==>
              other in ExpireLease(s, b, now).subs && s.leases[b].holder in ExpireLease(s, b, now).subs[other][k]
  {
    hide Sound, Notices, TicketsOf, Snapshots;
  }

  // ---- Registration --------------------------------------------------------

  /**
   A lease changes hands only at a hello with a usable backend credential of the declared namespace, to the newcomer.
   */
  lemma RegistrationNeedsACredential(s: State, h: Hello, spent: bool, p: PeerId, draw: Draw, now: int, b: BackendId)
    requires var t := Greet(s, h, spent, p, draw, now);
      b in t.leases && (b in s.leases ==> !SameTenure(s.leases[b], t.leases[b]))
    ensures var t, id := Greet(s, h, spent, p, draw, now), Resolve(s.store, h.token, now);
      && id.Some? && id.value in s.store.credentials
      && s.store.credentials[id.value].kind != Device && s.store.credentials[id.value].namespace == h.namespace
      && (s.store.credentials[id.value].backendId.Some? ==> s.store.credentials[id.value].backendId == Some(b))
      && t.leases[b].holder == p
  {
    hide GrantLease, Visible, Snapshots, FindValid, RegisteredStore, Usable;
    var seen := s.(store := FindValid(s.store, h.token, now));
    var verdict := JudgeHello(s.store, h, spent, now);
    if verdict.Admitted? {
      FindValidKeepsRows(s.store, h.token, now, verdict.credential);
      var c := seen.store.credentials[verdict.credential];
      var root := if c.parent.Some? then c.parent.value else verdict.credential;
      var key := RegisteredId(seen.store, c, h, draw);
      GrantLeaseGrants(seen.(store := RegisteredStore(seen.store, c, h, draw, now)), p, key, h.namespace, root, now);
    }
  }

  lemma FindValidKeepsRows(s: Store, token: Token, now: int, id: CredentialId)
    requires id in s.credentials
    ensures id in FindValid(s, token, now).credentials
    ensures FindValid(s, token, now).credentials[id]
            == s.credentials[id].(lastUsedAt := FindValid(s, token, now).credentials[id].lastUsedAt)
  {
  }

  // ---- Topics --------------------------------------------------------------

  /**
   A publication by the holder of its backend's lease is sent, once each, to exactly the open subscribers of the topic,
   all of them in the backend's namespace and, if scoped, scoped to it; one by anybody else is sent to nobody.
   */
  lemma DeliveriesStayInReach(s: State, p: PeerId, topic: Topic, payload: Option<Payload>, retain: bool, q: PeerId)
    requires Sound(s) && p in s.peers
    ensures var t := Step(s, DoPublish(p, topic, payload, retain));
      var owner := exists b :: b in s.leases && s.leases[b].holder == p;
      && (owner ==> s.peers[p].claim.Some?)
      && var b := if owner then s.peers[p].claim.value.backendId else "";
      var told := owner && b in s.subs && topic in s.subs[b] && q in s.subs[b][topic]
                  && q in s.peers && s.peers[q].open;
      && t.sent[Envelope(q, TopicMessage(b, topic, payload))]
         == s.sent[Envelope(q, TopicMessage(b, topic, payload))] + (if told then 1 else 0)
      && (!owner ==> t == s)
      && (told ==> b in s.registry && s.registry[b].namespace == s.peers[q].namespace
                   && (s.peers[q].scope == None || b in s.peers[q].scope.value))
  {
    hide Sound, IsOwner, Publish, Step, Deliveries, SubscribersOf, Reachable;
    OwnersHold(s, p);
    PublishIs(s, p, topic, payload, retain);
    if IsOwner(s, p) {
      var b := s.peers[p].claim.value.backendId;
      DeliveredTo(s, b, topic, payload, q);
      if q in SubscribersOf(s, b, topic) { SubscriberIs(s, b, topic, q); }
    }
  }

  lemma DeliveredTo(s: State, b: BackendId, topic: Topic, payload: Option<Payload>, q: PeerId)
    ensures Envelope(q, TopicMessage(b, topic, payload)) in Deliveries(s, b, topic, payload) <==>
            q in SubscribersOf(s, b, topic) && q in s.peers && s.peers[q].open
    ensures q in SubscribersOf(s, b, topic) <==> b in s.subs && topic in s.subs[b] && q in s.subs[b][topic]
  {
  }

  /** Who holds a lease claims that backend, and the claim is the lease. */
  lemma OwnersHold(s: State, p: PeerId)
    requires Sound(s) && p in s.peers
    ensures IsOwner(s, p) <==> exists b :: b in s.leases && s.leases[b].holder == p
    ensures IsOwner(s, p) ==> s.peers[p].claim.Some?
  {
    forall b | b in s.leases && s.leases[b].holder == p ensures IsOwner(s, p) { assert Held(s, b); }
    hide Sound;
  }

  lemma SubscriberIs(s: State, b: BackendId, topic: Topic, q: PeerId)
    requires Sound(s) && q in SubscribersOf(s, b, topic)
    ensures q in s.peers ==> b in s.registry && s.registry[b].namespace == s.peers[q].namespace
                             && (s.peers[q].scope == None || b in s.peers[q].scope.value)
  {
    assert Followed(s);
    hide Sound;
  }

  lemma PublishIs(s: State, p: PeerId, topic: Topic, payload: Option<Payload>, retain: bool)
    ensures var t := Step(s, DoPublish(p, topic, payload, retain));
      && (!IsOwner(s, p) ==> t == s)
      && (IsOwner(s, p) ==>
            s.peers[p].claim.Some?
            && t.sent == s.sent + multiset(Deliveries(s, s.peers[p].claim.value.backendId, topic, payload)))
  {
    hide Deliveries;
  }

  /**
   A directed message is passed on only for the current owner, in its own name, to one live peer that may reach it.
   */
  lemma RelayStaysInReach(s: State, p: PeerId, b: BackendId, target: Option<PeerId>, payload: Option<Payload>)
    requires Sound(s) && Relay(s, p, b, target, payload) != s
    ensures p in s.peers && b in s.leases && s.leases[b].holder == p
    ensures target.Some? && target.value in s.peers && b in s.registry
            && s.registry[b].namespace == s.peers[target.value].namespace
            && (s.peers[target.value].scope == None || b in s.peers[target.value].scope.value)
    ensures Relay(s, p, b, target, payload).sent == s.sent + multiset{Envelope(target.value, Relayed(b, payload))}
  {
    OwnerIsHeld(s, p);
    hide Sound;
  }

  lemma OwnerIsHeld(s: State, p: PeerId)
    requires Sound(s) && IsOwner(s, p)
    ensures var b := s.peers[p].claim.value.backendId;
      b in s.registry && s.registry[b].namespace == s.peers[p].namespace
  {
    var b := s.peers[p].claim.value.backendId;
    assert Held(s, b);
    hide Sound;
  }

  /** A claim is never gained or changed after the hello, and one that is lost is lost for good. */
  lemma ClaimsAreNotRegained(s: State, actions: seq<Action>, p: PeerId)
    requires Sound(s) && GatewayRun(s, actions) && p in s.usedPeers && p in Reached(s, actions).peers
    ensures p in s.peers
    ensures Reached(s, actions).peers[p].claim.Some? ==> Reached(s, actions).peers[p].claim == s.peers[p].claim
  {
    hide Sound, GatewayRun, Reached;
    RunRemembers(s, actions);
  }

  /**
   A peer that has no claim, having lost its lease or never had one, can for the rest of the run neither publish, nor
   relay, nor keep a lease alive.
   */
  lemma OnlyOwnersAct(s: State, actions: seq<Action>, p: PeerId, topic: Topic, payload: Option<Payload>, retain: bool,
                      b: BackendId, target: Option<PeerId>, epoch: nat, now: int)
    requires Sound(s) && GatewayRun(s, actions) && p in s.usedPeers && (p in s.peers ==> s.peers[p].claim.None?)
    ensures var t := Reached(s, actions);
      Publish(t, p, topic, payload, retain) == t && Relay(t, p, b, target, payload) == t
        && Heartbeat(t, p, epoch, now) == t
  {
    hide Sound, GatewayRun, Reached;
    if p in Reached(s, actions).peers { ClaimsAreNotRegained(s, actions, p); }
  }

  /** The replaced holder is told so by the close code, loses its claim, and nobody else is closed. */
  lemma ReplacementClosesTheHolder(s: State, b: BackendId)
    requires Sound(s) && b in s.leases
    ensures var t, holder := ReplaceOwner(s, b), s.leases[b].holder;
      && holder in t.peers && !t.peers[holder].open && t.peers[holder].claim.None?
      && t.sent == s.sent + (if Open(s, holder) then multiset{Envelope(holder, CloseFrame(4001))}
                             else multiset{})
      && forall p :: p in s.peers && p != holder ==> p in t.peers && t.peers[p] == s.peers[p]
  {
    assert Held(s, b);
    hide Sound, Held, Notices, TicketsOf, ChannelsOf;
  }
}
