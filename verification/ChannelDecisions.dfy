/** What happens to channels, tickets and topics, over each step and in the fields of the state alone. */
module ChannelDecisions {
  import opened Basics
  import opened CredentialStore
  import opened Session
  import opened SessionProofs
  import opened SessionFrames
  import opened SessionTheorems
  import opened Views
  import opened Answers
  import opened Entitlement
  import opened Reach
  import opened Tokens
  import opened Decisions

  // ---- Tickets and sockets -------------------------------------------------

  /**
   What opening a channel hands out: to the client a ticket for its own leg, to the backend's holder one for the other,
   each good until the pairing timer is due, the configured time from now. Nothing is dialled or wired yet.
   */
  lemma OpeningIssues(s: State, p: PeerId, b: BackendId, draw: ChannelDraw, now: int)
    requires Sound(s) && p in s.peers && Fresh(s, DoOpen(p, b, draw, now))
    requires draw.channel in Step(s, DoOpen(p, b, draw, now)).channels
    ensures var t, due := Step(s, DoOpen(p, b, draw, now)), now + s.config.ticketTtl;
      && t.tickets == s.tickets[draw.clientTicket := Ticket(draw.channel, ClientEnd, due)]
                               [draw.backendTicket := Ticket(draw.channel, BackendEnd, due)]
      && b in s.leases
      && t.channels == s.channels[draw.channel :=
           Channel(b, s.leases[b].epoch, Some(p), s.leases[b].holder, None, None, false, true,
                   {draw.clientTicket, draw.backendTicket}, due)]
      && t.sent == s.sent
                   + (if Session.Open(s, s.leases[b].holder)
                      then multiset{Envelope(s.leases[b].holder,
                                             ChannelOffer(draw.channel, draw.backendTicket, Some(p)))}
                      else multiset{})
                   + (if s.peers[p].open then multiset{Envelope(p, ChannelReady(draw.channel, draw.clientTicket))}
                      else multiset{})
  {
    hide Sound, Fresh, OpenChannel, Step;
    RequestsAreHandled(s, DoOpen(p, b, draw, now));
    NewChannel(s, p, b, draw, now);
    GrantedIs(s, p, b, draw, now);
  }

  lemma GrantedIs(s: State, p: PeerId, b: BackendId, draw: ChannelDraw, now: int)
    requires p in s.peers && draw.channel !in s.channels && draw.channel in OpenChannel(s, p, b, draw, now).channels
    ensures var t, due := OpenChannel(s, p, b, draw, now), now + s.config.ticketTtl;
      && t.tickets == s.tickets[draw.clientTicket := Ticket(draw.channel, ClientEnd, due)]
                               [draw.backendTicket := Ticket(draw.channel, BackendEnd, due)]
      && b in s.leases
      && t.channels == s.channels[draw.channel :=
           Channel(b, s.leases[b].epoch, Some(p), s.leases[b].holder, None, None, false, true,
                   {draw.clientTicket, draw.backendTicket}, due)]
      && t.sent == s.sent
                   + (if Session.Open(s, s.leases[b].holder)
                      then multiset{Envelope(s.leases[b].holder,
                                             ChannelOffer(draw.channel, draw.backendTicket, Some(p)))}
                      else multiset{})
                   + (if s.peers[p].open then multiset{Envelope(p, ChannelReady(draw.channel, draw.clientTicket))}
                      else multiset{})
  {
    hide ChannelVerdict, Send, AddChannel, PeerReaches, ChannelsAt;
    RefusedIs(s, p, b);
    match ChannelVerdict(s, p, b)
    case Refuse(code) => SendKeepsTables(s, p, Error(code));
    case Grant(epoch, holder) =>
      var t := AddChannel(s, b, Some(p), holder, epoch, draw, now);
      var offer, ready := ChannelOffer(draw.channel, draw.backendTicket, Some(p)),
          ChannelReady(draw.channel, draw.clientTicket);
      ChannelAdded(s, b, Some(p), holder, epoch, draw, now);
      SendAdds(t, holder, offer);
      SendKeepsTables(t, holder, offer);
      SendKeepsTickets(t, holder, offer);
      SendAdds(Send(t, holder, offer), p, ready);
      SendKeepsTables(Send(t, holder, offer), p, ready);
      SendKeepsTickets(Send(t, holder, offer), p, ready);
  }

  lemma SendKeepsTickets(s: State, p: PeerId, msg: Message)
    ensures Send(s, p, msg).tickets == s.tickets
  {
  }

  lemma ChannelAdded(s: State, b: BackendId, client: Option<PeerId>, holder: PeerId, epoch: nat, draw: ChannelDraw,
                     now: int)
    ensures var t, due := AddChannel(s, b, client, holder, epoch, draw, now), now + s.config.ticketTtl;
      && t.peers == s.peers && t.sent == s.sent
      && t.tickets == (if client.Some? then s.tickets[draw.clientTicket := Ticket(draw.channel, ClientEnd, due)]
                       else s.tickets)[draw.backendTicket := Ticket(draw.channel, BackendEnd, due)]
      && t.channels == s.channels[draw.channel :=
           Channel(b, epoch, client, holder, None, None, false, true,
                   if client.Some? then {draw.clientTicket, draw.backendTicket} else {draw.backendTicket}, due)]
  {
    var due := now + s.config.ticketTtl;
    var backend := map[draw.backendTicket := Ticket(draw.channel, BackendEnd, due)];
    var both := map[draw.clientTicket := Ticket(draw.channel, ClientEnd, due)] + backend;
    assert backend.Keys == {draw.backendTicket} && both.Keys == {draw.clientTicket, draw.backendTicket};
    MergeOne(s.tickets, draw.backendTicket, Ticket(draw.channel, BackendEnd, due));
    MergeTwo(s.tickets, draw.clientTicket, Ticket(draw.channel, ClientEnd, due), draw.backendTicket,
             Ticket(draw.channel, BackendEnd, due));
  }

  /**
   A dial is accepted exactly if its ticket is outstanding, for this channel, which is still there, and not past its
   time; the ticket is gone either way, and the dial is for the ticket's own leg.
   */
  lemma DialsAreAcceptedExactly(s: State, ticket: TicketToken, c: ChannelId, now: int)
    ensures var t := Step(s, DoDial(ticket, c, now));
      var accepted := ticket in s.tickets && s.tickets[ticket].channel == c && c in s.channels
                      && now <= s.tickets[ticket].expiresAt;
      && t.tickets == s.tickets - {ticket} && t.channels == s.channels
      && t.dials == if accepted then s.dials + {Dial(c, s.tickets[ticket].end)} else s.dials
  {
  }

  /** The cleanup drops exactly the tickets that are past their time. */
  lemma CleanupDropsExactlyTheStale(s: State, now: int)
    ensures var t := Step(s, DoTicketCleanup(now));
      && (forall k :: k in t.tickets <==> k in s.tickets && now <= s.tickets[k].expiresAt)
      && (forall k :: k in t.tickets ==> t.tickets[k] == s.tickets[k])
  {
  }

  /**
   The socket of an accepted dial fills its leg, if the channel is still there; the channel is wired from the moment
   both legs are filled, or for an internal one the backend's, and its pairing timer stops then.
   */
  lemma SocketsFillLegs(s: State, dial: Dial, socket: Socket)
    requires Sound(s) && dial in s.dials
    ensures var t, c := Step(s, DoAttach(dial, socket)), dial.channel;
      && t.dials == s.dials - {dial}
      && (c !in s.channels ==> t.channels == s.channels && t.wirings == s.wirings)
      && (c in s.channels ==>
            var ch := s.channels[c];
            var client := if dial.end == ClientEnd then Some(socket) else ch.clientLeg;
            var backend := if dial.end == BackendEnd then Some(socket) else ch.backendLeg;
            var complete := backend.Some? && (ch.client == None || client.Some?);
            && t.channels == s.channels[c := ch.(clientLeg := client, backendLeg := backend, wired := complete,
                                                 armed := !complete)]
            && t.wirings == s.wirings + if complete && !ch.wired then multiset{c} else multiset{})
  {
    hide Sound, Step, Attach, WithLeg;
    ConsistentAt(s, dial.channel);
    DialFills(s, dial);
    AttachIs(s, dial, socket);
    if dial.channel in s.channels {
      WithLegIs(s.channels[dial.channel], dial.end, socket);
    }
  }

  lemma AttachIs(s: State, dial: Dial, socket: Socket)
    requires dial in s.dials
    ensures var t := Step(s, DoAttach(dial, socket));
      if dial.channel !in s.channels then t == s.(dials := s.dials - {dial})
      else
        var ch := WithLeg(s.channels[dial.channel], dial.end, socket);
        && t.dials == s.dials - {dial} && t.channels == s.channels[dial.channel := ch]
        && t.wirings == s.wirings + if ch.wired && !s.channels[dial.channel].wired then multiset{dial.channel}
                                    else multiset{}
  {
    hide WithLeg;
  }

  lemma ConsistentAt(s: State, c: ChannelId)
    requires Sound(s)
    ensures c in s.channels ==> s.channels[c].Consistent()
  {
    assert Paired(s);
    hide Coherent, Anchored, Ticketed, Accounted, Followed, Retained, Capped;
  }

  lemma DialFills(s: State, dial: Dial)
    requires Sound(s) && dial in s.dials
    ensures dial.channel in s.channels ==> AwaitsDial(s, dial.channel, dial.end)
  {
    assert Ticketed(s) && DialOk(s, dial);
    assert Accounted(s);
    hide Coherent, Anchored, Paired, Followed, Retained, Capped;
  }

  lemma WithLegIs(ch: Channel, end: End, socket: Socket)
    requires ch.Consistent() && ch.Leg(end).None? && (end == ClientEnd ==> ch.client.Some?)
    ensures var client := if end == ClientEnd then Some(socket) else ch.clientLeg;
      var backend := if end == BackendEnd then Some(socket) else ch.backendLeg;
      var complete := backend.Some? && (ch.client == None || client.Some?);
      WithLeg(ch, end, socket)
      == ch.(clientLeg := client, backendLeg := backend, wired := complete, armed := !complete)
  {
  }

  // ---- Ends ----------------------------------------------------------------

  /** Whether a channel message, a timer or a closed socket ends this channel, and with what reason. */
  function EndedBy(s: State, a: Action, c: ChannelId): Option<Reason>
    requires c in s.channels
  {
    match a
    case DoReject(p, d) => if d == c && p in s.peers && p == s.channels[c].backend then Some(Session.Rejected) else None
    case DoClose(p, d) =>
      if d == c && p in s.peers && (Some(p) == s.channels[c].client || p == s.channels[c].backend) then Some(Closed)
      else None
    case DoPairingTimeout(d, now) =>
      if d == c && s.channels[c].due <= now && s.channels[c].armed then Some(TimedOut) else None
    case DoLegClosed(d) => if d == c && s.channels[c].wired then Some(Closed) else None
    case DoHttpGone(d, reason) => if d == c && s.channels[c].client == None then Some(reason) else None
    case _ => None
  }

  /**
   A channel ends by a reject of its backend's holder, a close by either end, its pairing timer when due and still
   running, a closed leg once wired, or the HTTP side of an internal one going away; by nothing else that concerns
   single channels. Then its tickets are gone, and each end whose peer is still connected is told once, with that
   reason.
   */
  lemma ChannelsEndExactly(s: State, a: Action, c: ChannelId)
    requires AboutOneChannel(a) && c in s.channels
    ensures var t, reason := Step(s, a), EndedBy(s, a, c);
      && (c in t.channels <==> reason == None)
      && (reason.Some? ==>
            && c in t.fates && t.fates[c] == Fate(s.channels[c], reason.value)
            && (forall k :: k in s.channels[c].tickets ==> k !in t.tickets)
            && (forall end: End :: Told(s, t, c, end, reason.value)))
  {
    assert Step(s, a) == ChannelStep(s, a) by { hide ChannelStep; }
    hide Step, ChannelStep, EndedBy, Told;
    StepEnds(s, a, c);
  }

  lemma StepEnds(s: State, a: Action, c: ChannelId)
    requires AboutOneChannel(a) && c in s.channels
    ensures Ended(s, ChannelStep(s, a), c, EndedBy(s, a, c))
  {
    hide ChannelStep, EndedBy, Ended;
    if a.DoOpen? || a.DoProxy? || a.DoAttach? { GrowingEndsNone(s, a, c); } else { ClosingEnds(s, a, c); }
  }

  lemma GrowingEndsNone(s: State, a: Action, c: ChannelId)
    requires (a.DoOpen? || a.DoProxy? || a.DoAttach?) && c in s.channels
    ensures Ended(s, ChannelStep(s, a), c, EndedBy(s, a, c))
  {
    hide OpenChannel, Proxy, Attach, Ended;
    match a {
      case DoOpen(p, b, draw, now) => if p in s.peers { OpeningKeepsChannels(s, p, b, draw, now, c); }
      case DoProxy(token, b, limited, draw, now) => ProxyKeepsChannels(s, token, b, limited, draw, now, c);
      case DoAttach(dial, socket) => AttachKeepsChannels(s, dial, socket, c);
    }
    StillThere(s, ChannelStep(s, a), c);
  }

  lemma ClosingEnds(s: State, a: Action, c: ChannelId)
    requires AboutOneChannel(a) && !a.DoOpen? && !a.DoProxy? && !a.DoAttach? && c in s.channels
    ensures Ended(s, ChannelStep(s, a), c, EndedBy(s, a, c))
  {
    hide RejectChannel, CloseChannel, PairingTimeout, LegClosed, HttpGone, Ended;
    StillThere(s, s, c);
    match a {
      case DoReject(p, d) => EndsOne(s, p, d, Closed, c);
      case DoClose(p, d) => EndsOne(s, p, d, Closed, c);
      case DoPairingTimeout(d, now) => EndsOne(s, 0, d, Closed, c);
      case DoLegClosed(d) => EndsOne(s, 0, d, Closed, c);
      case DoHttpGone(d, reason) => EndsOne(s, 0, d, reason, c);
    }
  }

  lemma StillThere(s: State, t: State, c: ChannelId)
    requires c in s.channels && c in t.channels
    ensures Ended(s, t, c, None)
  {
  }

  /** The channel is as it was, or it ended with this reason. */
  ghost predicate Ended(s: State, t: State, c: ChannelId, reason: Option<Reason>)
    requires c in s.channels
  {
    && (c in t.channels <==> reason == None)
    && (reason.Some? ==>
          && c in t.fates && t.fates[c] == Fate(s.channels[c], reason.value)
          && (forall k :: k in s.channels[c].tickets ==> k !in t.tickets)
          && (forall end: End :: Told(s, t, c, end, reason.value)))
  }

  lemma EndsOne(s: State, p: PeerId, d: ChannelId, reason: Reason, c: ChannelId)
    requires c in s.channels
    ensures Ended(s, RejectChannel(s, p, d), c,
                  if d == c && p == s.channels[c].backend then Some(Session.Rejected) else None)
    ensures Ended(s, CloseChannel(s, p, d), c,
                  if d == c && (Some(p) == s.channels[c].client || p == s.channels[c].backend) then Some(Closed)
                  else None)
    ensures Ended(s, PairingTimeout(s, d), c, if d == c && s.channels[c].armed then Some(TimedOut) else None)
    ensures Ended(s, LegClosed(s, d), c, if d == c && s.channels[c].wired then Some(Closed) else None)
    ensures Ended(s, HttpGone(s, d, reason), c, if d == c && s.channels[c].client == None then Some(reason) else None)
  {
    hide CloseChannels, Ended;
    StillThere(s, s, c);
    ClosesOne(s, d, Session.Rejected, c);
    ClosesOne(s, d, Closed, c);
    ClosesOne(s, d, TimedOut, c);
    ClosesOne(s, d, reason, c);
  }

  /** This end's peer, if connected, got exactly one notice more. */
  ghost predicate Told(s: State, t: State, c: ChannelId, end: End, reason: Reason)
    requires c in s.channels
  {
    var q := if end == ClientEnd then s.channels[c].client else Some(s.channels[c].backend);
    q.Some? ==>
      t.notices[Notice(q.value, c, end, reason)]
      == s.notices[Notice(q.value, c, end, reason)] + if q.value in s.peers && s.peers[q.value].open then 1 else 0
  }

  lemma ClosesOne(s: State, d: ChannelId, reason: Reason, c: ChannelId)
    requires c in s.channels
    ensures Ended(s, CloseChannels(s, {d}, reason), c, if c == d then Some(reason) else None)
  {
    var t := CloseChannels(s, {d}, reason);
    if c == d {
      forall end: End ensures Told(s, t, c, end, reason) {
        var q := s.channels[c].PeerAt(end);
        if q.Some? {
          assert Notice(q.value, c, end, reason) in Notices(s, {d}, reason) <==> Session.Open(s, q.value);
        }
      }
      assert forall k :: k in s.channels[c].tickets ==> k in TicketsOf(s, {d});
    }
  }

  lemma OpeningKeepsChannels(s: State, p: PeerId, b: BackendId, draw: ChannelDraw, now: int, c: ChannelId)
    requires p in s.peers && c in s.channels
    ensures c in OpenChannel(s, p, b, draw, now).channels
  {
    hide ChannelVerdict, Send, AddChannel, PeerReaches, ChannelsAt;
    match ChannelVerdict(s, p, b)
    case Refuse(code) => SendKeepsTables(s, p, Error(code));
    case Grant(epoch, holder) =>
      var t := AddChannel(s, b, Some(p), holder, epoch, draw, now);
      var offer := ChannelOffer(draw.channel, draw.backendTicket, Some(p));
      ChannelAdded(s, b, Some(p), holder, epoch, draw, now);
      SendKeepsTables(t, holder, offer);
      SendKeepsTables(Send(t, holder, offer), p, ChannelReady(draw.channel, draw.clientTicket));
  }

  lemma ProxyKeepsChannels(s: State, token: Token, b: BackendId, limited: bool, draw: ChannelDraw, now: int,
                           c: ChannelId)
    requires c in s.channels
    ensures c in Proxy(s, token, b, limited, draw, now).channels
  {
    hide FindValid, ProxyStatus, Send, AddChannel;
    var t := s.(store := FindValid(s.store, token, now));
    if ProxyStatus(s, token, b, limited, now) == 0 {
      StatusMeansLeased(s, token, b, limited, now);
      var lease := s.leases[b];
      ChannelAdded(t, b, None, lease.holder, lease.epoch, draw, now);
      SendKeepsTables(AddChannel(t, b, None, lease.holder, lease.epoch, draw, now), lease.holder,
                      ChannelOffer(draw.channel, draw.backendTicket, None));
    }
  }

  lemma AttachKeepsChannels(s: State, dial: Dial, socket: Socket, c: ChannelId)
    requires c in s.channels
    ensures c in Attach(s, dial, socket).channels
  {
    hide WithLeg;
    if dial in s.dials && dial.channel in s.channels {
      var ch := WithLeg(s.channels[dial.channel], dial.end, socket);
      assert Attach(s, dial, socket).channels == s.channels[dial.channel := ch];
    } else {
      assert Attach(s, dial, socket).channels == s.channels;
    }
  }

  // ---- Topics and directed messages ----------------------------------------

  /** An unsubscribe removes exactly this subscription. */
  lemma UnsubscribesExactly(s: State, p: PeerId, b: BackendId, topic: Topic)
    requires p in s.peers
    ensures var t := Step(s, DoUnsubscribe(p, b, topic));
      && t.subs.Keys == s.subs.Keys
      && forall d, k, q :: d in t.subs && k in t.subs[d] && q in t.subs[d][k] <==>
                             d in s.subs && k in s.subs[d] && q in s.subs[d][k] && (d, k, q) != (b, topic, p)
  {
    hide Step, Unsubscribe;
    UnsubscribedSubs(s, p, b, topic);
  }

  lemma UnsubscribedSubs(s: State, p: PeerId, b: BackendId, topic: Topic)
    requires p in s.peers
    ensures Step(s, DoUnsubscribe(p, b, topic)).subs
            == if b in s.subs && topic in s.subs[b] then s.subs[b := s.subs[b][topic := s.subs[b][topic] - {p}]]
               else s.subs
  {
    hide Send;
    var t := if b in s.subs && topic in s.subs[b]
             then s.(subs := s.subs[b := s.subs[b][topic := s.subs[b][topic] - {p}]]) else s;
    SendKeepsTables(t, p, Unsubscribed(b, topic));
    assert Step(s, DoUnsubscribe(p, b, topic)) == Send(t, p, Unsubscribed(b, topic));
  }

  /**
   A retained publication by the lease's holder replaces the topic's payload, if the topic has one or the backend
   retains fewer than 64; every other publication leaves what is retained alone.
   */
  lemma RetainsExactly(s: State, p: PeerId, topic: Topic, payload: Option<Payload>, retain: bool)
    requires Sound(s) && p in s.peers
    ensures var t := Step(s, DoPublish(p, topic, payload, retain));
      var topics := map b | b in s.leases && s.leases[b].holder == p ::
                      if b in s.retained then s.retained[b] else map[];
      && (forall b :: b in topics ==>
            (b in t.retained || topics[b] == map[])
            && (if b in t.retained then t.retained[b] else map[])
               == if retain && payload.Some? && (topic in topics[b] || |topics[b]| < 64)
                  then topics[b][topic := payload.value] else topics[b])
      && (forall b :: b in s.retained && b !in topics ==> b in t.retained && t.retained[b] == s.retained[b])
      && (forall b :: b in t.retained ==> b in s.retained || b in topics)
  {
    hide Sound, Step, Publish, IsOwner;
    HoldersClaim(s, p);
    PublishedTables(s, p, topic, payload, retain);
    if IsOwner(s, p) { OwnerHolds(s, p); }
  }

  lemma PublishedTables(s: State, p: PeerId, topic: Topic, payload: Option<Payload>, retain: bool)
    ensures var t := Step(s, DoPublish(p, topic, payload, retain));
      if !IsOwner(s, p) || !retain || payload == None then t.retained == s.retained
      else
        var b := s.peers[p].claim.value.backendId;
        var topics := if b in s.retained then s.retained[b] else map[];
        t.retained == s.retained[b := if topic in topics || |topics| < 64 then topics[topic := payload.value]
                                      else topics]
  {
    hide Step, Publish, Retain;
    PublishAs(s, p, topic, payload, retain);
    if IsOwner(s, p) && retain && payload.Some? { RetainIs(s, s.peers[p].claim.value, topic, payload.value); }
  }

  lemma PublishAs(s: State, p: PeerId, topic: Topic, payload: Option<Payload>, retain: bool)
    ensures var t := Step(s, DoPublish(p, topic, payload, retain));
      t.retained == if IsOwner(s, p) && retain && payload.Some?
                    then Retain(s, s.peers[p].claim.value, topic, payload.value).retained else s.retained
  {
    hide Deliveries, Retain;
  }

  lemma RetainIs(s: State, claim: Claim, topic: Topic, payload: Payload)
    ensures var topics := if claim.backendId in s.retained then s.retained[claim.backendId] else map[];
      Retain(s, claim, topic, payload).retained
      == s.retained[claim.backendId := if topic in topics || |topics| < 64 then topics[topic := payload] else topics]
  {
    var topics := TopicsOf(s.retained, claim.backendId);
    if topic in topics || |topics| < 64 {
      assert Retain(s, claim, topic, payload)
             == s.(retained := s.retained[claim.backendId := topics[topic := payload]],
                   published := s.published[(claim.backendId, topic) := (claim.epoch, payload)]);
    } else {
      assert Retain(s, claim, topic, payload) == s.(retained := s.retained[claim.backendId := topics]);
    }
  }

  /**
   A directed message is passed on exactly if its sender holds the lease of the backend it speaks for and the peer it
   names is there and has that backend in its namespace and, if scoped, in its scope; then that peer alone gets it, if
   it is still connected.
   */
  lemma RelaysExactly(s: State, p: PeerId, b: BackendId, target: Option<PeerId>, payload: Option<Payload>)
    requires Sound(s)
    ensures var t := Step(s, DoRelay(p, b, target, payload));
      var passed := && b in s.leases && s.leases[b].holder == p && target.Some? && target.value in s.peers
                    && b in s.registry && s.registry[b].namespace == s.peers[target.value].namespace
                    && (s.peers[target.value].scope == None || b in s.peers[target.value].scope.value);
      t == s.(sent := s.sent + if passed && s.peers[target.value].open
                               then multiset{Envelope(target.value, Relayed(b, payload))} else multiset{})
  {
    hide Sound, Step, Relay, IsOwner;
    HoldersClaim(s, p);
    RelayIs(s, p, b, target, payload);
    if IsOwner(s, p) {
      OwnerHolds(s, p);
      OwnerIsHeld(s, p);
    }
  }

  lemma RelayIs(s: State, p: PeerId, b: BackendId, target: Option<PeerId>, payload: Option<Payload>)
    ensures var t := Step(s, DoRelay(p, b, target, payload));
      var passed := && IsOwner(s, p) && s.peers[p].claim.value.backendId == b && target.Some? && target.value in s.peers
                    && s.peers[p].namespace == s.peers[target.value].namespace
                    && (s.peers[target.value].scope == None || b in s.peers[target.value].scope.value);
      t == s.(sent := s.sent + if passed && s.peers[target.value].open
                               then multiset{Envelope(target.value, Relayed(b, payload))} else multiset{})
  {
  }

  // ---- Proxied requests ----------------------------------------------------

  /**
   A proxied request is answered 401 without a row in force, 429 beyond the rate, 502 unless the backend is registered
   in the credential's namespace and scope, 429 beyond the cap on the holder's channels, and is let through otherwise.
   */
  lemma ProxyStatusesAre(s: State, token: Token, b: BackendId, limited: bool, now: int) returns (id: CredentialId)
    requires Sound(s)
    ensures (exists k :: InForce(s.store, k, now) && s.store.credentials[k].token == token) ==>
              InForce(s.store, id, now) && s.store.credentials[id].token == token
    ensures var known := InForce(s.store, id, now) && s.store.credentials[id].token == token;
      var reach := && known && b in s.registry && s.registry[b].namespace == s.store.credentials[id].namespace
                   && (s.store.credentials[id].scope == None || b in s.store.credentials[id].scope.value);
      && (reach ==> b in s.leases)
      && ProxyStatus(s, token, b, limited, now)
         == (if !known then 401 else if limited then 429 else if !reach then 502
             else if |set c | c in s.channels && (s.channels[c].client == Some(s.leases[b].holder)
                                                  || s.channels[c].backend == s.leases[b].holder)|
                     >= s.config.maxChannels then 429
             else 0)
  {
    hide Sound, ProxyStatus, Resolve, InForce;
    PeersWereUsed(s);
    InvTokensUnique(s.store);
    ResolvedIs(s.store, token, now);
    UniqueToken(s.store, token, now);
    if b in s.registry { LeasedIsHeld(s, b); }
    id := if Resolve(s.store, token, now).Some? then Resolve(s.store, token, now).value else 0;
    ProxyStatusIs(s, token, b, limited, now);
    if b in s.leases { ChannelsOfPeer(s, s.leases[b].holder); }
  }

  lemma ProxyStatusIs(s: State, token: Token, b: BackendId, limited: bool, now: int)
    ensures var id, status := Resolve(s.store, token, now), ProxyStatus(s, token, b, limited, now);
      if id.None? then status == 401
      else if limited then status == 429
      else if !(b in s.leases && b in s.registry && s.leases[b].holder in s.peers
                && s.registry[b].namespace == s.store.credentials[id.value].namespace
                && (s.store.credentials[id.value].scope == None || b in s.store.credentials[id.value].scope.value))
      then status == 502
      else status == if |ChannelsAt(s, s.leases[b].holder)| >= s.config.maxChannels then 429 else 0
  {
    hide Resolve, ChannelsAt;
  }

  /**
   Exactly a request that is let through opens an internal channel, to the lease's holder, with one ticket, its own.
   */
  lemma ProxiesExactly(s: State, token: Token, b: BackendId, limited: bool, draw: ChannelDraw, now: int)
    requires draw.channel !in s.channels
    ensures var t, status := Step(s, DoProxy(token, b, limited, draw, now)), ProxyStatus(s, token, b, limited, now);
      && (draw.channel in t.channels <==> status == 0)
      && (status == 0 ==>
            && b in s.leases
            && t.channels[draw.channel] == Channel(b, s.leases[b].epoch, None, s.leases[b].holder, None, None, false,
                                                   true, {draw.backendTicket}, now + s.config.ticketTtl)
            && t.tickets == s.tickets[draw.backendTicket :=
                                      Ticket(draw.channel, BackendEnd, now + s.config.ticketTtl)])
      && (status != 0 ==> t.channels == s.channels && t.tickets == s.tickets && t.sent == s.sent)
  {
    hide FindValid, ProxyStatus, Send, AddChannel;
    var t := s.(store := FindValid(s.store, token, now));
    if ProxyStatus(s, token, b, limited, now) == 0 {
      StatusMeansLeased(s, token, b, limited, now);
      var lease := s.leases[b];
      var u, offer := AddChannel(t, b, None, lease.holder, lease.epoch, draw, now),
          ChannelOffer(draw.channel, draw.backendTicket, None);
      ChannelAdded(t, b, None, lease.holder, lease.epoch, draw, now);
      SendKeepsTables(u, lease.holder, offer);
      SendKeepsTickets(u, lease.holder, offer);
    }
  }
}
