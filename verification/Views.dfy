/** What each peer gets to see: snapshots, discovery, and that nothing beyond a peer's reach influences an answer. */
module Views {
  import opened Basics
  import opened CredentialStore
  import opened Session
  import opened SessionProofs

  // ---- The memo key of the broadcast ---------------------------------------

  const UNIT_SEPARATOR: char := '\U{1F}'

  function Join(ids: seq<string>): string {
    if ids == [] then "" else if |ids| == 1 then ids[0] else ids[0] + "," + Join(ids[1..])
  }

  function ScopeKey(namespace: Namespace, scope: Option<seq<BackendId>>): string {
    namespace + [UNIT_SEPARATOR] + if scope.Some? then Join(scope.value) else "*"
  }

  predicate CleanId(id: string) { id != "" && id != "*" && ',' !in id }

  /** Generated ids and separator-free namespaces, which is what the key relies on. */
  predicate CleanView(namespace: Namespace, scope: Option<seq<BackendId>>) {
    UNIT_SEPARATOR !in namespace && (scope.Some? ==> forall id :: id in scope.value ==> CleanId(id))
  }

  lemma {:induction false} SplitUnique(c: char, a: string, b: string, x: string, y: string)
    requires c !in a && c !in b && a + [c] + x == b + [c] + y
    ensures a == b && x == y
  {
    var s := a + [c] + x;
    assert forall i :: 0 <= i < |a| ==> s[i] == a[i] && a[i] != c;
    assert forall i :: 0 <= i < |b| ==> s[i] == b[i] && b[i] != c;
    assert s[|a|] == c && s[|b|] == c;
    assert a == s[..|a|] == b;
    assert x == s[|a| + 1..] == y;
  }

  lemma {:induction false} JoinInjective(xs: seq<string>, ys: seq<string>)
    requires (forall x :: x in xs ==> CleanId(x)) && (forall y :: y in ys ==> CleanId(y)) && Join(xs) == Join(ys)
    ensures xs == ys
    decreases |xs|
  {
    JoinCommas(xs);
    JoinCommas(ys);
    if |xs| >= 2 && |ys| >= 2 {
      assert xs[0] in xs && ys[0] in ys;
      assert xs[0] + [','] + Join(xs[1..]) == ys[0] + [','] + Join(ys[1..]);
      SplitUnique(',', xs[0], ys[0], Join(xs[1..]), Join(ys[1..]));
      JoinInjective(xs[1..], ys[1..]);
      assert xs == [xs[0]] + xs[1..] && ys == [ys[0]] + ys[1..];
    }
  }

  lemma {:induction false} JoinCommas(ids: seq<string>)
    requires forall id :: id in ids ==> CleanId(id)
    ensures ids == [] <==> Join(ids) == ""
    ensures |ids| >= 2 <==> ',' in Join(ids)
    ensures Join(ids) != "*"
  {
    if ids == [] {
    } else if |ids| == 1 {
      assert ids[0] in ids;
    } else {
      assert Join(ids)[|ids[0]|] == ',';
      assert "*"[0] != ',' && ',' !in "*";
    }
  }

  /** Two peers share a memoised snapshot only if they have the same namespace and the same scope. */
  lemma ScopeKeyInjective(n: Namespace, xs: Option<seq<BackendId>>, m: Namespace, ys: Option<seq<BackendId>>)
    requires CleanView(n, xs) && CleanView(m, ys) && ScopeKey(n, xs) == ScopeKey(m, ys)
    ensures n == m && xs == ys
  {
    SplitUnique(UNIT_SEPARATOR, n, m, if xs.Some? then Join(xs.value) else "*",
                if ys.Some? then Join(ys.value) else "*");
    if xs.Some? { JoinCommas(xs.value); }
    if ys.Some? { JoinCommas(ys.value); }
    if xs.Some? && ys.Some? { JoinInjective(xs.value, ys.value); }
  }

  /**
   Cleanliness is needed: a backend called "*", or one with a comma in its name, would share a key with another scope.
   */
  lemma UncleanIdsWouldCollide(namespace: Namespace)
    ensures ScopeKey(namespace, Some(["*"])) == ScopeKey(namespace, None)
    ensures ScopeKey(namespace, Some(["a,b"])) == ScopeKey(namespace, Some(["a", "b"]))
  {
    assert ["a", "b"][1..] == ["b"];
    assert Join(["a", "b"]) == "a" + "," + Join(["b"]) == "a,b";
  }

  // ---- Discovery -----------------------------------------------------------

  datatype Listing = Listing(backendId: BackendId, online: bool, lastSeenAt: Option<int>)

  function Describe(identity: Identity, registry: Registry): Listing {
    if identity.backendId in registry
    then Listing(identity.backendId, true, Some(registry[identity.backendId].lastSeenAt))
    else Listing(identity.backendId, false, identity.lastSeenAt)
  }

  function Addressable(rows: seq<Identity>, registry: Registry, namespace: Namespace,
                       scope: Option<seq<BackendId>>): seq<Listing>
  {
    if rows == [] then []
    else (if CanReach(namespace, scope, rows[0].namespace, rows[0].backendId) then [Describe(rows[0], registry)]
          else [])
         + Addressable(rows[1..], registry, namespace, scope)
  }

  /** The comparator: online first, then most recently seen; never seen counts as 0. */
  predicate NotAfter(a: Listing, b: Listing) {
    if a.online != b.online then a.online
    else (if a.lastSeenAt.Some? then a.lastSeenAt.value else 0)
         >= (if b.lastSeenAt.Some? then b.lastSeenAt.value else 0)
  }

  function Insert(item: Listing, sorted: seq<Listing>): seq<Listing> {
    if sorted == [] then [item]
    else if NotAfter(item, sorted[0]) then [item] + sorted
    else [sorted[0]] + Insert(item, sorted[1..])
  }

  function Sorted(items: seq<Listing>): seq<Listing> {
    if items == [] then [] else Insert(items[0], Sorted(items[1..]))
  }

  function Discover(rows: seq<Identity>, registry: Registry, namespace: Namespace,
                    scope: Option<seq<BackendId>>): seq<Listing>
  {
    Sorted(Addressable(rows, registry, namespace, scope))
  }

  predicate Ordered(items: seq<Listing>) {
    forall i, j :: 0 <= i < j < |items| ==> NotAfter(items[i], items[j])
  }

  lemma {:induction false} InsertPermutes(item: Listing, sorted: seq<Listing>)
    ensures multiset(Insert(item, sorted)) == multiset{item} + multiset(sorted)
  {
    if sorted != [] {
      assert sorted == [sorted[0]] + sorted[1..];
      InsertPermutes(item, sorted[1..]);
    }
  }

  lemma ConsOrdered(first: Listing, rest: seq<Listing>)
    requires Ordered(rest) && forall l :: l in rest ==> NotAfter(first, l)
    ensures Ordered([first] + rest)
  {
    hide NotAfter;
    var all := [first] + rest;
    forall i, j | 0 <= i < j < |all| ensures NotAfter(all[i], all[j]) {
      assert all[j] == rest[j - 1] && rest[j - 1] in rest;
      assert i > 0 ==> all[i] == rest[i - 1];
    }
  }

  lemma {:induction false} InsertOrders(item: Listing, sorted: seq<Listing>)
    requires Ordered(sorted)
    ensures Ordered(Insert(item, sorted))
  {
    if sorted == [] {
    } else if NotAfter(item, sorted[0]) {
      ConsOrdered(item, sorted);
    } else {
      InsertOrders(item, sorted[1..]);
      var rest := Insert(item, sorted[1..]);
      InsertPermutes(item, sorted[1..]);
      forall l | l in rest ensures NotAfter(sorted[0], l) {
        assert l in multiset(rest);
        assert l == item || l in sorted[1..];
      }
      ConsOrdered(sorted[0], rest);
    }
  }

  lemma {:induction false} SortedKeeps(items: seq<Listing>)
    ensures multiset(Sorted(items)) == multiset(items) && Ordered(Sorted(items))
  {
    if items != [] {
      SortedKeeps(items[1..]);
      InsertPermutes(items[0], Sorted(items[1..]));
      InsertOrders(items[0], Sorted(items[1..]));
      assert items == [items[0]] + items[1..];
    }
  }

  lemma {:induction false} AddressableHolds(rows: seq<Identity>, registry: Registry, namespace: Namespace,
                                            scope: Option<seq<BackendId>>, l: Listing)
    ensures l in Addressable(rows, registry, namespace, scope) <==>
              exists r :: r in rows && CanReach(namespace, scope, r.namespace, r.backendId)
                && l == Describe(r, registry)
  {
    if rows != [] {
      AddressableHolds(rows[1..], registry, namespace, scope, l);
      assert rows == [rows[0]] + rows[1..];
    }
  }

  /** The rows are the store's identities, each once. */
  ghost predicate ListsIdentities(rows: seq<Identity>, store: Store) {
    && (forall r :: r in rows <==> exists key :: key in store.identities && store.identities[key] == r)
    && NoDuplicates(rows)
  }

  /** Every registered backend has an identity in the presence's namespace, and ids are not shared. */
  ghost predicate Backed(registry: Registry, store: Store) {
    IdentitiesUnique(store) && forall b :: b in registry ==> Known(store, b, registry[b].namespace)
  }

  lemma SoundIsBacked(s: State)
    requires Sound(s)
    ensures Backed(s.registry, s.store)
  {
    forall b | b in s.registry ensures Known(s.store, b, s.registry[b].namespace) {
      assert Held(s, b);
      hide Sound, Held, Known;
    }
  }

  lemma BackedRow(registry: Registry, store: Store, rows: seq<Identity>, b: BackendId) returns (row: Identity)
    requires Backed(registry, store) && ListsIdentities(rows, store) && b in registry
    ensures row in rows && row.backendId == b && row.namespace == registry[b].namespace
    ensures forall r :: r in rows && r.backendId == b ==> r == row
  {
    var key :| NamedBy(store, key, b) && store.identities[key].namespace == registry[b].namespace;
    row := store.identities[key];
    forall r | r in rows && r.backendId == b ensures r == row {
      var other :| other in store.identities && store.identities[other] == r;
      assert NamedBy(store, other, b);
    }
  }

  lemma OnlineIsVisible(registry: Registry, store: Store, rows: seq<Identity>, namespace: Namespace,
                        scope: Option<seq<BackendId>>, b: BackendId)
    requires Backed(registry, store) && ListsIdentities(rows, store)
    ensures (exists l :: l in Addressable(rows, registry, namespace, scope) && l.online && l.backendId == b)
            <==> b in Visible(registry, namespace, scope)
  {
    hide Backed, ListsIdentities, Addressable;
    var listed := Addressable(rows, registry, namespace, scope);
    if b in registry {
      var row := BackedRow(registry, store, rows, b);
      AddressableHolds(rows, registry, namespace, scope, Describe(row, registry));
      if l :| l in listed && l.online && l.backendId == b {
        AddressableHolds(rows, registry, namespace, scope, l);
        var r :| r in rows && CanReach(namespace, scope, r.namespace, r.backendId) && l == Describe(r, registry);
        assert r == row;
      }
    } else {
      forall l | l in listed && l.online ensures l.backendId != b {
        AddressableHolds(rows, registry, namespace, scope, l);
      }
    }
  }

  lemma SortedMembers(items: seq<Listing>, l: Listing)
    ensures l in Sorted(items) <==> l in items
  {
    hide Sorted, NotAfter;
    SortedKeeps(items);
    assert l in multiset(Sorted(items)) <==> l in multiset(items);
  }

  /**
   What discovery lists as online is exactly the registry a peer with that credential sees: the same backends,
   with the presence's last-seen time.
   */
  lemma DiscoveryAgreesWithRegistry(s: State, rows: seq<Identity>, namespace: Namespace, scope: Option<seq<BackendId>>,
                                    b: BackendId)
    requires Sound(s) && ListsIdentities(rows, s.store)
    ensures (exists l :: l in Discover(rows, s.registry, namespace, scope) && l.online && l.backendId == b)
            <==> b in s.registry && s.registry[b].namespace == namespace && (scope == None || b in scope.value)
    ensures forall l :: l in Discover(rows, s.registry, namespace, scope) && l.online ==>
              l.backendId in s.registry && l.lastSeenAt == Some(s.registry[l.backendId].lastSeenAt)
  {
    SoundIsBacked(s);
    hide Sound, Backed, ListsIdentities, Addressable, Sorted, Describe;
    assert b in Visible(s.registry, namespace, scope) <==>
           b in s.registry && s.registry[b].namespace == namespace && (scope == None || b in scope.value);
    hide Visible;
    var listed := Addressable(rows, s.registry, namespace, scope);
    OnlineIsVisible(s.registry, s.store, rows, namespace, scope, b);
    forall l ensures l in Discover(rows, s.registry, namespace, scope) <==> l in listed { SortedMembers(listed, l); }
    forall l | l in listed && l.online
      ensures l.backendId in s.registry && l.lastSeenAt == Some(s.registry[l.backendId].lastSeenAt)
    {
      OnlineEntry(rows, s.registry, namespace, scope, l);
    }
  }

  lemma OnlineEntry(rows: seq<Identity>, registry: Registry, namespace: Namespace, scope: Option<seq<BackendId>>,
                    l: Listing)
    requires l in Addressable(rows, registry, namespace, scope) && l.online
    ensures l.backendId in registry && l.lastSeenAt == Some(registry[l.backendId].lastSeenAt)
  {
    AddressableHolds(rows, registry, namespace, scope, l);
  }

  /**
   The list is online first, most recently seen first within each part, and holds exactly the identities within
   the credential's reach, each as often as it has a row.
   */
  lemma DiscoveryListsWhatIsInReach(rows: seq<Identity>, registry: Registry, namespace: Namespace,
                                    scope: Option<seq<BackendId>>)
    ensures var found := Discover(rows, registry, namespace, scope);
      && (forall i, j :: 0 <= i < j < |found| && found[j].online ==> found[i].online)
      && (forall i, j :: 0 <= i < j < |found| && found[i].online == found[j].online ==>
            (if found[i].lastSeenAt.Some? then found[i].lastSeenAt.value else 0)
            >= (if found[j].lastSeenAt.Some? then found[j].lastSeenAt.value else 0))
      && multiset(found) == multiset(Addressable(rows, registry, namespace, scope))
      && (forall l :: l in found <==>
            exists r :: r in rows && r.namespace == namespace && (scope == None || r.backendId in scope.value)
              && l.backendId == r.backendId && l.online == (r.backendId in registry)
              && l.lastSeenAt == if l.online then Some(registry[r.backendId].lastSeenAt) else r.lastSeenAt)
  {
    hide Sorted, Addressable;
    var listed := Addressable(rows, registry, namespace, scope);
    SortedKeeps(listed);
    forall l
      ensures l in Sorted(listed) <==>
                exists r :: r in rows && r.namespace == namespace && (scope == None || r.backendId in scope.value)
                  && l.backendId == r.backendId && l.online == (r.backendId in registry)
                  && l.lastSeenAt == if l.online then Some(registry[r.backendId].lastSeenAt) else r.lastSeenAt
    {
      SortedMembers(listed, l);
      AddressableHolds(rows, registry, namespace, scope, l);
    }
  }

  // ---- Nothing beyond reach shows ------------------------------------------

  /** The two states agree on what the peer is and on the backends it may reach. */
  ghost predicate SameSlice(s: State, t: State, p: PeerId) {
    && p in s.peers && p in t.peers && s.peers[p] == t.peers[p]
    && s.config == t.config && |ChannelsAt(s, p)| == |ChannelsAt(t, p)|
    && (forall b :: PeerReaches(s, p, b) <==> PeerReaches(t, p, b))
    && (forall b :: PeerReaches(s, p, b) ==>
          s.registry[b] == t.registry[b] && TopicsOf(s.retained, b) == TopicsOf(t.retained, b))
    && (forall b :: PeerReaches(s, p, b) && b in s.leases && b in t.leases ==> SameLease(s.leases[b], t.leases[b]))
  }

  predicate SameLease(a: Lease, b: Lease) { a.epoch == b.epoch && a.holder == b.holder }

  function OpenReply(s: State, p: PeerId, target: BackendId, draw: ChannelDraw): Message
    requires p in s.peers
  {
    match ChannelVerdict(s, p, target)
    case Refuse(code) => Error(code)
    case Grant(_, _) => ChannelReady(draw.channel, draw.clientTicket)
  }

  function SubscribeReply(s: State, p: PeerId, b: BackendId, topic: Topic): seq<Message>
    requires p in s.peers
  {
    if !PeerReaches(s, p, b) then [Error(Offline)]
    else [Subscribed(b, topic)]
         + if topic in TopicsOf(s.retained, b) then [TopicMessage(b, topic, Some(TopicsOf(s.retained, b)[topic]))]
           else []
  }

  lemma SendAdds(s: State, p: PeerId, msg: Message)
    ensures Send(s, p, msg).peers == s.peers && Send(s, p, msg).retained == s.retained
    ensures Send(s, p, msg).sent == s.sent + if Open(s, p) then multiset{Envelope(p, msg)} else multiset{}
  {
  }

  lemma AddChannelIsSilent(s: State, target: BackendId, client: Option<PeerId>, holder: PeerId, epoch: nat,
                           draw: ChannelDraw, now: int)
    ensures var t := AddChannel(s, target, client, holder, epoch, draw, now); t.peers == s.peers && t.sent == s.sent
  {
  }

  /**
   Exactly one answer goes back to an open peer, and the backend's holder is offered the channel when it is granted.
   */
  lemma OpenAnswersOnce(s: State, p: PeerId, target: BackendId, draw: ChannelDraw, now: int)
    requires Open(s, p)
    ensures var verdict, t := ChannelVerdict(s, p, target), OpenChannel(s, p, target, draw, now);
      var offered := verdict.Grant? && Open(s, verdict.holder);
      t.sent == s.sent
                + (if offered
                   then multiset{Envelope(verdict.holder, ChannelOffer(draw.channel, draw.backendTicket, Some(p)))}
                   else multiset{})
                + multiset{Envelope(p, OpenReply(s, p, target, draw))}
  {
    hide ChannelVerdict, Send, AddChannel;
    match ChannelVerdict(s, p, target)
    case Refuse(code) => SendAdds(s, p, Error(code));
    case Grant(epoch, holder) =>
      var t := AddChannel(s, target, Some(p), holder, epoch, draw, now);
      AddChannelIsSilent(s, target, Some(p), holder, epoch, draw, now);
      var offer := ChannelOffer(draw.channel, draw.backendTicket, Some(p));
      SendAdds(t, holder, offer);
      SendAdds(Send(t, holder, offer), p, ChannelReady(draw.channel, draw.clientTicket));
  }

  /** A subscribe is answered once, by the acknowledgement or by an error, plus the retained payload if there is one. */
  lemma SubscribeAnswersOnce(s: State, p: PeerId, b: BackendId, topic: Topic)
    requires Open(s, p)
    ensures var t, reply := Subscribe(s, p, b, topic), SubscribeReply(s, p, b, topic);
      t.sent == s.sent + multiset{Envelope(p, reply[0])}
        + (if |reply| == 2 then multiset{Envelope(p, reply[1])} else multiset{})
  {
    hide SubscribersOf, PeerReaches, Send;
    if PeerReaches(s, p, b) {
      var t := s.(subs := s.subs[b := TopicsOf(s.subs, b)[topic := SubscribersOf(s, b, topic) + {p}]]);
      SendAdds(t, p, Subscribed(b, topic));
      if topic in TopicsOf(s.retained, b) {
        SendAdds(Send(t, p, Subscribed(b, topic)), p, TopicMessage(b, topic, Some(s.retained[b][topic])));
      } else {
      }
    } else {
      SendAdds(s, p, Error(Offline));
    }
  }

  lemma RetainedIsCurrent(s: State, b: BackendId, topic: Topic)
    requires Sound(s) && b in s.registry
    ensures b in s.leases && Stored(s, b, topic) == CurrentPublication(s, b, topic, s.leases[b].epoch)
  {
    assert s.leases.Keys == s.registry.Keys;
    assert Retained(s);
    hide Coherent;
  }

  /** A late subscriber is told the last retained payload accepted in the current epoch, if there is one. */
  lemma LateSubscriberGetsTheCurrentPayload(s: State, p: PeerId, b: BackendId, topic: Topic)
    requires Sound(s) && Open(s, p) && PeerReaches(s, p, b)
    ensures b in s.leases
    ensures var current := CurrentPublication(s, b, topic, s.leases[b].epoch);
      Subscribe(s, p, b, topic).sent
      == s.sent + multiset{Envelope(p, Subscribed(b, topic))}
         + if current.Some? then multiset{Envelope(p, TopicMessage(b, topic, current))} else multiset{}
  {
    hide Sound, CurrentPublication, Subscribe;
    RetainedIsCurrent(s, b, topic);
    SubscribeAnswersOnce(s, p, b, topic);
  }

  lemma UnsubscribeAnswersOnce(s: State, p: PeerId, b: BackendId, topic: Topic)
    requires Open(s, p)
    ensures Unsubscribe(s, p, b, topic).sent == s.sent + multiset{Envelope(p, Unsubscribed(b, topic))}
  {
    hide Send;
    var u := if b in s.subs && topic in s.subs[b]
             then s.(subs := s.subs[b := s.subs[b][topic := s.subs[b][topic] - {p}]]) else s;
    SendAdds(u, p, Unsubscribed(b, topic));
  }

  /**
   A peer's answers depend only on its slice: whatever else differs between two reachable states, the replies
   are the same - so a backend beyond reach cannot be told from one that does not exist.
   */
  lemma AnswersDependOnSlice(s: State, t: State, p: PeerId, b: BackendId, topic: Topic, draw: ChannelDraw)
    requires Sound(s) && Sound(t) && SameSlice(s, t, p)
    ensures OpenReply(s, p, b, draw) == OpenReply(t, p, b, draw)
    ensures SubscribeReply(s, p, b, topic) == SubscribeReply(t, p, b, topic)
    ensures Visible(s.registry, s.peers[p].namespace, s.peers[p].scope)
            == Visible(t.registry, t.peers[p].namespace, t.peers[p].scope)
    ensures !(b in s.registry && s.registry[b].namespace == s.peers[p].namespace
              && (s.peers[p].scope == None || b in s.peers[p].scope.value)) ==>
              OpenReply(s, p, b, draw) == Error(Offline) && SubscribeReply(s, p, b, topic) == [Error(Offline)]
  {
    hide Sound;
    SameVerdict(s, t, p, b);
    SameView(s, t, p);
    hide ChannelVerdict, Visible;
    assert PeerReaches(s, p, b) <==> PeerReaches(t, p, b);
    hide PeerReaches;
    if PeerReaches(s, p, b) {
      assert TopicsOf(s.retained, b) == TopicsOf(t.retained, b);
    } else {
    }
  }

  lemma SameVerdict(s: State, t: State, p: PeerId, b: BackendId)
    requires Sound(s) && Sound(t) && SameSlice(s, t, p)
    ensures ChannelVerdict(s, p, b).Refuse? <==> ChannelVerdict(t, p, b).Refuse?
    ensures ChannelVerdict(s, p, b).Refuse? ==> ChannelVerdict(s, p, b) == ChannelVerdict(t, p, b)
    ensures !PeerReaches(s, p, b) ==> ChannelVerdict(s, p, b) == Refuse(Offline)
  {
    hide Sound, SameSlice, ChannelsAt, PeerReaches, ChannelVerdict;
    SliceAt(s, t, p, b);
    VerdictOf(s, p, b);
    VerdictOf(t, p, b);
  }

  /** With the invariant, the checks on registry, lease and holder are all implied by reach. */
  lemma VerdictOf(s: State, p: PeerId, b: BackendId)
    requires Sound(s) && p in s.peers
    ensures ChannelVerdict(s, p, b) ==
              if !PeerReaches(s, p, b) then Refuse(Offline)
              else if |ChannelsAt(s, p)| >= s.config.maxChannels then Refuse(RateLimited)
              else ChannelVerdict(s, p, b)
    ensures PeerReaches(s, p, b) && |ChannelsAt(s, p)| < s.config.maxChannels ==> ChannelVerdict(s, p, b).Grant?
  {
    hide Sound, ChannelsAt, CanReach;
    if b in s.registry { LeasedIsHeld(s, b); }
  }

  lemma SliceAt(s: State, t: State, p: PeerId, b: BackendId)
    requires SameSlice(s, t, p)
    ensures p in s.peers && p in t.peers
    ensures PeerReaches(s, p, b) <==> PeerReaches(t, p, b)
    ensures |ChannelsAt(s, p)| == |ChannelsAt(t, p)| && s.config == t.config
  {
  }

  lemma LeasedIsHeld(s: State, b: BackendId)
    requires Sound(s) && b in s.registry
    ensures b in s.leases && s.leases[b].holder in s.peers
  {
    assert Held(s, b);
    hide Sound;
  }

  lemma SameView(s: State, t: State, p: PeerId)
    requires SameSlice(s, t, p)
    ensures Visible(s.registry, s.peers[p].namespace, s.peers[p].scope)
            == Visible(t.registry, t.peers[p].namespace, t.peers[p].scope)
  {
    var peer := s.peers[p];
    var v, w := Visible(s.registry, peer.namespace, peer.scope), Visible(t.registry, peer.namespace, peer.scope);
    assert forall x :: x in v <==> PeerReaches(s, p, x);
    assert forall x :: x in w <==> PeerReaches(t, p, x);
    assert v.Keys == w.Keys;
  }

  /** Discovery too: identities and presences beyond the credential's reach leave the list unchanged. */
  lemma {:induction false} DiscoveryDependsOnSlice(xs: seq<Identity>, ys: seq<Identity>, a: Registry, b: Registry,
                                                   namespace: Namespace, scope: Option<seq<BackendId>>)
    requires InReach(xs, namespace, scope) == InReach(ys, namespace, scope)
    requires forall r :: r in xs && CanReach(namespace, scope, r.namespace, r.backendId) ==>
             Describe(r, a) == Describe(r, b)
    ensures Discover(xs, a, namespace, scope) == Discover(ys, b, namespace, scope)
  {
    AddressableOfReach(xs, a, namespace, scope);
    AddressableOfReach(ys, b, namespace, scope);
    InReachMembers(xs, namespace, scope);
    SameDescriptions(InReach(xs, namespace, scope), a, b, namespace, scope);
  }

  function InReach(rows: seq<Identity>, namespace: Namespace, scope: Option<seq<BackendId>>): seq<Identity> {
    if rows == [] then []
    else
      var first := if CanReach(namespace, scope, rows[0].namespace, rows[0].backendId) then [rows[0]] else [];
      first + InReach(rows[1..], namespace, scope)
  }

  lemma {:induction false} InReachMembers(rows: seq<Identity>, namespace: Namespace, scope: Option<seq<BackendId>>)
    ensures forall r :: r in InReach(rows, namespace, scope) ==>
              r in rows && CanReach(namespace, scope, r.namespace, r.backendId)
  {
    if rows != [] { InReachMembers(rows[1..], namespace, scope); }
  }

  lemma {:induction false} AddressableOfReach(rows: seq<Identity>, registry: Registry, namespace: Namespace,
                                              scope: Option<seq<BackendId>>)
    ensures Addressable(rows, registry, namespace, scope)
            == Addressable(InReach(rows, namespace, scope), registry, namespace, scope)
  {
    if rows != [] {
      AddressableOfReach(rows[1..], registry, namespace, scope);
      var rest := InReach(rows[1..], namespace, scope);
      if CanReach(namespace, scope, rows[0].namespace, rows[0].backendId) {
        assert InReach(rows, namespace, scope) == [rows[0]] + rest && ([rows[0]] + rest)[1..] == rest;
      } else {
        assert InReach(rows, namespace, scope) == rest;
      }
    }
  }

  lemma {:induction false} SameDescriptions(rows: seq<Identity>, a: Registry, b: Registry, namespace: Namespace,
                                            scope: Option<seq<BackendId>>)
    requires forall r :: r in rows ==> Describe(r, a) == Describe(r, b)
    ensures Addressable(rows, a, namespace, scope) == Addressable(rows, b, namespace, scope)
  {
    if rows != [] { SameDescriptions(rows[1..], a, b, namespace, scope); }
  }
}
