/** What the store keeps over every run. */
module StoreProofs {
  import opened Basics
  import opened CredentialStore

  // ---- Each operation keeps the invariant ----------------------------------

  /** What a new credential asks of the store it goes into. */
  ghost predicate Creatable(s: Store, kind: Kind, namespace: Namespace, parent: Option<CredentialId>,
                            backendId: Option<BackendId>)
  {
    && (kind == Access <==> parent.Some?)
    && (parent.Some? ==>
          && parent.value in s.credentials && s.credentials[parent.value].kind == Enrollment
          && s.credentials[parent.value].Active()
          && s.credentials[parent.value].namespace == namespace && s.credentials[parent.value].backendId == backendId
          && AccessOf(s, parent.value).None?)
    && (kind == Enrollment && backendId.Some? ==> Known(s, backendId.value, namespace))
  }

  lemma CreateCredentialRows(s: Store, t: Store, kind: Kind, namespace: Namespace, ttl: Ttl,
                             parent: Option<CredentialId>,
                             backendId: Option<BackendId>, scope: Option<seq<BackendId>>, draw: Draw, now: int)
    requires Inv(s) && FreshDraw(s, draw) && Creatable(s, kind, namespace, parent, backendId)
    requires t == CreateCredential(s, kind, namespace, ttl, parent, backendId, scope, draw, now)
    ensures TokensUnique(t) && OneAccessRow(t) && Shaped(t) && ParentsLive(t)
  {
    assert forall id :: id in s.credentials ==> id != draw.id && t.credentials[id] == s.credentials[id];
    forall i, j, p | AccessRow(t, i, p) && AccessRow(t, j, p) ensures i == j {
      assert i != draw.id ==> AccessRow(s, i, p);
      assert j != draw.id ==> AccessRow(s, j, p);
    }
  }

  lemma CreateCredentialKeepsInv(s: Store, kind: Kind, namespace: Namespace, ttl: Ttl, parent: Option<CredentialId>,
                                 backendId: Option<BackendId>, scope: Option<seq<BackendId>>, draw: Draw, now: int)
    requires Inv(s) && FreshDraw(s, draw) && Creatable(s, kind, namespace, parent, backendId)
    ensures Inv(CreateCredential(s, kind, namespace, ttl, parent, backendId, scope, draw, now))
  {
    var t := CreateCredential(s, kind, namespace, ttl, parent, backendId, scope, draw, now);
    CreateCredentialRows(s, t, kind, namespace, ttl, parent, backendId, scope, draw, now);
    forall b, n | Known(s, b, n) ensures Known(t, b, n) {
      var key :| NamedBy(s, key, b) && s.identities[key].namespace == n;
      assert NamedBy(t, key, b);
    }
    forall id | id in t.credentials && t.credentials[id].Active() && t.credentials[id].backendId.Some?
      ensures Known(t, t.credentials[id].backendId.value, t.credentials[id].namespace)
    {
      if id != draw.id {
        assert t.credentials[id] == s.credentials[id];
      } else if kind == Enrollment && backendId.None? {
        assert NamedBy(t, Bound(draw.backendId), draw.backendId);
      }
    }
  }

  lemma RotateKeepsInv(s: Store, parent: CredentialId, row: CredentialId, ttl: Ttl, draw: Draw, now: int)
    requires Inv(s) && FreshDraw(s, draw)
    requires parent in s.credentials && s.credentials[parent].kind == Enrollment && s.credentials[parent].Active()
    requires AccessOf(s, parent) == Some(row)
    ensures Inv(ExchangeAccess(s, parent, ttl, draw, now))
  {
    var t := ExchangeAccess(s, parent, ttl, draw, now);
    SameIdentitiesSameKnown(s, t);
    forall i, j, p | AccessRow(t, i, p) && AccessRow(t, j, p) ensures i == j {
      assert AccessRow(s, i, p) && AccessRow(s, j, p);
    }
  }

  lemma SameIdentitiesSameKnown(s: Store, t: Store)
    requires s.identities == t.identities
    ensures forall b, n :: Known(s, b, n) <==> Known(t, b, n)
  {
    forall b, n ensures Known(s, b, n) <==> Known(t, b, n) {
      assert forall key :: NamedBy(s, key, b) <==> NamedBy(t, key, b);
    }
  }

  lemma FindValidKeepsInv(s: Store, token: Token, now: int)
    requires Inv(s)
    ensures Inv(FindValid(s, token, now))
  {
    var t := FindValid(s, token, now);
    SameIdentitiesSameKnown(s, t);
    forall i, j, p | AccessRow(t, i, p) && AccessRow(t, j, p) ensures i == j {
      assert AccessRow(s, i, p) && AccessRow(s, j, p);
    }
  }

  lemma ExchangeRouteKeepsInv(s: Store, token: Token, ttl: Ttl, draw: Draw, now: int)
    requires Inv(s) && FreshDraw(s, draw)
    ensures Inv(ExchangeRoute(s, token, ttl, draw, now))
  {
    var seen := FindValid(s, token, now);
    FindValidKeepsInv(s, token, now);
    var id := Resolve(s, token, now);
    if id.Some? && s.credentials[id.value].kind == Enrollment {
      SameIdentitiesSameKnown(s, seen);
      if AccessOf(seen, id.value).Some? {
        RotateKeepsInv(seen, id.value, AccessOf(seen, id.value).value, ttl, draw, now);
      } else {
        var p := seen.credentials[id.value];
        CreateCredentialKeepsInv(seen, Access, p.namespace, ttl, id, p.backendId, None, draw, now);
      }
    }
  }

  lemma BindKeepsInv(s: Store, id: CredentialId, backendId: BackendId)
    requires Inv(s) && (Bindable(s, id) ==> Known(s, backendId, s.credentials[id].namespace))
    ensures Inv(BindBackend(s, id, backendId))
  {
    var t := BindBackend(s, id, backendId);
    SameIdentitiesSameKnown(s, t);
    forall i, j, p | AccessRow(t, i, p) && AccessRow(t, j, p) ensures i == j {
      assert AccessRow(s, i, p) && AccessRow(s, j, p);
    }
  }

  lemma RescopeKeepsInv(s: Store, id: CredentialId, scope: Option<seq<BackendId>>)
    requires Inv(s)
    ensures Inv(SetAllowedBackends(s, id, scope))
  {
    var t := SetAllowedBackends(s, id, scope);
    SameIdentitiesSameKnown(s, t);
    forall i, j, p | AccessRow(t, i, p) && AccessRow(t, j, p) ensures i == j {
      assert AccessRow(s, i, p) && AccessRow(s, j, p);
    }
  }

  lemma RevokeKeepsInv(s: Store, id: CredentialId, now: int)
    requires Inv(s)
    ensures Inv(RevokeCredential(s, id, now))
  {
    var t := RevokeCredential(s, id, now);
    SameIdentitiesSameKnown(s, t);
    forall i, j, p | AccessRow(t, i, p) && AccessRow(t, j, p) ensures i == j {
      assert AccessRow(s, i, p) && AccessRow(s, j, p);
    }
  }

  lemma {:induction false} RevokeAllKeepsInv(s: Store, ids: seq<CredentialId>, now: int)
    requires Inv(s)
    ensures Inv(RevokeCredentials(s, ids, now))
    ensures RevokeCredentials(s, ids, now).draws == s.draws
    ensures RevokeCredentials(s, ids, now).identities == s.identities
    ensures RevokeCredentials(s, ids, now).maxEpoch == s.maxEpoch
    decreases |ids|
  {
    if ids != [] {
      RevokeKeepsInv(s, ids[0], now);
      RevokeAllKeepsInv(RevokeCredential(s, ids[0], now), ids[1..], now);
    }
  }

  lemma PurgeKeepsInv(s: Store, wanted: Option<set<CredentialId>>)
    requires Inv(s)
    ensures Inv(PurgeRevoked(s, wanted))
  {
    var t := PurgeRevoked(s, wanted);
    SameIdentitiesSameKnown(s, t);
    forall i, j, p | AccessRow(t, i, p) && AccessRow(t, j, p) ensures i == j {
      assert AccessRow(s, i, p) && AccessRow(s, j, p);
    }
  }

  /** The guard counts only enrollment credentials; a live access row has a live parent with the same backend. */
  lemma ForgetKeepsInv(s: Store, backendId: BackendId, online: bool)
    requires Inv(s)
    ensures Inv(ForgetBackend(s, backendId, online))
  {
    var t := ForgetBackend(s, backendId, online);
    if t != s {
      forall id | id in t.credentials && t.credentials[id].Active() && t.credentials[id].backendId.Some?
        ensures Known(t, t.credentials[id].backendId.value, t.credentials[id].namespace)
      {
        var c := s.credentials[id];
        var root := if c.parent.Some? then c.parent.value else id;
        assert s.credentials[root].kind == Enrollment && s.credentials[root].Active();
        assert s.credentials[root].backendId == c.backendId;
        var key :| NamedBy(s, key, c.backendId.value) && s.identities[key].namespace == c.namespace;
        assert NamedBy(t, key, c.backendId.value);
      }
      forall i, j, p | AccessRow(t, i, p) && AccessRow(t, j, p) ensures i == j {
        assert AccessRow(s, i, p) && AccessRow(s, j, p);
      }
    }
  }

  lemma IdentityOpKeepsInv(s: Store, t: Store)
    requires Inv(s)
    requires t.credentials == s.credentials && t.draws.ids == s.draws.ids && t.draws.tokens == s.draws.tokens
    requires forall key :: key in s.identities ==>
               key in t.identities && t.identities[key].backendId == s.identities[key].backendId
               && t.identities[key].namespace == s.identities[key].namespace
    requires KeysMatch(t) && IdentitiesUnique(t)
    requires forall key :: key in t.identities ==> t.identities[key].backendId in t.draws.backends
    ensures Inv(t)
  {
    forall b, n | Known(s, b, n) ensures Known(t, b, n) {
      var key :| NamedBy(s, key, b) && s.identities[key].namespace == n;
      assert NamedBy(t, key, b);
    }
    forall i, j, p | AccessRow(t, i, p) && AccessRow(t, j, p) ensures i == j {
      assert AccessRow(s, i, p) && AccessRow(s, j, p);
    }
  }

  lemma ApplyKeepsInv(s: Store, op: Op)
    requires Inv(s) && DrawsFresh(s, op)
    ensures Inv(Apply(s, op))
  {
    match op
    case Issue(kind, namespace, ttl, bound, scope, draw, now) =>
      if Issuable(s, op) { CreateCredentialKeepsInv(s, kind, namespace, ttl, None, bound, scope, draw, now); }
    case Exchange(token, ttl, draw, now) => ExchangeRouteKeepsInv(s, token, ttl, draw, now);
    case Authenticate(token, now) => FindValidKeepsInv(s, token, now);
    case Bind(id, backendId) =>
      if Bindable(s, id) && Known(s, backendId, s.credentials[id].namespace) { BindKeepsInv(s, id, backendId); }
    case Rescope(id, scope) => RescopeKeepsInv(s, id, scope);
    case Revoke(ids, now) => RevokeAllKeepsInv(s, ids, now);
    case Purge(wanted) => PurgeKeepsInv(s, wanted);
    case Forget(backendId, online) => ForgetKeepsInv(s, backendId, online);
    case Register(key, draw, now) => IdentityOpKeepsInv(s, Apply(s, op));
    case Touch(backendId, root, now) => IdentityOpKeepsInv(s, Apply(s, op));
    case NextEpoch => IdentityOpKeepsInv(s, Apply(s, op));
  }

  lemma {:induction false} RunKeepsInv(s: Store, ops: seq<Op>)
    requires Inv(s) && Run(s, ops)
    ensures Inv(After(s, ops))
    decreases |ops|
  {
    if ops != [] {
      ApplyKeepsInv(s, ops[0]);
      RunKeepsInv(Apply(s, ops[0]), ops[1..]);
    }
  }

  lemma EmptyStoreInv()
    ensures Inv(EMPTY)
  {
  }

  // ---- Rejection is permanent ----------------------------------------------

  /** An issued token that the store refuses at `now`. */
  ghost predicate Refused(s: Store, token: Token, now: int) {
    token in s.draws.tokens && Resolve(s, token, now).None?
  }

  /** The same without the choice of row: no row with this token is usable. */
  lemma RefusedMeansNoUsableRow(s: Store, token: Token, now: int)
    requires TokensUnique(s)
    ensures Resolve(s, token, now).None? <==> forall id :: Holds(s, id, token) ==> !Usable(s, id, now)
  {
    if id :| Holds(s, id, token) {
      assert Holds(s, ByToken(s, token).value, token);
    }
  }

  /** No operation can make a row usable under a token that was issued before it. */
  ghost predicate NothingRevives(s: Store, t: Store) {
    forall id, now: int :: id in t.credentials && t.credentials[id].token in s.draws.tokens && Usable(t, id, now) ==>
      id in s.credentials && s.credentials[id].token == t.credentials[id].token && Usable(s, id, now)
  }

  lemma FrameNothingRevives(s: Store, t: Store)
    requires forall id :: id in t.credentials ==>
               && id in s.credentials
               && t.credentials[id].token == s.credentials[id].token
               && t.credentials[id].parent == s.credentials[id].parent
               && t.credentials[id].expiresAt == s.credentials[id].expiresAt
               && (t.credentials[id].Active() ==> s.credentials[id].Active())
    ensures NothingRevives(s, t)
  {
  }

  lemma {:induction false} RevokeAllRevivesNothing(s: Store, ids: seq<CredentialId>, now: int)
    ensures RevokeCredentials(s, ids, now).draws == s.draws
    ensures forall id :: id in RevokeCredentials(s, ids, now).credentials ==>
              && id in s.credentials
              && RevokeCredentials(s, ids, now).credentials[id].token == s.credentials[id].token
              && RevokeCredentials(s, ids, now).credentials[id].parent == s.credentials[id].parent
              && RevokeCredentials(s, ids, now).credentials[id].expiresAt == s.credentials[id].expiresAt
              && (RevokeCredentials(s, ids, now).credentials[id].Active() ==> s.credentials[id].Active())
    decreases |ids|
  {
    if ids != [] { RevokeAllRevivesNothing(RevokeCredential(s, ids[0], now), ids[1..], now); }
  }

  lemma CreateRevivesNothing(s: Store, kind: Kind, namespace: Namespace, ttl: Ttl, parent: Option<CredentialId>,
                             backendId: Option<BackendId>, scope: Option<seq<BackendId>>, draw: Draw, now: int)
    requires Inv(s) && FreshDraw(s, draw)
    ensures NothingRevives(s, CreateCredential(s, kind, namespace, ttl, parent, backendId, scope, draw, now))
  {
    var t := CreateCredential(s, kind, namespace, ttl, parent, backendId, scope, draw, now);
    forall id, at: int | id in t.credentials && t.credentials[id].token in s.draws.tokens && Usable(t, id, at)
      ensures id in s.credentials && s.credentials[id].token == t.credentials[id].token && Usable(s, id, at)
    {
      assert id in s.credentials && s.credentials[id] == t.credentials[id];
    }
  }

  lemma RotateRevivesNothing(s: Store, parent: CredentialId, ttl: Ttl, draw: Draw, now: int)
    requires Inv(s) && FreshDraw(s, draw)
    requires parent in s.credentials && AccessOf(s, parent).Some?
    ensures NothingRevives(s, ExchangeAccess(s, parent, ttl, draw, now))
  {
    var row := AccessOf(s, parent).value;
    var t := ExchangeAccess(s, parent, ttl, draw, now);
    assert t.credentials[row].token == draw.token;
    forall id, at: int | id in t.credentials && t.credentials[id].token in s.draws.tokens && Usable(t, id, at)
      ensures id in s.credentials && s.credentials[id].token == t.credentials[id].token && Usable(s, id, at)
    {
      var c := t.credentials[id];
      assert id != row && s.credentials[id] == c;
      if c.parent.Some? {
        assert s.credentials[c.parent.value].kind == Enrollment && s.credentials[row].kind == Access;
      }
    }
  }

  lemma ExchangeRevivesNothing(s: Store, token: Token, ttl: Ttl, draw: Draw, now: int)
    requires Inv(s) && FreshDraw(s, draw)
    ensures NothingRevives(s, ExchangeRoute(s, token, ttl, draw, now))
  {
    var seen := FindValid(s, token, now);
    FindValidKeepsInv(s, token, now);
    FrameNothingRevives(s, seen);
    var id := Resolve(s, token, now);
    if id.Some? && s.credentials[id.value].kind == Enrollment {
      var p := seen.credentials[id.value];
      if AccessOf(seen, id.value).Some? {
        RotateRevivesNothing(seen, id.value, ttl, draw, now);
      } else {
        CreateRevivesNothing(seen, Access, p.namespace, ttl, id, p.backendId, None, draw, now);
      }
    }
  }

  lemma ApplyRevivesNothing(s: Store, op: Op)
    requires Inv(s) && DrawsFresh(s, op)
    ensures NothingRevives(s, Apply(s, op))
    ensures s.draws.tokens <= Apply(s, op).draws.tokens
  {
    match op
    case Issue(kind, namespace, ttl, bound, scope, draw, now) =>
      if Issuable(s, op) { CreateRevivesNothing(s, kind, namespace, ttl, None, bound, scope, draw, now); }
    case Exchange(token, ttl, draw, now) => ExchangeRevivesNothing(s, token, ttl, draw, now);
    case Revoke(ids, now) => RevokeAllRevivesNothing(s, ids, now); FrameNothingRevives(s, Apply(s, op));
    case _ => FrameNothingRevives(s, Apply(s, op));
  }

  /**
   A token once refused is refused at every later step of every run and at every later time,
   although an exchange clears `revokedAt` on the access row it rotates.
   */
  lemma {:induction false} RejectionIsPermanent(s: Store, ops: seq<Op>, token: Token, now: int, later: int)
    requires Inv(s) && Run(s, ops) && Refused(s, token, now) && now <= later
    ensures Refused(After(s, ops), token, later)
    decreases |ops|
  {
    RefusedMeansNoUsableRow(s, token, now);
    RefusedMeansNoUsableRow(s, token, later);
    if ops != [] {
      var t := Apply(s, ops[0]);
      ApplyKeepsInv(s, ops[0]);
      ApplyRevivesNothing(s, ops[0]);
      RefusedMeansNoUsableRow(t, token, later);
      RejectionIsPermanent(t, ops[1..], token, later, later);
    }
  }

  // ---- Bulk revocation -----------------------------------------------------

  /** No credential's parent has a parent itself: the cascade is one level deep. */
  ghost predicate Flat(s: Store) {
    forall id ::
      id in s.credentials && s.credentials[id].parent.Some? && s.credentials[id].parent.value in s.credentials ==>
        s.credentials[s.credentials[id].parent.value].parent.None?
  }

  predicate Requested(s: Store, ids: set<CredentialId>, k: CredentialId)
    requires k in s.credentials
  {
    var c := s.credentials[k];
    c.Active() && (k in ids || (c.parent.Some? && c.parent.value in ids && c.parent.value in s.credentials
                                && s.credentials[c.parent.value].Active()))
  }

  /** All at once: the active requested rows and the active children of active requested rows. */
  function RevokeSet(s: Store, ids: set<CredentialId>, now: int): Store {
    s.(credentials := map k | k in s.credentials ::
         if Requested(s, ids, k) then s.credentials[k].(revokedAt := Some(now)) else s.credentials[k])
  }

  /**
   Whatever the order of the ids, and with parents and children mixed, bulk revocation
   revokes exactly the set determined by the ids at the start.
   */
  lemma {:induction false} RevocationOrderIrrelevant(s: Store, ids: seq<CredentialId>, now: int)
    requires Flat(s)
    ensures RevokeCredentials(s, ids, now) == RevokeSet(s, Members(ids), now)
    decreases |ids|
  {
    if ids == [] {
      assert RevokeSet(s, Members(ids), now).credentials == s.credentials;
    } else {
      var t := RevokeCredential(s, ids[0], now);
      RevocationOrderIrrelevant(t, ids[1..], now);
      assert Members(ids) == {ids[0]} + Members(ids[1..]);
      forall k | k in s.credentials
        ensures RevokeSet(t, Members(ids[1..]), now).credentials[k] == RevokeSet(s, Members(ids), now).credentials[k]
      {
      }
      assert RevokeSet(t, Members(ids[1..]), now).credentials == RevokeSet(s, Members(ids), now).credentials;
    }
  }

  lemma InvMeansFlat(s: Store)
    requires Inv(s)
    ensures Flat(s)
  {
  }

  /** With a chain of two parents the order would matter, so flatness is what the result rests on. */
  lemma ChainsWouldMakeOrderMatter(a: CredentialId, b: CredentialId, c: CredentialId, row: Credential, s: Store,
                                   now: int)
    requires a != b && b != c && a != c && row.Active()
    requires s.credentials == map[a := row.(parent := None), b := row.(parent := Some(a)), c := row.(parent := Some(b))]
    ensures !Flat(s)
    ensures RevokeCredentials(s, [a, b], now) != RevokeCredentials(s, [b, a], now)
  {
    var ab := RevokeCredential(RevokeCredential(s, a, now), b, now);
    var ba := RevokeCredential(RevokeCredential(s, b, now), a, now);
    assert RevokeCredentials(s, [a, b], now) == ab by {
      assert [a, b][1..] == [b] && [b][1..] == [];
      assert RevokeCredentials(RevokeCredential(s, a, now), [b], now) == ab;
    }
    assert RevokeCredentials(s, [b, a], now) == ba by {
      assert [b, a][1..] == [a] && [a][1..] == [];
      assert RevokeCredentials(RevokeCredential(s, b, now), [a], now) == ba;
    }
    assert ab.credentials[c].Active() && !ba.credentials[c].Active();
    assert s.credentials[b].parent == Some(a) && s.credentials[c].parent == Some(b);
  }

  // ---- Collapsing the duplicate access rows of an old database -------------

  /** The order the migration ranks duplicates by: unrevoked first, then newest, then least id. */
  predicate Outranks(rows: map<CredentialId, Credential>, a: CredentialId, b: CredentialId)
    requires a in rows && b in rows
  {
    if rows[a].Active() != rows[b].Active() then rows[a].Active()
    else if rows[a].createdAt != rows[b].createdAt then rows[a].createdAt > rows[b].createdAt
    else a < b
  }

  predicate Duplicates(rows: map<CredentialId, Credential>, a: CredentialId, b: CredentialId)
    requires a in rows && b in rows
  {
    rows[a].kind == Access && rows[b].kind == Access && rows[a].parent.Some? && rows[a].parent == rows[b].parent
  }

  predicate Ranked1st(rows: map<CredentialId, Credential>, id: CredentialId)
    requires id in rows
  {
    forall other :: other in rows && other != id && Duplicates(rows, id, other) ==> Outranks(rows, id, other)
  }

  function Collapse(s: Store): Store {
    s.(credentials := map id | id in s.credentials && Ranked1st(s.credentials, id) :: s.credentials[id])
  }

  lemma {:induction false} BestOf(rows: map<CredentialId, Credential>, ids: set<CredentialId>)
    returns (best: CredentialId)
    requires ids != {} && forall id :: id in ids ==> id in rows
    ensures best in ids && forall id :: id in ids && id != best ==> Outranks(rows, best, id)
    decreases |ids|
  {
    var id :| id in ids;
    if ids == {id} {
      best := id;
    } else {
      var rest := BestOf(rows, ids - {id});
      best := if Outranks(rows, id, rest) then id else rest;
      assert forall other :: other in ids && other != id && other != rest ==>
               other in ids - {id} && Outranks(rows, rest, other);
    }
  }

  lemma OutranksOneWay(rows: map<CredentialId, Credential>, a: CredentialId, b: CredentialId)
    requires a in rows && b in rows && (a != b ==> Outranks(rows, a, b) && Outranks(rows, b, a))
    ensures a == b
  {
  }

  /**
   The migration leaves exactly one access row per enrollment that had any - an unrevoked one
   if there was one - touches nothing else, and does nothing the second time.
   */
  lemma CollapseLeavesOne(s: Store)
    ensures OneAccessRow(Collapse(s))
    ensures forall id, p :: AccessRow(s, id, p) ==>
              exists kept :: AccessRow(Collapse(s), kept, p)
                && (s.credentials[id].Active() ==> s.credentials[kept].Active())
    ensures forall id :: id in s.credentials && s.credentials[id].kind != Access ==> id in Collapse(s).credentials
    ensures Collapse(Collapse(s)) == Collapse(s)
  {
    var rows, t := s.credentials, Collapse(s);
    forall i, j, p | AccessRow(t, i, p) && AccessRow(t, j, p) ensures i == j {
      OutranksOneWay(rows, i, j);
    }
    forall id, p | AccessRow(s, id, p)
      ensures exists kept :: AccessRow(t, kept, p) && (rows[id].Active() ==> rows[kept].Active())
    {
      var dups := set k | k in rows && AccessRow(s, k, p);
      assert id in dups;
      var kept := BestOf(rows, dups);
      assert Ranked1st(rows, kept);
      assert AccessRow(t, kept, p);
    }
    assert Collapse(t).credentials == t.credentials;
  }

  /** On a store that is sound except for duplicates, the migration establishes the invariant. */
  lemma CollapseEstablishesInv(s: Store)
    requires Drawn(s) && KeysMatch(s) && TokensUnique(s) && IdentitiesUnique(s) && Shaped(s) && ParentsLive(s)
             && BoundKnown(s)
    ensures Inv(Collapse(s))
  {
    CollapseLeavesOne(s);
    SameIdentitiesSameKnown(s, Collapse(s));
  }

  // ---- What other components may rely on -----------------------------------

  /** A known backend stays known, with its namespace, unless it is the one being forgotten. */
  lemma ApplyKeepsKnown(s: Store, op: Op, backendId: BackendId, namespace: Namespace)
    requires Inv(s) && DrawsFresh(s, op) && Known(s, backendId, namespace)
    requires op.Forget? ==> op.backendId != backendId || op.online
    ensures Known(Apply(s, op), backendId, namespace)
  {
    var t := Apply(s, op);
    var key :| NamedBy(s, key, backendId) && s.identities[key].namespace == namespace;
    if op.Revoke? { RevokeAllKeepsInv(s, op.ids, op.now); }
    assert NamedBy(t, key, backendId) && t.identities[key].namespace == namespace;
  }

  lemma ApplyKeepsEpochs(s: Store, op: Op)
    requires Inv(s)
    ensures s.maxEpoch <= Apply(s, op).maxEpoch
  {
    if op.Revoke? { RevokeAllKeepsInv(s, op.ids, op.now); }
  }
}
