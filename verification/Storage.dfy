/** The storage class: maps updated in place, each method proved against the operation on values. */
module Storage {
  import opened Basics
  import opened CredentialStore
  import opened StoreProofs

  class GatewayStorage {
    var credentials: map<CredentialId, Credential>
    var identities: map<IdentityKey, Identity>
    var maxEpoch: nat
    ghost var draws: Draws

    ghost function View(): Store
      reads this
    {
      Store(credentials, identities, maxEpoch, draws)
    }

    constructor ()
      ensures View() == EMPTY && Inv(View())
    {
      credentials, identities, maxEpoch, draws := map[], map[], 0, Draws({}, {}, {});
    }

    method AllocateEpoch() returns (epoch: nat)
      modifies this
      ensures View() == CredentialStore.AllocateEpoch(old(View()))
      ensures epoch == View().maxEpoch > old(View().maxEpoch)
    {
      maxEpoch := maxEpoch + 1;
      epoch := maxEpoch;
    }

    method GetOrCreateBackendId(key: IdentityKey, draw: BackendId, now: int) returns (id: BackendId)
      requires key.Legacy?
      modifies this
      ensures View() == CredentialStore.GetOrCreateBackendId(old(View()), key, draw, now)
      ensures id == LegacyId(old(View()), key, draw)
      ensures key in identities && identities[key].backendId == id
      ensures if key in old(identities) then identities == old(identities)
              else id == draw && identities[key].namespace == key.namespace && identities - {key} == old(identities)
    {
      if key in identities { return identities[key].backendId; }
      identities := identities[key := Identity(draw, key.namespace, now, None, None)];
      draws := draws.(backends := draws.backends + {draw});
      return draw;
    }

    method GetBackendIdentity(backendId: BackendId) returns (found: Option<IdentityKey>)
      ensures found.Some? ==> NamedBy(View(), found.value, backendId)
      ensures found.None? ==> forall key :: !NamedBy(View(), key, backendId)
    {
      var todo := identities.Keys;
      while todo != {}
        invariant todo <= identities.Keys
        invariant forall key :: NamedBy(View(), key, backendId) ==> key in todo
        decreases todo
      {
        var key :| key in todo;
        if identities[key].backendId == backendId { return Some(key); }
        todo := todo - {key};
      }
      return None;
    }

    method IsKnownBackend(backendId: BackendId, namespace: Namespace) returns (known: bool)
      requires IdentitiesUnique(View())
      ensures known <==> Known(View(), backendId, namespace)
    {
      var found := GetBackendIdentity(backendId);
      known := found.Some? && identities[found.value].namespace == namespace;
    }

    method TouchBackendIdentity(backendId: BackendId, root: Option<CredentialId>, now: int)
      modifies this`identities
      ensures View() == TouchIdentity(old(View()), backendId, root, now)
      ensures identities.Keys == old(identities).Keys
      ensures forall k :: k in identities && identities[k].backendId == backendId ==>
                identities[k].lastSeenAt == Some(now)
                && identities[k].lastCredential == if root.Some? then root else old(identities)[k].lastCredential
      ensures forall k :: k in identities && identities[k].backendId != backendId ==>
                identities[k] == old(identities)[k]
    {
      var todo := identities.Keys;
      while todo != {}
        invariant identities.Keys == old(identities).Keys && todo <= identities.Keys
        invariant forall k :: k in identities ==>
                    identities[k] == if k in todo then old(identities)[k]
                                     else TouchIdentity(old(View()), backendId, root, now).identities[k]
        decreases todo
      {
        var k :| k in todo;
        todo := todo - {k};
        if identities[k].backendId == backendId {
          var i := identities[k].(lastSeenAt := Some(now));
          if root.Some? { i := i.(lastCredential := root); }
          identities := identities[k := i];
        }
      }
    }

    method CreateBoundBackendIdentity(namespace: Namespace, draw: BackendId, now: int)
      modifies this
      ensures View() == CreateBoundIdentity(old(View()), namespace, draw, now)
    {
      identities := identities[Bound(draw) := Identity(draw, namespace, now, None, None)];
      draws := draws.(backends := draws.backends + {draw});
    }

    method CreateCredential(kind: Kind, namespace: Namespace, ttl: Ttl, parent: Option<CredentialId>,
                            backendId: Option<BackendId>, scope: Option<seq<BackendId>>, draw: Draw, now: int)
      modifies this
      ensures View() == CredentialStore.CreateCredential(old(View()), kind, namespace, ttl, parent, backendId, scope,
                                                         draw, now)
      ensures draw.id in credentials
              && credentials == old(credentials)[draw.id := credentials[draw.id]]
              && credentials[draw.id].kind == kind && credentials[draw.id].token == draw.token
              && credentials[draw.id].namespace == namespace && credentials[draw.id].parent == parent
              && credentials[draw.id].revokedAt == None
              && credentials[draw.id].scope == (if kind == Device then scope else None)
              && credentials[draw.id].backendId == (match kind
                                                    case Device => None
                                                    case Access => backendId
                                                    case Enrollment =>
                                                      if backendId.Some? then backendId else Some(draw.backendId))
      ensures kind == Enrollment && backendId == None ==>
                Bound(draw.backendId) in identities
                && identities[Bound(draw.backendId)].backendId == draw.backendId
                && identities[Bound(draw.backendId)].namespace == namespace
      ensures !(kind == Enrollment && backendId == None) ==> identities == old(identities)
    {
      var bound: Option<BackendId> := None;
      if kind == Enrollment {
        if backendId.Some? {
          bound := backendId;
        } else {
          CreateBoundBackendIdentity(namespace, draw.backendId, now);
          bound := Some(draw.backendId);
        }
      } else if kind == Access {
        bound := backendId;
      }
      var record := Credential(kind, draw.token, namespace, parent, now, Expiry(kind, ttl, now), None, None,
                               bound, if kind == Device then scope else None);
      credentials := credentials[draw.id := record];
      draws := draws.(ids := draws.ids + {draw.id}, tokens := draws.tokens + {draw.token});
    }

    method GetCredentialByHash(token: Token) returns (found: Option<CredentialId>)
      requires TokensUnique(View())
      ensures found == ByToken(View(), token)
      ensures forall id :: found == Some(id) <==> id in credentials && credentials[id].token == token
    {
      var todo := credentials.Keys;
      while todo != {}
        invariant todo <= credentials.Keys
        invariant forall id :: Holds(View(), id, token) ==> id in todo
        decreases todo
      {
        var id :| id in todo;
        if credentials[id].token == token {
          assert Holds(View(), id, token);
          assert forall k :: Holds(View(), k, token) <==> k in credentials && credentials[k].token == token;
          return Some(id);
        }
        todo := todo - {id};
      }
      assert forall k :: Holds(View(), k, token) <==> k in credentials && credentials[k].token == token;
      return None;
    }

    method FindValidCredential(token: Token, now: int) returns (found: Option<CredentialId>)
      requires TokensUnique(View())
      modifies this`credentials
      ensures forall id :: found == Some(id) <==>
                && id in old(credentials) && old(credentials)[id].token == token
                && old(credentials)[id].revokedAt == None
                && (old(credentials)[id].expiresAt == None || now <= old(credentials)[id].expiresAt.value)
                && (old(credentials)[id].parent.Some? ==>
                      var p := old(credentials)[id].parent.value;
                      && p in old(credentials) && old(credentials)[p].revokedAt == None
                      && (old(credentials)[p].expiresAt == None || now <= old(credentials)[p].expiresAt.value))
      ensures credentials == if found.Some? && found.value in old(credentials)
                             then old(credentials)[found.value :=
                                                   old(credentials)[found.value].(lastUsedAt := Some(now))]
                             else old(credentials)
      ensures found == Resolve(old(View()), token, now)
      ensures View() == FindValid(old(View()), token, now)
    {
      var row := GetCredentialByHash(token);
      if row.None? { return None; }
      var record := credentials[row.value];
      if record.revokedAt.Some? { return None; }
      if record.expiresAt.Some? && now > record.expiresAt.value { return None; }
      if record.parent.Some? {
        if record.parent.value !in credentials { return None; }
        var parent := credentials[record.parent.value];
        if parent.revokedAt.Some? || (parent.expiresAt.Some? && now > parent.expiresAt.value) { return None; }
      }
      credentials := credentials[row.value := record.(lastUsedAt := Some(now))];
      return row;
    }

    method BindBackendCredential(id: CredentialId, backendId: BackendId) returns (ok: bool)
      modifies this`credentials
      ensures View() == BindBackend(old(View()), id, backendId)
      ensures ok <==> id in old(credentials) && old(credentials)[id].kind == Enrollment
                      && old(credentials)[id].revokedAt == None && old(credentials)[id].backendId == None
      ensures !ok ==> credentials == old(credentials)
      ensures ok ==> credentials.Keys == old(credentials).Keys
                     && forall k :: k in credentials ==>
                          credentials[k] == if (k == id || old(credentials)[k].parent == Some(id))
                                               && old(credentials)[k].revokedAt == None
                                            then old(credentials)[k].(backendId := Some(backendId))
                                            else old(credentials)[k]
    {
      if id !in credentials { return false; }
      var record := credentials[id];
      if record.kind != Enrollment || record.revokedAt.Some? || record.backendId.Some? { return false; }
      var todo := credentials.Keys;
      while todo != {}
        invariant credentials.Keys == old(credentials).Keys && todo <= credentials.Keys
        invariant forall k :: k in credentials ==>
                    credentials[k] == if k in todo then old(credentials)[k]
                                      else BindBackend(old(View()), id, backendId).credentials[k]
        decreases todo
      {
        var k :| k in todo;
        todo := todo - {k};
        var c := credentials[k];
        if (k == id || c.parent == Some(id)) && c.revokedAt.None? {
          credentials := credentials[k := c.(backendId := Some(backendId))];
        }
      }
      return true;
    }

    method SetAllowedBackends(id: CredentialId, scope: Option<seq<BackendId>>) returns (ok: bool)
      modifies this`credentials
      ensures View() == CredentialStore.SetAllowedBackends(old(View()), id, scope)
      ensures ok <==> id in old(credentials) && old(credentials)[id].kind == Device
                      && old(credentials)[id].revokedAt == None
      ensures credentials == if ok then old(credentials)[id := old(credentials)[id].(scope := scope)]
                             else old(credentials)
    {
      if id !in credentials { return false; }
      var record := credentials[id];
      if record.kind != Device || record.revokedAt.Some? { return false; }
      credentials := credentials[id := record.(scope := scope)];
      return true;
    }

    /** Cascades one level; answers with exactly the rows that went from unrevoked to revoked, each once. */
    method RevokeCredential(id: CredentialId, now: int) returns (revoked: seq<CredentialId>)
      modifies this`credentials
      ensures View() == CredentialStore.RevokeCredential(old(View()), id, now)
      ensures forall k :: k in credentials <==> k in old(credentials)
      ensures forall k :: k in credentials ==>
                credentials[k] == if old(credentials)[k].revokedAt == None
                                     && (k == id || (old(credentials)[k].parent == Some(id) && id in old(credentials)
                                                     && old(credentials)[id].revokedAt == None))
                                  then old(credentials)[k].(revokedAt := Some(now)) else old(credentials)[k]
      ensures NoDuplicates(revoked)
      ensures forall k :: k in revoked <==> NewlyRevoked(old(View()), View(), k)
    {
      if id !in credentials || credentials[id].revokedAt.Some? { return []; }
      revoked := RevokeFamily(id, now);
    }

    method RevokeFamily(id: CredentialId, now: int) returns (revoked: seq<CredentialId>)
      requires id in credentials && credentials[id].Active()
      modifies this`credentials
      ensures credentials == FamilyRevoked(old(credentials), id, now, old(credentials).Keys)
      ensures NoDuplicates(revoked)
      ensures forall k :: k in revoked <==> k in old(credentials) && FamilyMember(old(credentials), id, k)
    {
      ghost var rows := credentials;
      credentials := credentials[id := credentials[id].(revokedAt := Some(now))];
      revoked := [id];
      var todo := credentials.Keys;
      while todo != {}
        invariant todo <= rows.Keys && credentials == FamilyRevoked(rows, id, now, rows.Keys - todo)
        invariant NoDuplicates(revoked)
        invariant forall k :: k in revoked <==> k == id || (k in rows && k !in todo && FamilyMember(rows, id, k))
        decreases todo
      {
        var k :| k in todo;
        todo := todo - {k};
        var child := credentials[k];
        if child.parent == Some(id) && child.revokedAt.None? {
          credentials := credentials[k := child.(revokedAt := Some(now))];
          AppendNoDuplicates(revoked, [k]);
          revoked := revoked + [k];
        }
      }
    }

    /** One after the other; by `RevocationOrderIrrelevant` the outcome is that of revoking the set. */
    method RevokeCredentials(ids: seq<CredentialId>, now: int) returns (revoked: seq<CredentialId>)
      requires Flat(View())
      modifies this`credentials
      ensures View() == RevokeSet(old(View()), Members(ids), now)
      ensures NoDuplicates(revoked)
      ensures forall k :: k in revoked <==> k in old(credentials) && Requested(old(View()), Members(ids), k)
    {
      revoked := [];
      for i := 0 to |ids|
        invariant CredentialStore.RevokeCredentials(old(View()), ids, now)
               == CredentialStore.RevokeCredentials(View(), ids[i..], now)
        invariant credentials.Keys == old(credentials).Keys
        invariant forall k :: k in credentials && !old(credentials)[k].Active() ==> !credentials[k].Active()
        invariant NoDuplicates(revoked)
        invariant forall k :: k in revoked <==> NewlyRevoked(old(View()), View(), k)
      {
        ghost var before := View();
        var more := RevokeCredential(ids[i], now);
        assert ids[i..][1..] == ids[i + 1..];
        assert forall k :: k in more ==> NewlyRevoked(before, View(), k) && k !in revoked;
        AppendNoDuplicates(revoked, more);
        revoked := revoked + more;
      }
      RevocationOrderIrrelevant(old(View()), ids, now);
    }

    method ExchangeAccessCredential(parent: CredentialId, ttl: Ttl, draw: Draw, now: int)
      returns (row: CredentialId, rotated: bool)
      requires parent in credentials && OneAccessRow(View())
      modifies this
      ensures View() == ExchangeAccess(old(View()), parent, ttl, draw, now)
      ensures row in credentials && credentials[row].token == draw.token && credentials[row].parent == Some(parent)
      ensures rotated <==> AccessOf(old(View()), parent).Some?
    {
      var existing := FindAccessCredential(parent);
      var p := credentials[parent];
      if existing.None? {
        CreateCredential(Access, p.namespace, ttl, Some(parent), p.backendId, None, draw, now);
        return draw.id, false;
      }
      credentials := credentials[existing.value := Rotated(credentials[existing.value], p, ttl, draw.token, now)];
      draws := draws.(tokens := draws.tokens + {draw.token});
      return existing.value, true;
    }

    method FindAccessCredential(parent: CredentialId) returns (found: Option<CredentialId>)
      requires OneAccessRow(View())
      ensures found == AccessOf(View(), parent)
    {
      var todo := credentials.Keys;
      while todo != {}
        invariant todo <= credentials.Keys
        invariant forall id :: AccessRow(View(), id, parent) ==> id in todo
        decreases todo
      {
        var id :| id in todo;
        if credentials[id].kind == Access && credentials[id].parent == Some(parent) {
          assert AccessRow(View(), id, parent);
          return Some(id);
        }
        todo := todo - {id};
      }
      return None;
    }

    method PurgeRevokedCredentials(wanted: Option<set<CredentialId>>) returns (deleted: seq<CredentialId>)
      modifies this`credentials
      ensures View() == PurgeRevoked(old(View()), wanted)
      ensures NoDuplicates(deleted) && Members(deleted) == old(credentials).Keys - credentials.Keys
      ensures forall k :: k in deleted <==>
                k in old(credentials) && old(credentials)[k].revokedAt.Some? && (wanted.Some? ==> k in wanted.value)
      ensures forall k :: k in credentials ==> k in old(credentials) && credentials[k] == old(credentials)[k]
    {
      deleted := [];
      var todo := credentials.Keys;
      while todo != {}
        invariant todo <= credentials.Keys
        invariant NoDuplicates(deleted)
        invariant forall k :: k in deleted <==>
                    k in credentials && k !in todo && credentials[k].revokedAt.Some?
                      && (wanted.Some? ==> k in wanted.value)
        decreases todo
      {
        var k :| k in todo;
        todo := todo - {k};
        if credentials[k].revokedAt.Some? && (wanted.None? || k in wanted.value) { deleted := deleted + [k]; }
      }
      for i := 0 to |deleted|
        invariant credentials == map k | k in old(credentials) && k !in deleted[..i] :: old(credentials)[k]
      {
        credentials := credentials - {deleted[i]};
      }
      assert deleted[..|deleted|] == deleted;
    }

    /** The cleanup route: refused while anything may still resolve to the backend. */
    method ForgetBackend(backendId: BackendId, online: bool) returns (forgotten: bool)
      requires IdentitiesUnique(View())
      modifies this`identities
      ensures View() == CredentialStore.ForgetBackend(old(View()), backendId, online)
      ensures forgotten <==>
              && !online
              && (exists key :: key in old(identities) && old(identities)[key].backendId == backendId)
              && (forall id | id in credentials && credentials[id].backendId == Some(backendId) ::
                    credentials[id].kind != Enrollment || credentials[id].revokedAt.Some?)
              && (forall key | key in old(identities) && old(identities)[key].backendId == backendId ::
                    var last := old(identities)[key].lastCredential;
                    last.Some? && last.value in credentials ==>
                      credentials[last.value].revokedAt.Some? || credentials[last.value].backendId.Some?)
      ensures forall key :: key in identities <==>
                key in old(identities) && !(forgotten && old(identities)[key].backendId == backendId)
      ensures forall key :: key in identities ==> identities[key] == old(identities)[key]
    {
      var found := GetBackendIdentity(backendId);
      if found.None? {
        assert DeleteIdentity(View(), backendId).identities == identities by {
          assert forall k :: k in identities ==> !NamedBy(View(), k, backendId);
        }
        return false;
      }
      assert NamedBy(View(), found.value, backendId);
      if online { return false; }
      var bound := BoundCredentials(backendId);
      if bound > 0 { return false; }
      var last := identities[found.value].lastCredential;
      if last.Some? && last.value in credentials
         && credentials[last.value].revokedAt.None? && credentials[last.value].backendId.None? { return false; }
      assert !InUse(View(), backendId);
      identities := identities - {found.value};
      forgotten := true;
      assert identities == DeleteIdentity(old(View()), backendId).identities;
    }

    method BoundCredentials(backendId: BackendId) returns (count: nat)
      ensures count > 0 <==> exists id :: id in credentials && credentials[id].kind == Enrollment
                                          && credentials[id].Active() && credentials[id].backendId == Some(backendId)
    {
      count := 0;
      var todo := credentials.Keys;
      while todo != {}
        invariant todo <= credentials.Keys
        invariant count > 0 <==> exists id :: id in credentials && id !in todo && credentials[id].kind == Enrollment
                                              && credentials[id].Active()
                                                 && credentials[id].backendId == Some(backendId)
        decreases todo
      {
        var id :| id in todo;
        todo := todo - {id};
        var c := credentials[id];
        if c.kind == Enrollment && c.revokedAt.None? && c.backendId == Some(backendId) { count := count + 1; }
      }
    }
  }

  ghost predicate NewlyRevoked(s: Store, t: Store, k: CredentialId) {
    k in s.credentials && k in t.credentials && s.credentials[k].Active() && !t.credentials[k].Active()
  }

  /** The credential, or one of its unrevoked children. */
  predicate FamilyMember(rows: map<CredentialId, Credential>, id: CredentialId, k: CredentialId)
    requires k in rows
  {
    k == id || (rows[k].parent == Some(id) && rows[k].Active())
  }

  /** The rows once the credential itself and those children that were looked at are revoked. */
  function FamilyRevoked(rows: map<CredentialId, Credential>, id: CredentialId, now: int,
                         seen: set<CredentialId>): map<CredentialId, Credential>
  {
    map k | k in rows :: if k == id || (k in seen && FamilyMember(rows, id, k)) then rows[k].(revokedAt := Some(now))
      else rows[k]
  }
}
