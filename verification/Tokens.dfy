/** What a token is good for and how long, in the fields of its row; and which ids backends get. */
module Tokens {
  import opened Basics
  import opened CredentialStore
  import opened StoreProofs

  /**
   A token resolves to a row exactly if the row carries it, is neither revoked nor past its expiry, and has no parent or
   one that is present, unrevoked and unexpired too.
   */
  lemma ResolvesExactlyWhileValid(s: Store, token: Token, now: int, id: CredentialId)
    requires TokensUnique(s)
    ensures Resolve(s, token, now) == Some(id) <==>
            && id in s.credentials && s.credentials[id].token == token
            && s.credentials[id].revokedAt == None
            && (s.credentials[id].expiresAt == None || now <= s.credentials[id].expiresAt.value)
            && (s.credentials[id].parent.Some? ==>
                  var p := s.credentials[id].parent.value;
                  && p in s.credentials && s.credentials[p].revokedAt == None
                  && (s.credentials[p].expiresAt == None || now <= s.credentials[p].expiresAt.value))
  {
    assert Holds(s, id, token) <==> id in s.credentials && s.credentials[id].token == token;
    if Holds(s, id, token) { assert ByToken(s, token).Some?; }
  }

  // ---- Tokens that were handed out -----------------------------------------

  /** The operation hands out a token: it was not drawn before, and it is now. */
  ghost predicate HandsOut(s: Store, op: Op) {
    (op.Issue? || op.Exchange?) && op.draw.token !in s.draws.tokens && op.draw.token in Apply(s, op).draws.tokens
  }

  lemma IssueHandsOut(s: Store, op: Op, at: int)
    requires Inv(s) && DrawsFresh(s, op) && HandsOut(s, op) && op.Issue?
    ensures Resolve(Apply(s, op), op.draw.token, at).Some? <==>
            && (op.ttl.Millis? ==> at <= op.now + op.ttl.ms)
            && (op.ttl.Default? && op.kind == Device ==> at <= op.now + 15_552_000_000)
  {
    var t := Apply(s, op);
    ApplyKeepsInv(s, op);
    ResolvesExactlyWhileValid(t, op.draw.token, at, op.draw.id);
    assert Issuable(s, op);
    hide Inv;
    if Resolve(t, op.draw.token, at).Some? {
      var id := Resolve(t, op.draw.token, at).value;
      ResolvesExactlyWhileValid(t, op.draw.token, at, id);
    }
  }

  /** An exchanged token lives as long as its own lifetime and its enrollment's. */
  lemma ExchangeHandsOut(s: Store, op: Op, at: int) returns (e: CredentialId)
    requires Inv(s) && DrawsFresh(s, op) && HandsOut(s, op) && op.Exchange?
    ensures e in s.credentials && s.credentials[e].token == op.token && s.credentials[e].kind == Enrollment
    ensures s.credentials[e].revokedAt == None
            && (s.credentials[e].expiresAt == None || op.now <= s.credentials[e].expiresAt.value)
    ensures Resolve(Apply(s, op), op.draw.token, at).Some? <==>
            && (op.ttl.Millis? ==> at <= op.now + op.ttl.ms)
            && (op.ttl.Default? ==> at <= op.now + 86_400_000)
            && (s.credentials[e].expiresAt == None || at <= s.credentials[e].expiresAt.value)
  {
    var t := Apply(s, op);
    ApplyKeepsInv(s, op);
    e := Resolve(s, op.token, op.now).value;
    ResolvesExactlyWhileValid(s, op.token, op.now, e);
    var row := ExchangedRow(s, op, e);
    ResolvesExactlyWhileValid(t, op.draw.token, at, row);
    hide Inv, Apply;
    if Resolve(t, op.draw.token, at).Some? {
      ResolvesExactlyWhileValid(t, op.draw.token, at, Resolve(t, op.draw.token, at).value);
    }
  }

  /** The row of an enrollment's access credential after an exchange, and the enrollment's own; no other row is new. */
  lemma ExchangedRow(s: Store, op: Op, e: CredentialId) returns (row: CredentialId)
    requires Inv(s) && DrawsFresh(s, op) && op.Exchange?
    requires Resolve(s, op.token, op.now) == Some(e) && s.credentials[e].kind == Enrollment
    ensures var t := Apply(s, op);
      && row in t.credentials && t.credentials[row].token == op.draw.token && t.credentials[row].revokedAt == None
      && t.credentials[row].parent == Some(e)
      && t.credentials[row].expiresAt == (match op.ttl
                                          case Never => None
                                          case Millis(ms) => Some(op.now + ms)
                                          case Default => Some(op.now + 86_400_000))
      && e != row && e in t.credentials && t.credentials[e].expiresAt == s.credentials[e].expiresAt
      && t.credentials[e].revokedAt == s.credentials[e].revokedAt
      && (forall k :: k in t.credentials && k != row ==>
            k in s.credentials && t.credentials[k].token == s.credentials[k].token)
    ensures forall k :: k in s.credentials && AccessRow(s, k, e) ==> k == row
  {
    var seen := FindValid(s, op.token, op.now);
    Stamped(s, op.token, op.now);
    var kept := AccessOf(seen, e);
    row := if kept.Some? then kept.value else op.draw.id;
    if kept.Some? { assert AccessRow(seen, row, e) && AccessRow(s, row, e); }
    hide FindValid, AccessOf;
  }

  /** A lookup changes nothing that matters here. */
  lemma Stamped(s: Store, token: Token, now: int)
    ensures var t := FindValid(s, token, now);
      && t.credentials.Keys == s.credentials.Keys
      && (forall k :: k in s.credentials ==>
            t.credentials[k] == s.credentials[k].(lastUsedAt := t.credentials[k].lastUsedAt))
      && (forall k, p :: AccessRow(t, k, p) <==> AccessRow(s, k, p))
  {
  }

  /** The previous token of an access credential is refused from the exchange on, in every later state of every run. */
  lemma RotationRetiresTheOldToken(s: Store, op: Op, e: CredentialId, row: CredentialId, ops: seq<Op>, at: int)
    requires Inv(s) && op.Exchange? && Run(s, [op] + ops)
    requires Resolve(s, op.token, op.now) == Some(e) && s.credentials[e].kind == Enrollment
    requires AccessRow(s, row, e)
    ensures Resolve(After(s, [op] + ops), s.credentials[row].token, at).None?
  {
    RunSplits(s, op, ops);
    var token, t := s.credentials[row].token, Apply(s, op);
    ApplyKeepsInv(s, op);
    ApplyRevivesNothing(s, op);
    var now := ExchangedRow(s, op, e);
    assert forall k :: k in t.credentials ==> t.credentials[k].token != token;
    hide Apply, Inv;
    if Resolve(t, token, at).Some? { ResolvesExactlyWhileValid(t, token, at, Resolve(t, token, at).value); }
    RejectionIsPermanent(t, ops, token, at, at);
  }

  lemma RunSplits(s: Store, op: Op, ops: seq<Op>)
    requires Run(s, [op] + ops)
    ensures DrawsFresh(s, op) && Run(Apply(s, op), ops) && After(s, [op] + ops) == After(Apply(s, op), ops)
  {
    hide Apply;
    assert ([op] + ops)[1..] == ops;
  }

  /**
   Whatever happens to the store afterwards, a token is refused at every time after the lifetime it was handed out with,
   which by default is 180 days for a device and one day for an exchanged token.
   */
  lemma TokensDieOnTime(s: Store, op: Op, ops: seq<Op>, at: int)
    requires Inv(s) && Run(s, [op] + ops) && HandsOut(s, op)
    requires || (op.ttl.Millis? && at > op.now + op.ttl.ms)
             || (op.ttl.Default? && op.Issue? && op.kind == Device && at > op.now + 15_552_000_000)
             || (op.ttl.Default? && op.Exchange? && at > op.now + 86_400_000)
    ensures Resolve(After(s, [op] + ops), op.draw.token, at).None?
  {
    RunSplits(s, op, ops);
    ApplyKeepsInv(s, op);
    if op.Issue? { IssueHandsOut(s, op, at); } else { var e := ExchangeHandsOut(s, op, at); }
    hide Apply, Inv;
    RejectionIsPermanent(Apply(s, op), ops, op.draw.token, at, at);
  }

  // ---- What is issued ------------------------------------------------------

  /** A backend that has an identity in this namespace. */
  ghost predicate HasIdentity(s: Store, b: BackendId, namespace: Namespace) {
    exists key :: key in s.identities && s.identities[key].backendId == b && s.identities[key].namespace == namespace
  }

  lemma KnownIs(s: Store, b: BackendId, namespace: Namespace)
    ensures Known(s, b, namespace) <==> HasIdentity(s, b, namespace)
  {
    assert forall key :: NamedBy(s, key, b) <==> key in s.identities && s.identities[key].backendId == b;
  }

  /**
   Only devices and enrollments are issued; only an enrollment can be for a given backend, which must exist in its
   namespace; only a device can have a scope, which must name existing backends of its namespace, and at least one. The
   row is what was asked for; an enrollment for no given backend gets a new one.
   */
  lemma IssuesExactly(s: Store, op: Op)
    requires DrawsFresh(s, op) && op.Issue?
    ensures HandsOut(s, op) <==>
            && op.kind != Access
            && (op.bound.Some? ==> op.kind == Enrollment && HasIdentity(s, op.bound.value, op.namespace))
            && (op.scope.Some? ==>
                  && op.kind == Device && op.scope.value != []
                  && forall b :: b in op.scope.value ==> HasIdentity(s, b, op.namespace))
    ensures !HandsOut(s, op) ==> Apply(s, op) == s
    ensures HandsOut(s, op) ==>
              var t := Apply(s, op);
              && op.draw.id in t.credentials && t.credentials == s.credentials[op.draw.id := t.credentials[op.draw.id]]
              && var row := t.credentials[op.draw.id];
              && row.kind == op.kind && row.token == op.draw.token && row.namespace == op.namespace
              && row.parent == None && row.revokedAt == None && row.scope == op.scope
              && row.backendId == (if op.kind == Device then None
                                   else if op.bound.Some? then op.bound else Some(op.draw.backendId))
              && (row.backendId.Some? ==> HasIdentity(t, row.backendId.value, op.namespace))
  {
    forall b ensures Known(s, b, op.namespace) <==> HasIdentity(s, b, op.namespace) { KnownIs(s, b, op.namespace); }
    var t := Apply(s, op);
    if Issuable(s, op) {
      if op.kind == Enrollment {
        if op.bound.Some? {
          KnownIs(t, op.bound.value, op.namespace);
          var key :| key in s.identities && s.identities[key].backendId == op.bound.value
            && s.identities[key].namespace == op.namespace;
          assert key in t.identities && t.identities[key] == s.identities[key];
        } else {
          assert Bound(op.draw.backendId) in t.identities;
        }
      }
    }
    hide Known;
  }

  // ---- Legacy ids ----------------------------------------------------------

  /**
   A legacy hello finds the id it was given as long as nobody forgets that backend, whatever else happens to the store;
   and two hellos that differ have two ids.
   */
  lemma {:induction false} LegacyIdsAreStable(s: Store, ops: seq<Op>, key: IdentityKey, draw: BackendId)
    requires Inv(s) && Run(s, ops) && key in s.identities
    requires forall op :: op in ops && op.Forget? ==> op.backendId != s.identities[key].backendId
    ensures key in After(s, ops).identities && LegacyId(After(s, ops), key, draw) == s.identities[key].backendId
    ensures forall other :: other in After(s, ops).identities && other != key ==>
              After(s, ops).identities[other].backendId != s.identities[key].backendId
    decreases |ops|
  {
    if ops == [] {
    } else {
      var t := Apply(s, ops[0]);
      assert ops[0] in ops;
      ApplyKeepsInv(s, ops[0]);
      IdentityStays(s, ops[0], key);
      LegacyIdsAreStable(t, ops[1..], key, draw);
    }
  }

  lemma IdentityStays(s: Store, op: Op, key: IdentityKey)
    requires DrawsFresh(s, op) && Inv(s) && key in s.identities
    requires op.Forget? ==> op.backendId != s.identities[key].backendId
    ensures var t := Apply(s, op); key in t.identities && t.identities[key].backendId == s.identities[key].backendId
  {
    if op.Revoke? { RevokingKeepsIdentities(s, op.ids, op.now); }
    hide RevokeCredentials, Resolve, Known, InUse;
  }

  lemma {:induction false} RevokingKeepsIdentities(s: Store, ids: seq<CredentialId>, now: int)
    ensures RevokeCredentials(s, ids, now).identities == s.identities
    decreases |ids|
  {
    if ids != [] { RevokingKeepsIdentities(RevokeCredential(s, ids[0], now), ids[1..], now); }
  }
}
